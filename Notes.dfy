/** The note record and the operations on the ordered note list: creation, delete-by-id,
    the first-seen list of categories and the notes of one category. */
module Notes {
  import opened Wrappers
  import opened Seqs
  import opened Clock

  /** A timestamped, categorised annotation. `timestamp` is whole seconds into the video. */
  datatype Note = Note(id: string, timestamp: nat, content: string, formattedTime: string, category: string)

  /** The cached rendering agrees with the timestamp, as it does for every note built by `NewNote`. */
  predicate Stamped(n: Note)
  {
    n.formattedTime == FormatClock(n.timestamp)
  }

  /** The record `handleAddNote` builds: the given id, the last-paused time, the text and category as given. */
  function NewNote(id: string, time: nat, content: string, category: string): (n: Note)
    ensures Stamped(n) && |n.formattedTime| == 8
    ensures ParseClock(n.formattedTime) == Some(DaySecond(time))
    ensures n.id == id && n.timestamp == time && n.content == content && n.category == category
  {
    FormatClockRoundTrip(time);
    Note(id, time, content, FormatClock(time), category)
  }

  /** No note in `notes` carries `id`. */
  predicate IdAbsent(notes: seq<Note>, id: string)
  {
    forall i :: 0 <= i < |notes| ==> notes[i].id != id
  }

  /** The filter predicate of delete-by-id. */
  function IdIsNot(id: string): Note -> bool
  {
    (n: Note) => n.id != id
  }

  /** The delete handler's filter: every note with that id is dropped, every other note kept, in order. */
  function DeleteNote(notes: seq<Note>, id: string): (r: seq<Note>)
    ensures IdAbsent(r, id)
    ensures forall i :: 0 <= i < |notes| && notes[i].id != id ==> notes[i] in r
    ensures forall i :: 0 <= i < |r| ==> r[i] in notes
    ensures IsSubsequence(r, notes)
    ensures forall n :: multiset(r)[n] == if n.id == id then 0 else multiset(notes)[n]
  {
    FilterIsSubsequence(IdIsNot(id), notes);
    FilterCount(IdIsNot(id), notes);
    FilterMembers(IdIsNot(id), notes);
    Filter(IdIsNot(id), notes)
  }

  /** Every note left by a delete was already there, so a property of every note survives it. */
  lemma DeleteKeepsStamped(notes: seq<Note>, id: string)
    requires forall i :: 0 <= i < |notes| ==> Stamped(notes[i])
    ensures forall i :: 0 <= i < |DeleteNote(notes, id)| ==> Stamped(DeleteNote(notes, id)[i])
  {
    var r := DeleteNote(notes, id);
    forall i | 0 <= i < |r| ensures Stamped(r[i]) {
      var j :| 0 <= j < |notes| && notes[j] == r[i];
    }
  }

  /** Deleting an id that no note carries changes nothing. */
  lemma DeleteAbsent(notes: seq<Note>, id: string)
    requires IdAbsent(notes, id)
    ensures DeleteNote(notes, id) == notes
  {
    FilterAll(IdIsNot(id), notes);
  }

  /** Adding a note with a fresh id and then deleting that id restores the list. */
  lemma DeleteAfterAdd(notes: seq<Note>, n: Note)
    requires IdAbsent(notes, n.id)
    ensures DeleteNote(notes + [n], n.id) == notes
  {
    FilterSnoc(IdIsNot(n.id), notes, n);
    DeleteAbsent(notes, n.id);
  }

  /** Ids are not unique (two notes added within one millisecond share one): one delete removes both. */
  lemma DeleteRemovesEveryMatch(a: Note, b: Note)
    requires a.id == b.id
    ensures DeleteNote([a, b], a.id) == []
  {
    assert [a, b][1..] == [b];
  }

  /** Some note of `notes` has category `c`. */
  predicate HasCategory(notes: seq<Note>, c: string)
  {
    exists i :: 0 <= i < |notes| && notes[i].category == c
  }

  /** No category is listed twice. */
  predicate Distinct(cs: seq<string>)
  {
    forall i, j :: 0 <= i < j < |cs| ==> cs[i] != cs[j]
  }

  /** The categories present in `notes`, each once, in the order they are first met
      (the insertion order of the notes list's category set, and the key order of the export's grouping). */
  function Categories(notes: seq<Note>): (cs: seq<string>)
    ensures Distinct(cs)
    ensures forall c :: c in cs <==> HasCategory(notes, c)
  {
    if notes == [] then []
    else
      var prev := Categories(notes[..|notes| - 1]);
      var c := notes[|notes| - 1].category;
      assert forall d :: HasCategory(notes, d) <==> HasCategory(notes[..|notes| - 1], d) || d == c by {
        forall d | HasCategory(notes, d) && d != c ensures HasCategory(notes[..|notes| - 1], d) {
          var i :| 0 <= i < |notes| && notes[i].category == d;
          assert notes[..|notes| - 1][i].category == d;
        }
        forall d | HasCategory(notes[..|notes| - 1], d) ensures HasCategory(notes, d) {
          var i :| 0 <= i < |notes| - 1 && notes[..|notes| - 1][i].category == d;
          assert notes[i].category == d;
        }
      }
      if c in prev then prev else prev + [c]
  }

  /** The index of the first note with category `c`, or `|notes|` when there is none. */
  function FirstIndex(notes: seq<Note>, c: string): (k: nat)
    ensures k <= |notes|
    ensures k < |notes| ==> notes[k].category == c
    ensures forall i :: 0 <= i < k ==> notes[i].category != c
  {
    if notes == [] then 0
    else if notes[0].category == c then 0
    else 1 + FirstIndex(notes[1..], c)
  }

  /** Appending a note does not move the first occurrence of a category already present. */
  lemma FirstIndexSnoc(notes: seq<Note>, n: Note, c: string)
    ensures FirstIndex(notes + [n], c) == if FirstIndex(notes, c) < |notes| then FirstIndex(notes, c)
                                         else if n.category == c then |notes| else |notes| + 1
  {
    var k, k' := FirstIndex(notes, c), FirstIndex(notes + [n], c);
    if k < |notes| {
      assert (notes + [n])[k] == notes[k];
    } else if n.category == c {
      assert (notes + [n])[|notes|] == n;
    }
  }

  /** The category list is in first-seen order: an earlier entry was met earlier in `notes`. */
  lemma {:induction false} CategoriesFirstSeen(notes: seq<Note>)
    ensures forall i, j :: 0 <= i < j < |Categories(notes)| ==>
              FirstIndex(notes, Categories(notes)[i]) < FirstIndex(notes, Categories(notes)[j])
    ensures forall i :: 0 <= i < |Categories(notes)| ==> FirstIndex(notes, Categories(notes)[i]) < |notes|
  {
    if notes != [] {
      var prefix, n := notes[..|notes| - 1], notes[|notes| - 1];
      assert notes == prefix + [n];
      CategoriesFirstSeen(prefix);
      var prev, cs := Categories(prefix), Categories(notes);
      forall i | 0 <= i < |cs|
        ensures FirstIndex(notes, cs[i]) == if i < |prev| then FirstIndex(prefix, cs[i]) else |prefix|
      {
        FirstIndexSnoc(prefix, n, cs[i]);
        if i == |prev| {
          assert !HasCategory(prefix, cs[i]);
        }
      }
    }
  }

  /** The filter predicate that selects one category. */
  function InCategory(c: string): Note -> bool
  {
    (n: Note) => n.category == c
  }

  /** The notes of category `c`, in their original relative order. */
  function NotesIn(notes: seq<Note>, c: string): seq<Note>
  {
    Filter(InCategory(c), notes)
  }

  /** A category's group holds exactly the notes of that category, as a subsequence of the list. */
  lemma NotesInSpec(notes: seq<Note>, c: string)
    ensures forall i :: 0 <= i < |NotesIn(notes, c)| ==> NotesIn(notes, c)[i].category == c && NotesIn(notes, c)[i] in notes
    ensures forall i :: 0 <= i < |notes| && notes[i].category == c ==> notes[i] in NotesIn(notes, c)
    ensures IsSubsequence(NotesIn(notes, c), notes)
  {
    FilterIsSubsequence(InCategory(c), notes);
    FilterMembers(InCategory(c), notes);
  }

  /** One more note joins the group of its own category and no other. */
  lemma NotesInSnoc(notes: seq<Note>, n: Note, c: string)
    ensures NotesIn(notes + [n], c) == NotesIn(notes, c) + (if n.category == c then [n] else [])
  {
    FilterSnoc(InCategory(c), notes, n);
  }

  /** A category has an empty group exactly when no note carries it. */
  lemma NotesInEmpty(notes: seq<Note>, c: string)
    ensures NotesIn(notes, c) == [] <==> !HasCategory(notes, c)
  {
    var r := NotesIn(notes, c);
    NotesInSpec(notes, c);
    if r != [] {
      assert r[0] in notes;
      var k :| 0 <= k < |notes| && notes[k] == r[0];
    }
    if HasCategory(notes, c) {
      var k :| 0 <= k < |notes| && notes[k].category == c;
      assert notes[k] in r;
    }
  }
}
