/** The note draft: the text being typed, the chosen category and whether the category row is
    shown. Inserting the current position, submitting and choosing a category step this state. */
module NoteInput {
  import opened Wrappers
  import opened Strings
  import opened Clock
  import NotesList
  import Notes

  /** `CATEGORIES`: the categories a draft can take, in the order the buttons show them. */
  const CategoryOptions: seq<string> := ["General", "Important", "Question", "Summary", "Code", "Reference"]

  const DefaultCategory: string := "General"

  /** The marker `insertTimestamp` appends to the draft: the `formatTimestamp` clock in square brackets, then a space. */
  function TimestampTag(time: nat): (r: string)
    ensures |r| == 11 && r[0] == '[' && r[9] == ']' && r[10] == ' '
    ensures ParseClock(r[1..9]) == Some(DaySecond(time))
  {
    FormatClockRoundTrip(time);
    assert ("[" + FormatClock(time) + "] ")[1..9] == FormatClock(time);
    "[" + FormatClock(time) + "] "
  }

  /** Two markers are equal exactly when their positions fall on the same second of the day. */
  lemma TimestampTagInjectiveModDay(t: nat, u: nat)
    ensures TimestampTag(t) == TimestampTag(u) <==> DaySecond(t) == DaySecond(u)
  {
    FormatClockInjectiveModDay(t, u);
    if TimestampTag(t) == TimestampTag(u) {
      assert TimestampTag(t)[1..9] == TimestampTag(u)[1..9];
    }
  }

  /** The marker inserted at a position shows the same clock as a note added at that position. */
  lemma TagMatchesNoteClock(id: string, time: nat, content: string, category: string)
    ensures TimestampTag(time)[1..9] == Notes.NewNote(id, time, content, category).formattedTime
  {
  }

  /** Every category a draft can take has its own badge colour in the notes list. */
  lemma OptionsHaveOwnColour()
    ensures forall k :: 0 <= k < |CategoryOptions| ==> CategoryOptions[k] in NotesList.Palette
    ensures forall j, k :: 0 <= j < k < |CategoryOptions| ==>
              NotesList.ColorFor(CategoryOptions[j]) != NotesList.ColorFor(CategoryOptions[k])
  {
    forall j, k | 0 <= j < k < |CategoryOptions|
      ensures NotesList.ColorFor(CategoryOptions[j]) != NotesList.ColorFor(CategoryOptions[k])
    {
      NotesList.ColorsDistinct(CategoryOptions[j], CategoryOptions[k]);
    }
  }

  /** What a successful submit hands to the page: the draft as typed and its category. */
  datatype Submission = Submission(content: string, category: string)

  class NoteDraft {
    var note: string
    var category: string
    var isExpanded: bool

    /** The category is always one of the offered options. */
    predicate Valid()
      reads this
    {
      category in CategoryOptions
    }

    constructor ()
      ensures Valid()
      ensures note == "" && category == DefaultCategory && !isExpanded
    {
      note := "";
      category := DefaultCategory;
      isExpanded := false;
    }

    /** Typing replaces the draft text. */
    method Edit(text: string)
      modifies this
      requires Valid()
      ensures Valid()
      ensures note == text && category == old(category) && isExpanded == old(isExpanded)
    {
      note := text;
    }

    /** Appends the position marker; what was typed stays in front of it. */
    method InsertTimestamp(currentTime: nat)
      modifies this
      requires Valid()
      ensures Valid()
      ensures note == old(note) + TimestampTag(currentTime)
      ensures old(note) <= note && |note| == |old(note)| + 11
      ensures category == old(category) && isExpanded == old(isExpanded)
    {
      var timestamp := TimestampTag(currentTime);
      note := note + timestamp;
    }

    /** A draft that is blank after trimming is refused and left as it is; any other draft is
        handed over untrimmed with its category, then cleared and the category row closed. */
    method Submit() returns (added: Option<Submission>)
      modifies this
      requires Valid()
      ensures Valid()
      ensures added.None? <==> IsBlank(old(note))
      ensures added.None? ==> note == old(note) && isExpanded == old(isExpanded)
      ensures added.Some? ==> added.value == Submission(old(note), old(category)) && note == "" && !isExpanded
      ensures added.Some? ==> added.value.category in CategoryOptions
      ensures category == old(category)
    {
      var trimmed := Trim(note);
      TrimEmptyIffBlank(note);
      if trimmed != "" {
        added := Some(Submission(note, category));
        note := "";
        isExpanded := false;
      } else {
        added := None;
      }
    }

    /** The tag button shows or hides the category row. */
    method ToggleExpanded()
      modifies this
      requires Valid()
      ensures Valid()
      ensures isExpanded == !old(isExpanded)
      ensures note == old(note) && category == old(category)
    {
      isExpanded := !isExpanded;
    }

    /** Focusing the text field shows the category row. */
    method Focus()
      modifies this
      requires Valid()
      ensures Valid()
      ensures isExpanded
      ensures note == old(note) && category == old(category)
    {
      isExpanded := true;
    }

    /** A category button sets the category; only the offered options have buttons. */
    method SelectCategory(cat: string)
      modifies this
      requires Valid()
      requires cat in CategoryOptions
      ensures Valid()
      ensures category == cat
      ensures note == old(note) && isExpanded == old(isExpanded)
    {
      category := cat;
    }
  }
}
