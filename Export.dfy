/** The PDF export: notes grouped by category in first-seen order, laid out with a vertical
    cursor that starts a new page whenever it has passed the bottom threshold. The document
    is modelled as the sequence of drawing events the exporter emits. */
module Export {
  import opened Wrappers
  import opened Strings
  import opened Seqs
  import opened Notes

  /** The loaded video's details; the export reads only the title. */
  datatype VideoDetails = VideoDetails(title: string, description: string, thumbnail: string)

  /** One drawing call on the document: a text at (x, y), a page break, or the final save. */
  datatype Event = Text(x: int, y: int, text: string) | NewPage | Save(fileName: string)

  /** A category and its notes, one entry of `Object.entries(notesByCategory)`. */
  datatype Group = Group(category: string, notes: seq<Note>)

  /** The cursor position and the events emitted so far. */
  datatype Layout = Layout(y: int, events: seq<Event>)

  const PageTop: int := 20
  const PageLimit: int := 270

  // ---------------------------------------------------------------------------------
  // Grouping keys
  // ---------------------------------------------------------------------------------

  /** A canonical array-index string ("0", "17", ..., up to 2^32 - 2): `Object.entries` lists such keys first, numerically. */
  predicate IsArrayIndexKey(s: string)
  {
    && |s| >= 1
    && (forall i :: 0 <= i < |s| ==> '0' <= s[i] <= '9')
    && (|s| == 1 || s[0] != '0')
    && DecimalValue(s) < 0xFFFF_FFFF
  }

  /** The names an object literal inherits from `Object.prototype`; `acc[name]` is already truthy for them. */
  const PrototypeNames: set<string> := {
    "constructor", "__defineGetter__", "__defineSetter__", "hasOwnProperty", "__lookupGetter__",
    "__lookupSetter__", "isPrototypeOf", "propertyIsEnumerable", "toString", "valueOf", "__proto__",
    "toLocaleString"
  }

  /** A category that behaves as an ordinary own key of a fresh object literal, listed in insertion order. */
  predicate PlainKey(s: string)
  {
    !IsArrayIndexKey(s) && s !in PrototypeNames
  }

  predicate PlainCategories(notes: seq<Note>)
  {
    forall i :: 0 <= i < |notes| ==> PlainKey(notes[i].category)
  }

  /** The groups the export walks: one per category, first-seen order, each holding that category's notes in order. */
  function Grouped(notes: seq<Note>): (gs: seq<Group>)
    ensures |gs| == |Categories(notes)|
    ensures forall k :: 0 <= k < |gs| ==> gs[k].category == Categories(notes)[k]
  {
    GroupsFor(notes, Categories(notes))
  }

  /** The accumulator `notesByCategory` after the `reduce` has seen `prefix`: on each note, create the
      category's array on first sight, then push the note. */
  function GroupMap(prefix: seq<Note>): map<string, seq<Note>>
  {
    if prefix == [] then map[]
    else
      var g, note := GroupMap(prefix[..|prefix| - 1]), prefix[|prefix| - 1];
      var base := if note.category in g then g else g[note.category := []];
      base[note.category := base[note.category] + [note]]
  }

  /** The accumulator holds one non-empty entry per category present, with exactly that category's notes in order. */
  lemma {:induction false} GroupMapSpec(notes: seq<Note>)
    ensures forall c :: c in GroupMap(notes) <==> c in Categories(notes)
    ensures forall c :: c in GroupMap(notes) ==> GroupMap(notes)[c] == NotesIn(notes, c) && GroupMap(notes)[c] != []
  {
    if notes != [] {
      var prefix, note := notes[..|notes| - 1], notes[|notes| - 1];
      assert notes == prefix + [note];
      GroupMapSpec(prefix);
      forall c | c in GroupMap(notes) ensures GroupMap(notes)[c] == NotesIn(notes, c) {
        NotesInSnoc(prefix, note, c);
        if c == note.category && c !in GroupMap(prefix) {
          NotesInEmpty(prefix, c);
        }
      }
    }
  }

  /** The `reduce` that pushes each note into `acc[note.category]`, creating the array on first sight;
      the key list records the object's insertion order, which is the order `Object.entries` reports
      for keys that are neither array indices nor inherited names. */
  method GroupByCategory(notes: seq<Note>) returns (keys: seq<string>, groups: map<string, seq<Note>>)
    requires PlainCategories(notes)
    ensures keys == Categories(notes)
    ensures forall c :: c in groups <==> c in keys
    ensures forall c :: c in groups ==> groups[c] == NotesIn(notes, c) && groups[c] != []
  {
    keys, groups := [], map[];
    var i := 0;
    while i < |notes|
      invariant 0 <= i <= |notes|
      invariant keys == Categories(notes[..i]) && groups == GroupMap(notes[..i])
    {
      var note := notes[i];
      assert notes[..i + 1][..i] == notes[..i];
      GroupMapSpec(notes[..i]);
      if note.category !in groups {
        groups := groups[note.category := []];
        keys := keys + [note.category];
      }
      groups := groups[note.category := groups[note.category] + [note]];
      i := i + 1;
    }
    assert notes[..i] == notes;
    GroupMapSpec(notes);
  }

  /** Concatenation of the groups' notes, in group order. */
  function Flatten(gs: seq<Group>): seq<Note>
  {
    if gs == [] then [] else Flatten(gs[..|gs| - 1]) + gs[|gs| - 1].notes
  }

  /** The groups for a given key list. */
  function GroupsFor(notes: seq<Note>, cs: seq<string>): (gs: seq<Group>)
    ensures |gs| == |cs|
    ensures forall k :: 0 <= k < |cs| ==> gs[k] == Group(cs[k], NotesIn(notes, cs[k]))
  {
    seq(|cs|, k requires 0 <= k < |cs| => Group(cs[k], NotesIn(notes, cs[k])))
  }

  lemma {:induction false} FlattenNoNotes(cs: seq<string>)
    ensures Flatten(GroupsFor([], cs)) == []
  {
    if cs != [] {
      var cs' := cs[..|cs| - 1];
      assert GroupsFor([], cs)[..|cs| - 1] == GroupsFor([], cs');
      FlattenNoNotes(cs');
    }
  }

  lemma MultisetRegroup<T>(a: multiset<T>, b: multiset<T>, c: multiset<T>, d: multiset<T>)
    ensures a + b + c + d == (a + c) + (b + d)
  {
  }

  /** One more note lands in exactly the group of its category (keys being distinct). */
  lemma {:induction false} FlattenSnoc(notes: seq<Note>, n: Note, cs: seq<string>)
    requires Distinct(cs)
    ensures multiset(Flatten(GroupsFor(notes + [n], cs)))
         == multiset(Flatten(GroupsFor(notes, cs))) + (if n.category in cs then multiset{n} else multiset{})
  {
    if cs != [] {
      var cs', c := cs[..|cs| - 1], cs[|cs| - 1];
      FlattenGroupsForLast(notes + [n], cs);
      FlattenGroupsForLast(notes, cs);
      FlattenSnoc(notes, n, cs');
      NotesInSnoc(notes, n, c);
      LastKey(cs, n.category);
      var x := if n.category in cs' then multiset{n} else multiset{};
      var y := if n.category == c then multiset{n} else multiset{};
      var m', n0 := multiset(Flatten(GroupsFor(notes, cs'))), multiset(NotesIn(notes, c));
      assert multiset(Flatten(GroupsFor(notes + [n], cs))) == m' + x + n0 + y;
      assert multiset(Flatten(GroupsFor(notes, cs))) == m' + n0;
      assert x + y == if n.category in cs then multiset{n} else multiset{};
      MultisetRegroup(m', x, n0, y);
    } else {
      assert GroupsFor(notes + [n], cs) == [] && GroupsFor(notes, cs) == [];
    }
  }

  /** The last key's group closes the flattened sequence. */
  lemma FlattenGroupsForLast(notes: seq<Note>, cs: seq<string>)
    requires cs != []
    ensures Flatten(GroupsFor(notes, cs)) == Flatten(GroupsFor(notes, cs[..|cs| - 1])) + NotesIn(notes, cs[|cs| - 1])
  {
    assert GroupsFor(notes, cs)[..|cs| - 1] == GroupsFor(notes, cs[..|cs| - 1]);
  }

  /** With distinct keys, a key is the last one or one of the others, not both. */
  lemma LastKey(cs: seq<string>, k: string)
    requires Distinct(cs) && cs != []
    ensures k in cs <==> k == cs[|cs| - 1] || k in cs[..|cs| - 1]
    ensures !(k == cs[|cs| - 1] && k in cs[..|cs| - 1])
  {
    if k in cs {
      var i :| 0 <= i < |cs| && cs[i] == k;
      if i < |cs| - 1 { assert cs[..|cs| - 1][i] == cs[i]; }
    }
    if k in cs[..|cs| - 1] {
      var i :| 0 <= i < |cs| - 1 && cs[..|cs| - 1][i] == k;
      assert cs[i] == k;
    }
  }

  /** With distinct keys covering every category, the groups hold every note exactly once. */
  lemma {:induction false} FlattenPermutes(notes: seq<Note>, cs: seq<string>)
    requires Distinct(cs)
    requires forall i :: 0 <= i < |notes| ==> notes[i].category in cs
    ensures multiset(Flatten(GroupsFor(notes, cs))) == multiset(notes)
  {
    if notes == [] {
      FlattenNoNotes(cs);
    } else {
      var prefix, n := notes[..|notes| - 1], notes[|notes| - 1];
      assert notes == prefix + [n];
      FlattenPermutes(prefix, cs);
      FlattenSnoc(prefix, n, cs);
    }
  }

  /** Each export group is non-empty, holds only notes of its own category, keeps their original
      order, and no category heads two groups. */
  lemma GroupedSections(notes: seq<Note>)
    ensures forall j, k :: 0 <= j < k < |Grouped(notes)| ==> Grouped(notes)[j].category != Grouped(notes)[k].category
    ensures forall k :: 0 <= k < |Grouped(notes)| ==>
              Grouped(notes)[k].notes != [] && IsSubsequence(Grouped(notes)[k].notes, notes) &&
              forall m :: 0 <= m < |Grouped(notes)[k].notes| ==> Grouped(notes)[k].notes[m].category == Grouped(notes)[k].category
  {
    var cs, gs := Categories(notes), Grouped(notes);
    forall k | 0 <= k < |gs|
      ensures gs[k].notes != [] && IsSubsequence(gs[k].notes, notes)
      ensures forall m :: 0 <= m < |gs[k].notes| ==> gs[k].notes[m].category == gs[k].category
    {
      assert gs[k] == Group(cs[k], NotesIn(notes, cs[k]));
      NotesInEmpty(notes, cs[k]);
      NotesInSpec(notes, cs[k]);
    }
  }

  /** Together the export groups hold every note exactly once. */
  lemma GroupedPartitions(notes: seq<Note>)
    ensures multiset(Flatten(Grouped(notes))) == multiset(notes)
  {
    var cs := Categories(notes);
    assert Grouped(notes) == GroupsFor(notes, cs);
    forall i | 0 <= i < |notes| ensures notes[i].category in cs {
      assert HasCategory(notes, notes[i].category);
    }
    FlattenPermutes(notes, cs);
  }

  /** Two notes of different categories give two sections in encounter order, each holding exactly its note. */
  lemma GroupedTwoCategories(a: Note, b: Note)
    requires a.category == "General" && b.category == "Important"
    ensures Grouped([a, b]) == [Group("General", [a]), Group("Important", [b])]
  {
    assert [a, b][..1] == [a] && [a][..0] == [];
    assert Categories([a]) == ["General"];
    assert Categories([a, b]) == ["General", "Important"];
    assert [a, b][1..] == [b] && [b][1..] == [];
    assert InCategory("General")(a) && !InCategory("General")(b);
    assert InCategory("Important")(b) && !InCategory("Important")(a);
    assert Filter(InCategory("General"), [b]) == [];
    assert NotesIn([a, b], "General") == [a];
    assert Filter(InCategory("Important"), [b]) == [b];
    assert NotesIn([a, b], "Important") == [b];
  }

  // ---------------------------------------------------------------------------------
  // Layout: the specification of the cursor walk
  // ---------------------------------------------------------------------------------

  /** The page-break check in `handleExportPDF`: a cursor past the threshold starts a new page at the top margin. */
  function BreakIfFull(st: Layout): (r: Layout)
    ensures st.y >= PageTop ==> PageTop <= r.y <= PageLimit
  {
    if st.y > PageLimit then Layout(PageTop, st.events + [NewPage]) else st
  }

  /** One note: its `[HH:MM:SS]` stamp at x = 20 and its wrapped text at x = 35, both on the cursor line;
      the cursor then moves by 10 plus 7 per wrapped line (`wrap` gives the number of lines the PDF library wraps a body into at width 170). */
  function PlaceNote(st: Layout, n: Note, wrap: string -> nat): Layout
  {
    var b := BreakIfFull(st);
    Layout(b.y + 10 + 7 * wrap(n.content), b.events + [Text(20, b.y, "[" + n.formattedTime + "]"), Text(35, b.y, n.content)])
  }

  function PlaceNotes(st: Layout, ns: seq<Note>, wrap: string -> nat): Layout
  {
    if ns == [] then st else PlaceNote(PlaceNotes(st, ns[..|ns| - 1], wrap), ns[|ns| - 1], wrap)
  }

  /** The category heading: written on the cursor line, then the cursor moves by 10. */
  function PlaceHeading(st: Layout, category: string): Layout
  {
    var b := BreakIfFull(st);
    Layout(b.y + 10, b.events + [Text(20, b.y, category)])
  }

  /** A whole group: heading, its notes, then a gap of 5. */
  function PlaceGroup(st: Layout, g: Group, wrap: string -> nat): Layout
  {
    var r := PlaceNotes(PlaceHeading(st, g.category), g.notes, wrap);
    Layout(r.y + 5, r.events)
  }

  function PlaceGroups(st: Layout, gs: seq<Group>, wrap: string -> nat): Layout
  {
    if gs == [] then st else PlaceGroup(PlaceGroups(st, gs[..|gs| - 1], wrap), gs[|gs| - 1], wrap)
  }

  /** The title block: "Video Notes" at 20, the video title at 35 when details are loaded, the id line; the cursor ends at 45 or 60. */
  function Header(videoId: string, details: Option<VideoDetails>): (st: Layout)
    ensures st.y == if details.Some? then 60 else 45
  {
    var titled := Layout(35, [Text(20, 20, "Video Notes")]);
    var detailed := if details.Some? then Layout(50, titled.events + [Text(20, 35, details.value.title)]) else titled;
    Layout(detailed.y + 10, detailed.events + [Text(20, detailed.y, "Video ID: " + videoId)])
  }

  /** The saved file's name: the video title followed by "-notes.pdf", where a missing or empty title falls back to "video". */
  function FileName(details: Option<VideoDetails>): (r: string)
    ensures |r| >= 10 && r[|r| - 10..] == "-notes.pdf"
    ensures details.Some? && details.value.title != "" ==> r[..|r| - 10] == details.value.title
    ensures details.None? || details.value.title == "" ==> r == "video-notes.pdf"
  {
    (if details.Some? && details.value.title != "" then details.value.title else "video") + "-notes.pdf"
  }

  /** Everything `handleExportPDF` draws, in order, ending with the save. */
  function ExportLayout(notes: seq<Note>, videoId: string, details: Option<VideoDetails>, wrap: string -> nat): seq<Event>
  {
    PlaceGroups(Header(videoId, details), Grouped(notes), wrap).events + [Save(FileName(details))]
  }

  // ---------------------------------------------------------------------------------
  // Properties of the layout
  // ---------------------------------------------------------------------------------

  /** Every text is drawn between the top margin and the break threshold. */
  predicate WithinPage(es: seq<Event>)
  {
    forall k :: 0 <= k < |es| && es[k].Text? ==> PageTop <= es[k].y <= PageLimit
  }

  lemma {:induction false} PlaceNotesWithinPage(st: Layout, ns: seq<Note>, wrap: string -> nat)
    requires st.y >= PageTop && WithinPage(st.events)
    ensures PlaceNotes(st, ns, wrap).y >= PageTop && WithinPage(PlaceNotes(st, ns, wrap).events)
  {
    if ns != [] {
      PlaceNotesWithinPage(st, ns[..|ns| - 1], wrap);
    }
  }

  lemma {:induction false} PlaceGroupsWithinPage(st: Layout, gs: seq<Group>, wrap: string -> nat)
    requires st.y >= PageTop && WithinPage(st.events)
    ensures PlaceGroups(st, gs, wrap).y >= PageTop && WithinPage(PlaceGroups(st, gs, wrap).events)
  {
    if gs != [] {
      var mid := PlaceGroups(st, gs[..|gs| - 1], wrap);
      PlaceGroupsWithinPage(st, gs[..|gs| - 1], wrap);
      PlaceNotesWithinPage(PlaceHeading(mid, gs[|gs| - 1].category), gs[|gs| - 1].notes, wrap);
    }
  }

  /** Because the cursor is checked before every heading and every note, each heading and each
      `[HH:MM:SS]` line (and the first line of each note body) starts at 20 <= y <= 270. */
  lemma ExportWithinPage(notes: seq<Note>, videoId: string, details: Option<VideoDetails>, wrap: string -> nat)
    ensures WithinPage(ExportLayout(notes, videoId, details, wrap))
  {
    PlaceGroupsWithinPage(Header(videoId, details), Grouped(notes), wrap);
  }

  /** The strings drawn, in order, page breaks and the save left out. */
  function Texts(es: seq<Event>): seq<string>
  {
    if es == [] then [] else Texts(es[..|es| - 1]) + (if es[|es| - 1].Text? then [es[|es| - 1].text] else [])
  }

  lemma {:induction false} TextsAppend(a: seq<Event>, b: seq<Event>)
    ensures Texts(a + b) == Texts(a) + Texts(b)
  {
    if b == [] {
      assert a + b == a;
    } else {
      assert (a + b)[..|a + b| - 1] == a + b[..|b| - 1];
      assert (a + b)[|a + b| - 1] == b[|b| - 1];
      TextsAppend(a, b[..|b| - 1]);
    }
  }

  /** What a list of notes contributes: stamp then body, note after note. */
  function NoteTexts(ns: seq<Note>): seq<string>
  {
    if ns == [] then [] else NoteTexts(ns[..|ns| - 1]) + ["[" + ns[|ns| - 1].formattedTime + "]", ns[|ns| - 1].content]
  }

  /** What the groups contribute: each heading followed by its notes. */
  function GroupsTexts(gs: seq<Group>): seq<string>
  {
    if gs == [] then [] else GroupsTexts(gs[..|gs| - 1]) + [gs[|gs| - 1].category] + NoteTexts(gs[|gs| - 1].notes)
  }

  lemma {:induction false} PlaceNotesTexts(st: Layout, ns: seq<Note>, wrap: string -> nat)
    ensures Texts(PlaceNotes(st, ns, wrap).events) == Texts(st.events) + NoteTexts(ns)
  {
    if ns != [] {
      var mid, n := PlaceNotes(st, ns[..|ns| - 1], wrap), ns[|ns| - 1];
      PlaceNotesTexts(st, ns[..|ns| - 1], wrap);
      var b := BreakIfFull(mid);
      BreakIfFullTexts(mid);
      var two := [Text(20, b.y, "[" + n.formattedTime + "]"), Text(35, b.y, n.content)];
      TextsAppend(b.events, two);
      assert Texts(two) == ["[" + n.formattedTime + "]", n.content] by {
        assert two[..1][..0] == [];
        assert Texts(two[..1]) == ["[" + n.formattedTime + "]"];
      }
      assert PlaceNotes(st, ns, wrap).events == b.events + two;
      var a, p, q := Texts(st.events), NoteTexts(ns[..|ns| - 1]), ["[" + n.formattedTime + "]", n.content];
      assert NoteTexts(ns) == p + q;
      assert (a + p) + q == a + (p + q);
    }
  }

  /** A page break adds no text. */
  lemma BreakIfFullTexts(st: Layout)
    ensures Texts(BreakIfFull(st).events) == Texts(st.events)
  {
    TextsAppend(st.events, [NewPage]);
    assert [NewPage][..0] == [];
  }

  lemma PlaceHeadingTexts(st: Layout, category: string)
    ensures Texts(PlaceHeading(st, category).events) == Texts(st.events) + [category]
  {
    var b := BreakIfFull(st);
    TextsAppend(st.events, [NewPage]);
    TextsAppend(b.events, [Text(20, b.y, category)]);
    assert [NewPage][..0] == [] && [Text(20, b.y, category)][..0] == [];
  }

  lemma {:induction false} PlaceGroupsTexts(st: Layout, gs: seq<Group>, wrap: string -> nat)
    ensures Texts(PlaceGroups(st, gs, wrap).events) == Texts(st.events) + GroupsTexts(gs)
  {
    if gs != [] {
      var mid := PlaceGroups(st, gs[..|gs| - 1], wrap);
      var g := gs[|gs| - 1];
      PlaceGroupsTexts(st, gs[..|gs| - 1], wrap);
      var headed := PlaceHeading(mid, g.category);
      PlaceHeadingTexts(mid, g.category);
      PlaceNotesTexts(headed, g.notes, wrap);
      assert PlaceGroups(st, gs, wrap).events == PlaceNotes(headed, g.notes, wrap).events;
      var a, b, c, d := Texts(st.events), GroupsTexts(gs[..|gs| - 1]), [g.category], NoteTexts(g.notes);
      assert GroupsTexts(gs) == b + c + d;
      assert (a + b + c) + d == a + (b + c + d);
    }
  }

  /** The title block's strings. */
  function HeaderTexts(videoId: string, details: Option<VideoDetails>): seq<string>
  {
    ["Video Notes"] + (if details.Some? then [details.value.title] else []) + ["Video ID: " + videoId]
  }

  /** Page breaks never drop, repeat or reorder content: the document reads as the title block, then
      for each category in first-seen order its heading and its notes' stamps and bodies. */
  lemma ExportTexts(notes: seq<Note>, videoId: string, details: Option<VideoDetails>, wrap: string -> nat)
    ensures Texts(ExportLayout(notes, videoId, details, wrap)) == HeaderTexts(videoId, details) + GroupsTexts(Grouped(notes))
  {
    var h := Header(videoId, details);
    var r := PlaceGroups(h, Grouped(notes), wrap);
    PlaceGroupsTexts(h, Grouped(notes), wrap);
    TextsAppend(r.events, [Save(FileName(details))]);
    assert Texts(h.events) == HeaderTexts(videoId, details) by {
      var e0 := [Text(20, 20, "Video Notes")];
      assert Texts(e0) == ["Video Notes"] by {
        assert e0[..0] == [];
      }
      if details.Some? {
        var e1 := e0 + [Text(20, 35, details.value.title)];
        assert e1[..1] == e0;
        assert h.events[..2] == e1;
      } else {
        assert h.events[..1] == e0;
      }
    }
  }

  /** The number of page breaks among the events. */
  function Breaks(es: seq<Event>): nat
  {
    if es == [] then 0 else Breaks(es[..|es| - 1]) + (if es[|es| - 1].NewPage? then 1 else 0)
  }

  lemma {:induction false} BreaksAppend(a: seq<Event>, b: seq<Event>)
    ensures Breaks(a + b) == Breaks(a) + Breaks(b)
  {
    if b == [] {
      assert a + b == a;
    } else {
      assert (a + b)[..|a + b| - 1] == a + b[..|b| - 1];
      assert (a + b)[|a + b| - 1] == b[|b| - 1];
      BreaksAppend(a, b[..|b| - 1]);
    }
  }

  /** The total advance of a list of notes: 10 plus 7 per wrapped line each. */
  function NotesHeight(ns: seq<Note>, wrap: string -> nat): nat
  {
    if ns == [] then 0 else NotesHeight(ns[..|ns| - 1], wrap) + 10 + 7 * wrap(ns[|ns| - 1].content)
  }

  /** The total advance of the groups: 10 per heading, the notes, 5 per group. */
  function GroupsHeight(gs: seq<Group>, wrap: string -> nat): nat
  {
    if gs == [] then 0 else GroupsHeight(gs[..|gs| - 1], wrap) + 10 + NotesHeight(gs[|gs| - 1].notes, wrap) + 5
  }

  /** A page break happens only past 270 and resets to 20, so each one takes at least 251 off the cursor. */
  lemma BreakIfFullAdvance(st: Layout)
    ensures var b := BreakIfFull(st); var k := Breaks(b.events) - Breaks(st.events);
            (k == 0 || k == 1) && b.y + 251 * k <= st.y && (k == 0 ==> b.y == st.y)
  {
    BreaksAppend(st.events, [NewPage]);
    assert [NewPage][..0] == [];
  }

  lemma {:induction false} PlaceNotesAdvance(st: Layout, ns: seq<Note>, wrap: string -> nat)
    ensures var r := PlaceNotes(st, ns, wrap); var k := Breaks(r.events) - Breaks(st.events);
            k >= 0 && r.y + 251 * k <= st.y + NotesHeight(ns, wrap) && (k == 0 ==> r.y == st.y + NotesHeight(ns, wrap))
  {
    if ns != [] {
      var mid := PlaceNotes(st, ns[..|ns| - 1], wrap);
      var n := ns[|ns| - 1];
      PlaceNotesAdvance(st, ns[..|ns| - 1], wrap);
      BreakIfFullAdvance(mid);
      var b := BreakIfFull(mid);
      BreaksAppend(b.events, [Text(20, b.y, "[" + n.formattedTime + "]"), Text(35, b.y, n.content)]);
      var two := [Text(20, b.y, "[" + n.formattedTime + "]"), Text(35, b.y, n.content)];
      assert Breaks(two[..1]) == 0 by {
        assert two[..1][..0] == [];
      }
      assert Breaks(two) == 0;
      assert PlaceNotes(st, ns, wrap) == Layout(b.y + 10 + 7 * wrap(n.content), b.events + two);
    }
  }

  lemma {:induction false} PlaceGroupsAdvance(st: Layout, gs: seq<Group>, wrap: string -> nat)
    ensures var r := PlaceGroups(st, gs, wrap); var k := Breaks(r.events) - Breaks(st.events);
            k >= 0 && r.y + 251 * k <= st.y + GroupsHeight(gs, wrap) && (k == 0 ==> r.y == st.y + GroupsHeight(gs, wrap))
  {
    if gs != [] {
      var mid := PlaceGroups(st, gs[..|gs| - 1], wrap);
      var g := gs[|gs| - 1];
      PlaceGroupsAdvance(st, gs[..|gs| - 1], wrap);
      BreakIfFullAdvance(mid);
      var b := BreakIfFull(mid);
      BreaksAppend(b.events, [Text(20, b.y, g.category)]);
      assert [Text(20, b.y, g.category)][..0] == [];
      PlaceNotesAdvance(PlaceHeading(mid, g.category), g.notes, wrap);
    }
  }

  /** Page accounting for the whole export: every added page is paid for by at least 251 units of
      advance, so a document whose content ends at or above the threshold is a single page, and without
      a break the cursor sums the advances exactly (45 or 60, plus 10 per heading, 10 + 7 per wrapped
      line per note, 5 per group). */
  lemma ExportPages(notes: seq<Note>, videoId: string, details: Option<VideoDetails>, wrap: string -> nat)
    ensures var total := Header(videoId, details).y + GroupsHeight(Grouped(notes), wrap);
            251 * Breaks(ExportLayout(notes, videoId, details, wrap)) <= total - PageTop
    ensures Header(videoId, details).y + GroupsHeight(Grouped(notes), wrap) <= PageLimit ==>
              Breaks(ExportLayout(notes, videoId, details, wrap)) == 0
    ensures Breaks(ExportLayout(notes, videoId, details, wrap)) == 0 ==>
              PlaceGroups(Header(videoId, details), Grouped(notes), wrap).y ==
              Header(videoId, details).y + GroupsHeight(Grouped(notes), wrap)
  {
    var h, gs := Header(videoId, details), Grouped(notes);
    var r := PlaceGroups(h, gs, wrap);
    var save := [Save(FileName(details))];
    assert ExportLayout(notes, videoId, details, wrap) == r.events + save;
    PlaceGroupsAdvance(h, gs, wrap);
    PlaceGroupsWithinPage(h, gs, wrap);
    BreaksAppend(r.events, save);
    assert Breaks(save) == 0 by {
      assert save[..0] == [];
    }
    HeaderBreaks(videoId, details);
  }

  /** The title block fits on the first page. */
  lemma HeaderBreaks(videoId: string, details: Option<VideoDetails>)
    ensures Breaks(Header(videoId, details).events) == 0
  {
    var h := Header(videoId, details);
    var e0 := [Text(20, 20, "Video Notes")];
    assert e0[..0] == [];
    if details.Some? {
      var e1 := [Text(20, 35, details.value.title)];
      BreaksAppend(e0, e1);
      assert e1[..0] == [];
      assert h.events[..2] == e0 + e1;
    } else {
      assert h.events[..1] == e0;
    }
  }

  // ---------------------------------------------------------------------------------
  // The exporter as the source runs it
  // ---------------------------------------------------------------------------------

  /** `Object.entries(notesByCategory)`: each key with its array, in key order. */
  function Entries(keys: seq<string>, groups: map<string, seq<Note>>): (gs: seq<Group>)
    requires forall k :: 0 <= k < |keys| ==> keys[k] in groups
    ensures |gs| == |keys| && forall k :: 0 <= k < |keys| ==> gs[k].category == keys[k] && gs[k].notes == groups[keys[k]]
  {
    seq(|keys|, k requires 0 <= k < |keys| => Group(keys[k], groups[keys[k]]))
  }

  /** The `forEach` over the entries and, inside it, over each category's notes: a heading per group,
      a stamp and a wrapped body per note, a page break whenever the cursor has passed the threshold. */
  method WriteGroups(y0: int, events0: seq<Event>, entries: seq<Group>, wrap: string -> nat)
    returns (y: int, events: seq<Event>)
    ensures Layout(y, events) == PlaceGroups(Layout(y0, events0), entries, wrap)
  {
    y, events := y0, events0;
    var i := 0;
    while i < |entries|
      invariant 0 <= i <= |entries|
      invariant Layout(y, events) == PlaceGroups(Layout(y0, events0), entries[..i], wrap)
    {
      var category, categoryNotes := entries[i].category, entries[i].notes;
      ghost var before := Layout(y, events);
      if y > PageLimit {
        events := events + [NewPage];
        y := PageTop;
      }
      events := events + [Text(20, y, category)];
      y := y + 10;
      ghost var headed := Layout(y, events);
      assert headed == PlaceHeading(before, category);
      y, events := WriteNotes(y, events, categoryNotes, wrap);
      y := y + 5;
      assert entries[..i + 1][..i] == entries[..i];
      i := i + 1;
    }
    assert entries[..i] == entries;
  }

  /** `categoryNotes.forEach(...)`: each note's stamp and wrapped body, after a page break when the cursor is past the threshold. */
  method WriteNotes(y0: int, events0: seq<Event>, ns: seq<Note>, wrap: string -> nat)
    returns (y: int, events: seq<Event>)
    ensures Layout(y, events) == PlaceNotes(Layout(y0, events0), ns, wrap)
  {
    y, events := y0, events0;
    var j := 0;
    while j < |ns|
      invariant 0 <= j <= |ns|
      invariant Layout(y, events) == PlaceNotes(Layout(y0, events0), ns[..j], wrap)
    {
      var note := ns[j];
      if y > PageLimit {
        events := events + [NewPage];
        y := PageTop;
      }
      events := events + [Text(20, y, "[" + note.formattedTime + "]"), Text(35, y, note.content)];
      y := y + 10 + 7 * wrap(note.content);
      assert ns[..j + 1][..j] == ns[..j];
      j := j + 1;
    }
    assert ns[..j] == ns;
  }

  /** `handleExportPDF`: the title block, the grouping, the walk over the groups, the save. */
  method ExportPdf(notes: seq<Note>, videoId: string, details: Option<VideoDetails>, wrap: string -> nat)
    returns (events: seq<Event>)
    requires PlainCategories(notes)
    ensures events == ExportLayout(notes, videoId, details, wrap)
  {
    var y := PageTop;
    events := [Text(20, y, "Video Notes")];
    y := y + 15;
    if details.Some? {
      events := events + [Text(20, y, details.value.title)];
      y := y + 15;
    }
    events := events + [Text(20, y, "Video ID: " + videoId)];
    y := y + 10;
    assert Layout(y, events) == Header(videoId, details);

    var keys, groups := GroupByCategory(notes);
    var entries := Entries(keys, groups);
    assert entries == Grouped(notes);
    y, events := WriteGroups(y, events, entries, wrap);
    events := events + [Save(FileName(details))];
  }
}
