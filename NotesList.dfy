/** The notes panel's derived views: the search-and-category filter, the category chips, the
    colour of a category badge and the text shown when nothing is listed. The chip row itself is
    `Notes.Categories`. */
module NotesList {
  import opened Wrappers
  import opened Strings
  import opened Seqs
  import opened Notes

  /** `selectedCategory` is truthy: a category is selected and it is not the empty string. */
  predicate Selects(selected: Option<string>)
  {
    selected.Some? && selected.value != ""
  }

  /** The filter's test: the lower-cased content contains the lower-cased search text, and the
      category equals the selection when one is active. */
  predicate Matches(n: Note, search: string, selected: Option<string>)
  {
    Contains(Lower(n.content), Lower(search)) && (!Selects(selected) || n.category == selected.value)
  }

  function MatchesFilter(search: string, selected: Option<string>): Note -> bool
  {
    (n: Note) => Matches(n, search, selected)
  }

  /** `filteredNotes`. */
  function FilteredNotes(notes: seq<Note>, search: string, selected: Option<string>): seq<Note>
  {
    Filter(MatchesFilter(search, selected), notes)
  }

  /** A note is listed exactly when it matches, and the listing keeps the notes' order. */
  lemma FilteredNotesSpec(notes: seq<Note>, search: string, selected: Option<string>)
    ensures forall i :: 0 <= i < |FilteredNotes(notes, search, selected)| ==>
              Matches(FilteredNotes(notes, search, selected)[i], search, selected) &&
              FilteredNotes(notes, search, selected)[i] in notes
    ensures forall i :: 0 <= i < |notes| && Matches(notes[i], search, selected) ==>
              notes[i] in FilteredNotes(notes, search, selected)
    ensures IsSubsequence(FilteredNotes(notes, search, selected), notes)
    ensures forall n :: multiset(FilteredNotes(notes, search, selected))[n] ==
              if Matches(n, search, selected) then multiset(notes)[n] else 0
  {
    FilterMembers(MatchesFilter(search, selected), notes);
    FilterCount(MatchesFilter(search, selected), notes);
    FilterIsSubsequence(MatchesFilter(search, selected), notes);
  }

  /** With an empty search and no selection every note is listed, in order. */
  lemma FilterWithoutCriteria(notes: seq<Note>)
    ensures FilteredNotes(notes, "", None) == notes
  {
    forall i | 0 <= i < |notes| ensures Matches(notes[i], "", None) {
      ContainsEmpty(Lower(notes[i].content));
    }
    FilterAll(MatchesFilter("", None), notes);
  }

  /** Filtering the listing again with the same criteria changes nothing. */
  lemma FilterTwice(notes: seq<Note>, search: string, selected: Option<string>)
    ensures FilteredNotes(FilteredNotes(notes, search, selected), search, selected) == FilteredNotes(notes, search, selected)
  {
    FilterIdempotent(MatchesFilter(search, selected), notes);
  }

  /** With an empty search, selecting a chip lists exactly that category's notes: the same
      sequence the export prints under that heading. */
  lemma ChipListsCategory(notes: seq<Note>, c: string)
    requires c != ""
    ensures FilteredNotes(notes, "", Some(c)) == NotesIn(notes, c)
  {
    forall i | 0 <= i < |notes| ensures MatchesFilter("", Some(c))(notes[i]) == InCategory(c)(notes[i]) {
      ContainsEmpty(Lower(notes[i].content));
    }
    FilterCongruent(MatchesFilter("", Some(c)), InCategory(c), notes);
  }

  /** A click in the chip row: the "All" chip, or the chip of one category. */
  datatype Chip = All | CategoryChip(category: string)

  /** The selection after a click: "All" clears it, the selected chip deselects, any other chip selects. */
  function Click(chip: Chip, selected: Option<string>): (r: Option<string>)
    ensures chip.All? ==> r == None
    ensures chip.CategoryChip? ==> (r == None <==> selected == Some(chip.category))
    ensures r.Some? ==> chip.CategoryChip? && r.value == chip.category
  {
    match chip
    case All => None
    case CategoryChip(c) => if selected == Some(c) then None else Some(c)
  }

  /** A second click on the same chip undoes the first, unless the first found it selected
      (then the second selects it again). */
  lemma ClickTwice(c: string, selected: Option<string>)
    ensures Click(CategoryChip(c), Click(CategoryChip(c), selected)) == if selected == Some(c) then selected else None
  {
  }

  /** The badge classes of the known categories. */
  const Palette: map<string, string> := map[
    "Important" := "bg-red-100 text-red-800",
    "Question" := "bg-yellow-100 text-yellow-800",
    "Summary" := "bg-green-100 text-green-800",
    "Code" := "bg-purple-100 text-purple-800",
    "Reference" := "bg-blue-100 text-blue-800",
    "General" := "bg-gray-100 text-gray-800"
  ]

  /** `getCategoryColor`: the category's own classes, or those of "General" for any other string. */
  function ColorFor(category: string): (r: string)
    ensures r in Palette.Values
    ensures category in Palette ==> r == Palette[category]
    ensures category !in Palette ==> r == Palette["General"]
  {
    if category in Palette then Palette[category] else Palette["General"]
  }

  /** Known categories never share a colour, and every other string looks like "General". */
  lemma ColorsDistinct(a: string, b: string)
    requires a in Palette && b in Palette && a != b
    ensures ColorFor(a) != ColorFor(b)
  {
  }

  const NoMatchText: string := "No matching notes found"
  const NoNotesText: string := "No notes yet"

  /** The message below an empty listing, or none when something is listed. */
  function EmptyState(notes: seq<Note>, search: string, selected: Option<string>): (r: Option<string>)
    ensures r.None? <==> FilteredNotes(notes, search, selected) != []
    ensures r == Some(NoNotesText) ==> notes == []
    ensures notes == [] ==> r.Some?
    ensures r.Some? && (search != "" || Selects(selected)) ==> r == Some(NoMatchText)
    ensures r.Some? && search == "" && !Selects(selected) ==> r == Some(NoNotesText)
  {
    if FilteredNotes(notes, search, selected) != [] then None
    else if search != "" || Selects(selected) then Some(NoMatchText)
    else
      FilterWithoutCriteria(notes);
      FilterCongruent(MatchesFilter(search, selected), MatchesFilter("", None), notes);
      Some(NoNotesText)
  }
}
