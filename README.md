# YouTube note taker — verified model

This project models the behaviour of a small React note-taker for videos. A user loads a video by
URL or bare identifier. While watching, they take notes stamped with the last paused position. They
can filter the notes by text and category, and export them as a PDF grouped by category.

The model covers the rules inside the page and its components:

- **Accepting a video reference.** The link pattern is modelled as JavaScript's backtracking matcher
  runs it. The 11-character fallback is modelled exactly.
- **Page state transitions.** Submitting a reference, adding and deleting notes, pausing, a player
  error, the player becoming ready, and clicking a note's time.
- **The PDF export**, in three parts:
  - grouping notes by category in first-seen order;
  - the vertical cursor and its page-break rule;
  - the sequence of drawing calls emitted.
- **The notes panel.** The distinct category chips, the search-and-category filter, chip toggling,
  badge colours and the empty-state message.
- **The note draft.** Timestamp insertion, refusal of a blank draft, and category selection from the
  fixed list.
- **The two clock renderings.** The fixed-width `HH:MM:SS` and the compact `H:MM:SS` / `M:SS`.
- **The control bar.** The ten-second seek requests and the playback-rate list.

Modules, one concern each:

| file | module | models |
|---|---|---|
| Wrappers.dfy | Wrappers | `Option` |
| Seqs.dfy | Seqs | `Array.prototype.filter`, and subsequences |
| Strings.dfy | Strings | the `\s` and `trim` whitespace set, `trim`, ASCII `toLowerCase`, `includes`, `toString` of whole numbers |
| Clock.dfy | Clock | `new Date(t*1000).toISOString().substr(11, 8)` and its inverse |
| Notes.dfy | Notes | the note record, delete-by-id, the category list, the per-category notes |
| VideoRef.dfy | VideoRef | `extractVideoId` |
| Export.dfy | Export | `handleExportPDF`: the grouping `reduce`, the cursor loops, and the layout specification |
| App.dfy | AppState | the page's state and handlers (class `App`) |
| NotesList.dfy | NotesList | the notes panel's derived values |
| NoteInput.dfy | NoteInput | the draft state (class `NoteDraft`) |
| VideoControls.dfy | VideoControls | `formatTime`, the seek buttons, the rate list |

Positions are whole, non-negative seconds. The export's wrapped-line count is a parameter `wrap`,
because line breaking belongs to the PDF library. The PDF itself is modelled as the list of drawing
events the exporter emits: a text at (x, y), a new page, or the save.

Two behaviours worth knowing:

- `not-a-video` has exactly 11 characters, so the code accepts it verbatim as an identifier
  (`VideoRef.BareInputExamples`). Only inputs of other lengths that hold no link are refused.
- The page-break rule looks only at where a heading or a note *starts*.
  - Continuation lines of a long, wrapped note are written below the threshold without a check.
  - A heading can be left alone at the bottom of a page, because its first note breaks to the next.
  - `Export.ExportWithinPage` therefore bounds the y of every text call, which is where each text
    starts, not where it ends.

## Model

| member | source | states |
|---|---|---|
| Clock.DaySecond | src/App.tsx:45 | the second of the day is below 86400 |
| Clock.Hours | src/components/VideoControls.tsx:22 | the UTC hour is below 24 |
| Clock.Minutes | src/components/VideoControls.tsx:23 | the UTC minute is below 60 |
| Clock.Seconds | src/components/VideoControls.tsx:24 | the UTC second is below 60 |
| Clock.FieldsCompose | src/components/VideoControls.tsx:21-24 | hours·3600 + minutes·60 + seconds is the second of the day |
| Clock.Pad2 | src/components/VideoControls.tsx:24 | a zero-padded field is two digits whose value is the number |
| Clock.FormatClock | src/App.tsx:45 | the ISO time slice is 8 characters with ':' at positions 2 and 5 |
| Clock.ParseClock | src/App.tsx:45 | reading a clock string back yields a second of the day |
| Clock.FormatClockRoundTrip | src/App.tsx:45 | reading the slice back gives exactly t mod 86400, so hours wrap at 24 |
| Clock.FormatClockInjectiveModDay | src/App.tsx:45 | two positions render alike iff they fall on the same second of the day |
| Clock.FormatClockExamples | src/App.tsx:45 | 0 → 00:00:00, 3661 → 01:01:01, 59 → 00:00:59, 86405 → 00:00:05 |
| Notes.NewNote | src/App.tsx:40-46 | a new note carries the given id, position, content and category, and an 8-character clock that reads back as the position mod 86400 |
| Notes.DeleteNote | src/App.tsx:196 | no note with the id survives; every other note survives with all its copies (multiset count unchanged); nothing is invented; order is kept (subsequence) |
| Notes.DeleteAbsent | src/App.tsx:196 | deleting an id no note carries changes nothing |
| Notes.DeleteKeepsStamped | src/App.tsx:196 | a property every note has, here the stamp matching the position, survives a delete |
| Notes.DeleteAfterAdd | src/App.tsx:47 | adding a note with a fresh id and deleting that id restores the list |
| Notes.DeleteRemovesEveryMatch | src/App.tsx:41 | ids from the clock can collide, and one delete removes all notes sharing the id |
| Notes.Categories | src/components/NotesList.tsx:15 | the category list has no duplicates and holds exactly the categories that occur |
| Notes.FirstIndex | src/components/NotesList.tsx:15 | the first note of a category is found, none before it has that category |
| Notes.CategoriesFirstSeen | src/components/NotesList.tsx:15 | categories are listed in the order of their first occurrence |
| Notes.NotesInSpec | src/App.tsx:92-98 | a category's notes are exactly the notes of that category, in their original order |
| Notes.NotesInSnoc | src/App.tsx:96 | a new note joins the group of its own category and no other |
| Notes.NotesInEmpty | src/App.tsx:93-95 | a category's group is empty iff no note has that category |
| Seqs.Filter | src/App.tsx:196 | the filter never lengthens and keeps only elements satisfying the predicate |
| Seqs.FilterMembers | src/components/NotesList.tsx:17-21 | kept elements come from the input; every satisfying element is kept |
| Seqs.FilterCount | src/App.tsx:196 | the filter keeps every copy of a satisfying element and no copy of any other |
| Seqs.FilterIsSubsequence | src/components/NotesList.tsx:17-21 | the filter result is a subsequence of the input |
| Seqs.FilterAppend | src/components/NotesList.tsx:17 | filtering distributes over concatenation |
| Seqs.FilterSnoc | src/App.tsx:47 | filtering a list with one more element adds at most that element at the end |
| Seqs.FilterAll | src/components/NotesList.tsx:17 | a predicate true of every element keeps the whole list |
| Seqs.FilterIdempotent | src/components/NotesList.tsx:17-21 | filtering twice is filtering once |
| Seqs.FilterCongruent | src/components/NotesList.tsx:17-21 | predicates that agree on the elements select the same list |
| Strings.TrimStart | src/components/NoteInput.tsx:27 | only whitespace is removed from the front; the rest starts with a non-space, and is empty iff the input is blank |
| Strings.TrimEnd | src/components/NoteInput.tsx:27 | only whitespace is removed from the back; the rest ends with a non-space, and is empty iff the input is blank |
| Strings.TrimEmptyIffBlank | src/components/NoteInput.tsx:27 | `trim()` is empty iff the draft is whitespace only |
| Strings.LowerChar | src/components/NotesList.tsx:18 | A–Z map to a–z, every other character is kept |
| Strings.Lower | src/components/NotesList.tsx:18 | lower-casing maps each character and keeps the length |
| Strings.ContainsAt | src/components/NotesList.tsx:18 | `includes` holds iff the text occurs at some index |
| Strings.ContainsEmpty | src/components/NotesList.tsx:18 | the empty search text is contained in every string |
| Strings.NatToString | src/components/VideoControls.tsx:26 | decimal digits with no leading zero; one digit iff below 10 |
| Strings.NatToStringRoundTrip | src/components/VideoControls.tsx:28 | reading the decimal rendering back gives the number |
| VideoRef.IdAt | src/App.tsx:34 | a capture is the 11 characters of the input at that index, none of `"&?/` or whitespace |
| VideoRef.RunEnd | src/App.tsx:34 | `.` runs up to the first line terminator |
| VideoRef.FirstSlash | src/App.tsx:34 | `[^/]+` runs up to the first '/' |
| VideoRef.BackSearch | src/App.tsx:34 | backtracking a greedy repetition yields a valid identifier taken from the input after the split |
| VideoRef.PathForm | src/App.tsx:34 | the `[^/]+/.+/` alternative yields an identifier from the input at least 15 characters after its start |
| VideoRef.ShortForm | src/App.tsx:34 | the `v/`, `embed/`, `e/` alternative yields an identifier from the input |
| VideoRef.QueryForm | src/App.tsx:34 | the `.*[?&]v=` alternative yields an identifier from the input |
| VideoRef.MatchAt | src/App.tsx:34 | a match at an index yields an identifier that occurs in the input, and needs at least 20 characters from there |
| VideoRef.Search | src/App.tsx:35 | the leftmost match yields an identifier that occurs in the input; no input under 20 characters matches |
| VideoRef.ExtractVideoId | src/App.tsx:33-37 | any result has 11 characters and is either a clean capture occurring in the input or the input itself; null only for inputs not 11 long |
| VideoRef.ShortInputVerbatim | src/App.tsx:36 | an input under 20 characters is accepted verbatim iff it has 11 characters |
| VideoRef.MatchAtNeedsY | src/App.tsx:34 | no match starts at an index not holding 'y' |
| VideoRef.SearchSkip | src/App.tsx:35 | the leftmost-match search passes over indices where no match can start |
| VideoRef.BackSearchSkip | src/App.tsx:34 | backtracking passes over split points with no mark |
| VideoRef.ShortLinkYieldsId | src/App.tsx:33-37 | `https://youtu.be/` + any identifier gives that identifier |
| VideoRef.WatchLinkYieldsId | src/App.tsx:33-37 | `https://www.youtube.com/watch?v=` + any identifier gives that identifier |
| VideoRef.WatchQuery | src/App.tsx:34 | in a watch link `.*[?&]v=` backtracks to the `?v=` before the identifier |
| VideoRef.WatchMatch | src/App.tsx:34 | in a watch link the match starts at `youtube.com/` |
| VideoRef.WatchTail | src/App.tsx:34 | a watch link's tail has no '/' and no line terminator |
| VideoRef.BareInputExamples | src/App.tsx:36 | `dQw4w9WgXcQ`, `not-a-video` and `not a video` are accepted verbatim; `no-video` is refused |
| Export.Grouped | src/App.tsx:92-101 | one group per category, in the category list's order |
| Export.GroupMapSpec | src/App.tsx:92-98 | the accumulated dictionary has exactly the present categories as keys, each mapped to its notes, never empty |
| Export.GroupByCategory | src/App.tsx:92-98 | the `reduce` yields the categories in insertion order and the dictionary of their notes |
| Export.Entries | src/App.tsx:101 | `Object.entries` pairs each key with its array, in key order |
| Export.GroupedSections | src/App.tsx:92-101 | groups have distinct categories; each is non-empty, homogeneous and in original order |
| Export.GroupedPartitions | src/App.tsx:92-101 | the groups together hold every note exactly once (multiset equality) |
| Export.FlattenPermutes | src/App.tsx:92-101 | with distinct keys covering all categories, the groups are a permutation of the notes |
| Export.FlattenSnoc | src/App.tsx:96 | a new note lands in exactly one group |
| Export.FlattenNoNotes | src/App.tsx:92 | with no notes every group is empty |
| Export.GroupedTwoCategories | src/App.tsx:92-101 | a General note then an Important note give two groups in that order |
| Export.BreakIfFull | src/App.tsx:102-105 | from a cursor at or below the top margin, the check leaves it between 20 and 270 |
| Export.Header | src/App.tsx:74-89 | the title block leaves the cursor at 60 with details and 45 without |
| Export.FileName | src/App.tsx:129 | the saved name ends in "-notes.pdf" after the video title, or is "video-notes.pdf" when there is no title or it is empty |
| Export.HeaderBreaks | src/App.tsx:74-89 | the title block never breaks a page |
| Export.PlaceNotesWithinPage | src/App.tsx:113-124 | every note stamp and body is drawn at 20 ≤ y ≤ 270 |
| Export.PlaceGroupsWithinPage | src/App.tsx:101-127 | every heading and note text is drawn at 20 ≤ y ≤ 270 |
| Export.ExportWithinPage | src/App.tsx:72-130 | every text call of the export is at 20 ≤ y ≤ 270 |
| Export.TextsAppend | src/App.tsx:72-130 | the texts of concatenated events concatenate |
| Export.BreakIfFullTexts | src/App.tsx:102-105 | a page break adds no text |
| Export.PlaceNotesTexts | src/App.tsx:113-124 | notes add `[time]` then content, note after note |
| Export.PlaceHeadingTexts | src/App.tsx:107-110 | a heading adds its category name |
| Export.PlaceGroupsTexts | src/App.tsx:101-127 | groups add heading then notes, group after group |
| Export.ExportTexts | src/App.tsx:72-130 | the document reads as the title block followed by each group's heading and notes; breaks drop, repeat or reorder nothing |
| Export.BreaksAppend | src/App.tsx:103 | the page breaks of concatenated events add up |
| Export.BreakIfFullAdvance | src/App.tsx:102-105 | at most one page is added; when one is, the cursor moves up by at least 251; otherwise it stays |
| Export.PlaceNotesAdvance | src/App.tsx:113-124 | each break in a group's notes absorbs at least 251 of advance; without one the cursor sums 10 + 7·lines per note |
| Export.PlaceGroupsAdvance | src/App.tsx:101-127 | the same for all groups, with 10 per heading and 5 per group |
| Export.ExportPages | src/App.tsx:72-130 | 251·pages added ≤ total advance − 20; content ending at or above 270 needs no new page; without breaks the cursor is the exact sum |
| Export.WriteNotes | src/App.tsx:113-124 | the inner loop produces exactly the specified note layout |
| Export.WriteGroups | src/App.tsx:101-127 | the outer loop produces exactly the specified group layout |
| Export.ExportPdf | src/App.tsx:72-130 | the exporter emits exactly the specified events: header, groups, save |
| AppState.App.constructor | src/App.tsx:10-16 | the initial state: no video, empty input, no notes, position 0, no error, no details, no player |
| AppState.App.EditInput | src/App.tsx:155 | typing replaces the reference input only |
| AppState.App.SubmitVideo | src/App.tsx:18-31 | an accepted reference loads the 11-character id, clears the input, notes and details; a refused one sets the error and leaves the rest |
| AppState.App.AddNote | src/App.tsx:39-48 | exactly one note is appended, stamped with the current position; earlier notes unchanged |
| AppState.App.DeleteNote | src/App.tsx:196 | notes become the delete-by-id result, a subsequence with the id absent |
| AppState.App.Pause | src/App.tsx:173 | the reported position becomes the current position |
| AppState.App.VideoError | src/App.tsx:57-60 | the error is set and the video unloaded; notes are kept |
| AppState.App.PlayerReady | src/App.tsx:62-70 | the player is attached and the details are set from its title |
| AppState.App.TimeClick | src/App.tsx:50-55 | with a player, seek to the time then play; without one, nothing |
| AppState.App.Export | src/App.tsx:72-130 | the export of the current state, within the page and reading as header plus groups; every note stamp reads back as its position within the day |
| NotesList.FilteredNotesSpec | src/components/NotesList.tsx:17-21 | a note is listed iff it matches, with every copy of a matching note kept and none of any other (multiset counts); the listing is a subsequence |
| NotesList.FilterWithoutCriteria | src/components/NotesList.tsx:18-19 | an empty search with no selection lists every note in order |
| NotesList.FilterTwice | src/components/NotesList.tsx:17-21 | filtering the listing again changes nothing |
| NotesList.ChipListsCategory | src/components/NotesList.tsx:19 | with an empty search, a selected chip lists exactly that category's notes |
| NotesList.Click | src/components/NotesList.tsx:53-63 | "All" clears the selection; a chip deselects iff it was selected and otherwise selects itself |
| NotesList.ClickTwice | src/components/NotesList.tsx:63 | two clicks on a chip restore the selection when that chip was selected, and otherwise leave no chip selected |
| NotesList.ColorFor | src/components/NotesList.tsx:23-33 | known categories get their own classes, any other string gets General's |
| NotesList.ColorsDistinct | src/components/NotesList.tsx:24-31 | no two known categories share classes |
| NotesList.EmptyState | src/components/NotesList.tsx:108-110 | shown iff nothing is listed; "No matching notes found" when a search or selection is active, "No notes yet" otherwise, and then only when there are no notes |
| NoteInput.TimestampTag | src/components/NoteInput.tsx:16-21 | the marker is `[` + 8-character clock + `] `, reading back as the position mod 86400 |
| NoteInput.TimestampTagInjectiveModDay | src/components/NoteInput.tsx:21 | two markers are equal iff the positions fall on the same second of the day |
| NoteInput.TagMatchesNoteClock | src/components/NoteInput.tsx:17 | the marker shows the same clock as a note stamped at that position |
| NoteInput.OptionsHaveOwnColour | src/components/NoteInput.tsx:9 | every offered category has its own badge colour |
| NoteInput.NoteDraft.constructor | src/components/NoteInput.tsx:12-14 | an empty draft, category General, row hidden |
| NoteInput.NoteDraft.Edit | src/components/NoteInput.tsx:41 | typing replaces the draft only |
| NoteInput.NoteDraft.InsertTimestamp | src/components/NoteInput.tsx:20-23 | the marker is appended; the old draft is a prefix, 11 characters shorter |
| NoteInput.NoteDraft.Submit | src/components/NoteInput.tsx:25-32 | refused iff blank, then nothing changes; otherwise the untrimmed draft and category are handed over and the draft is cleared and the row closed |
| NoteInput.NoteDraft.ToggleExpanded | src/components/NoteInput.tsx:57 | the tag button flips the row |
| NoteInput.NoteDraft.Focus | src/components/NoteInput.tsx:42 | focusing shows the row |
| NoteInput.NoteDraft.SelectCategory | src/components/NoteInput.tsx:77 | a category button sets the category, which stays among the options |
| VideoControls.FormatCompact | src/components/VideoControls.tsx:20-29 | seconds are always two digits; `H:MM:SS` when the hour is non-zero, `M:SS` with unpadded minutes otherwise |
| VideoControls.CompactIsTrimmedClock | src/components/VideoControls.tsx:20-29 | the compact clock is the fixed-width clock with the zero hour and leading zeros removed |
| VideoControls.NatToStringIsDropZero | src/components/VideoControls.tsx:26 | an unpadded two-digit field is the padded one without its leading zero |
| VideoControls.Pad2Zero | src/components/VideoControls.tsx:25 | the hour field reads "00" iff the hour is 0 |
| VideoControls.FormatCompactMinuteExamples | src/components/VideoControls.tsx:28 | 0 → 0:00, 600 → 10:00, 86400 → 0:00 |
| VideoControls.FormatCompactHourExamples | src/components/VideoControls.tsx:25-26 | 3661 → 1:01:01, 86399 → 23:59:59 |
| VideoControls.RewindTarget | src/components/VideoControls.tsx:47 | rewind asks for an earlier position |
| VideoControls.ForwardTarget | src/components/VideoControls.tsx:54 | fast-forward asks for a later position |
| VideoControls.SeekButtonsInverse | src/components/VideoControls.tsx:47-54 | rewind asks for ten seconds earlier and fast-forward for ten seconds later; the two undo each other; with no clamping, rewinding near 0 asks for a negative position |
| VideoControls.RatesAreQuarterSteps | src/components/VideoControls.tsx:67 | eight rates, 0.25x to 2x a quarter apart, 1x among them |

## Left out

- Clock.FormatClock: only whole, non-negative seconds are modelled. Fractional or negative positions
  are out of scope, and so is the `Date` range. At 253402300800 s (year 10000) `toISOString` gains a
  six-digit signed year, which shifts the sliced characters. Beyond the `Date` range it throws.
- Clock.Hours: the hour, minute and second fields are those of whole seconds. For a fractional
  position the caller is expected to take the floor.
- VideoRef.ExtractVideoId: lengths are counted in characters. JavaScript counts UTF-16 code units, so
  an input holding characters outside the Basic Multilingual Plane can differ.
- Strings.LowerChar: only A–Z are lowered; every other character is kept as is.
- Strings.Lower: only A–Z are mapped. JavaScript's `toLowerCase` also lower-cases other letters, and
  can change the length of some strings.
- Export.GroupByCategory: requires that no category is an array-index string such as "7". It also
  requires that no category is an inherited property name such as "constructor" or "toString".
  - For index-like keys, `Object.entries` lists them first, in numeric order.
  - For an inherited name, `acc[category]` already holds a non-array value (a function, or
    `Object.prototype` for `__proto__`), so `.push` is undefined and the call throws.
  - The categories the page offers are six fixed words, so neither case arises through the page.
- Export.ExportPdf: the same category precondition as `Export.GroupByCategory`.
- AppState.App.Export: the same category precondition as `Export.GroupByCategory`.
- NotesList.ColorFor: an inherited property name such as "toString" finds a function in the colour
  table instead of a class string. The model returns General's classes for it.
- PDF library: fonts, sizes, colours and `splitTextToSize` are not modelled.
  - The line count of a wrapped note body is the parameter `wrap`.
  - A text call is recorded with its position and its string. `setFontSize` and `setTextColor` calls
    are dropped.
  - A note body is recorded as the note's content before wrapping, where the source passes the array
    of wrapped lines.
- Video player component: its polling timer and the player API are not modelled. The paused position
  enters through `AppState.App.Pause`, and `TimeClick` returns the player commands instead of issuing
  them.
- Note ids come from `Date.now()`. They are a parameter of `AppState.App.AddNote`.
- React rendering and batching: each handler is one atomic state update. The visibility of the
  reference form and of the export button is not modelled.
- The seek slider (`handleSeekChange`) forwards its value unchanged and is not modelled. The play and
  pause button is not modelled either.
- The video description is only displayed (src/components/VideoPlayer.tsx:117) and the thumbnail URL
  is never read, so neither is modelled beyond being stored.
