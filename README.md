# Moonscraper ChartParser core, in Dafny

This project models the core of the Moonscraper ChartParser, the library that reads and writes the
song files of guitar-rhythm games. A song holds a sync track (tempo and time-signature changes), a
list of global events and sections, and an 8×4 grid of charts (eight instruments, four
difficulties) plus any number of unrecognised charts. Each chart holds notes, star power phrases
and chart events, ordered by tick.

The modules follow the source files:

- `Notes` (`note.dfy`, from `Note.cs`): a chart's notes in one array ordered by tick. A note's
  `previous`/`next` links are the neighbouring indices. The module covers chords and the chord
  bit-mask, the natural-HOPO distance rule, note types (strum, HOPO, tap), `SetType` and the
  flag rewriting of a whole chord, and the drum↔guitar fret remapping.
- `Tempo` (`tempo.dfy`, from `BPM.cs`): the tempo marker, with its tempo stored ×1000 and an
  optional anchor, its defaults, its copies and its save lines.
- `Songs` (`song.dfy`, from `Song.cs`): the `Song` class.
  - Its sync track and event list are kept sorted, and the guard stops the tick-0 tempo and
    time signature being removed.
  - Its caches are rebuilt from those lists.
  - It covers the 8×4 chart grid and its index arithmetic, the manual-length switch, the export
    defaults and the instrument → game-mode mapping.
- `ChartReader` (`chartreader.dfy`, from `ChartReader.cs`): the `.chart` text decoder.
  - The block tokenizer and the header → chart-slot dispatch.
  - The `[SyncTrack]`/`[Events]` line grammar (`B`, `TS`, `E`, `A`).
  - The chart line grammar, with FORCED/TAP flags applied in a second pass.
  - The three fret-code tables.
- `ChartWriter` (`chartwriter.dfy`) and `ChartFile` (`chartfile.dfy`), from `ChartWriter.cs`: the
  `.chart` text encoder.
  - Each object is written as one or more lines, with tick rescaling and a tick offset.
  - The inverse fret tables, and flag lines written once per chord.
  - Empty difficulties are omitted or copied down from a harder one.
  - Failing objects are collected in an error list.
  - The whole file is assembled from these parts.
- `RoundTrip` (`roundtrip.dfy`): what the reader makes of the writer's output. Every kind of data
  line reads back as the object written. The lemmas also pin down where the format loses
  information: spaced event titles, and flag lines in drum charts.
- `ChartRoundTrip` (`chartroundtrip.dfy`): a whole chart block through both passes of the chart
  loader. A five-fret or GH Live chart written at its own resolution reads back as the same
  objects. Each note takes the flags of its chord's last note, because the writer writes a
  chord's flags once, after that note, and drops TAP when that note is open.
- `GlobalsRoundTrip` (`globalsroundtrip.dfy`): the `[Song]`, `[SyncTrack]` and `[Events]` blocks
  through the globals loop and the anchor loop. Submitted to a new song, they give back its
  sync track, anchors included, and its events.
- `MidReader` (`midreader.dfy`, from `MidReader.cs`): the MIDI decoder's chart logic.
  - A track is a list of timed events: note-on with its note-off time, text, sysex bytes.
  - Note loading covers difficulty bands, fret tables, star power, the sustain cutoff and the
    buffering of forcing notes and sysex events.
  - The tap and open-note sysex sections and the forcing notes are then applied.
  - The events track is read, and tracks are dispatched by name.
- `ByteSorting` (`bytesort.dfy`, from `ByteSort.cs`): the in-place recursive merge sort of
  tick-keyed byte buffers, proved sorted, stable and a permutation, and the merge of two sorted
  arrays.
- `SongObjects`, `Text` and `Wrappers`: support modules.
  - `SongObjects` holds the chart objects and the list helpers the code calls (`Insert`,
    `Remove`, `GetRange`, `FindObjectsAtPosition`, `FindClosestPosition`, `Chart.Add`,
    `UpdateCache`).
  - `Text` holds the .NET string operations the code relies on.
  - `Wrappers` holds `Option` and `Result`: a caught or thrown exception is an `Err` or `None`.

Where the code changes state in place, the model does too. `Song` is a class. Note arrays,
the sort buffers and the chart grid are arrays. The tokenizer, the loaders, the MIDI passes and
the sort are loops, each proved against a specification function. The properties are proved
about those functions.

## Model

| member | source | states |
|---|---|---|
| ByteSorting.Middle | ChartParser/ChartParser/src/IO/ByteSort.cs:55 | the split point lies in `left..right`, strictly below `right` for a segment of two or more |
| ByteSorting.MiddleIsHalf | ChartParser/ChartParser/src/IO/ByteSort.cs:55 | the split point is `(right + left) / 2` |
| ByteSorting.MergeFrom | ChartParser/ChartParser/src/IO/ByteSort.cs:74-86 | what `Merge` still places once `i` left and `j` right entries are placed: all the rest of both runs |
| ByteSorting.MergeFromRight | ChartParser/ChartParser/src/IO/ByteSort.cs:32-44 | the same for `MergeAlreadySorted`'s loop |
| ByteSorting.MergeSortOf | ChartParser/ChartParser/src/IO/ByteSort.cs:49-63 | the segment `MergeSort(bytes, left, right)` leaves has the segment's length |
| ByteSorting.MergeFromSorted | ChartParser/ChartParser/src/IO/ByteSort.cs:74-86 | merging two tick-sorted runs gives a tick-sorted run |
| ByteSorting.MergeFromRightSorted | ChartParser/ChartParser/src/IO/ByteSort.cs:32-44 | the same for `MergeAlreadySorted` |
| ByteSorting.MergeFromPermutes | ChartParser/ChartParser/src/IO/ByteSort.cs:74-86 | `Merge` keeps every entry of both runs, each as often as it occurs |
| ByteSorting.MergeFromRightPermutes | ChartParser/ChartParser/src/IO/ByteSort.cs:32-44 | the same for `MergeAlreadySorted` |
| ByteSorting.MergeFromStable | ChartParser/ChartParser/src/IO/ByteSort.cs:76-79 | `Merge` takes the left run's entry on a tie (`<=`), so at each tick the left run's entries come first, in order |
| ByteSorting.MergeFromRightStable | ChartParser/ChartParser/src/IO/ByteSort.cs:41 | `MergeAlreadySorted` takes from `a` only on a strictly smaller tick, so at each tick `b`'s entries come first |
| ByteSorting.MergeRightFirstCorrect | ChartParser/ChartParser/src/IO/ByteSort.cs:27-47 | the merge of two sorted arrays is sorted, holds exactly their entries, and at each tick puts `b`'s entries before `a`'s |
| ByteSorting.MergeSortOfSplits | ChartParser/ChartParser/src/IO/ByteSort.cs:53-61 | a segment of two or more is the merge of its two sorted halves |
| ByteSorting.MergeSortOfFrame | ChartParser/ChartParser/src/IO/ByteSort.cs:49-63 | the sorted segment depends only on the entries inside it |
| ByteSorting.MergeSortOfSorted | ChartParser/ChartParser/src/IO/ByteSort.cs:49-63 | `MergeSort` leaves its segment sorted by tick |
| ByteSorting.MergeLeftFirstPermutes | ChartParser/ChartParser/src/IO/ByteSort.cs:65-93 | `Merge` keeps every entry of both runs |
| ByteSorting.MergeLeftFirstStable | ChartParser/ChartParser/src/IO/ByteSort.cs:65-93 | `Merge` is stable: at each tick the left run's entries, then the right run's |
| ByteSorting.MergeSortOfStable | ChartParser/ChartParser/src/IO/ByteSort.cs:49-63 | `MergeSort` keeps the order of entries sharing a tick |
| ByteSorting.CountAtTick | ChartParser/ChartParser/src/IO/ByteSort.cs:5-8 | an entry occurs as often in a sequence as among that sequence's entries at its tick |
| ByteSorting.SameAtTicksPermutes | ChartParser/ChartParser/src/IO/ByteSort.cs:22-25 | sequences with the same entries at every tick are permutations of each other |
| ByteSorting.SortOfCorrect | ChartParser/ChartParser/src/IO/ByteSort.cs:22-25 | `Sort` orders the array by tick, keeps the order of entries sharing a tick, and is a permutation |
| ByteSorting.SortOfShort | ChartParser/ChartParser/src/IO/ByteSort.cs:53 | an array of at most one entry is left as it is |
| ByteSorting.Steps | ChartParser/ChartParser/src/IO/ByteSort.cs:74-86 | after `n` steps of a merge, the counts taken from each run stay within the runs and add up to `n` |
| ByteSorting.StepsFollowMerge | ChartParser/ChartParser/src/IO/ByteSort.cs:74-86 | after `n` steps of `Merge`'s loops, what is left to place is the rest of the merge |
| ByteSorting.OutIsMerged | ChartParser/ChartParser/src/IO/ByteSort.cs:74-86 | step `n` of `Merge`'s loops places entry `n` of the merge |
| ByteSorting.MergeStep | ChartParser/ChartParser/src/IO/ByteSort.cs:76-79 | one step of `Merge` places the head of the run the tick comparison picks |
| ByteSorting.MergeStepRight | ChartParser/ChartParser/src/IO/ByteSort.cs:36-41 | one step of `MergeAlreadySorted` places the head of the array its three-way test picks |
| ByteSorting.StepsFollowMergeRight | ChartParser/ChartParser/src/IO/ByteSort.cs:32-44 | after `n` steps of `MergeAlreadySorted`, what is left is the rest of the merge |
| ByteSorting.OutIsMergedRight | ChartParser/ChartParser/src/IO/ByteSort.cs:32-44 | step `n` of `MergeAlreadySorted` places entry `n` of the merge |
| ByteSorting.SortSegmentShort | ChartParser/ChartParser/src/IO/ByteSort.cs:53 | `MergeSort` leaves a segment of at most one entry alone |
| ByteSorting.SortSegmentSplits | ChartParser/ChartParser/src/IO/ByteSort.cs:53-61 | sorting both halves and merging them sorts the segment |
| ByteSorting.PlaceBoth | ChartParser/ChartParser/src/IO/ByteSort.cs:74-80 | a step of the first loop of `Merge` keeps the loop's progress, whichever run it takes from |
| ByteSorting.PlaceLeft | ChartParser/ChartParser/src/IO/ByteSort.cs:82-83 | a step of the second loop keeps the progress |
| ByteSorting.PlaceRight | ChartParser/ChartParser/src/IO/ByteSort.cs:85-86 | a step of the third loop keeps the progress |
| ByteSorting.MergeIntoTemp | ChartParser/ChartParser/src/IO/ByteSort.cs:67-86 | the three loops write the merge of the two runs into `temp[left..right]` |
| ByteSorting.MergeBoth | ChartParser/ChartParser/src/IO/ByteSort.cs:74-80 | the first loop runs until one run is used up, placing the merge's first entries |
| ByteSorting.DrainLeft | ChartParser/ChartParser/src/IO/ByteSort.cs:82-83 | the second loop places the rest of the left run |
| ByteSorting.DrainRight | ChartParser/ChartParser/src/IO/ByteSort.cs:85-86 | the third loop places the rest of the right run, completing the merge |
| ByteSorting.Merge | ChartParser/ChartParser/src/IO/ByteSort.cs:65-93 | `Merge` replaces the segment by the merge of its two runs and changes nothing else |
| ByteSorting.MergeSort | ChartParser/ChartParser/src/IO/ByteSort.cs:49-63 | `MergeSort` sorts the segment in place and changes nothing else |
| ByteSorting.Sort | ChartParser/ChartParser/src/IO/ByteSort.cs:22-25 | `Sort` leaves the array sorted by tick, a permutation of what it held, with entries sharing a tick in their old order |
| ByteSorting.MergeAlreadySorted | ChartParser/ChartParser/src/IO/ByteSort.cs:27-47 | a fresh array holding both inputs merged, ties to `b` |
| Notes.OrderIsStrictTotal | ChartParser/ChartParser/src/Song/Events/Note.cs:233-264 | `LessThan` (position, then raw fret) is irreflexive, transitive and total up to `Equals` (same position and fret), and never holds together with `Equals` |
| Notes.SetForced | ChartParser/ChartParser/src/Song/Events/Note.cs:153-166 | setting `forced` makes the getter return the new value and keeps the tap flag, position, fret and sustain |
| Notes.RunStart | ChartParser/ChartParser/src/Song/Events/Note.cs:369-389 | walking back over notes at tick `p` stops at the first index whose run all sits at `p`, with a different tick (or the start) just before |
| Notes.RunEnd | ChartParser/ChartParser/src/Song/Events/Note.cs:369-389 | walking forward over notes at tick `p` stops past the last note at `p`, at a different tick or the end |
| Notes.ChordIsMaximalRun | ChartParser/ChartParser/src/Song/Events/Note.cs:369-389 | a note's chord is the maximal run of neighbours sharing its tick, and contains the note |
| Notes.SortedChordIsSameTick | ChartParser/ChartParser/src/Song/Events/Note.cs:369-389 | in a position-sorted list, a note belongs to another's chord exactly when they share a tick |
| Notes.ChordOfMember | ChartParser/ChartParser/src/Song/Events/Note.cs:369-389 | every member of a chord has the same chord |
| Notes.IsChordIffRunOfTwo | ChartParser/ChartParser/src/Song/Events/Note.cs:274-280 | `IsChord` (a neighbour at the same tick) holds exactly when the chord has at least two notes |
| Notes.GetChord | ChartParser/ChartParser/src/Song/Events/Note.cs:369-389 | returns the note itself, then the earlier chord members walking back, then the later ones walking forward; every index of the chord exactly once and nothing else |
| Notes.WalkPrevious | ChartParser/ChartParser/src/Song/Events/Note.cs:371-379 | the backward walk collects `i, i-1, ...` down to the chord's first note |
| Notes.WalkNext | ChartParser/ChartParser/src/Song/Events/Note.cs:380-386 | the forward walk appends `i+1, ...` up to the chord's last note, completing the chord order |
| Notes.MaskOfBit | ChartParser/ChartParser/src/Song/Events/Note.cs:330-342 | bit `b` of the OR of `1 << rawNote` over a list is set exactly when some note's fret shifts to `b` (shift counts taken modulo 32) |
| Notes.MaskBit | ChartParser/ChartParser/src/Song/Events/Note.cs:330-342 | bit `b` of a note's `mask` is set exactly when some member of its chord has that fret |
| Notes.MaskBitHasWitness | ChartParser/ChartParser/src/Song/Events/Note.cs:330-342 | a set mask bit names a chord member with that fret |
| Notes.MaskBitOfMember | ChartParser/ChartParser/src/Song/Events/Note.cs:330-342 | every chord member's fret bit is set in the mask |
| Notes.PreviousSeparateNote | ChartParser/ChartParser/src/Song/Events/Note.cs:182-194 | returns the nearest earlier note at a different tick, with every note in between at the note's own tick, or none when all earlier notes share its tick |
| Notes.LoneNotePrevSeparate | ChartParser/ChartParser/src/Song/Events/Note.cs:182-194 | for a note that is not in a chord the previous separate note is simply the previous note |
| Notes.NaturalHopoRule | ChartParser/ChartParser/src/Song/Events/Note.cs:285-307 | chords and the first note are never natural HOPOs; any other note is one exactly when its predecessor is a chord or has a different fret, and the gap is within the HOPO distance (65 ticks at 192 per beat, scaled) |
| Notes.SortedGapNoWrap | ChartParser/ChartParser/src/Song/Events/Note.cs:300 | on notes sorted by tick, the `uint` subtraction of the previous note's tick from a note's tick does not wrap: it is the plain difference |
| Notes.WithChordFlags | ChartParser/ChartParser/src/Song/Events/Note.cs:391-399 | giving a chord one set of flags keeps the number of notes |
| Notes.PlacementDecides | ChartParser/ChartParser/src/Song/Events/Note.cs:274-412 | chord bounds, `IsChord`, `IsNaturalHopo`, `mask`, the previous separate note and `CannotBeForcedCheck` depend only on positions and frets, never on flags or sustains |
| Notes.PlacementDecidesHopo | ChartParser/ChartParser/src/Song/Events/Note.cs:285-307 | `IsNaturalHopo` does not depend on flags or sustains |
| Notes.PlacementDecidesPrev | ChartParser/ChartParser/src/Song/Events/Note.cs:401-412 | the previous separate note and `CannotBeForcedCheck` do not depend on flags or sustains |
| Notes.PlacementDecidesChord | ChartParser/ChartParser/src/Song/Events/Note.cs:274-280 | chord bounds and `IsChord` do not depend on flags or sustains |
| Notes.PlacementDecidesMask | ChartParser/ChartParser/src/Song/Events/Note.cs:330-342 | `mask` does not depend on flags or sustains |
| Notes.RunsAgree | ChartParser/ChartParser/src/Song/Events/Note.cs:369-389 | the chord walks give the same bounds on two lists with the same positions |
| Notes.RunStartAgrees | ChartParser/ChartParser/src/Song/Events/Note.cs:371-379 | the backward walk agrees on two lists with the same positions |
| Notes.RunEndAgrees | ChartParser/ChartParser/src/Song/Events/Note.cs:380-386 | the forward walk agrees on two lists with the same positions |
| Notes.MaskOfAgrees | ChartParser/ChartParser/src/Song/Events/Note.cs:330-342 | the mask of a list depends only on its frets |
| Notes.ChordFlagsAfterSetType | ChartParser/ChartParser/src/Song/Events/Note.cs:472-515 | after `SetType` every note of the chord carries the one computed flag set and every other note is unchanged; positions and frets stay put |
| Notes.SetTypeStrum | ChartParser/ChartParser/src/Song/Events/Note.cs:477-489 | setting Strum makes every member of the chord read back as Strum |
| Notes.SetTypeHopo | ChartParser/ChartParser/src/Song/Events/Note.cs:490-502 | setting Hopo makes each chord member read back as Hopo unless the chord cannot be forced, in which case its flags are cleared |
| Notes.SetTypeTap | ChartParser/ChartParser/src/Song/Events/Note.cs:503-511 | setting Tap on a non-open note gives flags exactly TAP and type Tap; on an open note the flags are cleared |
| Notes.ApplyFlagsToChord | ChartParser/ChartParser/src/Song/Events/Note.cs:391-399 | copies the note's flags onto every note of its chord and changes nothing else |
| Notes.WithChordFlagsOverrides | ChartParser/ChartParser/src/Song/Events/Note.cs:391-399 | writing the chord's flags discards whatever flags the note had been given first |
| Notes.SetTypeFlagsIgnoreFlags | ChartParser/ChartParser/src/Song/Events/Note.cs:472-515 | the flags `SetType` chooses depend only on positions and frets |
| Notes.SetType | ChartParser/ChartParser/src/Song/Events/Note.cs:472-515 | the array becomes the old notes with the chord given the flags the requested type calls for |
| Notes.GroupAddFlags | ChartParser/ChartParser/src/Song/Events/Note.cs:266-272 | ORs the flag into exactly the listed notes and leaves all others unchanged |
| Notes.DrumRemapsInverse | ChartParser/ChartParser/src/Song/Events/Note.cs:517-535 | the guitar-to-drum and drum-to-guitar fret remaps stay in range and undo each other |
| Songs.DifficultyValue | ChartParser/ChartParser/src/Song/Song.cs:628-634 | each difficulty's enum value (Expert 0 … Easy 3) is below 4 and maps back to it |
| Songs.InstrumentValue | ChartParser/ChartParser/src/Song/Song.cs:636-647 | the eight charted instruments have values 0-7 that map back to them; Unrecognised (99) is outside the grid |
| Songs.GameModeClasses | ChartParser/ChartParser/src/Song/Song.cs:603-626 | the five-fret instruments are Guitar mode, Drums is Drums mode, the two GH Live instruments are GHL mode, and only Unrecognised is Unrecognised |
| Songs.ChartIndex | ChartParser/ChartParser/src/Song/Song.cs:259-270 | `GetChart`'s slot is always inside the 32-slot grid (slot 0 when the index would overflow) |
| Songs.ChartIndexGrid | ChartParser/ChartParser/src/Song/Song.cs:259-270 | for a charted instrument the slot is `instrument * 4 + difficulty` (quotient and remainder recover both); Unrecognised falls back to slot 0 |
| Songs.ChartIndexOnto | ChartParser/ChartParser/src/Song/Song.cs:259-270 | every slot of the grid is reached by exactly the instrument and difficulty it encodes |
| Songs.BpmsOf | ChartParser/ChartParser/src/Song/Song.cs:521-525 | the `bpms` cache holds exactly the tempos of the sync track |
| Songs.TimeSignaturesOf | ChartParser/ChartParser/src/Song/Song.cs:521-525 | the `timeSignatures` cache holds exactly the time signatures of the sync track |
| Songs.SectionsOf | ChartParser/ChartParser/src/Song/Song.cs:521-525 | the `sections` cache holds exactly the sections of the event list |
| Songs.BpmsKeepOrder | ChartParser/ChartParser/src/Song/Song.cs:521-525 | filtering tempos keeps the sync track's order |
| Songs.TimeSignaturesKeepOrder | ChartParser/ChartParser/src/Song/Song.cs:521-525 | filtering time signatures keeps the sync track's order |
| Songs.SectionsKeepOrder | ChartParser/ChartParser/src/Song/Song.cs:521-525 | filtering sections keeps the event list's order |
| Songs.Song.constructor | ChartParser/ChartParser/src/Song/Song.cs:154-229 | a new song has a default tempo and time signature at tick 0, no events, 32 charts named "<instrument> - <difficulty>" in their instrument's game mode, resolution 192, and fresh caches |
| Songs.Song.UpdateCache | ChartParser/ChartParser/src/Song/Song.cs:521-530 | the caches agree with the lists afterwards and nothing else changes |
| Songs.Song.AddSync | ChartParser/ChartParser/src/Song/Song.cs:393-400 | the object's `song` link becomes this song; the object is inserted in tick order, the caches are refreshed when asked, and the song stays valid |
| Songs.Song.RemoveSync | ChartParser/ChartParser/src/Song/Song.cs:408-427 | an object at tick 0 is never removed; any other is removed when found, reporting success; a removed object's `song` link becomes null, and a failed removal leaves it as it was |
| Songs.Song.AddEvent | ChartParser/ChartParser/src/Song/Song.cs:434-441 | the event's `song` link becomes this song; the event is inserted in tick order and the caches are refreshed when asked |
| Songs.Song.RemoveEvent | ChartParser/ChartParser/src/Song/Song.cs:449-463 | removes the event when found (no tick guard), reporting success; a removed event's `song` link becomes null, and a failed removal leaves it as it was |
| Songs.Song.AddNewSync | ChartParser/ChartParser/src/IO/ChartReader.cs:434-441 | a newly made tempo or time signature joins the song: its link is this song and it is inserted in tick order |
| Songs.Song.AddNewEvent | ChartParser/ChartParser/src/IO/ChartReader.cs:453-458 | a newly made section or event joins the song: its link is this song and it is inserted in tick order |
| Songs.Song.SetLength | ChartParser/ChartParser/src/Song/Song.cs:67-83 | the stored length changes only while `manualLength` is on; the getter reports 300 seconds otherwise |
| Songs.Song.SetManualLength | ChartParser/ChartParser/src/Song/Song.cs:86-98 | switching manual length off resets the stored length to 300 seconds; switching it on keeps it |
| Songs.DefaultExportKeepsTicks | ChartParser/ChartParser/src/Song/Song.cs:50-64 | the default export writes flags, does not copy difficulties down, writes the .chart format at the song's own resolution with no tick offset |
| Songs.NewChartGrid | ChartParser/ChartParser/src/Song/Song.cs:174-181 | the first constructor loop gives each slot an empty chart in its instrument's game mode |
| Songs.NameCharts | ChartParser/ChartParser/src/Song/Song.cs:183-223 | the naming loop names every slot "<instrument> - <difficulty>" and leaves the game modes |
| Songs.NameInstrumentCharts | ChartParser/ChartParser/src/Song/Song.cs:219-222 | the inner loop names one instrument's four charts |
| Songs.SlotOf | ChartParser/ChartParser/src/Song/Song.cs:219-222 | instrument `n` and difficulty `m` land in slot `n * 4 + m`, whose name is the instrument prefix followed by the difficulty |
| Songs.InsertKeepsZeroSync | ChartParser/ChartParser/src/Song/Song.cs:393-400 | adding a sync object keeps a tempo and a time signature at tick 0 |
| Songs.RemoveKeepsZeroSync | ChartParser/ChartParser/src/Song/Song.cs:408-427 | removing a sync object after tick 0 keeps the tempo and time signature at tick 0 |
| Tempo.DefaultBpm | ChartParser/ChartParser/src/Song/Events/BPM.cs:24-27 | the parameterless constructor gives 120.000 BPM (stored as 120000) at tick 0 with no anchor |
| Tempo.CloneKeepsValues | ChartParser/ChartParser/src/Song/Events/BPM.cs:29-33 | a clone carries the same tick, tempo and anchor |
| Tempo.SaveLines | ChartParser/ChartParser/src/Song/Events/BPM.cs:35-44 | `GetSaveString` writes an anchor line first when there is an anchor, then the tempo line; only the tempo line matches the tempo pattern |
| Tempo.RegexMatch | ChartParser/ChartParser/src/Song/Events/BPM.cs:48-51 | `regexMatch` holds when `\d+ = B \d+` occurs somewhere in the line, with `\d` read as the ASCII digits `0`-`9` only |
| Tempo.MatchFrom | ChartParser/ChartParser/src/Song/Events/BPM.cs:48-51 | the scan finds a match at index `k` or later exactly when one exists |
| Tempo.NoBNoMatch | ChartParser/ChartParser/src/Song/Events/BPM.cs:48-51 | a line without a `B` never matches the tempo pattern |
| Tempo.TempoLineMatches | ChartParser/ChartParser/src/Song/Events/BPM.cs:41-50 | every tempo line the writer produces matches the tempo pattern |
| Tempo.AnchorLineDoesNotMatch | ChartParser/ChartParser/src/Song/Events/BPM.cs:40-50 | an anchor line never matches the tempo pattern |
| SongObjects.InsertionPoint | ChartParser/ChartParser/src/Song/Song.cs:393-400 | the insertion point is after every object that does not sort after the new one and before the first that does |
| SongObjects.Insert | ChartParser/ChartParser/src/Song/Song.cs:393-400 | inserting keeps a sorted list sorted, contains the new object, adds nothing else, and drops at most one object equal to it |
| SongObjects.InsertAtEnd | ChartParser/ChartParser/src/Song/Song.cs:393-400 | an object that sorts last and equals no last object is appended |
| SongObjects.Remove | ChartParser/ChartParser/src/Song/Song.cs:408-463 | removal succeeds exactly when an equal object is present, and then removes the first one; otherwise the list is unchanged |
| SongObjects.FirstSame | ChartParser/ChartParser/src/Song/Song.cs:408-463 | finds the first object equal to the one removed, or the end of the list |
| SongObjects.RemoveKeepsSorted | ChartParser/ChartParser/src/Song/Song.cs:408-463 | removing keeps a sorted list sorted |
| SongObjects.FindObjectsAtPosition | ChartParser/ChartParser/src/IO/ChartReader.cs:591 | the notes found at a tick are exactly the notes at that tick |
| SongObjects.AtPositionFrom | ChartParser/ChartParser/src/IO/ChartReader.cs:591 | the scan from index `k` finds exactly the notes at the tick from `k` on |
| SongObjects.GetRange | ChartParser/ChartParser/src/IO/MidReader.cs:341 | on sorted notes the returned run holds exactly the notes whose tick lies between the two bounds |
| SongObjects.FirstAtOrAfter | ChartParser/ChartParser/src/IO/MidReader.cs:341 | finds the first note at or after the lower bound |
| SongObjects.CountUpTo | ChartParser/ChartParser/src/IO/MidReader.cs:341 | counts the notes up to the first past the upper bound |
| SongObjects.FindClosestPosition | ChartParser/ChartParser/src/IO/ChartReader.cs:479 | returns none only on an empty list, and otherwise an object no farther from the tick than any other |
| SongObjects.ClosestIsExact | ChartParser/ChartParser/src/IO/ChartReader.cs:479-480 | the closest object sits at the tick exactly when some object does |
| SongObjects.NotesOf | ChartParser/ChartParser/src/IO/ChartReader.cs:586 | the `notes` cache holds exactly the chart's notes |
| SongObjects.WithNotes | ChartParser/ChartParser/src/IO/MidReader.cs:280-286 | writing notes back through the cache replaces the notes in order and keeps every other object in its place |
| SongObjects.WithOwnNotes | ChartParser/ChartParser/src/IO/MidReader.cs:280-286 | writing a chart's own notes back changes nothing |
| SongObjects.SortedNotes | ChartParser/ChartParser/src/IO/ChartReader.cs:586 | the notes of a sorted object list are ordered by tick |
| Text.NatToString | ChartParser/ChartParser/src/IO/ChartReader.cs:414 | the decimal rendering of a number is a non-empty digit string whose value is the number |
| Text.ParseUInt | ChartParser/ChartParser/src/IO/ChartReader.cs:414 | `uint.TryParse` succeeds only with a value below 2^32 |
| Text.ParseULong | ChartParser/ChartParser/src/IO/ChartReader.cs:463 | `ulong.TryParse` succeeds only with a value below 2^64 |
| Text.ParseUIntOfNatToString | ChartParser/ChartParser/src/IO/ChartReader.cs:414 | parsing the rendering of any `uint` gives it back |
| Text.ParseULongOfNatToString | ChartParser/ChartParser/src/IO/ChartReader.cs:463 | parsing the rendering of any `ulong` gives it back |
| Text.ParseIntOfIntToString | ChartParser/ChartParser/src/IO/ChartReader.cs:544 | parsing the rendering of any `int` gives it back |
| Text.Split | ChartParser/ChartParser/src/IO/ChartReader.cs:411 | `Split` gives at least one piece and no piece contains the separator |
| Text.SplitNoSeparator | ChartParser/ChartParser/src/IO/ChartReader.cs:411 | a string without the separator splits into itself |
| Text.SplitAfterPiece | ChartParser/ChartParser/src/IO/ChartReader.cs:411 | a piece followed by the separator splits off as the first piece |
| Text.SplitJoin | ChartParser/ChartParser/src/IO/ChartReader.cs:411 | splitting undoes joining pieces that do not contain the separator |
| Text.JoinSplit | ChartParser/ChartParser/src/IO/ChartReader.cs:411 | joining the pieces of a split gives the string back |
| Text.TrimStart | ChartParser/ChartParser/src/IO/ChartReader.cs:218 | `TrimStart` drops exactly the longest prefix of trimmed characters |
| Text.TrimEnd | ChartParser/ChartParser/src/IO/ChartReader.cs:219 | `TrimEnd` drops exactly the longest suffix of trimmed characters |
| Text.TrimCharsUnchanged | ChartParser/ChartParser/src/IO/MidReader.cs:154 | a string that neither starts nor ends with a trimmed character is left alone |
| Text.TrimIndented | ChartParser/ChartParser/src/IO/ChartReader.cs:76 | reading a line with `Trim` removes the writer's indentation |
| ChartReader.GatherBlocks | ChartParser/ChartParser/src/IO/ChartReader.cs:74-115 | the tokenizer loop submits exactly the blocks the line-by-line tokenizer step gathers |
| ChartReader.RunAppend | ChartParser/ChartParser/src/IO/ChartReader.cs:74-115 | tokenizing a concatenation tokenizes the parts in turn |
| ChartReader.NoDataOutsideBraces | ChartParser/ChartParser/src/IO/ChartReader.cs:98-113 | data is only pending inside braces, so the branch that submits pending data outside braces can never fire |
| ChartReader.Trimmed | ChartParser/ChartParser/src/IO/ChartReader.cs:76 | each data line is kept as its `Trim` |
| ChartReader.CollectsData | ChartParser/ChartParser/src/IO/ChartReader.cs:98-103 | indented data lines inside braces are collected trimmed and in order |
| ChartReader.StepData | ChartParser/ChartParser/src/IO/ChartReader.cs:98-103 | inside braces an indented data line is kept trimmed |
| ChartReader.ReadsHeader | ChartParser/ChartParser/src/IO/ChartReader.cs:80-87 | a header line followed by `{` opens a block under that header |
| ChartReader.ReadsBody | ChartParser/ChartParser/src/IO/ChartReader.cs:88-103 | the data lines and the closing `}` submit the block with its trimmed data |
| ChartReader.StepClose | ChartParser/ChartParser/src/IO/ChartReader.cs:88-96 | a closing brace submits the pending block and resets the header and data |
| ChartReader.ReadsBlock | ChartParser/ChartParser/src/IO/ChartReader.cs:74-115 | one written block (header, `{`, indented data, `}`) is read back as one block |
| ChartReader.ReadsWrittenBlocks | ChartParser/ChartParser/src/IO/ChartReader.cs:74-115 | a run of written blocks is read back block by block |
| ChartReader.ReadBacks | ChartParser/ChartParser/src/IO/ChartReader.cs:74-115 | each written block is read back as the same header with trimmed data |
| ChartReader.RoundTripBlocks | ChartParser/ChartParser/src/IO/ChartReader.cs:74-115 | a file made of written blocks yields exactly those blocks, with their data lines trimmed |
| ChartReader.Substring | ChartParser/ChartParser/src/IO/ChartReader.cs:154-181 | `Substring` succeeds exactly when the range fits, and gives that slice |
| ChartReader.InstrumentOfSaveName | ChartParser/ChartParser/src/IO/ChartReader.cs:181-212 | the header's instrument part names a charted instrument, never Unrecognised |
| ChartReader.ShortHeadersFail | ChartParser/ChartParser/src/IO/ChartReader.cs:149-181 | a header shorter than five characters, or shorter than seven and not `Easy`-prefixed, throws and fails the read |
| ChartReader.EmptyHeaderFails | ChartParser/ChartParser/src/IO/ChartReader.cs:88-93 | a `}` with no header before it submits an empty name, which throws and fails the read |
| ChartReader.UnknownHeaderIsUnrecognised | ChartParser/ChartParser/src/IO/ChartReader.cs:174-223 | a long enough header with no difficulty prefix becomes an unrecognised chart named without its brackets |
| ChartReader.TablesAreInjective | ChartParser/ChartParser/src/IO/ChartReader.cs:607-725 | in the standard, drum and GH Live note tables two codes never give the same note, and every note is a valid fret of its table |
| ChartReader.FlagCodes | ChartParser/ChartParser/src/IO/ChartReader.cs:607-725 | codes 5 and 6 are the FORCED and TAP flags in standard and GH Live blocks; drum and unrecognised blocks never read a flag |
| ChartReader.Collect | ChartParser/ChartParser/src/IO/ChartReader.cs:530-586 | the first pass over a chart block keeps the chart's name and game mode |
| ChartReader.UnflaggedTick | ChartParser/ChartParser/src/IO/ChartReader.cs:589-594 | notes at a tick no flag line names keep their flags |
| ChartReader.FlagsAtMeaning | ChartParser/ChartParser/src/IO/ChartReader.cs:589-594 | a tick gets FORCED (TAP) exactly when some flag line at that tick gives it |
| ChartReader.NoFlagsWithoutFlagCodes | ChartParser/ChartParser/src/IO/ChartReader.cs:547-553 | drum and unrecognised blocks collect no flags |
| ChartReader.CollectKeepsSorted | ChartParser/ChartParser/src/IO/ChartReader.cs:530-586 | adding every object of the block keeps the chart's object list sorted |
| ChartReader.FlaggedNotes | ChartParser/ChartParser/src/IO/ChartReader.cs:589-594 | every note gets the union of the flags deferred to its tick |
| ChartReader.LoadedChart | ChartParser/ChartParser/src/IO/ChartReader.cs:512-605 | loading a chart keeps its name, game mode and every non-note object, and gives each note its flags |
| ChartReader.LoadedNoteFlags | ChartParser/ChartParser/src/IO/ChartReader.cs:589-594 | a loaded note is FORCED (TAP) exactly when the first pass gave it that flag or a flag line at its tick did; its tick, fret and sustain are kept |
| ChartReader.LoadChart | ChartParser/ChartParser/src/IO/ChartReader.cs:512-605 | the chart `LoadChart` leaves is the loaded chart |
| ChartReader.Pow2 | ChartParser/ChartParser/src/IO/ChartReader.cs:434 | powers of two are positive |
| ChartReader.Pow2Cast | ChartParser/ChartParser/src/IO/ChartReader.cs:434 | `(uint)Math.Pow(2, d)` is exact below 2^32 |
| ChartReader.Pow2Below | ChartParser/ChartParser/src/IO/ChartReader.cs:434 | powers of two below 2^32 fit a `uint` |
| ChartReader.Pow2Add | ChartParser/ChartParser/src/IO/ChartReader.cs:434 | powers of two multiply by adding exponents |
| ChartReader.Pow2Grows | ChartParser/ChartParser/src/IO/ChartReader.cs:434 | powers of two grow with the exponent |
| ChartReader.TimeSignatureDefaultsToQuarters | ChartParser/ChartParser/src/IO/ChartReader.cs:424-434 | a time signature line without a denominator reads as a quarter-note signature (denominator 2^2) |
| ChartReader.SplitWords4 | ChartParser/ChartParser/src/IO/ChartReader.cs:411 | four words joined by single spaces split back into those words |
| ChartReader.CollectGlobalsKeepsOrder | ChartParser/ChartParser/src/IO/ChartReader.cs:409-475 | the globals pass keeps both lists sorted and keeps the tempo and time signature at tick 0 |
| ChartReader.AnchorTarget | ChartParser/ChartParser/src/IO/ChartReader.cs:477-482 | an anchor lands on a tempo exactly when some tempo sits at its tick, and then on a tempo at that tick |
| ChartReader.SameShapeKeepsValid | ChartParser/ChartParser/src/IO/ChartReader.cs:477-496 | changing only anchors keeps the sync track sorted and its tick-0 entries |
| ChartReader.SetBpmAnchor | ChartParser/ChartParser/src/IO/ChartReader.cs:481-482 | setting an anchor keeps the track's length |
| ChartReader.SetBpmAnchorChangesOneTempo | ChartParser/ChartParser/src/IO/ChartReader.cs:481-482 | setting an anchor changes that tempo's anchor and nothing else |
| ChartReader.ApplyAnchors | ChartParser/ChartParser/src/IO/ChartReader.cs:477-496 | the anchor loop keeps every tempo's tick |
| ChartReader.ApplyAnchorsKeepsShape | ChartParser/ChartParser/src/IO/ChartReader.cs:477-496 | the anchor loop changes anchors and nothing else; an anchor at a tick with no tempo has no effect |
| ChartReader.LastAnchorAt | ChartParser/ChartParser/src/IO/ChartReader.cs:461-470 | finds the last anchor given at a tick, or none when no anchor names it |
| ChartReader.LastAnchorWins | ChartParser/ChartParser/src/IO/ChartReader.cs:477-496 | after the anchor loop a tempo carries the last anchor given at its tick when it is the tempo that tick selects, and its old anchor otherwise |
| ChartReader.AnchorStep | ChartParser/ChartParser/src/IO/ChartReader.cs:477-496 | each anchor is written into the nearest tempo only when that tempo is at the anchor's tick |
| ChartReader.FirstBpmAtZero | ChartParser/ChartParser/src/IO/ChartReader.cs:476-480 | the first tempo of a valid sync track is at tick 0 |
| ChartReader.SubmitDataGlobals | ChartParser/ChartParser/src/IO/ChartReader.cs:397-500 | adds the block's tempos, time signatures, events and sections in order, then applies the anchors; the song stays valid and nothing else changes |
| ChartReader.AddGlobals | ChartParser/ChartParser/src/IO/ChartReader.cs:409-475 | the per-line loop adds exactly the objects the line parser yields and collects the anchors |
| ChartReader.AnchoredTrack | ChartParser/ChartParser/src/IO/ChartReader.cs:476-496 | the anchor loop produces the anchored track and keeps it sorted with its tick-0 entries |
| ChartReader.NewSongLists | ChartParser/ChartParser/src/IO/ChartReader.cs:44 | a new song's lists have the 32 chart slots |
| ChartReader.LoadInstrument | ChartParser/ChartParser/src/IO/ChartReader.cs:181-212 | the instrument passed to `LoadChart` reads every note code with the same table as the chart's own instrument |
| ChartReader.Submit | ChartParser/ChartParser/src/IO/ChartReader.cs:128-214 | a successful submission keeps the 32 chart slots |
| ChartReader.SubmitAll | ChartParser/ChartParser/src/IO/ChartReader.cs:88-96 | submitting every block keeps the 32 chart slots |
| ChartReader.SubmitAllFails | ChartParser/ChartParser/src/IO/ChartReader.cs:37-59 | reading fails exactly when some block's header makes the dispatch throw |
| ChartReader.SubmitChangesItsTarget | ChartParser/ChartParser/src/IO/ChartReader.cs:128-223 | a `[Song]` block changes no list; a globals block changes only the two lists; a chart block changes only its slot and keeps its name; an unknown block appends one unrecognised chart with its name |
| ChartReader.SubmitChartData | ChartParser/ChartParser/src/IO/ChartReader.cs:128-223 | fails exactly when the header dispatch throws, and otherwise leaves the song's lists as the submission gives them |
| ChartReader.SubmitBlocks | ChartParser/ChartParser/src/IO/ChartReader.cs:88-96 | submits the blocks in order, failing exactly when some header throws |
| ChartReader.FailureStops | ChartParser/ChartParser/src/IO/ChartReader.cs:55-59 | once a prefix of the blocks fails, the whole read fails |
| ChartReader.ReadChart | ChartParser/ChartParser/src/IO/ChartReader.cs:35-126 | reading fails with "Could not open file" exactly when some block's header throws; otherwise it returns a fresh, valid song with fresh caches whose lists are the new song's lists with every block submitted in order |
| ChartWriter.InstrumentSaveName | ChartParser/ChartParser/src/IO/ChartWriter.cs:109-139 | every charted instrument has a header name; Unrecognised has none |
| ChartWriter.SaveNamesAgree | ChartParser/ChartParser/src/IO/ChartWriter.cs:109-139 | the writer's header names are exactly the names the reader's dispatch maps back to the same instrument |
| ChartWriter.ChartHeaderDispatch | ChartParser/ChartParser/src/IO/ChartWriter.cs:142-189 | the header written for an instrument and difficulty is dispatched by the reader to that very chart slot |
| ChartWriter.DifficultyHeader | ChartParser/ChartParser/src/IO/ChartWriter.cs:186-187 | a difficulty name followed by an instrument name, in brackets, reads back as that slot |
| ChartWriter.SaveNoteNumber | ChartParser/ChartParser/src/IO/ChartWriter.cs:316-331 | the note code written for a charted instrument is between 0 and 8 |
| ChartWriter.SaveNumberRoundTrip | ChartParser/ChartParser/src/IO/ChartWriter.cs:316-438 | the reader's table maps a code to a fret exactly when the fret is valid for the instrument and the writer writes that code for it |
| ChartWriter.SavedFretIsNotAFlag | ChartParser/ChartParser/src/IO/ChartWriter.cs:316-438 | a written note code is never read back as a flag |
| ChartWriter.RoundsToNearest | ChartParser/ChartParser/src/IO/ChartWriter.cs:269 | `Math.Round` gives a nearest multiple, and the even one on a tie |
| ChartWriter.ScaleIdentity | ChartParser/ChartParser/src/IO/ChartWriter.cs:261-269 | at the song's own resolution ticks are not rescaled |
| ChartWriter.ScaleMonotone | ChartParser/ChartParser/src/IO/ChartWriter.cs:261-269 | rescaling keeps tick order |
| ChartWriter.RoundMonotone | ChartParser/ChartParser/src/IO/ChartWriter.cs:269 | rounding keeps order |
| ChartWriter.CastUInt | ChartParser/ChartParser/src/IO/ChartWriter.cs:269 | the `(uint)` cast keeps every value that fits |
| ChartWriter.TickAtOwnResolution | ChartParser/ChartParser/src/IO/ChartWriter.cs:269 | at the song's own resolution the written tick is the tick plus the offset and sustains are kept |
| ChartWriter.TicksKeepOrder | ChartParser/ChartParser/src/IO/ChartWriter.cs:269 | without an offset, written ticks keep the objects' order |
| ChartWriter.SyncList | ChartParser/ChartParser/src/IO/ChartWriter.cs:90-100 | the sync track is written object by object, in order |
| ChartWriter.EventList | ChartParser/ChartParser/src/IO/ChartWriter.cs:102-106 | the event list is written object by object, in order |
| ChartWriter.ChartList | ChartParser/ChartParser/src/IO/ChartWriter.cs:142-201 | a chart's objects are written object by object, in order |
| ChartWriter.NextNote | ChartParser/ChartParser/src/IO/ChartWriter.cs:337 | finds the next note after an object, skipping non-notes |
| ChartWriter.Log2OfPow2 | ChartParser/ChartParser/src/IO/ChartWriter.cs:290-291 | the written denominator exponent of a power-of-two denominator is its exponent |
| ChartWriter.ObjectBodies | ChartParser/ChartParser/src/IO/ChartWriter.cs:272-349 | every object writes at least one line |
| ChartWriter.SyncBodies | ChartParser/ChartParser/src/IO/ChartWriter.cs:274-292 | a tempo writes its anchor line first when it has one; every sync object writes at least one line |
| ChartWriter.NoteBodies | ChartParser/ChartParser/src/IO/ChartWriter.cs:314-347 | a note writes its note line, then a FORCED and a TAP line when asked for |
| ChartWriter.AtTick | ChartParser/ChartParser/src/IO/ChartWriter.cs:270 | every line of an object starts with its tick |
| ChartWriter.ObjectLines | ChartParser/ChartParser/src/IO/ChartWriter.cs:263-353 | each object contributes at least one line |
| ChartWriter.TailTextRenders | ChartParser/ChartParser/src/IO/ChartWriter.cs:270-353 | the text appended for an object is its lines, each indented, after the tick, and ended |
| ChartWriter.RenderedRest | ChartParser/ChartParser/src/IO/ChartWriter.cs:276-353 | the text of zero, one or two lines at a tick, written out |
| ChartWriter.SaveObject | ChartParser/ChartParser/src/IO/ChartWriter.cs:266-353 | appends exactly the object's text |
| ChartWriter.SaveEvent | ChartParser/ChartParser/src/IO/ChartWriter.cs:294-302 | a section or event writes one `E` line with the title in quotes |
| ChartWriter.SaveChartItem | ChartParser/ChartParser/src/IO/ChartWriter.cs:304-312 | a chart event or star power writes one line |
| ChartWriter.SaveBpm | ChartParser/ChartParser/src/IO/ChartWriter.cs:274-284 | a tempo writes its anchor line, when it has one, and its tempo line |
| ChartWriter.SaveNote | ChartParser/ChartParser/src/IO/ChartWriter.cs:314-347 | a note writes its line and the chord's flag lines |
| ChartWriter.GetSaveString | ChartParser/ChartParser/src/IO/ChartWriter.cs:255-363 | the text is each object's text in order: its lines when it does not fail, and only its `<tab><tick>` prefix, with no line ending, when it fails; the error list names each failing object by index |
| ChartWriter.RenderAppend | ChartParser/ChartParser/src/IO/ChartWriter.cs:255-363 | the text of two line lists is the two texts in turn |
| ChartWriter.IndentedAppend | ChartParser/ChartParser/src/IO/ChartWriter.cs:270 | indenting distributes over concatenation |
| ChartWriter.SaveTextWithoutFaults | ChartParser/ChartParser/src/IO/ChartWriter.cs:255-363 | with no failing object, the text is the rendering of all objects' lines |
| ChartWriter.SaveTextEmpty | ChartParser/ChartParser/src/IO/ChartWriter.cs:255-363 | the text is empty exactly when the list is |
| ChartWriter.SaveErrorsMeaning | ChartParser/ChartParser/src/IO/ChartWriter.cs:355-360 | the error list is empty exactly when no object fails, and each entry names a failing object |
| RoundTrip.NumberWord | ChartParser/ChartParser/src/IO/ChartWriter.cs:269-270 | a written number is one word with no surrounding whitespace |
| RoundTrip.IntWord | ChartParser/ChartParser/src/IO/ChartWriter.cs:331 | a written `int` is one word that does not end in whitespace |
| RoundTrip.SplitWords5 | ChartParser/ChartParser/src/IO/ChartReader.cs:533 | five space-free words joined by single spaces split back into those words |
| RoundTrip.SplitAfterFour | ChartParser/ChartParser/src/IO/ChartReader.cs:411 | four leading words split off before the rest of the line |
| RoundTrip.TrimWritten | ChartParser/ChartParser/src/IO/ChartReader.cs:76 | trimming leaves a written line without trailing whitespace alone |
| RoundTrip.ChartReadTrimmed | ChartParser/ChartParser/src/IO/ChartReader.cs:76 | a written chart line parses the same after trimming |
| RoundTrip.GlobalsReadTrimmed | ChartParser/ChartParser/src/IO/ChartReader.cs:76 | a written globals line parses the same after trimming |
| RoundTrip.ChartReadTrailingSpace | ChartParser/ChartParser/src/IO/ChartReader.cs:76 | a trailing space on a chart line is trimmed before parsing |
| RoundTrip.NoteLineReadsBack | ChartParser/ChartParser/src/IO/ChartReader.cs:539-557 | a written note line reads back as the same fret at the written tick with the written sustain, unflagged |
| RoundTrip.NoteWords | ChartParser/ChartParser/src/IO/ChartReader.cs:533-557 | a line `<tick> = N <code> <length>` is read as the note code at that tick with that length |
| RoundTrip.SplitNoteWords | ChartParser/ChartParser/src/IO/ChartReader.cs:533 | a note line splits into its five words |
| RoundTrip.TrimTrailingSpace | ChartParser/ChartParser/src/IO/ChartReader.cs:76 | trimming removes the flag line's trailing space |
| RoundTrip.FlagLineWords | ChartParser/ChartParser/src/IO/ChartReader.cs:539-557 | the written FORCED and TAP lines read as note code 5 or 6 of length 0 |
| RoundTrip.FlagLineTrimmed | ChartParser/ChartParser/src/IO/ChartReader.cs:76 | a flag line reads the same as the note line without its trailing space |
| RoundTrip.FlagBodyShape | ChartParser/ChartParser/src/IO/ChartWriter.cs:339-344 | a flag line is the note line for code 5 or 6 with length 0 and a trailing space |
| RoundTrip.ForcedLineReadsBack | ChartParser/ChartParser/src/IO/ChartWriter.cs:339-340 | the written FORCED line reads back as a FORCED flag in standard and GH Live charts, as a green drum note in drum charts and as raw note 5 in unrecognised charts |
| RoundTrip.TapLineReadsBack | ChartParser/ChartParser/src/IO/ChartWriter.cs:343-344 | the written TAP line reads back as a TAP flag in standard and GH Live charts, is skipped in drum charts and is raw note 6 in unrecognised charts |
| RoundTrip.StarpowerLineReadsBack | ChartParser/ChartParser/src/IO/ChartReader.cs:559-568 | a written star power line reads back as star power at the written tick and length |
| RoundTrip.StarpowerWords | ChartParser/ChartParser/src/IO/ChartReader.cs:559-568 | `<tick> = S 2 <length>` reads as star power |
| RoundTrip.SplitStarpowerWords | ChartParser/ChartParser/src/IO/ChartReader.cs:533 | a star power line splits into its five words |
| RoundTrip.SplitKindWords | ChartParser/ChartParser/src/IO/ChartReader.cs:411 | the tick, `=` and the kind word split off before the rest of the line |
| RoundTrip.SplitOneWord | ChartParser/ChartParser/src/IO/ChartReader.cs:411 | a one-word line body splits into four words |
| RoundTrip.ChartEventLineReadsBack | ChartParser/ChartParser/src/IO/ChartReader.cs:570-574 | a written chart event with a one-word name reads back as itself at the written tick |
| RoundTrip.SpacedChartEventKeepsFirstWord | ChartParser/ChartParser/src/IO/ChartReader.cs:570-574 | a chart event whose name has a space reads back with only its first word |
| RoundTrip.ChartEventWords | ChartParser/ChartParser/src/IO/ChartReader.cs:570-574 | an `E` line in a chart reads as a chart event named by its first word |
| RoundTrip.NumberLineWords | ChartParser/ChartParser/src/IO/ChartReader.cs:436-470 | `<tick> = B <value>` reads as a tempo and `<tick> = A <value>` as an anchor |
| RoundTrip.TempoLineReadsBack | ChartParser/ChartParser/src/IO/ChartReader.cs:436-441 | a written tempo line reads back as the same tempo at the written tick |
| RoundTrip.AnchorLineReadsBack | ChartParser/ChartParser/src/IO/ChartReader.cs:461-469 | a written anchor line reads back as an anchor at the written tick with the written microseconds |
| RoundTrip.NumberBodyReads | ChartParser/ChartParser/src/IO/ChartReader.cs:436-470 | a tempo or anchor line reads the same after trimming |
| RoundTrip.TimeSignatureLineReads | ChartParser/ChartParser/src/IO/ChartReader.cs:424-434 | a written time signature reads back with its numerator, and the denominator 2 to the written exponent (4 when none is written) |
| RoundTrip.QuarterBodyReads | ChartParser/ChartParser/src/IO/ChartReader.cs:424-434 | a time signature line without a denominator reads as quarter notes |
| RoundTrip.QuarterWords | ChartParser/ChartParser/src/IO/ChartReader.cs:424-434 | `<tick> = TS <n>` reads as n/4 |
| RoundTrip.ExponentBodyReads | ChartParser/ChartParser/src/IO/ChartReader.cs:424-434 | a time signature line with an exponent reads after trimming |
| RoundTrip.ExponentWords | ChartParser/ChartParser/src/IO/ChartReader.cs:424-434 | `<tick> = TS <n> <e>` reads as n over `(uint)2^e` |
| RoundTrip.Log2Below | ChartParser/ChartParser/src/IO/ChartWriter.cs:291 | the written exponent is no larger than the denominator |
| RoundTrip.TimeSignatureReadsBack | ChartParser/ChartParser/src/IO/ChartReader.cs:424-434 | a time signature whose denominator is a power of two below 2^32 reads back exactly, at the written tick |
| RoundTrip.TempoLinesAgree | ChartParser/ChartParser/src/IO/ChartWriter.cs:274-284 | at its own resolution and without offset, the writer's tempo lines are the lines of `BPM.GetSaveString` |
| RoundTrip.TrimQuotes | ChartParser/ChartParser/src/IO/ChartReader.cs:449 | trimming quotes removes the quotes the writer adds around a title |
| RoundTrip.SplitKeepsAbsent | ChartParser/ChartParser/src/IO/ChartReader.cs:411 | no piece of a split contains a character the string does not contain |
| RoundTrip.SplitAppendChar | ChartParser/ChartParser/src/IO/ChartReader.cs:411 | appending a non-separator character extends the last piece |
| RoundTrip.SectionWords | ChartParser/ChartParser/src/IO/ChartReader.cs:444-453 | a quoted section title, split into words, is rejoined with single spaces and its quotes dropped |
| RoundTrip.SectionLineReadsBack | ChartParser/ChartParser/src/IO/ChartReader.cs:443-453 | a written section line reads back as the same section, spaces included, at the written tick |
| RoundTrip.SectionWordsRead | ChartParser/ChartParser/src/IO/ChartReader.cs:443-453 | `<tick> = E "section <title>"` reads as that section |
| RoundTrip.EventLineReadsBack | ChartParser/ChartParser/src/IO/ChartReader.cs:455-459 | a written event with a one-word, quote-free title reads back as itself at the written tick |
| RoundTrip.EventWords | ChartParser/ChartParser/src/IO/ChartReader.cs:455-459 | `<tick> = E "<title>"` reads as that event |
| RoundTrip.SpacedEventKeepsFirstWord | ChartParser/ChartParser/src/IO/ChartReader.cs:455-459 | an event whose title has a space reads back with only its first word |
| RoundTrip.SpacedEventWords | ChartParser/ChartParser/src/IO/ChartReader.cs:455-459 | a spaced event line reads as an event named by its first word |
| RoundTrip.ParseEventWords | ChartParser/ChartParser/src/IO/ChartReader.cs:455-459 | an `E` line whose first word is not `"section` is an event titled by that word without quotes |
| RoundTrip.QuotedWordIsNotSection | ChartParser/ChartParser/src/IO/ChartReader.cs:444 | a quoted word other than `section` is not the section marker |
| RoundTrip.SectionPrefixedEventIsSection | ChartParser/ChartParser/src/IO/ChartReader.cs:443-453 | an event whose title starts with "section " is written like a section and reads back as one |
| ChartFile.KeyName | ChartParser/ChartParser/src/IO/ChartWriter.cs:226-251 | every property key is written as a capitalised name |
| ChartFile.EntriesMeaning | ChartParser/ChartParser/src/IO/ChartWriter.cs:226-251 | a property is written exactly when its key is listed and it has a value |
| ChartFile.PropertiesWritten | ChartParser/ChartParser/src/IO/ChartWriter.cs:218-253 | the `[Song]` properties written are exactly those with a value: the non-empty text properties, offset, resolution (the target one), difficulty, preview bounds, and the length only when it is manual |
| ChartFile.AllKeysListed | ChartParser/ChartParser/src/IO/ChartWriter.cs:226-251 | every property key has its place in the written order |
| ChartFile.KeyRank | ChartParser/ChartParser/src/IO/ChartWriter.cs:226-251 | each key's place in the written order names that key |
| ChartFile.EntriesInOrder | ChartParser/ChartParser/src/IO/ChartWriter.cs:226-251 | properties are written in the fixed key order and only listed keys appear |
| ChartFile.PropertiesInOrder | ChartParser/ChartParser/src/IO/ChartWriter.cs:226-251 | the `[Song]` properties appear in the writer's fixed order |
| ChartFile.PropertyLines | ChartParser/ChartParser/src/IO/ChartWriter.cs:226-251 | each property is written as `<Key> = <value>` |
| ChartFile.Harder | ChartParser/ChartParser/src/IO/ChartWriter.cs:158-175 | the next harder difficulty is one step up the enum |
| ChartFile.FillFromMeaning | ChartParser/ChartParser/src/IO/ChartWriter.cs:148-183 | an empty difficulty is filled from the nearest harder non-empty one, and from none when all harder ones are empty |
| ChartFile.DifficultyValueInjective | ChartParser/ChartParser/src/IO/ChartWriter.cs:142 | different difficulties have different enum values |
| ChartFile.CopyDownRepeatsErrors | ChartParser/ChartParser/src/IO/ChartWriter.cs:155-178 | copying down reports the errors of the chart it copies from, again |
| ChartFile.SlotOmitted | ChartParser/ChartParser/src/IO/ChartWriter.cs:148-184 | a difficulty is left out of the file exactly when its chart is empty and copying down is off or every harder chart is empty |
| ChartFile.BlocksTextAppend | ChartParser/ChartParser/src/IO/ChartWriter.cs:23-202 | the text of two block lists is the two texts in turn |
| ChartFile.SectionRenders | ChartParser/ChartParser/src/IO/ChartWriter.cs:186-189 | a header, `{`, the indented data and `}` form one block's text |
| ChartFile.NoBlocksText | ChartParser/ChartParser/src/IO/ChartWriter.cs:23-202 | no blocks give no text |
| ChartFile.BlocksTextSingle | ChartParser/ChartParser/src/IO/ChartWriter.cs:186-189 | a single block's text is the rendering of its lines |
| ChartFile.RenderedBraces | ChartParser/ChartParser/src/IO/ChartWriter.cs:186-189 | the header and brace lines are ended by the line ending |
| ChartFile.SectionAssociates | ChartParser/ChartParser/src/IO/ChartWriter.cs:186-189 | the header, brace, body and closing brace concatenate to the block text |
| ChartFile.SectionOf | ChartParser/ChartParser/src/IO/ChartWriter.cs:186-189 | a block's body text is the rendering of its indented data |
| ChartFile.ChartStringRenders | ChartParser/ChartParser/src/IO/ChartWriter.cs:144 | without faults a chart's text is the rendering of its data lines |
| ChartFile.SlotRenders | ChartParser/ChartParser/src/IO/ChartWriter.cs:142-189 | a difficulty's text is the text of its block, or nothing when omitted |
| ChartFile.InstrumentRenders | ChartParser/ChartParser/src/IO/ChartWriter.cs:142-190 | an instrument's text is the text of its difficulty blocks in enum order |
| ChartFile.GridRenders | ChartParser/ChartParser/src/IO/ChartWriter.cs:109-191 | the chart grid's text is the text of every instrument's blocks in enum order |
| ChartFile.UnrecognisedRenders | ChartParser/ChartParser/src/IO/ChartWriter.cs:197-204 | the unrecognised charts' text is the text of one block per chart, in order |
| ChartFile.UnrecognisedStep | ChartParser/ChartParser/src/IO/ChartWriter.cs:197-204 | each unrecognised chart appends its block's text |
| ChartFile.UnrecognisedChartRenders | ChartParser/ChartParser/src/IO/ChartWriter.cs:199-203 | an unrecognised chart is written under its own name in brackets |
| ChartFile.SyncPrefixRenders | ChartParser/ChartParser/src/IO/ChartWriter.cs:93-97 | a positive tick offset writes a default tempo and time signature at tick 0 first |
| ChartFile.GlobalsRender | ChartParser/ChartParser/src/IO/ChartWriter.cs:90-106 | the `[SyncTrack]` and `[Events]` texts are the texts of their blocks |
| ChartFile.WriteTextRenders | ChartParser/ChartParser/src/IO/ChartWriter.cs:23-202 | without faults the file text is the text of the written blocks |
| ChartFile.FirstBlocksRender | ChartParser/ChartParser/src/IO/ChartWriter.cs:57-106 | the first three blocks are `[Song]`, `[SyncTrack]` and `[Events]` |
| ChartFile.BlocksTextOfThree | ChartParser/ChartParser/src/IO/ChartWriter.cs:57-106 | three blocks' text is their texts in turn |
| ChartFile.ChartErrorsClean | ChartParser/ChartParser/src/IO/ChartWriter.cs:355-360 | a chart with no failing object reports no error |
| ChartFile.SlotErrorsClean | ChartParser/ChartParser/src/IO/ChartWriter.cs:142-189 | a difficulty with no failing object reports no error |
| ChartFile.InstrumentErrorsClean | ChartParser/ChartParser/src/IO/ChartWriter.cs:142-190 | an instrument with no failing object reports no error |
| ChartFile.GridErrorsClean | ChartParser/ChartParser/src/IO/ChartWriter.cs:109-191 | the grid with no failing object reports no error |
| ChartFile.UnrecognisedErrorsClean | ChartParser/ChartParser/src/IO/ChartWriter.cs:197-204 | unrecognised charts with no failing object report no error |
| ChartFile.SaveErrorsClean | ChartParser/ChartParser/src/IO/ChartWriter.cs:355-360 | a list with no failing object reports no error |
| ChartFile.WriteErrorsClean | ChartParser/ChartParser/src/IO/ChartWriter.cs:23-202 | a write with no fault reports no error |
| ChartFile.SongFaultReported | ChartParser/ChartParser/src/IO/ChartWriter.cs:80-88 | when the properties fail, the `[Song]` block is dropped and its error is reported first |
| ChartFile.ReadableLeading | ChartParser/ChartParser/src/IO/ChartWriter.cs:226-251 | a property or data line is a line the reader keeps |
| ChartFile.ReadableAppend | ChartParser/ChartParser/src/IO/ChartWriter.cs:23-202 | readable line lists concatenate |
| ChartFile.TickLineReadable | ChartParser/ChartParser/src/IO/ChartWriter.cs:269-270 | a line starting with a tick is a line the reader keeps |
| ChartFile.ObjectLinesReadable | ChartParser/ChartParser/src/IO/ChartWriter.cs:263-353 | every line an object writes is one the reader keeps |
| ChartFile.SavedLinesReadable | ChartParser/ChartParser/src/IO/ChartWriter.cs:255-363 | every line of a list is one the reader keeps |
| ChartFile.PropertyLinesReadable | ChartParser/ChartParser/src/IO/ChartWriter.cs:226-251 | every property line is one the reader keeps |
| ChartFile.BracketedWritable | ChartParser/ChartParser/src/IO/ChartWriter.cs:186-201 | a bracketed name over readable data is a block the reader reads back |
| ChartFile.WritableAppend | ChartParser/ChartParser/src/IO/ChartWriter.cs:23-202 | lists of readable blocks concatenate |
| ChartFile.ChartDataReadable | ChartParser/ChartParser/src/IO/ChartWriter.cs:144 | a chart's data lines are lines the reader keeps |
| ChartFile.FirstBlocksWritable | ChartParser/ChartParser/src/IO/ChartWriter.cs:57-106 | the `[Song]`, `[SyncTrack]` and `[Events]` blocks read back |
| ChartFile.ThreeWritable | ChartParser/ChartParser/src/IO/ChartWriter.cs:57-106 | three readable blocks form a readable list |
| ChartFile.HeaderWritable | ChartParser/ChartParser/src/IO/ChartWriter.cs:57-106 | a header over readable data is a readable block |
| ChartFile.SongBlockWritable | ChartParser/ChartParser/src/IO/ChartWriter.cs:57-78 | the `[Song]` block reads back |
| ChartFile.PropertiesBlockWritable | ChartParser/ChartParser/src/IO/ChartWriter.cs:57-78 | properties and audio lines under `[Song]` read back |
| ChartFile.SyncBlockWritable | ChartParser/ChartParser/src/IO/ChartWriter.cs:90-100 | the `[SyncTrack]` block reads back |
| ChartFile.DefaultSyncDataReadable | ChartParser/ChartParser/src/IO/ChartWriter.cs:93-97 | the default tempo and time signature lines are readable |
| ChartFile.EventsBlockWritable | ChartParser/ChartParser/src/IO/ChartWriter.cs:102-106 | the `[Events]` block reads back |
| ChartFile.SlotBlocksWritable | ChartParser/ChartParser/src/IO/ChartWriter.cs:142-189 | a difficulty's block reads back |
| ChartFile.ChartHeaderIsHeader | ChartParser/ChartParser/src/IO/ChartWriter.cs:186 | a difficulty header is a header line for the reader |
| ChartFile.InstrumentBlocksWritable | ChartParser/ChartParser/src/IO/ChartWriter.cs:142-190 | an instrument's blocks read back |
| ChartFile.GridBlocksWritable | ChartParser/ChartParser/src/IO/ChartWriter.cs:109-191 | the grid's blocks read back |
| ChartFile.GridBlocksStep | ChartParser/ChartParser/src/IO/ChartWriter.cs:109-191 | each instrument appends readable blocks |
| ChartFile.UnrecognisedBlocksWritable | ChartParser/ChartParser/src/IO/ChartWriter.cs:197-204 | the unrecognised charts' blocks read back |
| ChartFile.WriteReadsBack | ChartParser/ChartParser/src/IO/ChartWriter.cs:23-213 | a write with no fault reports no error, its text is the written blocks, and the reader's tokenizer reads those blocks back exactly, data trimmed |
| ChartFile.WriteSlot | ChartParser/ChartParser/src/IO/ChartWriter.cs:142-189 | writes a difficulty's block (or nothing) and its errors, copying down when asked |
| ChartFile.WriteInstrument | ChartParser/ChartParser/src/IO/ChartWriter.cs:142-190 | writes an instrument's four difficulties in enum order |
| ChartFile.WriteGrid | ChartParser/ChartParser/src/IO/ChartWriter.cs:109-191 | writes every charted instrument in enum order |
| ChartFile.WriteUnrecognised | ChartParser/ChartParser/src/IO/ChartWriter.cs:197-204 | writes every unrecognised chart under its own name |
| ChartFile.WriteGlobals | ChartParser/ChartParser/src/IO/ChartWriter.cs:29-106 | writes `[Song]`, `[SyncTrack]` and `[Events]` and reports the errors in that order |
| ChartFile.Write | ChartParser/ChartParser/src/IO/ChartWriter.cs:23-213 | refreshes the caches, changes no list, keeps the song valid and keeps its settings (metadata, resolution, offset, length and manual-length switch), and produces the whole file text and the error list |
| ChartRoundTrip.ChartReadsBack | ChartParser/ChartParser/src/IO/ChartReader.cs:512-605 | a chart block of a sorted five-fret or GH Live chart is written at the chart's own resolution, with no offset and with the flag lines on. Its notes are on valid frets and its chart events are one word. Read into an empty chart, it gives back the same objects in the same order. Star power and chart events come back as written. Each note keeps its tick, fret and sustain and takes the FORCED and TAP flags of its chord's last note, losing TAP when that note is open |
| ChartRoundTrip.ChartLinesReadBack | ChartParser/ChartParser/src/IO/ChartReader.cs:530-586 | the first pass over the lines written for the first n objects adds exactly those objects, in order and without flags, and defers exactly the flag lines written after each chord |
| ChartRoundTrip.ObjectReadsBack | ChartParser/ChartParser/src/IO/ChartReader.cs:530-586 | one object's written lines add that object without its flags and defer the flags written after it |
| ChartRoundTrip.NoteReadsBack | ChartParser/ChartParser/src/IO/ChartReader.cs:539-557 | a written note's lines add the note unflagged and defer its FORCED and TAP lines |
| ChartRoundTrip.NoteLinesRead | ChartParser/ChartParser/src/IO/ChartWriter.cs:332-345 | the note line and the flag lines after it read as the unflagged note plus a FORCED entry when forced and a TAP entry when tapped and not open |
| ChartRoundTrip.FlagLinesRead | ChartParser/ChartParser/src/IO/ChartReader.cs:539-557 | a written FORCED or TAP line adds no object and defers that flag at its tick |
| ChartRoundTrip.ItemReadsBack | ChartParser/ChartParser/src/IO/ChartReader.cs:559-574 | a written star power phrase or one-word chart event is added as itself and defers no flag |
| ChartRoundTrip.ItemLineReadsBack | ChartParser/ChartParser/src/IO/ChartReader.cs:559-574 | a trimmed star power or chart event line parses as that object |
| ChartRoundTrip.AddsInOrder | ChartParser/ChartParser/src/IO/ChartReader.cs:530-586 | adding the objects of a sorted list with no equal neighbours one by one, in order, rebuilds the list: each insert appends |
| ChartRoundTrip.CollectAppend | ChartParser/ChartParser/src/IO/ChartReader.cs:530-586 | the first pass over two runs of lines is the pass over the second from where the first left off, with the deferred flags concatenated |
| ChartRoundTrip.SecondPass | ChartParser/ChartParser/src/IO/ChartReader.cs:587-594 | the flag pass gives each note the flags deferred at its tick and leaves every other object, the name and the game mode as the first pass left them |
| ChartRoundTrip.PassReadsBack | ChartParser/ChartParser/src/IO/ChartReader.cs:587-594 | after the flag pass each note carries its chord's flags and every other object is as written |
| ChartRoundTrip.NoteFlagsRead | ChartParser/ChartParser/src/Song/Events/Note.cs:266 | a note read without flags and flagged by the written flag lines has the flags of its chord's last note |
| ChartRoundTrip.FlagsOfChord | ChartParser/ChartParser/src/IO/ChartWriter.cs:336-345 | the flag lines of the first m objects give tick p the flags of the last note of p's chord once that note is among them, and no flags before |
| ChartRoundTrip.EntryFlags | ChartParser/ChartParser/src/IO/ChartWriter.cs:336-345 | one object's lines defer flags to tick p only when it is the last note at p. Those flags are its FORCED, and its TAP unless it is open |
| ChartRoundTrip.OnlyTheLastEndsChord | ChartParser/ChartParser/src/IO/ChartWriter.cs:337 | in a sorted list, a note at tick p is one after which the writer writes flags exactly when it is the last note at p |
| ChartRoundTrip.ChordsEnd | ChartParser/ChartParser/src/IO/ChartWriter.cs:337 | every note of a list has a last note at its tick |
| ChartRoundTrip.FlagsAtAppend | ChartParser/ChartParser/src/IO/ChartReader.cs:589-594 | the flags two runs of flag entries give a tick are the union of what each gives it |
| ChartRoundTrip.WithFlaggedNotes | ChartParser/ChartParser/src/IO/ChartReader.cs:587-594 | flagging the notes of an object list changes each note by its deferred flags and leaves every other object in place |
| GlobalsRoundTrip.FirstBlocksReadBack | ChartParser/ChartParser/src/IO/ChartReader.cs:128-147 | the written `[Song]`, `[SyncTrack]` and `[Events]` blocks, submitted in order to a new song, leave it with the song's sync track and events exactly, anchors included. This holds at the song's own resolution with no offset, for a sorted sync track with a tempo and a time signature at tick 0, power-of-two denominators and anchors below 2^32, and for sorted events whose titles have no quote, event titles being one word |
| GlobalsRoundTrip.SyncBlockReadsBack | ChartParser/ChartParser/src/IO/ChartReader.cs:397-500 | the written `[SyncTrack]` block submitted over a new song's default sync track gives back the song's sync track exactly |
| GlobalsRoundTrip.EventsBlockReadsBack | ChartParser/ChartParser/src/IO/ChartReader.cs:397-500 | the written `[Events]` block submitted to a song without events gives back the song's events exactly |
| GlobalsRoundTrip.SongBlockSubmit | ChartParser/ChartParser/src/IO/ChartReader.cs:132-137 | a `[Song]` block leaves the sync track, events and charts as they were |
| GlobalsRoundTrip.GlobalsBlockSubmit | ChartParser/ChartParser/src/IO/ChartReader.cs:138-147 | a `[SyncTrack]` or `[Events]` block is read by the globals loop and then the anchor loop, and nothing else changes |
| GlobalsRoundTrip.SyncTrackReadsBack | ChartParser/ChartParser/src/IO/ChartReader.cs:409-496 | the written sync lines, read over the default sync track, leave the events alone, and the anchor pass then restores the sync track exactly |
| GlobalsRoundTrip.SyncLinesReadBack | ChartParser/ChartParser/src/IO/ChartReader.cs:409-474 | the globals loop over the written sync lines gives the sync track without anchors, the events unchanged and every tempo's anchor in track order |
| GlobalsRoundTrip.SyncObjectReadsBack | ChartParser/ChartParser/src/IO/ChartWriter.cs:269-290 | one sync object's written lines insert it without its anchor and queue its anchor, if any |
| GlobalsRoundTrip.SyncBodiesReadBack | ChartParser/ChartParser/src/IO/ChartWriter.cs:273-290 | a tempo, an anchored tempo or a time signature written at its tick reads as that object without its anchor, plus its anchor |
| GlobalsRoundTrip.AnchoredTempoReadsBack | ChartParser/ChartParser/src/IO/ChartWriter.cs:273-282 | an anchored tempo's `A` line then `B` line queue the anchor and insert the tempo without it |
| GlobalsRoundTrip.TempoBodyRead | ChartParser/ChartParser/src/IO/ChartReader.cs:436-442 | an unanchored tempo's line inserts that tempo |
| GlobalsRoundTrip.TimeSignatureBodyRead | ChartParser/ChartParser/src/IO/ChartReader.cs:424-435 | a time signature's line inserts that time signature when its denominator is a power of two below 2^32 |
| GlobalsRoundTrip.EventLinesReadBack | ChartParser/ChartParser/src/IO/ChartReader.cs:409-474 | the globals loop over the written event lines, from no events, gives back the events exactly, keeps the sync track and queues no anchor |
| GlobalsRoundTrip.EventReadsBack | ChartParser/ChartParser/src/IO/ChartReader.cs:443-460 | one written event or section inserts itself into the events and changes nothing else |
| GlobalsRoundTrip.CollectIsFold | ChartParser/ChartParser/src/IO/ChartReader.cs:409-474 | the globals loop is the fold of its one-line step over the data lines |
| GlobalsRoundTrip.FoldAppend | ChartParser/ChartParser/src/IO/ChartReader.cs:409-474 | the loop over two runs of lines is the loop over the second from where the first left off |
| GlobalsRoundTrip.RunFold | ChartParser/ChartParser/src/IO/ChartReader.cs:409-474 | when each group of lines takes state i to state i + 1, the lines of the first n groups take state 0 to state n |
| GlobalsRoundTrip.ZeroSyncFirst | ChartParser/ChartParser/src/Song/Song.cs:393-400 | a sync track kept sorted with its tick-0 time signature and tempo starts with that time signature, then that tempo |
| GlobalsRoundTrip.ZeroSyncReplacesDefaults | ChartParser/ChartParser/src/IO/ChartReader.cs:434-441 | the tick-0 time signature and tempo replace the new song's defaults in place |
| GlobalsRoundTrip.AddsSyncInOrder | ChartParser/ChartParser/src/IO/ChartReader.cs:434-441 | every later sync object of a sorted track, inserted in order, is appended |
| GlobalsRoundTrip.AddsEventInOrder | ChartParser/ChartParser/src/IO/ChartReader.cs:453-458 | every event of a sorted list with no equal neighbours, inserted in order, is appended |
| GlobalsRoundTrip.WholePrefix | ChartParser/ChartParser/src/IO/ChartReader.cs:409-474 | inserting a sorted sync track's objects in order, without anchors, over the defaults gives the track without anchors |
| GlobalsRoundTrip.AllAnchorsRestore | ChartParser/ChartParser/src/IO/ChartReader.cs:477-496 | the anchor loop over the anchors the writer wrote, in order, puts every anchor back on its own tempo and gives back the sync track |
| GlobalsRoundTrip.AnchorsRestore | ChartParser/ChartParser/src/IO/ChartReader.cs:477-496 | applying the anchors of the first m objects sets exactly those tempos' anchors |
| GlobalsRoundTrip.AnchorTargetIsTempo | ChartParser/ChartParser/src/IO/ChartReader.cs:479-480 | the closest-position search for an anchor's tick finds the tempo that carried it |
| GlobalsRoundTrip.SetBpmAnchorAt | ChartParser/ChartParser/src/IO/ChartReader.cs:482 | setting the anchor of the k-th tempo changes that tempo's anchor and nothing else |
| MidReader.SelectNoteDifficultyBands | ChartParser/ChartParser/src/IO/MidReader.cs:441-453 | a note number selects difficulty d exactly when it lies in d's band of seven numbers (60-66 Easy, 72-78 Medium, 84-90 Hard, 96-102 Expert); any other number selects none, where the source throws |
| MidReader.SelectGHLNoteDifficultyBands | ChartParser/ChartParser/src/IO/MidReader.cs:455-465 | a GH Live note number selects d exactly when it is at or above d's threshold (70, 82, 94) and below the next one; every number selects some difficulty |
| MidReader.SelectGHLNoteDifficultyMonotone | ChartParser/ChartParser/src/IO/MidReader.cs:455-465 | a higher note number never selects an easier GH Live difficulty |
| MidReader.ForcingNumbers | ChartParser/ChartParser/src/IO/MidReader.cs:236-253 | the eight forcing numbers are exactly the sixth and seventh numbers of each five-fret band, and exactly the eighth and ninth of each GH Live band, and on them the five-fret selection used by the forcing pass agrees with the GH Live one |
| MidReader.ForcingParity | ChartParser/ChartParser/src/IO/MidReader.cs:431-436 | in each band the first forcing number is odd, so it forces HOPO, and the second is even, so it forces strum |
| MidReader.StandardLanesMatchChartCodes | ChartParser/ChartParser/src/IO/MidReader.cs:487-510 | lanes 0-4 of every five-fret band give the frets that the .chart reader reads for note codes 0-4 |
| MidReader.DrumLanesMatchChartCodes | ChartParser/ChartParser/src/IO/MidReader.cs:513-537 | lanes 0-5 of every drum band give the drum frets that the .chart reader reads for note codes 0-5 |
| MidReader.GHLLanesMatchChartCodes | ChartParser/ChartParser/src/IO/MidReader.cs:540-566 | in every GH Live band, lane 1+k gives the fret of .chart code k, lane 0 that of code 7 (open) and lane 6 that of code 8 (third black) |
| MidReader.FretTablesAreOnto | ChartParser/ChartParser/src/IO/MidReader.cs:487-566 | for each recognised instrument the fret table yields exactly the valid frets of that instrument's game mode |
| MidReader.FretForIsValid | ChartParser/ChartParser/src/IO/MidReader.cs:256-269 | a note read from a recognised track always gets a valid fret of its instrument's game mode |
| MidReader.ActionOf | ChartParser/ChartParser/src/IO/MidReader.cs:173-278 | one turn of the load loop adds objects only to the four difficulty charts of the track |
| MidReader.Actions | ChartParser/ChartParser/src/IO/MidReader.cs:173-278 | the loop treats each event of the track in order, and only the first event as the track's name |
| MidReader.Perform | ChartParser/ChartParser/src/IO/MidReader.cs:173-278 | one turn of the load loop neither adds nor drops a chart |
| MidReader.Performed | ChartParser/ChartParser/src/IO/MidReader.cs:173-278 | the load loop neither adds nor drops a chart |
| MidReader.LoadNotes | ChartParser/ChartParser/src/IO/MidReader.cs:173-278 | the load loop's charts and buffers are those of carrying out each event's action in track order |
| MidReader.AddKeepsHolds | ChartParser/ChartParser/src/IO/MidReader.cs:192 | a chart holds the object just added to it, and still holds everything it held before, up to objects with the same key |
| MidReader.PerformedHoldsAdded | ChartParser/ChartParser/src/IO/MidReader.cs:173-278 | every object the loop adds is still held at the end by each chart it was added to |
| MidReader.PerformedBuffers | ChartParser/ChartParser/src/IO/MidReader.cs:249-276 | the forcing and sysex buffers hold exactly the events the loop chose to buffer |
| MidReader.ForcingActions | ChartParser/ChartParser/src/IO/MidReader.cs:236-253 | only the forcing numbers are buffered, never on drum or unrecognised tracks, each buffered note has a difficulty, and it is the note-on it came from |
| MidReader.LoadedForcing | ChartParser/ChartParser/src/IO/MidReader.cs:173-278 | after the loop every buffered forcing note has a forcing number and a difficulty, and drum and unrecognised tracks buffer none |
| MidReader.AddedIsWellLoaded | ChartParser/ChartParser/src/IO/MidReader.cs:197-269 | every note the loop adds carries no flags; on an unrecognised track its raw value is the MIDI number, otherwise a valid fret of the game mode and a sustain that is 0 or above the cutoff |
| MidReader.PerformedKeeps | ChartParser/ChartParser/src/IO/MidReader.cs:173-278 | a property of every starting object and every added object holds of every object after the loop, and sorted charts stay sorted |
| MidReader.LoadedIsWellFormed | ChartParser/ChartParser/src/IO/MidReader.cs:173-278 | after the load loop every note of the charts is well formed as above, and sorted charts stay sorted |
| MidReader.LoadedHoldsTrack | ChartParser/ChartParser/src/IO/MidReader.cs:173-278 | every chart event, note and star power of the track is held after loading by the charts it belongs to: text events by the unrecognised or Expert chart, a note by its difficulty's chart, star power by all four |
| MidReader.OpenFret | ChartParser/ChartParser/src/IO/MidReader.cs:392-396 | an open-note section gives the open fret, or the orange drum fret on drum tracks |
| MidReader.EditNote | ChartParser/ChartParser/src/IO/MidReader.cs:343-436 | editing one note keeps the number of notes |
| MidReader.EditRun | ChartParser/ChartParser/src/IO/MidReader.cs:339-344 | editing a run of notes keeps the number of notes |
| MidReader.EditWindow | ChartParser/ChartParser/src/IO/MidReader.cs:341 | editing the notes of a tick window keeps the number of notes |
| MidReader.EditAt | ChartParser/ChartParser/src/IO/MidReader.cs:343-436 | the in-place edit of one array slot gives the specified single-note edit |
| MidReader.EditRunStep | ChartParser/ChartParser/src/IO/MidReader.cs:339-344 | a run of k+1 edits is the run of k edits followed by the edit of the next note |
| MidReader.EditNotes | ChartParser/ChartParser/src/IO/MidReader.cs:339-344 | the loop over the indices `GetRange` returns leaves the array as the specified run of edits |
| MidReader.EditWindowOf | ChartParser/ChartParser/src/IO/MidReader.cs:338-344 | editing the notes of a tick window gives the specified window edit |
| MidReader.WindowIsTickClosed | ChartParser/ChartParser/src/IO/MidReader.cs:341 | in a sorted note list, `GetRange` covers exactly the notes whose tick lies in the window, and a chord is never split by its edges |
| MidReader.SamePlacementSorted | ChartParser/ChartParser/src/IO/MidReader.cs:341 | a note list with the same ticks and frets as a sorted list is sorted |
| MidReader.ChordStep | ChartParser/ChartParser/src/IO/MidReader.cs:343 | setting the type of a note in a window rewrites the flags of its whole chord, which lies inside the window, and leaves every other note alone |
| MidReader.TypeOfKept | ChartParser/ChartParser/src/IO/MidReader.cs:343 | a note that is not rewritten keeps its type when no note moves |
| MidReader.TapChordStep | ChartParser/ChartParser/src/IO/MidReader.cs:338-344 | one turn of the tap loop keeps the tap-section invariant and extends it by one note |
| MidReader.TapStep | ChartParser/ChartParser/src/IO/MidReader.cs:338-344 | the tap-section invariant holds after one more edit |
| MidReader.TapRun | ChartParser/ChartParser/src/IO/MidReader.cs:338-344 | after any number of turns of the tap loop every note so far is tapped and the rest of the list is unchanged |
| MidReader.TapSection | ChartParser/ChartParser/src/IO/MidReader.cs:311-345 | a tap section makes every note in its window a tap, or leaves it without flags when its chord holds an open note, and changes nothing outside the window |
| MidReader.TapSectionWithoutOpenNotes | ChartParser/ChartParser/src/IO/MidReader.cs:311-345 | without open notes in the window, every note in it ends up of type Tap |
| MidReader.OpenRun | ChartParser/ChartParser/src/IO/MidReader.cs:390-396 | the open-note loop turns each note of its run into an open note and keeps every other note |
| MidReader.OpenSection | ChartParser/ChartParser/src/IO/MidReader.cs:349-397 | an open-note section turns every note whose tick lies in the window into an open note (the orange drum on drum tracks), keeps its tick, sustain and flags, and changes nothing else |
| MidReader.OpenSectionOnGHLIsWhite3 | ChartParser/ChartParser/src/IO/MidReader.cs:392-396 | on a GH Live chart an open-note section sets raw value 5, which is the third white fret there, not the GH Live open note |
| MidReader.ForceRunOnTaps | ChartParser/ChartParser/src/IO/MidReader.cs:428-429 | a forcing note leaves tapped notes alone |
| MidReader.ForcedFlagsAreNotTaps | ChartParser/ChartParser/src/IO/MidReader.cs:433-436 | forcing a note to strum or HOPO never sets the tap flag |
| MidReader.ForcedToKept | ChartParser/ChartParser/src/IO/MidReader.cs:427-437 | a note that a later forcing step does not touch keeps the type the forcing note gave it |
| MidReader.ForcedToChord | ChartParser/ChartParser/src/IO/MidReader.cs:433-436 | forcing one note of a chord gives the type to every note of that chord |
| MidReader.ForceChordStep | ChartParser/ChartParser/src/IO/MidReader.cs:427-437 | one turn of the forcing loop keeps the forcing invariant and extends it by one note |
| MidReader.ForceStep | ChartParser/ChartParser/src/IO/MidReader.cs:427-437 | the forcing invariant holds after one more edit |
| MidReader.ForceRun | ChartParser/ChartParser/src/IO/MidReader.cs:427-437 | after any number of turns over a window without taps, every note so far has the forced type and nothing outside the window changes |
| MidReader.ForceSectionOnTaps | ChartParser/ChartParser/src/IO/MidReader.cs:425-437 | a forcing note whose window holds only taps changes nothing |
| MidReader.ForceSection | ChartParser/ChartParser/src/IO/MidReader.cs:401-437 | over a window without taps, a forcing note makes every note in the window strum (or HOPO, unless the note cannot be a HOPO and is left without flags) and changes nothing outside it |
| MidReader.FirstEnd | ChartParser/ChartParser/src/IO/MidReader.cs:318-377 | the search finds the first later event that ends the section (eight bytes, the same byte 5, byte 7 zero), and no event before it ends the section |
| MidReader.SectionWindow | ChartParser/ChartParser/src/IO/MidReader.cs:316-333 | a section covers the ticks from its start up to the tick before its end, or only its start tick when it ends on that tick or never ends |
| MidReader.FindSectionEnd | ChartParser/ChartParser/src/IO/MidReader.cs:318-333 | the search loop computes the section's end offset |
| MidReader.GroupSlot | ChartParser/ChartParser/src/IO/MidReader.cs:290-303 | the chart a difficulty selects is one of the group that the passes edit |
| MidReader.Run | ChartParser/ChartParser/src/IO/MidReader.cs:305-437 | carrying out a command keeps the number of charts |
| MidReader.SysexCommand | ChartParser/ChartParser/src/IO/MidReader.cs:311-397 | the command a sysex event gives only ever names a chart of the group |
| MidReader.SysexPass | ChartParser/ChartParser/src/IO/MidReader.cs:305-398 | the sysex pass keeps the shape of the group |
| MidReader.ForceCommand | ChartParser/ChartParser/src/IO/MidReader.cs:401-437 | the command a forcing note gives only ever names a chart of the group |
| MidReader.ForcingLanes | ChartParser/ChartParser/src/IO/MidReader.cs:406-437 | the sixth number of difficulty d's band forces HOPO and the seventh forces strum, both on d's chart only |
| MidReader.ForcePass | ChartParser/ChartParser/src/IO/MidReader.cs:401-437 | the forcing pass keeps the shape of the group |
| MidReader.SysexCommandOf | ChartParser/ChartParser/src/IO/MidReader.cs:311-397 | the branch on a sysex event's bytes gives the specified command |
| MidReader.RunCommand | ChartParser/ChartParser/src/IO/MidReader.cs:338-437 | carrying out a command on the charts' notes gives the specified result |
| MidReader.ApplySysexEvents | ChartParser/ChartParser/src/IO/MidReader.cs:305-398 | the loop over the buffered sysex events gives the specified sysex pass |
| MidReader.ApplyForcing | ChartParser/ChartParser/src/IO/MidReader.cs:401-437 | the loop over the buffered forcing notes gives the specified forcing pass |
| MidReader.EditNoteKeepsTimes | ChartParser/ChartParser/src/IO/MidReader.cs:343-436 | no edit moves a note or changes its sustain |
| MidReader.SameTimesTrans | ChartParser/ChartParser/src/IO/MidReader.cs:305-437 | keeping ticks and sustains composes |
| MidReader.EditRunKeepsTimes | ChartParser/ChartParser/src/IO/MidReader.cs:339-344 | a run of edits keeps every note's tick and sustain |
| MidReader.RunKeepsTimes | ChartParser/ChartParser/src/IO/MidReader.cs:305-437 | a command keeps every tick and sustain of every chart |
| MidReader.AllSameTimesTrans | ChartParser/ChartParser/src/IO/MidReader.cs:305-437 | keeping ticks and sustains of every chart composes |
| MidReader.SysexPassKeepsTimes | ChartParser/ChartParser/src/IO/MidReader.cs:305-398 | the sysex pass keeps every note's tick and sustain |
| MidReader.ForcePassKeepsTimes | ChartParser/ChartParser/src/IO/MidReader.cs:401-437 | the forcing pass keeps every note's tick and sustain |
| MidReader.EditedNotes | ChartParser/ChartParser/src/IO/MidReader.cs:280-437 | the two passes after loading keep every loaded note's tick and sustain |
| MidReader.ReadGroup | ChartParser/ChartParser/src/IO/MidReader.cs:161-439 | reading a track into its group of charts gives the specified charts |
| MidReader.GroupBase | ChartParser/ChartParser/src/IO/MidReader.cs:299-303 | an instrument's four charts sit in consecutive slots of the chart grid, indexed by difficulty |
| MidReader.ReadNotes | ChartParser/ChartParser/src/IO/MidReader.cs:161-439 | reading a part track gives the content `NotesContent` specifies: it rewrites exactly its instrument's four charts, or appends one unrecognised chart, and leaves the sync track, the events and every other chart unchanged |
| MidReader.ReadUnrecognisedTrack | ChartParser/ChartParser/src/IO/MidReader.cs:165-168 | a track of no known part name appends one chart, read from the track, to the unrecognised charts and changes nothing else |
| MidReader.ReadInstrumentTrack | ChartParser/ChartParser/src/IO/MidReader.cs:295-303 | a part track's four charts are read and written back into their own slots of the grid, and no other slot changes |
| MidReader.NotesContent | ChartParser/ChartParser/src/IO/MidReader.cs:161-439 | reading a part track keeps the grid at 32 charts and leaves the event list alone |
| MidReader.PlaceGroup | ChartParser/ChartParser/src/IO/MidReader.cs:299-303 | the grid with a group written back holds the group in its slots and the old chart in every other slot |
| MidReader.PlacedGroup | ChartParser/ChartParser/src/IO/MidReader.cs:299-303 | a grid that agrees slot by slot with the written-back group is that grid |
| MidReader.PutGroup | ChartParser/ChartParser/src/IO/MidReader.cs:299-303 | the edited charts are written back into their slots and every other slot is unchanged |
| MidReader.PerformedKeepsModes | ChartParser/ChartParser/src/IO/MidReader.cs:173-278 | the load loop never changes a chart's game mode, nor its name unless the track names the unrecognised chart |
| MidReader.SysexEventsOf | ChartParser/ChartParser/src/IO/MidReader.cs:271-277 | the buffered sysex events come from the track |
| MidReader.SysexAction | ChartParser/ChartParser/src/IO/MidReader.cs:271-277 | an event is buffered as sysex exactly when it is a sysex event, with its tick and bytes |
| MidReader.LoadedSysex | ChartParser/ChartParser/src/IO/MidReader.cs:173-278 | the sysex buffer after the loop is the track's sysex events in order |
| MidReader.ReadNotesKeeps | ChartParser/ChartParser/src/IO/MidReader.cs:161-439 | reading a track never renames a recognised chart or changes a game mode, keeps every non-note object where loading put it, and keeps every loaded note's tick and sustain |
| MidReader.ReadNotesSortedNotes | ChartParser/ChartParser/src/IO/MidReader.cs:161-439 | the notes of a chart that started sorted come out in tick order |
| MidReader.ReadNotesWithoutSections | ChartParser/ChartParser/src/IO/MidReader.cs:161-439 | with no sysex events and no forcing notes, the charts are exactly the loaded ones |
| MidReader.ReadNotesPlainTrack | ChartParser/ChartParser/src/IO/MidReader.cs:161-439 | on a drum or unrecognised track without sysex events, the charts are exactly the loaded ones |
| MidReader.NoSysexEvents | ChartParser/ChartParser/src/IO/MidReader.cs:271-277 | a track without sysex events buffers none |
| MidReader.GlobalEventOf | ChartParser/ChartParser/src/IO/MidReader.cs:145-155 | a text event gives a section, a prc section or an event at its tick; it fails exactly where `Substring` throws: a `[section ` text shorter than 10 characters or a `[prc_` text shorter than 6 |
| MidReader.SectionText | ChartParser/ChartParser/src/IO/MidReader.cs:149-150 | the text `[section T]` reads as a section titled T |
| MidReader.OnlyLeadingBracket | ChartParser/ChartParser/src/IO/MidReader.cs:149-152 | in a text whose only '[' is its first character, a bracketed marker can only occur at the start |
| MidReader.PrcText | ChartParser/ChartParser/src/IO/MidReader.cs:151-152 | the text `[prc_T]` reads as a section titled T when T has no '[' |
| MidReader.NoMarkers | ChartParser/ChartParser/src/IO/MidReader.cs:149-153 | a bracketed title without '[' that starts with neither `section ` nor `prc_` contains neither marker |
| MidReader.TrimBrackets | ChartParser/ChartParser/src/IO/MidReader.cs:154 | trimming brackets from `[T]` gives T when T has no bracket |
| MidReader.EventText | ChartParser/ChartParser/src/IO/MidReader.cs:153-154 | the text `[T]` reads as an event titled T when T has no bracket and starts with neither marker |
| MidReader.BareSectionMarker | ChartParser/ChartParser/src/IO/MidReader.cs:149-150 | the bare text `[section ` is too short and fails the read |
| MidReader.InsertAll | ChartParser/ChartParser/src/IO/MidReader.cs:150-154 | inserting the events keeps the list sorted, the last one inserted is in it, and nothing else enters it |
| MidReader.GlobalEventsStep | ChartParser/ChartParser/src/IO/MidReader.cs:143-156 | one more turn of the loop adds the event of a text event, fails on a text that throws, and passes over any other event |
| MidReader.InsertAllStep | ChartParser/ChartParser/src/IO/MidReader.cs:150-154 | inserting one more event is one more sorted insert |
| MidReader.ReadSongGlobalEvents | ChartParser/ChartParser/src/IO/MidReader.cs:141-159 | reading the events track succeeds exactly when no text event throws, and then inserts the track's sections and events in order and refreshes the cache, leaving the sync track and charts unchanged |
| MidReader.NoRecovery | ChartParser/ChartParser/src/IO/MidReader.cs:143-156 | once a text event has thrown, the read fails |
| MidReader.LowerCharIdempotent | ChartParser/ChartParser/src/IO/MidReader.cs:52 | lower-casing a character twice is lower-casing it once |
| MidReader.TrackRoleIgnoresCase | ChartParser/ChartParser/src/IO/MidReader.cs:52-86 | track names are matched without regard to case |
| MidReader.PartNamesDispatch | ChartParser/ChartParser/src/IO/MidReader.cs:52-86 | each recognised instrument but guitar co-op is read from the track of its part name, and no name reads as guitar co-op |
| MidReader.TrackRoleOf | ChartParser/ChartParser/src/IO/MidReader.cs:52-86 | a track is the events track exactly when its lower-cased name is `events`, is skipped exactly when that name is `t1 gems` or `beat`, and is read as a recognised part only under that part's name |
| MidReader.TrackContent | ChartParser/ChartParser/src/IO/MidReader.cs:46-87 | one track of the loop is read without throwing exactly when it is readable, and keeps the grid at 32 charts |
| MidReader.TracksContent | ChartParser/ChartParser/src/IO/MidReader.cs:46-87 | a run of tracks is read without throwing exactly when every one of them is readable |
| MidReader.TracksContentStep | ChartParser/ChartParser/src/IO/MidReader.cs:46-87 | reading one more track continues from the content the earlier tracks left |
| MidReader.DispatchTrack | ChartParser/ChartParser/src/IO/MidReader.cs:48-86 | one turn of the loop succeeds exactly when the track is readable, and then changes the charts, unrecognised charts and events as `TrackContent` says: an events track inserts its events, a part track is read by `ReadNotes`, and a skipped name or a track without a name event changes nothing |
| MidReader.ReadTracks | ChartParser/ChartParser/src/IO/MidReader.cs:46-87 | the loop over the tracks after the tempo track succeeds exactly when every track is readable, and then leaves the charts, unrecognised charts and events that `TracksContent` gives for those tracks in turn, keeping the song's settings and sync track |

## Left out

- File and path I/O is not modelled.
  - The reader's existence and extension checks and its `StreamReader`.
  - `File.WriteAllText`.
  - The audio file paths (`AudioLoadFromChart`, `SetAudioLocation`, the `.ogg` guessing of
    `ReadMidi`).
  - The reader takes the file as its lines. The writer yields its lines, and the file text is
    those lines joined with `\r\n`.
- The reader's tokenizer is modelled as gathering the blocks and then submitting them in order.
  The source submits each block as its `}` is read. The two agree because any failure aborts
  the whole read.
- `[Song]` blocks (`SubmitDataSong`) are not modelled: the .NET regular expressions and float
  parsing of the song properties are left out. A `[Song]` block leaves the song's lists
  unchanged.
- Floating point is not modelled bit-exactly.
  - Rescaling is round-half-to-even of `position × target / resolution` on exact rationals.
    The source computes `ResolutionScaleRatio` as a single-precision `float`
    (Song.cs:577-580), multiplies the tick by it in `float`, and rounds that.
  - ChartWriter.ScaleIdentity: holds in the source only for ticks a `float` holds exactly. A
    `float` has a 24-bit significand, so a tick above 2^24 can be rounded to a neighbour even
    at the song's own resolution (16777217 becomes 16777216).
  - ChartWriter.TickAtOwnResolution: the same 2^24 limit applies to the written tick and to
    the written sustain and starpower length.
  - A ratio such as 192/480 is not exact in `float`, so at other resolutions a tick close to a
    half can round the other way in the source.
  - Anchors are kept as the integer microseconds the writer prints.
  - The offset, length and preview values are opaque reals, and the writer formats them through
    a function passed in.
  - Tick↔time conversion and `assignedTime` are left out.
- Resolutions are taken to be positive. The source divides by the resolution without a check.
- ChartReader.Pow2Cast: `(uint)Math.Pow(2, d)` is stated exact only for `d < 32`. A C# cast of
  an out-of-range `double` is unspecified, and the model gives 0 there.
- ChartWriter.CastUInt: the `(uint)` cast in the writer is applied to the rounded `double`
  of `Math.Round`. A C# cast of a `double` outside the `uint` range is unspecified. The model
  takes such a value modulo 2^32; only values that fit are stated to be kept.
- Tempo.RegexMatch: .NET's `\d` matches every Unicode decimal digit (category Nd), such as
  the Arabic-Indic digits. The model matches the ASCII digits `0`-`9` only, so a line such as
  `١٢ = B ٣٤` matches in the source and not in the model.
- Songs.ExportOptions is taken to be a struct, a value. Its declaration is not part of this
  model, but `defaultExportOptions` (Song.cs:50-62) sets fields of `default(ExportOptions)`,
  which only a struct allows. So when `GetPropertiesStringWithoutAudio` (ChartWriter.cs:218-222)
  replaces a `targetResolution` of 0 or less by the song's resolution, it changes its own copy.
  The `Resolution` property is written with the replaced value, and the ticks of every other
  block are still scaled by the caller's value.
- ChartWriter.Log2: the denominator 0 is written as exponent 0. The source's `Math.Log` gives
  negative infinity there, and then an unspecified cast.
- Exceptions thrown while writing an object or the `[Song]` block are parameters of the writer:
  a function from each object to its optional error message.
  - The model does not say which objects throw.
  - It follows what the code does once one has. A failing object is reported, and the
    `<tab><tick>` prefix already appended stays in the text with no line ending, so it runs
    into the next object's line. A failing `[Song]` block empties the buffer.
- The bodies of `SongObjectHelper`, `Chart`, `TimeSignature`, `Section`, `Event`,
  `ChartEvent`, `Starpower` and `Globals` are not part of this model.
  - `SongObjects` gives them definitions with the behaviour their callers rely on: a sorted
    insert that replaces an equal object, a binary-search window, and so on. These
    definitions are assumptions.
  - `Globals.TABSPACE` and `LINE_ENDING` are taken as two spaces and `\r\n`.
  - `SongObject.ID`'s order of object kinds is taken as time signature, tempo, event, section,
    note, star power, chart event.
- `Text.Trim` and `Text.ToLower` are ASCII only. `Trim` drops space, tab, line feed, carriage
  return, vertical tab and form feed, and `ToLower` maps `A`-`Z` alone. .NET's `Trim()` drops
  every Unicode white-space character, and its `ToLower()` is culture-aware Unicode case
  mapping. So a track named `PART KEYS` with the Kelvin sign U+212A in place of `K` is
  the keys part in the source and an unrecognised part in the model. This applies where these calls are
  made: MidReader.cs:52, ChartReader.cs:76, ChartReader.cs:300, ChartReader.cs:417 and
  ChartReader.cs:536.
- Number parsing accepts plain ASCII decimal digits. .NET's culture-dependent `TryParse`
  options, such as leading signs and white space, are not modelled.
- MIDI file parsing (NAudio `MidiFile` and its event classes) is a foreign library. A track is
  given as a list of typed events.
- Parts of `ReadMidi` are left out: its audio paths, its resolution from the file header, and
  `ReadSync`, whose tempos are float arithmetic on the MIDI tempo. Only its loop over the
  tracks is modelled, in `MidReader.ReadTracks`.
- `ReadTrack` (a debug dump), `Console` output, and the threading of `SaveAsync` are left out.
- Songs.SongLink: tempo, time signature and event objects are values in the model. Their
  `song` field is a separate `SongLink` object that the add and remove methods are given
  beside the value. The model does not tie a link to one value.
- MidReader.ReadNotes: the source adds an unrecognised chart to the song's list first and fills
  it through the shared reference. The model fills a fresh chart and appends it at the end.
  The result is the same list.
- MidReader.ReadNotes: notes are edited as sequences copied out of the charts and written back.
  The source edits them in place in each chart's note array; no other reference to those notes
  is modelled.
- MidReader.UNRECOGNISED_CHART: the name of a fresh chart comes from the `Chart` constructor,
  which is not part of this model. It is taken to be empty.
- MidReader.ForceSection: a forcing window that holds both taps and other notes is not
  characterised. The lemmas cover a window without taps (every note forced) and a window of
  taps only (nothing changes).
- MidReader.OpenSection: turning a chord into open notes leaves several equal open notes at
  one tick, as the source does. The model does not re-sort or merge them.
- MidReader.ReadTracks: a track with no events is a failure, where the source's `[0]` index
  throws.
- RoundTrip.FlagLineWords: the writer writes `N 5`/`N 6` flag lines for drum charts too, and
  the drum reader reads code 5 as a green drum note. The lemmas on drum flag lines state this
  rather than a round trip.
- ChartFile.WriteReadsBack: the round trip is proved to the tokenizer for every file, and
  beyond it only in the cases below. `ChartRoundTrip.ChartReadsBack` and
  `GlobalsRoundTrip.FirstBlocksReadBack` are the lemmas for those cases. Not covered:
  - charts written at another resolution, with a tick offset, or with the flag lines off;
  - drum charts, whose FORCED line reads back as a green note, and unrecognised charts;
  - chart events whose name is empty, has a space or ends in white space, global events whose
    title has a space, events and sections whose title has a quote, and lists with two equal
    neighbouring objects;
  - time signatures whose denominator is not a power of two below 2^32, and anchors of 2^32
    microseconds or more;
  - a sync track read over anything but a new song's defaults, and events read into a
    non-empty list;
  - the anchor's own round trip in the source. The reader keeps `(float)(micros / 1000000.0)`
    seconds, so a large anchor comes back rounded; the model keeps integer microseconds;
  - a TAP flag on a chord whose last note is open, which is lost. `ChartReadsBack` states this
    loss rather than a round trip;
  - the whole file in one lemma. The chart blocks are proved one at a time into an empty chart,
    and the first three blocks together into a new song.
- `ChartObject.Delete` only delegates to `SongObject.Delete` and `Chart.Remove`, which are not
  part of this model.
- Debugging and timing `#if` blocks and commented-out code are not modelled.
