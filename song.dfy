/** `Song.cs`: the song aggregate the reader fills and the writer saves — its sync track and
    event list (kept sorted), the caches rebuilt from them, the 8×4 grid of charts and the
    manual-length switch. */
module Songs {
  import opened Wrappers
  import opened Text
  import Notes
  import opened Tempo
  import opened SongObjects

  // ---------------------------------------------------------------- enums

  /** `Song.Difficulty`, listed in enum order: Expert = 0 … Easy = 3. */
  datatype Difficulty = Expert | Hard | Medium | Easy

  const DIFFICULTY_COUNT: nat := 4
  const DIFFICULTIES: seq<Difficulty> := [Expert, Hard, Medium, Easy]

  function DifficultyValue(d: Difficulty): (v: nat)
    ensures v < DIFFICULTY_COUNT && DIFFICULTIES[v] == d
  {
    match d
    case Expert => 0
    case Hard => 1
    case Medium => 2
    case Easy => 3
  }

  /** `difficulty.ToString()`. */
  function DifficultyName(d: Difficulty): string
  {
    match d
    case Expert => "Expert"
    case Hard => "Hard"
    case Medium => "Medium"
    case Easy => "Easy"
  }

  /** `Song.Instrument`: Guitar = 0 … GHLiveBass = 7, Unrecognised = 99. */
  datatype Instrument = Guitar | GuitarCoop | Bass | Rhythm | Keys | Drums | GHLiveGuitar | GHLiveBass | Unrecognised

  /** The instruments that own charts in the grid (all but Unrecognised). */
  const INSTRUMENT_COUNT: nat := 8
  const INSTRUMENTS: seq<Instrument> :=
    [Guitar, GuitarCoop, Bass, Rhythm, Keys, Drums, GHLiveGuitar, GHLiveBass, Unrecognised]

  function InstrumentValue(i: Instrument): (v: nat)
    ensures i != Unrecognised <==> v < INSTRUMENT_COUNT
    ensures v < INSTRUMENT_COUNT ==> INSTRUMENTS[v] == i
  {
    match i
    case Guitar => 0
    case GuitarCoop => 1
    case Bass => 2
    case Rhythm => 3
    case Keys => 4
    case Drums => 5
    case GHLiveGuitar => 6
    case GHLiveBass => 7
    case Unrecognised => 99
  }

  /** `InstumentToChartGameMode`. */
  function InstrumentToChartGameMode(i: Instrument): Notes.GameMode
  {
    match i
    case Guitar => Notes.GameMode.Guitar
    case GuitarCoop => Notes.GameMode.Guitar
    case Bass => Notes.GameMode.Guitar
    case Rhythm => Notes.GameMode.Guitar
    case Keys => Notes.GameMode.Guitar
    case Drums => Notes.GameMode.Drums
    case GHLiveGuitar => Notes.GameMode.GHLGuitar
    case GHLiveBass => Notes.GameMode.GHLGuitar
    case Unrecognised => Notes.GameMode.Unrecognised
  }

  /** The five-fret instruments play in Guitar mode, drums in Drums mode, the two GH Live
      instruments in GHLGuitar mode, and nothing else in a recognised mode. */
  lemma GameModeClasses(i: Instrument)
    ensures InstrumentToChartGameMode(i) == Notes.GameMode.Guitar <==> i in {Guitar, GuitarCoop, Bass, Rhythm, Keys}
    ensures InstrumentToChartGameMode(i) == Notes.GameMode.Drums <==> i == Drums
    ensures InstrumentToChartGameMode(i) == Notes.GameMode.GHLGuitar <==> i in {GHLiveGuitar, GHLiveBass}
    ensures InstrumentToChartGameMode(i) == Notes.GameMode.Unrecognised <==> i == Unrecognised
  {
  }

  /** The prefix the constructor gives the charts of an instrument. */
  function InstrumentName(i: Instrument): string
    requires i != Unrecognised
  {
    match i
    case Guitar => "Guitar - "
    case GuitarCoop => "Guitar - Co-op - "
    case Bass => "Bass - "
    case Rhythm => "Rhythm - "
    case Keys => "Keys - "
    case Drums => "Drums - "
    case GHLiveGuitar => "GHLive Guitar - "
    case GHLiveBass => "GHLive Bass - "
  }

  // ---------------------------------------------------------------- chart grid

  const CHART_COUNT: nat := INSTRUMENT_COUNT * DIFFICULTY_COUNT

  /** The slot `GetChart` reads: `instrument * 4 + difficulty`, or slot 0 when that index is
      outside the array (the caught `IndexOutOfRangeException`). */
  function ChartIndex(instrument: Instrument, difficulty: Difficulty): (k: nat)
    ensures k < CHART_COUNT
  {
    var k := InstrumentValue(instrument) * DIFFICULTY_COUNT + DifficultyValue(difficulty);
    if k < CHART_COUNT then k else 0
  }

  /** The grid is a bijection between the 8 × 4 recognised pairs and the 32 slots, and an
      unrecognised instrument falls back to slot 0. */
  lemma ChartIndexGrid(instrument: Instrument, difficulty: Difficulty)
    ensures instrument != Unrecognised ==>
      ChartIndex(instrument, difficulty) / DIFFICULTY_COUNT == InstrumentValue(instrument)
      && ChartIndex(instrument, difficulty) % DIFFICULTY_COUNT == DifficultyValue(difficulty)
    ensures instrument == Unrecognised ==> ChartIndex(instrument, difficulty) == 0
  {
  }

  lemma ChartIndexOnto(k: nat)
    requires k < CHART_COUNT
    ensures ChartIndex(INSTRUMENTS[k / DIFFICULTY_COUNT], DIFFICULTIES[k % DIFFICULTY_COUNT]) == k
  {
  }

  /** The name the constructor gives the chart in slot `k`: "<instrument> - <difficulty>". */
  function SlotName(k: nat): string
    requires k < CHART_COUNT
  {
    InstrumentName(INSTRUMENTS[k / DIFFICULTY_COUNT]) + DifficultyName(DIFFICULTIES[k % DIFFICULTY_COUNT])
  }

  function SlotGameMode(k: nat): Notes.GameMode
    requires k < CHART_COUNT
  {
    InstrumentToChartGameMode(INSTRUMENTS[k / DIFFICULTY_COUNT])
  }

  // ---------------------------------------------------------------- caches

  /** The `BPM`s of a sync track, in order (`OfType<BPM>`). */
  function BpmsOf(sync: seq<SyncObject>): (r: seq<Bpm>)
    ensures forall b :: b in r <==> BpmObject(b) in sync
    decreases |sync|
  {
    if |sync| == 0 then []
    else
      assert forall o :: o in sync <==> o == sync[0] || o in sync[1..];
      match sync[0]
      case BpmObject(b) => [b] + BpmsOf(sync[1..])
      case _ => BpmsOf(sync[1..])
  }

  /** The `TimeSignature`s of a sync track, in order. */
  function TimeSignaturesOf(sync: seq<SyncObject>): (r: seq<TimeSignature>)
    ensures forall t :: t in r <==> TimeSignatureObject(t) in sync
    decreases |sync|
  {
    if |sync| == 0 then []
    else
      assert forall o :: o in sync <==> o == sync[0] || o in sync[1..];
      match sync[0]
      case TimeSignatureObject(t) => [t] + TimeSignaturesOf(sync[1..])
      case _ => TimeSignaturesOf(sync[1..])
  }

  /** The `Section`s of an event list, in order. */
  function SectionsOf(events: seq<GlobalEvent>): (r: seq<GlobalEvent>)
    ensures forall e :: e in r <==> e in events && e.Section?
    decreases |events|
  {
    if |events| == 0 then []
    else
      assert forall e :: e in events <==> e == events[0] || e in events[1..];
      if events[0].Section? then [events[0]] + SectionsOf(events[1..]) else SectionsOf(events[1..])
  }

  /** The filters keep order: filtering a concatenation concatenates the filtered parts. */
  lemma {:induction false} BpmsKeepOrder(a: seq<SyncObject>, b: seq<SyncObject>)
    ensures BpmsOf(a + b) == BpmsOf(a) + BpmsOf(b)
    decreases |a|
  {
    if |a| == 0 {
      assert a + b == b;
    } else {
      BpmsKeepOrder(a[1..], b);
      assert (a + b)[1..] == a[1..] + b;
    }
  }

  lemma {:induction false} TimeSignaturesKeepOrder(a: seq<SyncObject>, b: seq<SyncObject>)
    ensures TimeSignaturesOf(a + b) == TimeSignaturesOf(a) + TimeSignaturesOf(b)
    decreases |a|
  {
    if |a| == 0 {
      assert a + b == b;
    } else {
      TimeSignaturesKeepOrder(a[1..], b);
      assert (a + b)[1..] == a[1..] + b;
    }
  }

  lemma {:induction false} SectionsKeepOrder(a: seq<GlobalEvent>, b: seq<GlobalEvent>)
    ensures SectionsOf(a + b) == SectionsOf(a) + SectionsOf(b)
    decreases |a|
  {
    if |a| == 0 {
      assert a + b == b;
    } else {
      SectionsKeepOrder(a[1..], b);
      assert (a + b)[1..] == a[1..] + b;
    }
  }

  /** The sync track holds a tempo and a time signature at tick 0. */
  ghost predicate HasZeroSync(sync: seq<SyncObject>)
  {
    (exists b :: BpmObject(b) in sync && b.position == 0)
    && (exists t :: TimeSignatureObject(t) in sync && t.position == 0)
  }

  // ---------------------------------------------------------------- export options

  datatype ExportFormat = ChartFile | MidiFile

  /** `ExportOptions`: write the flag lines, copy empty difficulties down, the file format, the
      resolution ticks are scaled to, and the ticks added to every object. */
  datatype ExportOptions = ExportOptions(
    forced: bool, copyDownEmptyDifficulty: bool, format: ExportFormat,
    targetResolution: int, tickOffset: uint32)

  /** `Metadata` (not part of this model's source): the `[Song]` text properties, the chart
      difficulty and the preview window in seconds. */
  datatype Metadata = Metadata(
    name: string, artist: string, charter: string, album: string, year: string,
    genre: string, mediatype: string, player2: string, difficulty: int,
    previewStart: real, previewEnd: real)

  const DEFAULT_METADATA: Metadata := Metadata("", "", "", "", "", "", "", "", 0, 0.0, 0.0)

  /** The length a song reports while `manualLength` is off: five minutes. */
  const DEFAULT_LENGTH: real := 300.0

  /** The `song` field a tempo, time signature or event object carries: the song that holds it,
      or null while it is in none. */
  class SongLink {
    var song: Song?

    /** A new object belongs to no song. */
    constructor()
      ensures song == null
    {
      song := null;
    }
  }

  class Song {
    var metaData: Metadata
    /** Ticks per beat (a float in C#, integral in every file). */
    var resolution: nat
    var offset: real
    var lengthValue: real
    var manualLength: bool

    var charts: array<Chart>
    var unrecognisedCharts: seq<Chart>

    /** `_syncTrack` and `_events`: the sorted object lists. */
    var syncTrack: seq<SyncObject>
    var events: seq<GlobalEvent>

    /** The read-only caches `UpdateCache` rebuilds. */
    var eventsCache: seq<GlobalEvent>
    var sections: seq<GlobalEvent>
    var bpms: seq<Bpm>
    var timeSignatures: seq<TimeSignature>

    /** The grid has its 32 slots, both lists are sorted, and tick 0 keeps its tempo and time
        signature. */
    ghost predicate Valid()
      reads this
    {
      charts.Length == CHART_COUNT
      && Sorted(syncTrack, SyncKey) && Sorted(events, EventKey)
      && HasZeroSync(syncTrack)
    }

    /** The caches agree with the lists. */
    predicate CacheFresh()
      reads this
    {
      eventsCache == events && sections == SectionsOf(events)
      && bpms == BpmsOf(syncTrack) && timeSignatures == TimeSignaturesOf(syncTrack)
    }

    /** The song's properties and its chart grid (the array, not its contents) are as they were. */
    twostate predicate KeepsSettings()
      reads this
    {
      charts == old(charts) && metaData == old(metaData)
      && resolution == old(resolution) && offset == old(offset)
      && lengthValue == old(lengthValue) && manualLength == old(manualLength)
    }

    /** `new Song()`: the default tempo and time signature, empty event list, and 32 empty
        charts named "<instrument> - <difficulty>". */
    constructor()
      ensures Valid() && CacheFresh()
      ensures syncTrack == [TimeSignatureObject(DEFAULT_TIME_SIGNATURE), BpmObject(NewBpm())]
      ensures bpms == [NewBpm()] && timeSignatures == [DEFAULT_TIME_SIGNATURE]
      ensures events == [] && sections == [] && unrecognisedCharts == []
      ensures fresh(charts)
      ensures forall k :: 0 <= k < CHART_COUNT ==> charts[k] == Chart(SlotName(k), SlotGameMode(k), [])
      ensures resolution == 192 && offset == 0.0 && !manualLength && Length() == DEFAULT_LENGTH
      ensures metaData == DEFAULT_METADATA
    {
      metaData := DEFAULT_METADATA;
      resolution := 192;
      offset := 0.0;
      lengthValue := DEFAULT_LENGTH;
      manualLength := false;
      unrecognisedCharts := [];
      events := [];
      syncTrack := [];
      eventsCache := [];
      sections := [];
      bpms := [];
      timeSignatures := [];
      charts := new Chart[0];
      new;
      AddDefaultSync();
      charts := NewNamedGrid();
      UpdateCache();
      DefaultSyncTrack();
    }

    /** `Add(new BPM()); Add(new TimeSignature());` on an empty sync track. */
    method AddDefaultSync()
      requires syncTrack == []
      modifies this
      ensures syncTrack == [TimeSignatureObject(DEFAULT_TIME_SIGNATURE), BpmObject(NewBpm())]
      ensures events == old(events) && charts == old(charts) && unrecognisedCharts == old(unrecognisedCharts)
      ensures resolution == old(resolution) && offset == old(offset) && metaData == old(metaData)
      ensures lengthValue == old(lengthValue) && manualLength == old(manualLength)
    {
      var bpmLink := new SongLink();
      AddSync(BpmObject(NewBpm()), bpmLink, true);
      var tsLink := new SongLink();
      AddSync(TimeSignatureObject(DEFAULT_TIME_SIGNATURE), tsLink, true);
      DefaultSyncTrack();
    }

    /** `GetChart(instrument, difficulty)`. */
    function GetChart(instrument: Instrument, difficulty: Difficulty): Chart
      requires charts.Length == CHART_COUNT
      reads this, charts
    {
      charts[ChartIndex(instrument, difficulty)]
    }

    /** `UpdateCache`: rebuilds the read-only arrays from the two lists. */
    method UpdateCache()
      modifies this
      ensures CacheFresh()
      ensures syncTrack == old(syncTrack) && events == old(events) && charts == old(charts)
      ensures unrecognisedCharts == old(unrecognisedCharts) && metaData == old(metaData)
      ensures resolution == old(resolution) && offset == old(offset)
      ensures lengthValue == old(lengthValue) && manualLength == old(manualLength)
    {
      eventsCache := events;
      sections := SectionsOf(events);
      bpms := BpmsOf(syncTrack);
      timeSignatures := TimeSignaturesOf(syncTrack);
    }

    /** `Add(SyncTrack, autoUpdate)`: the object, whose `song` field is `link`, now belongs to
        this song. */
    method AddSync(o: SyncObject, link: SongLink, autoUpdate: bool)
      modifies this, link
      ensures link.song == this
      ensures syncTrack == Insert(old(syncTrack), o, SyncKey, SameSync)
      ensures events == old(events) && charts == old(charts) && unrecognisedCharts == old(unrecognisedCharts)
      ensures resolution == old(resolution) && offset == old(offset) && metaData == old(metaData)
      ensures lengthValue == old(lengthValue) && manualLength == old(manualLength)
      ensures autoUpdate ==> CacheFresh()
      ensures old(Valid()) ==> Valid()
    {
      link.song := this;
      if HasZeroSync(syncTrack) {
        InsertKeepsZeroSync(syncTrack, o);
      }
      syncTrack := Insert(syncTrack, o, SyncKey, SameSync);
      if autoUpdate {
        UpdateCache();
      }
    }

    /** `Remove(SyncTrack, autoUpdate)`: objects at tick 0 are never removed; a removed object,
        whose `song` field is `link`, no longer belongs to any song. */
    method RemoveSync(o: SyncObject, link: SongLink, autoUpdate: bool) returns (success: bool)
      modifies this, link
      ensures link.song == if success then null else old(link.song)
      ensures o.Position() == 0 ==> !success && syncTrack == old(syncTrack)
      ensures o.Position() > 0 ==>
        (syncTrack, success) == Remove(old(syncTrack), o, SameSync)
      ensures events == old(events) && charts == old(charts) && unrecognisedCharts == old(unrecognisedCharts)
      ensures resolution == old(resolution) && offset == old(offset) && metaData == old(metaData)
      ensures lengthValue == old(lengthValue) && manualLength == old(manualLength)
      ensures autoUpdate ==> CacheFresh()
      ensures old(Valid()) ==> Valid()
    {
      success := false;
      if o.Position() > 0 {
        ghost var before := syncTrack;
        var r := Remove(syncTrack, o, SameSync);
        syncTrack, success := r.0, r.1;
        if Sorted(before, SyncKey) {
          RemoveKeepsSorted(before, o, SyncKey, SameSync);
        }
        if HasZeroSync(before) {
          RemoveKeepsZeroSync(before, o);
        }
      }
      if success {
        link.song := null;
      }
      if autoUpdate {
        UpdateCache();
      }
    }

    /** `Add(Event, autoUpdate)`: the event, whose `song` field is `link`, now belongs to this
        song. */
    method AddEvent(e: GlobalEvent, link: SongLink, autoUpdate: bool)
      modifies this, link
      ensures link.song == this
      ensures events == Insert(old(events), e, EventKey, SameEvent)
      ensures syncTrack == old(syncTrack) && charts == old(charts) && unrecognisedCharts == old(unrecognisedCharts)
      ensures resolution == old(resolution) && offset == old(offset) && metaData == old(metaData)
      ensures lengthValue == old(lengthValue) && manualLength == old(manualLength)
      ensures autoUpdate ==> CacheFresh()
      ensures old(Valid()) ==> Valid()
    {
      link.song := this;
      events := Insert(events, e, EventKey, SameEvent);
      if autoUpdate {
        UpdateCache();
      }
    }

    /** `Add(new SyncTrack(...), false)` as the readers call it: a new object joins the song. */
    method AddNewSync(o: SyncObject) returns (link: SongLink)
      modifies this
      ensures fresh(link) && link.song == this
      ensures syncTrack == Insert(old(syncTrack), o, SyncKey, SameSync)
      ensures events == old(events) && charts == old(charts) && unrecognisedCharts == old(unrecognisedCharts)
      ensures resolution == old(resolution) && offset == old(offset) && metaData == old(metaData)
      ensures lengthValue == old(lengthValue) && manualLength == old(manualLength)
      ensures old(Valid()) ==> Valid()
    {
      link := new SongLink();
      AddSync(o, link, false);
    }

    /** `Add(new Event(...), false)` as the readers call it: a new event joins the song. */
    method AddNewEvent(e: GlobalEvent) returns (link: SongLink)
      modifies this
      ensures fresh(link) && link.song == this
      ensures events == Insert(old(events), e, EventKey, SameEvent)
      ensures syncTrack == old(syncTrack) && charts == old(charts) && unrecognisedCharts == old(unrecognisedCharts)
      ensures resolution == old(resolution) && offset == old(offset) && metaData == old(metaData)
      ensures lengthValue == old(lengthValue) && manualLength == old(manualLength)
      ensures old(Valid()) ==> Valid()
    {
      link := new SongLink();
      AddEvent(e, link, false);
    }

    /** `Remove(Event, autoUpdate)`: no tick guard; a removed event, whose `song` field is
        `link`, no longer belongs to any song. */
    method RemoveEvent(e: GlobalEvent, link: SongLink, autoUpdate: bool) returns (success: bool)
      modifies this, link
      ensures link.song == if success then null else old(link.song)
      ensures (events, success) == Remove(old(events), e, SameEvent)
      ensures syncTrack == old(syncTrack) && charts == old(charts) && unrecognisedCharts == old(unrecognisedCharts)
      ensures resolution == old(resolution) && offset == old(offset) && metaData == old(metaData)
      ensures lengthValue == old(lengthValue) && manualLength == old(manualLength)
      ensures autoUpdate ==> CacheFresh()
      ensures old(Valid()) ==> Valid()
    {
      if Sorted(events, EventKey) {
        RemoveKeepsSorted(events, e, EventKey, SameEvent);
      }
      var r := Remove(events, e, SameEvent);
      events, success := r.0, r.1;
      if success {
        link.song := null;
      }
      if autoUpdate {
        UpdateCache();
      }
    }

    /** The `length` getter: the stored length only while `manualLength` is on. */
    function Length(): real
      reads this
    {
      if manualLength then lengthValue else DEFAULT_LENGTH
    }

    /** The `length` setter: ignored while `manualLength` is off. */
    method SetLength(value: real)
      modifies this
      ensures manualLength == old(manualLength)
      ensures Length() == if manualLength then value else DEFAULT_LENGTH
      ensures lengthValue == if manualLength then value else old(lengthValue)
    {
      if manualLength {
        lengthValue := value;
      }
    }

    /** The `manualLength` setter: switching it off resets the stored length to the default. */
    method SetManualLength(value: bool)
      modifies this
      ensures manualLength == value
      ensures lengthValue == if value then old(lengthValue) else DEFAULT_LENGTH
      ensures Length() == if value then old(lengthValue) else DEFAULT_LENGTH
    {
      manualLength := value;
      lengthValue := Length();
    }

    /** `defaultExportOptions`. */
    function DefaultExportOptions(): (o: ExportOptions)
      reads this
    {
      ExportOptions(true, false, ChartFile, resolution, 0)
    }
  }

  /** The default export options write the flag lines, do not copy difficulties down, keep the
      song's resolution and shift nothing. */
  lemma DefaultExportKeepsTicks(song: Song)
    ensures song.DefaultExportOptions().forced && !song.DefaultExportOptions().copyDownEmptyDifficulty
    ensures song.DefaultExportOptions().targetResolution == song.resolution
    ensures song.DefaultExportOptions().tickOffset == 0
    ensures song.DefaultExportOptions().format == ChartFile
  {
  }

  /** The two objects the constructor adds make the default sync track: the time signature
      sorts before the tempo at tick 0. */
  lemma DefaultSyncTrack()
    ensures var sync := [TimeSignatureObject(DEFAULT_TIME_SIGNATURE), BpmObject(NewBpm())];
      Insert(Insert([], BpmObject(NewBpm()), SyncKey, SameSync), TimeSignatureObject(DEFAULT_TIME_SIGNATURE), SyncKey, SameSync) == sync
      && Sorted(sync, SyncKey) && HasZeroSync(sync)
      && BpmsOf(sync) == [NewBpm()] && TimeSignaturesOf(sync) == [DEFAULT_TIME_SIGNATURE]
  {
    var t, b := TimeSignatureObject(DEFAULT_TIME_SIGNATURE), BpmObject(NewBpm());
    InsertIntoEmpty(b, SyncKey, SameSync);
    assert KeyLess(SyncKey(t), SyncKey(b));
    InsertAtFront([b], t, SyncKey, SameSync);
    DefaultSyncLists(t, b);
  }

  lemma DefaultSyncLists(t: SyncObject, b: SyncObject)
    requires t == TimeSignatureObject(DEFAULT_TIME_SIGNATURE) && b == BpmObject(NewBpm())
    ensures Sorted([t, b], SyncKey) && HasZeroSync([t, b])
    ensures BpmsOf([t, b]) == [NewBpm()] && TimeSignaturesOf([t, b]) == [DEFAULT_TIME_SIGNATURE]
  {
    var sync := [t, b];
    assert sync[1..] == [b] && [b][1..] == [];
    assert t in sync && b in sync;
    assert BpmsOf([b]) == [NewBpm()] + BpmsOf([]);
    assert BpmsOf(sync) == BpmsOf([b]);
    assert TimeSignaturesOf([b]) == TimeSignaturesOf([]);
    assert TimeSignaturesOf(sync) == [DEFAULT_TIME_SIGNATURE] + TimeSignaturesOf([b]);
  }

  /** The constructor's two chart loops: 32 empty charts named "<instrument> - <difficulty>". */
  method NewNamedGrid() returns (grid: array<Chart>)
    ensures fresh(grid) && grid.Length == CHART_COUNT
    ensures forall k :: 0 <= k < CHART_COUNT ==> grid[k] == Chart(SlotName(k), SlotGameMode(k), [])
  {
    grid := NewChartGrid();
    NameCharts(grid);
  }

  /** The constructor's first loop: one chart per slot, in the game mode of instrument
      `slot / 4`. */
  method NewChartGrid() returns (grid: array<Chart>)
    ensures fresh(grid) && grid.Length == CHART_COUNT
    ensures forall j :: 0 <= j < CHART_COUNT ==> grid[j] == Chart("", SlotGameMode(j), [])
  {
    grid := new Chart[CHART_COUNT];
    for k := 0 to CHART_COUNT
      invariant forall j :: 0 <= j < k ==> grid[j] == Chart("", SlotGameMode(j), [])
    {
      grid[k] := Chart("", InstrumentToChartGameMode(INSTRUMENTS[k / DIFFICULTY_COUNT]), []);
    }
  }

  /** The constructor's second loop: every instrument but Unrecognised names its four charts. */
  method NameCharts(charts: array<Chart>)
    requires charts.Length == CHART_COUNT
    requires forall j :: 0 <= j < CHART_COUNT ==> charts[j] == Chart("", SlotGameMode(j), [])
    modifies charts
    ensures forall j :: 0 <= j < CHART_COUNT ==> charts[j] == Chart(SlotName(j), SlotGameMode(j), [])
  {
    for n := 0 to |INSTRUMENTS|
      invariant forall j :: 0 <= j < CHART_COUNT ==> charts[j] == NamedBelow(j, n * 4)
    {
      if INSTRUMENTS[n] == Unrecognised {
        continue;
      }
      NameInstrumentCharts(charts, n);
    }
  }

  /** The inner loop of the constructor: instrument `n` names its chart of every difficulty. */
  method NameInstrumentCharts(charts: array<Chart>, n: nat)
    requires charts.Length == CHART_COUNT && n < INSTRUMENT_COUNT
    requires forall j :: 0 <= j < CHART_COUNT ==> charts[j] == NamedBelow(j, n * 4)
    modifies charts
    ensures forall j :: 0 <= j < CHART_COUNT ==> charts[j] == NamedBelow(j, n * 4 + 4)
  {
    var instrument := INSTRUMENTS[n];
    var prefix := InstrumentName(instrument);
    for m := 0 to |DIFFICULTIES|
      invariant forall j :: 0 <= j < CHART_COUNT ==> charts[j] == NamedBelow(j, n * 4 + m)
    {
      NameSlot(charts, n, m, prefix);
    }
  }

  /** One turn of the inner loop: the chart of difficulty `m` gets its name. */
  method NameSlot(charts: array<Chart>, n: nat, m: nat, prefix: string)
    requires charts.Length == CHART_COUNT && n < INSTRUMENT_COUNT && m < DIFFICULTY_COUNT
    requires prefix == InstrumentName(INSTRUMENTS[n])
    requires forall j :: 0 <= j < CHART_COUNT ==> charts[j] == NamedBelow(j, n * 4 + m)
    modifies charts
    ensures forall j :: 0 <= j < CHART_COUNT ==> charts[j] == NamedBelow(j, n * 4 + m + 1)
  {
    var k := ChartIndex(INSTRUMENTS[n], DIFFICULTIES[m]);
    SlotOf(n, m);
    ghost var before := charts[..];
    charts[k] := charts[k].(name := prefix + DifficultyName(DIFFICULTIES[m]));
    NameStep(before, charts[..], k);
  }

  /** Slot `j` while the slots below `bound` have been named. */
  function NamedBelow(j: nat, bound: nat): Chart
    requires j < CHART_COUNT
  {
    Chart(if j < bound then SlotName(j) else "", SlotGameMode(j), [])
  }

  /** Naming slot `b` extends the named prefix by one. */
  lemma NameStep(before: seq<Chart>, after: seq<Chart>, b: nat)
    requires |before| == CHART_COUNT && b < CHART_COUNT
    requires forall j :: 0 <= j < CHART_COUNT ==> before[j] == NamedBelow(j, b)
    requires after == before[b := before[b].(name := SlotName(b))]
    ensures forall j :: 0 <= j < CHART_COUNT ==> after[j] == NamedBelow(j, b + 1)
  {
    forall j | 0 <= j < CHART_COUNT
      ensures after[j] == NamedBelow(j, b + 1)
    {
      if j != b {
        assert after[j] == before[j];
      }
    }
  }

  lemma SlotOf(n: nat, m: nat)
    requires n < INSTRUMENT_COUNT && m < DIFFICULTY_COUNT
    ensures ChartIndex(INSTRUMENTS[n], DIFFICULTIES[m]) == n * 4 + m
    ensures SlotName(n * 4 + m) == InstrumentName(INSTRUMENTS[n]) + DifficultyName(DIFFICULTIES[m])
  {
    assert (n * 4 + m) / 4 == n && (n * 4 + m) % 4 == m;
  }

  /** Inserting keeps a tempo and a time signature at tick 0: an object at tick 0 is only ever
      overwritten by one of its own class at tick 0. */
  lemma InsertKeepsZeroSync(sync: seq<SyncObject>, o: SyncObject)
    requires HasZeroSync(sync)
    ensures HasZeroSync(Insert(sync, o, SyncKey, SameSync))
  {
    var r := Insert(sync, o, SyncKey, SameSync);
    var b :| BpmObject(b) in sync && b.position == 0;
    var t :| TimeSignatureObject(t) in sync && t.position == 0;
    if BpmObject(b) !in r {
      assert SameSync(BpmObject(b), o);
      assert o in r;
    }
    if TimeSignatureObject(t) !in r {
      assert SameSync(TimeSignatureObject(t), o);
      assert o in r;
    }
  }

  /** Removing an object that is not at tick 0 keeps every object at tick 0. */
  lemma RemoveKeepsZeroSync(sync: seq<SyncObject>, o: SyncObject)
    requires HasZeroSync(sync) && o.Position() > 0
    ensures HasZeroSync(Remove(sync, o, SameSync).0)
  {
    var (r, found) := Remove(sync, o, SameSync);
    if found {
      var k :| 0 <= k < |sync| && SameSync(sync[k], o) && r == sync[..k] + sync[k + 1..];
      var b :| BpmObject(b) in sync && b.position == 0;
      var t :| TimeSignatureObject(t) in sync && t.position == 0;
      var i :| 0 <= i < |sync| && sync[i] == BpmObject(b);
      var j :| 0 <= j < |sync| && sync[j] == TimeSignatureObject(t);
      RemovedKeepsOthers(sync, k, i);
      RemovedKeepsOthers(sync, k, j);
    }
  }

  lemma RemovedKeepsOthers<T>(s: seq<T>, k: nat, i: nat)
    requires k < |s| && i < |s| && i != k
    ensures s[i] in s[..k] + s[k + 1..]
  {
    if i < k {
      assert (s[..k] + s[k + 1..])[i] == s[i];
    } else {
      assert (s[..k] + s[k + 1..])[i - 1] == s[i];
    }
  }
}
