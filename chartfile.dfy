/** `ChartWriter.Write` and `GetPropertiesStringWithoutAudio`: the whole `.chart` text. The
    `[Song]` block holds the song's properties and audio streams, `[SyncTrack]` and `[Events]`
    the song's two lists, then every recognised instrument writes its four difficulties (an
    empty one omitted or filled from a harder one), and every unrecognised chart follows. */
module ChartFile {
  import opened Wrappers
  import opened Text
  import opened Notes
  import opened Tempo
  import opened SongObjects
  import opened Songs
  import opened ChartReader
  import opened ChartWriter

  // ================================================================ what Write reads

  /** What `Write` reads of a song once its caches are rebuilt. */
  datatype SongData = SongData(
    metaData: Metadata, resolution: Resolution, offset: real, manualLength: bool, length: real,
    syncTrack: seq<SyncObject>, events: seq<GlobalEvent>, charts: seq<Chart>, unrecognisedCharts: seq<Chart>)

  function DataOf(song: Song): (data: SongData)
    requires song.resolution > 0
    reads song, song.charts
  {
    SongData(song.metaData, song.resolution, song.offset, song.manualLength, song.Length(),
      song.syncTrack, song.events, song.charts[..], song.unrecognisedCharts)
  }

  /** What `Write` takes from outside the song: the `ToString` of a float, the audio stream
      lines of the `[Song]` block, the exception the `[Song]` block raises if it does, and the
      exception an object's `switch` raises if it does. */
  datatype Env = Env(
    formatReal: real -> string, audio: seq<string>, songFault: Option<string>, fault: Saved -> Option<string>)

  /** No object raises while it is saved. */
  ghost predicate Clean(env: Env)
  {
    forall o :: env.fault(o).None?
  }

  /** No exception is raised anywhere. */
  ghost predicate NoFaults(env: Env)
  {
    env.songFault.None? && Clean(env)
  }

  // ================================================================ [Song]

  /** The keys of the `[Song]` block. */
  datatype Key = Name | Artist | Charter | Album | Year | Offset | Resolution | Player2 | DifficultyKey
    | Length | PreviewStart | PreviewEnd | Genre | MediaType

  function KeyName(k: Key): (r: string)
    ensures |r| > 0 && 'A' <= r[0] <= 'Z'
  {
    match k
    case Name => "Name"
    case Artist => "Artist"
    case Charter => "Charter"
    case Album => "Album"
    case Year => "Year"
    case Offset => "Offset"
    case Resolution => "Resolution"
    case Player2 => "Player2"
    case DifficultyKey => "Difficulty"
    case Length => "Length"
    case PreviewStart => "PreviewStart"
    case PreviewEnd => "PreviewEnd"
    case Genre => "Genre"
    case MediaType => "MediaType"
  }

  /** A `[Song]` line: `<key> = <value>`. */
  datatype Property = Property(key: Key, value: string)

  function Quoted(s: string): string
  {
    "\"" + s + "\""
  }

  /** The keys in the order `GetPropertiesStringWithoutAudio` writes them. */
  const KEY_ORDER: seq<Key> :=
    [Name, Artist, Charter, Album, Year, Offset, Resolution, Player2, DifficultyKey, Length,
     PreviewStart, PreviewEnd, Genre, MediaType]

  /** The value written under key `k`, `None` when its line is left out: a text property only
      when it is not empty, quoted (the year after `", "`, Player2 lowercased and unquoted);
      the resolution the ticks are scaled to, or the song's own when that is not positive; the
      length only when it was set by hand. */
  function PropertyValue(song: SongData, options: ExportOptions, formatReal: real -> string, k: Key): Option<string>
  {
    var m := song.metaData;
    match k
    case Name => if m.name != "" then Some(Quoted(m.name)) else None
    case Artist => if m.artist != "" then Some(Quoted(m.artist)) else None
    case Charter => if m.charter != "" then Some(Quoted(m.charter)) else None
    case Album => if m.album != "" then Some(Quoted(m.album)) else None
    case Year => if m.year != "" then Some(Quoted(", " + m.year)) else None
    case Offset => Some(formatReal(song.offset))
    case Resolution => Some(IntToString(if options.targetResolution <= 0 then song.resolution else options.targetResolution))
    case Player2 => if m.player2 != "" then Some(ToLower(m.player2)) else None
    case DifficultyKey => Some(IntToString(m.difficulty))
    case Length => if song.manualLength then Some(formatReal(song.length)) else None
    case PreviewStart => Some(formatReal(m.previewStart))
    case PreviewEnd => Some(formatReal(m.previewEnd))
    case Genre => if m.genre != "" then Some(Quoted(m.genre)) else None
    case MediaType => if m.mediatype != "" then Some(Quoted(m.mediatype)) else None
  }

  /** The lines of the keys `keys`, in order, each one only when it is written. */
  function Entries(song: SongData, options: ExportOptions, formatReal: real -> string, keys: seq<Key>): seq<Property>
    decreases |keys|
  {
    if |keys| == 0 then []
    else
      (match PropertyValue(song, options, formatReal, keys[0])
       case Some(v) => [Property(keys[0], v)]
       case None => [])
      + Entries(song, options, formatReal, keys[1..])
  }

  /** `GetPropertiesStringWithoutAudio`: the properties in the order they are written. */
  function Properties(song: SongData, options: ExportOptions, formatReal: real -> string): seq<Property>
  {
    Entries(song, options, formatReal, KEY_ORDER)
  }

  lemma {:induction false} EntriesMeaning(song: SongData, options: ExportOptions, formatReal: real -> string, keys: seq<Key>)
    ensures forall k, v :: (Property(k, v) in Entries(song, options, formatReal, keys)
      <==> k in keys && PropertyValue(song, options, formatReal, k) == Some(v))
    decreases |keys|
  {
    if |keys| > 0 {
      EntriesMeaning(song, options, formatReal, keys[1..]);
      assert forall k :: k in keys <==> k == keys[0] || k in keys[1..];
    }
  }

  /** The `[Song]` block holds exactly the written properties: a line `<key> = <value>` is
      there if and only if `value` is what is written under `key`. */
  lemma PropertiesWritten(song: SongData, options: ExportOptions, formatReal: real -> string)
    ensures forall k, v :: (Property(k, v) in Properties(song, options, formatReal)
      <==> PropertyValue(song, options, formatReal, k) == Some(v))
  {
    EntriesMeaning(song, options, formatReal, KEY_ORDER);
    AllKeysListed();
  }

  lemma AllKeysListed()
    ensures forall k: Key :: k in KEY_ORDER
  {
    forall k: Key ensures k in KEY_ORDER {
      match k
      case Name => assert KEY_ORDER[0] == k;
      case Artist => assert KEY_ORDER[1] == k;
      case Charter => assert KEY_ORDER[2] == k;
      case Album => assert KEY_ORDER[3] == k;
      case Year => assert KEY_ORDER[4] == k;
      case Offset => assert KEY_ORDER[5] == k;
      case Resolution => assert KEY_ORDER[6] == k;
      case Player2 => assert KEY_ORDER[7] == k;
      case DifficultyKey => assert KEY_ORDER[8] == k;
      case Length => assert KEY_ORDER[9] == k;
      case PreviewStart => assert KEY_ORDER[10] == k;
      case PreviewEnd => assert KEY_ORDER[11] == k;
      case Genre => assert KEY_ORDER[12] == k;
      case MediaType => assert KEY_ORDER[13] == k;
    }
  }

  /** The position of a key in `KEY_ORDER`. */
  function KeyRank(k: Key): (r: nat)
    ensures r < |KEY_ORDER| && KEY_ORDER[r] == k
  {
    match k
    case Name => 0
    case Artist => 1
    case Charter => 2
    case Album => 3
    case Year => 4
    case Offset => 5
    case Resolution => 6
    case Player2 => 7
    case DifficultyKey => 8
    case Length => 9
    case PreviewStart => 10
    case PreviewEnd => 11
    case Genre => 12
    case MediaType => 13
  }

  predicate InKeyOrder(ps: seq<Property>)
  {
    forall a, b :: 0 <= a < b < |ps| ==> KeyRank(ps[a].key) < KeyRank(ps[b].key)
  }

  lemma {:induction false} EntriesInOrder(song: SongData, options: ExportOptions, formatReal: real -> string, keys: seq<Key>)
    requires forall a, b :: 0 <= a < b < |keys| ==> KeyRank(keys[a]) < KeyRank(keys[b])
    ensures InKeyOrder(Entries(song, options, formatReal, keys))
    ensures forall p :: p in Entries(song, options, formatReal, keys) ==> p.key in keys
    decreases |keys|
  {
    if |keys| > 0 {
      var rest := Entries(song, options, formatReal, keys[1..]);
      EntriesInOrder(song, options, formatReal, keys[1..]);
      forall p | p in rest ensures KeyRank(keys[0]) < KeyRank(p.key) {
        var j :| 0 <= j < |keys[1..]| && keys[1..][j] == p.key;
        assert keys[j + 1] == p.key;
      }
    }
  }

  /** Every key is written at most once, in the order of `KEY_ORDER`. */
  lemma PropertiesInOrder(song: SongData, options: ExportOptions, formatReal: real -> string)
    ensures InKeyOrder(Properties(song, options, formatReal))
  {
    forall a | 0 <= a < |KEY_ORDER| ensures KeyRank(KEY_ORDER[a]) == a {
      if a == 0 {} else if a == 1 {} else if a == 2 {} else if a == 3 {} else if a == 4 {}
      else if a == 5 {} else if a == 6 {} else if a == 7 {} else if a == 8 {} else if a == 9 {}
      else if a == 10 {} else if a == 11 {} else if a == 12 {} else {}
    }
    EntriesInOrder(song, options, formatReal, KEY_ORDER);
  }

  function PropertyLines(ps: seq<Property>): (lines: seq<string>)
    ensures |lines| == |ps| && forall k :: 0 <= k < |ps| ==> lines[k] == KeyName(ps[k].key) + " = " + ps[k].value
  {
    seq(|ps|, k requires 0 <= k < |ps| => KeyName(ps[k].key) + " = " + ps[k].value)
  }

  /** The `[Song]` block: the properties, then the audio stream lines. */
  function SongBlock(song: SongData, options: ExportOptions, env: Env): Block
  {
    Block("[Song]", PropertyLines(Properties(song, options, env.formatReal)) + env.audio)
  }

  function SongError(what: string): string
  {
    "Error with saving song properties: " + what
  }

  // ================================================================ sections

  /** A block as `Write` appends it: header, `{`, the body and `}`, each line ended. */
  function SectionText(header: string, body: string): string
  {
    header + LINE_ENDING + "{" + LINE_ENDING + body + "}" + LINE_ENDING
  }

  /** The save string of a time signature (the `TimeSignature` class is not part of this
      model's source; it is taken to write the line `GetSaveString<T>` writes for one). */
  function TimeSignatureSaveString(ts: TimeSignature): string
  {
    RenderLines(Indented([NatToString(ts.position) + TimeSignatureBody(ts)]))
  }

  /** The lines a positive tick offset puts first in `[SyncTrack]`: the default tempo and time
      signature, at tick 0. */
  function DefaultSyncData(): seq<string>
  {
    [NatToString(0) + TempoBody(NewBpm().value), NatToString(0) + TimeSignatureBody(DEFAULT_TIME_SIGNATURE)]
  }

  /** How the lists that are not charts are written: notes never occur in them. */
  function GlobalContext(song: SongData, options: ExportOptions): Context
  {
    Context(song.resolution, options, Instrument.Guitar, GameMode.Guitar)
  }

  function SyncPrefix(options: ExportOptions): string
  {
    if options.tickOffset > 0 then Tempo.GetSaveString(NewBpm()) + TimeSignatureSaveString(DEFAULT_TIME_SIGNATURE) else ""
  }

  function SyncText(song: SongData, options: ExportOptions, env: Env): string
  {
    SectionText("[SyncTrack]", SyncPrefix(options)
      + SaveText(SyncList(song.syncTrack), GlobalContext(song, options), env.fault, |song.syncTrack|))
  }

  function EventsText(song: SongData, options: ExportOptions, env: Env): string
  {
    SectionText("[Events]", SaveText(EventList(song.events), GlobalContext(song, options), env.fault, |song.events|))
  }

  // ================================================================ charts

  predicate HasGrid(song: SongData)
  {
    |song.charts| == CHART_COUNT
  }

  function ChartAt(song: SongData, i: Instrument, d: Difficulty): Chart
    requires HasGrid(song)
  {
    song.charts[ChartIndex(i, d)]
  }

  /** A chart's notes are coded in the table of `i` and judged open in the chart's own mode. */
  function ChartContext(song: SongData, options: ExportOptions, i: Instrument, c: Chart): Context
  {
    Context(song.resolution, options, i, c.gameMode)
  }

  /** The string `GetSaveString` returns for a chart's objects. */
  function ChartString(song: SongData, options: ExportOptions, env: Env, i: Instrument, c: Chart): string
  {
    SaveText(ChartList(c.objects), ChartContext(song, options, i, c), env.fault, |c.objects|)
  }

  /** The errors `GetSaveString` reports for a chart's objects. */
  function ChartErrors(env: Env, c: Chart): seq<string>
  {
    SaveErrors(ChartList(c.objects), env.fault, |c.objects|)
  }

  /** One step of the copy-down `switch`: the next harder difficulty; none after Expert. */
  function Harder(d: Difficulty): (r: Option<Difficulty>)
    ensures r.Some? ==> DifficultyValue(r.value) + 1 == DifficultyValue(d)
  {
    match d
    case Easy => Some(Medium)
    case Medium => Some(Hard)
    case Hard => Some(Expert)
    case Expert => None
  }

  /** The difficulty an empty difficulty `d` is copied from: the first harder one with
      objects. */
  function FillFrom(song: SongData, i: Instrument, d: Difficulty): Option<Difficulty>
    requires HasGrid(song)
    decreases DifficultyValue(d)
  {
    match Harder(d)
    case None => None
    case Some(h) => if |ChartAt(song, i, h).objects| > 0 then Some(h) else FillFrom(song, i, h)
  }

  /** The errors the copy-down loop reports from `d` on: every harder chart it writes, in
      order, and Expert once more when the loop leaves at Expert. */
  function CopyDownErrors(song: SongData, env: Env, i: Instrument, d: Difficulty): seq<string>
    requires HasGrid(song)
    decreases DifficultyValue(d)
  {
    match Harder(d)
    case None => ChartErrors(env, ChartAt(song, i, Expert))
    case Some(h) =>
      ChartErrors(env, ChartAt(song, i, h))
      + (if |ChartAt(song, i, h).objects| == 0 then CopyDownErrors(song, env, i, h) else [])
  }

  /** Copy-down takes the next harder difficulty that has objects: every difficulty between
      is empty, and `None` means that every harder one is. */
  lemma {:induction false} FillFromMeaning(song: SongData, i: Instrument, d: Difficulty)
    requires HasGrid(song)
    ensures match FillFrom(song, i, d)
      case Some(h) =>
        DifficultyValue(h) < DifficultyValue(d) && |ChartAt(song, i, h).objects| > 0
        && forall e :: DifficultyValue(h) < DifficultyValue(e) < DifficultyValue(d) ==> |ChartAt(song, i, e).objects| == 0
      case None => forall e :: DifficultyValue(e) < DifficultyValue(d) ==> |ChartAt(song, i, e).objects| == 0
    decreases DifficultyValue(d)
  {
    match Harder(d)
    case None =>
      assert d == Expert;
    case Some(h) =>
      FillFromMeaning(song, i, h);
      forall e ensures DifficultyValue(e) < DifficultyValue(d) ==> DifficultyValue(e) < DifficultyValue(h) || e == h {
        DifficultyValueInjective(e, h);
      }
  }

  lemma DifficultyValueInjective(a: Difficulty, b: Difficulty)
    ensures DifficultyValue(a) == DifficultyValue(b) ==> a == b
  {
  }

  /** The copy-down loop, entered for an empty chart, reports the errors of the chart it
      copies once more (an empty chart reports none). */
  lemma {:induction false} CopyDownRepeatsErrors(song: SongData, env: Env, i: Instrument, d: Difficulty)
    requires HasGrid(song) && |ChartAt(song, i, d).objects| == 0
    ensures CopyDownErrors(song, env, i, d) == match FillFrom(song, i, d)
      case Some(h) => ChartErrors(env, ChartAt(song, i, h))
      case None => []
    decreases DifficultyValue(d)
  {
    match Harder(d)
    case None =>
      assert d == Expert;
    case Some(h) =>
      if |ChartAt(song, i, h).objects| == 0 {
        CopyDownRepeatsErrors(song, env, i, h);
      }
  }

  /** The block of difficulty `d` of instrument `i`: its own objects, or with copy-down the
      objects of `FillFrom`, under its own header; nothing when there are none. */
  function SlotText(song: SongData, options: ExportOptions, env: Env, i: Instrument, d: Difficulty): string
    requires HasGrid(song) && i != Instrument.Unrecognised
  {
    var c := ChartAt(song, i, d);
    if |c.objects| > 0 then SectionText(ChartHeader(i, d), ChartString(song, options, env, i, c))
    else if options.copyDownEmptyDifficulty && FillFrom(song, i, d).Some? then
      SectionText(ChartHeader(i, d), ChartString(song, options, env, i, ChartAt(song, i, FillFrom(song, i, d).value)))
    else ""
  }

  function SlotErrors(song: SongData, options: ExportOptions, env: Env, i: Instrument, d: Difficulty): seq<string>
    requires HasGrid(song)
  {
    var c := ChartAt(song, i, d);
    ChartErrors(env, c)
    + (if |c.objects| == 0 && options.copyDownEmptyDifficulty then CopyDownErrors(song, env, i, d) else [])
  }

  /** A difficulty block is left out exactly when the chart is empty and is not filled by
      copy-down, either because copy-down is off or because every harder chart is empty too. */
  lemma SlotOmitted(song: SongData, options: ExportOptions, env: Env, i: Instrument, d: Difficulty)
    requires HasGrid(song) && i != Instrument.Unrecognised
    ensures SlotText(song, options, env, i, d) == "" <==>
      |ChartAt(song, i, d).objects| == 0
      && (!options.copyDownEmptyDifficulty
          || forall e :: DifficultyValue(e) < DifficultyValue(d) ==> |ChartAt(song, i, e).objects| == 0)
  {
    FillFromMeaning(song, i, d);
  }

  /** The first `n` difficulties of instrument `i`, in enum order (Expert first). */
  function InstrumentText(song: SongData, options: ExportOptions, env: Env, i: Instrument, n: nat): string
    requires HasGrid(song) && i != Instrument.Unrecognised && n <= DIFFICULTY_COUNT
  {
    if n == 0 then "" else InstrumentText(song, options, env, i, n - 1) + SlotText(song, options, env, i, DIFFICULTIES[n - 1])
  }

  function InstrumentErrors(song: SongData, options: ExportOptions, env: Env, i: Instrument, n: nat): seq<string>
    requires HasGrid(song) && n <= DIFFICULTY_COUNT
  {
    if n == 0 then [] else InstrumentErrors(song, options, env, i, n - 1) + SlotErrors(song, options, env, i, DIFFICULTIES[n - 1])
  }

  /** The first `n` instruments in enum order; Unrecognised writes nothing here. */
  function GridText(song: SongData, options: ExportOptions, env: Env, n: nat): string
    requires HasGrid(song) && n <= |INSTRUMENTS|
  {
    if n == 0 then ""
    else
      GridText(song, options, env, n - 1)
      + (if INSTRUMENTS[n - 1] == Instrument.Unrecognised then ""
         else InstrumentText(song, options, env, INSTRUMENTS[n - 1], DIFFICULTY_COUNT))
  }

  function GridErrors(song: SongData, options: ExportOptions, env: Env, n: nat): seq<string>
    requires HasGrid(song) && n <= |INSTRUMENTS|
  {
    if n == 0 then []
    else
      GridErrors(song, options, env, n - 1)
      + (if INSTRUMENTS[n - 1] == Instrument.Unrecognised then []
         else InstrumentErrors(song, options, env, INSTRUMENTS[n - 1], DIFFICULTY_COUNT))
  }

  /** The first `n` unrecognised charts, each under its own name, written even when empty. */
  function UnrecognisedText(song: SongData, options: ExportOptions, env: Env, n: nat): string
    requires n <= |song.unrecognisedCharts|
  {
    if n == 0 then ""
    else UnrecognisedText(song, options, env, n - 1) + UnrecognisedSection(song, options, env, song.unrecognisedCharts[n - 1])
  }

  /** An unrecognised chart under its own name, its notes written with their raw values. */
  function UnrecognisedSection(song: SongData, options: ExportOptions, env: Env, c: Chart): string
  {
    SectionText("[" + c.name + "]", ChartString(song, options, env, Instrument.Unrecognised, c))
  }

  function UnrecognisedErrors(song: SongData, env: Env, n: nat): seq<string>
    requires n <= |song.unrecognisedCharts|
  {
    if n == 0 then [] else UnrecognisedErrors(song, env, n - 1) + ChartErrors(env, song.unrecognisedCharts[n - 1])
  }

  // ================================================================ the file

  function SongText(song: SongData, options: ExportOptions, env: Env): string
  {
    if env.songFault.Some? then ""
    else
      var b := SongBlock(song, options, env);
      SectionText(b.name, RenderLines(Indented(b.data)))
  }

  function SongErrors(env: Env): seq<string>
  {
    match env.songFault
    case Some(what) => [SongError(what)]
    case None => []
  }

  /** The text `Write` saves. */
  function WriteText(song: SongData, options: ExportOptions, env: Env): string
    requires HasGrid(song)
  {
    SongText(song, options, env) + SyncText(song, options, env) + EventsText(song, options, env)
    + GridText(song, options, env, |INSTRUMENTS|) + UnrecognisedText(song, options, env, |song.unrecognisedCharts|)
  }

  /** The entries of `errorList`, in the order they are reported. */
  function WriteErrors(song: SongData, options: ExportOptions, env: Env): seq<string>
    requires HasGrid(song)
  {
    SongErrors(env)
    + SaveErrors(SyncList(song.syncTrack), env.fault, |song.syncTrack|)
    + SaveErrors(EventList(song.events), env.fault, |song.events|)
    + GridErrors(song, options, env, |INSTRUMENTS|)
    + UnrecognisedErrors(song, env, |song.unrecognisedCharts|)
  }

  // ================================================================ written blocks

  /** The data lines of a chart written without failures. */
  function ChartData(song: SongData, options: ExportOptions, i: Instrument, c: Chart): seq<string>
  {
    SavedLines(ChartList(c.objects), ChartContext(song, options, i, c), |c.objects|)
  }

  function SyncBlock(song: SongData, options: ExportOptions): Block
  {
    Block("[SyncTrack]", (if options.tickOffset > 0 then DefaultSyncData() else [])
      + SavedLines(SyncList(song.syncTrack), GlobalContext(song, options), |song.syncTrack|))
  }

  function EventsBlock(song: SongData, options: ExportOptions): Block
  {
    Block("[Events]", SavedLines(EventList(song.events), GlobalContext(song, options), |song.events|))
  }

  /** The block of a difficulty: none, or one under its own header holding its own chart's
      lines or, with copy-down, those of the chart it is filled from. */
  function SlotBlocks(song: SongData, options: ExportOptions, i: Instrument, d: Difficulty): seq<Block>
    requires HasGrid(song) && i != Instrument.Unrecognised
  {
    var c := ChartAt(song, i, d);
    if |c.objects| > 0 then [Block(ChartHeader(i, d), ChartData(song, options, i, c))]
    else if options.copyDownEmptyDifficulty && FillFrom(song, i, d).Some? then
      [Block(ChartHeader(i, d), ChartData(song, options, i, ChartAt(song, i, FillFrom(song, i, d).value)))]
    else []
  }

  function InstrumentBlocks(song: SongData, options: ExportOptions, i: Instrument, n: nat): seq<Block>
    requires HasGrid(song) && i != Instrument.Unrecognised && n <= DIFFICULTY_COUNT
  {
    if n == 0 then [] else InstrumentBlocks(song, options, i, n - 1) + SlotBlocks(song, options, i, DIFFICULTIES[n - 1])
  }

  function GridBlocks(song: SongData, options: ExportOptions, n: nat): seq<Block>
    requires HasGrid(song) && n <= |INSTRUMENTS|
  {
    if n == 0 then []
    else
      GridBlocks(song, options, n - 1)
      + (if INSTRUMENTS[n - 1] == Instrument.Unrecognised then []
         else InstrumentBlocks(song, options, INSTRUMENTS[n - 1], DIFFICULTY_COUNT))
  }

  function UnrecognisedBlocks(song: SongData, options: ExportOptions, n: nat): seq<Block>
    requires n <= |song.unrecognisedCharts|
  {
    if n == 0 then [] else UnrecognisedBlocks(song, options, n - 1) + [UnrecognisedBlock(song, options, song.unrecognisedCharts[n - 1])]
  }

  function UnrecognisedBlock(song: SongData, options: ExportOptions, c: Chart): Block
  {
    Block("[" + c.name + "]", ChartData(song, options, Instrument.Unrecognised, c))
  }

  /** The blocks of a file written without failures. */
  function WrittenBlocks(song: SongData, options: ExportOptions, env: Env): seq<Block>
    requires HasGrid(song)
  {
    [SongBlock(song, options, env), SyncBlock(song, options), EventsBlock(song, options)]
    + GridBlocks(song, options, |INSTRUMENTS|)
    + UnrecognisedBlocks(song, options, |song.unrecognisedCharts|)
  }

  /** The text of a sequence of blocks. */
  function BlocksText(bs: seq<Block>): string
  {
    RenderLines(BlocksLines(bs))
  }

  lemma {:induction false} BlocksTextAppend(a: seq<Block>, b: seq<Block>)
    ensures BlocksText(a + b) == BlocksText(a) + BlocksText(b)
    decreases |a|
  {
    if |a| == 0 {
      assert a + b == b;
    } else {
      assert (a + b)[0] == a[0] && (a + b)[1..] == a[1..] + b;
      BlocksTextAppend(a[1..], b);
      RenderAppend(BlockLines(a[0]), BlocksLines(a[1..] + b));
      RenderAppend(BlockLines(a[0]), BlocksLines(a[1..]));
      RenderAppend(BlocksLines(a[1..]), BlocksLines(b));
      assert BlocksLines(a) == BlockLines(a[0]) + BlocksLines(a[1..]);
    }
  }

  /** A section as `Write` appends it is the text of its block. */
  lemma SectionRenders(b: Block)
    ensures SectionText(b.name, RenderLines(Indented(b.data))) == BlocksText([b])
  {
    var body := Indented(b.data);
    var open := [b.name, "{"];
    assert BlockLines(b) == open + (body + ["}"]);
    calc {
      BlocksText([b]);
      { BlocksTextSingle(b); }
      RenderLines(open + (body + ["}"]));
      { RenderAppend(open, body + ["}"]); }
      RenderLines(open) + RenderLines(body + ["}"]);
      { RenderAppend(body, ["}"]); }
      RenderLines(open) + (RenderLines(body) + RenderLines(["}"]));
      { RenderedBraces(b.name); }
      (b.name + LINE_ENDING + "{" + LINE_ENDING) + (RenderLines(body) + ("}" + LINE_ENDING));
      { SectionAssociates(b.name, RenderLines(body)); }
      SectionText(b.name, RenderLines(body));
    }
  }

  lemma NoBlocksText()
    ensures BlocksText([]) == ""
  {
    assert BlocksLines([]) == [];
  }

  lemma BlocksTextSingle(b: Block)
    ensures BlocksText([b]) == RenderLines(BlockLines(b))
  {
    assert [b][1..] == [];
    assert BlocksLines([b]) == BlockLines(b) + BlocksLines([]);
    assert BlockLines(b) + [] == BlockLines(b);
  }

  lemma RenderedBraces(name: string)
    ensures RenderLines([name, "{"]) == name + LINE_ENDING + "{" + LINE_ENDING
    ensures RenderLines(["}"]) == "}" + LINE_ENDING
  {
    assert [name, "{"][1..] == ["{"];
    assert ["{"][1..] == [];
  }

  lemma SectionAssociates(header: string, body: string)
    ensures (header + LINE_ENDING + "{" + LINE_ENDING) + (body + ("}" + LINE_ENDING)) == SectionText(header, body)
  {
  }

  lemma SectionOf(header: string, data: seq<string>, body: string)
    requires body == RenderLines(Indented(data))
    ensures SectionText(header, body) == BlocksText([Block(header, data)])
  {
    SectionRenders(Block(header, data));
  }

  /** Without failures a chart's string is its data lines, indented and ended. */
  lemma ChartStringRenders(song: SongData, options: ExportOptions, env: Env, i: Instrument, c: Chart)
    requires Clean(env)
    ensures ChartString(song, options, env, i, c) == RenderLines(Indented(ChartData(song, options, i, c)))
  {
    SaveTextWithoutFaults(ChartList(c.objects), ChartContext(song, options, i, c), env.fault, |c.objects|);
  }

  lemma SlotRenders(song: SongData, options: ExportOptions, env: Env, i: Instrument, d: Difficulty)
    requires HasGrid(song) && i != Instrument.Unrecognised && Clean(env)
    ensures SlotText(song, options, env, i, d) == BlocksText(SlotBlocks(song, options, i, d))
  {
    var c := ChartAt(song, i, d);
    if |c.objects| > 0 {
      ChartStringRenders(song, options, env, i, c);
      SectionOf(ChartHeader(i, d), ChartData(song, options, i, c), ChartString(song, options, env, i, c));
    } else if options.copyDownEmptyDifficulty && FillFrom(song, i, d).Some? {
      var h := ChartAt(song, i, FillFrom(song, i, d).value);
      ChartStringRenders(song, options, env, i, h);
      SectionOf(ChartHeader(i, d), ChartData(song, options, i, h), ChartString(song, options, env, i, h));
    } else {
      assert BlocksLines([]) == [];
    }
  }

  lemma {:induction false} InstrumentRenders(song: SongData, options: ExportOptions, env: Env, i: Instrument, n: nat)
    requires HasGrid(song) && i != Instrument.Unrecognised && n <= DIFFICULTY_COUNT
    requires Clean(env)
    ensures InstrumentText(song, options, env, i, n) == BlocksText(InstrumentBlocks(song, options, i, n))
  {
    if n == 0 {
      assert BlocksLines([]) == [];
    } else {
      InstrumentRenders(song, options, env, i, n - 1);
      SlotRenders(song, options, env, i, DIFFICULTIES[n - 1]);
      BlocksTextAppend(InstrumentBlocks(song, options, i, n - 1), SlotBlocks(song, options, i, DIFFICULTIES[n - 1]));
    }
  }

  lemma {:induction false} GridRenders(song: SongData, options: ExportOptions, env: Env, n: nat)
    requires HasGrid(song) && n <= |INSTRUMENTS| && Clean(env)
    ensures GridText(song, options, env, n) == BlocksText(GridBlocks(song, options, n))
  {
    if n == 0 {
      assert BlocksLines([]) == [];
    } else {
      GridRenders(song, options, env, n - 1);
      var i := INSTRUMENTS[n - 1];
      if i == Instrument.Unrecognised {
        assert GridBlocks(song, options, n) == GridBlocks(song, options, n - 1) + [];
        BlocksTextAppend(GridBlocks(song, options, n - 1), []);
        assert BlocksLines([]) == [];
      } else {
        InstrumentRenders(song, options, env, i, DIFFICULTY_COUNT);
        BlocksTextAppend(GridBlocks(song, options, n - 1), InstrumentBlocks(song, options, i, DIFFICULTY_COUNT));
      }
    }
  }

  lemma UnrecognisedRenders(song: SongData, options: ExportOptions, env: Env, n: nat)
    requires n <= |song.unrecognisedCharts| && Clean(env)
    ensures UnrecognisedText(song, options, env, n) == BlocksText(UnrecognisedBlocks(song, options, n))
  {
    NoBlocksText();
    var k := 0;
    while k < n
      invariant k <= n
      invariant UnrecognisedText(song, options, env, k) == BlocksText(UnrecognisedBlocks(song, options, k))
    {
      k := k + 1;
      UnrecognisedStep(song, options, env, k);
    }
  }

  lemma UnrecognisedStep(song: SongData, options: ExportOptions, env: Env, n: nat)
    requires 0 < n <= |song.unrecognisedCharts| && Clean(env)
    requires UnrecognisedText(song, options, env, n - 1) == BlocksText(UnrecognisedBlocks(song, options, n - 1))
    ensures UnrecognisedText(song, options, env, n) == BlocksText(UnrecognisedBlocks(song, options, n))
  {
    var c := song.unrecognisedCharts[n - 1];
    UnrecognisedChartRenders(song, options, env, c);
    BlocksTextAppend(UnrecognisedBlocks(song, options, n - 1), [UnrecognisedBlock(song, options, c)]);
  }

  lemma UnrecognisedChartRenders(song: SongData, options: ExportOptions, env: Env, c: Chart)
    requires Clean(env)
    ensures UnrecognisedSection(song, options, env, c) == BlocksText([UnrecognisedBlock(song, options, c)])
  {
    ChartStringRenders(song, options, env, Instrument.Unrecognised, c);
    SectionRenders(Block("[" + c.name + "]", ChartData(song, options, Instrument.Unrecognised, c)));
  }

  /** The default tempo and time signature as the writer saves them. */
  lemma SyncPrefixRenders(options: ExportOptions)
    ensures SyncPrefix(options) == RenderLines(Indented(if options.tickOffset > 0 then DefaultSyncData() else []))
  {
    if options.tickOffset > 0 {
      var d := DefaultSyncData();
      calc {
        SyncPrefix(options);
        Tempo.GetSaveString(NewBpm()) + TimeSignatureSaveString(DEFAULT_TIME_SIGNATURE);
        { DefaultTempoSaved(); }
        RenderLines(Indented([d[0]])) + RenderLines(Indented([d[1]]));
        { RenderAppend(Indented([d[0]]), Indented([d[1]])); }
        RenderLines(Indented([d[0]]) + Indented([d[1]]));
        { IndentedAppend([d[0]], [d[1]]); assert [d[0]] + [d[1]] == d; }
        RenderLines(Indented(d));
      }
    }
  }

  lemma DefaultTempoSaved()
    ensures Tempo.GetSaveString(NewBpm()) == RenderLines(Indented([DefaultSyncData()[0]]))
  {
    SavedTempoLine(NewBpm());
  }

  lemma SavedTempoLine(b: Bpm)
    requires b.anchor.None?
    ensures Tempo.GetSaveString(b) == RenderLines(Indented([NatToString(b.position) + TempoBody(b.value)]))
  {
    var d0 := NatToString(b.position) + TempoBody(b.value);
    assert TempoLine(b) == TABSPACE + d0 by {
      AssociateFour(TABSPACE, NatToString(b.position), " = B ", NatToString(b.value));
    }
    assert SaveLines(b) == [TempoLine(b)];
    assert Indented([d0]) == [TABSPACE + d0];
  }

  lemma AssociateFour<T>(a: seq<T>, b: seq<T>, c: seq<T>, d: seq<T>)
    ensures a + b + c + d == a + (b + (c + d))
  {
  }

  lemma GlobalsRender(song: SongData, options: ExportOptions, env: Env)
    requires Clean(env)
    ensures SyncText(song, options, env) == BlocksText([SyncBlock(song, options)])
    ensures EventsText(song, options, env) == BlocksText([EventsBlock(song, options)])
  {
    var prefix := if options.tickOffset > 0 then DefaultSyncData() else [];
    var sync := SavedLines(SyncList(song.syncTrack), GlobalContext(song, options), |song.syncTrack|);
    SyncPrefixRenders(options);
    SaveTextWithoutFaults(SyncList(song.syncTrack), GlobalContext(song, options), env.fault, |song.syncTrack|);
    IndentedAppend(prefix, sync);
    RenderAppend(Indented(prefix), Indented(sync));
    SectionOf("[SyncTrack]", prefix + sync, SyncPrefix(options)
      + SaveText(SyncList(song.syncTrack), GlobalContext(song, options), env.fault, |song.syncTrack|));
    SaveTextWithoutFaults(EventList(song.events), GlobalContext(song, options), env.fault, |song.events|);
    SectionOf("[Events]", EventsBlock(song, options).data,
      SaveText(EventList(song.events), GlobalContext(song, options), env.fault, |song.events|));
  }

  /** Without failures the saved text is exactly the written blocks. */
  lemma WriteTextRenders(song: SongData, options: ExportOptions, env: Env)
    requires HasGrid(song) && NoFaults(env)
    ensures WriteText(song, options, env) == BlocksText(WrittenBlocks(song, options, env))
  {
    var first := [SongBlock(song, options, env), SyncBlock(song, options), EventsBlock(song, options)];
    var g := GridBlocks(song, options, |INSTRUMENTS|);
    var u := UnrecognisedBlocks(song, options, |song.unrecognisedCharts|);
    calc {
      BlocksText(WrittenBlocks(song, options, env));
      BlocksText(first + g + u);
      { BlocksTextAppend(first + g, u); BlocksTextAppend(first, g); }
      BlocksText(first) + BlocksText(g) + BlocksText(u);
      { FirstBlocksRender(song, options, env);
        GridRenders(song, options, env, |INSTRUMENTS|);
        UnrecognisedRenders(song, options, env, |song.unrecognisedCharts|); }
      SongText(song, options, env) + SyncText(song, options, env) + EventsText(song, options, env)
      + GridText(song, options, env, |INSTRUMENTS|) + UnrecognisedText(song, options, env, |song.unrecognisedCharts|);
    }
  }

  lemma FirstBlocksRender(song: SongData, options: ExportOptions, env: Env)
    requires NoFaults(env)
    ensures BlocksText([SongBlock(song, options, env), SyncBlock(song, options), EventsBlock(song, options)])
      == SongText(song, options, env) + SyncText(song, options, env) + EventsText(song, options, env)
  {
    var b := SongBlock(song, options, env);
    SectionRenders(b);
    GlobalsRender(song, options, env);
    BlocksTextOfThree(b, SyncBlock(song, options), EventsBlock(song, options));
  }

  lemma BlocksTextOfThree(a: Block, b: Block, c: Block)
    ensures BlocksText([a, b, c]) == BlocksText([a]) + BlocksText([b]) + BlocksText([c])
  {
    BlocksTextAppend([a], [b]);
    BlocksTextAppend([a] + [b], [c]);
    assert [a] + [b] + [c] == [a, b, c];
  }

  // ================================================================ errors

  /** A chart none of whose objects raises reports nothing. */
  lemma ChartErrorsClean(env: Env, c: Chart)
    requires Clean(env)
    ensures ChartErrors(env, c) == []
  {
    SaveErrorsClean(ChartList(c.objects), env, |c.objects|);
  }

  lemma SlotErrorsClean(song: SongData, options: ExportOptions, env: Env, i: Instrument, d: Difficulty)
    requires HasGrid(song) && Clean(env)
    ensures SlotErrors(song, options, env, i, d) == []
  {
    var c := ChartAt(song, i, d);
    ChartErrorsClean(env, c);
    if |c.objects| == 0 && options.copyDownEmptyDifficulty {
      CopyDownRepeatsErrors(song, env, i, d);
      if FillFrom(song, i, d).Some? {
        ChartErrorsClean(env, ChartAt(song, i, FillFrom(song, i, d).value));
      }
    }
  }

  lemma {:induction false} InstrumentErrorsClean(song: SongData, options: ExportOptions, env: Env, i: Instrument, n: nat)
    requires HasGrid(song) && n <= DIFFICULTY_COUNT && Clean(env)
    ensures InstrumentErrors(song, options, env, i, n) == []
  {
    if n > 0 {
      InstrumentErrorsClean(song, options, env, i, n - 1);
      SlotErrorsClean(song, options, env, i, DIFFICULTIES[n - 1]);
    }
  }

  lemma {:induction false} GridErrorsClean(song: SongData, options: ExportOptions, env: Env, n: nat)
    requires HasGrid(song) && n <= |INSTRUMENTS| && Clean(env)
    ensures GridErrors(song, options, env, n) == []
  {
    if n > 0 {
      GridErrorsClean(song, options, env, n - 1);
      InstrumentErrorsClean(song, options, env, INSTRUMENTS[n - 1], DIFFICULTY_COUNT);
    }
  }

  lemma {:induction false} UnrecognisedErrorsClean(song: SongData, env: Env, n: nat)
    requires n <= |song.unrecognisedCharts| && Clean(env)
    ensures UnrecognisedErrors(song, env, n) == []
  {
    if n > 0 {
      UnrecognisedErrorsClean(song, env, n - 1);
      ChartErrorsClean(env, song.unrecognisedCharts[n - 1]);
    }
  }

  /** A list none of whose objects raises reports nothing. */
  lemma SaveErrorsClean(objs: seq<Saved>, env: Env, n: nat)
    requires n <= |objs| && Clean(env)
    ensures SaveErrors(objs, env.fault, n) == []
  {
    SaveErrorsMeaning(objs, env.fault, n);
  }

  /** Without failures `Write` reports no error. */
  lemma WriteErrorsClean(song: SongData, options: ExportOptions, env: Env)
    requires HasGrid(song) && NoFaults(env)
    ensures WriteErrors(song, options, env) == []
  {
    SaveErrorsClean(SyncList(song.syncTrack), env, |song.syncTrack|);
    SaveErrorsClean(EventList(song.events), env, |song.events|);
    GridErrorsClean(song, options, env, |INSTRUMENTS|);
    UnrecognisedErrorsClean(song, env, |song.unrecognisedCharts|);
  }

  /** When the `[Song]` block raises, the block is dropped and its error is reported first. */
  lemma SongFaultReported(song: SongData, options: ExportOptions, env: Env)
    requires HasGrid(song) && env.songFault.Some?
    ensures SongText(song, options, env) == ""
    ensures |WriteErrors(song, options, env)| > 0 && WriteErrors(song, options, env)[0] == SongError(env.songFault.value)
  {
  }

  // ================================================================ reading the file back

  /** A line whose first character is neither trimmed, a brace nor a bracket. */
  predicate Leads(d: string)
  {
    |d| > 0 && d[0] !in WHITESPACE && d[0] != '{' && d[0] != '}' && d[0] != '['
  }

  /** Such a line stays a data line when the reader trims it. */
  lemma ReadableLeading(d: string)
    requires Leads(d)
    ensures ReadableLine(d)
  {
    assert TrimStart(d, WHITESPACE) == d;
    assert d[0] !in WHITESPACE;
    var t := Trim(d);
    assert |t| > 0;
    assert t[0] == d[0];
  }

  /** Lines that all stay data lines when read back. */
  predicate AllReadable(lines: seq<string>)
  {
    forall k :: 0 <= k < |lines| ==> ReadableLine(lines[k])
  }

  lemma ReadableAppend(a: seq<string>, b: seq<string>)
    requires AllReadable(a) && AllReadable(b)
    ensures AllReadable(a + b)
  {
    assert forall k :: 0 <= k < |b| ==> (a + b)[|a| + k] == b[k];
  }

  /** Lines that all start with a character the reader neither trims nor takes for a brace or
      a header. */
  predicate AllLead(lines: seq<string>)
  {
    forall k :: 0 <= k < |lines| ==> Leads(lines[k])
  }

  lemma LeadAppend(a: seq<string>, b: seq<string>)
    requires AllLead(a) && AllLead(b)
    ensures AllLead(a + b)
  {
    assert forall k :: 0 <= k < |b| ==> (a + b)[|a| + k] == b[k];
  }

  lemma AllLeadReadable(lines: seq<string>)
    requires AllLead(lines)
    ensures AllReadable(lines)
  {
    forall k | 0 <= k < |lines|
      ensures ReadableLine(lines[k])
    {
      ReadableLeading(lines[k]);
    }
  }

  /** A line that starts with a tick starts with a digit. */
  lemma TickLineLeads(t: nat, body: string)
    ensures Leads(NatToString(t) + body)
  {
    var s := NatToString(t);
    assert IsDigit(s[0]);
    assert (s + body)[0] == s[0];
  }

  /** A line that starts with a tick is one the reader keeps. */
  lemma TickLineReadable(t: nat, body: string)
    ensures ReadableLine(NatToString(t) + body)
  {
    TickLineLeads(t, body);
    ReadableLeading(NatToString(t) + body);
  }

  /** Every line an object is written as starts with its tick. */
  lemma ObjectLinesLead(objs: seq<Saved>, i: nat, ctx: Context)
    requires i < |objs|
    ensures AllLead(ObjectLines(objs, i, ctx))
  {
    var lines := ObjectLines(objs, i, ctx);
    var bodies := ObjectBodies(objs, i, ctx);
    forall k | 0 <= k < |lines|
      ensures Leads(lines[k])
    {
      assert lines[k] == TickText(objs[i], ctx) + bodies[k];
      TickLineLeads(Tick(objs[i].Position(), ctx), bodies[k]);
    }
  }

  /** Groups of lines that all lead with a character the reader keeps lead so when joined. */
  lemma {:induction false} FlattenLead(groups: seq<seq<string>>, n: nat)
    requires n <= |groups| && forall i :: 0 <= i < n ==> AllLead(groups[i])
    ensures AllLead(Flatten(groups, n))
  {
    if n > 0 {
      FlattenLead(groups, n - 1);
      LeadAppend(Flatten(groups, n - 1), groups[n - 1]);
    }
  }

  lemma SavedLinesLead(objs: seq<Saved>, ctx: Context, n: nat)
    requires n <= |objs|
    ensures AllLead(SavedLines(objs, ctx, n))
  {
    var groups := ObjectGroups(objs, ctx);
    forall i | 0 <= i < n
      ensures AllLead(groups[i])
    {
      ObjectLinesLead(objs, i, ctx);
    }
    FlattenLead(groups, n);
  }

  /** Every line `GetSaveString` writes starts with its object's tick, so the reader keeps it. */
  lemma SavedLinesReadable(objs: seq<Saved>, ctx: Context, n: nat)
    requires n <= |objs|
    ensures AllReadable(SavedLines(objs, ctx, n))
  {
    SavedLinesLead(objs, ctx, n);
    AllLeadReadable(SavedLines(objs, ctx, n));
  }

  /** Every property line starts with its key's capital letter. */
  lemma PropertyLinesReadable(ps: seq<Property>)
    ensures AllReadable(PropertyLines(ps))
  {
    var lines := PropertyLines(ps);
    forall k | 0 <= k < |lines|
      ensures ReadableLine(lines[k])
    {
      var name := KeyName(ps[k].key);
      assert lines[k] == name + (" = " + ps[k].value);
      ReadableLeading(lines[k]);
    }
  }

  /** A header in brackets is kept whole by the reader. */
  lemma BracketedWritable(s: string, data: seq<string>)
    requires AllReadable(data)
    ensures WritableBlock(Block("[" + s + "]", data))
  {
    var h := "[" + s + "]";
    assert h[0] == '[' && h[|h| - 1] == ']';
  }

  /** Blocks the reader takes back as they were written. */
  predicate AllWritable(bs: seq<Block>)
  {
    forall k :: 0 <= k < |bs| ==> WritableBlock(bs[k])
  }

  lemma WritableAppend(a: seq<Block>, b: seq<Block>)
    requires AllWritable(a) && AllWritable(b)
    ensures AllWritable(a + b)
  {
    assert forall k :: 0 <= k < |b| ==> (a + b)[|a| + k] == b[k];
  }

  lemma ChartDataReadable(song: SongData, options: ExportOptions, i: Instrument, c: Chart)
    ensures AllReadable(ChartData(song, options, i, c))
  {
    SavedLinesReadable(ChartList(c.objects), ChartContext(song, options, i, c), |c.objects|);
  }

  lemma FirstBlocksWritable(song: SongData, options: ExportOptions, env: Env)
    requires AllReadable(env.audio)
    ensures AllWritable([SongBlock(song, options, env), SyncBlock(song, options), EventsBlock(song, options)])
  {
    SongBlockWritable(song, options, env);
    SyncBlockWritable(song, options);
    EventsBlockWritable(song, options);
    ThreeWritable(SongBlock(song, options, env), SyncBlock(song, options), EventsBlock(song, options));
  }

  lemma ThreeWritable(a: Block, b: Block, c: Block)
    requires WritableBlock(a) && WritableBlock(b) && WritableBlock(c)
    ensures AllWritable([a, b, c])
  {
  }

  /** A header line is kept whole by the reader: it starts with `[` and ends with `]`. */
  lemma HeaderWritable(h: string, data: seq<string>)
    requires IsHeader(h) && AllReadable(data)
    ensures WritableBlock(Block(h, data))
  {
  }

  lemma SongBlockWritable(song: SongData, options: ExportOptions, env: Env)
    requires AllReadable(env.audio)
    ensures WritableBlock(SongBlock(song, options, env))
  {
    PropertiesBlockWritable(Properties(song, options, env.formatReal), env.audio);
  }

  lemma PropertiesBlockWritable(ps: seq<Property>, audio: seq<string>)
    requires AllReadable(audio)
    ensures WritableBlock(Block("[Song]", PropertyLines(ps) + audio))
  {
    PropertyLinesReadable(ps);
    ReadableAppend(PropertyLines(ps), audio);
    HeaderWritable("[Song]", PropertyLines(ps) + audio);
  }

  lemma SyncBlockWritable(song: SongData, options: ExportOptions)
    ensures WritableBlock(SyncBlock(song, options))
  {
    var prefix := if options.tickOffset > 0 then DefaultSyncData() else [];
    var sync := SavedLines(SyncList(song.syncTrack), GlobalContext(song, options), |song.syncTrack|);
    DefaultSyncDataReadable();
    SavedLinesReadable(SyncList(song.syncTrack), GlobalContext(song, options), |song.syncTrack|);
    ReadableAppend(prefix, sync);
    HeaderWritable("[SyncTrack]", prefix + sync);
  }

  lemma DefaultSyncDataReadable()
    ensures AllReadable(DefaultSyncData())
  {
    TickLineReadable(0, TempoBody(NewBpm().value));
    TickLineReadable(0, TimeSignatureBody(DEFAULT_TIME_SIGNATURE));
  }

  lemma EventsBlockWritable(song: SongData, options: ExportOptions)
    ensures WritableBlock(EventsBlock(song, options))
  {
    SavedLinesReadable(EventList(song.events), GlobalContext(song, options), |song.events|);
    HeaderWritable("[Events]", EventsBlock(song, options).data);
  }

  lemma SlotBlocksWritable(song: SongData, options: ExportOptions, i: Instrument, d: Difficulty)
    requires HasGrid(song) && i != Instrument.Unrecognised
    ensures AllWritable(SlotBlocks(song, options, i, d))
  {
    var c := ChartAt(song, i, d);
    ChartHeaderIsHeader(i, d);
    if |c.objects| > 0 {
      ChartDataReadable(song, options, i, c);
      HeaderWritable(ChartHeader(i, d), ChartData(song, options, i, c));
    } else if options.copyDownEmptyDifficulty && FillFrom(song, i, d).Some? {
      var h := ChartAt(song, i, FillFrom(song, i, d).value);
      ChartDataReadable(song, options, i, h);
      HeaderWritable(ChartHeader(i, d), ChartData(song, options, i, h));
    }
  }

  lemma ChartHeaderIsHeader(i: Instrument, d: Difficulty)
    requires i != Instrument.Unrecognised
    ensures IsHeader(ChartHeader(i, d))
  {
    var h := ChartHeader(i, d);
    assert h[0] == '[' && h[|h| - 1] == ']';
  }

  lemma {:induction false} InstrumentBlocksWritable(song: SongData, options: ExportOptions, i: Instrument, n: nat)
    requires HasGrid(song) && i != Instrument.Unrecognised && n <= DIFFICULTY_COUNT
    ensures AllWritable(InstrumentBlocks(song, options, i, n))
  {
    if n > 0 {
      InstrumentBlocksWritable(song, options, i, n - 1);
      SlotBlocksWritable(song, options, i, DIFFICULTIES[n - 1]);
      WritableAppend(InstrumentBlocks(song, options, i, n - 1), SlotBlocks(song, options, i, DIFFICULTIES[n - 1]));
    }
  }

  lemma {:induction false} GridBlocksWritable(song: SongData, options: ExportOptions, n: nat)
    requires HasGrid(song) && n <= |INSTRUMENTS|
    ensures AllWritable(GridBlocks(song, options, n))
  {
    if n > 0 {
      GridBlocksWritable(song, options, n - 1);
      GridBlocksStep(song, options, n);
    }
  }

  lemma GridBlocksStep(song: SongData, options: ExportOptions, n: nat)
    requires HasGrid(song) && 0 < n <= |INSTRUMENTS| && AllWritable(GridBlocks(song, options, n - 1))
    ensures AllWritable(GridBlocks(song, options, n))
  {
    var i := INSTRUMENTS[n - 1];
    if i != Instrument.Unrecognised {
      InstrumentBlocksWritable(song, options, i, DIFFICULTY_COUNT);
      WritableAppend(GridBlocks(song, options, n - 1), InstrumentBlocks(song, options, i, DIFFICULTY_COUNT));
    } else {
      assert GridBlocks(song, options, n) == GridBlocks(song, options, n - 1) + [];
    }
  }

  lemma {:induction false} UnrecognisedBlocksWritable(song: SongData, options: ExportOptions, n: nat)
    requires n <= |song.unrecognisedCharts|
    ensures AllWritable(UnrecognisedBlocks(song, options, n))
  {
    if n > 0 {
      UnrecognisedBlocksWritable(song, options, n - 1);
      UnrecognisedBlocksStep(song, options, n);
    }
  }

  lemma UnrecognisedBlocksStep(song: SongData, options: ExportOptions, n: nat)
    requires 0 < n <= |song.unrecognisedCharts| && AllWritable(UnrecognisedBlocks(song, options, n - 1))
    ensures AllWritable(UnrecognisedBlocks(song, options, n))
  {
    var c := song.unrecognisedCharts[n - 1];
    UnrecognisedBlockWritable(song, options, c);
    WritableAppend(UnrecognisedBlocks(song, options, n - 1), [UnrecognisedBlock(song, options, c)]);
  }

  lemma UnrecognisedBlockWritable(song: SongData, options: ExportOptions, c: Chart)
    ensures AllWritable([UnrecognisedBlock(song, options, c)])
  {
    ChartDataReadable(song, options, Instrument.Unrecognised, c);
    BracketedWritable(c.name, ChartData(song, options, Instrument.Unrecognised, c));
  }

  /** A file written without failures reports no error, is exactly its blocks, and the
      reader's tokenizer takes those blocks back in order, each under its own header with its
      data lines trimmed. The audio stream lines are taken to be data lines too. */
  lemma WriteReadsBack(song: SongData, options: ExportOptions, env: Env)
    requires HasGrid(song) && NoFaults(env) && AllReadable(env.audio)
    ensures WriteErrors(song, options, env) == []
    ensures WriteText(song, options, env) == BlocksText(WrittenBlocks(song, options, env))
    ensures Run(START, BlocksLines(WrittenBlocks(song, options, env))).blocks == ReadBacks(WrittenBlocks(song, options, env))
  {
    WriteErrorsClean(song, options, env);
    WriteTextRenders(song, options, env);
    var first := [SongBlock(song, options, env), SyncBlock(song, options), EventsBlock(song, options)];
    var g := GridBlocks(song, options, |INSTRUMENTS|);
    var u := UnrecognisedBlocks(song, options, |song.unrecognisedCharts|);
    FirstBlocksWritable(song, options, env);
    GridBlocksWritable(song, options, |INSTRUMENTS|);
    UnrecognisedBlocksWritable(song, options, |song.unrecognisedCharts|);
    WritableAppend(first, g);
    WritableAppend(first + g, u);
    RoundTripBlocks(WrittenBlocks(song, options, env));
  }

  // ================================================================ Write

  /** One difficulty of the chart loop of `Write`: the chart's string, and when it is empty
      and copy-down is on, the `while` loop that walks to harder difficulties. */
  method WriteSlot(song: SongData, options: ExportOptions, env: Env, i: Instrument, d: Difficulty)
    returns (text: string, errors: seq<string>)
    requires HasGrid(song) && i != Instrument.Unrecognised
    ensures text == SlotText(song, options, env, i, d)
    ensures errors == SlotErrors(song, options, env, i, d)
  {
    var c := ChartAt(song, i, d);
    var chartString;
    chartString, errors := ChartWriter.GetSaveString(ChartList(c.objects), ChartContext(song, options, i, c), env.fault);
    SaveTextEmpty(ChartList(c.objects), ChartContext(song, options, i, c), env.fault, |c.objects|);
    text := "";
    if chartString == "" {
      if !options.copyDownEmptyDifficulty {
        return;
      }
      var exit;
      chartString, errors, exit := CopyDown(song, options, env, i, d, errors);
      if exit {
        return;
      }
    }
    text := SectionText(ChartHeader(i, d), chartString);
  }

  /** The copy-down loop of an empty difficulty `d`: the harder difficulties are saved in turn
      until one is not empty; `exit` when Expert was reached empty. */
  method CopyDown(song: SongData, options: ExportOptions, env: Env, i: Instrument, d: Difficulty, errors0: seq<string>)
    returns (chartString: string, errors: seq<string>, exit: bool)
    requires HasGrid(song) && |ChartAt(song, i, d).objects| == 0
    ensures errors == errors0 + CopyDownErrors(song, env, i, d)
    ensures exit <==> FillFrom(song, i, d).None?
    ensures !exit ==> chartString == ChartString(song, options, env, i, ChartAt(song, i, FillFrom(song, i, d).value))
  {
    var chartDiff := d;
    exit := false;
    chartString := "";
    errors := errors0;
    while chartString == ""
      invariant !exit
      invariant chartString == "" ==>
        |ChartAt(song, i, chartDiff).objects| == 0 && FillFrom(song, i, chartDiff) == FillFrom(song, i, d)
        && errors + CopyDownErrors(song, env, i, chartDiff) == errors0 + CopyDownErrors(song, env, i, d)
      invariant chartString != "" ==>
        FillFrom(song, i, d) == Some(chartDiff) && errors == errors0 + CopyDownErrors(song, env, i, d)
        && chartString == ChartString(song, options, env, i, ChartAt(song, i, chartDiff))
      decreases DifficultyValue(chartDiff)
    {
      ghost var before := errors;
      ghost var from := chartDiff;
      var e;
      chartDiff, chartString, e, exit := CopyDownTurn(song, options, env, i, chartDiff);
      errors := errors + e;
      CopyDownErrorsStep(song, env, i, from);
      AssociateErrors(before, e, if chartString == "" && !exit then CopyDownErrors(song, env, i, chartDiff) else []);
      if exit {
        break;
      }
    }
  }

  /** One turn of the copy-down loop: the next harder difficulty (Expert stays and ends the
      loop) and its chart's save string. */
  method CopyDownTurn(song: SongData, options: ExportOptions, env: Env, i: Instrument, from: Difficulty)
    returns (next: Difficulty, chartString: string, errors: seq<string>, exit: bool)
    requires HasGrid(song)
    ensures exit <==> Harder(from).None?
    ensures next == if exit then from else Harder(from).value
    ensures chartString == ChartString(song, options, env, i, ChartAt(song, i, next))
    ensures chartString == "" <==> |ChartAt(song, i, next).objects| == 0
    ensures errors == ChartErrors(env, ChartAt(song, i, next))
  {
    next := from;
    exit := false;
    match from {
      case Easy => next := Medium;
      case Medium => next := Hard;
      case Hard => next := Expert;
      case Expert => exit := true;
    }
    var h := ChartAt(song, i, next);
    chartString, errors := ChartWriter.GetSaveString(ChartList(h.objects), ChartContext(song, options, i, h), env.fault);
    SaveTextEmpty(ChartList(h.objects), ChartContext(song, options, i, h), env.fault, |h.objects|);
  }

  lemma CopyDownErrorsStep(song: SongData, env: Env, i: Instrument, from: Difficulty)
    requires HasGrid(song)
    ensures var next := if Harder(from).None? then Expert else Harder(from).value;
      CopyDownErrors(song, env, i, from)
      == ChartErrors(env, ChartAt(song, i, next))
         + (if Harder(from).Some? && |ChartAt(song, i, next).objects| == 0 then CopyDownErrors(song, env, i, next) else [])
  {
  }

  lemma AssociateErrors(a: seq<string>, b: seq<string>, c: seq<string>)
    ensures (a + b) + c == a + (b + c)
  {
  }

  /** The difficulty loop of `Write` for one recognised instrument, Expert first. */
  method WriteInstrument(song: SongData, options: ExportOptions, env: Env, i: Instrument)
    returns (text: string, errors: seq<string>)
    requires HasGrid(song) && i != Instrument.Unrecognised
    ensures text == InstrumentText(song, options, env, i, DIFFICULTY_COUNT)
    ensures errors == InstrumentErrors(song, options, env, i, DIFFICULTY_COUNT)
  {
    text := "";
    errors := [];
    for n := 0 to DIFFICULTY_COUNT
      invariant text == InstrumentText(song, options, env, i, n)
      invariant errors == InstrumentErrors(song, options, env, i, n)
    {
      var t, e := WriteInstrumentEntry(song, options, env, i, n);
      text := text + t;
      errors := errors + e;
    }
  }

  /** One turn of the difficulty loop. */
  method WriteInstrumentEntry(song: SongData, options: ExportOptions, env: Env, i: Instrument, n: nat)
    returns (text: string, errors: seq<string>)
    requires HasGrid(song) && i != Instrument.Unrecognised && n < DIFFICULTY_COUNT
    ensures InstrumentText(song, options, env, i, n + 1) == InstrumentText(song, options, env, i, n) + text
    ensures InstrumentErrors(song, options, env, i, n + 1) == InstrumentErrors(song, options, env, i, n) + errors
  {
    text, errors := WriteSlot(song, options, env, i, DIFFICULTIES[n]);
  }

  /** The instrument loop of `Write`, in enum order; Unrecognised is passed over. */
  method WriteGrid(song: SongData, options: ExportOptions, env: Env) returns (text: string, errors: seq<string>)
    requires HasGrid(song)
    ensures text == GridText(song, options, env, |INSTRUMENTS|)
    ensures errors == GridErrors(song, options, env, |INSTRUMENTS|)
  {
    text := "";
    errors := [];
    for a := 0 to |INSTRUMENTS|
      invariant text == GridText(song, options, env, a)
      invariant errors == GridErrors(song, options, env, a)
    {
      var t, e := WriteGridEntry(song, options, env, a);
      text := text + t;
      errors := errors + e;
    }
  }

  /** One turn of the instrument loop: a recognised instrument writes its four charts. */
  method WriteGridEntry(song: SongData, options: ExportOptions, env: Env, a: nat) returns (text: string, errors: seq<string>)
    requires HasGrid(song) && a < |INSTRUMENTS|
    ensures GridText(song, options, env, a + 1) == GridText(song, options, env, a) + text
    ensures GridErrors(song, options, env, a + 1) == GridErrors(song, options, env, a) + errors
  {
    var instrument := INSTRUMENTS[a];
    if InstrumentSaveName(instrument).Some? {
      text, errors := WriteInstrument(song, options, env, instrument);
    } else {
      text, errors := "", [];
    }
  }

  /** The loop over the unrecognised charts: each is written, even when empty. */
  method WriteUnrecognised(song: SongData, options: ExportOptions, env: Env) returns (text: string, errors: seq<string>)
    ensures text == UnrecognisedText(song, options, env, |song.unrecognisedCharts|)
    ensures errors == UnrecognisedErrors(song, env, |song.unrecognisedCharts|)
  {
    text := "";
    errors := [];
    for u := 0 to |song.unrecognisedCharts|
      invariant text == UnrecognisedText(song, options, env, u)
      invariant errors == UnrecognisedErrors(song, env, u)
    {
      var c := song.unrecognisedCharts[u];
      var s, e := ChartWriter.GetSaveString(ChartList(c.objects), ChartContext(song, options, Instrument.Unrecognised, c), env.fault);
      assert SectionText("[" + c.name + "]", s) == UnrecognisedSection(song, options, env, c);
      text := text + SectionText("[" + c.name + "]", s);
      errors := errors + e;
    }
  }

  /** The `[Song]`, `[SyncTrack]` and `[Events]` blocks of `Write`. */
  method WriteGlobals(song: SongData, options: ExportOptions, env: Env) returns (text: string, errors: seq<string>)
    ensures text == SongText(song, options, env) + SyncText(song, options, env) + EventsText(song, options, env)
    ensures errors == SongErrors(env)
      + SaveErrors(SyncList(song.syncTrack), env.fault, |song.syncTrack|)
      + SaveErrors(EventList(song.events), env.fault, |song.events|)
  {
    errors := [];
    text := "";
    match env.songFault {
      case Some(what) =>
        errors := [SongError(what)];
      case None =>
        var b := SongBlock(song, options, env);
        text := SectionText(b.name, RenderLines(Indented(b.data)));
    }

    var prefix := "";
    if options.tickOffset > 0 {
      prefix := Tempo.GetSaveString(NewBpm()) + TimeSignatureSaveString(DEFAULT_TIME_SIGNATURE);
    }
    var sync, e := ChartWriter.GetSaveString(SyncList(song.syncTrack), GlobalContext(song, options), env.fault);
    text := text + SectionText("[SyncTrack]", prefix + sync);
    errors := errors + e;

    var events, e2 := ChartWriter.GetSaveString(EventList(song.events), GlobalContext(song, options), env.fault);
    text := text + SectionText("[Events]", events);
    errors := errors + e2;
  }

  /** `Write`: rebuilds the song's caches, then appends the `[Song]` block (dropped with an
      error when it throws), `[SyncTrack]` (after the default tempo and time signature when
      there is a tick offset), `[Events]`, the chart grid and the unrecognised charts. The
      error list is the rendering of the errors, each ended by LINE_ENDING. */
  method Write(song: Song, options: ExportOptions, env: Env) returns (text: string, errorList: string)
    requires song.Valid() && song.resolution > 0
    modifies song
    ensures song.CacheFresh() && song.Valid() && song.KeepsSettings()
    ensures song.syncTrack == old(song.syncTrack) && song.events == old(song.events)
    ensures song.charts == old(song.charts) && song.unrecognisedCharts == old(song.unrecognisedCharts)
    ensures HasGrid(old(DataOf(song)))
    ensures text == WriteText(old(DataOf(song)), options, env)
    ensures errorList == RenderLines(WriteErrors(old(DataOf(song)), options, env))
  {
    song.UpdateCache();
    var data := DataOf(song);
    assert data == old(DataOf(song));
    var globals, e1 := WriteGlobals(data, options, env);
    var grid, e2 := WriteGrid(data, options, env);
    var unrecognised, e3 := WriteUnrecognised(data, options, env);
    text := globals + grid + unrecognised;
    errorList := RenderLines(e1 + e2 + e3);
  }
}
