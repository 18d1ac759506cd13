/** `ChartWriter.cs`: the `.chart` text the writer produces. Every list becomes one block, and
    every object of a list becomes one or more indented data lines: its tick is rescaled to the
    target resolution and shifted, its note code comes from the inverse of the reader's tables,
    and a chord's flags are written once. Empty difficulties are skipped or filled from a harder
    one, and the objects that fail are reported in the error list. */
module ChartWriter {
  import opened Wrappers
  import opened Text
  import opened Notes
  import opened Tempo
  import opened SongObjects
  import opened Songs
  import opened ChartReader

  // ================================================================ block headers

  /** The instrument part of a chart header; `None` for an instrument the writer skips. */
  function InstrumentSaveName(i: Instrument): (r: Option<string>)
    ensures r.None? <==> i == Instrument.Unrecognised
  {
    match i
    case Guitar => Some("Single")
    case GuitarCoop => Some("DoubleGuitar")
    case Bass => Some("DoubleBass")
    case Rhythm => Some("DoubleRhythm")
    case Drums => Some("Drums")
    case Keys => Some("Keyboard")
    case GHLiveGuitar => Some("GHLGuitar")
    case GHLiveBass => Some("GHLBass")
    case Unrecognised => None
  }

  /** The writer's save names and the reader's are the same table, read in both directions. */
  lemma SaveNamesAgree(i: Instrument, name: string)
    ensures InstrumentSaveName(i) == Some(name) <==> InstrumentOfSaveName(name) == Some(i)
  {
  }

  /** `"[" + difficulty + instrument + "]"`. */
  function ChartHeader(i: Instrument, d: Difficulty): string
    requires i != Instrument.Unrecognised
  {
    "[" + DifficultyName(d) + InstrumentSaveName(i).value + "]"
  }

  /** A written chart header is dispatched by the reader to the slot it was written from. */
  lemma ChartHeaderDispatch(i: Instrument, d: Difficulty)
    requires i != Instrument.Unrecognised
    ensures HeaderTarget(ChartHeader(i, d)) == Some(ChartSlot(i, d))
  {
    var name := InstrumentSaveName(i).value;
    SaveNamesAgree(i, name);
    match d
    case Easy => DifficultyHeader(d, name, 5);
    case Medium => DifficultyHeader(d, name, 7);
    case Hard => DifficultyHeader(d, name, 5);
    case Expert => DifficultyHeader(d, name, 7);
  }

  /** The header of difficulty `d` (whose name ends at `offset`) and a save name. */
  lemma DifficultyHeader(d: Difficulty, name: string, offset: nat)
    requires InstrumentOfSaveName(name).Some? && offset == |DifficultyName(d)| + 1
    ensures HeaderTarget("[" + DifficultyName(d) + name + "]") == Some(ChartSlot(InstrumentOfSaveName(name).value, d))
  {
    var dn := DifficultyName(d);
    var h := "[" + dn + name + "]";
    assert |name| >= 5;
    HeaderSlices(dn, name);
    assert h[1] != 'S';
    assert SlotTarget(h, d, offset) == Some(ChartSlot(InstrumentOfSaveName(name).value, d));
    match d
    case Easy => assert h[1..5] == "Easy";
    case Medium => assert h[1..5][0] == 'M' && h[1..7] == "Medium";
    case Hard => assert h[1..5][0] == 'H' && h[1..7][0] == 'H' && h[1..5] == "Hard";
    case Expert => assert h[1..5][0] == 'E' && h[1..5][1] == 'x' && h[1..7][0] == 'E' && h[1..7] == "Expert";
  }

  /** The pieces of a bracketed header made of a difficulty name and a save name. */
  lemma HeaderSlices(dn: string, name: string)
    requires |dn| >= 4 && |name| >= 5
    ensures var h := "[" + dn + name + "]";
      |h| == |dn| + |name| + 2 && h[1] == dn[0] && h[1..5] == dn[..4]
      && h[1..5][0] == h[1..7][0] == dn[0] && h[1..5][1] == dn[1]
      && (|dn| == 4 ==> h[1..5] == dn) && (|dn| == 6 ==> h[1..7] == dn)
      && h[|dn| + 1..|h| - 1] == name
  {
  }

  // ================================================================ note numbers

  /** `GetStandardSaveNoteNumber`: the five frets as themselves and open as 7, since 5 and 6
      are the flag codes; any other value as 0. */
  function StandardSaveNumber(rawNote: int): int
  {
    if GREEN <= rawNote <= ORANGE then rawNote
    else if rawNote == OPEN then 7
    else 0
  }

  /** `GetDrumsSaveNoteNumber`: kick 0, then red, yellow, blue, orange, green as 1–5; any other
      value as 0. */
  function DrumSaveNumber(rawNote: int): int
  {
    if rawNote == DRUM_KICK then 0
    else if rawNote == DRUM_RED then 1
    else if rawNote == DRUM_YELLOW then 2
    else if rawNote == DRUM_BLUE then 3
    else if rawNote == DRUM_ORANGE then 4
    else if rawNote == DRUM_GREEN then 5
    else 0
  }

  /** `GetGHLSaveNoteNumber`: white 1–3 as 0–2, black 1–2 as 3–4, open as 7, black 3 as 8; any
      other value as 0. */
  function GHLSaveNumber(rawNote: int): int
  {
    if rawNote == GHL_WHITE_1 then 0
    else if rawNote == GHL_WHITE_2 then 1
    else if rawNote == GHL_WHITE_3 then 2
    else if rawNote == GHL_BLACK_1 then 3
    else if rawNote == GHL_BLACK_2 then 4
    else if rawNote == GHL_OPEN then 7
    else if rawNote == GHL_BLACK_3 then 8
    else 0
  }

  /** The code of a note in the chart of `instrument`: unrecognised charts keep the raw value. */
  function SaveNoteNumber(instrument: Instrument, rawNote: int): (code: int)
    ensures instrument != Instrument.Unrecognised ==> 0 <= code <= 8
  {
    if instrument == Instrument.Unrecognised then rawNote
    else if instrument == Instrument.Drums then DrumSaveNumber(rawNote)
    else if IsGHLInstrument(instrument) then GHLSaveNumber(rawNote)
    else StandardSaveNumber(rawNote)
  }

  /** The fret values a chart of `instrument` can hold: six in five-fret and drum charts, seven
      in GH Live charts, any in an unrecognised chart. */
  predicate IsFretOf(instrument: Instrument, rawNote: int)
  {
    if instrument == Instrument.Unrecognised then true
    else if IsGHLInstrument(instrument) then GHL_BLACK_1 <= rawNote <= GHL_OPEN
    else GREEN <= rawNote <= OPEN
  }

  /** The table the reader uses for a block written from a chart of `instrument`. */
  function ReadInstrument(instrument: Instrument): Instrument
  {
    if instrument == Instrument.Unrecognised then instrument else LoadInstrument(instrument)
  }

  /** The writer's tables invert the reader's: reading code `code` gives the fret `rawNote`
      exactly when `rawNote` is a fret of the chart and the writer saves it as `code`. */
  lemma SaveNumberRoundTrip(instrument: Instrument, rawNote: int, code: int)
    ensures NoteCodeFor(ReadInstrument(instrument), code) == Fret(rawNote)
        <==> IsFretOf(instrument, rawNote) && SaveNoteNumber(instrument, rawNote) == code
  {
  }

  /** A fret is never saved under a flag code of its chart's table. */
  lemma SavedFretIsNotAFlag(instrument: Instrument, rawNote: int)
    requires IsFretOf(instrument, rawNote)
    ensures !NoteCodeFor(ReadInstrument(instrument), SaveNoteNumber(instrument, rawNote)).FlagCode?
  {
    SaveNumberRoundTrip(instrument, rawNote, SaveNoteNumber(instrument, rawNote));
  }

  // ================================================================ ticks

  /** `Math.Round(n / d)` with .NET's default rounding: to the nearest integer, halves to the
      even neighbour. */
  function RoundHalfEven(n: int, d: nat): int
    requires d > 0
  {
    var q, m := n / d, n % d;
    if 2 * m < d then q
    else if 2 * m > d then q + 1
    else if q % 2 == 0 then q
    else q + 1
  }

  lemma MulMonotone(a: int, b: int, d: nat)
    requires a <= b
    ensures a * d <= b * d
  {
  }

  /** The rounded quotient is a nearest multiple, and a tie goes to the even one. */
  lemma RoundsToNearest(n: int, d: nat, k: int)
    requires d > 0
    ensures Distance(n, RoundHalfEven(n, d) * d) <= Distance(n, k * d)
    ensures 2 * Distance(n, RoundHalfEven(n, d) * d) == d ==> RoundHalfEven(n, d) % 2 == 0
  {
    var q, m := n / d, n % d;
    var r := RoundHalfEven(n, d);
    assert n == q * d + m;
    assert (q + 1) * d == q * d + d;
    assert Distance(n, q * d) == m;
    assert Distance(n, (q + 1) * d) == d - m;
    if k <= q {
      MulMonotone(k, q, d);
      assert Distance(n, k * d) >= m;
    } else {
      MulMonotone(q + 1, k, d);
      assert Distance(n, k * d) >= d - m;
    }
  }

  /** The ratio of the export: ticks per beat of the song and of the file written. */
  type Resolution = r: nat | r > 0 witness 1

  /** `Math.Round(x * target / resolution)`. The float ratio of `ResolutionScaleRatio` is taken
      exactly. */
  function Scale(x: int, resolution: Resolution, target: int): int
  {
    RoundHalfEven(x * target, resolution)
  }

  /** Exporting at the song's own resolution keeps every tick and length. */
  lemma ScaleIdentity(x: int, resolution: Resolution)
    ensures Scale(x, resolution, resolution) == x
  {
    var n := x * resolution;
    assert n / resolution == x && n % resolution == 0 by {
      LemmaDivMultiple(x, resolution);
    }
  }

  lemma LemmaDivMultiple(x: int, d: nat)
    requires d > 0
    ensures (x * d) / d == x && (x * d) % d == 0
  {
    var q, m := (x * d) / d, (x * d) % d;
    assert x * d == q * d + m;
    if q < x {
      MulMonotone(q + 1, x, d);
    } else if q > x {
      MulMonotone(x + 1, q, d);
    }
  }

  /** Scaling by a non-negative ratio keeps the order of ticks. */
  lemma ScaleMonotone(x: int, y: int, resolution: Resolution, target: nat)
    requires x <= y
    ensures Scale(x, resolution, target) <= Scale(y, resolution, target)
  {
    MulMonotone(x, y, target);
    RoundMonotone(x * target, y * target, resolution);
  }

  lemma RoundMonotone(a: int, b: int, d: nat)
    requires a <= b && d > 0
    ensures RoundHalfEven(a, d) <= RoundHalfEven(b, d)
  {
    var qa, qb := a / d, b / d;
    if qb < qa {
      assert a == qa * d + a % d && b == qb * d + b % d;
      MulMonotone(qb + 1, qa, d);
      assert false;
    } else if qa < qb {
      RoundBetween(a, d);
      RoundBetween(b, d);
    } else {
      assert a % d <= b % d by {
        assert a == qa * d + a % d && b == qa * d + b % d;
      }
    }
  }

  /** The rounded quotient is the floor quotient or one more. */
  lemma RoundBetween(n: int, d: nat)
    requires d > 0
    ensures n / d <= RoundHalfEven(n, d) <= n / d + 1
  {
  }

  /** The `(uint)` cast of the rounded `double` `Math.Round` returns. C# leaves the cast of a
      value outside the `uint` range unspecified; the model takes it modulo 2^32. */
  function CastUInt(x: int): (r: uint32)
    ensures 0 <= x < UINT_LIMIT ==> r == x
  {
    x % UINT_LIMIT
  }

  /** How `GetSaveString` places objects: the song's resolution, the export options, the
      instrument whose table codes the notes and the game mode open notes are judged in. */
  datatype Context = Context(resolution: Resolution, options: ExportOptions, instrument: Instrument, gameMode: GameMode)

  /** `(uint)Math.Round(position * ratio) + tickOffset`, in unchecked `uint` arithmetic. */
  function Tick(position: uint32, ctx: Context): uint32
  {
    (CastUInt(Scale(position, ctx.resolution, ctx.options.targetResolution)) + ctx.options.tickOffset) % UINT_LIMIT
  }

  /** `(uint)Math.Round(length * ratio)`: lengths are scaled but not shifted. */
  function ScaledLength(length: uint32, ctx: Context): uint32
  {
    CastUInt(Scale(length, ctx.resolution, ctx.options.targetResolution))
  }

  /** At the song's own resolution an object is written at its tick plus the offset (when that
      fits in a `uint`), and lengths are written unchanged. */
  lemma TickAtOwnResolution(position: uint32, length: uint32, ctx: Context)
    requires ctx.options.targetResolution == ctx.resolution
    requires position + ctx.options.tickOffset < UINT_LIMIT
    ensures Tick(position, ctx) == position + ctx.options.tickOffset
    ensures ScaledLength(length, ctx) == length
  {
    ScaleIdentity(position, ctx.resolution);
    ScaleIdentity(length, ctx.resolution);
  }

  /** Objects keep their order when written at a non-negative target resolution without an
      offset, as long as no scaled tick reaches 2^32. */
  lemma TicksKeepOrder(p: uint32, q: uint32, ctx: Context)
    requires p <= q && ctx.options.targetResolution >= 0 && ctx.options.tickOffset == 0
    requires Scale(q, ctx.resolution, ctx.options.targetResolution) < UINT_LIMIT
    ensures Tick(p, ctx) <= Tick(q, ctx)
  {
    ScaleMonotone(p, q, ctx.resolution, ctx.options.targetResolution);
    ScaleMonotone(0, p, ctx.resolution, ctx.options.targetResolution);
    assert Scale(0, ctx.resolution, ctx.options.targetResolution) == 0;
  }

  // ================================================================ object lines

  /** An element of a list `GetSaveString` is given: a sync object, an event or section, or a
      chart object. */
  datatype Saved = SyncSaved(sync: SyncObject) | EventSaved(event: GlobalEvent) | ChartSaved(item: ChartObject)
  {
    function Position(): uint32
    {
      match this
      case SyncSaved(o) => o.Position()
      case EventSaved(e) => e.position
      case ChartSaved(o) => o.Position()
    }
  }

  predicate IsNote(o: Saved)
  {
    o.ChartSaved? && o.item.NoteObject?
  }

  function SyncList(sync: seq<SyncObject>): (r: seq<Saved>)
    ensures |r| == |sync| && forall k :: 0 <= k < |r| ==> r[k] == SyncSaved(sync[k])
  {
    seq(|sync|, k requires 0 <= k < |sync| => SyncSaved(sync[k]))
  }

  function EventList(events: seq<GlobalEvent>): (r: seq<Saved>)
    ensures |r| == |events| && forall k :: 0 <= k < |r| ==> r[k] == EventSaved(events[k])
  {
    seq(|events|, k requires 0 <= k < |events| => EventSaved(events[k]))
  }

  function ChartList(objects: seq<ChartObject>): (r: seq<Saved>)
    ensures |r| == |objects| && forall k :: 0 <= k < |r| ==> r[k] == ChartSaved(objects[k])
  {
    seq(|objects|, k requires 0 <= k < |objects| => ChartSaved(objects[k]))
  }

  /** `note.next`: the index of the first note after index `i`, if there is one. */
  function NextNote(objs: seq<Saved>, i: nat): (r: Option<nat>)
    ensures r.Some? ==> i < r.value < |objs| && IsNote(objs[r.value])
    ensures forall j :: i < j < |objs| && (r.None? || j < r.value) ==> !IsNote(objs[j])
    decreases |objs| - i
  {
    if i + 1 >= |objs| then None
    else if IsNote(objs[i + 1]) then Some(i + 1)
    else NextNote(objs, i + 1)
  }

  /** The note at `i` is the last of its chord: no note follows it at the same tick. */
  predicate EndsChord(objs: seq<Saved>, i: nat)
    requires i < |objs| && IsNote(objs[i])
  {
    match NextNote(objs, i)
    case None => true
    case Some(j) => objs[j].item.note.position != objs[i].item.note.position
  }

  /** `(uint)Math.Log(d, 2)`: the exponent of a power of two, rounded down otherwise; 0 is
      written as 0. */
  function Log2(d: nat): nat
  {
    if d <= 1 then 0 else 1 + Log2(d / 2)
  }

  /** The exponent the writer prints is the one the reader raises 2 to. */
  lemma {:induction false} Log2OfPow2(k: nat)
    ensures Log2(Pow2(k)) == k
  {
    if k > 0 {
      Log2OfPow2(k - 1);
      assert Pow2(k) / 2 == Pow2(k - 1);
    }
  }

  /** The tick as the writer prints it. */
  function TickText(o: Saved, ctx: Context): string
  {
    NatToString(Tick(o.Position(), ctx))
  }

  /** What follows the tick on each data line of the object at `i`. A tempo writes its anchor
      line first when it has one; a note is followed by its chord's FORCED and TAP lines when it
      ends the chord and the `forced` option is on, and the TAP line is not written for an open
      note. */
  function ObjectBodies(objs: seq<Saved>, i: nat, ctx: Context): (bodies: seq<string>)
    requires i < |objs|
    ensures |bodies| > 0
  {
    match objs[i]
    case SyncSaved(o) => SyncBodies(o)
    case EventSaved(e) => [EventBody(e)]
    case ChartSaved(NoteObject(n)) => NoteBodies(n, ctx, ctx.options.forced && EndsChord(objs, i))
    case ChartSaved(o) => [ChartItemBody(o, ctx)]
  }

  /** A tempo writes its anchor in microseconds first when it has one, then its value; a time
      signature its numerator, and the exponent of its denominator unless that is 4. */
  function SyncBodies(o: SyncObject): (bodies: seq<string>)
    ensures |bodies| > 0
  {
    match o
    case BpmObject(b) =>
      (match b.anchor
       case Some(micros) => [AnchorBody(micros), TempoBody(b.value)]
       case None => [TempoBody(b.value)])
    case TimeSignatureObject(ts) => [TimeSignatureBody(ts)]
  }

  function TimeSignatureBody(ts: TimeSignature): string
  {
    if ts.denominator == 4 then " = TS " + NatToString(ts.numerator)
    else " = TS " + NatToString(ts.numerator) + " " + NatToString(Log2(ts.denominator))
  }

  /** The anchor, as an unchecked cast of its microseconds. */
  function AnchorBody(micros: nat): string
  {
    " = A " + NatToString(CastUInt(micros))
  }

  function TempoBody(value: uint32): string
  {
    " = B " + NatToString(value)
  }

  /** A section's title follows the word `section` inside the quotes. */
  function EventBody(e: GlobalEvent): string
  {
    match e
    case Section(_, title) => " = E \"section " + title + "\""
    case Event(_, title) => " = E \"" + title + "\""
  }

  /** A chart event is written unquoted, a starpower phrase with its scaled length. */
  function ChartItemBody(o: ChartObject, ctx: Context): string
    requires !o.NoteObject?
  {
    match o
    case ChartEvent(_, name) => " = E " + name
    case Starpower(_, length) => " = S 2 " + NatToString(ScaledLength(length, ctx))
  }

  /** A note's code and scaled sustain, then its chord's flag lines when `write` holds. */
  function NoteBodies(n: Note, ctx: Context, write: bool): (bodies: seq<string>)
    ensures |bodies| > 0
  {
    [NoteBody(n, ctx)]
    + (if write && n.flags.forced then [FORCED_BODY] else [])
    + (if write && !IsOpenNote(n, ctx.gameMode) && n.flags.tap then [TAP_BODY] else [])
  }

  /** The note line: the note's code in its chart's table and its scaled sustain. */
  function NoteBody(n: Note, ctx: Context): string
  {
    " = N " + IntToString(SaveNoteNumber(ctx.instrument, n.rawNote)) + " " + NatToString(ScaledLength(n.sustain, ctx))
  }

  /** The flag lines of a chord (with a trailing space). */
  const FORCED_BODY: string := " = N 5 0 "
  const TAP_BODY: string := " = N 6 0 "

  /** Lines that all start with the tick text `t`. */
  function AtTick(t: string, bodies: seq<string>): (lines: seq<string>)
    ensures |lines| == |bodies| && forall k :: 0 <= k < |bodies| ==> lines[k] == t + bodies[k]
  {
    seq(|bodies|, k requires 0 <= k < |bodies| => t + bodies[k])
  }

  /** The data lines (before indentation) written for the object at `i`. */
  function ObjectLines(objs: seq<Saved>, i: nat, ctx: Context): (lines: seq<string>)
    requires i < |objs|
    ensures |lines| > 0
  {
    AtTick(TickText(objs[i], ctx), ObjectBodies(objs, i, ctx))
  }

  /** The text an object that does not fail contributes: its lines, indented and ended. */
  function ObjectText(objs: seq<Saved>, i: nat, ctx: Context): string
    requires i < |objs|
  {
    RenderLines(Indented(ObjectLines(objs, i, ctx)))
  }

  /** Rendering indented lines one line at a time. */
  lemma RenderIndentedCons(a: string, rest: seq<string>)
    ensures RenderLines(Indented([a] + rest)) == TABSPACE + a + LINE_ENDING + RenderLines(Indented(rest))
  {
    var lines := Indented([a] + rest);
    assert lines[0] == TABSPACE + a;
    assert lines[1..] == Indented(rest);
  }

  /** What is appended after the first `<tab><tick>` for lines at tick `t`: the first body
      ended, then every further line indented, ticked and ended. */
  function TailText(t: string, bodies: seq<string>): string
    requires |bodies| > 0
  {
    bodies[0] + LINE_ENDING + RenderLines(Indented(AtTick(t, bodies[1..])))
  }

  lemma TailTextRenders(t: string, bodies: seq<string>)
    requires |bodies| > 0
    ensures TABSPACE + t + TailText(t, bodies) == RenderLines(Indented(AtTick(t, bodies)))
  {
    var rest := AtTick(t, bodies[1..]);
    assert AtTick(t, bodies) == [t + bodies[0]] + rest;
    RenderIndentedCons(t + bodies[0], rest);
  }

  /** The further lines of an object with two or three lines. */
  lemma RenderedRest(t: string, b: string, c: string)
    ensures RenderLines(Indented(AtTick(t, []))) == ""
    ensures RenderLines(Indented(AtTick(t, [b]))) == TABSPACE + t + b + LINE_ENDING
    ensures RenderLines(Indented(AtTick(t, [b, c]))) == (TABSPACE + t + b + LINE_ENDING) + (TABSPACE + t + c + LINE_ENDING)
  {
    assert AtTick(t, [b, c]) == [t + b] + AtTick(t, [c]);
    RenderIndentedCons(t + b, AtTick(t, [c]));
    assert AtTick(t, [c]) == [t + c] + AtTick(t, []);
    RenderIndentedCons(t + c, AtTick(t, []));
    assert AtTick(t, [b]) == [t + b] + AtTick(t, []);
    RenderIndentedCons(t + b, AtTick(t, []));
  }

  /** The `switch` of `GetSaveString`: what is appended after `<tab><tick>` for an object that
      does not fail. */
  method SaveObject(objs: seq<Saved>, i: nat, ctx: Context, t: string) returns (tail: string)
    requires i < |objs| && t == TickText(objs[i], ctx)
    ensures TABSPACE + t + tail == ObjectText(objs, i, ctx)
  {
    match objs[i] {
      case SyncSaved(BpmObject(b)) =>
        tail := SaveBpm(b, t);
      case SyncSaved(TimeSignatureObject(ts)) =>
        tail := " = TS " + NatToString(ts.numerator);
        if ts.denominator != 4 {
          tail := tail + " " + NatToString(Log2(ts.denominator));
        }
        tail := tail + LINE_ENDING;
        RenderedRest(t, "", "");
      case EventSaved(e) =>
        tail := SaveEvent(e, t);
      case ChartSaved(NoteObject(n)) =>
        tail := SaveNote(n, t, ctx, ctx.options.forced && EndsChord(objs, i));
      case ChartSaved(o) =>
        tail := SaveChartItem(o, t, ctx);
    }
    TailTextRenders(t, ObjectBodies(objs, i, ctx));
  }

  /** The section and event cases. */
  method SaveEvent(e: GlobalEvent, t: string) returns (tail: string)
    ensures tail == TailText(t, [EventBody(e)])
  {
    match e
    case Section(_, title) =>
      tail := " = E \"section " + title + "\"" + LINE_ENDING;
    case Event(_, title) =>
      tail := " = E \"" + title + "\"" + LINE_ENDING;
    RenderedRest(t, "", "");
  }

  /** The chart event and starpower cases. */
  method SaveChartItem(o: ChartObject, t: string, ctx: Context) returns (tail: string)
    requires !o.NoteObject?
    ensures tail == TailText(t, [ChartItemBody(o, ctx)])
  {
    match o
    case ChartEvent(_, name) =>
      tail := " = E " + name + LINE_ENDING;
    case Starpower(_, length) =>
      tail := " = S 2 " + NatToString(ScaledLength(length, ctx)) + LINE_ENDING;
    RenderedRest(t, "", "");
  }

  /** The tempo case: an anchored tempo writes its anchor line and starts a second line at the
      same tick. */
  method SaveBpm(b: Bpm, t: string) returns (tail: string)
    ensures tail == TailText(t, SyncBodies(BpmObject(b)))
  {
    tail := "";
    if b.anchor.Some? {
      tail := tail + " = A " + NatToString(CastUInt(b.anchor.value));
      tail := tail + LINE_ENDING;
      tail := tail + TABSPACE + t;
    }
    tail := tail + " = B " + NatToString(b.value);
    tail := tail + LINE_ENDING;
    RenderedRest(t, " = B " + NatToString(b.value), "");
  }

  /** The note case: the note line, then the chord's flag lines when `write` holds. */
  method SaveNote(n: Note, t: string, ctx: Context, write: bool) returns (tail: string)
    ensures tail == TailText(t, NoteBodies(n, ctx, write))
  {
    var fretNumber := SaveNoteNumber(ctx.instrument, n.rawNote);
    var first := " = N " + IntToString(fretNumber) + " " + NatToString(ScaledLength(n.sustain, ctx));
    assert first == NoteBody(n, ctx);
    var tapped := !IsOpenNote(n, ctx.gameMode) && n.flags.tap;
    var flagLines := "";
    if write {
      if n.flags.forced {
        flagLines := flagLines + (TABSPACE + t + FORCED_BODY + LINE_ENDING);
      }
      if tapped {
        flagLines := flagLines + (TABSPACE + t + TAP_BODY + LINE_ENDING);
      }
    }
    tail := first + LINE_ENDING + flagLines;
    ghost var bodies := NoteBodies(n, ctx, write);
    assert bodies[0] == first;
    if write && n.flags.forced && tapped {
      assert bodies[1..] == [FORCED_BODY, TAP_BODY];
      assert flagLines == (TABSPACE + t + FORCED_BODY + LINE_ENDING) + (TABSPACE + t + TAP_BODY + LINE_ENDING);
      RenderedRest(t, FORCED_BODY, TAP_BODY);
    } else if write && n.flags.forced {
      assert bodies[1..] == [FORCED_BODY];
      assert flagLines == TABSPACE + t + FORCED_BODY + LINE_ENDING;
      RenderedRest(t, FORCED_BODY, "");
    } else if write && tapped {
      assert bodies[1..] == [TAP_BODY];
      assert flagLines == TABSPACE + t + TAP_BODY + LINE_ENDING;
      RenderedRest(t, TAP_BODY, "");
    } else {
      assert bodies[1..] == [];
      RenderedRest(t, "", "");
    }
  }

  // ================================================================ GetSaveString

  /** The error-list entry of the object at index `i` whose `switch` threw; `what` stands for
      the object's description and the exception's message. */
  function ErrorLine(i: nat, what: string): string
  {
    "Error with saving object #" + NatToString(i) + " as " + what
  }

  /** The text `GetSaveString` builds from the first `n` objects. Every object starts with
      `<tab><tick>`; `fault` gives the error of an object whose `switch` throws, and such an
      object adds nothing more, while every other object adds the rest of its lines. */
  function SaveText(objs: seq<Saved>, ctx: Context, fault: Saved -> Option<string>, n: nat): string
    requires n <= |objs|
  {
    Concat(SavedTexts(objs, ctx, fault), n)
  }

  /** What each object adds to the text, in list order. */
  function SavedTexts(objs: seq<Saved>, ctx: Context, fault: Saved -> Option<string>): (texts: seq<string>)
    ensures |texts| == |objs|
  {
    seq(|objs|, i requires 0 <= i < |objs| =>
      if fault(objs[i]).Some? then TABSPACE + TickText(objs[i], ctx) else ObjectText(objs, i, ctx))
  }

  /** The first `n` texts, one after the other. */
  function Concat(texts: seq<string>, n: nat): string
    requires n <= |texts|
  {
    if n == 0 then "" else Concat(texts, n - 1) + texts[n - 1]
  }

  /** The error-list entries of the first `n` objects: one per object that threw, in order. */
  function SaveErrors(objs: seq<Saved>, fault: Saved -> Option<string>, n: nat): seq<string>
    requires n <= |objs|
  {
    if n == 0 then []
    else
      SaveErrors(objs, fault, n - 1)
      + (match fault(objs[n - 1]) case Some(what) => [ErrorLine(n - 1, what)] case None => [])
  }

  /** The data lines of the first `n` objects. */
  function SavedLines(objs: seq<Saved>, ctx: Context, n: nat): seq<string>
    requires n <= |objs|
  {
    Flatten(ObjectGroups(objs, ctx), n)
  }

  /** Each object's data lines, in list order. */
  function ObjectGroups(objs: seq<Saved>, ctx: Context): (groups: seq<seq<string>>)
    ensures |groups| == |objs|
  {
    seq(|objs|, i requires 0 <= i < |objs| => ObjectLines(objs, i, ctx))
  }

  /** The first `n` groups of lines, one after the other. */
  function Flatten(groups: seq<seq<string>>, n: nat): seq<string>
    requires n <= |groups|
  {
    if n == 0 then [] else Flatten(groups, n - 1) + groups[n - 1]
  }

  /** `GetSaveString<T>`: the objects' lines in list order; an object whose `switch` throws is
      reported and the objects after it are still written. */
  method GetSaveString(objs: seq<Saved>, ctx: Context, fault: Saved -> Option<string>) returns (text: string, errors: seq<string>)
    ensures text == SaveText(objs, ctx, fault, |objs|)
    ensures errors == SaveErrors(objs, fault, |objs|)
  {
    text := "";
    errors := [];
    for i := 0 to |objs|
      invariant text == SaveText(objs, ctx, fault, i)
      invariant errors == SaveErrors(objs, fault, i)
    {
      var tick := Tick(objs[i].Position(), ctx);
      var t := NatToString(tick);
      ghost var before := text;
      ghost var piece := TABSPACE + t;
      text := text + (TABSPACE + t);
      match fault(objs[i]) {
        case Some(what) =>
          errors := errors + [ErrorLine(i, what)];
        case None =>
          var tail := SaveObject(objs, i, ctx, t);
          text := text + tail;
          Associate(before, TABSPACE + t, tail);
          piece := TABSPACE + t + tail;
      }
      SaveTextStep(objs, ctx, fault, i, before, piece);
    }
  }

  /** The text of the first `i + 1` objects: that of the first `i` and what object `i` adds. */
  lemma SaveTextStep(objs: seq<Saved>, ctx: Context, fault: Saved -> Option<string>, i: nat, before: string, piece: string)
    requires i < |objs| && before == SaveText(objs, ctx, fault, i)
    requires piece == if fault(objs[i]).Some? then TABSPACE + TickText(objs[i], ctx) else ObjectText(objs, i, ctx)
    ensures SaveText(objs, ctx, fault, i + 1) == before + piece
  {
  }

  lemma Associate(a: string, b: string, c: string)
    ensures (a + b) + c == a + (b + c)
  {
  }

  lemma {:induction false} RenderAppend(a: seq<string>, b: seq<string>)
    ensures RenderLines(a + b) == RenderLines(a) + RenderLines(b)
    decreases |a|
  {
    if |a| > 0 {
      assert (a + b)[0] == a[0] && (a + b)[1..] == a[1..] + b;
      RenderAppend(a[1..], b);
    } else {
      assert a + b == b;
    }
  }

  lemma IndentedAppend(a: seq<string>, b: seq<string>)
    ensures Indented(a + b) == Indented(a) + Indented(b)
  {
  }

  /** Without failures the text is exactly the indented data lines of all objects, each ended. */
  lemma SaveTextWithoutFaults(objs: seq<Saved>, ctx: Context, fault: Saved -> Option<string>, n: nat)
    requires n <= |objs|
    requires forall k :: 0 <= k < n ==> fault(objs[k]).None?
    ensures SaveText(objs, ctx, fault, n) == RenderLines(Indented(SavedLines(objs, ctx, n)))
  {
    var texts, groups := SavedTexts(objs, ctx, fault), ObjectGroups(objs, ctx);
    forall k | 0 <= k < n
      ensures texts[k] == RenderLines(Indented(groups[k]))
    {
      assert fault(objs[k]).None?;
    }
    ConcatRendered(texts, groups, n);
  }

  /** Texts that each render a group of lines join into the rendering of all the groups. */
  lemma {:induction false} ConcatRendered(texts: seq<string>, groups: seq<seq<string>>, n: nat)
    requires n <= |texts| && n <= |groups|
    requires forall k :: 0 <= k < n ==> texts[k] == RenderLines(Indented(groups[k]))
    ensures Concat(texts, n) == RenderLines(Indented(Flatten(groups, n)))
  {
    if n > 0 {
      ConcatRendered(texts, groups, n - 1);
      RenderIndentedAppend(Flatten(groups, n - 1), groups[n - 1]);
    }
  }

  /** Rendering two runs of indented lines one after the other renders their join. */
  lemma RenderIndentedAppend(a: seq<string>, b: seq<string>)
    ensures RenderLines(Indented(a)) + RenderLines(Indented(b)) == RenderLines(Indented(a + b))
  {
    IndentedAppend(a, b);
    RenderAppend(Indented(a), Indented(b));
  }

  /** A list writes no text exactly when it is empty: every object, failed or not, leaves at
      least its tick. */
  lemma {:induction false} SaveTextEmpty(objs: seq<Saved>, ctx: Context, fault: Saved -> Option<string>, n: nat)
    requires n <= |objs|
    ensures SaveText(objs, ctx, fault, n) == "" <==> n == 0
  {
    if n > 0 {
      var lines := Indented(ObjectLines(objs, n - 1, ctx));
      assert |RenderLines(lines)| > 0 by {
        assert RenderLines(lines) == lines[0] + LINE_ENDING + RenderLines(lines[1..]);
      }
    }
  }

  /** The error list is empty exactly when no object threw, and each entry names a failed
      object by its index. */
  lemma {:induction false} SaveErrorsMeaning(objs: seq<Saved>, fault: Saved -> Option<string>, n: nat)
    requires n <= |objs|
    ensures SaveErrors(objs, fault, n) == [] <==> forall k :: 0 <= k < n ==> fault(objs[k]).None?
    ensures |SaveErrors(objs, fault, n)| <= n
    ensures forall e :: e in SaveErrors(objs, fault, n) ==>
      exists k :: 0 <= k < n && fault(objs[k]).Some? && e == ErrorLine(k, fault(objs[k]).value)
    decreases n
  {
    if n > 0 {
      SaveErrorsMeaning(objs, fault, n - 1);
    }
  }
}
