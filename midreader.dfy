/** `MidReader`: the `.mid` decoder's chart logic. A track arrives as its list of timed MIDI
    events (the MIDI file parser itself is not part of this model). `ReadNotes` loads notes,
    star power and chart events into the instrument's four charts, buffers the forcing notes and
    the sysex events, and then applies the tap and open-note sysex sections and the forcing
    notes to the loaded notes; `ReadSongGlobalEvents` turns the events track into sections and
    events. */
module MidReader {
  import opened Wrappers
  import opened Text
  import opened Notes
  import opened SongObjects
  import opened Songs
  import ChartReader
  import ChartWriter

  // ================================================================ events

  /** A MIDI note number. */
  type MidiNote = n: int | 0 <= n < 128

  /** The events of a track the reader looks at, with their absolute times. A note-on carries
      the time of its matching note-off, when the parser found one. */
  datatype MidiEvent =
    | TextEvent(time: nat, text: string)
    | NoteOn(time: nat, number: MidiNote, offTime: Option<nat>)
    | SysexEvent(time: nat, data: seq<bv8>)
    | OtherEvent(time: nat)

  // ================================================================ note numbers

  /** The first note number of a difficulty's band of twelve on five-fret and drum tracks. */
  function BandStart(d: Difficulty): nat
  {
    96 - 12 * DifficultyValue(d)
  }

  /** `SelectNoteDifficulty`: 60–66 Easy, 72–78 Medium, 84–90 Hard, 96–102 Expert; any other
      number throws, which the callers catch to skip the note (`None`). */
  function SelectNoteDifficulty(n: int): Option<Difficulty>
  {
    if 60 <= n <= 66 then Some(Easy)
    else if 72 <= n <= 78 then Some(Medium)
    else if 84 <= n <= 90 then Some(Hard)
    else if 96 <= n <= 102 then Some(Expert)
    else None
  }

  /** A number selects a difficulty exactly when it is one of the first seven of that
      difficulty's band. */
  lemma SelectNoteDifficultyBands(n: int, d: Difficulty)
    ensures SelectNoteDifficulty(n) == Some(d) <==> BandStart(d) <= n <= BandStart(d) + 6
  {
  }

  /** The first note number of a difficulty's band on GH Live tracks. */
  function GhlBandStart(d: Difficulty): nat
  {
    94 - 12 * DifficultyValue(d)
  }

  /** `SelectGHLNoteDifficulty`: 94 and up Expert, 82 Hard, 70 Medium, anything lower Easy. */
  function SelectGHLNoteDifficulty(n: int): Difficulty
  {
    if n >= 94 then Expert
    else if n >= 82 then Hard
    else if n >= 70 then Medium
    else Easy
  }

  /** Every GH Live number selects a difficulty; the bands are twelve wide, open below Easy and
      above Expert. */
  lemma SelectGHLNoteDifficultyBands(n: int, d: Difficulty)
    ensures SelectGHLNoteDifficulty(n) == d <==>
      (d == Easy || GhlBandStart(d) <= n) && (d == Expert || n < GhlBandStart(d) + 12)
  {
  }

  /** Higher note numbers never select an easier GH Live difficulty. */
  lemma SelectGHLNoteDifficultyMonotone(m: int, n: int)
    requires m <= n
    ensures DifficultyValue(SelectGHLNoteDifficulty(n)) <= DifficultyValue(SelectGHLNoteDifficulty(m))
  {
  }

  /** The numbers of the forcing notes the load loop buffers on every track but drums. */
  predicate IsForcingNumber(n: int)
  {
    n == 65 || n == 66 || n == 77 || n == 78 || n == 89 || n == 90 || n == 101 || n == 102
  }

  /** The forcing numbers are lanes 5 and 6 of the five-fret bands and lanes 7 and 8 of the GH
      Live bands, and both difficulty selections agree on them; so the forcing pass, which always
      uses `SelectNoteDifficulty`, applies a GH Live forcing note to the difficulty it was read
      in, and its own `catch` never fires. */
  lemma ForcingNumbers(n: int)
    ensures IsForcingNumber(n) <==> exists d: Difficulty :: n == BandStart(d) + 5 || n == BandStart(d) + 6
    ensures IsForcingNumber(n) <==> exists d: Difficulty :: n == GhlBandStart(d) + 7 || n == GhlBandStart(d) + 8
    ensures IsForcingNumber(n) ==> SelectNoteDifficulty(n) == Some(SelectGHLNoteDifficulty(n))
  {
    if IsForcingNumber(n) {
      var d := SelectGHLNoteDifficulty(n);
      assert n == BandStart(d) + 5 || n == BandStart(d) + 6;
      assert n == GhlBandStart(d) + 7 || n == GhlBandStart(d) + 8;
    }
  }

  /** Odd forcing numbers (lane 5) force HOPOs, even ones (lane 6) force strums. */
  lemma ForcingParity(d: Difficulty)
    ensures (BandStart(d) + 5) % 2 == 1 && (BandStart(d) + 6) % 2 == 0
  {
  }

  // ================================================================ fret tables

  /** `GetStandardFretType`: lanes 0–4 of a band are green to orange; anything else green. */
  function StandardFret(n: MidiNote): int
  {
    var lane := n % 12;
    if lane == 0 then GREEN
    else if lane == 1 then RED
    else if lane == 2 then YELLOW
    else if lane == 3 then BLUE
    else if lane == 4 then ORANGE
    else GREEN
  }

  /** `GetDrumFretType`: lane 0 the kick, 1–5 red, yellow, blue, orange, green; anything else
      red. */
  function DrumFret(n: MidiNote): int
  {
    var lane := n % 12;
    if lane == 0 then DRUM_KICK
    else if lane == 1 then DRUM_RED
    else if lane == 2 then DRUM_YELLOW
    else if lane == 3 then DRUM_BLUE
    else if lane == 4 then DRUM_ORANGE
    else if lane == 5 then DRUM_GREEN
    else DRUM_RED
  }

  /** `GetGHLFretType`: counted from two below the band, lane 0 open, 1–3 white, 4–6 black;
      anything else black 1. */
  function GHLFret(n: MidiNote): int
  {
    var lane := (n + 2) % 12;
    if lane == 0 then GHL_OPEN
    else if lane == 1 then GHL_WHITE_1
    else if lane == 2 then GHL_WHITE_2
    else if lane == 3 then GHL_WHITE_3
    else if lane == 4 then GHL_BLACK_1
    else if lane == 5 then GHL_BLACK_2
    else if lane == 6 then GHL_BLACK_3
    else GHL_BLACK_1
  }

  /** A five-fret MIDI lane 0–4 gives the fret the same code gives in a `.chart` block. */
  lemma StandardLanesMatchChartCodes(d: Difficulty, lane: nat)
    requires lane <= 4
    ensures ChartReader.StandardNoteCode(lane) == ChartReader.Fret(StandardFret(BandStart(d) + lane))
  {
  }

  /** A drum MIDI lane 0–5 gives the drum the same code gives in a `.chart` block. */
  lemma DrumLanesMatchChartCodes(d: Difficulty, lane: nat)
    requires lane <= 5
    ensures ChartReader.DrumNoteCode(lane) == ChartReader.Fret(DrumFret(BandStart(d) + lane))
  {
  }

  /** The GH Live lanes 1–5 after the open lane give the frets of `.chart` codes 0–4; the open
      lane is code 7 and the last black lane code 8. */
  lemma GHLLanesMatchChartCodes(d: Difficulty, lane: nat)
    requires lane <= 4
    ensures ChartReader.GHLNoteCode(lane) == ChartReader.Fret(GHLFret(GhlBandStart(d) + 1 + lane))
    ensures ChartReader.GHLNoteCode(7) == ChartReader.Fret(GHLFret(GhlBandStart(d)))
    ensures ChartReader.GHLNoteCode(8) == ChartReader.Fret(GHLFret(GhlBandStart(d) + 6))
  {
  }

  /** The fret a note number gives on a track of `instrument`. */
  function FretFor(instrument: Instrument, n: MidiNote): int
  {
    if instrument == Instrument.Drums then DrumFret(n)
    else if ChartReader.IsGHLInstrument(instrument) then GHLFret(n)
    else StandardFret(n)
  }

  /** The frets of an instrument's game mode: six drums, seven GH Live frets, five frets. */
  predicate ValidFret(instrument: Instrument, f: int)
  {
    if instrument == Instrument.Drums then GREEN <= f <= OPEN
    else if ChartReader.IsGHLInstrument(instrument) then GHL_BLACK_1 <= f <= GHL_OPEN
    else GREEN <= f <= ORANGE
  }

  /** The tables give exactly the valid frets of the instrument's game mode: every note number
      gives one, and every one of them is given by some note number. (Five-fret tracks never
      produce an open note.) */
  lemma FretTablesAreOnto(instrument: Instrument, f: int)
    requires instrument != Instrument.Unrecognised
    ensures (exists n: MidiNote :: FretFor(instrument, n) == f) <==> ValidFret(instrument, f)
  {
    if instrument == Instrument.Drums {
      if GREEN <= f <= OPEN {
        var n: MidiNote := if f == OPEN then 96 else 97 + f;
        assert FretFor(instrument, n) == f;
      }
    } else if ChartReader.IsGHLInstrument(instrument) {
      if GHL_BLACK_1 <= f <= GHL_OPEN {
        var n: MidiNote := [98, 99, 100, 95, 96, 97, 94][f];
        assert FretFor(instrument, n) == f;
      }
    } else if GREEN <= f <= ORANGE {
      var n: MidiNote := 96 + f;
      assert FretFor(instrument, n) == f;
    }
  }

  // ================================================================ the load loop

  /** A forcing note the load loop buffers: its time, number and the time of its note-off. */
  datatype Forcing = Forcing(time: nat, number: MidiNote, offTime: nat)

  /** A sysex event the load loop buffers. */
  datatype Sysex = Sysex(time: nat, data: seq<bv8>)

  /** The state of the load loop: the charts it writes to (the instrument's four, indexed by
      difficulty value, or the one unrecognised chart) and the events it buffers. */
  datatype Loading = Loading(charts: seq<Chart>, forcing: seq<Forcing>, sysex: seq<Sysex>)

  /** What the load loop does with one event: add an object to some of the charts, name the
      unrecognised chart, buffer the event, or nothing. */
  datatype Action =
    | AddObjects(slots: set<nat>, o: ChartObject)
    | NameChart(name: string)
    | BufferForcing(f: Forcing)
    | BufferSysex(x: Sysex)
    | Ignore

  /** `(int)(64 * resolution / 192)`: sustains up to this length are cut to 0. */
  function SustainCutoff(resolution: nat): nat
  {
    64 * resolution / STANDARD_BEAT_RESOLUTION
  }

  /** The difficulty a note number is read in: the GH Live bands on GH Live tracks, the
      five-fret bands otherwise (`None` where that throws). */
  function NoteDifficulty(instrument: Instrument, n: MidiNote): Option<Difficulty>
  {
    if ChartReader.IsGHLInstrument(instrument) then Some(SelectGHLNoteDifficulty(n))
    else SelectNoteDifficulty(n)
  }

  /** One turn of the load loop of `ReadNotes`. The first event's text names the track and is
      not an event; later text events become chart events of the unrecognised chart or of the
      Expert chart. A note-on without a note-off is ignored. On an unrecognised track every
      note keeps its number as its raw value and its full sustain. Otherwise 116 is star power
      on all four difficulties, a number outside every band is skipped, the forcing numbers are
      buffered (except on drums), and every other note gets the fret of its lane, with sustains
      up to the cutoff removed. Sysex events are buffered. */
  function ActionOf(e: MidiEvent, first: bool, instrument: Instrument, cutoff: nat): (a: Action)
    ensures a.AddObjects? ==> forall c :: c in a.slots ==> c < DIFFICULTY_COUNT
  {
    match e
    case TextEvent(t, text) =>
      if first then (if instrument == Instrument.Unrecognised then NameChart(text) else Ignore)
      else AddObjects({0}, ChartEvent(ChartWriter.CastUInt(t), TrimChars(text, {'[', ']'})))
    case NoteOn(t, n, off) =>
      if off.None? then Ignore
      else
        var tick := ChartWriter.CastUInt(t);
        var sus := ChartWriter.CastUInt(off.value - tick);
        if instrument == Instrument.Unrecognised then AddObjects({0}, NoteObject(Note(tick, n, sus, NONE)))
        else if n == 116 then AddObjects({0, 1, 2, 3}, Starpower(tick, sus))
        else
          (match NoteDifficulty(instrument, n)
           case None => Ignore
           case Some(d) =>
             if instrument != Instrument.Drums && IsForcingNumber(n) then BufferForcing(Forcing(t, n, off.value))
             else
               var length: uint32 := if sus <= cutoff then 0 else sus;
               AddObjects({DifficultyValue(d)}, NoteObject(Note(tick, FretFor(instrument, n), length, NONE))))
    case SysexEvent(t, data) => BufferSysex(Sysex(t, data))
    case OtherEvent(_) => Ignore
  }

  /** What the loop does with each event of the track. */
  function Actions(track: seq<MidiEvent>, instrument: Instrument, cutoff: nat): (r: seq<Action>)
    ensures |r| == |track|
    ensures forall k :: 0 <= k < |track| ==> r[k] == ActionOf(track[k], k == 0, instrument, cutoff)
  {
    seq(|track|, k requires 0 <= k < |track| => ActionOf(track[k], k == 0, instrument, cutoff))
  }

  /** The effect of one action on the loop's state. */
  function Perform(st: Loading, a: Action): (r: Loading)
    requires |st.charts| > 0
    ensures |r.charts| == |st.charts|
  {
    match a
    case AddObjects(slots, o) =>
      st.(charts := seq(|st.charts|, c requires 0 <= c < |st.charts| =>
        if c in slots then ChartAdd(st.charts[c], o) else st.charts[c]))
    case NameChart(name) => st.(charts := st.charts[0 := st.charts[0].(name := name)])
    case BufferForcing(f) => st.(forcing := st.forcing + [f])
    case BufferSysex(x) => st.(sysex := st.sysex + [x])
    case Ignore => st
  }

  /** The loop's state after the first `n` actions. */
  function Performed(init: seq<Chart>, acts: seq<Action>, n: nat): (r: Loading)
    requires n <= |acts| && |init| > 0
    ensures |r.charts| == |init|
  {
    if n == 0 then Loading(init, [], [])
    else Perform(Performed(init, acts, n - 1), acts[n - 1])
  }

  /** The load loop of `ReadNotes` over the whole track. */
  method LoadNotes(init: seq<Chart>, track: seq<MidiEvent>, instrument: Instrument, cutoff: nat) returns (st: Loading)
    requires |init| > 0
    ensures st == Performed(init, Actions(track, instrument, cutoff), |track|)
  {
    st := PerformAll(init, Actions(track, instrument, cutoff));
  }

  /** The loop of `LoadNotes`, over the actions of the events in turn. */
  method PerformAll(init: seq<Chart>, acts: seq<Action>) returns (st: Loading)
    requires |init| > 0
    ensures st == Performed(init, acts, |acts|)
  {
    st := Loading(init, [], []);
    var i := 0;
    while i < |acts|
      invariant i <= |acts|
      invariant st == Performed(init, acts, i)
    {
      st := Perform(st, acts[i]);
      i := i + 1;
    }
  }

  // ---------------------------------------------------------------- what loading keeps

  /** A chart holds `o`: an object with its key (the very object, for chart events). */
  predicate Holds(c: Chart, o: ChartObject)
  {
    exists y :: y in c.objects && ChartKey(y) == ChartKey(o) && (o.ChartEvent? ==> y == o)
  }

  /** Adding an object never loses what a chart holds, and the chart then holds the new one. */
  lemma AddKeepsHolds(c: Chart, x: ChartObject, o: ChartObject)
    ensures Holds(ChartAdd(c, x), x)
    ensures Holds(c, o) ==> Holds(ChartAdd(c, x), o)
  {
    var r := ChartAdd(c, x);
    assert x in r.objects;
    if Holds(c, o) {
      var y :| y in c.objects && ChartKey(y) == ChartKey(o) && (o.ChartEvent? ==> y == o);
      if y !in r.objects {
        assert SameChartObject(y, x);
        assert x in r.objects && ChartKey(x) == ChartKey(o);
      }
    }
  }

  /** Every object the loop adds stays in its charts to the end, unless a later object with the
      same key took its place (a note on the same tick and fret, star power on the same tick). */
  lemma {:induction false} PerformedHoldsAdded(init: seq<Chart>, acts: seq<Action>, n: nat, k: nat)
    requires n <= |acts| && |init| > 0 && k < n && acts[k].AddObjects?
    ensures forall c :: 0 <= c < |init| && c in acts[k].slots ==> Holds(Performed(init, acts, n).charts[c], acts[k].o)
  {
    var before := Performed(init, acts, n - 1);
    var b := acts[n - 1];
    if k < n - 1 {
      PerformedHoldsAdded(init, acts, n - 1, k);
    }
    forall c | 0 <= c < |init| && c in acts[k].slots
      ensures Holds(Performed(init, acts, n).charts[c], acts[k].o)
    {
      if b.AddObjects? && c in b.slots {
        AddKeepsHolds(before.charts[c], b.o, acts[k].o);
      }
    }
  }

  /** The buffered forcing notes and sysex events are those of the actions, in order. */
  lemma {:induction false} PerformedBuffers(init: seq<Chart>, acts: seq<Action>, n: nat)
    requires n <= |acts| && |init| > 0
    ensures var r := Performed(init, acts, n);
      && (forall f :: f in r.forcing <==> exists k :: 0 <= k < n && acts[k] == BufferForcing(f))
      && (forall x :: x in r.sysex <==> exists k :: 0 <= k < n && acts[k] == BufferSysex(x))
  {
    if n > 0 {
      PerformedBuffers(init, acts, n - 1);
    }
  }

  /** Only the forcing numbers are buffered, never on drum or unrecognised tracks, and each of
      them selects a difficulty. */
  lemma ForcingActions(e: MidiEvent, first: bool, instrument: Instrument, cutoff: nat)
    requires ActionOf(e, first, instrument, cutoff).BufferForcing?
    ensures var f := ActionOf(e, first, instrument, cutoff).f;
      && instrument != Instrument.Drums && instrument != Instrument.Unrecognised
      && IsForcingNumber(f.number) && SelectNoteDifficulty(f.number).Some?
      && e == NoteOn(f.time, f.number, Some(f.offTime))
  {
    ForcingNumbers(e.number);
  }

  /** The loop buffers exactly the forcing notes of tracks with forcing lanes: each buffered note
      has a forcing number and a difficulty, and drum and unrecognised tracks buffer none. */
  lemma LoadedForcing(init: seq<Chart>, track: seq<MidiEvent>, instrument: Instrument, cutoff: nat)
    requires |init| > 0
    ensures var r := Performed(init, Actions(track, instrument, cutoff), |track|);
      && (forall f :: f in r.forcing ==> IsForcingNumber(f.number) && SelectNoteDifficulty(f.number).Some?)
      && (instrument == Instrument.Drums || instrument == Instrument.Unrecognised ==> r.forcing == [])
  {
    var acts := Actions(track, instrument, cutoff);
    var r := Performed(init, acts, |track|);
    PerformedBuffers(init, acts, |track|);
    forall f | f in r.forcing
      ensures IsForcingNumber(f.number) && SelectNoteDifficulty(f.number).Some?
      ensures instrument != Instrument.Drums && instrument != Instrument.Unrecognised
    {
      var k :| 0 <= k < |track| && acts[k] == BufferForcing(f);
      ForcingActions(track[k], k == 0, instrument, cutoff);
    }
    if r.forcing != [] {
      assert r.forcing[0] in r.forcing;
    }
  }

  /** Every fret table gives a valid fret of the instrument's game mode. */
  lemma FretForIsValid(instrument: Instrument, n: MidiNote)
    requires instrument != Instrument.Unrecognised
    ensures ValidFret(instrument, FretFor(instrument, n))
  {
  }

  /** What the loop adds is well formed: notes carry no flag; an unrecognised track's notes keep
      their MIDI number; any other note has a fret of the game mode and no sustain at or below
      the cutoff. */
  predicate WellLoaded(instrument: Instrument, cutoff: nat, o: ChartObject)
  {
    o.NoteObject? ==>
      && o.note.flags == NONE
      && (instrument == Instrument.Unrecognised ==> 0 <= o.note.rawNote < 128)
      && (instrument != Instrument.Unrecognised ==>
            ValidFret(instrument, o.note.rawNote) && (o.note.sustain == 0 || o.note.sustain > cutoff))
  }

  lemma AddedIsWellLoaded(e: MidiEvent, first: bool, instrument: Instrument, cutoff: nat)
    requires ActionOf(e, first, instrument, cutoff).AddObjects?
    ensures WellLoaded(instrument, cutoff, ActionOf(e, first, instrument, cutoff).o)
  {
    if e.NoteOn? && instrument != Instrument.Unrecognised {
      FretForIsValid(instrument, e.number);
    }
  }

  /** A property of objects that every added object has holds of every loaded object, when it
      holds of the charts the loop starts from; and the charts stay sorted. */
  lemma {:induction false} PerformedKeeps(init: seq<Chart>, acts: seq<Action>, n: nat, ok: ChartObject -> bool)
    requires n <= |acts| && |init| > 0
    requires forall c, o :: 0 <= c < |init| && o in init[c].objects ==> ok(o)
    requires forall k :: 0 <= k < n && acts[k].AddObjects? ==> ok(acts[k].o)
    ensures forall c, o :: 0 <= c < |init| && o in Performed(init, acts, n).charts[c].objects ==> ok(o)
    ensures forall c :: 0 <= c < |init| && Sorted(init[c].objects, ChartKey) ==>
      Sorted(Performed(init, acts, n).charts[c].objects, ChartKey)
  {
    if n > 0 {
      PerformedKeeps(init, acts, n - 1, ok);
    }
  }

  /** The charts a track is loaded into stay sorted, and every note the load loop leaves in them
      is well formed, when the charts held only such notes before. */
  lemma LoadedIsWellFormed(init: seq<Chart>, track: seq<MidiEvent>, instrument: Instrument, cutoff: nat)
    requires |init| > 0
    requires forall c, o :: 0 <= c < |init| && o in init[c].objects ==> WellLoaded(instrument, cutoff, o)
    ensures var r := Performed(init, Actions(track, instrument, cutoff), |track|);
      && (forall c, o :: 0 <= c < |init| && o in r.charts[c].objects ==> WellLoaded(instrument, cutoff, o))
      && (forall c :: 0 <= c < |init| && Sorted(init[c].objects, ChartKey) ==> Sorted(r.charts[c].objects, ChartKey))
  {
    var acts := Actions(track, instrument, cutoff);
    AllAddedAreWellLoaded(track, instrument, cutoff);
    var ok: ChartObject -> bool := o => WellLoaded(instrument, cutoff, o);
    assert forall o :: ok(o) == WellLoaded(instrument, cutoff, o);
    PerformedKeeps(init, acts, |track|, ok);
  }

  lemma AllAddedAreWellLoaded(track: seq<MidiEvent>, instrument: Instrument, cutoff: nat)
    ensures var acts := Actions(track, instrument, cutoff);
      forall k :: 0 <= k < |track| && acts[k].AddObjects? ==> WellLoaded(instrument, cutoff, acts[k].o)
  {
    forall k | 0 <= k < |track| && ActionOf(track[k], k == 0, instrument, cutoff).AddObjects?
      ensures WellLoaded(instrument, cutoff, ActionOf(track[k], k == 0, instrument, cutoff).o)
    {
      AddedIsWellLoaded(track[k], k == 0, instrument, cutoff);
    }
  }

  /** Every chart event, note and star power of the track is in the charts after loading,
      unless a later object with the same key took its place: text events after the first in
      the unrecognised or Expert chart, notes in the chart of their difficulty, star power in
      all four. */
  lemma LoadedHoldsTrack(init: seq<Chart>, track: seq<MidiEvent>, instrument: Instrument, cutoff: nat, k: nat)
    requires |init| == (if instrument == Instrument.Unrecognised then 1 else DIFFICULTY_COUNT)
    requires k < |track| && ActionOf(track[k], k == 0, instrument, cutoff).AddObjects?
    ensures var a := ActionOf(track[k], k == 0, instrument, cutoff);
      forall c :: c in a.slots ==> Holds(Performed(init, Actions(track, instrument, cutoff), |track|).charts[c], a.o)
  {
    var acts := Actions(track, instrument, cutoff);
    PerformedHoldsAdded(init, acts, |track|, k);
    var a := acts[k];
    assert instrument == Instrument.Unrecognised ==> a.slots == {0} by {
      if instrument == Instrument.Unrecognised {
        assert a == ActionOf(track[k], k == 0, instrument, cutoff);
      }
    }
  }

  // ================================================================ editing a window of notes

  /** What the passes after loading do to one note of a window: `SetType(t)`, the forcing
      pass's `SetType(t)` that skips tapped notes, or turning the note into an open note. */
  datatype Edit = Retype(t: NoteType) | Force(t: NoteType) | Open(drums: bool)

  /** The fret an open-note section gives: OPEN, remapped on drums as `LoadDrumNoteToGuitarNote`
      remaps it. */
  function OpenFret(drums: bool): (f: int)
    ensures f == if drums then ORANGE else OPEN
  {
    if drums then LoadDrumNoteToGuitarNote(OPEN) else OPEN
  }

  /** The notes after editing note `k`. */
  function EditNote(s: seq<Note>, k: nat, e: Edit, resolution: nat, mode: GameMode): (r: seq<Note>)
    requires k < |s|
    ensures |r| == |s|
  {
    match e
    case Retype(t) => WithChordFlags(s, k, SetTypeFlags(s, k, t, resolution, mode))
    case Force(t) => if s[k].flags.tap then s else WithChordFlags(s, k, SetTypeFlags(s, k, t, resolution, mode))
    case Open(drums) => s[k := s[k].(rawNote := OpenFret(drums))]
  }

  /** The notes after editing notes `lo`, `lo + 1`, …, `lo + n - 1` in turn. */
  function EditRun(s: seq<Note>, lo: nat, n: nat, e: Edit, resolution: nat, mode: GameMode): (r: seq<Note>)
    requires lo + n <= |s|
    ensures |r| == |s|
  {
    if n == 0 then s else EditNote(EditRun(s, lo, n - 1, e, resolution, mode), lo + n - 1, e, resolution, mode)
  }

  /** `GetRange(notes, from, to)` and the edit of every note in that range. */
  function EditWindow(s: seq<Note>, from: uint32, to: uint32, e: Edit, resolution: nat, mode: GameMode): (r: seq<Note>)
    ensures |r| == |s|
  {
    var range := GetRange(s, from, to);
    EditRun(s, range.0, range.1, e, resolution, mode)
  }

  /** One edit of the loop body over a window. */
  method EditAt(a: array<Note>, k: nat, e: Edit, resolution: nat, mode: GameMode)
    requires k < a.Length
    modifies a
    ensures a[..] == EditNote(old(a[..]), k, e, resolution, mode)
  {
    match e {
      case Retype(t) =>
        SetType(a, k, t, resolution, mode);
      case Force(t) =>
        if !a[k].flags.tap {
          SetType(a, k, t, resolution, mode);
        }
      case Open(drums) =>
        a[k] := a[k].(rawNote := OPEN);
        if drums {
          a[k] := a[k].(rawNote := LoadDrumNoteToGuitarNote(a[k].rawNote));
        }
    }
  }

  lemma EditRunStep(s: seq<Note>, before: seq<Note>, lo: nat, k: nat, e: Edit, resolution: nat, mode: GameMode)
    requires lo + k < |s| && before == EditRun(s, lo, k, e, resolution, mode)
    ensures EditRun(s, lo, k + 1, e, resolution, mode) == EditNote(before, lo + k, e, resolution, mode)
  {
  }

  /** The loop `for (k = index; k < index + length; ++k)` over a window. */
  method EditNotes(a: array<Note>, lo: nat, n: nat, e: Edit, resolution: nat, mode: GameMode)
    requires lo + n <= a.Length
    modifies a
    ensures a[..] == EditRun(old(a[..]), lo, n, e, resolution, mode)
  {
    ghost var s := a[..];
    var k := 0;
    while k < n
      invariant k <= n
      invariant a[..] == EditRun(s, lo, k, e, resolution, mode)
    {
      EditTurn(a, s, lo, k, e, resolution, mode);
      k := k + 1;
    }
  }

  /** One turn of that loop: note `lo + k` edited in place. */
  method EditTurn(a: array<Note>, ghost s: seq<Note>, lo: nat, k: nat, e: Edit, resolution: nat, mode: GameMode)
    requires lo + k < |s| && a[..] == EditRun(s, lo, k, e, resolution, mode)
    modifies a
    ensures a[..] == EditRun(s, lo, k + 1, e, resolution, mode)
  {
    ghost var before := a[..];
    EditAt(a, lo + k, e, resolution, mode);
    EditRunStep(s, before, lo, k, e, resolution, mode);
  }

  /** A note array editing a window of `notes`: the notes are copied into an array, the window
      looked up with `GetRange` and edited in place, and the array read back. */
  method EditWindowOf(notes: seq<Note>, from: uint32, to: uint32, e: Edit, resolution: nat, mode: GameMode) returns (r: seq<Note>)
    ensures r == EditWindow(notes, from, to, e, resolution, mode)
  {
    var a := new Note[|notes|](k requires 0 <= k < |notes| => notes[k]);
    assert a[..] == notes;
    var range := GetRange(a[..], from, to);
    EditNotes(a, range.0, range.1, e, resolution, mode);
    r := a[..];
  }

  // ---------------------------------------------------------------- what an edit changes

  /** The notes `lo..lo+len-1` are all the notes at their ticks: a note at the tick of one of
      them is one of them. */
  ghost predicate TickClosed(s: seq<Note>, lo: nat, len: nat)
  {
    lo + len <= |s| &&
    forall j, k :: 0 <= j < |s| && lo <= k < lo + len && s[j].position == s[k].position ==> lo <= j < lo + len
  }

  /** In a tick-ordered list, `GetRange` finds exactly the notes whose tick lies in the window,
      and they are all the notes at their ticks. */
  lemma WindowIsTickClosed(s: seq<Note>, from: uint32, to: uint32)
    requires SortedByPosition(s)
    ensures var range := GetRange(s, from, to);
      && TickClosed(s, range.0, range.1)
      && forall j :: 0 <= j < |s| ==> (range.0 <= j < range.0 + range.1 <==> from <= s[j].position <= to)
  {
  }

  /** Lists with the same placement are ordered alike. */
  lemma SamePlacementSorted(s: seq<Note>, t: seq<Note>)
    requires SortedByPosition(s) && SamePlacement(s, t)
    ensures SortedByPosition(t)
  {
  }

  /** One `SetType` inside a tick-closed window changes only the flags of notes at note `k`'s
      tick, which lie in the window, and gives them all the same flags. */
  lemma ChordStep(s: seq<Note>, t: seq<Note>, k: nat, f: Flags, lo: nat, len: nat)
    requires SortedByPosition(s) && TickClosed(s, lo, len) && SamePlacement(s, t) && lo <= k < lo + len
    ensures var r := WithChordFlags(t, k, f);
      && SamePlacement(s, r)
      && r[k].flags == f
      && forall j :: 0 <= j < |s| ==>
        (InChord(t, k, j) ==> lo <= j < lo + len && s[j].position == s[k].position && r[j] == t[j].(flags := f))
        && (!InChord(t, k, j) ==> r[j] == t[j])
  {
    SamePlacementSorted(s, t);
    ChordIsMaximalRun(t, k);
    forall j | 0 <= j < |s| && InChord(t, k, j)
      ensures lo <= j < lo + len && s[j].position == s[k].position
    {
      SortedChordIsSameTick(t, k, j);
    }
  }

  /** The type of a note whose own note is unchanged is unchanged when no note moves. */
  lemma TypeOfKept(t: seq<Note>, r: seq<Note>, j: nat, resolution: nat, mode: GameMode)
    requires SamePlacement(t, r) && j < |t| && r[j] == t[j]
    ensures TypeOf(r, j, resolution, mode) == TypeOf(t, j, resolution, mode)
  {
    PlacementDecidesHopo(t, r, j, resolution);
  }

  // ---------------------------------------------------------------- tap sections

  /** Some note at tick `p` is an open note. */
  ghost predicate OpenAtTick(s: seq<Note>, p: uint32, mode: GameMode)
  {
    exists k :: 0 <= k < |s| && s[k].position == p && IsOpenNote(s[k], mode)
  }

  /** Note `j` of `r` is a tap, or has lost its flags because its chord in `s` holds an open note
      (which cannot be tapped). */
  ghost predicate Tapped(s: seq<Note>, r: seq<Note>, j: nat, mode: GameMode)
    requires j < |s| && j < |r|
  {
    r[j].flags == TAP || (r[j].flags == NONE && OpenAtTick(s, s[j].position, mode))
  }

  /** The state of a tap section's loop after the first `n` notes of the window. */
  ghost predicate TapProgress(s: seq<Note>, r: seq<Note>, lo: nat, len: nat, n: nat, mode: GameMode)
  {
    && SamePlacement(s, r)
    && (forall j :: 0 <= j < |s| ==> r[j] == s[j] || (lo <= j < lo + len && Tapped(s, r, j, mode)))
    && (forall j :: lo <= j < lo + n && j < |s| ==> Tapped(s, r, j, mode))
  }

  lemma TapChordStep(s: seq<Note>, t: seq<Note>, lo: nat, len: nat, n: nat, resolution: nat, mode: GameMode)
    requires SortedByPosition(s) && TickClosed(s, lo, len) && n < len
    requires TapProgress(s, t, lo, len, n, mode)
    ensures TapProgress(s, WithChordFlags(t, lo + n, SetTypeFlags(t, lo + n, Tap, resolution, mode)), lo, len, n + 1, mode)
  {
    var k := lo + n;
    var f := SetTypeFlags(t, k, Tap, resolution, mode);
    var r := WithChordFlags(t, k, f);
    ChordStep(s, t, k, f, lo, len);
    assert f == TAP || (f == NONE && OpenAtTick(s, s[k].position, mode)) by {
      if f != TAP {
        assert IsOpenNote(s[k], mode);
      }
    }
    forall j | 0 <= j < |s|
      ensures r[j] == s[j] || (lo <= j < lo + len && Tapped(s, r, j, mode))
      ensures lo <= j < lo + n + 1 ==> Tapped(s, r, j, mode)
    {
      if j == k {
        assert r[j].flags == f;
      } else if InChord(t, k, j) {
        assert r[j].flags == f && s[j].position == s[k].position;
      } else {
        assert r[j] == t[j];
        if lo <= j < lo + n {
          assert Tapped(s, t, j, mode);
        }
      }
    }
  }

  lemma TapStep(s: seq<Note>, lo: nat, len: nat, n: nat, resolution: nat, mode: GameMode)
    requires SortedByPosition(s) && TickClosed(s, lo, len) && n < len
    requires TapProgress(s, EditRun(s, lo, n, Retype(Tap), resolution, mode), lo, len, n, mode)
    ensures TapProgress(s, EditRun(s, lo, n + 1, Retype(Tap), resolution, mode), lo, len, n + 1, mode)
  {
    var t := EditRun(s, lo, n, Retype(Tap), resolution, mode);
    EditRunStep(s, t, lo, n, Retype(Tap), resolution, mode);
    TapChordStep(s, t, lo, len, n, resolution, mode);
  }

  lemma {:induction false} TapRun(s: seq<Note>, lo: nat, len: nat, n: nat, resolution: nat, mode: GameMode)
    requires SortedByPosition(s) && TickClosed(s, lo, len) && n <= len
    ensures TapProgress(s, EditRun(s, lo, n, Retype(Tap), resolution, mode), lo, len, n, mode)
  {
    if n > 0 {
      TapRun(s, lo, len, n - 1, resolution, mode);
      TapStep(s, lo, len, n - 1, resolution, mode);
    }
  }

  /** A tap section: every note whose tick lies in the window becomes a tap, except the notes of a
      chord holding an open note, which may lose their flags instead; nothing else changes and no
      note moves or changes fret. */
  lemma TapSection(s: seq<Note>, from: uint32, to: uint32, resolution: nat, mode: GameMode)
    requires SortedByPosition(s)
    ensures var r := EditWindow(s, from, to, Retype(Tap), resolution, mode);
      && SamePlacement(s, r)
      && forall j :: 0 <= j < |s| ==>
        if from <= s[j].position <= to then Tapped(s, r, j, mode) else r[j] == s[j]
  {
    var range := GetRange(s, from, to);
    WindowIsTickClosed(s, from, to);
    TapRun(s, range.0, range.1, range.1, resolution, mode);
  }

  /** Without open notes in the window, every note in it ends up of type Tap. */
  lemma TapSectionWithoutOpenNotes(s: seq<Note>, from: uint32, to: uint32, resolution: nat, mode: GameMode, j: nat)
    requires SortedByPosition(s) && j < |s| && from <= s[j].position <= to
    requires forall k :: 0 <= k < |s| && from <= s[k].position <= to ==> !IsOpenNote(s[k], mode)
    ensures var r := EditWindow(s, from, to, Retype(Tap), resolution, mode);
      r[j].flags == TAP && TypeOf(r, j, resolution, mode) == Tap
  {
    TapSection(s, from, to, resolution, mode);
  }

  // ---------------------------------------------------------------- open-note sections

  lemma {:induction false} OpenRun(s: seq<Note>, lo: nat, n: nat, drums: bool, resolution: nat, mode: GameMode)
    requires lo + n <= |s|
    ensures var r := EditRun(s, lo, n, Open(drums), resolution, mode);
      forall j :: 0 <= j < |s| ==> r[j] == if lo <= j < lo + n then s[j].(rawNote := OpenFret(drums)) else s[j]
  {
    if n > 0 {
      OpenRun(s, lo, n - 1, drums, resolution, mode);
    }
  }

  /** An open-note section turns every note whose tick lies in the window into an open note (the
      orange drum on drum tracks), keeping its tick, sustain and flags, and changes nothing else.
      The notes are not re-sorted: a chord in the window becomes several equal open notes. */
  lemma OpenSection(s: seq<Note>, from: uint32, to: uint32, drums: bool, resolution: nat, mode: GameMode)
    requires SortedByPosition(s)
    ensures var r := EditWindow(s, from, to, Open(drums), resolution, mode);
      forall j :: 0 <= j < |s| ==>
        r[j] == if from <= s[j].position <= to then s[j].(rawNote := OpenFret(drums)) else s[j]
  {
    var range := GetRange(s, from, to);
    OpenRun(s, range.0, range.1, drums, resolution, mode);
  }

  /** On a GH Live chart an open-note section gives raw value 5, which there is the third white
      fret, not the GH Live open note. */
  lemma OpenSectionOnGHLIsWhite3(s: seq<Note>, from: uint32, to: uint32, resolution: nat, j: nat)
    requires SortedByPosition(s) && j < |s| && from <= s[j].position <= to
    ensures var r := EditWindow(s, from, to, Open(false), resolution, GHLGuitar);
      r[j].rawNote == GHL_WHITE_3 && !IsOpenNote(r[j], GHLGuitar)
  {
    OpenSection(s, from, to, false, resolution, GHLGuitar);
  }

  // ---------------------------------------------------------------- forcing notes

  lemma {:induction false} ForceRunOnTaps(s: seq<Note>, lo: nat, n: nat, t: NoteType, resolution: nat, mode: GameMode)
    requires lo + n <= |s| && forall j :: lo <= j < lo + n ==> s[j].flags.tap
    ensures EditRun(s, lo, n, Force(t), resolution, mode) == s
  {
    if n > 0 {
      ForceRunOnTaps(s, lo, n - 1, t, resolution, mode);
      ForceSkipsTap(s, lo + n - 1, t, resolution, mode);
    }
  }

  /** The forcing pass passes over a tapped note. */
  lemma ForceSkipsTap(s: seq<Note>, k: nat, t: NoteType, resolution: nat, mode: GameMode)
    requires k < |s| && s[k].flags.tap
    ensures EditNote(s, k, Force(t), resolution, mode) == s
  {
  }

  /** Strum or HOPO flags never include TAP. */
  lemma ForcedFlagsAreNotTaps(s: seq<Note>, k: nat, t: NoteType, resolution: nat, mode: GameMode)
    requires k < |s| && (t == Strum || t == Hopo)
    ensures !SetTypeFlags(s, k, t, resolution, mode).tap
  {
  }

  /** What a forcing note of type `t` leaves on note `j`: a strum, or a HOPO unless its chord
      could not be forced and lost its flags. */
  ghost predicate ForcedTo(r: seq<Note>, j: nat, t: NoteType, resolution: nat, mode: GameMode)
    requires j < |r|
  {
    if t == Strum then TypeOf(r, j, resolution, mode) == Strum
    else TypeOf(r, j, resolution, mode) == Hopo || r[j].flags == NONE
  }

  /** The state of a forcing note's loop over a window without taps after its first `n` notes. */
  ghost predicate ForceProgress(s: seq<Note>, r: seq<Note>, lo: nat, len: nat, n: nat, t: NoteType, resolution: nat, mode: GameMode)
  {
    && SamePlacement(s, r)
    && (forall j :: 0 <= j < |s| && !(lo <= j < lo + len) ==> r[j] == s[j])
    && (forall j :: lo <= j < lo + len && j < |s| ==> !r[j].flags.tap)
    && (forall j :: lo <= j < lo + n && j < |s| ==> ForcedTo(r, j, t, resolution, mode))
  }

  /** A note whose own note a step leaves alone keeps what the forcing note gave it. */
  lemma ForcedToKept(u: seq<Note>, r: seq<Note>, j: nat, t: NoteType, resolution: nat, mode: GameMode)
    requires SamePlacement(u, r) && j < |u| && r[j] == u[j] && ForcedTo(u, j, t, resolution, mode)
    ensures ForcedTo(r, j, t, resolution, mode)
  {
    TypeOfKept(u, r, j, resolution, mode);
  }

  /** The chord a forcing step sets gets what the forcing note asks for. */
  lemma ForcedToChord(u: seq<Note>, k: nat, j: nat, t: NoteType, resolution: nat, mode: GameMode)
    requires k < |u| && j < |u| && InChord(u, k, j) && (t == Strum || t == Hopo)
    ensures ForcedTo(WithChordFlags(u, k, SetTypeFlags(u, k, t, resolution, mode)), j, t, resolution, mode)
  {
    if t == Strum {
      SetTypeStrum(u, k, resolution, mode, j);
    } else {
      SetTypeHopo(u, k, resolution, mode, j);
    }
  }

  /** The step at the `n`-th note of the window (note `lo + n - 1`) sets its chord's flags. */
  lemma ForceChordStep(s: seq<Note>, u: seq<Note>, lo: nat, len: nat, n: nat, t: NoteType, resolution: nat, mode: GameMode)
    requires SortedByPosition(s) && TickClosed(s, lo, len) && 0 < n <= len && (t == Strum || t == Hopo)
    requires ForceProgress(s, u, lo, len, n - 1, t, resolution, mode)
    ensures ForceProgress(s, WithChordFlags(u, lo + n - 1, SetTypeFlags(u, lo + n - 1, t, resolution, mode)), lo, len, n, t, resolution, mode)
  {
    var k := lo + n - 1;
    var f := SetTypeFlags(u, k, t, resolution, mode);
    ChordStep(s, u, k, f, lo, len);
    ForcedFlagsAreNotTaps(u, k, t, resolution, mode);
    ForcedToAfterChord(u, lo, k, t, resolution, mode);
  }

  /** After the step at note `k` every note from `lo` to `k` has what the forcing note asks for:
      the notes of `k`'s chord from the step, the others from before. */
  lemma ForcedToAfterChord(u: seq<Note>, lo: nat, k: nat, t: NoteType, resolution: nat, mode: GameMode)
    requires lo <= k < |u| && (t == Strum || t == Hopo)
    requires forall j :: lo <= j < k ==> ForcedTo(u, j, t, resolution, mode)
    ensures var r := WithChordFlags(u, k, SetTypeFlags(u, k, t, resolution, mode));
      forall j :: lo <= j <= k ==> ForcedTo(r, j, t, resolution, mode)
  {
    var r := WithChordFlags(u, k, SetTypeFlags(u, k, t, resolution, mode));
    assert SamePlacement(u, r);
    ChordIsMaximalRun(u, k);
    forall j | lo <= j <= k
      ensures ForcedTo(r, j, t, resolution, mode)
    {
      if InChord(u, k, j) {
        ForcedToChord(u, k, j, t, resolution, mode);
      } else {
        ForcedToKept(u, r, j, t, resolution, mode);
      }
    }
  }

  /** The `n`-th turn of a forcing note's loop over a window without taps. */
  lemma ForceStep(s: seq<Note>, lo: nat, len: nat, n: nat, t: NoteType, resolution: nat, mode: GameMode)
    requires SortedByPosition(s) && TickClosed(s, lo, len) && 0 < n <= len && (t == Strum || t == Hopo)
    requires ForceProgress(s, EditRun(s, lo, n - 1, Force(t), resolution, mode), lo, len, n - 1, t, resolution, mode)
    ensures ForceProgress(s, EditRun(s, lo, n, Force(t), resolution, mode), lo, len, n, t, resolution, mode)
  {
    var u := EditRun(s, lo, n - 1, Force(t), resolution, mode);
    assert EditRun(s, lo, n, Force(t), resolution, mode) == EditNote(u, lo + n - 1, Force(t), resolution, mode);
    assert !u[lo + n - 1].flags.tap;
    ForceChordStep(s, u, lo, len, n, t, resolution, mode);
  }

  lemma {:induction false} ForceRun(s: seq<Note>, lo: nat, len: nat, n: nat, t: NoteType, resolution: nat, mode: GameMode)
    requires SortedByPosition(s) && TickClosed(s, lo, len) && n <= len && (t == Strum || t == Hopo)
    requires forall j :: lo <= j < lo + len ==> !s[j].flags.tap
    ensures ForceProgress(s, EditRun(s, lo, n, Force(t), resolution, mode), lo, len, n, t, resolution, mode)
  {
    if n == 0 {
      ForceStart(s, lo, len, t, resolution, mode);
    } else {
      ForceRun(s, lo, len, n - 1, t, resolution, mode);
      ForceStep(s, lo, len, n, t, resolution, mode);
    }
  }

  /** Before its first note, a forcing note's loop has changed nothing. */
  lemma ForceStart(s: seq<Note>, lo: nat, len: nat, t: NoteType, resolution: nat, mode: GameMode)
    requires lo + len <= |s| && forall j :: lo <= j < lo + len ==> !s[j].flags.tap
    ensures ForceProgress(s, EditRun(s, lo, 0, Force(t), resolution, mode), lo, len, 0, t, resolution, mode)
  {
    assert EditRun(s, lo, 0, Force(t), resolution, mode) == s;
  }

  /** A forcing note skips tapped notes: a window of taps is left as it is. */
  lemma ForceSectionOnTaps(s: seq<Note>, from: uint32, to: uint32, t: NoteType, resolution: nat, mode: GameMode)
    requires SortedByPosition(s)
    requires forall j :: 0 <= j < |s| && from <= s[j].position <= to ==> s[j].flags.tap
    ensures EditWindow(s, from, to, Force(t), resolution, mode) == s
  {
    var range := GetRange(s, from, to);
    ForceRunOnTaps(s, range.0, range.1, t, resolution, mode);
  }

  /** In a window without taps, a strum forcing note makes every note a strum, and a HOPO forcing
      note makes every note a HOPO except the notes of chords that cannot be forced, which lose
      their flags. Notes outside the window never change, and no note moves. */
  lemma ForceSection(s: seq<Note>, from: uint32, to: uint32, t: NoteType, resolution: nat, mode: GameMode)
    requires SortedByPosition(s) && (t == Strum || t == Hopo)
    requires forall j :: 0 <= j < |s| && from <= s[j].position <= to ==> !s[j].flags.tap
    ensures var r := EditWindow(s, from, to, Force(t), resolution, mode);
      && SamePlacement(s, r)
      && forall j :: 0 <= j < |s| ==>
        if from <= s[j].position <= to then ForcedTo(r, j, t, resolution, mode) else r[j] == s[j]
  {
    var range := GetRange(s, from, to);
    WindowIsTickClosed(s, from, to);
    ForceRun(s, range.0, range.1, range.1, t, resolution, mode);
  }

  // ================================================================ the sysex pass

  /** An eight-byte sysex event with byte 7 set to 1 starts a section; byte 5 is 255 for a tap
      section. */
  predicate IsTapStart(b: seq<bv8>)
  {
    |b| == 8 && b[5] == 255 && b[7] == 1
  }

  /** An open-note section: byte 5 names the difficulty, 0 Easy to 3 Expert. */
  predicate IsOpenStart(b: seq<bv8>)
  {
    |b| == 8 && b[5] < 4 && b[7] == 1
  }

  /** `b` ends the section `start` starts: eight bytes, the same byte 5 (255 for a tap section),
      and byte 7 set to 0. */
  predicate Ends(start: seq<bv8>, b: seq<bv8>)
    requires |start| == 8
  {
    |b| == 8 && b[5] == start[5] && b[7] == 0
  }

  /** The first event from `j` on that ends the section `start` starts. */
  function FirstEnd(events: seq<Sysex>, j: nat, start: seq<bv8>): (r: Option<nat>)
    requires |start| == 8
    ensures r.Some? ==> j <= r.value < |events| && Ends(start, events[r.value].data)
    ensures forall k :: j <= k < |events| && (r.None? || k < r.value) ==> !Ends(start, events[k].data)
    decreases |events| - j
  {
    if j >= |events| then None
    else if Ends(start, events[j].data) then Some(j)
    else FirstEnd(events, j + 1, start)
  }

  /** `endPos` of the section event `i` starts: the distance from its tick to the tick of the
      first event that ends it, less one unless it is 0, as `uint`; 0 when nothing ends it. */
  function SectionEnd(events: seq<Sysex>, i: nat): uint32
    requires i < |events| && |events[i].data| == 8
  {
    var tick := ChartWriter.CastUInt(events[i].time);
    match FirstEnd(events, i, events[i].data)
    case None => 0
    case Some(j) =>
      var d := ChartWriter.CastUInt(events[j].time - tick);
      if d > 0 then d - 1 else 0
  }

  /** A section covers the ticks from its start up to the tick before its end, or just its
      start tick when it ends on that tick; a section that never ends covers its start tick. */
  lemma SectionWindow(events: seq<Sysex>, i: nat)
    requires i < |events| && |events[i].data| == 8
    ensures var t1 := events[i].time;
      match FirstEnd(events, i, events[i].data)
      case None => SectionEnd(events, i) == 0
      case Some(j) =>
        t1 <= events[j].time < UINT_LIMIT ==>
          t1 + SectionEnd(events, i) == if events[j].time > t1 then events[j].time - 1 else t1
  {
  }

  /** The search loop for the end of the section event `i` starts. */
  method FindSectionEnd(events: seq<Sysex>, i: nat) returns (endPos: uint32)
    requires i < |events| && |events[i].data| == 8
    ensures endPos == SectionEnd(events, i)
  {
    var start := events[i].data;
    var tick := ChartWriter.CastUInt(events[i].time);
    endPos := 0;
    var j := i;
    while j < |events|
      invariant i <= j <= |events|
      invariant FirstEnd(events, j, start) == FirstEnd(events, i, start)
    {
      if Ends(start, events[j].data) {
        endPos := ChartWriter.CastUInt(events[j].time - tick);
        if endPos > 0 {
          endPos := endPos - 1;
        }
        return;
      }
      j := j + 1;
    }
  }

  /** The difficulty byte 5 of an open-note section names. */
  function OpenDifficulty(b: bv8): Difficulty
    requires b < 4
  {
    if b == 0 then Easy else if b == 1 then Medium else if b == 2 then Hard else Expert
  }

  /** How many charts `ReadNotes` works on: the unrecognised chart, or the four difficulties. */
  function GroupSize(instrument: Instrument): nat
  {
    if instrument == Instrument.Unrecognised then 1 else DIFFICULTY_COUNT
  }

  /** The chart of difficulty `d` among them: the unrecognised chart stands for every
      difficulty. */
  function GroupSlot(instrument: Instrument, d: Difficulty): (c: nat)
    ensures c < GroupSize(instrument)
  {
    if instrument == Instrument.Unrecognised then 0 else DifficultyValue(d)
  }

  /** The charts' notes are shaped as the group is. */
  predicate Shaped(ns: seq<seq<Note>>, instrument: Instrument, modes: seq<GameMode>)
  {
    |ns| == GroupSize(instrument) && |modes| == |ns|
  }

  /** What one buffered event does to the notes of the group: edit the same window of every
      chart, edit the window of one chart, or nothing. */
  datatype Command = EditAll(from: uint32, to: uint32, e: Edit) | EditChart(slot: nat, from: uint32, to: uint32, e: Edit) | Skip

  /** A command that names a chart names one of the group. */
  predicate Fits(cmd: Command, size: nat)
  {
    cmd.EditChart? ==> cmd.slot < size
  }

  /** The notes after `cmd`. */
  function Run(ns: seq<seq<Note>>, cmd: Command, modes: seq<GameMode>, resolution: nat): (r: seq<seq<Note>>)
    requires |modes| == |ns| && Fits(cmd, |ns|)
    ensures |r| == |ns|
  {
    match cmd
    case EditAll(from, to, e) =>
      seq(|ns|, c requires 0 <= c < |ns| => EditWindow(ns[c], from, to, e, resolution, modes[c]))
    case EditChart(c, from, to, e) =>
      ns[c := EditWindow(ns[c], from, to, e, resolution, modes[c])]
    case Skip => ns
  }

  /** Sysex event `i`: a tap section sets every note of its window to Tap in every chart; an
      open-note section turns the notes of its window into open notes in the chart of its
      difficulty; any other event does nothing. The window runs from the event's tick to that
      tick plus `SectionEnd`, added as `uint`. */
  function SysexCommand(events: seq<Sysex>, i: nat, instrument: Instrument): (cmd: Command)
    requires i < |events|
    ensures Fits(cmd, GroupSize(instrument))
  {
    var b := events[i].data;
    var tick := ChartWriter.CastUInt(events[i].time);
    if IsTapStart(b) then
      EditAll(tick, (tick + SectionEnd(events, i)) % UINT_LIMIT, Retype(Tap))
    else if IsOpenStart(b) then
      EditChart(GroupSlot(instrument, OpenDifficulty(b[5])), tick, (tick + SectionEnd(events, i)) % UINT_LIMIT, Open(instrument == Instrument.Drums))
    else Skip
  }

  /** The notes after the first `n` sysex events. */
  function SysexPass(ns: seq<seq<Note>>, events: seq<Sysex>, n: nat, instrument: Instrument, modes: seq<GameMode>, resolution: nat): (r: seq<seq<Note>>)
    requires n <= |events| && Shaped(ns, instrument, modes)
    ensures Shaped(r, instrument, modes)
  {
    if n == 0 then ns
    else Run(SysexPass(ns, events, n - 1, instrument, modes, resolution), SysexCommand(events, n - 1, instrument), modes, resolution)
  }

  /** The type a forcing note sets: HOPO for an odd number, strum for an even one. */
  function ForcedType(number: MidiNote): NoteType
  {
    if number % 2 != 0 then Hopo else Strum
  }

  /** Forcing note `f`: in the chart of its difficulty, every note from its tick to its
      note-off tick (added as `uint`) that is not a tap is forced to `ForcedType`. A number outside
      the bands does nothing. */
  function ForceCommand(f: Forcing, instrument: Instrument): (cmd: Command)
    ensures Fits(cmd, GroupSize(instrument))
  {
    var tick := ChartWriter.CastUInt(f.time);
    var endPos := ChartWriter.CastUInt(f.offTime - tick);
    match SelectNoteDifficulty(f.number)
    case None => Skip
    case Some(d) => EditChart(GroupSlot(instrument, d), tick, (tick + endPos) % UINT_LIMIT, Force(ForcedType(f.number)))
  }

  /** The upper forcing lane of each band forces HOPOs and the lower one strums, on the chart of
      that band's difficulty. */
  lemma ForcingLanes(f: Forcing, instrument: Instrument, d: Difficulty)
    requires f.number == BandStart(d) + 5 || f.number == BandStart(d) + 6
    ensures ForceCommand(f, instrument).EditChart?
    ensures ForceCommand(f, instrument).slot == GroupSlot(instrument, d)
    ensures ForceCommand(f, instrument).e == Force(if f.number == BandStart(d) + 5 then Hopo else Strum)
  {
    SelectNoteDifficultyBands(f.number, d);
  }

  /** The notes after the first `n` forcing notes. */
  function ForcePass(ns: seq<seq<Note>>, forcing: seq<Forcing>, n: nat, instrument: Instrument, modes: seq<GameMode>, resolution: nat): (r: seq<seq<Note>>)
    requires n <= |forcing| && Shaped(ns, instrument, modes)
    ensures Shaped(r, instrument, modes)
  {
    if n == 0 then ns
    else Run(ForcePass(ns, forcing, n - 1, instrument, modes, resolution), ForceCommand(forcing[n - 1], instrument), modes, resolution)
  }

  /** `SysexCommand`, with the search for the section's end as a loop. */
  method SysexCommandOf(events: seq<Sysex>, i: nat, instrument: Instrument) returns (cmd: Command)
    requires i < |events|
    ensures cmd == SysexCommand(events, i, instrument)
  {
    var b := events[i].data;
    var tick := ChartWriter.CastUInt(events[i].time);
    if IsTapStart(b) {
      var endPos := FindSectionEnd(events, i);
      cmd := EditAll(tick, (tick + endPos) % UINT_LIMIT, Retype(Tap));
    } else if IsOpenStart(b) {
      var endPos := FindSectionEnd(events, i);
      cmd := EditChart(GroupSlot(instrument, OpenDifficulty(b[5])), tick, (tick + endPos) % UINT_LIMIT, Open(instrument == Instrument.Drums));
    } else {
      cmd := Skip;
    }
  }

  /** A command carried out on copies of the charts' notes, chart by chart. */
  method RunCommand(ns: seq<seq<Note>>, cmd: Command, modes: seq<GameMode>, resolution: nat) returns (r: seq<seq<Note>>)
    requires |modes| == |ns| && Fits(cmd, |ns|)
    ensures r == Run(ns, cmd, modes, resolution)
  {
    match cmd
    case EditAll(from, to, e) =>
      r := ns;
      var c := 0;
      while c < |ns|
        invariant c <= |ns| && |r| == |ns|
        invariant forall d :: 0 <= d < |ns| ==>
          r[d] == if d < c then EditWindow(ns[d], from, to, e, resolution, modes[d]) else ns[d]
      {
        var edited := EditWindowOf(r[c], from, to, e, resolution, modes[c]);
        r := r[c := edited];
        c := c + 1;
      }
    case EditChart(c, from, to, e) =>
      var edited := EditWindowOf(ns[c], from, to, e, resolution, modes[c]);
      r := ns[c := edited];
    case Skip =>
      r := ns;
  }

  /** The loop of `ReadNotes` over the buffered sysex events. */
  method ApplySysexEvents(ns: seq<seq<Note>>, events: seq<Sysex>, instrument: Instrument, modes: seq<GameMode>, resolution: nat) returns (r: seq<seq<Note>>)
    requires Shaped(ns, instrument, modes)
    ensures r == SysexPass(ns, events, |events|, instrument, modes, resolution)
  {
    r := ns;
    var i := 0;
    while i < |events|
      invariant i <= |events|
      invariant r == SysexPass(ns, events, i, instrument, modes, resolution)
    {
      r := ApplySysexEvent(ns, events, i, r, instrument, modes, resolution);
      i := i + 1;
    }
  }

  /** One turn of the sysex loop: the command of event `i` carried out. */
  method ApplySysexEvent(ns: seq<seq<Note>>, events: seq<Sysex>, i: nat, before: seq<seq<Note>>, instrument: Instrument, modes: seq<GameMode>, resolution: nat) returns (r: seq<seq<Note>>)
    requires i < |events| && Shaped(ns, instrument, modes)
    requires before == SysexPass(ns, events, i, instrument, modes, resolution)
    ensures r == SysexPass(ns, events, i + 1, instrument, modes, resolution)
  {
    var cmd := SysexCommandOf(events, i, instrument);
    SysexPassStep(ns, events, i, instrument, modes, resolution);
    r := RunCommand(before, cmd, modes, resolution);
  }

  lemma SysexPassStep(ns: seq<seq<Note>>, events: seq<Sysex>, i: nat, instrument: Instrument, modes: seq<GameMode>, resolution: nat)
    requires i < |events| && Shaped(ns, instrument, modes)
    ensures SysexPass(ns, events, i + 1, instrument, modes, resolution)
      == Run(SysexPass(ns, events, i, instrument, modes, resolution), SysexCommand(events, i, instrument), modes, resolution)
  {
  }

  /** The loop of `ReadNotes` over the buffered forcing notes. */
  method ApplyForcing(ns: seq<seq<Note>>, forcing: seq<Forcing>, instrument: Instrument, modes: seq<GameMode>, resolution: nat) returns (r: seq<seq<Note>>)
    requires Shaped(ns, instrument, modes)
    ensures r == ForcePass(ns, forcing, |forcing|, instrument, modes, resolution)
  {
    r := ns;
    var i := 0;
    while i < |forcing|
      invariant i <= |forcing|
      invariant r == ForcePass(ns, forcing, i, instrument, modes, resolution)
    {
      r := RunCommand(r, ForceCommand(forcing[i], instrument), modes, resolution);
      i := i + 1;
    }
  }

  // ================================================================ what the passes keep

  /** Each note keeps its tick and its sustain: the passes change only flags and raw values. */
  predicate SameTimes(s: seq<Note>, r: seq<Note>)
  {
    |s| == |r| && forall k :: 0 <= k < |s| ==> r[k].position == s[k].position && r[k].sustain == s[k].sustain
  }

  /** `SameTimes` chart by chart. */
  predicate AllSameTimes(ns: seq<seq<Note>>, rs: seq<seq<Note>>)
  {
    |ns| == |rs| && forall c :: 0 <= c < |ns| ==> SameTimes(ns[c], rs[c])
  }

  lemma EditNoteKeepsTimes(s: seq<Note>, k: nat, e: Edit, resolution: nat, mode: GameMode)
    requires k < |s|
    ensures SameTimes(s, EditNote(s, k, e, resolution, mode))
  {
    var r := EditNote(s, k, e, resolution, mode);
    match e
    case Open(drums) =>
    case _ =>
      if r != s {
        var t := WithChordFlags(s, k, SetTypeFlags(s, k, e.t, resolution, mode));
        assert r == t;
        forall j | 0 <= j < |s|
          ensures t[j].position == s[j].position && t[j].sustain == s[j].sustain
        {
        }
      }
  }

  lemma SameTimesTrans(a: seq<Note>, b: seq<Note>, c: seq<Note>)
    requires SameTimes(a, b) && SameTimes(b, c)
    ensures SameTimes(a, c)
  {
  }

  lemma {:induction false} EditRunKeepsTimes(s: seq<Note>, lo: nat, n: nat, e: Edit, resolution: nat, mode: GameMode)
    requires lo + n <= |s|
    ensures SameTimes(s, EditRun(s, lo, n, e, resolution, mode))
  {
    if n > 0 {
      EditRunKeepsTimes(s, lo, n - 1, e, resolution, mode);
      EditRunKeepsTimesStep(s, lo, n, e, resolution, mode);
    }
  }

  lemma EditRunKeepsTimesStep(s: seq<Note>, lo: nat, n: nat, e: Edit, resolution: nat, mode: GameMode)
    requires 0 < n && lo + n <= |s| && SameTimes(s, EditRun(s, lo, n - 1, e, resolution, mode))
    ensures SameTimes(s, EditRun(s, lo, n, e, resolution, mode))
  {
    var before := EditRun(s, lo, n - 1, e, resolution, mode);
    EditNoteKeepsTimes(before, lo + n - 1, e, resolution, mode);
    SameTimesTrans(s, before, EditRun(s, lo, n, e, resolution, mode));
  }

  /** Every command keeps the ticks and sustains of every chart. */
  lemma RunKeepsTimes(ns: seq<seq<Note>>, cmd: Command, modes: seq<GameMode>, resolution: nat)
    requires |modes| == |ns| && Fits(cmd, |ns|)
    ensures AllSameTimes(ns, Run(ns, cmd, modes, resolution))
  {
    var r := Run(ns, cmd, modes, resolution);
    forall c | 0 <= c < |ns|
      ensures SameTimes(ns[c], r[c])
    {
      if cmd.EditAll? || (cmd.EditChart? && cmd.slot == c) {
        var range := GetRange(ns[c], cmd.from, cmd.to);
        EditRunKeepsTimes(ns[c], range.0, range.1, cmd.e, resolution, modes[c]);
      }
    }
  }

  lemma AllSameTimesTrans(a: seq<seq<Note>>, b: seq<seq<Note>>, c: seq<seq<Note>>)
    requires AllSameTimes(a, b) && AllSameTimes(b, c)
    ensures AllSameTimes(a, c)
  {
    forall k | 0 <= k < |a|
      ensures SameTimes(a[k], c[k])
    {
      SameTimesTrans(a[k], b[k], c[k]);
    }
  }

  /** One more command keeps the ticks and sustains the notes had at the start. */
  lemma RunStepKeepsTimes(ns: seq<seq<Note>>, before: seq<seq<Note>>, cmd: Command, modes: seq<GameMode>, resolution: nat)
    requires |modes| == |before| && Fits(cmd, |before|) && AllSameTimes(ns, before)
    ensures AllSameTimes(ns, Run(before, cmd, modes, resolution))
  {
    RunKeepsTimes(before, cmd, modes, resolution);
    AllSameTimesTrans(ns, before, Run(before, cmd, modes, resolution));
  }

  lemma {:induction false} SysexPassKeepsTimes(ns: seq<seq<Note>>, events: seq<Sysex>, n: nat, instrument: Instrument, modes: seq<GameMode>, resolution: nat)
    requires n <= |events| && Shaped(ns, instrument, modes)
    ensures AllSameTimes(ns, SysexPass(ns, events, n, instrument, modes, resolution))
  {
    if n > 0 {
      SysexPassKeepsTimes(ns, events, n - 1, instrument, modes, resolution);
      RunStepKeepsTimes(ns, SysexPass(ns, events, n - 1, instrument, modes, resolution), SysexCommand(events, n - 1, instrument), modes, resolution);
    }
  }

  lemma {:induction false} ForcePassKeepsTimes(ns: seq<seq<Note>>, forcing: seq<Forcing>, n: nat, instrument: Instrument, modes: seq<GameMode>, resolution: nat)
    requires n <= |forcing| && Shaped(ns, instrument, modes)
    ensures AllSameTimes(ns, ForcePass(ns, forcing, n, instrument, modes, resolution))
  {
    if n > 0 {
      ForcePassKeepsTimes(ns, forcing, n - 1, instrument, modes, resolution);
      RunStepKeepsTimes(ns, ForcePass(ns, forcing, n - 1, instrument, modes, resolution), ForceCommand(forcing[n - 1], instrument), modes, resolution);
    }
  }

  // ================================================================ ReadNotes

  /** The game mode of each chart of the group. */
  function ModesOf(charts: seq<Chart>): seq<GameMode>
  {
    seq(|charts|, c requires 0 <= c < |charts| => charts[c].gameMode)
  }

  /** The `notes` cache of each chart of the group. */
  function NotesOfCharts(charts: seq<Chart>): seq<seq<Note>>
  {
    seq(|charts|, c requires 0 <= c < |charts| => NotesOf(charts[c].objects))
  }

  /** Each chart with its notes replaced by the edited ones: the passes edit the very note objects
      of the charts' lists. */
  function Restore(charts: seq<Chart>, ns: seq<seq<Note>>): seq<Chart>
    requires |ns| == |charts| && forall c :: 0 <= c < |charts| ==> |ns[c]| == |NotesOf(charts[c].objects)|
  {
    seq(|charts|, c requires 0 <= c < |charts| => charts[c].(objects := WithNotes(charts[c].objects, ns[c])))
  }

  /** The load loop of `ReadNotes` over `group`, with its sustain cutoff. */
  function Load(group: seq<Chart>, track: seq<MidiEvent>, instrument: Instrument, resolution: nat): Loading
    requires |group| > 0
  {
    Performed(group, Actions(track, instrument, SustainCutoff(resolution)), |track|)
  }

  /** The charts' notes after the sysex pass and then the forcing pass. */
  function EditedNotes(group: seq<Chart>, track: seq<MidiEvent>, instrument: Instrument, resolution: nat): (r: seq<seq<Note>>)
    requires |group| == GroupSize(instrument)
    ensures AllSameTimes(NotesOfCharts(Load(group, track, instrument, resolution).charts), r)
  {
    var loaded := Load(group, track, instrument, resolution);
    var modes := ModesOf(loaded.charts);
    var ns := NotesOfCharts(loaded.charts);
    var tapped := SysexPass(ns, loaded.sysex, |loaded.sysex|, instrument, modes, resolution);
    SysexPassKeepsTimes(ns, loaded.sysex, |loaded.sysex|, instrument, modes, resolution);
    ForcePassKeepsTimes(tapped, loaded.forcing, |loaded.forcing|, instrument, modes, resolution);
    ForcePass(tapped, loaded.forcing, |loaded.forcing|, instrument, modes, resolution)
  }

  /** What `ReadNotes` leaves in the charts of `group` (the instrument's four charts, Expert to
      Easy, or the one fresh unrecognised chart): the track loaded into them, then their notes
      edited by the tap and open-note sections and by the forcing notes. */
  function ReadNotesCharts(group: seq<Chart>, track: seq<MidiEvent>, instrument: Instrument, resolution: nat): (r: seq<Chart>)
    requires |group| == GroupSize(instrument)
    ensures |r| == |group|
  {
    Restore(Load(group, track, instrument, resolution).charts, EditedNotes(group, track, instrument, resolution))
  }

  /** `ReadNotes` on the charts of one group, as the source runs it: load, then the sysex loop,
      then the forcing loop, on the charts' note arrays. */
  method ReadGroup(group: seq<Chart>, track: seq<MidiEvent>, instrument: Instrument, resolution: nat) returns (r: seq<Chart>)
    requires |group| == GroupSize(instrument)
    ensures r == ReadNotesCharts(group, track, instrument, resolution)
  {
    var loaded := LoadNotes(group, track, instrument, SustainCutoff(resolution));
    var modes := ModesOf(loaded.charts);
    var tapped := ApplySysexEvents(NotesOfCharts(loaded.charts), loaded.sysex, instrument, modes, resolution);
    var forced := ApplyForcing(tapped, loaded.forcing, instrument, modes, resolution);
    assert forced == EditedNotes(group, track, instrument, resolution);
    r := Restore(loaded.charts, forced);
  }

  /** The chart `new Chart(song, Instrument.Unrecognised)` makes for a track of another name. */
  const UNRECOGNISED_CHART: Chart := Chart("", InstrumentToChartGameMode(Instrument.Unrecognised), [])

  /** The grid slot of a recognised instrument's Expert chart; its four charts follow in a row. */
  function GroupBase(instrument: Instrument): (b: nat)
    requires instrument != Instrument.Unrecognised
    ensures b + DIFFICULTY_COUNT <= CHART_COUNT
    ensures forall d :: ChartIndex(instrument, d) == b + DifficultyValue(d)
  {
    InstrumentValue(instrument) * DIFFICULTY_COUNT
  }

  /** What reading tracks changes in a song: its chart grid, its unrecognised charts and its
      event list. */
  datatype SongContent = SongContent(charts: seq<Chart>, unrecognised: seq<Chart>, events: seq<GlobalEvent>)

  ghost function ContentOf(song: Song): SongContent
    reads song, song.charts
  {
    SongContent(song.charts[..], song.unrecognisedCharts, song.events)
  }

  /** The content after `ReadNotes` of a track: a new unrecognised chart appended, or the
      instrument's four charts replaced by what the track leaves in them. */
  function NotesContent(c: SongContent, track: seq<MidiEvent>, instrument: Instrument, resolution: nat): (r: SongContent)
    requires |c.charts| == CHART_COUNT
    ensures |r.charts| == CHART_COUNT && r.events == c.events
  {
    if instrument == Instrument.Unrecognised then
      c.(unrecognised := c.unrecognised + ReadNotesCharts([UNRECOGNISED_CHART], track, instrument, resolution))
    else
      var base := GroupBase(instrument);
      var group := ReadNotesCharts(c.charts[base..base + DIFFICULTY_COUNT], track, instrument, resolution);
      c.(charts := PlaceGroup(c.charts, base, group))
  }

  /** `ReadNotes(track, song, instrument)`: an unrecognised track becomes a new chart appended to
      the unrecognised charts; a recognised one is read into the instrument's four charts, and no
      other chart changes (`NotesContent`). */
  method ReadNotes(song: Song, track: seq<MidiEvent>, instrument: Instrument)
    requires song.Valid()
    modifies song, song.charts
    ensures song.Valid() && song.KeepsSettings()
    ensures song.syncTrack == old(song.syncTrack)
    ensures old(song.CacheFresh()) ==> song.CacheFresh()
    ensures ContentOf(song) == NotesContent(old(ContentOf(song)), track, instrument, song.resolution)
  {
    if instrument == Instrument.Unrecognised {
      ReadUnrecognisedTrack(song, track);
    } else {
      ReadInstrumentTrack(song, track, instrument);
    }
  }

  /** `ReadNotes` on a track of no known instrument: a fresh chart read and appended. */
  method ReadUnrecognisedTrack(song: Song, track: seq<MidiEvent>)
    requires song.Valid()
    modifies song
    ensures song.Valid() && song.KeepsSettings()
    ensures song.syncTrack == old(song.syncTrack)
    ensures old(song.CacheFresh()) ==> song.CacheFresh()
    ensures ContentOf(song) == NotesContent(old(ContentOf(song)), track, Instrument.Unrecognised, song.resolution)
  {
    var r := ReadGroup([UNRECOGNISED_CHART], track, Instrument.Unrecognised, song.resolution);
    song.unrecognisedCharts := song.unrecognisedCharts + r;
  }

  /** `ReadNotes` on an instrument's track: its four charts read and written back in place. */
  method ReadInstrumentTrack(song: Song, track: seq<MidiEvent>, instrument: Instrument)
    requires song.charts.Length == CHART_COUNT && instrument != Instrument.Unrecognised
    modifies song.charts
    ensures ContentOf(song) == NotesContent(old(ContentOf(song)), track, instrument, song.resolution)
  {
    ghost var c := ContentOf(song);
    var base := GroupBase(instrument);
    var group := song.charts[base..base + DIFFICULTY_COUNT];
    assert group == c.charts[base..base + DIFFICULTY_COUNT];
    var r := ReadGroup(group, track, instrument, song.resolution);
    PutGroup(song.charts, base, r);
    assert ContentOf(song) == c.(charts := PlaceGroup(c.charts, base, r));
  }

  /** The writes of the edited charts back into the grid: the source edits them in place. */
  method PutGroup(charts: array<Chart>, base: nat, r: seq<Chart>)
    requires base + |r| <= charts.Length
    modifies charts
    ensures charts[..] == PlaceGroup(old(charts[..]), base, r)
  {
    var d := 0;
    while d < |r|
      invariant d <= |r|
      invariant forall k :: 0 <= k < charts.Length ==>
        charts[k] == if base <= k < base + d then r[k - base] else old(charts[k])
    {
      charts[base + d] := r[d];
      d := d + 1;
    }
    PlacedGroup(old(charts[..]), charts[..], base, r);
  }

  /** `charts` with the slice from `base` replaced by `group`. */
  function PlaceGroup(charts: seq<Chart>, base: nat, group: seq<Chart>): (r: seq<Chart>)
    requires base + |group| <= |charts|
    ensures |r| == |charts|
    ensures forall k :: 0 <= k < |r| ==> r[k] == if base <= k < base + |group| then group[k - base] else charts[k]
  {
    charts[..base] + group + charts[base + |group|..]
  }

  /** A list that agrees with `before` outside `base .. base + |group|` and with `group` inside
      it is `before` with that slice replaced. */
  lemma PlacedGroup(before: seq<Chart>, after: seq<Chart>, base: nat, group: seq<Chart>)
    requires |after| == |before| && base + |group| <= |before|
    requires forall k :: 0 <= k < |after| ==>
      after[k] == if base <= k < base + |group| then group[k - base] else before[k]
    ensures after == PlaceGroup(before, base, group)
  {
    var placed := PlaceGroup(before, base, group);
    forall k | 0 <= k < |after|
      ensures after[k] == placed[k]
    {
      if k < base {
      } else if k < base + |group| {
      } else {
      }
    }
  }

  // ================================================================ what ReadNotes promises

  /** Loading never renames a recognised chart nor changes a chart's game mode. */
  lemma {:induction false} PerformedKeepsModes(init: seq<Chart>, acts: seq<Action>, n: nat)
    requires n <= |acts| && |init| > 0
    ensures forall c :: 0 <= c < |init| ==> Performed(init, acts, n).charts[c].gameMode == init[c].gameMode
    ensures (forall k :: 0 <= k < n ==> !acts[k].NameChart?) ==>
      forall c :: 0 <= c < |init| ==> Performed(init, acts, n).charts[c].name == init[c].name
  {
    if n > 0 {
      PerformedKeepsModes(init, acts, n - 1);
    }
  }

  /** The sysex events of the first `n` events of the track, in order. */
  function SysexEventsOf(track: seq<MidiEvent>, n: nat): (r: seq<Sysex>)
    requires n <= |track|
    ensures |r| <= n
  {
    if n == 0 then []
    else if track[n - 1].SysexEvent? then SysexEventsOf(track, n - 1) + [Sysex(track[n - 1].time, track[n - 1].data)]
    else SysexEventsOf(track, n - 1)
  }

  lemma SysexAction(e: MidiEvent, first: bool, instrument: Instrument, cutoff: nat)
    ensures ActionOf(e, first, instrument, cutoff).BufferSysex? <==> e.SysexEvent?
    ensures e.SysexEvent? ==> ActionOf(e, first, instrument, cutoff) == BufferSysex(Sysex(e.time, e.data))
  {
  }

  /** The sysex buffer is every sysex event of the track, in the track's order. */
  lemma {:induction false} LoadedSysex(init: seq<Chart>, track: seq<MidiEvent>, instrument: Instrument, cutoff: nat, n: nat)
    requires n <= |track| && |init| > 0
    ensures Performed(init, Actions(track, instrument, cutoff), n).sysex == SysexEventsOf(track, n)
  {
    var acts := Actions(track, instrument, cutoff);
    PerformedSysex(init, acts, n);
    BufferedSysexOfTrack(track, instrument, cutoff, n);
  }

  /** The sysex events the first `n` actions buffer, in order. */
  function BufferedSysex(acts: seq<Action>, n: nat): seq<Sysex>
    requires n <= |acts|
  {
    if n == 0 then []
    else if acts[n - 1].BufferSysex? then BufferedSysex(acts, n - 1) + [acts[n - 1].x]
    else BufferedSysex(acts, n - 1)
  }

  lemma {:induction false} PerformedSysex(init: seq<Chart>, acts: seq<Action>, n: nat)
    requires n <= |acts| && |init| > 0
    ensures Performed(init, acts, n).sysex == BufferedSysex(acts, n)
  {
    if n > 0 {
      PerformedSysex(init, acts, n - 1);
      PerformSysex(Performed(init, acts, n - 1), acts[n - 1]);
    }
  }

  /** Each action buffers exactly its event's sysex payload, if it has one. */
  ghost predicate SysexAgree(acts: seq<Action>, track: seq<MidiEvent>)
  {
    |acts| == |track| &&
    forall k :: 0 <= k < |track| ==>
      (acts[k].BufferSysex? <==> track[k].SysexEvent?)
      && (track[k].SysexEvent? ==> acts[k].x == Sysex(track[k].time, track[k].data))
  }

  lemma BufferedSysexOfTrack(track: seq<MidiEvent>, instrument: Instrument, cutoff: nat, n: nat)
    requires n <= |track|
    ensures BufferedSysex(Actions(track, instrument, cutoff), n) == SysexEventsOf(track, n)
  {
    var acts := Actions(track, instrument, cutoff);
    forall k | 0 <= k < |track|
      ensures (acts[k].BufferSysex? <==> track[k].SysexEvent?)
        && (track[k].SysexEvent? ==> acts[k].x == Sysex(track[k].time, track[k].data))
    {
      SysexAction(track[k], k == 0, instrument, cutoff);
    }
    BufferedSysexAgree(acts, track, n);
  }

  lemma {:induction false} BufferedSysexAgree(acts: seq<Action>, track: seq<MidiEvent>, n: nat)
    requires SysexAgree(acts, track) && n <= |track|
    ensures BufferedSysex(acts, n) == SysexEventsOf(track, n)
  {
    if n > 0 {
      BufferedSysexAgree(acts, track, n - 1);
    }
  }


  /** Only a buffered sysex event changes the sysex buffer. */
  lemma PerformSysex(st: Loading, a: Action)
    requires |st.charts| > 0
    ensures Perform(st, a).sysex == if a.BufferSysex? then st.sysex + [a.x] else st.sysex
  {
  }

  /** What `ReadNotes` keeps of the loaded charts: every chart keeps its name, its game mode and
      its objects other than notes, in place; every note keeps its place, tick and sustain. */
  lemma ReadNotesKeeps(group: seq<Chart>, track: seq<MidiEvent>, instrument: Instrument, resolution: nat)
    requires |group| == GroupSize(instrument)
    ensures var loaded := Load(group, track, instrument, resolution).charts;
      var r := ReadNotesCharts(group, track, instrument, resolution);
      && |r| == |group|
      && (forall c :: 0 <= c < |r| ==>
           r[c].name == loaded[c].name && r[c].gameMode == group[c].gameMode
           && |r[c].objects| == |loaded[c].objects|)
      && (forall c, k :: 0 <= c < |r| && 0 <= k < |loaded[c].objects| ==>
           if loaded[c].objects[k].NoteObject? then r[c].objects[k].NoteObject?
           else r[c].objects[k] == loaded[c].objects[k])
      && AllSameTimes(NotesOfCharts(loaded), NotesOfCharts(r))
  {
    PerformedKeepsModes(group, Actions(track, instrument, SustainCutoff(resolution)), |track|);
  }

  /** Notes come out in tick order from charts whose object lists were sorted. */
  lemma ReadNotesSortedNotes(group: seq<Chart>, track: seq<MidiEvent>, instrument: Instrument, resolution: nat, c: nat)
    requires |group| == GroupSize(instrument) && c < |group|
    requires Sorted(group[c].objects, ChartKey)
    ensures SortedByPosition(NotesOf(ReadNotesCharts(group, track, instrument, resolution)[c].objects))
  {
    var cutoff := SustainCutoff(resolution);
    var loaded := Load(group, track, instrument, resolution).charts;
    PerformedKeeps(group, Actions(track, instrument, cutoff), |track|, o => true);
    SortedNotes(loaded[c].objects);
    ReadNotesKeeps(group, track, instrument, resolution);
    var before := NotesOf(loaded[c].objects);
    var after := NotesOf(ReadNotesCharts(group, track, instrument, resolution)[c].objects);
    assert SameTimes(before, after) by {
      assert NotesOfCharts(loaded)[c] == before;
    }
  }

  /** With no sysex event and no forcing note, `ReadNotes` is its load loop alone; so it is on a
      drums or unrecognised track without sysex events. */
  lemma ReadNotesWithoutSections(group: seq<Chart>, track: seq<MidiEvent>, instrument: Instrument, resolution: nat)
    requires |group| == GroupSize(instrument)
    requires Load(group, track, instrument, resolution).sysex == [] && Load(group, track, instrument, resolution).forcing == []
    ensures ReadNotesCharts(group, track, instrument, resolution) == Load(group, track, instrument, resolution).charts
  {
    var loaded := Load(group, track, instrument, resolution).charts;
    forall c | 0 <= c < |loaded|
      ensures WithNotes(loaded[c].objects, NotesOfCharts(loaded)[c]) == loaded[c].objects
    {
      WithOwnNotes(loaded[c].objects);
    }
  }

  lemma ReadNotesPlainTrack(group: seq<Chart>, track: seq<MidiEvent>, instrument: Instrument, resolution: nat)
    requires |group| == GroupSize(instrument)
    requires instrument == Instrument.Drums || instrument == Instrument.Unrecognised
    requires forall k :: 0 <= k < |track| ==> !track[k].SysexEvent?
    ensures ReadNotesCharts(group, track, instrument, resolution) == Load(group, track, instrument, resolution).charts
  {
    var cutoff := SustainCutoff(resolution);
    LoadedSysex(group, track, instrument, cutoff, |track|);
    NoSysexEvents(track, |track|);
    LoadedForcing(group, track, instrument, cutoff);
    ReadNotesWithoutSections(group, track, instrument, resolution);
  }

  lemma {:induction false} NoSysexEvents(track: seq<MidiEvent>, n: nat)
    requires n <= |track|
    requires forall k :: 0 <= k < |track| ==> !track[k].SysexEvent?
    ensures SysexEventsOf(track, n) == []
  {
    if n > 0 {
      NoSysexEvents(track, n - 1);
    }
  }

  // ================================================================ the events track

  /** The global event a text event of the events track adds: a text containing "[section "
      names a section by its characters from index 9 up to its last; one containing "[prc_" by its
      characters from index 5 up to its last; any other text is an event titled by the text
      without its surrounding square brackets. `None` where the cut does not fit the text, where the
      source's `Substring` throws. */
  function GlobalEventOf(text: string, time: nat): (r: Option<GlobalEvent>)
    ensures r.Some? ==> r.value.position == ChartWriter.CastUInt(time)
    ensures r.None? <==> (Contains(text, "[section ") && |text| < 10) || (!Contains(text, "[section ") && Contains(text, "[prc_") && |text| < 6)
  {
    var tick := ChartWriter.CastUInt(time);
    if Contains(text, "[section ") then
      match ChartReader.Substring(text, 9, |text| - 10)
      case None => None
      case Some(title) => Some(Section(tick, title))
    else if Contains(text, "[prc_") then
      match ChartReader.Substring(text, 5, |text| - 6)
      case None => None
      case Some(title) => Some(Section(tick, title))
    else Some(Event(tick, TrimChars(text, {'[', ']'})))
  }

  /** A "[section <title>]" text reads back as the section `title`. */
  lemma SectionText(title: string, time: nat)
    ensures GlobalEventOf("[section " + title + "]", time) == Some(Section(ChartWriter.CastUInt(time), title))
  {
    var text := "[section " + title + "]";
    assert OccursAt(text, "[section ", 0);
    assert text[9..|text| - 1] == title;
  }

  /** No '[' in `s` but at index 0: then a marker starting with '[' can only occur there. */
  lemma OnlyLeadingBracket(s: string, marker: string, k: nat)
    requires |s| > 0 && |marker| > 1 && marker[0] == '['
    requires forall j :: 0 < j < |s| ==> s[j] != '['
    requires OccursAt(s, marker, k)
    ensures k == 0 && s[1] == marker[1]
  {
    assert s[k..k + |marker|][0] == marker[0];
    assert s[k..k + |marker|][1] == marker[1];
  }

  /** A "[prc_<title>]" text whose title holds no '[' reads back as the section `title`. */
  lemma PrcText(title: string, time: nat)
    requires forall j :: 0 <= j < |title| ==> title[j] != '['
    ensures GlobalEventOf("[prc_" + title + "]", time) == Some(Section(ChartWriter.CastUInt(time), title))
  {
    var text := "[prc_" + title + "]";
    assert OccursAt(text, "[prc_", 0);
    if Contains(text, "[section ") {
      var k :| 0 <= k <= |text| - 9 && OccursAt(text, "[section ", k);
      OnlyLeadingBracket(text, "[section ", k);
    }
    assert text[5..|text| - 1] == title;
  }

  /** A bracketed title holding no square bracket and starting neither with "section " nor with
      "prc_" contains neither marker. */
  lemma NoMarkers(title: string)
    requires forall j :: 0 <= j < |title| ==> title[j] != '['
    requires !StartsWith(title, "section ") && !StartsWith(title, "prc_")
    ensures !Contains("[" + title + "]", "[section ") && !Contains("[" + title + "]", "[prc_")
  {
    var text := "[" + title + "]";
    forall k | 0 <= k <= |text| - 9
      ensures !OccursAt(text, "[section ", k)
    {
      if k > 0 {
        assert text[k..k + 9][0] == title[k - 1];
      } else if |title| >= 8 {
        assert text[..9][1..] == title[..8];
      } else {
        assert text[..9][8] == ']';
      }
    }
    forall k | 0 <= k <= |text| - 5
      ensures !OccursAt(text, "[prc_", k)
    {
      if k > 0 {
        assert text[k..k + 5][0] == title[k - 1];
      } else if |title| >= 4 {
        assert text[..5][1..] == title[..4];
      } else {
        assert text[..5][4] == ']';
      }
    }
  }

  /** Trimming the brackets off "[<title>]" gives `title` back when it holds no bracket. */
  lemma TrimBrackets(title: string)
    requires forall j :: 0 <= j < |title| ==> title[j] != '[' && title[j] != ']'
    ensures TrimChars("[" + title + "]", {'[', ']'}) == title
  {
    var cs := {'[', ']'};
    var inner := title + "]";
    assert "[" + title + "]" == ['['] + inner;
    if |title| == 0 {
      assert (['['] + inner)[1..] == [']'] + [];
      TrimStartOne(']', [], cs);
    } else {
      assert inner[0] == title[0];
      TrimStartOne('[', inner, cs);
      TrimEndOne(title, ']', cs);
    }
  }

  /** A leading trimmed character goes, and trimming stops at the next one that is kept. */
  lemma TrimStartOne(c: char, t: string, cs: set<char>)
    requires c in cs && (t == [] || t[0] !in cs)
    ensures TrimStart([c] + t, cs) == t
  {
    assert ([c] + t)[1..] == t;
  }

  /** A trailing trimmed character goes, and trimming stops at the one before it if kept. */
  lemma TrimEndOne(t: string, c: char, cs: set<char>)
    requires c in cs && (t == [] || t[|t| - 1] !in cs)
    ensures TrimEnd(t + [c], cs) == t
  {
    assert (t + [c])[..|t|] == t;
  }

  /** A "[<title>]" text whose title holds no square bracket, and starts neither with "section "
      nor with "prc_", reads back as the event `title`. */
  lemma EventText(title: string, time: nat)
    requires forall j :: 0 <= j < |title| ==> title[j] != '[' && title[j] != ']'
    requires !StartsWith(title, "section ") && !StartsWith(title, "prc_")
    ensures GlobalEventOf("[" + title + "]", time) == Some(Event(ChartWriter.CastUInt(time), title))
  {
    NoMarkers(title);
    TrimBrackets(title);
  }

  /** A bare "[section " has no room for a title: the source throws. */
  lemma BareSectionMarker(time: nat)
    ensures GlobalEventOf("[section ", time).None?
  {
    assert OccursAt("[section ", "[section ", 0);
  }

  /** The events of the first `n` events of the events track, its name (event 0) aside: `None`
      if one of them makes the source throw. */
  function GlobalEventsOf(track: seq<MidiEvent>, n: nat): (r: Option<seq<GlobalEvent>>)
    requires n <= |track|
  {
    if n <= 1 then Some([])
    else
      match GlobalEventsOf(track, n - 1)
      case None => None
      case Some(es) =>
        if !track[n - 1].TextEvent? then Some(es)
        else
          match GlobalEventOf(track[n - 1].text, track[n - 1].time)
          case None => None
          case Some(e) => Some(es + [e])
  }

  /** The event list after `Add`ing each of `es` in turn. */
  function InsertAll(events: seq<GlobalEvent>, es: seq<GlobalEvent>): (r: seq<GlobalEvent>)
    ensures Sorted(events, EventKey) ==> Sorted(r, EventKey)
    ensures |es| > 0 ==> es[|es| - 1] in r
    ensures forall y :: y in r ==> y in events || y in es
  {
    if |es| == 0 then events
    else Insert(InsertAll(events, es[..|es| - 1]), es[|es| - 1], EventKey, SameEvent)
  }

  /** One more event of the events track. */
  lemma GlobalEventsStep(track: seq<MidiEvent>, i: nat)
    requires 1 <= i < |track| && GlobalEventsOf(track, i).Some?
    ensures var es := GlobalEventsOf(track, i).value;
      GlobalEventsOf(track, i + 1) ==
        if !track[i].TextEvent? then Some(es)
        else if GlobalEventOf(track[i].text, track[i].time).None? then None
        else Some(es + [GlobalEventOf(track[i].text, track[i].time).value])
  {
  }

  lemma InsertAllStep(events: seq<GlobalEvent>, es: seq<GlobalEvent>, e: GlobalEvent)
    ensures InsertAll(events, es + [e]) == Insert(InsertAll(events, es), e, EventKey, SameEvent)
  {
    assert (es + [e])[..|es|] == es;
  }

  /** `ReadSongGlobalEvents(track, song)`: adds the events track's events to the song, then
      rebuilds the song's caches; `ok` is false where the source throws. */
  method ReadSongGlobalEvents(song: Song, track: seq<MidiEvent>) returns (ok: bool)
    requires song.Valid()
    modifies song
    ensures song.Valid() && song.KeepsSettings()
    ensures song.syncTrack == old(song.syncTrack) && song.unrecognisedCharts == old(song.unrecognisedCharts)
    ensures ok <==> GlobalEventsOf(track, |track|).Some?
    ensures ok ==> song.events == InsertAll(old(song.events), GlobalEventsOf(track, |track|).value) && song.CacheFresh()
  {
    if |track| <= 1 {
      song.UpdateCache();
      return true;
    }
    var i := 1;
    ghost var es: seq<GlobalEvent> := [];
    while i < |track|
      invariant 1 <= i <= |track|
      invariant song.Valid() && song.KeepsSettings()
      invariant song.syncTrack == old(song.syncTrack) && song.unrecognisedCharts == old(song.unrecognisedCharts)
      invariant GlobalEventsOf(track, i) == Some(es)
      invariant song.events == InsertAll(old(song.events), es)
    {
      GlobalEventsStep(track, i);
      if track[i].TextEvent? {
        var e := GlobalEventOf(track[i].text, track[i].time);
        if e.None? {
          NoRecovery(track, i + 1);
          return false;
        }
        var _ := song.AddNewEvent(e.value);
        InsertAllStep(old(song.events), es, e.value);
        es := es + [e.value];
      }
      i := i + 1;
    }
    song.UpdateCache();
    ok := true;
  }

  /** Once an event makes the source throw, the read of the track fails. */
  lemma {:induction false} NoRecovery(track: seq<MidiEvent>, n: nat)
    requires n <= |track|
    ensures GlobalEventsOf(track, n).None? ==> GlobalEventsOf(track, |track|).None?
    decreases |track| - n
  {
    if n < |track| {
      NoRecovery(track, n + 1);
    }
  }

  // ================================================================ the tracks of the file

  /** What `ReadMidi` does with a track, by its name. */
  datatype TrackRole = GlobalEventsTrack | NotesTrack(instrument: Instrument) | Skipped

  /** The switch on the lower-cased name of a track: the events track, one of the seven named
      parts, two names read as nothing, and any other name as an unrecognised part. */
  function TrackRoleOf(name: string): (r: TrackRole)
    ensures r == GlobalEventsTrack <==> ToLower(name) == "events"
    ensures r == Skipped <==> ToLower(name) == "t1 gems" || ToLower(name) == "beat"
    ensures r.NotesTrack? && r.instrument != Instrument.Unrecognised ==> PartName(r.instrument) == Some(ToLower(name))
  {
    var n := ToLower(name);
    if n == "events" then GlobalEventsTrack
    else if n == "part guitar" then NotesTrack(Instrument.Guitar)
    else if n == "t1 gems" then Skipped
    else if n == "part bass" then NotesTrack(Instrument.Bass)
    else if n == "part rhythm" then NotesTrack(Instrument.Rhythm)
    else if n == "part keys" then NotesTrack(Instrument.Keys)
    else if n == "part drums" then NotesTrack(Instrument.Drums)
    else if n == "part guitar ghl" then NotesTrack(Instrument.GHLiveGuitar)
    else if n == "part bass ghl" then NotesTrack(Instrument.GHLiveBass)
    else if n == "beat" then Skipped
    else NotesTrack(Instrument.Unrecognised)
  }

  /** The name a part track of each recognised instrument carries; guitar co-op has none. */
  function PartName(instrument: Instrument): Option<string>
  {
    match instrument
    case Guitar => Some("part guitar")
    case Bass => Some("part bass")
    case Rhythm => Some("part rhythm")
    case Keys => Some("part keys")
    case Drums => Some("part drums")
    case GHLiveGuitar => Some("part guitar ghl")
    case GHLiveBass => Some("part bass ghl")
    case _ => None
  }

  lemma LowerCharIdempotent(c: char)
    ensures LowerChar(LowerChar(c)) == LowerChar(c)
  {
  }

  /** Track names are matched without regard to case. */
  lemma TrackRoleIgnoresCase(name: string)
    ensures TrackRoleOf(ToLower(name)) == TrackRoleOf(name)
  {
    forall i | 0 <= i < |name|
      ensures ToLower(ToLower(name))[i] == ToLower(name)[i]
    {
      LowerCharIdempotent(name[i]);
    }
    assert ToLower(ToLower(name)) == ToLower(name);
  }

  /** Each recognised instrument but guitar co-op is read from the track of its part name, and
      no name reads as guitar co-op. */
  lemma PartNamesDispatch(instrument: Instrument, name: string)
    ensures PartName(instrument).Some? ==> TrackRoleOf(PartName(instrument).value) == NotesTrack(instrument)
    ensures PartName(instrument).None? <==> instrument == Instrument.GuitarCoop || instrument == Instrument.Unrecognised
    ensures TrackRoleOf(name) != NotesTrack(Instrument.GuitarCoop)
  {
    if PartName(instrument).Some? {
      var n := PartName(instrument).value;
      assert ToLower(n) == n;
    }
  }

  /** A track the loop of `ReadMidi` can read: it has a first event (its name, when that is a text
      event), and an events track's events fit their cuts. */
  predicate Readable(track: seq<MidiEvent>)
  {
    |track| > 0
    && (track[0].TextEvent? && TrackRoleOf(track[0].text) == GlobalEventsTrack ==> GlobalEventsOf(track, |track|).Some?)
  }

  /** The content after one turn of the loop of `ReadMidi`: `None` where the source throws. A
      track whose first event is not a text event, and a skipped name, change nothing; the
      events track adds its events; a part track is read by `ReadNotes`. */
  function TrackContent(c: SongContent, track: seq<MidiEvent>, resolution: nat): (r: Option<SongContent>)
    requires |c.charts| == CHART_COUNT
    ensures r.Some? <==> Readable(track)
    ensures r.Some? ==> |r.value.charts| == CHART_COUNT
  {
    if |track| == 0 then None
    else if !track[0].TextEvent? then Some(c)
    else
      match TrackRoleOf(track[0].text)
      case GlobalEventsTrack =>
        (match GlobalEventsOf(track, |track|)
         case None => None
         case Some(es) => Some(c.(events := InsertAll(c.events, es))))
      case NotesTrack(instrument) => Some(NotesContent(c, track, instrument, resolution))
      case Skipped => Some(c)
  }

  /** The content after the tracks are read in turn: `None` once one of them throws. */
  function TracksContent(c: SongContent, tracks: seq<seq<MidiEvent>>, resolution: nat): (r: Option<SongContent>)
    requires |c.charts| == CHART_COUNT
    ensures r.Some? <==> forall i :: 0 <= i < |tracks| ==> Readable(tracks[i])
    ensures r.Some? ==> |r.value.charts| == CHART_COUNT
  {
    if |tracks| == 0 then Some(c)
    else
      match TracksContent(c, tracks[..|tracks| - 1], resolution)
      case None => None
      case Some(d) => TrackContent(d, tracks[|tracks| - 1], resolution)
  }

  /** The loop of `ReadMidi` over the tracks after the tempo track, read in turn as
      `TracksContent` says. `ok` is false where the source throws, and the loop stops there. */
  method ReadTracks(song: Song, tracks: seq<seq<MidiEvent>>) returns (ok: bool)
    requires song.Valid()
    modifies song, song.charts
    ensures song.Valid() && song.KeepsSettings()
    ensures song.syncTrack == old(song.syncTrack)
    ensures ok <==> forall i :: 1 <= i < |tracks| ==> Readable(tracks[i])
    ensures ok && |tracks| > 0 ==>
      TracksContent(old(ContentOf(song)), tracks[1..], song.resolution) == Some(ContentOf(song))
    ensures |tracks| == 0 ==> ContentOf(song) == old(ContentOf(song))
  {
    ghost var c0 := ContentOf(song);
    var i := 1;
    while i < |tracks|
      invariant 1 <= i
      invariant song.Valid() && song.KeepsSettings()
      invariant song.syncTrack == old(song.syncTrack)
      invariant forall j :: 1 <= j < i && j < |tracks| ==> Readable(tracks[j])
      invariant |tracks| > 0 ==> i <= |tracks| && TracksContent(c0, tracks[1..i], song.resolution) == Some(ContentOf(song))
      invariant |tracks| == 0 ==> ContentOf(song) == c0
    {
      ghost var before := ContentOf(song);
      var read := DispatchTrack(song, tracks[i]);
      if !read {
        return false;
      }
      i := i + 1;
      TracksContentStep(c0, tracks, i, before, song.resolution);
    }
    assert |tracks| > 0 ==> tracks[1..i] == tracks[1..];
    ok := true;
  }

  /** The tracks up to `n` are those up to `n - 1`, then track `n - 1`. */
  lemma TracksContentStep(c: SongContent, tracks: seq<seq<MidiEvent>>, n: nat, d: SongContent, resolution: nat)
    requires |c.charts| == CHART_COUNT && 2 <= n <= |tracks|
    requires TracksContent(c, tracks[1..n - 1], resolution) == Some(d)
    ensures TracksContent(c, tracks[1..n], resolution) == TrackContent(d, tracks[n - 1], resolution)
  {
    assert tracks[1..n][..n - 2] == tracks[1..n - 1];
  }

  /** One turn of the loop of `ReadMidi`: a track without events throws; a track whose first
      event is not a text event is passed over; the others are read as their name says. */
  method DispatchTrack(song: Song, track: seq<MidiEvent>) returns (ok: bool)
    requires song.Valid()
    modifies song, song.charts
    ensures song.Valid() && song.KeepsSettings()
    ensures song.syncTrack == old(song.syncTrack)
    ensures ok <==> Readable(track)
    ensures ok ==> TrackContent(old(ContentOf(song)), track, song.resolution) == Some(ContentOf(song))
  {
    if |track| == 0 {
      return false;
    }
    ok := true;
    if track[0].TextEvent? {
      var role := TrackRoleOf(track[0].text);
      match role
      case GlobalEventsTrack =>
        ok := ReadSongGlobalEvents(song, track);
      case NotesTrack(instrument) =>
        ReadNotes(song, track, instrument);
      case Skipped =>
    }
  }
}
