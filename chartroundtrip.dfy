/** What the reader makes of a whole block the writer produces. A chart written at its own
    resolution, without an offset and with the flag lines on, reads back as the same objects in
    the same order. Each note gets the flags its chord's last note was written with, since the
    writer writes a chord's flags once, after its last note, and leaves TAP off when that note
    is open. */
module ChartRoundTrip {
  import opened Wrappers
  import opened Text
  import opened Notes
  import opened SongObjects
  import opened Songs
  import opened ChartReader
  import opened ChartWriter
  import opened RoundTrip

  // ================================================================ what the format holds

  /** An export that keeps ticks: the song's own resolution, no offset, and the flag lines on. */
  predicate KeepsTicks(ctx: Context)
  {
    ctx.options.targetResolution == ctx.resolution && ctx.options.tickOffset == 0 && ctx.options.forced
  }

  /** The five-fret and GH Live charts: the charts whose blocks carry flag lines. */
  predicate HasFlagLines(instrument: Instrument)
  {
    instrument != Instrument.Unrecognised && instrument != Instrument.Drums
  }

  /** An object the format holds: a note on a fret of its chart, a starpower phrase, or a chart
      event named by one word. */
  predicate Representable(o: ChartObject, instrument: Instrument)
  {
    match o
    case NoteObject(n) => IsFretOf(instrument, n.rawNote)
    case Starpower(_, _) => true
    case ChartEvent(_, name) => |name| > 0 && ' ' !in name && name[|name| - 1] !in WHITESPACE
  }

  /** An object list as `Chart.Add` keeps it: sorted, no object equal to the one before it, and
      every object one the format holds. */
  predicate WritableObjects(objs: seq<ChartObject>, instrument: Instrument)
  {
    && Sorted(objs, ChartKey)
    && (forall j, k :: 0 <= j < |objs| && k == j + 1 < |objs| ==> !SameChartObject(objs[j], objs[k]))
    && (forall k :: 0 <= k < |objs| ==> Representable(objs[k], instrument))
  }

  /** An object as its own line reads back: a note loses its flags, which travel on flag lines. */
  function Unflagged(o: ChartObject): (r: ChartObject)
    ensures ChartKey(r) == ChartKey(o)
    ensures SameChartObject(r, o) && (r.NoteObject? <==> o.NoteObject?)
    ensures r.NoteObject? ==> r.note.flags == NONE
  {
    match o
    case NoteObject(n) => NoteObject(n.(flags := NONE))
    case _ => o
  }

  function AllUnflagged(objs: seq<ChartObject>): (r: seq<ChartObject>)
    ensures |r| == |objs| && forall k :: 0 <= k < |objs| ==> r[k] == Unflagged(objs[k])
  {
    seq(|objs|, k requires 0 <= k < |objs| => Unflagged(objs[k]))
  }

  /** The note at `j` is the last note at tick `p`. */
  predicate LastOfChord(objs: seq<ChartObject>, j: nat, p: uint32)
  {
    && j < |objs| && objs[j].NoteObject? && objs[j].note.position == p
    && forall l :: j < l < |objs| && objs[l].NoteObject? ==> objs[l].note.position != p
  }

  /** The flags a chord reads back with when `n` is its last note: the note's FORCED, and its
      TAP unless it is an open note. */
  function ChordFlags(n: Note, mode: GameMode): Flags
  {
    Flags(n.flags.forced, n.flags.tap && !IsOpenNote(n, mode))
  }

  /** The flags the lines of the object at `i` defer to its tick. */
  function FlagEntries(objs: seq<ChartObject>, i: nat, ctx: Context): seq<NoteFlag>
    requires i < |objs|
  {
    match objs[i]
    case NoteObject(n) => NoteFlagEntries(n, ctx.gameMode, ctx.options.forced && EndsChord(ChartList(objs), i))
    case _ => []
  }

  /** The flags the flag lines after the note `n` defer, when `write` says they are written. */
  function NoteFlagEntries(n: Note, mode: GameMode, write: bool): seq<NoteFlag>
  {
    (if write && n.flags.forced then [NoteFlag(n.position, FORCED)] else [])
    + (if write && !IsOpenNote(n, mode) && n.flags.tap then [NoteFlag(n.position, TAP)] else [])
  }

  /** The flags the lines of the first `n` objects defer, in order. */
  function AllFlagEntries(objs: seq<ChartObject>, ctx: Context, n: nat): seq<NoteFlag>
    requires n <= |objs|
  {
    if n == 0 then [] else AllFlagEntries(objs, ctx, n - 1) + FlagEntries(objs, n - 1, ctx)
  }

  // ================================================================ the first pass

  /** What one parsed line does to the first pass's chart and deferred flags. */
  function Step(r: (Chart, seq<NoteFlag>), l: ChartLine): (Chart, seq<NoteFlag>)
  {
    match l
    case AddObject(o) => (ChartAdd(r.0, o), r.1)
    case AddFlag(p, f) => (r.0, r.1 + [NoteFlag(p, f)])
    case SkipLine => r
  }

  /** The first pass over one more line. */
  lemma CollectSnoc(c: Chart, data: seq<string>, line: string, instrument: Instrument)
    ensures Collect(c, data + [line], instrument) == Step(Collect(c, data, instrument), ParseChartLine(line, instrument))
  {
    assert (data + [line])[..|data|] == data;
  }

  /** The first pass over two runs of lines: the second run continues from the chart the first
      left, and the deferred flags are those of the first run, then those of the second. */
  lemma {:induction false} CollectAppend(c: Chart, a: seq<string>, b: seq<string>, instrument: Instrument)
    ensures Collect(c, a + b, instrument)
      == (Collect(Collect(c, a, instrument).0, b, instrument).0,
          Collect(c, a, instrument).1 + Collect(Collect(c, a, instrument).0, b, instrument).1)
    decreases |b|
  {
    if |b| == 0 {
      assert a + b == a;
      var (c1, f1) := Collect(c, a, instrument);
      assert Collect(c1, b, instrument) == (c1, []);
      assert f1 + [] == f1;
    } else {
      var init, line := b[..|b| - 1], b[|b| - 1];
      var (c1, f1) := Collect(c, a, instrument);
      CollectAppend(c, a, init, instrument);
      assert a + b == (a + init) + [line] && b == init + [line];
      CollectSnoc(c, a + init, line, instrument);
      CollectSnoc(c1, init, line, instrument);
      StepKeepsEarlierFlags(Collect(c1, init, instrument), f1, ParseChartLine(line, instrument));
    }
  }

  /** A step adds to the flags it is given and keeps those already there. */
  lemma StepKeepsEarlierFlags(r: (Chart, seq<NoteFlag>), earlier: seq<NoteFlag>, l: ChartLine)
    ensures Step((r.0, earlier + r.1), l) == (Step(r, l).0, earlier + Step(r, l).1)
  {
    if l.AddFlag? {
      assert earlier + r.1 + [NoteFlag(l.position, l.flag)] == earlier + (r.1 + [NoteFlag(l.position, l.flag)]);
    }
  }

  /** The first pass over one line. */
  lemma CollectOne(c: Chart, line: string, instrument: Instrument)
    ensures Collect(c, [line], instrument) == Step((c, []), ParseChartLine(line, instrument))
  {
    CollectSnoc(c, [], line, instrument);
    assert [] + [line] == [line];
  }

  lemma TrimmedAppend(a: seq<string>, b: seq<string>)
    ensures Trimmed(a + b) == Trimmed(a) + Trimmed(b)
  {
  }

  /** The lines of a starpower phrase or a chart event: one line, read back as the object. */
  lemma ItemReadsBack(c: Chart, objs: seq<ChartObject>, i: nat, ctx: Context)
    requires i < |objs| && !objs[i].NoteObject? && KeepsTicks(ctx)
    requires Representable(objs[i], ctx.instrument)
    ensures Collect(c, Trimmed(ObjectGroups(ChartList(objs), ctx)[i]), ReadInstrument(ctx.instrument))
      == (ChartAdd(c, objs[i]), [])
  {
    var saved := ChartList(objs);
    var o, inst := objs[i], ReadInstrument(ctx.instrument);
    var p := o.Position();
    TickAtOwnResolution(p, 0, ctx);
    assert saved[i] == ChartSaved(o);
    assert TickText(saved[i], ctx) == NatToString(p);
    assert ObjectBodies(saved, i, ctx) == [ChartItemBody(o, ctx)];
    var line := Trim(NatToString(p) + ChartItemBody(o, ctx));
    assert Trimmed(ObjectGroups(saved, ctx)[i]) == [line];
    ItemLineReadsBack(o, ctx, inst);
    OneObjectLine(c, line, inst, AddObject(o));
  }

  /** The line of a starpower phrase or a chart event, at the chart's own resolution, parses as
      that object. */
  lemma ItemLineReadsBack(o: ChartObject, ctx: Context, instrument: Instrument)
    requires !o.NoteObject? && KeepsTicks(ctx) && Representable(o, ctx.instrument)
    ensures ParseChartLine(Trim(NatToString(o.Position()) + ChartItemBody(o, ctx)), instrument) == AddObject(o)
  {
    match o
    case Starpower(p, length) =>
      TickAtOwnResolution(p, length, ctx);
      StarpowerLineReadsBack(p, p, length, ctx, instrument);
    case ChartEvent(p, name) =>
      ChartEventLineReadsBack(p, p, name, ctx, instrument);
  }

  /** The lines of a note: its note line adds it without flags, and the flag lines its chord's
      flags, when it ends the chord, are deferred to its tick. */
  lemma NoteReadsBack(c: Chart, objs: seq<ChartObject>, i: nat, ctx: Context)
    requires i < |objs| && objs[i].NoteObject? && KeepsTicks(ctx) && HasFlagLines(ctx.instrument)
    requires Representable(objs[i], ctx.instrument)
    ensures Collect(c, Trimmed(ObjectGroups(ChartList(objs), ctx)[i]), ReadInstrument(ctx.instrument))
      == (ChartAdd(c, Unflagged(objs[i])), FlagEntries(objs, i, ctx))
  {
    var saved := ChartList(objs);
    var n := objs[i].note;
    var write := ctx.options.forced && EndsChord(saved, i);
    TickAtOwnResolution(n.position, n.sustain, ctx);
    assert saved[i] == ChartSaved(NoteObject(n));
    assert TickText(saved[i], ctx) == NatToString(n.position);
    assert ObjectBodies(saved, i, ctx) == NoteBodies(n, ctx, write);
    assert ObjectGroups(saved, ctx)[i] == AtTick(NatToString(n.position), NoteBodies(n, ctx, write));
    NoteLinesRead(c, n, ctx, write);
  }

  /** The lines written for the note `n`, whose flag lines are written when `write` holds. */
  lemma NoteLinesRead(c: Chart, n: Note, ctx: Context, write: bool)
    requires KeepsTicks(ctx) && HasFlagLines(ctx.instrument) && IsFretOf(ctx.instrument, n.rawNote)
    ensures Collect(c, Trimmed(AtTick(NatToString(n.position), NoteBodies(n, ctx, write))), ReadInstrument(ctx.instrument))
      == (ChartAdd(c, NoteObject(n.(flags := NONE))), NoteFlagEntries(n, ctx.gameMode, write))
  {
    var inst := ReadInstrument(ctx.instrument);
    var t := NatToString(n.position);
    TickAtOwnResolution(n.position, n.sustain, ctx);
    var fb := if write && n.flags.forced then [FORCED_BODY] else [];
    var tb := if write && !IsOpenNote(n, ctx.gameMode) && n.flags.tap then [TAP_BODY] else [];
    TrimmedAtTickSplit(t, NoteBody(n, ctx), fb, tb);
    var first := [Trim(t + NoteBody(n, ctx))];
    var forced := Trimmed(AtTick(t, fb));
    var tap := Trimmed(AtTick(t, tb));
    NoteLineReadsBack(n.position, n, ctx);
    OneObjectLine(c, first[0], inst, ParseChartLine(first[0], inst));
    var c1 := ChartAdd(c, NoteObject(n.(flags := NONE)));
    FlagLinesRead(c1, n.position, fb, ctx.instrument);
    FlagLinesRead(c1, n.position, tb, ctx.instrument);
    CollectThree(c, first, forced, tap, inst, c1, Collect(c1, forced, inst).1, Collect(c1, tap, inst).1);
  }

  /** The first pass over a run that adds one object, then two runs that only defer flags. */
  lemma CollectThree(c: Chart, first: seq<string>, forced: seq<string>, tap: seq<string>, instrument: Instrument,
                     c1: Chart, ff: seq<NoteFlag>, tf: seq<NoteFlag>)
    requires Collect(c, first, instrument) == (c1, [])
    requires Collect(c1, forced, instrument) == (c1, ff) && Collect(c1, tap, instrument) == (c1, tf)
    ensures Collect(c, first + forced + tap, instrument) == (c1, ff + tf)
  {
    CollectAppend(c, first, forced, instrument);
    assert [] + ff == ff;
    assert Collect(c, first + forced, instrument) == (c1, ff);
    CollectAppend(c, first + forced, tap, instrument);
  }

  /** The trimmed lines of a note: its note line, then its flag lines. */
  lemma TrimmedAtTickSplit(t: string, body: string, fb: seq<string>, tb: seq<string>)
    ensures Trimmed(AtTick(t, [body] + fb + tb)) == [Trim(t + body)] + Trimmed(AtTick(t, fb)) + Trimmed(AtTick(t, tb))
  {
    AtTickAppend(t, [body] + fb, tb);
    AtTickAppend(t, [body], fb);
    TrimmedAppend(AtTick(t, [body]) + AtTick(t, fb), AtTick(t, tb));
    TrimmedAppend(AtTick(t, [body]), AtTick(t, fb));
    assert Trimmed(AtTick(t, [body])) == [Trim(t + body)];
  }

  lemma AtTickAppend(t: string, a: seq<string>, b: seq<string>)
    ensures AtTick(t, a + b) == AtTick(t, a) + AtTick(t, b)
  {
  }

  /** A run of no flag line or of one FORCED or TAP line defers that flag to its tick. */
  lemma FlagLinesRead(c: Chart, tick: uint32, bodies: seq<string>, instrument: Instrument)
    requires bodies == [] || bodies == [FORCED_BODY] || bodies == [TAP_BODY]
    requires HasFlagLines(instrument)
    ensures Collect(c, Trimmed(AtTick(NatToString(tick), bodies)), ReadInstrument(instrument))
      == (c, if bodies == [] then [] else if bodies == [FORCED_BODY] then [NoteFlag(tick, FORCED)] else [NoteFlag(tick, TAP)])
  {
    if bodies != [] {
      var line := Trim(NatToString(tick) + bodies[0]);
      assert Trimmed(AtTick(NatToString(tick), bodies)) == [line];
      var parsed := ParseChartLine(line, ReadInstrument(instrument));
      if bodies == [FORCED_BODY] {
        ForcedLineReadsBack(tick, instrument);
        assert parsed == AddFlag(tick, FORCED);
      } else {
        TapLineReadsBack(tick, instrument);
        assert parsed == AddFlag(tick, TAP);
      }
      OneFlagLine(c, line, ReadInstrument(instrument), parsed);
    }
  }

  /** The first pass over one line that adds an object. */
  lemma OneObjectLine(c: Chart, line: string, instrument: Instrument, parsed: ChartLine)
    requires parsed == ParseChartLine(line, instrument) && parsed.AddObject?
    ensures Collect(c, [line], instrument) == (ChartAdd(c, parsed.o), [])
  {
    CollectOne(c, line, instrument);
  }

  /** The first pass over one line that defers a flag. */
  lemma OneFlagLine(c: Chart, line: string, instrument: Instrument, parsed: ChartLine)
    requires parsed == ParseChartLine(line, instrument) && parsed.AddFlag?
    ensures Collect(c, [line], instrument) == (c, [NoteFlag(parsed.position, parsed.flag)])
  {
    CollectOne(c, line, instrument);
    assert [] + [NoteFlag(parsed.position, parsed.flag)] == [NoteFlag(parsed.position, parsed.flag)];
  }

  /** The lines of the object at `i`, read on top of any chart. */
  lemma ObjectReadsBack(c: Chart, objs: seq<ChartObject>, i: nat, ctx: Context)
    requires i < |objs| && KeepsTicks(ctx) && HasFlagLines(ctx.instrument)
    requires Representable(objs[i], ctx.instrument)
    ensures Collect(c, Trimmed(ObjectGroups(ChartList(objs), ctx)[i]), ReadInstrument(ctx.instrument))
      == (ChartAdd(c, Unflagged(objs[i])), FlagEntries(objs, i, ctx))
  {
    if objs[i].NoteObject? {
      NoteReadsBack(c, objs, i, ctx);
    } else {
      ItemReadsBack(c, objs, i, ctx);
    }
  }

  /** Adding the next object of a list as `Chart.Add` keeps it appends it. */
  lemma AddsInOrder(objs: seq<ChartObject>, n: nat, instrument: Instrument)
    requires 0 < n <= |objs| && WritableObjects(objs, instrument)
    ensures Insert(AllUnflagged(objs[..n - 1]), Unflagged(objs[n - 1]), ChartKey, SameChartObject)
      == AllUnflagged(objs[..n])
  {
    var before := AllUnflagged(objs[..n - 1]);
    assert AllUnflagged(objs[..n]) == before + [Unflagged(objs[n - 1])];
    if n == 1 {
      InsertIntoEmpty(Unflagged(objs[0]), ChartKey, SameChartObject);
    } else {
      assert Sorted(before, ChartKey) by {
        forall a, b | 0 <= a < b < |before|
          ensures KeyLe(ChartKey(before[a]), ChartKey(before[b]))
        {
          assert KeyLe(ChartKey(objs[a]), ChartKey(objs[b]));
        }
      }
      assert KeyLe(ChartKey(objs[n - 2]), ChartKey(objs[n - 1]));
      assert !SameChartObject(objs[n - 2], objs[n - 1]);
      InsertAtEnd(before, Unflagged(objs[n - 1]), ChartKey, SameChartObject);
    }
  }

  /** The first pass over the data lines of the first `n` objects of a chart, read into an
      empty chart: those objects without their flags, in order, and the flags their lines
      defer. */
  lemma {:induction false} ChartLinesReadBack(c: Chart, objs: seq<ChartObject>, ctx: Context, n: nat)
    requires c.objects == [] && n <= |objs| && KeepsTicks(ctx) && HasFlagLines(ctx.instrument)
    requires WritableObjects(objs, ctx.instrument)
    ensures Collect(c, Trimmed(SavedLines(ChartList(objs), ctx, n)), ReadInstrument(ctx.instrument))
      == (c.(objects := AllUnflagged(objs[..n])), AllFlagEntries(objs, ctx, n))
    decreases n
  {
    var saved, inst := ChartList(objs), ReadInstrument(ctx.instrument);
    if n == 0 {
      assert AllUnflagged(objs[..0]) == [];
      assert Trimmed(SavedLines(saved, ctx, 0)) == [];
    } else {
      ChartLinesReadBack(c, objs, ctx, n - 1);
      var c1 := c.(objects := AllUnflagged(objs[..n - 1]));
      ObjectReadsBack(c1, objs, n - 1, ctx);
      AddsInOrder(objs, n, ctx.instrument);
      TrimmedLinesStep(saved, ctx, n);
      CollectPieces(c, Trimmed(SavedLines(saved, ctx, n - 1)), Trimmed(ObjectGroups(saved, ctx)[n - 1]), inst,
                    c1, AllFlagEntries(objs, ctx, n - 1), ChartAdd(c1, Unflagged(objs[n - 1])), FlagEntries(objs, n - 1, ctx));
    }
  }

  /** The lines of the first `n` objects, trimmed: those of the first `n - 1`, then those of the
      last. */
  lemma TrimmedLinesStep(saved: seq<Saved>, ctx: Context, n: nat)
    requires 0 < n <= |saved|
    ensures Trimmed(SavedLines(saved, ctx, n)) == Trimmed(SavedLines(saved, ctx, n - 1)) + Trimmed(ObjectGroups(saved, ctx)[n - 1])
  {
    TrimmedFlattenStep(ObjectGroups(saved, ctx), n);
  }

  lemma TrimmedFlattenStep(groups: seq<seq<string>>, n: nat)
    requires 0 < n <= |groups|
    ensures Trimmed(Flatten(groups, n)) == Trimmed(Flatten(groups, n - 1)) + Trimmed(groups[n - 1])
  {
    TrimmedAppend(Flatten(groups, n - 1), groups[n - 1]);
  }

  /** The first pass over two runs, from what it does over each. */
  lemma CollectPieces(c: Chart, a: seq<string>, b: seq<string>, instrument: Instrument,
                      c1: Chart, f1: seq<NoteFlag>, c2: Chart, f2: seq<NoteFlag>)
    requires Collect(c, a, instrument) == (c1, f1) && Collect(c1, b, instrument) == (c2, f2)
    ensures Collect(c, a + b, instrument) == (c2, f1 + f2)
  {
    CollectAppend(c, a, b, instrument);
  }

  // ================================================================ the flags of a chord

  lemma {:induction false} FlagsAtAppend(a: seq<NoteFlag>, b: seq<NoteFlag>, p: uint32)
    ensures FlagsAt(a + b, p) == FlagsAt(a, p).Union(FlagsAt(b, p))
    decreases |b|
  {
    if |b| == 0 {
      assert a + b == a;
    } else {
      var init := b[..|b| - 1];
      FlagsAtAppend(a, init, p);
      assert (a + b)[..|a + b| - 1] == a + init;
      assert (a + b)[|a + b| - 1] == b[|b| - 1];
    }
  }

  /** In a sorted list, the last note at a tick is the only note there that ends a chord. */
  lemma OnlyTheLastEndsChord(objs: seq<ChartObject>, i: nat, j: nat, p: uint32)
    requires Sorted(objs, ChartKey) && LastOfChord(objs, j, p)
    requires i < |objs| && objs[i].NoteObject? && objs[i].note.position == p
    ensures EndsChord(ChartList(objs), i) <==> i == j
  {
    var saved := ChartList(objs);
    if i < j {
      assert IsNote(saved[j]);
      var m := NextNote(saved, i).value;
      assert m <= j;
      assert KeyLe(ChartKey(objs[i]), ChartKey(objs[m]));
      if m < j {
        assert KeyLe(ChartKey(objs[m]), ChartKey(objs[j]));
      }
    } else if i == j {
      match NextNote(saved, j)
      case None =>
      case Some(m) => assert objs[m].NoteObject?;
    }
  }

  /** The flags the lines of one object defer to tick `p`: the chord's flags from its last
      note, nothing from any other object. */
  lemma EntryFlags(objs: seq<ChartObject>, i: nat, j: nat, p: uint32, ctx: Context)
    requires Sorted(objs, ChartKey) && LastOfChord(objs, j, p) && i < |objs| && ctx.options.forced
    ensures i != j ==> FlagsAt(FlagEntries(objs, i, ctx), p) == NONE
    ensures i == j ==> FlagsAt(FlagEntries(objs, i, ctx), p) == ChordFlags(objs[j].note, ctx.gameMode)
  {
    var entries := FlagEntries(objs, i, ctx);
    if objs[i].NoteObject? && objs[i].note.position == p {
      OnlyTheLastEndsChord(objs, i, j, p);
      if i == j {
        var n := objs[j].note;
        if n.flags.forced {
          FlagsAtAppend([NoteFlag(p, FORCED)], entries[1..], p);
          assert entries == [NoteFlag(p, FORCED)] + entries[1..];
        }
      } else {
        assert entries == [];
      }
    } else {
      UnflaggedTick(entries, p);
    }
  }

  /** The flags the lines of the first `m` objects defer to tick `p`: those of the chord's last
      note once it is among them, none before. */
  lemma FlagsOfChord(objs: seq<ChartObject>, ctx: Context, j: nat, p: uint32, m: nat)
    requires m <= |objs| && Sorted(objs, ChartKey) && LastOfChord(objs, j, p) && ctx.options.forced
    ensures FlagsAt(AllFlagEntries(objs, ctx, m), p) == if j < m then ChordFlags(objs[j].note, ctx.gameMode) else NONE
  {
    var groups := FlagGroups(objs, ctx);
    var chord := ChordFlags(objs[j].note, ctx.gameMode);
    forall i | 0 <= i < |groups|
      ensures FlagsAt(groups[i], p) == if i == j then chord else NONE
    {
      EntryFlags(objs, i, j, p, ctx);
    }
    GroupsConcat(objs, ctx, m);
    FlagsOfOneGroup(groups, p, j, chord, m);
  }

  /** The flags the lines of each object defer, object by object. */
  function FlagGroups(objs: seq<ChartObject>, ctx: Context): (r: seq<seq<NoteFlag>>)
    ensures |r| == |objs| && forall i :: 0 <= i < |objs| ==> r[i] == FlagEntries(objs, i, ctx)
  {
    seq(|objs|, i requires 0 <= i < |objs| => FlagEntries(objs, i, ctx))
  }

  /** The first `n` groups, one after the other. */
  function Concat(groups: seq<seq<NoteFlag>>, n: nat): seq<NoteFlag>
    requires n <= |groups|
  {
    if n == 0 then [] else Concat(groups, n - 1) + groups[n - 1]
  }

  lemma {:induction false} GroupsConcat(objs: seq<ChartObject>, ctx: Context, n: nat)
    requires n <= |objs|
    ensures AllFlagEntries(objs, ctx, n) == Concat(FlagGroups(objs, ctx), n)
    decreases n
  {
    if n > 0 {
      GroupsConcat(objs, ctx, n - 1);
      var groups := FlagGroups(objs, ctx);
      assert Concat(groups, n) == Concat(groups, n - 1) + groups[n - 1];
      assert groups[n - 1] == FlagEntries(objs, n - 1, ctx);
    }
  }

  /** When only group `j` defers anything to tick `p`, the first `m` groups defer its flags
      once it is among them and none before. */
  lemma {:induction false} FlagsOfOneGroup(groups: seq<seq<NoteFlag>>, p: uint32, j: nat, chord: Flags, m: nat)
    requires m <= |groups|
    requires forall i :: 0 <= i < |groups| ==> FlagsAt(groups[i], p) == if i == j then chord else NONE
    ensures FlagsAt(Concat(groups, m), p) == if j < m then chord else NONE
    decreases m
  {
    if m > 0 {
      FlagsOfOneGroup(groups, p, j, chord, m - 1);
      FlagsAtAppend(Concat(groups, m - 1), groups[m - 1], p);
    }
  }

  /** The index of the last note at tick `p` among the first `m` objects, if there is one. */
  function LastNoteAt(objs: seq<ChartObject>, p: uint32, m: nat): (r: Option<nat>)
    requires m <= |objs|
    ensures r.Some? ==> (r.value < m && objs[r.value].NoteObject? && objs[r.value].note.position == p
      && forall l :: r.value < l < m && objs[l].NoteObject? ==> objs[l].note.position != p)
    ensures r.None? ==> forall l :: 0 <= l < m && objs[l].NoteObject? ==> objs[l].note.position != p
    decreases m
  {
    if m == 0 then None
    else if objs[m - 1].NoteObject? && objs[m - 1].note.position == p then Some(m - 1)
    else LastNoteAt(objs, p, m - 1)
  }

  // ================================================================ the second pass

  /** Putting flagged notes back into a list flags each note where it stands. */
  lemma {:induction false} WithFlaggedNotes(objects: seq<ChartObject>, flags: seq<NoteFlag>)
    ensures var r := WithNotes(objects, FlaggedNotes(NotesOf(objects), flags));
      forall k :: 0 <= k < |objects| ==>
        r[k] == if objects[k].NoteObject? then NoteObject(Flagged(objects[k].note, flags)) else objects[k]
    decreases |objects|
  {
    if |objects| > 0 {
      var rest := objects[1..];
      WithFlaggedNotes(rest, flags);
      var ns := FlaggedNotes(NotesOf(objects), flags);
      var r := WithNotes(objects, ns);
      var tail;
      if objects[0].NoteObject? {
        assert NotesOf(objects) == [objects[0].note] + NotesOf(rest);
        assert ns[1..] == FlaggedNotes(NotesOf(rest), flags);
        tail := WithNotes(rest, ns[1..]);
        assert r == [NoteObject(ns[0])] + tail;
      } else {
        assert NotesOf(objects) == NotesOf(rest);
        tail := WithNotes(rest, ns);
        assert r == [objects[0]] + tail;
      }
      forall k | 1 <= k < |objects|
        ensures r[k] == if objects[k].NoteObject? then NoteObject(Flagged(objects[k].note, flags)) else objects[k]
      {
        assert r[k] == tail[k - 1] && objects[k] == rest[k - 1];
      }
    }
  }

  /** `r` is `c` with the objects `objs` read back: every starpower phrase and chart event as
      written, and every note with its tick, fret and sustain and the flags of the last note of
      its chord. */
  ghost predicate ReadBackAs(r: Chart, c: Chart, objs: seq<ChartObject>, mode: GameMode)
  {
    && r.name == c.name && r.gameMode == c.gameMode && |r.objects| == |objs|
    && (forall k :: 0 <= k < |objs| && !objs[k].NoteObject? ==> r.objects[k] == objs[k])
    && (forall k, j: nat :: 0 <= k < |objs| && objs[k].NoteObject? && LastOfChord(objs, j, objs[k].note.position) ==>
          r.objects[k] == NoteObject(objs[k].note.(flags := ChordFlags(objs[j].note, mode))))
  }

  /** Every note of a list has a last note of its chord. */
  lemma ChordsEnd(objs: seq<ChartObject>)
    ensures forall k :: 0 <= k < |objs| && objs[k].NoteObject? ==> exists j :: LastOfChord(objs, j, objs[k].note.position)
  {
    forall k | 0 <= k < |objs| && objs[k].NoteObject?
      ensures exists j :: LastOfChord(objs, j, objs[k].note.position)
    {
      var j := LastNoteAt(objs, objs[k].note.position, |objs|).value;
      assert LastOfChord(objs, j, objs[k].note.position);
    }
  }

  /** A chart block written at the chart's own resolution, without an offset and with the flag
      lines on, and read into an empty chart, gives back the chart's objects in order: every
      starpower phrase and chart event as written, and every note with its tick, fret and
      sustain. A note's flags are those of the last note of its chord, which the writer writes
      once for the chord, and TAP is lost when that last note is open. */
  lemma ChartReadsBack(c: Chart, objs: seq<ChartObject>, ctx: Context)
    requires c.objects == [] && KeepsTicks(ctx) && HasFlagLines(ctx.instrument)
    requires WritableObjects(objs, ctx.instrument)
    ensures ReadBackAs(LoadedChart(c, Trimmed(SavedLines(ChartList(objs), ctx, |objs|)), ReadInstrument(ctx.instrument)),
                       c, objs, ctx.gameMode)
    ensures forall k :: 0 <= k < |objs| && objs[k].NoteObject? ==> exists j :: LastOfChord(objs, j, objs[k].note.position)
  {
    var data, inst := Trimmed(SavedLines(ChartList(objs), ctx, |objs|)), ReadInstrument(ctx.instrument);
    ChartLinesReadBack(c, objs, ctx, |objs|);
    assert objs[..|objs|] == objs;
    var flags := AllFlagEntries(objs, ctx, |objs|);
    SecondPass(c, data, inst, AllUnflagged(objs), flags);
    PassReadsBack(LoadedChart(c, data, inst), c, objs, ctx, flags);
    ChordsEnd(objs);
  }

  /** A chart that the second pass left with each unflagged object of `objs` flagged from the
      flag lines of `objs` is `objs` read back. */
  lemma PassReadsBack(r: Chart, c: Chart, objs: seq<ChartObject>, ctx: Context, flags: seq<NoteFlag>)
    requires Sorted(objs, ChartKey) && ctx.options.forced && flags == AllFlagEntries(objs, ctx, |objs|)
    requires r.name == c.name && r.gameMode == c.gameMode && |r.objects| == |objs|
    requires forall k :: 0 <= k < |objs| ==>
               (r.objects[k] == if AllUnflagged(objs)[k].NoteObject? then NoteObject(Flagged(AllUnflagged(objs)[k].note, flags))
                                else AllUnflagged(objs)[k])
    ensures ReadBackAs(r, c, objs, ctx.gameMode)
  {
    var read := AllUnflagged(objs);
    forall k | 0 <= k < |objs| && !objs[k].NoteObject?
      ensures r.objects[k] == objs[k]
    {
      assert r.objects[k] == read[k];
    }
    forall k, j: nat | 0 <= k < |objs| && objs[k].NoteObject? && LastOfChord(objs, j, objs[k].note.position)
      ensures r.objects[k] == NoteObject(objs[k].note.(flags := ChordFlags(objs[j].note, ctx.gameMode)))
    {
      assert r.objects[k] == NoteObject(Flagged(read[k].note, flags));
      NoteFlagsRead(objs, ctx, k, j);
    }
  }

  /** A note of `objs`, read without flags and flagged from the flag lines of `objs`, has the
      flags of the last note of its chord. */
  lemma NoteFlagsRead(objs: seq<ChartObject>, ctx: Context, k: nat, j: nat)
    requires Sorted(objs, ChartKey) && ctx.options.forced
    requires k < |objs| && objs[k].NoteObject? && LastOfChord(objs, j, objs[k].note.position)
    ensures Flagged(Unflagged(objs[k]).note, AllFlagEntries(objs, ctx, |objs|))
      == objs[k].note.(flags := ChordFlags(objs[j].note, ctx.gameMode))
  {
    FlagsOfChord(objs, ctx, j, objs[k].note.position, |objs|);
  }

  /** The second pass after a first pass that read the objects `read` and the flags `flags`:
      each note flagged where it stands, every other object as read. */
  lemma SecondPass(c: Chart, data: seq<string>, instrument: Instrument, read: seq<ChartObject>, flags: seq<NoteFlag>)
    requires Collect(c, data, instrument) == (c.(objects := read), flags)
    ensures var r := LoadedChart(c, data, instrument);
      && r.name == c.name && r.gameMode == c.gameMode && |r.objects| == |read|
      && forall k :: 0 <= k < |read| ==>
           r.objects[k] == if read[k].NoteObject? then NoteObject(Flagged(read[k].note, flags)) else read[k]
  {
    WithFlaggedNotes(read, flags);
  }
}
