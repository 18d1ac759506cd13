/** What the reader makes of the `[SyncTrack]` and `[Events]` blocks the writer produces. Written
    at the song's own resolution and without an offset, the sync track read into a new song's
    defaults gives back the same tempos, anchors and time signatures, and the events block read
    into a song without events gives back the same events and sections. */
module GlobalsRoundTrip {
  import opened Wrappers
  import opened Text
  import opened Tempo
  import opened SongObjects
  import opened Songs
  import opened ChartReader
  import opened ChartWriter
  import opened RoundTrip
  import opened ChartRoundTrip
  import opened ChartFile

  // ================================================================ what the format holds

  /** The sync track and events are written at the song's own resolution, without an offset. */
  predicate GlobalTicks(ctx: Context)
  {
    ctx.options.targetResolution == ctx.resolution && ctx.options.tickOffset == 0
  }

  /** An event the format holds: a section title without a quote, an event title of one word
      without a quote. */
  predicate WritableEvent(e: GlobalEvent)
  {
    match e
    case Section(_, title) => '"' !in title
    case Event(_, title) => ' ' !in title && '"' !in title
  }

  /** An event list as `Song.Add` keeps it: sorted, no event equal to the one before it, and every
      event one the format holds. */
  predicate WritableEvents(events: seq<GlobalEvent>)
  {
    && Sorted(events, EventKey)
    && (forall j, k :: 0 <= j < |events| && k == j + 1 < |events| ==> events[j] != events[k])
    && (forall k :: 0 <= k < |events| ==> WritableEvent(events[k]))
  }

  /** A sync object the format holds: an anchor that fits the `uint` it is written as, and a
      time signature whose denominator is a power of two the writer writes as its exponent. */
  predicate WritableSyncObject(o: SyncObject)
  {
    match o
    case BpmObject(b) => b.anchor.Some? ==> b.anchor.value < UINT_LIMIT
    case TimeSignatureObject(ts) => Log2(ts.denominator) < 32 && ts.denominator == Pow2(Log2(ts.denominator))
  }

  /** A sync track as `Song` keeps it: sorted, no object at the key of the one before it, a tempo
      and a time signature at tick 0, and every object one the format holds. */
  ghost predicate WritableSync(sync: seq<SyncObject>)
  {
    && SyncOrder(sync)
    && HasZeroSync(sync)
    && (forall k :: 0 <= k < |sync| ==> WritableSyncObject(sync[k]))
  }

  /** Sorted by key, with no object at the key of the one before it. */
  predicate SyncOrder(sync: seq<SyncObject>)
  {
    && Sorted(sync, SyncKey)
    && (forall j, k :: 0 <= j < |sync| && k == j + 1 < |sync| ==> !SameSync(sync[j], sync[k]))
  }

  /** The sync track of a new song: a 4/4 time signature and 120 BPM, both at tick 0. */
  function DefaultSync(): seq<SyncObject>
  {
    [TimeSignatureObject(DEFAULT_TIME_SIGNATURE), BpmObject(NewBpm())]
  }

  /** An object as its own tempo or time signature line reads back: a tempo loses its anchor,
      which travels on its own line. */
  function Stripped(o: SyncObject): (r: SyncObject)
    ensures SyncKey(r) == SyncKey(o) && SameSync(r, o)
    ensures r.BpmObject? <==> o.BpmObject?
    ensures r.BpmObject? ==> r.bpm.position == o.bpm.position && r.bpm.value == o.bpm.value && r.bpm.anchor.None?
    ensures r.TimeSignatureObject? ==> r == o
  {
    match o
    case BpmObject(b) => BpmObject(b.(anchor := None))
    case _ => o
  }

  function AllStripped(sync: seq<SyncObject>): (r: seq<SyncObject>)
    ensures |r| == |sync| && forall k :: 0 <= k < |sync| ==> r[k] == Stripped(sync[k])
  {
    seq(|sync|, k requires 0 <= k < |sync| => Stripped(sync[k]))
  }

  /** The anchor an object's lines give: a tempo's own, at its tick, when it has one. */
  function ObjectAnchors(o: SyncObject): seq<Anchor>
  {
    if o.BpmObject? && o.bpm.anchor.Some? then [Anchor(o.bpm.position, o.bpm.anchor.value)] else []
  }

  /** The anchors the lines of the first `n` objects give, in order. */
  function AnchorsOf(sync: seq<SyncObject>, n: nat): seq<Anchor>
    requires n <= |sync|
  {
    if n == 0 then [] else AnchorsOf(sync, n - 1) + ObjectAnchors(sync[n - 1])
  }

  // ================================================================ the per-line loop

  type Globals = (seq<SyncObject>, seq<GlobalEvent>, seq<Anchor>)

  /** What one parsed line does to the sync track, the events and the anchors. */
  function GlobalsStep(r: Globals, l: GlobalsLine): Globals
  {
    match l
    case SyncLine(o) => (Insert(r.0, o, SyncKey, SameSync), r.1, r.2)
    case EventLine(ev) => (r.0, Insert(r.1, ev, EventKey, SameEvent), r.2)
    case AnchorEntry(an) => (r.0, r.1, r.2 + [an])
    case IgnoredLine => r
  }

  // ================================================================ the loop as a fold

  /** `f` applied to `g` and each line of `lines` in turn. */
  function Fold<G>(f: (G, string) -> G, g: G, lines: seq<string>): G
    decreases |lines|
  {
    if |lines| == 0 then g else f(Fold(f, g, lines[..|lines| - 1]), lines[|lines| - 1])
  }

  /** Folding over two runs of lines folds over the second from where the first left off. */
  lemma {:induction false} FoldAppend<G>(f: (G, string) -> G, g: G, a: seq<string>, b: seq<string>)
    ensures Fold(f, g, a + b) == Fold(f, Fold(f, g, a), b)
    decreases |b|
  {
    if |b| == 0 {
      assert a + b == a;
    } else {
      FoldAppend(f, g, a, b[..|b| - 1]);
      assert (a + b)[..|a + b| - 1] == a + b[..|b| - 1];
    }
  }

  /** Folding over two lines applies `f` to each in turn. */
  lemma FoldTwo<G>(f: (G, string) -> G, g: G, lines: seq<string>)
    requires |lines| == 2
    ensures Fold(f, g, lines) == f(f(g, lines[0]), lines[1])
  {
    assert lines[..1] == [lines[0]];
    FoldOne(f, g, lines[0]);
  }

  /** Folding over the first `n` groups, when each group takes state `i` to state `i + 1`. */
  lemma {:induction false} RunFold<G>(f: (G, string) -> G, states: seq<G>, groups: seq<seq<string>>, n: nat)
    requires n < |states| && n <= |groups|
    requires forall i :: 0 <= i < n ==> Fold(f, states[i], groups[i]) == states[i + 1]
    ensures Fold(f, states[0], Flatten(groups, n)) == states[n]
    decreases n
  {
    if n > 0 {
      RunFold(f, states, groups, n - 1);
      FoldAppend(f, states[0], Flatten(groups, n - 1), groups[n - 1]);
    }
  }

  /** One trimmed line of a global block, as the loop takes it: parsed, then applied. */
  function ReadStep(g: Globals, line: string): Globals
  {
    GlobalsStep(g, ParseGlobalsLine(line))
  }

  /** Folding over one line applies `f` once. */
  lemma FoldOne<G>(f: (G, string) -> G, g: G, line: string)
    ensures Fold(f, g, [line]) == f(g, line)
  {
    assert [line][..0] == [];
  }

  /** Reading one line of a global block. */
  lemma ReadOneLine(g: Globals, line: string, parsed: GlobalsLine)
    requires parsed == ParseGlobalsLine(line)
    ensures Fold(ReadStep, g, [line]) == GlobalsStep(g, parsed)
  {
    FoldOne(ReadStep, g, line);
  }

  /** The loop over the lines of a global block is the fold of `ReadStep` over them. */
  lemma {:induction false} CollectIsFold(sync: seq<SyncObject>, events: seq<GlobalEvent>, data: seq<string>)
    ensures CollectGlobals(sync, events, data) == Fold(ReadStep, (sync, events, []), data)
    decreases |data|
  {
    if |data| > 0 {
      CollectIsFold(sync, events, data[..|data| - 1]);
    }
  }

  /** Each group of lines, trimmed. */
  function TrimmedGroups(groups: seq<seq<string>>): (r: seq<seq<string>>)
    ensures |r| == |groups|
    ensures forall i :: 0 <= i < |groups| ==> r[i] == Trimmed(groups[i])
  {
    seq(|groups|, i requires 0 <= i < |groups| => Trimmed(groups[i]))
  }

  /** Trimming the lines of the first `n` groups trims each group. */
  lemma {:induction false} TrimmedFlatten(groups: seq<seq<string>>, n: nat)
    requires n <= |groups|
    ensures Trimmed(Flatten(groups, n)) == Flatten(TrimmedGroups(groups), n)
    decreases n
  {
    if n == 0 {
      assert Trimmed([]) == [];
    } else {
      TrimmedFlatten(groups, n - 1);
      TrimmedFlattenStep(groups, n);
    }
  }

  // ================================================================ events

  /** The line of an event or a section reads back as it. */
  lemma EventReadsBack(g: Globals, events: seq<GlobalEvent>, i: nat, ctx: Context)
    requires i < |events| && GlobalTicks(ctx) && WritableEvent(events[i])
    ensures Fold(ReadStep, g, Trimmed(ObjectGroups(EventList(events), ctx)[i]))
      == (g.0, Insert(g.1, events[i], EventKey, SameEvent), g.2)
  {
    EventGroup(events, i, ctx);
    EventLineRead(g, events[i]);
  }

  /** An event is written as one line at its own tick. */
  lemma EventGroup(events: seq<GlobalEvent>, i: nat, ctx: Context)
    requires i < |events| && GlobalTicks(ctx)
    ensures Trimmed(ObjectGroups(EventList(events), ctx)[i]) == [Trim(NatToString(events[i].position) + EventBody(events[i]))]
  {
    var saved, e := EventList(events), events[i];
    TickAtOwnResolution(e.position, 0, ctx);
    assert saved[i] == EventSaved(e);
    assert TickText(saved[i], ctx) == NatToString(e.position);
    assert ObjectBodies(saved, i, ctx) == [EventBody(e)];
  }

  /** Reading the line of an event adds it to the events. */
  lemma EventLineRead(g: Globals, e: GlobalEvent)
    requires WritableEvent(e)
    ensures Fold(ReadStep, g, [Trim(NatToString(e.position) + EventBody(e))])
      == (g.0, Insert(g.1, e, EventKey, SameEvent), g.2)
  {
    var p := e.position;
    var line := Trim(NatToString(p) + EventBody(e));
    match e
    case Section(_, title) => SectionLineReadsBack(p, p, title);
    case Event(_, title) => EventLineReadsBack(p, p, title);
    ReadOneLine(g, line, EventLine(e));
  }

  /** Adding the next event of a list as `Song.Add` keeps it appends it. */
  lemma AddsEventInOrder(events: seq<GlobalEvent>, n: nat)
    requires 0 < n <= |events| && WritableEvents(events)
    ensures Insert(events[..n - 1], events[n - 1], EventKey, SameEvent) == events[..n]
  {
    var before := events[..n - 1];
    assert events[..n] == before + [events[n - 1]];
    if n == 1 {
      InsertIntoEmpty(events[0], EventKey, SameEvent);
    } else {
      assert Sorted(before, EventKey) by {
        forall a, b | 0 <= a < b < |before|
          ensures KeyLe(EventKey(before[a]), EventKey(before[b]))
        {
          assert KeyLe(EventKey(events[a]), EventKey(events[b]));
        }
      }
      assert KeyLe(EventKey(events[n - 2]), EventKey(events[n - 1]));
      InsertAtEnd(before, events[n - 1], EventKey, SameEvent);
    }
  }

  /** What the loop holds before the lines of each event: the events before it. */
  function EventStates(sync: seq<SyncObject>, events: seq<GlobalEvent>): (r: seq<Globals>)
    ensures |r| == |events| + 1
  {
    seq(|events| + 1, i requires 0 <= i <= |events| => (sync, events[..i], []))
  }

  lemma EventStateAt(sync: seq<SyncObject>, events: seq<GlobalEvent>, i: nat)
    requires i <= |events|
    ensures EventStates(sync, events)[i] == (sync, events[..i], [])
  {
  }

  /** The lines of the events, read on top of any sync track and no events: those events, in
      order, and no anchor. */
  lemma EventLinesReadBack(sync: seq<SyncObject>, events: seq<GlobalEvent>, ctx: Context)
    requires GlobalTicks(ctx) && WritableEvents(events)
    ensures CollectGlobals(sync, [], Trimmed(SavedLines(EventList(events), ctx, |events|))) == (sync, events, [])
  {
    EventRunFolds(sync, events, ctx);
    CollectIsFold(sync, [], Trimmed(SavedLines(EventList(events), ctx, |events|)));
  }

  /** The lines of the events, folded from none, end with all of them. */
  lemma EventRunFolds(sync: seq<SyncObject>, events: seq<GlobalEvent>, ctx: Context)
    requires GlobalTicks(ctx) && WritableEvents(events)
    ensures Fold(ReadStep, (sync, [], []), Trimmed(SavedLines(EventList(events), ctx, |events|))) == (sync, events, [])
  {
    var groups := ObjectGroups(EventList(events), ctx);
    EventFolds(sync, events, ctx);
    RunFold(ReadStep, EventStates(sync, events), TrimmedGroups(groups), |events|);
    TrimmedFlatten(groups, |events|);
    EventStatesEnds(sync, events);
  }

  /** The loop starts from no events and ends with all of them. */
  lemma EventStatesEnds(sync: seq<SyncObject>, events: seq<GlobalEvent>)
    ensures EventStates(sync, events)[0] == (sync, [], [])
    ensures EventStates(sync, events)[|events|] == (sync, events, [])
  {
    assert events[..0] == [] && events[..|events|] == events;
  }

  /** Each event's lines take the loop from the events before it to those up to it. */
  lemma EventFolds(sync: seq<SyncObject>, events: seq<GlobalEvent>, ctx: Context)
    requires GlobalTicks(ctx) && WritableEvents(events)
    ensures forall i :: 0 <= i < |events| ==>
      Fold(ReadStep, EventStates(sync, events)[i], TrimmedGroups(ObjectGroups(EventList(events), ctx))[i]) == EventStates(sync, events)[i + 1]
  {
    forall i | 0 <= i < |events|
      ensures Fold(ReadStep, EventStates(sync, events)[i], TrimmedGroups(ObjectGroups(EventList(events), ctx))[i]) == EventStates(sync, events)[i + 1]
    {
      EventFold(sync, events, ctx, i);
    }
  }

  /** The lines of event `i`, folded from the events before it. */
  lemma EventFold(sync: seq<SyncObject>, events: seq<GlobalEvent>, ctx: Context, i: nat)
    requires i < |events| && GlobalTicks(ctx) && WritableEvents(events)
    ensures Fold(ReadStep, EventStates(sync, events)[i], TrimmedGroups(ObjectGroups(EventList(events), ctx))[i]) == EventStates(sync, events)[i + 1]
  {
    NextEventRead(sync, events, ctx, i);
    EventStateAt(sync, events, i);
    EventStateAt(sync, events, i + 1);
  }

  /** The line of event `i`, read after the events before it, appends it. */
  lemma NextEventRead(sync: seq<SyncObject>, events: seq<GlobalEvent>, ctx: Context, i: nat)
    requires i < |events| && GlobalTicks(ctx) && WritableEvents(events)
    ensures Fold(ReadStep, (sync, events[..i], []), Trimmed(ObjectGroups(EventList(events), ctx)[i])) == (sync, events[..i + 1], [])
  {
    EventReadsBack((sync, events[..i], []), events, i, ctx);
    AddsEventInOrder(events, i + 1);
  }

  /** The `[Events]` block, read back into lists without events, gives the song's events and
      changes nothing else. */
  lemma EventsBlockReadsBack(st: SongLists, song: SongData, options: ExportOptions)
    requires |st.charts| == CHART_COUNT && st.events == []
    requires GlobalTicks(GlobalContext(song, options)) && WritableEvents(song.events)
    ensures Submit(st, ReadBack(EventsBlock(song, options))) == Some(st.(events := song.events))
  {
    var data := Trimmed(SavedLines(EventList(song.events), GlobalContext(song, options), |song.events|));
    EventLinesReadBack(st.syncTrack, song.events, GlobalContext(song, options));
    assert ReadBack(EventsBlock(song, options)) == Block("[Events]", data);
    GlobalsBlockSubmit(st, "[Events]", data, (st.syncTrack, song.events, []));
  }

  /** Both global headers hand their data to the one loop, then apply the anchors it gathered. */
  lemma GlobalsBlockSubmit(st: SongLists, name: string, data: seq<string>, g: Globals)
    requires |st.charts| == CHART_COUNT && (name == "[SyncTrack]" || name == "[Events]")
    requires CollectGlobals(st.syncTrack, st.events, data) == g
    ensures Submit(st, Block(name, data)) == Some(st.(syncTrack := ApplyAnchors(g.0, g.2), events := g.1))
  {
    assert HeaderTarget(name) == Some(GlobalsSection);
  }

  // ================================================================ the sync track

  /** The lines of a tempo or a time signature read back as it without its anchor, after its
      anchor. */
  lemma SyncObjectReadsBack(g: Globals, sync: seq<SyncObject>, i: nat, ctx: Context)
    requires i < |sync| && GlobalTicks(ctx) && WritableSyncObject(sync[i])
    ensures Fold(ReadStep, g, Trimmed(ObjectGroups(SyncList(sync), ctx)[i]))
      == (Insert(g.0, Stripped(sync[i]), SyncKey, SameSync), g.1, g.2 + ObjectAnchors(sync[i]))
  {
    var saved, o := SyncList(sync), sync[i];
    var t := NatToString(o.Position());
    TickAtOwnResolution(o.Position(), 0, ctx);
    assert saved[i] == SyncSaved(o);
    assert TickText(saved[i], ctx) == t;
    assert ObjectGroups(saved, ctx)[i] == AtTick(t, SyncBodies(o));
    SyncBodiesReadBack(g, o);
  }

  /** The lines `SyncBodies` gives an object, at its own tick. */
  lemma SyncBodiesReadBack(g: Globals, o: SyncObject)
    requires WritableSyncObject(o)
    ensures Fold(ReadStep, g, Trimmed(AtTick(NatToString(o.Position()), SyncBodies(o))))
      == (Insert(g.0, Stripped(o), SyncKey, SameSync), g.1, g.2 + ObjectAnchors(o))
  {
    if o.TimeSignatureObject? {
      TimeSignatureBodyRead(g, o);
    } else if o.bpm.anchor.None? {
      TempoBodyRead(g, o);
    } else {
      AnchoredTempoReadsBack(g, o);
    }
  }

  /** The line of a time signature. */
  lemma TimeSignatureBodyRead(g: Globals, o: SyncObject)
    requires o.TimeSignatureObject? && WritableSyncObject(o)
    ensures Fold(ReadStep, g, Trimmed(AtTick(NatToString(o.Position()), SyncBodies(o))))
      == (Insert(g.0, Stripped(o), SyncKey, SameSync), g.1, g.2 + ObjectAnchors(o))
  {
    var ts, t := o.ts, NatToString(o.Position());
    var line := Trim(t + TimeSignatureBody(ts));
    assert Trimmed(AtTick(t, SyncBodies(o))) == [line];
    TimeSignatureReadsBack(ts.position, ts, Log2(ts.denominator));
    ReadOneLine(g, line, SyncLine(o));
    assert g.2 + [] == g.2;
  }

  /** The line of a tempo without an anchor. */
  lemma TempoBodyRead(g: Globals, o: SyncObject)
    requires o.BpmObject? && o.bpm.anchor.None?
    ensures Fold(ReadStep, g, Trimmed(AtTick(NatToString(o.Position()), SyncBodies(o))))
      == (Insert(g.0, Stripped(o), SyncKey, SameSync), g.1, g.2 + ObjectAnchors(o))
  {
    var b, t := o.bpm, NatToString(o.Position());
    var line := Trim(t + TempoBody(b.value));
    assert Trimmed(AtTick(t, SyncBodies(o))) == [line];
    FoldOne(ReadStep, g, line);
    TempoLineRead(g, b.position, b.value);
    assert g.2 + [] == g.2;
  }

  /** The anchor line, then the tempo line, of a tempo with an anchor. */
  lemma AnchoredTempoReadsBack(g: Globals, o: SyncObject)
    requires o.BpmObject? && o.bpm.anchor.Some? && o.bpm.anchor.value < UINT_LIMIT
    ensures Fold(ReadStep, g, Trimmed(AtTick(NatToString(o.Position()), SyncBodies(o))))
      == (Insert(g.0, Stripped(o), SyncKey, SameSync), g.1, g.2 + ObjectAnchors(o))
  {
    var b := o.bpm;
    var t := NatToString(b.position);
    AnchoredLines(b);
    FoldTwo(ReadStep, g, Trimmed(AtTick(t, SyncBodies(o))));
    AnchorLineRead(g, b.position, b.anchor.value);
    TempoLineRead((g.0, g.1, g.2 + [Anchor(b.position, b.anchor.value)]), b.position, b.value);
    assert Stripped(o) == BpmObject(NewBpm(b.position, b.value));
  }

  /** A tempo with an anchor is written as its anchor line, then its tempo line. */
  lemma AnchoredLines(b: Bpm)
    requires b.anchor.Some?
    ensures var t := NatToString(b.position);
      var lines := Trimmed(AtTick(t, SyncBodies(BpmObject(b))));
      |lines| == 2 && lines[0] == Trim(t + AnchorBody(b.anchor.value)) && lines[1] == Trim(t + TempoBody(b.value))
  {
    assert SyncBodies(BpmObject(b)) == [AnchorBody(b.anchor.value), TempoBody(b.value)];
  }

  /** Reading an anchor line adds its anchor. */
  lemma AnchorLineRead(g: Globals, tick: uint32, micros: nat)
    requires micros < UINT_LIMIT
    ensures ReadStep(g, Trim(NatToString(tick) + AnchorBody(micros))) == (g.0, g.1, g.2 + [Anchor(tick, micros)])
  {
    AnchorLineReadsBack(tick, micros);
  }

  /** Reading a tempo line adds its tempo, without an anchor. */
  lemma TempoLineRead(g: Globals, tick: uint32, value: uint32)
    ensures ReadStep(g, Trim(NatToString(tick) + TempoBody(value)))
      == (Insert(g.0, BpmObject(NewBpm(tick, value)), SyncKey, SameSync), g.1, g.2)
  {
    TempoLineReadsBack(tick, value);
  }

  /** In a track with no object at the key of the one before it, keys strictly increase. */
  lemma KeysIncrease(sync: seq<SyncObject>, i: nat, j: nat)
    requires SyncOrder(sync) && i < j < |sync|
    ensures KeyLess(SyncKey(sync[i]), SyncKey(sync[j]))
  {
    assert KeyLe(SyncKey(sync[i]), SyncKey(sync[i + 1]));
    assert SyncKey(sync[i]) != SyncKey(sync[i + 1]);
    assert KeyLe(SyncKey(sync[i + 1]), SyncKey(sync[j]));
  }

  /** A written track starts with its time signature at tick 0, then its tempo at tick 0. */
  lemma ZeroSyncFirst(sync: seq<SyncObject>)
    requires WritableSync(sync)
    ensures |sync| >= 2
    ensures sync[0].TimeSignatureObject? && sync[0].ts.position == 0
    ensures sync[1].BpmObject? && sync[1].bpm.position == 0
  {
    var tb :| BpmObject(tb) in sync && tb.position == 0;
    var tt :| TimeSignatureObject(tt) in sync && tt.position == 0;
    var i :| 0 <= i < |sync| && sync[i] == TimeSignatureObject(tt);
    var j :| 0 <= j < |sync| && sync[j] == BpmObject(tb);
    if i > 0 {
      KeysIncrease(sync, 0, i);
      assert false;
    }
    assert i == 0 && j > 0;
    if j > 1 {
      KeysIncrease(sync, 0, 1);
      KeysIncrease(sync, 1, j);
    }
  }

  /** Reading a written track's first two objects into the defaults replaces both. */
  lemma ZeroSyncReplacesDefaults(sync: seq<SyncObject>, events: seq<GlobalEvent>)
    requires |sync| >= 2
    requires sync[0].TimeSignatureObject? && sync[0].ts.position == 0
    requires sync[1].BpmObject? && sync[1].bpm.position == 0
    ensures Insert(DefaultSync(), Stripped(sync[0]), SyncKey, SameSync) == [sync[0], BpmObject(NewBpm())]
    ensures Insert([sync[0], BpmObject(NewBpm())], Stripped(sync[1]), SyncKey, SameSync) == AllStripped(sync[..2])
  {
    var d := DefaultSync();
    assert InsertionPoint(d[1..], Stripped(sync[0]), SyncKey) == 0;
    assert InsertionPoint(d, Stripped(sync[0]), SyncKey) == 1;
    var s := [sync[0], BpmObject(NewBpm())];
    assert InsertionPoint(s[1..][1..], Stripped(sync[1]), SyncKey) == 0;
    assert InsertionPoint(s[1..], Stripped(sync[1]), SyncKey) == 1;
    assert InsertionPoint(s, Stripped(sync[1]), SyncKey) == 2;
    assert AllStripped(sync[..2]) == [sync[0], Stripped(sync[1])];
  }

  /** Adding the next object of a written track, after its first two, appends it. */
  lemma AddsSyncInOrder(sync: seq<SyncObject>, n: nat)
    requires 2 < n <= |sync| && WritableSync(sync)
    ensures Insert(AllStripped(sync[..n - 1]), Stripped(sync[n - 1]), SyncKey, SameSync) == AllStripped(sync[..n])
  {
    var before := AllStripped(sync[..n - 1]);
    assert AllStripped(sync[..n]) == before + [Stripped(sync[n - 1])];
    assert Sorted(before, SyncKey) by {
      forall a, b | 0 <= a < b < |before|
        ensures KeyLe(SyncKey(before[a]), SyncKey(before[b]))
      {
        assert KeyLe(SyncKey(sync[a]), SyncKey(sync[b]));
      }
    }
    assert KeyLe(SyncKey(sync[n - 2]), SyncKey(sync[n - 1]));
    assert !SameSync(sync[n - 2], sync[n - 1]);
    InsertAtEnd(before, Stripped(sync[n - 1]), SyncKey, SameSync);
  }

  /** The track the loop holds after the lines of the first `i` objects: the defaults with each
      of those objects, without its anchor, inserted in turn. */
  function ReadPrefix(sync: seq<SyncObject>, i: nat): seq<SyncObject>
    requires i <= |sync|
  {
    if i == 0 then DefaultSync() else Insert(ReadPrefix(sync, i - 1), Stripped(sync[i - 1]), SyncKey, SameSync)
  }

  /** Every object of the track is one the format holds. */
  ghost predicate ReadableSync(sync: seq<SyncObject>)
  {
    forall k :: 0 <= k < |sync| ==> WritableSyncObject(sync[k])
  }

  /** Inserting object `k - 1` after the objects before it, without their anchors, appends it. */
  predicate AppendsAt(sync: seq<SyncObject>, k: nat)
    requires 0 < k <= |sync|
  {
    Insert(AllStripped(sync[..k - 1]), Stripped(sync[k - 1]), SyncKey, SameSync) == AllStripped(sync[..k])
  }

  /** Reading a track object by object, when its first two objects replace the defaults and every
      later object goes after the ones before it. */
  lemma {:induction false} PrefixIsTrack(sync: seq<SyncObject>, n: nat)
    requires 2 <= n <= |sync| && ReadPrefix(sync, 2) == AllStripped(sync[..2])
    requires forall k :: 2 < k <= |sync| ==> AppendsAt(sync, k)
    ensures ReadPrefix(sync, n) == AllStripped(sync[..n])
    decreases n
  {
    if n > 2 {
      PrefixIsTrack(sync, n - 1);
      assert AppendsAt(sync, n);
    }
  }

  /** After all the objects of a written track, the loop holds them all without their anchors:
      its time signature at tick 0 replaces the default one, its tempo at tick 0 the default
      tempo, and every later object goes after the ones before it. */
  lemma WholePrefix(sync: seq<SyncObject>)
    requires WritableSync(sync)
    ensures |sync| >= 2 && ReadPrefix(sync, |sync|) == AllStripped(sync)
  {
    ZeroSyncFirst(sync);
    PrefixOfTwo(sync);
    LaterAppend(sync);
    PrefixFromTwo(sync);
  }

  lemma PrefixFromTwo(sync: seq<SyncObject>)
    requires 2 <= |sync| && ReadPrefix(sync, 2) == AllStripped(sync[..2])
    requires forall k :: 2 < k <= |sync| ==> AppendsAt(sync, k)
    ensures ReadPrefix(sync, |sync|) == AllStripped(sync)
  {
    PrefixIsTrack(sync, |sync|);
    assert sync[..|sync|] == sync;
  }

  /** The first two objects of a written track replace the defaults. */
  lemma PrefixOfTwo(sync: seq<SyncObject>)
    requires WritableSync(sync) && 2 <= |sync|
    ensures ReadPrefix(sync, 2) == AllStripped(sync[..2])
  {
    ZeroSyncFirst(sync);
    ZeroSyncReplacesDefaults(sync, []);
    assert ReadPrefix(sync, 1) == Insert(DefaultSync(), Stripped(sync[0]), SyncKey, SameSync);
  }

  /** Each later object of a written track goes after the ones before it. */
  lemma LaterAppend(sync: seq<SyncObject>)
    requires WritableSync(sync)
    ensures forall k :: 2 < k <= |sync| ==> AppendsAt(sync, k)
  {
    forall k | 2 < k <= |sync|
      ensures AppendsAt(sync, k)
    {
      AddsSyncInOrder(sync, k);
    }
  }

  /** What the loop holds before the lines of object `i` of a written track. */
  function SyncState(events: seq<GlobalEvent>, sync: seq<SyncObject>, i: nat): Globals
    requires i <= |sync|
  {
    (ReadPrefix(sync, i), events, AnchorsOf(sync, i))
  }

  /** The lines of a written track, read into the defaults: its objects without their anchors,
      in order, and the anchors of its tempos. */
  lemma SyncLinesReadBack(events: seq<GlobalEvent>, sync: seq<SyncObject>, ctx: Context)
    requires GlobalTicks(ctx) && WritableSync(sync)
    ensures |sync| >= 2
    ensures CollectGlobals(DefaultSync(), events, Trimmed(SavedLines(SyncList(sync), ctx, |sync|)))
      == (AllStripped(sync), events, AnchorsOf(sync, |sync|))
  {
    WholePrefix(sync);
    SyncRunFolds(events, sync, ctx);
    CollectIsFold(DefaultSync(), events, Trimmed(SavedLines(SyncList(sync), ctx, |sync|)));
  }

  /** The lines of a readable track, folded from the defaults, end in the state after its last
      object. */
  lemma SyncRunFolds(events: seq<GlobalEvent>, sync: seq<SyncObject>, ctx: Context)
    requires GlobalTicks(ctx) && ReadableSync(sync)
    ensures Fold(ReadStep, (DefaultSync(), events, []), Trimmed(SavedLines(SyncList(sync), ctx, |sync|)))
      == SyncState(events, sync, |sync|)
  {
    var groups := ObjectGroups(SyncList(sync), ctx);
    SyncSteps(events, sync, ctx);
    SyncRunFrom(ReadStep, events, sync, TrimmedGroups(groups), |sync|);
    TrimmedFlatten(groups, |sync|);
  }

  /** Folding over the lines of the first `n` objects, when each object's lines take the state
      before it to the state after it. */
  lemma {:induction false} SyncRunFrom(f: (Globals, string) -> Globals, events: seq<GlobalEvent>, sync: seq<SyncObject>, groups: seq<seq<string>>, n: nat)
    requires n <= |sync| == |groups|
    requires forall i :: 0 <= i < |sync| ==> Fold(f, SyncState(events, sync, i), groups[i]) == SyncState(events, sync, i + 1)
    ensures Fold(f, SyncState(events, sync, 0), Flatten(groups, n)) == SyncState(events, sync, n)
    decreases n
  {
    if n > 0 {
      SyncRunFrom(f, events, sync, groups, n - 1);
      FoldAppend(f, SyncState(events, sync, 0), Flatten(groups, n - 1), groups[n - 1]);
    }
  }

  /** Each object's lines take the loop from the state before it to the state after it. */
  lemma SyncSteps(events: seq<GlobalEvent>, sync: seq<SyncObject>, ctx: Context)
    requires GlobalTicks(ctx) && ReadableSync(sync)
    ensures forall i :: 0 <= i < |sync| ==>
      Fold(ReadStep, SyncState(events, sync, i), TrimmedGroups(ObjectGroups(SyncList(sync), ctx))[i]) == SyncState(events, sync, i + 1)
  {
    forall i | 0 <= i < |sync|
      ensures Fold(ReadStep, SyncState(events, sync, i), TrimmedGroups(ObjectGroups(SyncList(sync), ctx))[i]) == SyncState(events, sync, i + 1)
    {
      SyncStep(events, sync, ctx, i);
    }
  }

  /** The lines of object `i`, read after the objects before it, add it and its anchor. */
  lemma SyncStep(events: seq<GlobalEvent>, sync: seq<SyncObject>, ctx: Context, i: nat)
    requires i < |sync| && GlobalTicks(ctx) && ReadableSync(sync)
    ensures Fold(ReadStep, SyncState(events, sync, i), Trimmed(ObjectGroups(SyncList(sync), ctx)[i])) == SyncState(events, sync, i + 1)
  {
    assert WritableSyncObject(sync[i]);
    SyncObjectReadsBack(SyncState(events, sync, i), sync, i, ctx);
  }

  // ================================================================ the anchor pass

  /** The track read back once the anchors of its first `m` objects are applied: those objects
      as written, the rest as their own lines read back. */
  function AnchoredUpTo(sync: seq<SyncObject>, m: nat): seq<SyncObject>
    requires m <= |sync|
  {
    sync[..m] + AllStripped(sync[m..])
  }

  /** Applying the anchors of a written track's first `m` objects, in order, to its tempos and
      time signatures read back restores exactly those objects' anchors. */
  lemma {:induction false} AnchorsRestore(sync: seq<SyncObject>, m: nat)
    requires m <= |sync| && SyncOrder(sync)
    ensures ApplyAnchors(AllStripped(sync), AnchorsOf(sync, m)) == AnchoredUpTo(sync, m)
    decreases m
  {
    if m == 0 {
      assert sync[0..] == sync && sync[..0] + AllStripped(sync) == AllStripped(sync);
    } else {
      AnchorsRestore(sync, m - 1);
      if ObjectAnchors(sync[m - 1]) == [] {
        NoAnchorKeeps(sync, m);
      } else {
        AnchorRestores(sync, m);
      }
    }
  }

  /** An object without an anchor reads back as itself, and the pass has nothing to apply. */
  lemma NoAnchorKeeps(sync: seq<SyncObject>, m: nat)
    requires 0 < m <= |sync| && ObjectAnchors(sync[m - 1]) == []
    ensures AnchorsOf(sync, m) == AnchorsOf(sync, m - 1)
    ensures AnchoredUpTo(sync, m) == AnchoredUpTo(sync, m - 1)
  {
    assert AnchorsOf(sync, m) == AnchorsOf(sync, m - 1) + [];
    assert Stripped(sync[m - 1]) == sync[m - 1];
    AnchoredSplit(sync, m);
  }

  /** A tempo's anchor, the last one gathered so far, is written back into that tempo. */
  lemma AnchorRestores(sync: seq<SyncObject>, m: nat)
    requires 0 < m <= |sync| && SyncOrder(sync) && ObjectAnchors(sync[m - 1]) != []
    requires ApplyAnchors(AllStripped(sync), AnchorsOf(sync, m - 1)) == AnchoredUpTo(sync, m - 1)
    ensures ApplyAnchors(AllStripped(sync), AnchorsOf(sync, m)) == AnchoredUpTo(sync, m)
  {
    var b := sync[m - 1].bpm;
    var a := Anchor(b.position, b.anchor.value);
    var anchors := AnchorsOf(sync, m);
    assert anchors == AnchorsOf(sync, m - 1) + [a];
    assert anchors[..|anchors| - 1] == AnchorsOf(sync, m - 1);
    var s := AnchoredUpTo(sync, m - 1);
    var k := |BpmsOf(sync[..m - 1])|;
    AnchorTargetIsTempo(sync, m);
    AnchorLands(sync, m);
    assert ApplyAnchors(AllStripped(sync), anchors) == SetBpmAnchor(s, k, a.micros);
  }

  /** The anchor pass finds the tempo at the anchor's tick: the one after the first `m - 1`
      objects' tempos, since no other tempo is at that tick. */
  lemma AnchorTargetIsTempo(sync: seq<SyncObject>, m: nat)
    requires 0 < m <= |sync| && SyncOrder(sync) && sync[m - 1].BpmObject?
    ensures AnchorTarget(BpmPositions(BpmsOf(AnchoredUpTo(sync, m - 1))), sync[m - 1].bpm.position)
      == Some(|BpmsOf(sync[..m - 1])|)
  {
    var b := sync[m - 1].bpm;
    var before, after := BpmsOf(sync[..m - 1]), BpmsOf(AllStripped(sync[m..]));
    AnchoredSplit(sync, m);
    BpmsKeepOrder(sync[..m - 1], [Stripped(sync[m - 1])] + AllStripped(sync[m..]));
    BpmsOfCons(b.(anchor := None), AllStripped(sync[m..]));
    TemposBefore(sync, m);
    TemposAfter(sync, m);
    OnlyTempoAtTick(before, b.(anchor := None), after);
  }

  /** Among tempos at earlier ticks, one tempo, then tempos at later ticks, the anchor pass finds
      that one tempo at its tick. */
  lemma OnlyTempoAtTick(before: seq<Bpm>, x: Bpm, after: seq<Bpm>)
    requires forall y :: y in before ==> y.position < x.position
    requires forall y :: y in after ==> y.position > x.position
    ensures AnchorTarget(BpmPositions(before + ([x] + after)), x.position) == Some(|before|)
  {
    var bpms := before + ([x] + after);
    var positions := BpmPositions(bpms);
    forall i | 0 <= i < |positions| && i != |before|
      ensures positions[i] != x.position
    {
      if i < |before| {
        assert bpms[i] == before[i];
      } else {
        assert bpms[i] == after[i - |before| - 1];
      }
    }
    assert positions[|before|] == x.position;
    var r := AnchorTarget(positions, x.position);
    assert r.Some?;
  }

  /** The tempos of the objects before the one at `m - 1` lie at earlier ticks. */
  lemma TemposBefore(sync: seq<SyncObject>, m: nat)
    requires 0 < m <= |sync| && SyncOrder(sync) && sync[m - 1].BpmObject?
    ensures forall x :: x in BpmsOf(sync[..m - 1]) ==> x.position < sync[m - 1].bpm.position
  {
    forall x | x in BpmsOf(sync[..m - 1])
      ensures x.position < sync[m - 1].bpm.position
    {
      var i :| 0 <= i < m - 1 && sync[..m - 1][i] == BpmObject(x);
      KeysIncrease(sync, i, m - 1);
    }
  }

  /** The tempos of the objects after the one at `m - 1`, as read back, lie at later ticks. */
  lemma TemposAfter(sync: seq<SyncObject>, m: nat)
    requires 0 < m <= |sync| && SyncOrder(sync) && sync[m - 1].BpmObject?
    ensures forall x :: x in BpmsOf(AllStripped(sync[m..])) ==> x.position > sync[m - 1].bpm.position
  {
    var rest := AllStripped(sync[m..]);
    forall x | x in BpmsOf(rest)
      ensures x.position > sync[m - 1].bpm.position
    {
      var i :| 0 <= i < |rest| && rest[i] == BpmObject(x);
      assert Stripped(sync[m + i]) == BpmObject(x);
      KeysIncrease(sync, m - 1, m + i);
    }
  }

  /** Setting the anchor of that tempo gives it back its own. */
  lemma AnchorLands(sync: seq<SyncObject>, m: nat)
    requires 0 < m <= |sync| && sync[m - 1].BpmObject? && sync[m - 1].bpm.anchor.Some?
    ensures |BpmsOf(sync[..m - 1])| < |BpmsOf(AnchoredUpTo(sync, m - 1))|
    ensures SetBpmAnchor(AnchoredUpTo(sync, m - 1), |BpmsOf(sync[..m - 1])|, sync[m - 1].bpm.anchor.value) == AnchoredUpTo(sync, m)
  {
    var b := sync[m - 1].bpm;
    AnchoredSplit(sync, m);
    var before, after := sync[..m - 1], AllStripped(sync[m..]);
    SetBpmAnchorAt(before, b.(anchor := None), after, b.anchor.value);
    assert b.(anchor := None).(anchor := Some(b.anchor.value)) == b;
  }

  /** The track around the object at `m - 1`, before and after its anchor is applied. */
  lemma AnchoredSplit(sync: seq<SyncObject>, m: nat)
    requires 0 < m <= |sync|
    ensures AnchoredUpTo(sync, m - 1) == sync[..m - 1] + ([Stripped(sync[m - 1])] + AllStripped(sync[m..]))
    ensures AnchoredUpTo(sync, m) == sync[..m - 1] + ([sync[m - 1]] + AllStripped(sync[m..]))
  {
    var before, after := sync[..m - 1], AllStripped(sync[m..]);
    assert sync[..m] == before + [sync[m - 1]];
    assert sync[..m] + after == before + ([sync[m - 1]] + after);
    StrippedFrom(sync, m - 1);
  }

  /** Reading back from `i` on: the object at `i`, then the rest. */
  lemma StrippedFrom(sync: seq<SyncObject>, i: nat)
    requires i < |sync|
    ensures AllStripped(sync[i..]) == [Stripped(sync[i])] + AllStripped(sync[i + 1..])
  {
    var r, t := AllStripped(sync[i..]), [Stripped(sync[i])] + AllStripped(sync[i + 1..]);
    forall k | 0 < k < |r|
      ensures r[k] == t[k]
    {
      assert sync[i..][k] == sync[i + 1..][k - 1];
    }
  }

  /** `SetBpmAnchor` at the index of a tempo among the tempos sets that tempo's anchor. */
  lemma {:induction false} SetBpmAnchorAt(a: seq<SyncObject>, b: Bpm, c: seq<SyncObject>, micros: nat)
    ensures |BpmsOf(a)| < |BpmsOf(a + ([BpmObject(b)] + c))|
    ensures SetBpmAnchor(a + ([BpmObject(b)] + c), |BpmsOf(a)|, micros) == a + ([BpmObject(b.(anchor := Some(micros)))] + c)
    decreases |a|
  {
    var rest, anchored := [BpmObject(b)] + c, [BpmObject(b.(anchor := Some(micros)))] + c;
    BpmsKeepOrder(a, rest);
    BpmsOfCons(b, c);
    if |a| == 0 {
      assert a + rest == rest && a + anchored == anchored && rest[1..] == c;
    } else {
      SetBpmAnchorAt(a[1..], b, c, micros);
      ConcatTail(a, rest);
      ConcatTail(a, anchored);
      SetBpmAnchorPast(a, rest, |BpmsOf(a)|, micros);
    }
  }

  /** `SetBpmAnchor` steps over an object ahead of the tempo it sets. */
  lemma SetBpmAnchorPast(a: seq<SyncObject>, rest: seq<SyncObject>, k: nat, micros: nat)
    requires 0 < |a| && k == |BpmsOf(a)| && k < |BpmsOf(a + rest)|
    ensures |BpmsOf(a[1..])| < |BpmsOf((a + rest)[1..])|
    ensures SetBpmAnchor(a + rest, k, micros) == [a[0]] + SetBpmAnchor((a + rest)[1..], |BpmsOf(a[1..])|, micros)
  {
    var s := a + rest;
    assert s[0] == a[0];
    assert a == [a[0]] + a[1..];
    match a[0]
    case BpmObject(x) => BpmsOfCons(x, a[1..]); BpmsOfCons(x, s[1..]); assert s == [s[0]] + s[1..];
    case TimeSignatureObject(t) => BpmsOfSkips(t, a[1..]); BpmsOfSkips(t, s[1..]); assert s == [s[0]] + s[1..];
  }

  /** Dropping the head of a concatenation whose first part is not empty. */
  lemma ConcatTail<T>(a: seq<T>, rest: seq<T>)
    requires 0 < |a|
    ensures (a + rest)[1..] == a[1..] + rest && a + rest == [a[0]] + (a[1..] + rest)
  {
  }

  // ================================================================ the two blocks

  /** A written track, read into the defaults and then given its anchors, is the track itself. */
  lemma SyncTrackReadsBack(events: seq<GlobalEvent>, sync: seq<SyncObject>, ctx: Context)
    requires GlobalTicks(ctx) && WritableSync(sync)
    ensures |sync| >= 2
    ensures var g := CollectGlobals(DefaultSync(), events, Trimmed(SavedLines(SyncList(sync), ctx, |sync|)));
      g.1 == events && ApplyAnchors(g.0, g.2) == sync
  {
    SyncLinesReadBack(events, sync, ctx);
    AllAnchorsRestore(sync);
  }

  /** All the anchors of a track, applied to it without them, give the track back. */
  lemma AllAnchorsRestore(sync: seq<SyncObject>)
    requires SyncOrder(sync)
    ensures ApplyAnchors(AllStripped(sync), AnchorsOf(sync, |sync|)) == sync
  {
    AnchorsRestore(sync, |sync|);
    assert sync[|sync|..] == [] && AllStripped([]) == [];
    assert AnchoredUpTo(sync, |sync|) == sync + [] == sync;
  }

  /** The `[SyncTrack]` block, read back into lists holding a new song's sync track, gives the
      song's sync track and changes nothing else. */
  lemma SyncBlockReadsBack(st: SongLists, song: SongData, options: ExportOptions)
    requires |st.charts| == CHART_COUNT && st.syncTrack == DefaultSync()
    requires GlobalTicks(GlobalContext(song, options)) && WritableSync(song.syncTrack)
    ensures Submit(st, ReadBack(SyncBlock(song, options))) == Some(st.(syncTrack := song.syncTrack))
  {
    var sync, ctx := song.syncTrack, GlobalContext(song, options);
    var data := Trimmed(SavedLines(SyncList(sync), ctx, |sync|));
    var lines := SavedLines(SyncList(sync), ctx, |sync|);
    assert SyncBlock(song, options).data == [] + lines == lines;
    assert ReadBack(SyncBlock(song, options)) == Block("[SyncTrack]", data);
    SyncTrackReadsBack(st.events, sync, ctx);
    GlobalsBlockSubmit(st, "[SyncTrack]", data, CollectGlobals(DefaultSync(), st.events, data));
  }

  /** The first three blocks of a written file, read into a new song: the `[Song]` block changes
      no list, and the other two give back the song's sync track and events. */
  lemma FirstBlocksReadBack(song: SongData, options: ExportOptions, env: Env)
    requires GlobalTicks(GlobalContext(song, options)) && WritableSync(song.syncTrack) && WritableEvents(song.events)
    ensures SubmitAll(NewSongLists(), [ReadBack(SongBlock(song, options, env)), ReadBack(SyncBlock(song, options)), ReadBack(EventsBlock(song, options))])
      == Some(NewSongLists().(syncTrack := song.syncTrack, events := song.events))
  {
    var st := NewSongLists();
    var st1 := st.(syncTrack := song.syncTrack);
    SongBlockSubmit(st, ReadBack(SongBlock(song, options, env)));
    SyncBlockReadsBack(st, song, options);
    EventsBlockReadsBack(st1, song, options);
    SubmitThree(st, ReadBack(SongBlock(song, options, env)), ReadBack(SyncBlock(song, options)), ReadBack(EventsBlock(song, options)),
                st, st1, st1.(events := song.events));
  }

  /** The `[Song]` block sets properties only; no list changes. */
  lemma SongBlockSubmit(st: SongLists, b: Block)
    requires |st.charts| == CHART_COUNT && b.name == "[Song]"
    ensures Submit(st, b) == Some(st)
  {
    assert HeaderTarget(b.name) == Some(SongSection);
  }

  /** Submitting three blocks in turn. */
  lemma SubmitThree(st: SongLists, a: Block, b: Block, c: Block, s1: SongLists, s2: SongLists, s3: SongLists)
    requires |st.charts| == CHART_COUNT && |s1.charts| == CHART_COUNT && |s2.charts| == CHART_COUNT
    requires Submit(st, a) == Some(s1) && Submit(s1, b) == Some(s2) && Submit(s2, c) == Some(s3)
    ensures SubmitAll(st, [a, b, c]) == Some(s3)
  {
    SubmitOne(st, a, s1);
    SubmitTwo(st, a, b, s1, s2);
    SubmitSnoc(st, [a, b], c, s2, s3);
    assert [a, b] + [c] == [a, b, c];
  }

  lemma SubmitOne(st: SongLists, a: Block, s1: SongLists)
    requires |st.charts| == CHART_COUNT && Submit(st, a) == Some(s1)
    ensures SubmitAll(st, [a]) == Some(s1)
  {
    SubmitSnoc(st, [], a, st, s1);
    assert [] + [a] == [a];
  }

  lemma SubmitTwo(st: SongLists, a: Block, b: Block, s1: SongLists, s2: SongLists)
    requires |st.charts| == CHART_COUNT && |s1.charts| == CHART_COUNT
    requires SubmitAll(st, [a]) == Some(s1) && Submit(s1, b) == Some(s2)
    ensures SubmitAll(st, [a, b]) == Some(s2)
  {
    SubmitSnoc(st, [a], b, s1, s2);
    assert [a] + [b] == [a, b];
  }

  /** Submitting one more block, from what the blocks before it left. */
  lemma SubmitSnoc(st: SongLists, bs: seq<Block>, b: Block, s: SongLists, s2: SongLists)
    requires |st.charts| == CHART_COUNT && SubmitAll(st, bs) == Some(s) && |s.charts| == CHART_COUNT
    requires Submit(s, b) == Some(s2)
    ensures SubmitAll(st, bs + [b]) == Some(s2)
  {
    assert (bs + [b])[..|bs|] == bs;
  }
}
