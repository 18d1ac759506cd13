/** Notes and the chord / HOPO / forcing semantics of `Note.cs`.

    A chart keeps its notes in one array ordered by tick; a note's `previous` and
    `next` links are the neighbouring indices `i - 1` and `i + 1` of that array, so a
    chord is a maximal run of consecutive indices that share one tick position. */
module Notes {
  import opened Wrappers
  import opened Text

  // Fret_Type: the sprite order of the five-lane guitar, with OPEN last.
  const GREEN: int := 0
  const RED: int := 1
  const YELLOW: int := 2
  const BLUE: int := 3
  const ORANGE: int := 4
  const OPEN: int := 5

  // Drum_Fret_Type, expressed as the Fret_Type value each drum pad is stored as.
  const DRUM_KICK: int := OPEN
  const DRUM_RED: int := GREEN
  const DRUM_YELLOW: int := RED
  const DRUM_BLUE: int := YELLOW
  const DRUM_ORANGE: int := BLUE
  const DRUM_GREEN: int := ORANGE

  // GHLive_Fret_Type.
  const GHL_BLACK_1: int := 0
  const GHL_BLACK_2: int := 1
  const GHL_BLACK_3: int := 2
  const GHL_WHITE_1: int := 3
  const GHL_WHITE_2: int := 4
  const GHL_WHITE_3: int := 5
  const GHL_OPEN: int := 6

  /** Ticks per beat at which the HOPO and sustain thresholds are quoted. */
  const STANDARD_BEAT_RESOLUTION: nat := 192

  /** The C# `[Flags]` enum: NONE = 0, FORCED = 1, TAP = 2. */
  datatype Flags = Flags(forced: bool, tap: bool)
  {
    /** `this | other` */
    function Union(other: Flags): Flags
    {
      Flags(forced || other.forced, tap || other.tap)
    }
  }

  const NONE: Flags := Flags(false, false)
  const FORCED: Flags := Flags(true, false)
  const TAP: Flags := Flags(false, true)

  datatype NoteType = Natural | Strum | Hopo | Tap

  /** The chart's game mode, which decides what `rawNote` means. */
  datatype GameMode = Guitar | Drums | GHLGuitar | Unrecognised

  /** A note: tick, raw fret value, sustain length in ticks and flags. */
  datatype Note = Note(position: uint32, rawNote: int, sustain: uint32, flags: Flags)

  // ---------------------------------------------------------------- ordering

  /** `Note.LessThan`: by position, then by raw fret value. */
  predicate LessThan(a: Note, b: Note)
  {
    a.position < b.position || (a.position == b.position && a.rawNote < b.rawNote)
  }

  /** `Note.Equals`: same position and same raw fret value (sustain and flags are ignored). */
  predicate NoteEquals(a: Note, b: Note)
  {
    a.position == b.position && a.rawNote == b.rawNote
  }

  /** The two comparisons form a strict total order up to `NoteEquals`. */
  lemma OrderIsStrictTotal(a: Note, b: Note, c: Note)
    ensures !LessThan(a, a)
    ensures LessThan(a, b) && LessThan(b, c) ==> LessThan(a, c)
    ensures LessThan(a, b) || NoteEquals(a, b) || LessThan(b, a)
    ensures !(LessThan(a, b) && NoteEquals(a, b)) && !(LessThan(b, a) && NoteEquals(a, b))
    ensures !(LessThan(a, b) && LessThan(b, a))
  {
  }

  // ---------------------------------------------------------------- flags

  /** The `forced` getter. */
  predicate Forced(n: Note)
  {
    n.flags.forced
  }

  /** The `forced` setter: sets or clears FORCED and leaves everything else alone. */
  function SetForced(n: Note, value: bool): (r: Note)
    ensures Forced(r) == value
    ensures r.flags.tap == n.flags.tap
    ensures r.position == n.position && r.rawNote == n.rawNote && r.sustain == n.sustain
  {
    if value then n.(flags := n.flags.Union(FORCED)) else n.(flags := n.flags.(forced := false))
  }

  /** `IsOpenNote`: the open value depends on the chart's game mode. */
  predicate IsOpenNote(n: Note, mode: GameMode)
  {
    if mode == GHLGuitar then n.rawNote == GHL_OPEN else n.rawNote == OPEN
  }

  // ---------------------------------------------------------------- chords

  /** The notes are ordered by tick, as a chart keeps them. */
  predicate SortedByPosition(s: seq<Note>)
  {
    forall j, k :: 0 <= j < k < |s| ==> s[j].position <= s[k].position
  }

  /** `IsChord`: the previous or the next note shares this note's tick. */
  predicate IsChord(s: seq<Note>, i: nat)
    requires i < |s|
  {
    (i > 0 && s[i - 1].position == s[i].position) || (i + 1 < |s| && s[i + 1].position == s[i].position)
  }

  /** Walking back from index `k`: the first index of the run of notes at tick `p` ending at `k`. */
  function RunStart(s: seq<Note>, p: uint32, k: int): (lo: nat)
    requires -1 <= k < |s|
    ensures lo <= k + 1
    ensures forall j :: lo <= j <= k ==> s[j].position == p
    ensures lo == 0 || s[lo - 1].position != p
    decreases k + 1
  {
    if k >= 0 && s[k].position == p then RunStart(s, p, k - 1) else k + 1
  }

  /** Walking forward from index `k`: one past the last index of the run of notes at tick `p`. */
  function RunEnd(s: seq<Note>, p: uint32, k: nat): (hi: nat)
    requires k <= |s|
    ensures k <= hi <= |s|
    ensures forall j :: k <= j < hi ==> s[j].position == p
    ensures hi == |s| || s[hi].position != p
    decreases |s| - k
  {
    if k < |s| && s[k].position == p then RunEnd(s, p, k + 1) else k
  }

  /** First index of note `i`'s chord. */
  function ChordLo(s: seq<Note>, i: nat): nat
    requires i < |s|
  {
    RunStart(s, s[i].position, i)
  }

  /** One past the last index of note `i`'s chord. */
  function ChordHi(s: seq<Note>, i: nat): nat
    requires i < |s|
  {
    RunEnd(s, s[i].position, i)
  }

  /** Note `j` belongs to note `i`'s chord (note `i` included). */
  predicate InChord(s: seq<Note>, i: nat, j: int)
    requires i < |s|
  {
    ChordLo(s, i) <= j < ChordHi(s, i)
  }

  /** `GetChord()` is the maximal run of neighbours at note `i`'s tick, note `i` included. */
  lemma ChordIsMaximalRun(s: seq<Note>, i: nat)
    requires i < |s|
    ensures ChordLo(s, i) <= i < ChordHi(s, i) <= |s|
    ensures forall j :: InChord(s, i, j) ==> s[j].position == s[i].position
    ensures ChordLo(s, i) == 0 || s[ChordLo(s, i) - 1].position != s[i].position
    ensures ChordHi(s, i) == |s| || s[ChordHi(s, i)].position != s[i].position
  {
  }

  /** In a tick-ordered chart the chord is exactly the set of notes at the same tick. */
  lemma {:induction false} SortedChordIsSameTick(s: seq<Note>, i: nat, j: nat)
    requires SortedByPosition(s) && i < |s| && j < |s|
    ensures InChord(s, i, j) <==> s[j].position == s[i].position
  {
    var lo, hi := ChordLo(s, i), ChordHi(s, i);
    if j < lo {
      assert s[j].position <= s[lo - 1].position < s[i].position;
    } else if j >= hi {
      assert s[i].position < s[hi].position <= s[j].position;
    }
  }

  /** A member of a chord has the same chord. */
  lemma ChordOfMember(s: seq<Note>, i: nat, j: nat)
    requires i < |s| && j < |s| && InChord(s, i, j)
    ensures ChordLo(s, j) == ChordLo(s, i) && ChordHi(s, j) == ChordHi(s, i)
  {
    ChordIsMaximalRun(s, i);
  }

  /** A note is a chord exactly when its chord has at least two notes. */
  lemma {:induction false} IsChordIffRunOfTwo(s: seq<Note>, i: nat)
    requires i < |s|
    ensures IsChord(s, i) <==> ChordHi(s, i) - ChordLo(s, i) >= 2
  {
    ChordIsMaximalRun(s, i);
    var p := s[i].position;
    if i > 0 && s[i - 1].position == p {
      assert RunStart(s, p, i) == RunStart(s, p, i - 1);
    }
    if i + 1 < |s| && s[i + 1].position == p {
      assert RunEnd(s, p, i) == RunEnd(s, p, i + 1);
    }
  }

  /** The order `GetChord()` lists a chord spanning `lo..hi` in: note `i`, then the earlier
      notes walking back, then the later notes walking forward. */
  ghost predicate ChordOrder(chord: seq<nat>, i: nat, lo: nat, hi: nat)
  {
    && lo <= i < hi
    && |chord| == hi - lo
    && chord[0] == i
    && (forall k :: 1 <= k <= i - lo ==> chord[k] == i - k)
    && (forall k :: i - lo < k < |chord| ==> chord[k] == k + lo)
  }

  /** A list in that order holds every index of `lo..hi` exactly once. */
  lemma ChordOrderMembers(chord: seq<nat>, i: nat, lo: nat, hi: nat)
    requires ChordOrder(chord, i, lo, hi)
    ensures forall j :: j in chord <==> lo <= j < hi
    ensures forall a, b :: 0 <= a < b < |chord| ==> chord[a] != chord[b]
  {
    forall j | lo <= j < hi ensures j in chord {
      if j < i {
        assert chord[i - j] == j;
      } else if j > i {
        assert chord[j - lo] == j;
      }
    }
  }

  /** `GetChord()`: this note, then the previous notes at the same tick walking back,
      then the next ones walking forward. Returns indices into the chart's notes. */
  method GetChord(s: seq<Note>, i: nat) returns (chord: seq<nat>)
    requires i < |s|
    ensures ChordOrder(chord, i, ChordLo(s, i), ChordHi(s, i))
    ensures forall j :: j in chord <==> InChord(s, i, j)
    ensures forall k :: 0 <= k < |chord| ==> chord[k] < |s|
    ensures forall a, b :: 0 <= a < b < |chord| ==> chord[a] != chord[b]
  {
    ChordIsMaximalRun(s, i);
    var lo;
    chord, lo := WalkPrevious(s, i);
    chord := WalkNext(s, i, lo, chord);
    ChordOrderMembers(chord, i, ChordLo(s, i), ChordHi(s, i));
  }

  /** The first loop of `GetChord()`: note `i`, then the earlier notes at its tick. */
  method WalkPrevious(s: seq<Note>, i: nat) returns (chord: seq<nat>, lo: nat)
    requires i < |s|
    ensures lo == ChordLo(s, i) && |chord| == i - lo + 1 && chord[0] == i
    ensures forall k :: 1 <= k <= i - lo ==> chord[k] == i - k
  {
    var p := s[i].position;
    chord := [i];
    var prev := i - 1;
    while prev >= 0 && s[prev].position == p
      invariant -1 <= prev < i
      invariant RunStart(s, p, prev) == ChordLo(s, i)
      invariant |chord| == i - prev && chord[0] == i
      invariant forall k :: 1 <= k < |chord| ==> chord[k] == i - k
      decreases prev
    {
      chord := chord + [prev];
      prev := prev - 1;
    }
    lo := prev + 1;
  }

  /** The second loop of `GetChord()`: appends the later notes at note `i`'s tick. */
  method WalkNext(s: seq<Note>, i: nat, lo: nat, chord0: seq<nat>) returns (chord: seq<nat>)
    requires i < |s| && lo == ChordLo(s, i) && |chord0| == i - lo + 1 && chord0[0] == i
    requires forall k :: 1 <= k <= i - lo ==> chord0[k] == i - k
    ensures ChordOrder(chord, i, lo, ChordHi(s, i))
  {
    ChordIsMaximalRun(s, i);
    var p := s[i].position;
    chord := chord0;
    var next := i + 1;
    while next < |s| && s[next].position == p
      invariant i < next <= |s|
      invariant RunEnd(s, p, next) == ChordHi(s, i)
      invariant |chord| == next - lo && chord[0] == i
      invariant forall k :: 1 <= k <= i - lo ==> chord[k] == i - k
      invariant forall k :: i - lo < k < |chord| ==> chord[k] == k + lo
      decreases |s| - next
    {
      chord := chord + [next];
      next := next + 1;
    }
  }

  /** The chord's notes, as a sub-sequence. */
  function ChordNotes(s: seq<Note>, i: nat): seq<Note>
    requires i < |s|
  {
    ChordIsMaximalRun(s, i);
    s[ChordLo(s, i)..ChordHi(s, i)]
  }

  // ---------------------------------------------------------------- masks

  /** The shift count C# uses for `1 << rawNote` on an `int`: the low five bits. */
  function ShiftOf(rawNote: int): bv5
  {
    (rawNote % 32) as bv5
  }

  /** `1 << rawNote`. */
  function Bit(rawNote: int): bv32
  {
    (1 as bv32) << ShiftOf(rawNote)
  }

  /** OR of the bits of every note of `t`. */
  function MaskOf(t: seq<Note>): bv32
    decreases |t|
  {
    if |t| == 0 then 0 else MaskOf(t[..|t| - 1]) | Bit(t[|t| - 1].rawNote)
  }

  /** `mask`: the bit mask of the whole chord. */
  function Mask(s: seq<Note>, i: nat): bv32
    requires i < |s|
  {
    MaskOf(ChordNotes(s, i))
  }

  lemma BitOr(m: bv32, a: bv5, b: bv5)
    ensures ((m | ((1 as bv32) << a)) & ((1 as bv32) << b) != 0)
        <==> ((m & ((1 as bv32) << b) != 0) || a == b)
  {
  }

  /** Bit `b` of a mask is set exactly when some note shifts onto it. */
  lemma {:induction false} MaskOfBit(t: seq<Note>, b: bv5)
    ensures MaskOf(t) & ((1 as bv32) << b) != 0 <==> exists k :: 0 <= k < |t| && ShiftOf(t[k].rawNote) == b
    decreases |t|
  {
    if t != [] {
      var init := t[..|t| - 1];
      MaskOfBit(init, b);
      BitOr(MaskOf(init), ShiftOf(t[|t| - 1].rawNote), b);
      if exists k :: 0 <= k < |init| && ShiftOf(init[k].rawNote) == b {
        var k :| 0 <= k < |init| && ShiftOf(init[k].rawNote) == b;
        assert t[k] == init[k];
      }
      if exists k :: 0 <= k < |t| && ShiftOf(t[k].rawNote) == b {
        var k :| 0 <= k < |t| && ShiftOf(t[k].rawNote) == b;
        if k < |t| - 1 {
          assert init[k] == t[k];
        }
      }
    }
  }

  /** `mask` is the OR of `1 << rawNote` over `GetChord()`: bit `b` is set iff a chord note
      shifts onto it, that is, iff its raw value is `b` modulo 32. */
  lemma MaskBit(s: seq<Note>, i: nat, b: bv5)
    requires i < |s|
    ensures Mask(s, i) & ((1 as bv32) << b) != 0 <==> exists j :: InChord(s, i, j) && ShiftOf(s[j].rawNote) == b
  {
    if Mask(s, i) & ((1 as bv32) << b) != 0 {
      MaskBitHasWitness(s, i, b);
    }
    forall j | InChord(s, i, j) && ShiftOf(s[j].rawNote) == b
      ensures Mask(s, i) & ((1 as bv32) << b) != 0
    {
      MaskBitOfMember(s, i, b, j);
    }
  }

  lemma MaskBitHasWitness(s: seq<Note>, i: nat, b: bv5)
    requires i < |s| && Mask(s, i) & ((1 as bv32) << b) != 0
    ensures exists j :: InChord(s, i, j) && ShiftOf(s[j].rawNote) == b
  {
    ChordIsMaximalRun(s, i);
    var lo, hi := ChordLo(s, i), ChordHi(s, i);
    var t := s[lo..hi];
    assert t == ChordNotes(s, i);
    MaskOfBit(t, b);
    var k :| 0 <= k < |t| && ShiftOf(t[k].rawNote) == b;
    assert s[lo + k] == t[k];
    assert InChord(s, i, lo + k);
  }

  lemma MaskBitOfMember(s: seq<Note>, i: nat, b: bv5, j: int)
    requires i < |s| && InChord(s, i, j) && 0 <= j < |s| && ShiftOf(s[j].rawNote) == b
    ensures Mask(s, i) & ((1 as bv32) << b) != 0
  {
    ChordIsMaximalRun(s, i);
    var lo, hi := ChordLo(s, i), ChordHi(s, i);
    var t := s[lo..hi];
    assert t == ChordNotes(s, i);
    MaskOfBit(t, b);
    assert t[j - lo] == s[j];
  }

  // ---------------------------------------------------------------- previous separate note

  /** `previousSeperateNote` as a specification: the nearest earlier note at another tick. */
  function PrevSeparate(s: seq<Note>, i: nat): Option<nat>
    requires i < |s|
  {
    var lo := ChordLo(s, i);
    if lo > 0 then Some(lo - 1) else None
  }

  /** `previousSeperateNote`: walks `previous` links past the notes at this note's tick. */
  method PreviousSeparateNote(s: seq<Note>, i: nat) returns (r: Option<nat>)
    requires i < |s|
    ensures r.Some? ==> r.value < i && s[r.value].position != s[i].position
    ensures r.Some? ==> forall k :: r.value < k <= i ==> s[k].position == s[i].position
    ensures r.None? ==> forall k :: 0 <= k <= i ==> s[k].position == s[i].position
    ensures r == PrevSeparate(s, i)
  {
    var p := s[i].position;
    var prev := i - 1;
    while prev >= 0 && s[prev].position == p
      invariant -1 <= prev < i
      invariant forall k :: prev < k <= i ==> s[k].position == p
      invariant RunStart(s, p, prev) == ChordLo(s, i)
      decreases prev
    {
      prev := prev - 1;
    }
    r := if prev >= 0 then Some(prev) else None;
  }

  /** `CannotBeForcedCheck`: no earlier separate note, or it has the same chord mask. */
  predicate CannotBeForced(s: seq<Note>, i: nat)
    requires i < |s|
  {
    match PrevSeparate(s, i)
    case None => true
    case Some(j) => Mask(s, i) == Mask(s, j)
  }

  // ---------------------------------------------------------------- note types

  /** `(int)(65 * resolution / 192)`: the largest tick gap that still gives a natural HOPO. */
  function HopoDistance(resolution: nat): nat
  {
    65 * resolution / STANDARD_BEAT_RESOLUTION
  }

  /** C# `uint` subtraction, which wraps modulo 2^32. */
  function UIntSub(a: uint32, b: uint32): uint32
  {
    (a - b) % UINT_LIMIT
  }

  /** `IsNaturalHopo`: a lone note close enough after a chord or after a different fret. */
  predicate IsNaturalHopo(s: seq<Note>, i: nat, resolution: nat)
    requires i < |s|
  {
    && !IsChord(s, i)
    && i > 0
    && (IsChord(s, i - 1) || s[i].rawNote != s[i - 1].rawNote)
    && UIntSub(s[i].position, s[i - 1].position) <= HopoDistance(resolution)
  }

  /** `IsHopo`: the natural rule, inverted by FORCED. */
  predicate IsHopo(s: seq<Note>, i: nat, resolution: nat)
    requires i < |s|
  {
    IsNaturalHopo(s, i, resolution) != s[i].flags.forced
  }

  /** `type`: Tap when TAP is set on a non-open note, otherwise Hopo or Strum. */
  function TypeOf(s: seq<Note>, i: nat, resolution: nat, mode: GameMode): NoteType
    requires i < |s|
  {
    if !IsOpenNote(s[i], mode) && s[i].flags.tap then Tap
    else if IsHopo(s, i, resolution) then Hopo
    else Strum
  }

  /** A lone note's previous separate note is its immediate predecessor. */
  lemma LoneNotePrevSeparate(s: seq<Note>, i: nat)
    requires i < |s| && i > 0 && !IsChord(s, i)
    ensures PrevSeparate(s, i) == Some(i - 1)
  {
  }

  /** On notes sorted by tick, the `uint` gap between a note and its predecessor never wraps. */
  lemma SortedGapNoWrap(s: seq<Note>, i: nat)
    requires 0 < i < |s| && SortedByPosition(s)
    ensures UIntSub(s[i].position, s[i - 1].position) == s[i].position - s[i - 1].position
  {
    assert s[i - 1].position <= s[i].position;
  }

  /** A chord, or the very first note, is never a natural HOPO; a lone note within
      range after a different fret or after a chord always is. */
  lemma NaturalHopoRule(s: seq<Note>, i: nat, resolution: nat)
    requires i < |s| && SortedByPosition(s)
    ensures IsChord(s, i) || i == 0 ==> !IsNaturalHopo(s, i, resolution)
    ensures !IsChord(s, i) && i > 0 ==>
      (IsNaturalHopo(s, i, resolution) <==>
        (IsChord(s, i - 1) || s[i].rawNote != s[i - 1].rawNote)
        && s[i].position - s[i - 1].position <= HopoDistance(resolution))
  {
    if i > 0 {
      SortedGapNoWrap(s, i);
    }
  }

  // ---------------------------------------------------------------- SetType

  /** The flags `SetType(t)` computes for note `i` before copying them onto its chord. */
  function SetTypeFlags(s: seq<Note>, i: nat, t: NoteType, resolution: nat, mode: GameMode): Flags
    requires i < |s|
  {
    match t
    case Strum =>
      if IsChord(s, i) then NONE
      else if IsNaturalHopo(s, i, resolution) then FORCED
      else NONE
    case Hopo =>
      if CannotBeForced(s, i) then NONE
      else if IsChord(s, i) then FORCED
      else if !IsNaturalHopo(s, i, resolution) then FORCED
      else NONE
    case Tap =>
      if !IsOpenNote(s[i], mode) then TAP else NONE
    case Natural => NONE
  }

  /** Note `i`'s chord with every flag set to `f`, the other notes untouched. */
  function WithChordFlags(s: seq<Note>, i: nat, f: Flags): (r: seq<Note>)
    requires i < |s|
    ensures |r| == |s|
  {
    seq(|s|, k requires 0 <= k < |s| => if InChord(s, i, k) then s[k].(flags := f) else s[k])
  }

  /** `s` and `r` hold the same notes up to their flags. */
  predicate SamePlacement(s: seq<Note>, r: seq<Note>)
  {
    |s| == |r| && forall k :: 0 <= k < |s| ==>
      s[k].position == r[k].position && s[k].rawNote == r[k].rawNote && s[k].sustain == r[k].sustain
  }

  /** Everything but the type depends only on positions and raw values, never on flags. */
  lemma {:induction false} PlacementDecides(s: seq<Note>, r: seq<Note>, i: nat, resolution: nat)
    requires SamePlacement(s, r) && i < |s|
    ensures ChordLo(s, i) == ChordLo(r, i) && ChordHi(s, i) == ChordHi(r, i)
    ensures IsChord(s, i) == IsChord(r, i)
    ensures IsNaturalHopo(s, i, resolution) == IsNaturalHopo(r, i, resolution)
    ensures Mask(s, i) == Mask(r, i)
    ensures PrevSeparate(s, i) == PrevSeparate(r, i)
    ensures CannotBeForced(s, i) == CannotBeForced(r, i)
  {
    PlacementDecidesChord(s, r, i);
    PlacementDecidesHopo(s, r, i, resolution);
    PlacementDecidesMask(s, r, i);
    PlacementDecidesPrev(s, r, i);
  }

  lemma PlacementDecidesHopo(s: seq<Note>, r: seq<Note>, i: nat, resolution: nat)
    requires SamePlacement(s, r) && i < |s|
    ensures IsNaturalHopo(s, i, resolution) == IsNaturalHopo(r, i, resolution)
  {
    PlacementDecidesChord(s, r, i);
    if i > 0 {
      PlacementDecidesChord(s, r, i - 1);
    }
  }

  lemma PlacementDecidesPrev(s: seq<Note>, r: seq<Note>, i: nat)
    requires SamePlacement(s, r) && i < |s|
    ensures PrevSeparate(s, i) == PrevSeparate(r, i)
    ensures CannotBeForced(s, i) == CannotBeForced(r, i)
  {
    PlacementDecidesChord(s, r, i);
    assert PrevSeparate(s, i) == PrevSeparate(r, i);
    PlacementDecidesMask(s, r, i);
    match PrevSeparate(s, i)
    case None =>
    case Some(j) =>
      PlacementDecidesMask(s, r, j);
  }

  lemma PlacementDecidesChord(s: seq<Note>, r: seq<Note>, i: nat)
    requires SamePlacement(s, r) && i < |s|
    ensures ChordLo(s, i) == ChordLo(r, i) && ChordHi(s, i) == ChordHi(r, i)
    ensures IsChord(s, i) == IsChord(r, i)
  {
    RunsAgree(s, r, s[i].position, i);
  }

  lemma PlacementDecidesMask(s: seq<Note>, r: seq<Note>, i: nat)
    requires SamePlacement(s, r) && i < |s|
    ensures Mask(s, i) == Mask(r, i)
  {
    PlacementDecidesChord(s, r, i);
    ChordIsMaximalRun(s, i);
    ChordIsMaximalRun(r, i);
    MaskOfAgrees(ChordNotes(s, i), ChordNotes(r, i));
  }

  lemma {:induction false} RunsAgree(s: seq<Note>, r: seq<Note>, p: uint32, k: nat)
    requires SamePlacement(s, r) && k < |s|
    ensures RunStart(s, p, k) == RunStart(r, p, k)
    ensures RunEnd(s, p, k) == RunEnd(r, p, k)
  {
    RunStartAgrees(s, r, p, k);
    RunEndAgrees(s, r, p, k);
  }

  lemma {:induction false} RunStartAgrees(s: seq<Note>, r: seq<Note>, p: uint32, k: int)
    requires SamePlacement(s, r) && -1 <= k < |s|
    ensures RunStart(s, p, k) == RunStart(r, p, k)
    decreases k + 1
  {
    if k >= 0 && s[k].position == p {
      RunStartAgrees(s, r, p, k - 1);
    }
  }

  lemma {:induction false} RunEndAgrees(s: seq<Note>, r: seq<Note>, p: uint32, k: nat)
    requires SamePlacement(s, r) && k <= |s|
    ensures RunEnd(s, p, k) == RunEnd(r, p, k)
    decreases |s| - k
  {
    if k < |s| && s[k].position == p {
      RunEndAgrees(s, r, p, k + 1);
    }
  }

  lemma {:induction false} MaskOfAgrees(t: seq<Note>, u: seq<Note>)
    requires |t| == |u| && forall k :: 0 <= k < |t| ==> t[k].rawNote == u[k].rawNote
    ensures MaskOf(t) == MaskOf(u)
    decreases |t|
  {
    if t != [] {
      MaskOfAgrees(t[..|t| - 1], u[..|u| - 1]);
    }
  }

  /** After `SetType`, every note of the chord carries exactly the computed flags and
      nothing else changes. */
  lemma ChordFlagsAfterSetType(s: seq<Note>, i: nat, t: NoteType, resolution: nat, mode: GameMode)
    requires i < |s|
    ensures var f := SetTypeFlags(s, i, t, resolution, mode);
      var r := WithChordFlags(s, i, f);
      && SamePlacement(s, r)
      && (forall k :: 0 <= k < |s| && InChord(s, i, k) ==> r[k].flags == f)
      && (forall k :: 0 <= k < |s| && !InChord(s, i, k) ==> r[k] == s[k])
  {
  }

  /** `SetType(Strum)` makes every note of the chord a strum. */
  lemma {:induction false} SetTypeStrum(s: seq<Note>, i: nat, resolution: nat, mode: GameMode, k: nat)
    requires i < |s| && InChord(s, i, k)
    ensures var r := WithChordFlags(s, i, SetTypeFlags(s, i, Strum, resolution, mode));
      TypeOf(r, k, resolution, mode) == Strum
  {
    var f := SetTypeFlags(s, i, Strum, resolution, mode);
    var r := WithChordFlags(s, i, f);
    ChordIsMaximalRun(s, i);
    assert SamePlacement(s, r);
    PlacementDecides(s, r, k, resolution);
    ChordOfMember(s, i, k);
    IsChordIffRunOfTwo(s, i);
    IsChordIffRunOfTwo(s, k);
    assert r[k].flags == f;
    if !IsChord(s, i) {
      assert ChordLo(s, i) == i && ChordHi(s, i) == i + 1;
      assert k == i;
    }
  }

  /** `SetType(Hopo)` makes every note of the chord a HOPO unless the chord cannot be
      forced, in which case every flag of the chord is cleared. */
  lemma {:induction false} SetTypeHopo(s: seq<Note>, i: nat, resolution: nat, mode: GameMode, k: nat)
    requires i < |s| && InChord(s, i, k)
    ensures var r := WithChordFlags(s, i, SetTypeFlags(s, i, Hopo, resolution, mode));
      && (!CannotBeForced(s, i) ==> TypeOf(r, k, resolution, mode) == Hopo)
      && (CannotBeForced(s, i) ==> r[k].flags == NONE)
  {
    var f := SetTypeFlags(s, i, Hopo, resolution, mode);
    var r := WithChordFlags(s, i, f);
    ChordIsMaximalRun(s, i);
    assert SamePlacement(s, r);
    PlacementDecides(s, r, k, resolution);
    ChordOfMember(s, i, k);
    IsChordIffRunOfTwo(s, i);
    IsChordIffRunOfTwo(s, k);
    assert r[k].flags == f;
    if !IsChord(s, i) {
      assert ChordLo(s, i) == i && ChordHi(s, i) == i + 1;
      assert k == i;
    }
  }

  /** `SetType(Tap)` leaves TAP alone on a non-open note and no flag on an open one. */
  lemma SetTypeTap(s: seq<Note>, i: nat, resolution: nat, mode: GameMode)
    requires i < |s|
    ensures var r := WithChordFlags(s, i, SetTypeFlags(s, i, Tap, resolution, mode));
      && (!IsOpenNote(s[i], mode) ==> r[i].flags == TAP && TypeOf(r, i, resolution, mode) == Tap)
      && (IsOpenNote(s[i], mode) ==> r[i].flags == NONE)
  {
    ChordIsMaximalRun(s, i);
  }

  /** `applyFlagsToChord`: copies note `i`'s flags onto every note of its chord. */
  method ApplyFlagsToChord(a: array<Note>, i: nat)
    requires i < a.Length
    modifies a
    ensures a[..] == WithChordFlags(old(a[..]), i, old(a[i].flags))
  {
    ghost var s := a[..];
    var chord := GetChord(a[..], i);
    var f := a[i].flags;
    var n := 0;
    while n < |chord|
      invariant 0 <= n <= |chord|
      invariant forall k :: 0 <= k < a.Length ==>
        a[k] == (if k in chord[..n] then s[k].(flags := f) else s[k])
    {
      a[chord[n]] := a[chord[n]].(flags := f);
      n := n + 1;
    }
    assert chord[..n] == chord;
  }

  /** Copying flags onto a chord overrides whatever flags the notes had before. */
  lemma WithChordFlagsOverrides(s: seq<Note>, r: seq<Note>, i: nat, f: Flags)
    requires i < |s| && |r| == |s|
    requires forall k :: 0 <= k < |s| && k != i ==> r[k] == s[k]
    requires r[i] == s[i].(flags := r[i].flags)
    ensures WithChordFlags(r, i, f) == WithChordFlags(s, i, f)
  {
    assert SamePlacement(s, r);
    PlacementDecidesChord(s, r, i);
    ChordIsMaximalRun(s, i);
  }

  /** The flags `SetType` computes do not depend on the flags the notes had. */
  lemma SetTypeFlagsIgnoreFlags(s: seq<Note>, r: seq<Note>, i: nat, t: NoteType, resolution: nat, mode: GameMode)
    requires SamePlacement(s, r) && i < |s|
    ensures SetTypeFlags(r, i, t, resolution, mode) == SetTypeFlags(s, i, t, resolution, mode)
  {
    PlacementDecides(s, r, i, resolution);
  }

  /** `SetType(t)`: recomputes note `i`'s flags for type `t`, then copies them onto its chord. */
  method SetType(a: array<Note>, i: nat, t: NoteType, resolution: nat, mode: GameMode)
    requires i < a.Length
    modifies a
    ensures a[..] == WithChordFlags(old(a[..]), i, SetTypeFlags(old(a[..]), i, t, resolution, mode))
  {
    ghost var s := a[..];
    a[i] := a[i].(flags := NONE);
    SetTypeFlagsIgnoreFlags(s, a[..], i, t, resolution, mode);
    var f := NONE;
    match t {
      case Strum =>
        if IsChord(a[..], i) {
          f := NONE;
        } else if IsNaturalHopo(a[..], i, resolution) {
          f := f.Union(FORCED);
        } else {
          f := NONE;
        }
      case Hopo =>
        if !CannotBeForced(a[..], i) {
          if IsChord(a[..], i) {
            f := f.Union(FORCED);
          } else if !IsNaturalHopo(a[..], i, resolution) {
            f := f.Union(FORCED);
          } else {
            f := NONE;
          }
        }
      case Tap =>
        if !IsOpenNote(a[i], mode) {
          f := f.Union(TAP);
        }
      case Natural =>
    }
    assert f == SetTypeFlags(a[..], i, t, resolution, mode);
    a[i] := a[i].(flags := f);
    WithChordFlagsOverrides(s, a[..], i, f);
    ApplyFlagsToChord(a, i);
  }

  /** `groupAddFlags`: ORs `flag` into every listed note. */
  method GroupAddFlags(a: array<Note>, notes: seq<nat>, flag: Flags)
    requires forall n :: n in notes ==> n < a.Length
    modifies a
    ensures forall k :: 0 <= k < a.Length ==>
      a[k] == if k in notes then old(a[k]).(flags := old(a[k]).flags.Union(flag)) else old(a[k])
  {
    var n := 0;
    while n < |notes|
      invariant 0 <= n <= |notes|
      invariant forall k :: 0 <= k < a.Length ==>
        a[k] == if k in notes[..n] then old(a[k]).(flags := old(a[k]).flags.Union(flag)) else old(a[k])
    {
      assert notes[n] in notes;
      a[notes[n]] := a[notes[n]].(flags := a[notes[n]].flags.Union(flag));
      assert notes[..n + 1] == notes[..n] + [notes[n]];
      n := n + 1;
    }
    assert notes[..n] == notes;
  }

  // ---------------------------------------------------------------- drums

  /** `SaveGuitarNoteToDrumNote`. */
  function SaveGuitarNoteToDrumNote(fret: int): int
  {
    if fret == OPEN then GREEN else if fret == ORANGE then OPEN else fret + 1
  }

  /** `LoadDrumNoteToGuitarNote`. */
  function LoadDrumNoteToGuitarNote(fret: int): int
  {
    if fret == OPEN then ORANGE else if fret == GREEN then OPEN else fret - 1
  }

  /** The two drum remaps are inverse bijections of the six Fret_Type values. */
  lemma DrumRemapsInverse(fret: int)
    requires GREEN <= fret <= OPEN
    ensures GREEN <= SaveGuitarNoteToDrumNote(fret) <= OPEN
    ensures GREEN <= LoadDrumNoteToGuitarNote(fret) <= OPEN
    ensures LoadDrumNoteToGuitarNote(SaveGuitarNoteToDrumNote(fret)) == fret
    ensures SaveGuitarNoteToDrumNote(LoadDrumNoteToGuitarNote(fret)) == fret
  {
  }
}
