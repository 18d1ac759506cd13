/** The tempo marker of `BPM.cs`: a tick, the tempo stored as beats per minute ×1000 and an
    optional anchor, which the model keeps as the integer number of microseconds the writer prints. */
module Tempo {
  import opened Wrappers
  import opened Text

  /** A tempo change: `value` is beats per minute ×1000 (120.075 BPM is 120075). */
  datatype Bpm = Bpm(position: uint32, value: uint32, anchor: Option<nat>)

  /** `new BPM(_position = 0, _value = 120000)`: no anchor. */
  function NewBpm(position: uint32 := 0, value: uint32 := 120000): Bpm
  {
    Bpm(position, value, None)
  }

  /** The copy constructor `new BPM(_bpm)`, which `Clone` calls. */
  function Clone(b: Bpm): Bpm
  {
    Bpm(b.position, b.value, b.anchor)
  }

  /** The parameterless constructor gives 120.000 BPM at tick 0 with no anchor. */
  lemma DefaultBpm()
    ensures NewBpm().position == 0 && NewBpm().anchor == None
    ensures NewBpm().value / 1000 == 120 && NewBpm().value % 1000 == 0
  {
  }

  /** A clone carries the same tick, tempo and anchor. */
  lemma CloneKeepsValues(b: Bpm)
    ensures Clone(b).position == b.position && Clone(b).value == b.value && Clone(b).anchor == b.anchor
  {
  }

  // ---------------------------------------------------------------- save lines

  /** `<tab><tick> = A <microseconds>` */
  function AnchorLine(b: Bpm): string
    requires b.anchor.Some?
  {
    TABSPACE + NatToString(b.position) + " = A " + NatToString(b.anchor.value)
  }

  /** `<tab><tick> = B <value>` */
  function TempoLine(b: Bpm): string
  {
    TABSPACE + NatToString(b.position) + " = B " + NatToString(b.value)
  }

  /** The lines of `GetSaveString`: the anchor line when there is an anchor, then the tempo line.
      Only the tempo line is recognised by `regexMatch`. */
  function SaveLines(b: Bpm): (lines: seq<string>)
    ensures |lines| == if b.anchor.Some? then 2 else 1
    ensures RegexMatch(lines[|lines| - 1])
    ensures b.anchor.Some? ==> !RegexMatch(lines[0])
  {
    TempoLineMatches(b);
    if b.anchor.Some? then
      AnchorLineDoesNotMatch(b);
      [AnchorLine(b), TempoLine(b)]
    else [TempoLine(b)]
  }

  /** `GetSaveString`: every save line followed by the line ending. */
  function GetSaveString(b: Bpm): string
  {
    RenderLines(SaveLines(b))
  }

  // ---------------------------------------------------------------- regexMatch

  /** The pattern `\d+ = B \d+` matches with its ` = B ` at index `k`: a digit just before and
      a digit just after. */
  predicate TempoPatternAt(s: string, k: int)
  {
    1 <= k && k + 6 <= |s| && IsDigit(s[k - 1]) && s[k..k + 5] == " = B " && IsDigit(s[k + 5])
  }

  /** `regexMatch`: the unanchored pattern occurs somewhere in the line. */
  function RegexMatch(s: string): (r: bool)
    ensures r <==> exists k :: TempoPatternAt(s, k)
  {
    MatchFrom(s, 1)
  }

  /** The scan behind `RegexMatch`: some match has its ` = B ` at index `k` or later. */
  function MatchFrom(s: string, k: nat): (r: bool)
    ensures r <==> exists j :: k <= j && TempoPatternAt(s, j)
    decreases |s| - k
  {
    if k + 6 > |s| then false
    else if TempoPatternAt(s, k) then true
    else
      var r := MatchFrom(s, k + 1);
      assert forall j :: k <= j && TempoPatternAt(s, j) ==> j == k || k + 1 <= j;
      r
  }

  /** A line without a `B` never matches. */
  lemma NoBNoMatch(s: string)
    requires forall i :: 0 <= i < |s| ==> s[i] != 'B'
    ensures !RegexMatch(s)
  {
    forall k
      ensures !TempoPatternAt(s, k)
    {
      if 1 <= k && k + 6 <= |s| {
        assert s[k..k + 5][3] == s[k + 3] != 'B';
      }
    }
  }

  lemma TempoLineMatches(b: Bpm)
    ensures RegexMatch(TempoLine(b))
  {
    var p, v := NatToString(b.position), NatToString(b.value);
    var s := TempoLine(b);
    var k := |TABSPACE| + |p|;
    assert s == TABSPACE + p + " = B " + v;
    assert s[k - 1] == p[|p| - 1];
    assert s[k..k + 5] == " = B ";
    assert s[k + 5] == v[0];
    assert TempoPatternAt(s, k);
  }

  lemma AnchorLineDoesNotMatch(b: Bpm)
    requires b.anchor.Some?
    ensures !RegexMatch(AnchorLine(b))
  {
    var p, a := NatToString(b.position), NatToString(b.anchor.value);
    var s := AnchorLine(b);
    assert s == TABSPACE + p + " = A " + a;
    forall i | 0 <= i < |s|
      ensures s[i] != 'B'
    {
      if i < |TABSPACE| {
      } else if i < |TABSPACE| + |p| {
        assert s[i] == p[i - |TABSPACE|];
      } else if i < |TABSPACE| + |p| + 5 {
        assert s[i] == " = A "[i - |TABSPACE| - |p|];
      } else {
        assert s[i] == a[i - |TABSPACE| - |p| - 5];
      }
    }
    NoBNoMatch(s);
  }
}
