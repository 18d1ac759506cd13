/** `SortableBytes` of `ByteSort.cs`: encoded MIDI event buffers keyed by tick, sorted by a
    recursive in-place merge sort, plus a merge of two already sorted arrays. */
module ByteSorting {
  import opened Text

  /** A tick position and the bytes encoded for it. */
  datatype SortableBytes = SortableBytes(position: uint32, bytes: seq<bv8>)

  /** The parameterless constructor. */
  const EMPTY: SortableBytes := SortableBytes(0, [])

  predicate Sorted(s: seq<SortableBytes>)
  {
    forall j, k :: 0 <= j < k < |s| ==> s[j].position <= s[k].position
  }

  /** The elements of `s` at tick `p`, in order: equal keys keep this order under a stable sort. */
  function AtTick(s: seq<SortableBytes>, p: uint32): (r: seq<SortableBytes>)
    decreases |s|
  {
    if |s| == 0 then []
    else (if s[0].position == p then [s[0]] else []) + AtTick(s[1..], p)
  }

  // ---------------------------------------------------------------- specification

  /** The merge `Merge` performs once `i` elements of the left run `x` and `j` of the right
      run `y` are placed: the left run goes first on equal ticks. */
  function MergeFrom(x: seq<SortableBytes>, y: seq<SortableBytes>, i: nat, j: nat): (r: seq<SortableBytes>)
    requires i <= |x| && j <= |y|
    ensures |r| == |x| - i + |y| - j
    decreases |x| - i + |y| - j
  {
    if i == |x| then y[j..]
    else if j == |y| then x[i..]
    else if x[i].position <= y[j].position then [x[i]] + MergeFrom(x, y, i + 1, j)
    else [y[j]] + MergeFrom(x, y, i, j + 1)
  }

  /** The same for `MergeAlreadySorted`, which takes from `x` only on a strictly smaller tick. */
  function MergeFromRight(x: seq<SortableBytes>, y: seq<SortableBytes>, i: nat, j: nat): (r: seq<SortableBytes>)
    requires i <= |x| && j <= |y|
    ensures |r| == |x| - i + |y| - j
    decreases |x| - i + |y| - j
  {
    if i == |x| then y[j..]
    else if j == |y| then x[i..]
    else if x[i].position < y[j].position then [x[i]] + MergeFromRight(x, y, i + 1, j)
    else [y[j]] + MergeFromRight(x, y, i, j + 1)
  }

  /** What `Merge` writes for the runs `x` and `y`. */
  function MergeLeftFirst(x: seq<SortableBytes>, y: seq<SortableBytes>): seq<SortableBytes>
  {
    MergeFrom(x, y, 0, 0)
  }

  /** What `MergeAlreadySorted` returns for `x` and `y`. */
  function MergeRightFirst(x: seq<SortableBytes>, y: seq<SortableBytes>): seq<SortableBytes>
  {
    MergeFromRight(x, y, 0, 0)
  }

  /** The split point `(right + left) / 2` of `MergeSort`, computed without division (see
      `MiddleIsHalf`). */
  function Middle(left: int, right: int): (m: int)
    requires left <= right
    ensures left <= m <= right && (left < right ==> m < right)
    decreases right - left
  {
    if right - left <= 1 then left else Middle(left + 1, right - 1)
  }

  lemma {:induction false} MiddleIsHalf(left: int, right: int)
    requires left <= right
    ensures Middle(left, right) == (right + left) / 2
    decreases right - left
  {
    if right - left > 1 {
      MiddleIsHalf(left + 1, right - 1);
    }
  }

  /** What `MergeSort(bytes, left, right)` leaves in `left..right` when the array holds `a`:
      a segment of at most one entry as it is, else the merge of the sorted halves
      `left..mid` and `mid+1..right`, with `mid = Middle(left, right)`. */
  function MergeSortOf(a: seq<SortableBytes>, left: nat, right: int): (r: seq<SortableBytes>)
    requires left <= right + 1 <= |a|
    ensures |r| == right + 1 - left
    decreases right + 1 - left
  {
    if right <= left then a[left..right + 1]
    else
      var mid := Middle(left, right);
      MergeLeftFirst(MergeSortOf(a, left, mid), MergeSortOf(a, mid + 1, right))
  }

  /** What `Sort` leaves in the whole array. */
  function SortOf(s: seq<SortableBytes>): (r: seq<SortableBytes>)
  {
    MergeSortOf(s, 0, |s| - 1)
  }

  // ---------------------------------------------------------------- merge lemmas

  lemma {:induction false} SortedConsBelow(e: SortableBytes, t: seq<SortableBytes>)
    requires Sorted(t) && (t == [] || e.position <= t[0].position)
    ensures Sorted([e] + t)
  {
  }

  lemma SuffixCons(x: seq<SortableBytes>, i: nat)
    requires i < |x|
    ensures x[i..] == [x[i]] + x[i + 1..]
  {
  }

  /** The first element of a merge in progress is the head of one of the two rests. */
  lemma MergeFromHead(x: seq<SortableBytes>, y: seq<SortableBytes>, i: nat, j: nat)
    requires i <= |x| && j <= |y| && i + j < |x| + |y|
    ensures var r := MergeFrom(x, y, i, j);
      (i < |x| && (j == |y| || x[i].position <= y[j].position) ==> r[0] == x[i]) &&
      (j < |y| && (i == |x| || x[i].position > y[j].position) ==> r[0] == y[j])
  {
  }

  lemma MergeFromRightHead(x: seq<SortableBytes>, y: seq<SortableBytes>, i: nat, j: nat)
    requires i <= |x| && j <= |y| && i + j < |x| + |y|
    ensures var r := MergeFromRight(x, y, i, j);
      (i < |x| && (j == |y| || x[i].position < y[j].position) ==> r[0] == x[i]) &&
      (j < |y| && (i == |x| || x[i].position >= y[j].position) ==> r[0] == y[j])
  {
  }

  /** Merging two sorted runs keeps them sorted. */
  lemma {:induction false} MergeFromSorted(x: seq<SortableBytes>, y: seq<SortableBytes>, i: nat, j: nat)
    requires Sorted(x) && Sorted(y) && i <= |x| && j <= |y|
    ensures Sorted(MergeFrom(x, y, i, j))
    decreases |x| - i + |y| - j
  {
    if i == |x| || j == |y| {
    } else if x[i].position <= y[j].position {
      MergeFromSorted(x, y, i + 1, j);
      if i + 1 + j < |x| + |y| {
        MergeFromHead(x, y, i + 1, j);
      }
      SortedConsBelow(x[i], MergeFrom(x, y, i + 1, j));
    } else {
      MergeFromSorted(x, y, i, j + 1);
      if i + j + 1 < |x| + |y| {
        MergeFromHead(x, y, i, j + 1);
      }
      SortedConsBelow(y[j], MergeFrom(x, y, i, j + 1));
    }
  }

  lemma {:induction false} MergeFromRightSorted(x: seq<SortableBytes>, y: seq<SortableBytes>, i: nat, j: nat)
    requires Sorted(x) && Sorted(y) && i <= |x| && j <= |y|
    ensures Sorted(MergeFromRight(x, y, i, j))
    decreases |x| - i + |y| - j
  {
    if i == |x| || j == |y| {
    } else if x[i].position < y[j].position {
      MergeFromRightSorted(x, y, i + 1, j);
      if i + 1 + j < |x| + |y| {
        MergeFromRightHead(x, y, i + 1, j);
      }
      SortedConsBelow(x[i], MergeFromRight(x, y, i + 1, j));
    } else {
      MergeFromRightSorted(x, y, i, j + 1);
      if i + j + 1 < |x| + |y| {
        MergeFromRightHead(x, y, i, j + 1);
      }
      SortedConsBelow(y[j], MergeFromRight(x, y, i, j + 1));
    }
  }

  /** Merging keeps every element, each as often as it occurs. */
  lemma {:induction false} MergeFromPermutes(x: seq<SortableBytes>, y: seq<SortableBytes>, i: nat, j: nat)
    requires i <= |x| && j <= |y|
    ensures multiset(MergeFrom(x, y, i, j)) == multiset(x[i..]) + multiset(y[j..])
    decreases |x| - i + |y| - j
  {
    if i == |x| {
      assert x[i..] == [];
    } else if j == |y| {
      assert y[j..] == [];
    } else if x[i].position <= y[j].position {
      MergeFromPermutes(x, y, i + 1, j);
      SuffixCons(x, i);
    } else {
      MergeFromPermutes(x, y, i, j + 1);
      SuffixCons(y, j);
    }
  }

  lemma {:induction false} MergeFromRightPermutes(x: seq<SortableBytes>, y: seq<SortableBytes>, i: nat, j: nat)
    requires i <= |x| && j <= |y|
    ensures multiset(MergeFromRight(x, y, i, j)) == multiset(x[i..]) + multiset(y[j..])
    decreases |x| - i + |y| - j
  {
    if i == |x| {
      assert x[i..] == [];
    } else if j == |y| {
      assert y[j..] == [];
    } else if x[i].position < y[j].position {
      MergeFromRightPermutes(x, y, i + 1, j);
      SuffixCons(x, i);
    } else {
      MergeFromRightPermutes(x, y, i, j + 1);
      SuffixCons(y, j);
    }
  }

  lemma {:induction false} AtTickAppend(s: seq<SortableBytes>, t: seq<SortableBytes>, p: uint32)
    ensures AtTick(s + t, p) == AtTick(s, p) + AtTick(t, p)
    decreases |s|
  {
    if s == [] {
      assert s + t == t;
    } else {
      AtTickAppend(s[1..], t, p);
      var h := if s[0].position == p then [s[0]] else [];
      assert (s + t)[1..] == s[1..] + t;
      assert AtTick(s + t, p) == h + AtTick(s[1..] + t, p);
      assert h + (AtTick(s[1..], p) + AtTick(t, p)) == (h + AtTick(s[1..], p)) + AtTick(t, p);
    }
  }

  /** Cutting the head off a suffix. */
  lemma AtTickSuffix(x: seq<SortableBytes>, i: nat, p: uint32)
    requires i < |x|
    ensures AtTick(x[i..], p) == AtTick([x[i]], p) + AtTick(x[i + 1..], p)
  {
    SuffixCons(x, i);
    AtTickAppend([x[i]], x[i + 1..], p);
  }

  lemma {:induction false} AtTickAbove(x: seq<SortableBytes>, i: nat, p: uint32)
    requires Sorted(x) && i < |x| && x[i].position > p
    ensures AtTick(x[i..], p) == []
    decreases |x| - i
  {
    AtTickSuffix(x, i, p);
    if i + 1 < |x| {
      AtTickAbove(x, i + 1, p);
    } else {
      assert x[i + 1..] == [];
    }
  }

  /** Placing the head of a run in front of a merge in progress, when the head comes first
      among the elements at tick `p`. */
  lemma AtTickConsFirst(r: seq<SortableBytes>, x: seq<SortableBytes>, i: nat, rest: seq<SortableBytes>, p: uint32)
    requires i < |x| && AtTick(r, p) == AtTick(x[i + 1..], p) + rest
    ensures AtTick([x[i]] + r, p) == AtTick(x[i..], p) + rest
  {
    AtTickAppend([x[i]], r, p);
    AtTickSuffix(x, i, p);
  }

  /** The same when the head comes after the elements `front` of the other run at tick
      `p`, which is only possible when there are none or the head is at another tick. */
  lemma AtTickConsSecond(r: seq<SortableBytes>, front: seq<SortableBytes>, y: seq<SortableBytes>, j: nat, p: uint32)
    requires j < |y| && AtTick(r, p) == front + AtTick(y[j + 1..], p)
    requires y[j].position == p ==> front == []
    ensures AtTick([y[j]] + r, p) == front + AtTick(y[j..], p)
  {
    AtTickAppend([y[j]], r, p);
    AtTickSuffix(y, j, p);
  }

  /** `Merge` is stable: among equal ticks the left run's elements come first, in order. */
  lemma {:induction false} MergeFromStable(x: seq<SortableBytes>, y: seq<SortableBytes>, i: nat, j: nat, p: uint32)
    requires Sorted(x) && Sorted(y) && i <= |x| && j <= |y|
    ensures AtTick(MergeFrom(x, y, i, j), p) == AtTick(x[i..], p) + AtTick(y[j..], p)
    decreases |x| - i + |y| - j
  {
    if i == |x| {
      assert x[i..] == [];
    } else if j == |y| {
      assert y[j..] == [];
    } else if x[i].position <= y[j].position {
      MergeFromStable(x, y, i + 1, j, p);
      AtTickConsFirst(MergeFrom(x, y, i + 1, j), x, i, AtTick(y[j..], p), p);
    } else {
      MergeFromStable(x, y, i, j + 1, p);
      if y[j].position == p {
        AtTickAbove(x, i, p);
      }
      AtTickConsSecond(MergeFrom(x, y, i, j + 1), AtTick(x[i..], p), y, j, p);
    }
  }

  /** `MergeAlreadySorted` breaks ties the other way: among equal ticks `b`'s elements come first. */
  lemma {:induction false} MergeFromRightStable(x: seq<SortableBytes>, y: seq<SortableBytes>, i: nat, j: nat, p: uint32)
    requires Sorted(x) && Sorted(y) && i <= |x| && j <= |y|
    ensures AtTick(MergeFromRight(x, y, i, j), p) == AtTick(y[j..], p) + AtTick(x[i..], p)
    decreases |x| - i + |y| - j
  {
    if i == |x| {
      assert x[i..] == [];
    } else if j == |y| {
      assert y[j..] == [];
    } else if x[i].position < y[j].position {
      MergeFromRightStable(x, y, i + 1, j, p);
      if x[i].position == p {
        AtTickAbove(y, j, p);
      }
      AtTickConsSecond(MergeFromRight(x, y, i + 1, j), AtTick(y[j..], p), x, i, p);
    } else {
      MergeFromRightStable(x, y, i, j + 1, p);
      AtTickConsFirst(MergeFromRight(x, y, i, j + 1), y, j, AtTick(x[i..], p), p);
    }
  }

  /** `MergeAlreadySorted` of two sorted arrays holds exactly their elements, sorted, with the
      elements of `b` ahead of those of `a` at every shared tick. */
  lemma MergeRightFirstCorrect(x: seq<SortableBytes>, y: seq<SortableBytes>, p: uint32)
    requires Sorted(x) && Sorted(y)
    ensures Sorted(MergeRightFirst(x, y))
    ensures multiset(MergeRightFirst(x, y)) == multiset(x) + multiset(y)
    ensures AtTick(MergeRightFirst(x, y), p) == AtTick(y, p) + AtTick(x, p)
  {
    MergeFromRightSorted(x, y, 0, 0);
    MergeFromRightPermutes(x, y, 0, 0);
    MergeFromRightStable(x, y, 0, 0, p);
    assert x[0..] == x && y[0..] == y;
  }

  // ---------------------------------------------------------------- sort lemmas

  /** A segment of two or more entries is the merge of its sorted halves. */
  lemma MergeSortOfSplits(a: seq<SortableBytes>, left: nat, right: nat)
    requires left < right < |a|
    ensures var mid := Middle(left, right);
      MergeSortOf(a, left, right) == MergeLeftFirst(MergeSortOf(a, left, mid), MergeSortOf(a, mid + 1, right))
  {
  }

  /** A sorted segment depends only on the entries inside it. */
  lemma {:induction false} MergeSortOfFrame(a: seq<SortableBytes>, b: seq<SortableBytes>, left: nat, right: int)
    requires left <= right + 1 <= |a| && right + 1 <= |b|
    requires forall k :: left <= k <= right ==> a[k] == b[k]
    ensures MergeSortOf(a, left, right) == MergeSortOf(b, left, right)
    decreases right + 1 - left
  {
    if right > left {
      var mid := Middle(left, right);
      MergeSortOfFrame(a, b, left, mid);
      MergeSortOfFrame(a, b, mid + 1, right);
      MergeSortOfFrameStep(a, b, left, mid, right);
    } else {
      SliceFrame(a, b, left, right + 1);
    }
  }

  /** Two sequences that agree on `lo..hi-1` have the same slice there. */
  lemma SliceFrame(a: seq<SortableBytes>, b: seq<SortableBytes>, lo: nat, hi: nat)
    requires lo <= hi <= |a| && hi <= |b|
    requires forall k :: lo <= k < hi ==> a[k] == b[k]
    ensures a[lo..hi] == b[lo..hi]
  {
  }

  /** The inductive step of `MergeSortOfFrame`. */
  lemma MergeSortOfFrameStep(a: seq<SortableBytes>, b: seq<SortableBytes>, left: nat, mid: nat, right: nat)
    requires left <= mid < right < |a| && right < |b| && mid == Middle(left, right)
    requires MergeSortOf(a, left, mid) == MergeSortOf(b, left, mid)
    requires MergeSortOf(a, mid + 1, right) == MergeSortOf(b, mid + 1, right)
    ensures MergeSortOf(a, left, right) == MergeSortOf(b, left, right)
  {
  }

  /** After `MergeSort` the segment is ordered by tick. */
  lemma {:induction false} MergeSortOfSorted(a: seq<SortableBytes>, left: nat, right: int)
    requires left <= right + 1 <= |a|
    ensures Sorted(MergeSortOf(a, left, right))
    decreases right + 1 - left
  {
    if right > left {
      var mid := Middle(left, right);
      MergeSortOfSorted(a, left, mid);
      MergeSortOfSorted(a, mid + 1, right);
      MergeFromSorted(MergeSortOf(a, left, mid), MergeSortOf(a, mid + 1, right), 0, 0);
    }
  }

  /** Merging keeps every entry of both runs. */
  lemma MergeLeftFirstPermutes(l: seq<SortableBytes>, r: seq<SortableBytes>)
    ensures multiset(MergeLeftFirst(l, r)) == multiset(l) + multiset(r)
  {
    MergeFromPermutes(l, r, 0, 0);
    assert l[0..] == l && r[0..] == r;
  }

  /** `Merge` is stable: at every tick, the entries of the left run come first, then those
      of the right run, each in their order. */
  lemma MergeLeftFirstStable(l: seq<SortableBytes>, r: seq<SortableBytes>, p: uint32)
    requires Sorted(l) && Sorted(r)
    ensures AtTick(MergeLeftFirst(l, r), p) == AtTick(l, p) + AtTick(r, p)
  {
    MergeFromStable(l, r, 0, 0, p);
    assert l[0..] == l && r[0..] == r;
  }

  /** The entries of a segment at a tick are those of its two halves. */
  lemma AtTickHalves(a: seq<SortableBytes>, left: nat, mid: nat, right: nat, p: uint32)
    requires left <= mid < right < |a|
    ensures AtTick(a[left..right + 1], p) == AtTick(a[left..mid + 1], p) + AtTick(a[mid + 1..right + 1], p)
  {
    SliceSplit(a, left, mid + 1, right + 1);
    AtTickAppend(a[left..mid + 1], a[mid + 1..right + 1], p);
  }

  /** A slice is the concatenation of its two halves. */
  lemma SliceSplit<T>(a: seq<T>, lo: nat, md: nat, hi: nat)
    requires lo <= md <= hi <= |a|
    ensures a[lo..hi] == a[lo..md] + a[md..hi]
  {
  }

  /** `MergeSort` is stable: entries at the same tick keep their order. */
  lemma {:induction false} MergeSortOfStable(a: seq<SortableBytes>, left: nat, right: int, p: uint32)
    requires left <= right + 1 <= |a|
    ensures AtTick(MergeSortOf(a, left, right), p) == AtTick(a[left..right + 1], p)
    decreases right + 1 - left
  {
    if right > left {
      var mid := Middle(left, right);
      MergeSortOfStable(a, left, mid, p);
      MergeSortOfStable(a, mid + 1, right, p);
      MergeSortOfStableStep(a, left, mid, right, p);
    }
  }

  /** The inductive step of `MergeSortOfStable`. */
  lemma MergeSortOfStableStep(a: seq<SortableBytes>, left: nat, mid: nat, right: nat, p: uint32)
    requires left <= mid < right < |a| && mid == Middle(left, right)
    requires AtTick(MergeSortOf(a, left, mid), p) == AtTick(a[left..mid + 1], p)
    requires AtTick(MergeSortOf(a, mid + 1, right), p) == AtTick(a[mid + 1..right + 1], p)
    ensures AtTick(MergeSortOf(a, left, right), p) == AtTick(a[left..right + 1], p)
  {
    MergeSortOfSplits(a, left, right);
    MergeHalvesStable(a, left, mid, right, p);
    AtTickHalves(a, left, mid, right, p);
  }

  /** Merging the sorted halves keeps the entries at tick `p` of both, left half first. */
  lemma MergeHalvesStable(a: seq<SortableBytes>, left: nat, mid: nat, right: nat, p: uint32)
    requires left <= mid < right < |a|
    ensures var l, r := MergeSortOf(a, left, mid), MergeSortOf(a, mid + 1, right);
      AtTick(MergeLeftFirst(l, r), p) == AtTick(l, p) + AtTick(r, p)
  {
    MergeSortOfSorted(a, left, mid);
    MergeSortOfSorted(a, mid + 1, right);
    MergeLeftFirstStable(MergeSortOf(a, left, mid), MergeSortOf(a, mid + 1, right), p);
  }

  /** An entry occurs in a sequence as often as among the sequence's entries at its tick. */
  lemma {:induction false} CountAtTick(s: seq<SortableBytes>, e: SortableBytes)
    ensures multiset(s)[e] == multiset(AtTick(s, e.position))[e]
    decreases |s|
  {
    if s != [] {
      CountAtTick(s[1..], e);
      assert s == [s[0]] + s[1..];
    }
  }

  /** Sequences with the same entries at every tick hold the same entries: a stable
      reordering is a permutation. */
  lemma SameAtTicksPermutes(s: seq<SortableBytes>, t: seq<SortableBytes>)
    requires forall p: uint32 :: AtTick(s, p) == AtTick(t, p)
    ensures multiset(s) == multiset(t)
  {
    forall e | e in multiset(s) + multiset(t)
      ensures multiset(s)[e] == multiset(t)[e]
    {
      CountAtTick(s, e);
      CountAtTick(t, e);
    }
  }

  /** `Sort` orders the array by tick, keeps the order of entries that share a tick, and
      so keeps its entries. */
  lemma SortOfCorrect(s: seq<SortableBytes>)
    ensures Sorted(SortOf(s))
    ensures forall p: uint32 :: AtTick(SortOf(s), p) == AtTick(s, p)
    ensures multiset(SortOf(s)) == multiset(s)
  {
    MergeSortOfSorted(s, 0, |s| - 1);
    assert s[0..|s|] == s;
    forall p: uint32
      ensures AtTick(SortOf(s), p) == AtTick(s, p)
    {
      MergeSortOfStable(s, 0, |s| - 1, p);
    }
    SameAtTicksPermutes(SortOf(s), s);
  }

  /** An empty or one-element array is left as it is. */
  lemma SortOfShort(s: seq<SortableBytes>)
    requires |s| <= 1
    ensures SortOf(s) == s
  {
    assert s[0..|s|] == s;
  }

  // ---------------------------------------------------------------- merging step by step

  /** Whether a merge takes its next entry from the left run `x` once `i` entries of `x` and
      `j` of `y` are placed: when `y` is used up, or when `x[i]` comes first — on an equal
      tick too if `leftOnTie`, as in `Merge`, and only on a smaller one if not, as in
      `MergeAlreadySorted`. */
  predicate TakesLeft(x: seq<SortableBytes>, y: seq<SortableBytes>, i: nat, j: nat, leftOnTie: bool)
    requires i <= |x| && j <= |y|
  {
    j == |y| ||
    (i < |x| && if leftOnTie then x[i].position <= y[j].position else x[i].position < y[j].position)
  }

  /** How many entries of the left and of the right run a merge has placed. */
  datatype Taken = Taken(left: nat, right: nat)

  /** How many entries of each run a merge has placed after `n` steps. */
  function Steps(x: seq<SortableBytes>, y: seq<SortableBytes>, n: nat, leftOnTie: bool): (r: Taken)
    requires n <= |x| + |y|
    ensures r.left <= |x| && r.right <= |y| && r.left + r.right == n
  {
    if n == 0 then Taken(0, 0)
    else
      var s := Steps(x, y, n - 1, leftOnTie);
      if TakesLeft(x, y, s.left, s.right, leftOnTie) then Taken(s.left + 1, s.right) else Taken(s.left, s.right + 1)
  }

  /** The entry a merge places at step `n`. */
  function Out(x: seq<SortableBytes>, y: seq<SortableBytes>, n: nat, leftOnTie: bool): SortableBytes
    requires n < |x| + |y|
  {
    var s := Steps(x, y, n, leftOnTie);
    if TakesLeft(x, y, s.left, s.right, leftOnTie) then x[s.left] else y[s.right]
  }

  /** Dropping the head of a suffix. */
  lemma SuffixStep(m: seq<SortableBytes>, k: nat, e: SortableBytes, r: seq<SortableBytes>)
    requires k < |m| && m[k..] == [e] + r
    ensures m[k] == e && m[k + 1..] == r
  {
    assert m[k..][1..] == m[k + 1..];
  }

  /** One step of `MergeFrom`, in the terms of `TakesLeft`. */
  lemma MergeFromTakes(x: seq<SortableBytes>, y: seq<SortableBytes>, i: nat, j: nat)
    requires i <= |x| && j <= |y| && i + j < |x| + |y|
    ensures TakesLeft(x, y, i, j, true) ==> i < |x| && MergeFrom(x, y, i, j) == [x[i]] + MergeFrom(x, y, i + 1, j)
    ensures !TakesLeft(x, y, i, j, true) ==> j < |y| && MergeFrom(x, y, i, j) == [y[j]] + MergeFrom(x, y, i, j + 1)
  {
    if i < |x| && j == |y| {
      SuffixCons(x, i);
    } else if i == |x| {
      SuffixCons(y, j);
    }
  }

  /** One step of `MergeFromRight`, in the terms of `TakesLeft`. */
  lemma MergeFromRightTakes(x: seq<SortableBytes>, y: seq<SortableBytes>, i: nat, j: nat)
    requires i <= |x| && j <= |y| && i + j < |x| + |y|
    ensures TakesLeft(x, y, i, j, false) ==> i < |x| && MergeFromRight(x, y, i, j) == [x[i]] + MergeFromRight(x, y, i + 1, j)
    ensures !TakesLeft(x, y, i, j, false) ==> j < |y| && MergeFromRight(x, y, i, j) == [y[j]] + MergeFromRight(x, y, i, j + 1)
  {
    if i < |x| && j == |y| {
      SuffixCons(x, i);
    } else if i == |x| {
      SuffixCons(y, j);
    }
  }

  /** After `n` steps of `Merge`, what is left to place is the rest of the merge. */
  lemma {:induction false} StepsFollowMerge(x: seq<SortableBytes>, y: seq<SortableBytes>, n: nat)
    requires n <= |x| + |y|
    ensures MergeFrom(x, y, Steps(x, y, n, true).left, Steps(x, y, n, true).right) == MergeLeftFirst(x, y)[n..]
    decreases n
  {
    if n == 0 {
      assert MergeLeftFirst(x, y)[0..] == MergeLeftFirst(x, y);
    } else {
      StepsFollowMerge(x, y, n - 1);
      StepsFollowMergeStep(x, y, n);
    }
  }

  lemma StepsFollowMergeStep(x: seq<SortableBytes>, y: seq<SortableBytes>, n: nat)
    requires 0 < n <= |x| + |y|
    requires MergeFrom(x, y, Steps(x, y, n - 1, true).left, Steps(x, y, n - 1, true).right) == MergeLeftFirst(x, y)[n - 1..]
    ensures MergeFrom(x, y, Steps(x, y, n, true).left, Steps(x, y, n, true).right) == MergeLeftFirst(x, y)[n..]
  {
    var s := Steps(x, y, n - 1, true);
    MergeFromTakes(x, y, s.left, s.right);
    if TakesLeft(x, y, s.left, s.right, true) {
      SuffixStep(MergeLeftFirst(x, y), n - 1, x[s.left], MergeFrom(x, y, s.left + 1, s.right));
    } else {
      SuffixStep(MergeLeftFirst(x, y), n - 1, y[s.right], MergeFrom(x, y, s.left, s.right + 1));
    }
  }

  /** Step `n` of `Merge` places entry `n` of the merge. */
  lemma OutIsMerged(x: seq<SortableBytes>, y: seq<SortableBytes>, n: nat)
    requires n < |x| + |y|
    ensures Out(x, y, n, true) == MergeLeftFirst(x, y)[n]
  {
    StepsFollowMerge(x, y, n);
    var s := Steps(x, y, n, true);
    MergeFromTakes(x, y, s.left, s.right);
    if TakesLeft(x, y, s.left, s.right, true) {
      SuffixStep(MergeLeftFirst(x, y), n, x[s.left], MergeFrom(x, y, s.left + 1, s.right));
    } else {
      SuffixStep(MergeLeftFirst(x, y), n, y[s.right], MergeFrom(x, y, s.left, s.right + 1));
    }
  }

  /** Step `n` of `Merge`, taken once `i` entries of `x` and `j` of `y` are placed: the entry
      it places and the counts after it. */
  lemma MergeStep(x: seq<SortableBytes>, y: seq<SortableBytes>, n: nat, i: nat, j: nat)
    requires n < |x| + |y| && Steps(x, y, n, true) == Taken(i, j)
    ensures TakesLeft(x, y, i, j, true) ==>
      i < |x| && MergeLeftFirst(x, y)[n] == x[i] && Steps(x, y, n + 1, true) == Taken(i + 1, j)
    ensures !TakesLeft(x, y, i, j, true) ==>
      j < |y| && MergeLeftFirst(x, y)[n] == y[j] && Steps(x, y, n + 1, true) == Taken(i, j + 1)
  {
    OutIsMerged(x, y, n);
  }

  /** Step `n` of `MergeAlreadySorted`, taken once `i` entries of `x` and `j` of `y` are placed. */
  lemma MergeStepRight(x: seq<SortableBytes>, y: seq<SortableBytes>, n: nat, i: nat, j: nat)
    requires n < |x| + |y| && Steps(x, y, n, false) == Taken(i, j)
    ensures TakesLeft(x, y, i, j, false) ==>
      i < |x| && MergeRightFirst(x, y)[n] == x[i] && Steps(x, y, n + 1, false) == Taken(i + 1, j)
    ensures !TakesLeft(x, y, i, j, false) ==>
      j < |y| && MergeRightFirst(x, y)[n] == y[j] && Steps(x, y, n + 1, false) == Taken(i, j + 1)
  {
    OutIsMergedRight(x, y, n);
  }

  /** After `n` steps of `MergeAlreadySorted`, what is left to place is the rest of the merge. */
  lemma {:induction false} StepsFollowMergeRight(x: seq<SortableBytes>, y: seq<SortableBytes>, n: nat)
    requires n <= |x| + |y|
    ensures MergeFromRight(x, y, Steps(x, y, n, false).left, Steps(x, y, n, false).right) == MergeRightFirst(x, y)[n..]
    decreases n
  {
    if n == 0 {
      assert MergeRightFirst(x, y)[0..] == MergeRightFirst(x, y);
    } else {
      StepsFollowMergeRight(x, y, n - 1);
      StepsFollowMergeRightStep(x, y, n);
    }
  }

  lemma StepsFollowMergeRightStep(x: seq<SortableBytes>, y: seq<SortableBytes>, n: nat)
    requires 0 < n <= |x| + |y|
    requires MergeFromRight(x, y, Steps(x, y, n - 1, false).left, Steps(x, y, n - 1, false).right) == MergeRightFirst(x, y)[n - 1..]
    ensures MergeFromRight(x, y, Steps(x, y, n, false).left, Steps(x, y, n, false).right) == MergeRightFirst(x, y)[n..]
  {
    var s := Steps(x, y, n - 1, false);
    MergeFromRightTakes(x, y, s.left, s.right);
    if TakesLeft(x, y, s.left, s.right, false) {
      SuffixStep(MergeRightFirst(x, y), n - 1, x[s.left], MergeFromRight(x, y, s.left + 1, s.right));
    } else {
      SuffixStep(MergeRightFirst(x, y), n - 1, y[s.right], MergeFromRight(x, y, s.left, s.right + 1));
    }
  }

  /** Step `n` of `MergeAlreadySorted` places entry `n` of the merge. */
  lemma OutIsMergedRight(x: seq<SortableBytes>, y: seq<SortableBytes>, n: nat)
    requires n < |x| + |y|
    ensures Out(x, y, n, false) == MergeRightFirst(x, y)[n]
  {
    StepsFollowMergeRight(x, y, n);
    var s := Steps(x, y, n, false);
    MergeFromRightTakes(x, y, s.left, s.right);
    if TakesLeft(x, y, s.left, s.right, false) {
      SuffixStep(MergeRightFirst(x, y), n, x[s.left], MergeFromRight(x, y, s.left + 1, s.right));
    } else {
      SuffixStep(MergeRightFirst(x, y), n, y[s.right], MergeFromRight(x, y, s.left, s.right + 1));
    }
  }

  // ---------------------------------------------------------------- the methods

  /** The array after `Merge(bytes, lo, md, hi)`: the runs `lo..md-1` and `md..hi` merged in
      place, everything else as before. */
  function MergeSegment(a: seq<SortableBytes>, lo: nat, md: nat, hi: nat): seq<SortableBytes>
    requires lo <= md <= hi + 1 <= |a|
  {
    a[..lo] + MergeLeftFirst(a[lo..md], a[md..hi + 1]) + a[hi + 1..]
  }

  /** The array after `MergeSort(bytes, left, right)`: the segment sorted, the rest as before. */
  function SortSegment(a: seq<SortableBytes>, left: nat, right: int): seq<SortableBytes>
    requires left <= right + 1 <= |a|
  {
    a[..left] + MergeSortOf(a, left, right) + a[right + 1..]
  }

  /** Replacing `a[lo..hi-1]` by `m` of the same length leaves both sides alone. */
  lemma SpliceParts<T>(a: seq<T>, lo: nat, hi: nat, m: seq<T>)
    requires lo <= hi <= |a| && |m| == hi - lo
    ensures |a[..lo] + m + a[hi..]| == |a|
    ensures (a[..lo] + m + a[hi..])[..lo] == a[..lo]
    ensures (a[..lo] + m + a[hi..])[lo..hi] == m
    ensures (a[..lo] + m + a[hi..])[hi..] == a[hi..]
  {
  }

  /** A slice of a slice is a slice. */
  lemma SliceOfSlice<T>(a: seq<T>, i: nat, j: nat, k: nat, l: nat)
    requires i <= j <= |a| && k <= l <= j - i
    ensures a[i..j][k..l] == a[i + k..i + l]
  {
    var x, y := a[i..j][k..l], a[i + k..i + l];
    forall t | 0 <= t < |x| ensures x[t] == y[t] {
      assert x[t] == a[i..j][k + t];
    }
  }

  /** Writing `l` over `a[left..mid]` and then `r` over `a[mid+1..right]` leaves each part
      where it belongs. */
  lemma SpliceTwice<T>(a: seq<T>, left: nat, mid: nat, right: nat, l: seq<T>, r: seq<T>)
    requires left <= mid < right < |a| && |l| == mid + 1 - left && |r| == right - mid
    ensures var a1 := a[..left] + l + a[mid + 1..];
      a1[mid + 1..right + 1] == a[mid + 1..right + 1]
    ensures var a1 := a[..left] + l + a[mid + 1..];
      var a2 := a1[..mid + 1] + r + a1[right + 1..];
      a2[..left] == a[..left] && a2[left..mid + 1] == l && a2[mid + 1..right + 1] == r
      && a2[right + 1..] == a[right + 1..]
  {
    var a1 := a[..left] + l + a[mid + 1..];
    SpliceParts(a, left, mid + 1, l);
    SliceOfSlice(a1, mid + 1, |a1|, 0, right - mid);
    SliceOfSlice(a, mid + 1, |a|, 0, right - mid);
    assert a1[mid + 1..right + 1] == a[mid + 1..right + 1];
    SliceOfSlice(a1, mid + 1, |a1|, right - mid, |a1| - mid - 1);
    SliceOfSlice(a, mid + 1, |a|, right - mid, |a| - mid - 1);
    assert a1[right + 1..] == a[right + 1..];
    var a2 := a1[..mid + 1] + r + a1[right + 1..];
    SpliceParts(a1, mid + 1, right + 1, r);
    SliceOfSlice(a2, 0, mid + 1, 0, left);
    SliceOfSlice(a1, 0, mid + 1, 0, left);
    assert a2[..left] == a[..left];
    SliceOfSlice(a2, 0, mid + 1, left, mid + 1);
    SliceOfSlice(a1, 0, mid + 1, left, mid + 1);
    assert a2[left..mid + 1] == l;
  }

  /** `MergeSort` leaves a segment of at most one entry alone. */
  lemma SortSegmentShort(a: seq<SortableBytes>, left: nat, right: int)
    requires left <= right + 1 <= |a| && right <= left
    ensures SortSegment(a, left, right) == a
  {
    assert a[..left] + a[left..right + 1] + a[right + 1..] == a;
  }

  /** Sorting both halves of a segment and merging them sorts the segment. */
  lemma SortSegmentSplits(a: seq<SortableBytes>, left: nat, mid: nat, right: nat)
    requires left <= mid < right < |a| && mid == Middle(left, right)
    ensures MergeSegment(SortSegment(SortSegment(a, left, mid), mid + 1, right), left, mid + 1, right)
      == SortSegment(a, left, right)
  {
    var l, r := MergeSortOf(a, left, mid), MergeSortOf(a, mid + 1, right);
    var a1 := a[..left] + l + a[mid + 1..];
    assert a1 == SortSegment(a, left, mid);
    SpliceTwice(a, left, mid, right, l, r);
    var a2 := a1[..mid + 1] + r + a1[right + 1..];
    assert a2 == SortSegment(a1, mid + 1, right) by {
      assert forall k :: mid + 1 <= k <= right ==> a1[k] == a[k] by {
        assert a1[mid + 1..right + 1] == a[mid + 1..right + 1];
      }
      MergeSortOfFrame(a1, a, mid + 1, right);
    }
    calc {
      MergeSegment(a2, left, mid + 1, right);
      a2[..left] + MergeLeftFirst(a2[left..mid + 1], a2[mid + 1..right + 1]) + a2[right + 1..];
      a[..left] + MergeLeftFirst(l, r) + a[right + 1..];
      SortSegment(a, left, right);
    }
  }

  /** The first `n` entries of the merge `m` sit in `t` from index `lo` on. */
  ghost predicate Placed(t: seq<SortableBytes>, lo: nat, m: seq<SortableBytes>, n: nat)
  {
    n <= |m| && lo + n <= |t| && forall k :: 0 <= k < n ==> t[lo + k] == m[k]
  }

  lemma PlacedNext(t: seq<SortableBytes>, lo: nat, m: seq<SortableBytes>, n: nat, e: SortableBytes)
    requires Placed(t, lo, m, n) && n < |m| && lo + n < |t| && m[n] == e
    ensures Placed(t[lo + n := e], lo, m, n + 1)
  {
  }

  /** One step of `Merge` that takes `e` from the left run (`fromLeft`) or the right one. */
  lemma PlaceStep(xs: seq<SortableBytes>, ys: seq<SortableBytes>, merged: seq<SortableBytes>,
                  t: seq<SortableBytes>, lo: nat, n: nat, i: nat, j: nat, fromLeft: bool, e: SortableBytes)
    requires merged == MergeLeftFirst(xs, ys) && n < |xs| + |ys| && lo + n < |t|
    requires Steps(xs, ys, n, true) == Taken(i, j) && Placed(t, lo, merged, n)
    requires TakesLeft(xs, ys, i, j, true) == fromLeft
    requires if fromLeft then i < |xs| && e == xs[i] else j < |ys| && e == ys[j]
    ensures Steps(xs, ys, n + 1, true) == (if fromLeft then Taken(i + 1, j) else Taken(i, j + 1))
    ensures Placed(t[lo + n := e], lo, merged, n + 1)
  {
    MergeStep(xs, ys, n, i, j);
    PlacedNext(t, lo, merged, n, e);
  }

  /** How far the merging loops of `Merge` have got: `i` entries of the left run and `j` of
      the right run are placed in `t` from index `lo` on, as the merge places them. */
  ghost predicate Progress(xs: seq<SortableBytes>, ys: seq<SortableBytes>, merged: seq<SortableBytes>,
                           t: seq<SortableBytes>, lo: nat, i: nat, j: nat)
  {
    && i <= |xs| && j <= |ys|
    && Steps(xs, ys, i + j, true) == Taken(i, j)
    && Placed(t, lo, merged, i + j)
  }

  /** A step of the first loop of `Merge`, where both runs still have entries: it places
      `l`, the head of the left run, unless `r`, the head of the right run, has a smaller tick. */
  lemma PlaceBoth(xs: seq<SortableBytes>, ys: seq<SortableBytes>, merged: seq<SortableBytes>,
                  t: seq<SortableBytes>, lo: nat, i: nat, j: nat, l: SortableBytes, r: SortableBytes)
    requires merged == MergeLeftFirst(xs, ys) && Progress(xs, ys, merged, t, lo, i, j)
    requires i < |xs| && j < |ys| && lo + i + j < |t| && xs[i] == l && ys[j] == r
    ensures l.position <= r.position ==> Progress(xs, ys, merged, t[lo + i + j := l], lo, i + 1, j)
    ensures r.position < l.position ==> Progress(xs, ys, merged, t[lo + i + j := r], lo, i, j + 1)
  {
    if l.position <= r.position {
      PlaceStep(xs, ys, merged, t, lo, i + j, i, j, true, l);
    } else {
      PlaceStep(xs, ys, merged, t, lo, i + j, i, j, false, r);
    }
  }

  /** A step of the second loop of `Merge`: the right run is used up. */
  lemma PlaceLeft(xs: seq<SortableBytes>, ys: seq<SortableBytes>, merged: seq<SortableBytes>,
                  t: seq<SortableBytes>, lo: nat, i: nat, j: nat, l: SortableBytes)
    requires merged == MergeLeftFirst(xs, ys) && Progress(xs, ys, merged, t, lo, i, j)
    requires i < |xs| && j == |ys| && lo + i + j < |t| && xs[i] == l
    ensures Progress(xs, ys, merged, t[lo + i + j := l], lo, i + 1, j)
  {
    PlaceStep(xs, ys, merged, t, lo, i + j, i, j, true, l);
  }

  /** A step of the third loop of `Merge`: the left run is used up. */
  lemma PlaceRight(xs: seq<SortableBytes>, ys: seq<SortableBytes>, merged: seq<SortableBytes>,
                   t: seq<SortableBytes>, lo: nat, i: nat, j: nat, r: SortableBytes)
    requires merged == MergeLeftFirst(xs, ys) && Progress(xs, ys, merged, t, lo, i, j)
    requires i == |xs| && j < |ys| && lo + i + j < |t| && ys[j] == r
    ensures Progress(xs, ys, merged, t[lo + i + j := r], lo, i, j + 1)
  {
    PlaceStep(xs, ys, merged, t, lo, i + j, i, j, false, r);
  }

  /** The same for `MergeAlreadySorted`, which fills its result from index 0. */
  lemma PlaceStepRight(xs: seq<SortableBytes>, ys: seq<SortableBytes>, ms: seq<SortableBytes>,
                       t: seq<SortableBytes>, n: nat, i: nat, j: nat, fromLeft: bool, e: SortableBytes)
    requires ms == MergeRightFirst(xs, ys) && n < |xs| + |ys| && n < |t|
    requires Steps(xs, ys, n, false) == Taken(i, j) && Placed(t, 0, ms, n)
    requires TakesLeft(xs, ys, i, j, false) == fromLeft
    requires if fromLeft then i < |xs| && e == xs[i] else j < |ys| && e == ys[j]
    ensures Steps(xs, ys, n + 1, false) == (if fromLeft then Taken(i + 1, j) else Taken(i, j + 1))
    ensures Placed(t[n := e], 0, ms, n + 1)
  {
    MergeStepRight(xs, ys, n, i, j);
    PlacedNext(t, 0, ms, n, e);
  }

  lemma PlacedAll(t: seq<SortableBytes>, lo: nat, m: seq<SortableBytes>)
    requires Placed(t, lo, m, |m|)
    ensures t[lo..lo + |m|] == m
  {
  }

  /** The three merging loops of `Merge`: writes the merge of the runs `lo..md-1` and
      `md..hi` of `bytes` into the scratch array `temp` at the same indices. The source's
      `eol` is `md - 1` and its `right` is `hi` here. */
  method MergeIntoTemp(bytes: array<SortableBytes>, temp: array<SortableBytes>, lo: nat, md: nat, hi: nat)
    requires lo < md <= hi < bytes.Length == temp.Length && temp != bytes
    modifies temp
    ensures temp[lo..hi + 1] == MergeLeftFirst(bytes[lo..md], bytes[md..hi + 1])
  {
    ghost var xs, ys := bytes[lo..md], bytes[md..hi + 1];
    ghost var merged := MergeLeftFirst(xs, ys);
    var left, mid, pos := lo, md, lo;
    ghost var i, j := 0, 0;
    left, mid, pos, i, j := MergeBoth(bytes, temp, lo, md, hi, xs, ys, merged, left, mid, pos, i, j);
    left, pos, i := DrainLeft(bytes, temp, lo, md, hi, xs, ys, merged, left, mid, pos, i, j);
    mid, pos, j := DrainRight(bytes, temp, lo, md, hi, xs, ys, merged, left, mid, pos, i, j);
    PlacedAll(temp[..], lo, merged);
  }

  /** The first loop of `Merge`: while both runs have entries, places the one with the
      smaller tick, the left one on a tie. `i` and `j` count the entries placed from each run. */
  method MergeBoth(bytes: array<SortableBytes>, temp: array<SortableBytes>, lo: nat, md: nat, hi: nat,
      ghost xs: seq<SortableBytes>, ghost ys: seq<SortableBytes>, ghost merged: seq<SortableBytes>,
      left0: nat, mid0: nat, pos0: nat, ghost i0: nat, ghost j0: nat)
    returns (left: nat, mid: nat, pos: nat, ghost i: nat, ghost j: nat)
    requires lo < md <= hi < bytes.Length == temp.Length && temp != bytes
    requires |xs| == md - lo && |ys| == hi + 1 - md && merged == MergeLeftFirst(xs, ys)
    requires forall k :: 0 <= k < |xs| ==> xs[k] == bytes[lo + k]
    requires forall k :: 0 <= k < |ys| ==> ys[k] == bytes[md + k]
    requires left0 == lo + i0 && mid0 == md + j0 && pos0 == lo + i0 + j0
    requires Progress(xs, ys, merged, temp[..], lo, i0, j0)
    modifies temp
    ensures left == lo + i && mid == md + j && pos == lo + i + j
    ensures Progress(xs, ys, merged, temp[..], lo, i, j)
    ensures i == |xs| || j == |ys|
  {
    left, mid, pos, i, j := left0, mid0, pos0, i0, j0;
    while left <= md - 1 && mid <= hi
      invariant left == lo + i && mid == md + j && pos == lo + i + j
      invariant Progress(xs, ys, merged, temp[..], lo, i, j)
    {
      PlaceBoth(xs, ys, merged, temp[..], lo, i, j, bytes[left], bytes[mid]);
      if bytes[left].position <= bytes[mid].position {
        temp[pos] := bytes[left];
        left, i := left + 1, i + 1;
      } else {
        temp[pos] := bytes[mid];
        mid, j := mid + 1, j + 1;
      }
      pos := pos + 1;
    }
  }

  /** The second loop of `Merge`: places what is left of the left run. */
  method DrainLeft(bytes: array<SortableBytes>, temp: array<SortableBytes>, lo: nat, md: nat, hi: nat,
      ghost xs: seq<SortableBytes>, ghost ys: seq<SortableBytes>, ghost merged: seq<SortableBytes>,
      left0: nat, mid: nat, pos0: nat, ghost i0: nat, ghost j: nat)
    returns (left: nat, pos: nat, ghost i: nat)
    requires lo < md <= hi < bytes.Length == temp.Length && temp != bytes
    requires |xs| == md - lo && |ys| == hi + 1 - md && merged == MergeLeftFirst(xs, ys)
    requires forall k :: 0 <= k < |xs| ==> xs[k] == bytes[lo + k]
    requires left0 == lo + i0 && mid == md + j && pos0 == lo + i0 + j
    requires Progress(xs, ys, merged, temp[..], lo, i0, j)
    requires i0 == |xs| || j == |ys|
    modifies temp
    ensures left == lo + i && pos == lo + i + j
    ensures Progress(xs, ys, merged, temp[..], lo, i, j)
    ensures i == |xs|
  {
    left, pos, i := left0, pos0, i0;
    while left <= md - 1
      invariant left == lo + i && pos == lo + i + j
      invariant Progress(xs, ys, merged, temp[..], lo, i, j)
      invariant i < |xs| ==> j == |ys|
    {
      PlaceLeft(xs, ys, merged, temp[..], lo, i, j, bytes[left]);
      temp[pos] := bytes[left];
      left, i := left + 1, i + 1;
      pos := pos + 1;
    }
  }

  /** The third loop of `Merge`: places what is left of the right run. */
  method DrainRight(bytes: array<SortableBytes>, temp: array<SortableBytes>, lo: nat, md: nat, hi: nat,
      ghost xs: seq<SortableBytes>, ghost ys: seq<SortableBytes>, ghost merged: seq<SortableBytes>,
      left: nat, mid0: nat, pos0: nat, ghost i: nat, ghost j0: nat)
    returns (mid: nat, pos: nat, ghost j: nat)
    requires lo < md <= hi < bytes.Length == temp.Length && temp != bytes
    requires |xs| == md - lo && |ys| == hi + 1 - md && merged == MergeLeftFirst(xs, ys)
    requires forall k :: 0 <= k < |ys| ==> ys[k] == bytes[md + k]
    requires left == lo + i && mid0 == md + j0 && pos0 == lo + i + j0
    requires Progress(xs, ys, merged, temp[..], lo, i, j0)
    requires i == |xs|
    modifies temp
    ensures Placed(temp[..], lo, merged, |merged|)
  {
    mid, pos, j := mid0, pos0, j0;
    while mid <= hi
      invariant mid == md + j && pos == lo + i + j
      invariant Progress(xs, ys, merged, temp[..], lo, i, j)
    {
      PlaceRight(xs, ys, merged, temp[..], lo, i, j, bytes[mid]);
      temp[pos] := bytes[mid];
      mid, j := mid + 1, j + 1;
      pos := pos + 1;
    }
  }

  /** `Merge(bytes, left, mid, right)`: merges the sorted runs `left..mid-1` and `mid..right`
      through a scratch array, then copies them back from `right` downwards. */
  method Merge(bytes: array<SortableBytes>, lo: nat, md: nat, hi: nat)
    requires lo < md <= hi < bytes.Length
    modifies bytes
    ensures bytes[..] == MergeSegment(old(bytes[..]), lo, md, hi)
  {
    var temp := new SortableBytes[bytes.Length](_ => EMPTY);
    MergeIntoTemp(bytes, temp, lo, md, hi);
    var right := hi;
    var num := hi - lo + 1;
    var i := 0;
    while i < num
      modifies bytes
      invariant 0 <= i <= num && right == hi - i
      invariant forall k :: 0 <= k < bytes.Length ==>
        bytes[k] == if right < k <= hi then temp[k] else old(bytes[k])
      decreases num - i
    {
      bytes[right] := temp[right];
      right := right - 1;
      i := i + 1;
    }
    ghost var merged := MergeLeftFirst(old(bytes[lo..md]), old(bytes[md..hi + 1]));
    assert forall k :: lo <= k <= hi ==> bytes[k] == merged[k - lo];
    assert bytes[..] == MergeSegment(old(bytes[..]), lo, md, hi);
  }

  /** `MergeSort(bytes, left, right)`: sorts the segment `left..right` in place. */
  method MergeSort(bytes: array<SortableBytes>, left: int, right: int)
    requires 0 <= left <= right + 1 <= bytes.Length
    modifies bytes
    ensures bytes[..] == SortSegment(old(bytes[..]), left, right)
    decreases right - left
  {
    ghost var a := bytes[..];
    if right > left {
      var mid := (right + left) / 2;
      MiddleIsHalf(left, right);
      MergeSort(bytes, left, mid);
      ghost var a1 := bytes[..];
      MergeSort(bytes, mid + 1, right);
      ghost var a2 := bytes[..];
      Merge(bytes, left, mid + 1, right);
      assert bytes[..] == MergeSegment(a2, left, mid + 1, right);
      assert a2 == SortSegment(a1, mid + 1, right) && a1 == SortSegment(a, left, mid);
      SortSegmentSplits(a, left, mid, right);
    } else {
      SortSegmentShort(a, left, right);
    }
  }

  /** `Sort`: sorts the whole array by tick, stably. */
  method Sort(bytes: array<SortableBytes>)
    modifies bytes
    ensures bytes[..] == SortOf(old(bytes[..]))
    ensures Sorted(bytes[..]) && multiset(bytes[..]) == multiset(old(bytes[..]))
    ensures forall p: uint32 :: AtTick(bytes[..], p) == AtTick(old(bytes[..]), p)
  {
    ghost var a := bytes[..];
    MergeSort(bytes, 0, bytes.Length - 1);
    assert SortSegment(a, 0, |a| - 1) == SortOf(a) by {
      assert a[..0] == [] && a[|a|..] == [];
    }
    ghost var sorted := bytes[..];
    assert sorted == SortOf(a);
    SortOfCorrect(a);
  }

  /** `MergeAlreadySorted(a, b)`: a fresh array holding both inputs merged, ties to `b`. */
  method MergeAlreadySorted(a: array<SortableBytes>, b: array<SortableBytes>) returns (merged: array<SortableBytes>)
    ensures fresh(merged)
    ensures merged[..] == MergeRightFirst(a[..], b[..])
  {
    merged := new SortableBytes[a.Length + b.Length](_ => EMPTY);
    ghost var xs, ys := a[..], b[..];
    ghost var ms := MergeRightFirst(xs, ys);
    var i, j := 0, 0;
    for k := 0 to merged.Length
      invariant i + j == k
      invariant Steps(xs, ys, k, false) == Taken(i, j)
      invariant Placed(merged[..], 0, ms, k)
    {
      ghost var t := merged[..];
      var selected;
      if i >= a.Length {
        PlaceStepRight(xs, ys, ms, t, k, i, j, false, b[j]);
        selected := b[j];
        j := j + 1;
      } else if j >= b.Length {
        PlaceStepRight(xs, ys, ms, t, k, i, j, true, a[i]);
        selected := a[i];
        i := i + 1;
      } else if a[i].position < b[j].position {
        PlaceStepRight(xs, ys, ms, t, k, i, j, true, a[i]);
        selected := a[i];
        i := i + 1;
      } else {
        PlaceStepRight(xs, ys, ms, t, k, i, j, false, b[j]);
        selected := b[j];
        j := j + 1;
      }
      merged[k] := selected;
    }
    PlacedAll(merged[..], 0, ms);
  }
}
