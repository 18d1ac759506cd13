/** The song objects the codec reads and writes, and the list helpers it calls on them.
    `TimeSignature`, `Section`, `Event`, `ChartEvent`, `Starpower`, `Chart` and `SongObjectHelper`
    are not part of this model's source: the definitions below give them the behaviour the
    reader and the writer rely on, and README lists these as taken on trust. */
module SongObjects {
  import opened Wrappers
  import opened Text
  import opened Notes
  import opened Tempo

  /** A time signature: `numerator` beats of a `denominator` note (4 for 4/4). */
  datatype TimeSignature = TimeSignature(position: uint32, numerator: uint32, denominator: uint32)

  /** `new TimeSignature()`: 4/4 at tick 0. */
  const DEFAULT_TIME_SIGNATURE: TimeSignature := TimeSignature(0, 4, 4)

  /** An entry of a song's sync track. */
  datatype SyncObject = BpmObject(bpm: Bpm) | TimeSignatureObject(ts: TimeSignature)
  {
    function Position(): uint32
    {
      match this
      case BpmObject(b) => b.position
      case TimeSignatureObject(t) => t.position
    }
  }

  /** An entry of a song's event list: a plain event, or a section (a subclass of `Event`). */
  datatype GlobalEvent = Event(position: uint32, title: string) | Section(position: uint32, title: string)

  /** An entry of a chart's object list. */
  datatype ChartObject =
    | NoteObject(note: Note)
    | Starpower(position: uint32, length: uint32)
    | ChartEvent(position: uint32, eventName: string)
  {
    function Position(): uint32
    {
      match this
      case NoteObject(n) => n.position
      case Starpower(p, _) => p
      case ChartEvent(p, _) => p
    }
  }

  // ---------------------------------------------------------------- ordering

  /** The order lists of song objects are kept in: tick, then the class order of
      `SongObject.ID`, then (for notes) the raw fret value, as `Note.LessThan` orders notes. */
  datatype Key = Key(position: int, rank: int, sub: int)

  predicate KeyLess(a: Key, b: Key)
  {
    a.position < b.position
    || (a.position == b.position && a.rank < b.rank)
    || (a.position == b.position && a.rank == b.rank && a.sub < b.sub)
  }

  predicate KeyLe(a: Key, b: Key)
  {
    !KeyLess(b, a)
  }

  /** The `SongObject.ID` order: TimeSignature, BPM, Event, Section, Note, Starpower, ChartEvent. */
  const RANK_TIME_SIGNATURE: int := 0
  const RANK_BPM: int := 1
  const RANK_EVENT: int := 2
  const RANK_SECTION: int := 3
  const RANK_NOTE: int := 4
  const RANK_STARPOWER: int := 5
  const RANK_CHART_EVENT: int := 6

  function SyncKey(o: SyncObject): Key
  {
    match o
    case BpmObject(b) => Key(b.position, RANK_BPM, 0)
    case TimeSignatureObject(t) => Key(t.position, RANK_TIME_SIGNATURE, 0)
  }

  function EventKey(e: GlobalEvent): Key
  {
    match e
    case Event(p, _) => Key(p, RANK_EVENT, 0)
    case Section(p, _) => Key(p, RANK_SECTION, 0)
  }

  function ChartKey(o: ChartObject): Key
  {
    match o
    case NoteObject(n) => Key(n.position, RANK_NOTE, n.rawNote)
    case Starpower(p, _) => Key(p, RANK_STARPOWER, 0)
    case ChartEvent(p, _) => Key(p, RANK_CHART_EVENT, 0)
  }

  /** `==` on sync objects: same class at the same tick. */
  predicate SameSync(a: SyncObject, b: SyncObject)
  {
    SyncKey(a) == SyncKey(b)
  }

  /** `==` on events and sections: same class, tick and title. */
  predicate SameEvent(a: GlobalEvent, b: GlobalEvent)
  {
    a == b
  }

  /** `==` on chart objects: notes by `Note.Equals`, starpower by tick, events by tick and name. */
  predicate SameChartObject(a: ChartObject, b: ChartObject)
  {
    ChartKey(a) == ChartKey(b) && (a.ChartEvent? ==> a == b)
  }

  predicate Sorted<T>(s: seq<T>, key: T -> Key)
  {
    forall i, j :: 0 <= i < j < |s| ==> KeyLe(key(s[i]), key(s[j]))
  }

  // ---------------------------------------------------------------- SongObjectHelper

  /** The index of the first object that sorts after `x` (or the length of the list). */
  function InsertionPoint<T>(s: seq<T>, x: T, key: T -> Key): (p: nat)
    ensures p <= |s|
    ensures forall k :: 0 <= k < p ==> KeyLe(key(s[k]), key(x))
    ensures p < |s| ==> KeyLess(key(x), key(s[p]))
    decreases |s|
  {
    if |s| == 0 || KeyLess(key(x), key(s[0])) then 0
    else 1 + InsertionPoint(s[1..], x, key)
  }

  /** `SongObjectHelper.Insert`: the object goes after every object that does not sort after it;
      when the object just before that point equals it, that object is overwritten instead.
      Sortedness is kept, nothing but `x` is added and nothing but an equal object is lost. */
  function Insert<T(==)>(s: seq<T>, x: T, key: T -> Key, same: (T, T) -> bool): (r: seq<T>)
    ensures Sorted(s, key) ==> Sorted(r, key)
    ensures x in r
    ensures forall y :: y in r ==> y in s || y == x
    ensures forall y :: y in s ==> y in r || same(y, x)
    ensures |r| == |s| || |r| == |s| + 1
  {
    var p := InsertionPoint(s, x, key);
    if p > 0 && same(s[p - 1], x) then
      var r := s[p - 1 := x];
      assert r[p - 1] == x;
      assert forall y :: y in s && y != s[p - 1] ==> y in r by {
        forall y | y in s && y != s[p - 1] ensures y in r {
          var k :| 0 <= k < |s| && s[k] == y;
          assert r[k] == y;
        }
      }
      r
    else
      var r := s[..p] + [x] + s[p..];
      assert forall y :: y in s ==> y in r by {
        forall y | y in s ensures y in r {
          var k :| 0 <= k < |s| && s[k] == y;
          if k < p { assert r[k] == y; } else { assert r[k + 1] == y; }
        }
      }
      r
  }

  /** Appending in order: an object that sorts last and equals no last object is appended. */
  lemma InsertAtEnd<T>(s: seq<T>, x: T, key: T -> Key, same: (T, T) -> bool)
    requires Sorted(s, key)
    requires |s| == 0 || (KeyLe(key(s[|s| - 1]), key(x)) && !same(s[|s| - 1], x))
    ensures Insert(s, x, key, same) == s + [x]
  {
    var p := InsertionPoint(s, x, key);
    assert p == |s|;
    assert s[..p] == s && s[p..] == [];
  }

  /** Inserting into an empty list. */
  lemma InsertIntoEmpty<T>(x: T, key: T -> Key, same: (T, T) -> bool)
    ensures Insert([], x, key, same) == [x]
  {
    assert InsertionPoint([], x, key) == 0;
  }

  /** An object that sorts before the first one goes in front. */
  lemma InsertAtFront<T>(s: seq<T>, x: T, key: T -> Key, same: (T, T) -> bool)
    requires |s| > 0 && KeyLess(key(x), key(s[0]))
    ensures Insert(s, x, key, same) == [x] + s
  {
    assert InsertionPoint(s, x, key) == 0;
    assert s[..0] == [] && s[0..] == s;
  }

  /** `SongObjectHelper.Remove`: removes the first object equal to `x` and reports whether there
      was one. */
  function Remove<T(==)>(s: seq<T>, x: T, same: (T, T) -> bool): (r: (seq<T>, bool))
    ensures r.1 <==> exists k :: 0 <= k < |s| && same(s[k], x)
    ensures !r.1 ==> r.0 == s
    ensures r.1 ==> exists k :: 0 <= k < |s| && same(s[k], x) && r.0 == s[..k] + s[k + 1..] &&
                               (forall j :: 0 <= j < k ==> !same(s[j], x))
  {
    var k := FirstSame(s, x, same);
    if k < |s| then (s[..k] + s[k + 1..], true) else (s, false)
  }

  /** The index of the first object the same as `x`, or `|s|` when there is none. */
  function FirstSame<T>(s: seq<T>, x: T, same: (T, T) -> bool): (k: nat)
    ensures k <= |s|
    ensures k < |s| ==> same(s[k], x)
    ensures forall j :: 0 <= j < k ==> !same(s[j], x)
    decreases |s|
  {
    if |s| == 0 then 0
    else if same(s[0], x) then 0
    else
      var k := FirstSame(s[1..], x, same);
      assert forall j :: 1 <= j < k + 1 ==> s[j] == s[1..][j - 1];
      k + 1
  }

  /** Removing an object keeps a sorted list sorted. */
  lemma RemoveKeepsSorted<T>(s: seq<T>, x: T, key: T -> Key, same: (T, T) -> bool)
    requires Sorted(s, key)
    ensures Sorted(Remove(s, x, same).0, key)
  {
    var (r, found) := Remove(s, x, same);
    if found {
      var k :| 0 <= k < |s| && same(s[k], x) && r == s[..k] + s[k + 1..];
      forall i, j | 0 <= i < j < |r|
        ensures KeyLe(key(r[i]), key(r[j]))
      {
        var i' := if i < k then i else i + 1;
        var j' := if j < k then j else j + 1;
        assert r[i] == s[i'] && r[j] == s[j'];
      }
    }
  }

  /** `SongObjectHelper.FindObjectsAtPosition` over a chart's notes, as indices: exactly the
      notes at tick `p`, in order. */
  function FindObjectsAtPosition(p: uint32, notes: seq<Note>): (r: seq<nat>)
    ensures forall k: nat :: k in r <==> k < |notes| && notes[k].position == p
  {
    AtPositionFrom(p, notes, 0)
  }

  function AtPositionFrom(p: uint32, notes: seq<Note>, k: nat): (r: seq<nat>)
    ensures forall j: nat :: j in r <==> k <= j < |notes| && notes[j].position == p
    decreases |notes| - k
  {
    if k >= |notes| then []
    else if notes[k].position == p then [k] + AtPositionFrom(p, notes, k + 1)
    else AtPositionFrom(p, notes, k + 1)
  }

  /** `SongObjectHelper.GetRange` over a chart's notes: the run of notes whose tick lies in
      `[lo, hi]`, as a start index and a length. */
  function GetRange(notes: seq<Note>, lo: int, hi: int): (r: (nat, nat))
    ensures r.0 + r.1 <= |notes|
    ensures SortedByPosition(notes) ==>
      forall k :: 0 <= k < |notes| ==> (r.0 <= k < r.0 + r.1 <==> lo <= notes[k].position <= hi)
  {
    var index := FirstAtOrAfter(notes, lo, 0);
    var length := CountUpTo(notes, hi, index);
    (index, length)
  }

  /** The first index from `k` on whose tick is at least `lo`. */
  function FirstAtOrAfter(notes: seq<Note>, lo: int, k: nat): (r: nat)
    requires k <= |notes|
    ensures k <= r <= |notes|
    ensures forall j :: k <= j < r ==> notes[j].position < lo
    ensures r < |notes| ==> notes[r].position >= lo
    decreases |notes| - k
  {
    if k == |notes| || notes[k].position >= lo then k else FirstAtOrAfter(notes, lo, k + 1)
  }

  /** How many notes from `k` on have ticks at most `hi`, counting until the first that does not. */
  function CountUpTo(notes: seq<Note>, hi: int, k: nat): (n: nat)
    requires k <= |notes|
    ensures k + n <= |notes|
    ensures forall j :: k <= j < k + n ==> notes[j].position <= hi
    ensures k + n < |notes| ==> notes[k + n].position > hi
    decreases |notes| - k
  {
    if k == |notes| || notes[k].position > hi then 0 else 1 + CountUpTo(notes, hi, k + 1)
  }

  /** `SongObjectHelper.FindClosestPosition`: the index of an object whose tick is nearest to
      `p` (NOTFOUND, here `None`, on an empty list); an object at exactly `p` is found when
      there is one. */
  function FindClosestPosition(p: uint32, positions: seq<uint32>): (r: Option<nat>)
    ensures r.None? <==> |positions| == 0
    ensures r.Some? ==> r.value < |positions|
    ensures r.Some? ==> forall j :: 0 <= j < |positions| ==>
      Distance(positions[r.value], p) <= Distance(positions[j], p)
    decreases |positions|
  {
    if |positions| == 0 then None
    else
      match FindClosestPosition(p, positions[1..])
      case None => Some(0)
      case Some(k) =>
        if Distance(positions[0], p) <= Distance(positions[k + 1], p) then Some(0) else Some(k + 1)
  }

  function Distance(a: int, b: int): nat
  {
    if a <= b then b - a else a - b
  }

  /** The nearest object is at `p` exactly when some object is. */
  lemma ClosestIsExact(p: uint32, positions: seq<uint32>)
    requires |positions| > 0
    ensures positions[FindClosestPosition(p, positions).value] == p
        <==> exists j :: 0 <= j < |positions| && positions[j] == p
  {
    var k := FindClosestPosition(p, positions).value;
    if j :| 0 <= j < |positions| && positions[j] == p {
      assert Distance(positions[k], p) <= Distance(positions[j], p) == 0;
    }
  }

  // ---------------------------------------------------------------- Chart

  /** A chart: its name, the game mode its notes are read in, and its object list. */
  datatype Chart = Chart(name: string, gameMode: GameMode, objects: seq<ChartObject>)

  /** `Chart.Add(obj, false)`: inserts into the object list. */
  function ChartAdd(c: Chart, o: ChartObject): Chart
  {
    c.(objects := Insert(c.objects, o, ChartKey, SameChartObject))
  }

  /** `Chart.Clear()`. */
  function ChartClear(c: Chart): Chart
  {
    c.(objects := [])
  }

  /** The `notes` cache `Chart.UpdateCache` rebuilds: the notes of the object list, in order. */
  function NotesOf(objects: seq<ChartObject>): (r: seq<Note>)
    ensures |r| <= |objects|
    ensures forall n :: n in r <==> NoteObject(n) in objects
    decreases |objects|
  {
    if |objects| == 0 then []
    else
      var rest := NotesOf(objects[1..]);
      assert forall o :: o in objects <==> o == objects[0] || o in objects[1..];
      match objects[0]
      case NoteObject(n) => [n] + rest
      case _ => rest
  }

  function NotesOfChart(c: Chart): seq<Note>
  {
    NotesOf(c.objects)
  }

  /** The object list with its notes replaced, in order, by `ns`: in C# the `notes` cache and the
      object list share the note objects, so changing a cached note changes the list. */
  function WithNotes(objects: seq<ChartObject>, ns: seq<Note>): (r: seq<ChartObject>)
    requires |ns| == |NotesOf(objects)|
    ensures |r| == |objects|
    ensures NotesOf(r) == ns
    ensures forall k :: 0 <= k < |r| ==>
      if objects[k].NoteObject? then r[k].NoteObject? else r[k] == objects[k]
    decreases |objects|
  {
    if |objects| == 0 then []
    else if objects[0].NoteObject? then
      var rest := WithNotes(objects[1..], ns[1..]);
      var r := [NoteObject(ns[0])] + rest;
      assert r[1..] == rest;
      assert [ns[0]] + ns[1..] == ns;
      r
    else
      var rest := WithNotes(objects[1..], ns);
      var r := [objects[0]] + rest;
      assert r[1..] == rest;
      r
  }

  /** Putting a list's own notes back into it changes nothing. */
  lemma {:induction false} WithOwnNotes(objects: seq<ChartObject>)
    ensures WithNotes(objects, NotesOf(objects)) == objects
    decreases |objects|
  {
    if |objects| > 0 {
      WithOwnNotes(objects[1..]);
    }
  }

  /** The notes of a sorted object list are ordered by tick. */
  lemma {:induction false} SortedNotes(objects: seq<ChartObject>)
    requires Sorted(objects, ChartKey)
    ensures SortedByPosition(NotesOf(objects))
    decreases |objects|
  {
    if |objects| > 0 {
      SortedNotes(objects[1..]);
      var rest := NotesOf(objects[1..]);
      forall n | n in rest
        ensures objects[0].Position() <= n.position
      {
        var k :| 0 <= k < |objects[1..]| && objects[1..][k] == NoteObject(n);
        assert KeyLe(ChartKey(objects[0]), ChartKey(objects[k + 1]));
      }
    }
  }
}
