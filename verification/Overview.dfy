/** Streaming field statistics of a collection, their batch meaning, and the
    soundness of inferred record keys for any hash function. */
module Overview {
  import opened Common
  import opened Json

  const OVERVIEW_MAX_VALUES: nat := 8
  const OVERVIEW_VALUE_MAX_CHARS: nat := 40
  const KEY_MAX_CHARS: nat := 128
  const MAX_KEY_CANDIDATES: nat := 4
  const FIELD_DEPTH: nat := 2
  const KEY_PRIORITY: seq<string> := ["id", "uid", "uuid", "key", "number", "node_id", "name", "slug"]

  /** What the statistics take from outside: the hash of a tagged key text, the
      instant an RFC 3339 text names, and the float a number reads as. */
  datatype Readers = Readers(hash: (bool, string) -> nat, instant: string -> Option<int>, float: Number -> real)

  function KindName(v: Json): string
  {
    match v
    case Null => "null"
    case Bool(_) => "boolean"
    case Num(n) => if n.Int? then "integer" else "number"
    case Str(_) => "string"
    case Arr(_) => "array"
    case Obj(_) => "object"
  }

  predicate Enumerable(e: Readers, v: Json)
  {
    match v
    case Str(s) => |s| <= OVERVIEW_VALUE_MAX_CHARS && e.instant(s).None?
    case Arr(_) => false
    case Obj(_) => false
    case _ => true
  }

  /** Non-empty, short, and not a redaction marker. */
  predicate IsKeyString(s: string)
  {
    s != [] && |s| <= KEY_MAX_CHARS && !("[REDACTED" <= s)
  }

  predicate KeyShaped(v: Json)
  {
    match v
    case Num(n) => n.Int?
    case Str(s) => IsKeyString(s)
    case _ => false
  }

  function IntText(i: int): string { if i < 0 then "-" + Dec(-i) else Dec(i) }

  /** Integers and strings are tagged apart, so `1` is never `"1"`. */
  function KeyHash(e: Readers, v: Json): (h: Option<nat>)
    ensures h.Some? <==> KeyShaped(v)
  {
    match v
    case Num(n) => if n.Int? then Some(e.hash(false, IntText(n.i))) else None
    case Str(s) => if IsKeyString(s) then Some(e.hash(true, s)) else None
    case _ => None
  }

  // ----- the state of one field -----

  datatype ValueCount = ValueCount(value: Json, count: nat)

  datatype Bounds =
    | Unset
    | Numbers(low: Json, high: Json)
    | Timestamps(lowAt: int, lowText: Json, highAt: int, highText: Json)
    | Mixed

  datatype Stats = Stats(
    depth: nat,
    kinds: set<string>,
    present: nat,
    values: Option<seq<ValueCount>>,
    unique: Option<set<nat>>,
    bounds: Bounds)

  function FreshStats(depth: nat): Stats { Stats(depth, {}, 0, Some([]), Some({}), Unset) }

  function IndexOfValue(h: seq<ValueCount>, v: Json): (i: nat)
    ensures i <= |h|
    ensures i < |h| ==> h[i].value == v
    ensures forall k :: 0 <= k < i ==> h[k].value != v
  {
    if h == [] || h[0].value == v then 0 else 1 + IndexOfValue(h[1..], v)
  }

  function CountValue(e: Readers, values: Option<seq<ValueCount>>, v: Json): Option<seq<ValueCount>>
  {
    if values.None? || !Enumerable(e, v) then None
    else
      var h := values.value;
      var i := IndexOfValue(h, v);
      if i < |h| then Some(h[i := ValueCount(v, h[i].count + 1)])
      else if |h| < OVERVIEW_MAX_VALUES then Some(h + [ValueCount(v, 1)])
      else None
  }

  function NoteKey(e: Readers, unique: Option<set<nat>>, v: Json): Option<set<nat>>
  {
    if unique.None? || KeyHash(e, v).None? || KeyHash(e, v).value in unique.value then None
    else Some(unique.value + {KeyHash(e, v).value})
  }

  function ObserveBounds(e: Readers, b: Bounds, v: Json): Bounds
  {
    if v.Null? then b
    else
      match (b, v)
      case (Unset, Num(_)) => Numbers(v, v)
      case (Numbers(low, high), Num(n)) =>
        if !(low.Num? && high.Num?) then Mixed
        else Numbers(if e.float(n) < e.float(low.n) then v else low, if e.float(n) > e.float(high.n) then v else high)
      case (Unset, Str(s)) =>
        if e.instant(s).Some? then Timestamps(e.instant(s).value, v, e.instant(s).value, v) else Mixed
      case (Timestamps(la, lt, ha, ht), Str(s)) =>
        if e.instant(s).None? then Mixed
        else
          var t := e.instant(s).value;
          Timestamps(if t < la then t else la, if t < la then v else lt,
                     if t > ha then t else ha, if t > ha then v else ht)
      case _ => Mixed
  }

  function ObserveStats(e: Readers, s: Stats, v: Json): Stats
  {
    Stats(s.depth, s.kinds + {KindName(v)}, s.present + 1, CountValue(e, s.values, v), NoteKey(e, s.unique, v),
          ObserveBounds(e, s.bounds, v))
  }

  /** The statistics of a whole list of values seen one by one. */
  function Fold(e: Readers, depth: nat, vs: seq<Json>): Stats
  {
    if vs == [] then FreshStats(depth) else ObserveStats(e, Fold(e, depth, vs[..|vs| - 1]), vs[|vs| - 1])
  }

  class FieldStats {
    const readers: Readers
    const depth: nat
    var kinds: set<string>
    var present: nat
    var values: Option<seq<ValueCount>>
    var unique: Option<set<nat>>
    var bounds: Bounds

    function View(): Stats
      reads this
    {
      Stats(depth, kinds, present, values, unique, bounds)
    }

    constructor (readers: Readers, depth: nat)
      ensures this.readers == readers && View() == FreshStats(depth)
    {
      this.readers := readers;
      this.depth := depth;
      kinds := {};
      present := 0;
      values := Some([]);
      unique := Some({});
      bounds := Unset;
    }

    method Observe(value: Json)
      modifies this
      ensures View() == ObserveStats(readers, old(View()), value)
    {
      present := present + 1;
      kinds := kinds + {KindName(value)};
      if values.Some? {
        if Enumerable(readers, value) {
          var h := values.value;
          var i := IndexOfValue(h, value);
          if i < |h| {
            values := Some(h[i := ValueCount(value, h[i].count + 1)]);
          } else if |h| < OVERVIEW_MAX_VALUES {
            values := Some(h + [ValueCount(value, 1)]);
          } else {
            values := None;
          }
        } else {
          values := None;
        }
      }
      if unique.Some? {
        var hash := KeyHash(readers, value);
        if hash.Some? && hash.value !in unique.value {
          unique := Some(unique.value + {hash.value});
        } else {
          unique := None;
        }
      }
      bounds := ObserveBounds(readers, bounds, value);
    }
  }

  // ----- the batch meaning of one field's statistics -----

  function CountOf(vs: seq<Json>, v: Json): nat
  {
    if vs == [] then 0 else CountOf(vs[..|vs| - 1], v) + (if vs[|vs| - 1] == v then 1 else 0)
  }

  lemma {:induction false} CountPositive(vs: seq<Json>, v: Json)
    ensures CountOf(vs, v) > 0 <==> v in vs
  {
    if vs != [] {
      CountPositive(vs[..|vs| - 1], v);
      assert vs == vs[..|vs| - 1] + [vs[|vs| - 1]];
    }
  }

  function SumCounts(h: seq<ValueCount>): nat
  {
    if h == [] then 0 else SumCounts(h[..|h| - 1]) + h[|h| - 1].count
  }

  /** Every distinct value once, with its exact number of occurrences. */
  ghost predicate IsHistogram(vs: seq<Json>, h: seq<ValueCount>)
  {
    && (forall i, j :: 0 <= i < j < |h| ==> h[i].value != h[j].value)
    && (forall i :: 0 <= i < |h| ==> h[i].count == CountOf(vs, h[i].value) && h[i].count > 0)
    && (forall v :: v in vs ==> exists i :: 0 <= i < |h| && h[i].value == v)
  }

  function Distincts(vs: seq<Json>): set<Json> { set v | v in vs }

  function ValueSet(h: seq<ValueCount>): set<Json> { set c | c in h :: c.value }

  lemma {:induction false} HistogramSize(h: seq<ValueCount>)
    requires forall i, j :: 0 <= i < j < |h| ==> h[i].value != h[j].value
    ensures |ValueSet(h)| == |h|
  {
    hide ValueSet;
    if h == [] {
      NoValueSet();
    } else {
      var front, last := h[..|h| - 1], h[|h| - 1];
      HistogramSize(front);
      assert h == front + [last];
      forall c | c in front ensures c.value != last.value {
        var i :| 0 <= i < |front| && front[i] == c;
        assert h[i].value != h[|h| - 1].value;
      }
      OneMoreValue(front, last);
    }
  }

  lemma NoValueSet()
    ensures ValueSet([]) == {}
  {
  }

  lemma OneMoreValue(front: seq<ValueCount>, last: ValueCount)
    requires forall c <- front :: c.value != last.value
    ensures ValueSet(front + [last]) == ValueSet(front) + {last.value}
    ensures last.value !in ValueSet(front)
  {
  }

  lemma DistinctsOfHistogram(vs: seq<Json>, h: seq<ValueCount>)
    requires IsHistogram(vs, h)
    ensures |Distincts(vs)| == |h|
  {
    HistogramSize(h);
    forall v ensures v in ValueSet(h) <==> v in Distincts(vs) {
      CountPositive(vs, v);
    }
    assert ValueSet(h) == Distincts(vs);
  }

  lemma {:induction false} SumAfterBump(h: seq<ValueCount>, i: nat, v: Json)
    requires i < |h|
    ensures SumCounts(h[i := ValueCount(v, h[i].count + 1)]) == SumCounts(h) + 1
  {
    var g := h[i := ValueCount(v, h[i].count + 1)];
    if i < |h| - 1 {
      SumAfterBump(h[..|h| - 1], i, v);
      assert g[..|g| - 1] == h[..|h| - 1][i := ValueCount(v, h[..|h| - 1][i].count + 1)];
    } else {
      assert g[..|g| - 1] == h[..|h| - 1];
    }
  }

  lemma BumpKeepsHistogram(vs: seq<Json>, h: seq<ValueCount>, v: Json, i: nat)
    requires IsHistogram(vs, h) && i < |h| && h[i].value == v
    ensures IsHistogram(vs + [v], h[i := ValueCount(v, h[i].count + 1)])
  {
    var all, g := vs + [v], h[i := ValueCount(v, h[i].count + 1)];
    assert all[..|all| - 1] == vs;
    forall w | w in all ensures exists k :: 0 <= k < |g| && g[k].value == w {
      if w == v {
        assert g[i].value == w;
      } else {
        assert w in vs;
        var k :| 0 <= k < |h| && h[k].value == w;
        assert g[k].value == w;
      }
    }
  }

  lemma AppendKeepsHistogram(vs: seq<Json>, h: seq<ValueCount>, v: Json)
    requires IsHistogram(vs, h) && forall k :: 0 <= k < |h| ==> h[k].value != v
    ensures IsHistogram(vs + [v], h + [ValueCount(v, 1)])
  {
    var all, g := vs + [v], h + [ValueCount(v, 1)];
    assert all[..|all| - 1] == vs;
    CountPositive(vs, v);
    forall w | w in all ensures exists k :: 0 <= k < |g| && g[k].value == w {
      if w == v {
        assert g[|h|].value == w;
      } else {
        assert w in vs;
        var k :| 0 <= k < |h| && h[k].value == w;
        assert g[k].value == w;
      }
    }
  }

  /** The value list survives exactly when every value is enumerable and at
      most eight are distinct, and then it is the complete histogram. */
  ghost predicate ValuesMean(e: Readers, values: Option<seq<ValueCount>>, vs: seq<Json>)
  {
    && (values.Some? <==> (forall v <- vs :: Enumerable(e, v)) && |Distincts(vs)| <= OVERVIEW_MAX_VALUES)
    && (values.Some? ==> IsHistogram(vs, values.value) && SumCounts(values.value) == |vs|)
  }

  lemma {:induction false} ValuesAreTheHistogram(e: Readers, depth: nat, vs: seq<Json>)
    ensures ValuesMean(e, Fold(e, depth, vs).values, vs)
  {
    hide CountValue, NoteKey, ObserveBounds, KindName, ValuesMean;
    if vs == [] {
      NoValues(e);
    } else {
      var front, last := vs[..|vs| - 1], vs[|vs| - 1];
      assert vs == front + [last];
      ValuesAreTheHistogram(e, depth, front);
      ValuesStep(e, Fold(e, depth, front).values, front, last);
    }
  }

  lemma NoValues(e: Readers)
    ensures ValuesMean(e, Some([]), [])
  {
    EmptyHistogram();
    DistinctsOfHistogram([], []);
  }

  lemma ValuesStep(e: Readers, before: Option<seq<ValueCount>>, front: seq<Json>, last: Json)
    requires ValuesMean(e, before, front)
    ensures ValuesMean(e, CountValue(e, before, last), front + [last])
  {
    hide Enumerable, Distincts, CountOf, IsHistogram, SumCounts;
    OneMoreDistinct(front, last);
    if before.Some? && Enumerable(e, last) {
      var h := before.value;
      DistinctsOfHistogram(front, h);
      HistogramMembers(front, h, last);
      var i := IndexOfValue(h, last);
      if i < |h| {
        BumpKeepsHistogram(front, h, last, i);
        SumAfterBump(h, i, last);
      } else {
        AppendKeepsHistogram(front, h, last);
        SumAfterAppend(h, last);
      }
    }
  }

  lemma SumAfterAppend(h: seq<ValueCount>, v: Json)
    ensures SumCounts(h + [ValueCount(v, 1)]) == SumCounts(h) + 1
  {
    assert (h + [ValueCount(v, 1)])[..|h|] == h;
  }

  lemma EmptyHistogram()
    ensures IsHistogram([], [])
  {
  }

  lemma HistogramMembers(vs: seq<Json>, h: seq<ValueCount>, v: Json)
    requires IsHistogram(vs, h)
    ensures v in vs <==> exists i :: 0 <= i < |h| && h[i].value == v
  {
    CountPositive(vs, v);
  }

  lemma OneMoreDistinct(front: seq<Json>, last: Json)
    ensures |Distincts(front + [last])| == |Distincts(front)| + (if last in front then 0 else 1)
  {
    assert Distincts(front + [last]) == Distincts(front) + {last};
  }

  lemma {:induction false} PresenceAndKinds(e: Readers, depth: nat, vs: seq<Json>)
    ensures var s := Fold(e, depth, vs);
            s.present == |vs| && s.depth == depth && s.kinds == set v | v in vs :: KindName(v)
  {
    hide CountValue, NoteKey, ObserveBounds, KindName;
    if vs != [] {
      var front, last := vs[..|vs| - 1], vs[|vs| - 1];
      assert vs == front + [last];
      PresenceAndKinds(e, depth, front);
    }
  }

  /** Key-shaped values whose hashes never repeat. */
  ghost predicate DistinctHashes(e: Readers, vs: seq<Json>)
  {
    && (forall i :: 0 <= i < |vs| ==> KeyShaped(vs[i]))
    && (forall i, j :: 0 <= i < j < |vs| ==> KeyHash(e, vs[i]) != KeyHash(e, vs[j]))
  }

  /** The key hashes kept so far are exactly the hashes of the values seen. */
  ghost predicate KeysMean(e: Readers, u: Option<set<nat>>, vs: seq<Json>)
  {
    && (u.Some? <==> DistinctHashes(e, vs))
    && (u.Some? ==> |u.value| == |vs|)
    && (u.Some? ==> forall h :: h in u.value <==> exists i :: 0 <= i < |vs| && KeyHash(e, vs[i]) == Some(h))
  }

  lemma {:induction false} UniqueIsDistinctHashes(e: Readers, depth: nat, vs: seq<Json>)
    ensures KeysMean(e, Fold(e, depth, vs).unique, vs)
  {
    hide CountValue, ObserveBounds, KindName, KeyHash, KeyShaped;
    if vs != [] {
      var front, last := vs[..|vs| - 1], vs[|vs| - 1];
      UniqueIsDistinctHashes(e, depth, front);
      UniqueStep(e, Fold(e, depth, front).unique, front, last);
      assert vs == front + [last];
    }
  }

  lemma UniqueStep(e: Readers, u: Option<set<nat>>, front: seq<Json>, last: Json)
    requires KeysMean(e, u, front)
    ensures KeysMean(e, NoteKey(e, u, last), front + [last])
  {
    hide KeyHash, KeyShaped;
    var vs := front + [last];
    assert forall i :: 0 <= i < |front| ==> vs[i] == front[i];
    assert vs[|front|] == last;
    if u.None? {
      assert !DistinctHashes(e, vs);
    } else if KeyHash(e, last).None? {
      assert !KeyShaped(vs[|front|]);
    } else if KeyHash(e, last).value in u.value {
      var i :| 0 <= i < |front| && KeyHash(e, front[i]) == Some(KeyHash(e, last).value);
      assert KeyHash(e, vs[i]) == KeyHash(e, vs[|front|]);
    } else {
      var hash := KeyHash(e, last).value;
      forall i | 0 <= i < |front| ensures KeyHash(e, vs[i]) != KeyHash(e, last) {
        assert KeyHash(e, front[i]).Some? ==> KeyHash(e, front[i]).value in u.value;
      }
      forall h ensures h in u.value + {hash} <==> exists i :: 0 <= i < |vs| && KeyHash(e, vs[i]) == Some(h) {
        if h in u.value {
          var i :| 0 <= i < |front| && KeyHash(e, front[i]) == Some(h);
          assert KeyHash(e, vs[i]) == Some(h);
        }
        if h == hash { assert KeyHash(e, vs[|front|]) == Some(h); }
      }
    }
  }

  predicate Instant(e: Readers, v: Json) { v.Str? && e.instant(v.s).Some? }

  /** Bounds exist when every non-null value is a number, or every one is a
      timestamp. They are verbatim values and nothing seen lies outside them. */
  ghost predicate BoundsMean(e: Readers, b: Bounds, vs: seq<Json>)
  {
    && (b.Unset? <==> forall v <- vs :: v.Null?)
    && (b.Numbers? <==> (exists v <- vs :: !v.Null?) && (forall v <- vs :: v.Null? || v.Num?))
    && (b.Timestamps? <==> (exists v <- vs :: !v.Null?) && (forall v <- vs :: v.Null? || Instant(e, v)))
    && (b.Numbers? ==> NumberRange(e, b.low, b.high, vs))
    && (b.Timestamps? ==> TimeRange(e, b, vs))
  }

  ghost predicate NumberRange(e: Readers, low: Json, high: Json, vs: seq<Json>)
  {
    && low in vs && high in vs && low.Num? && high.Num?
    && forall v <- vs | v.Num? :: e.float(low.n) <= e.float(v.n) <= e.float(high.n)
  }

  ghost predicate TimeRange(e: Readers, b: Bounds, vs: seq<Json>)
    requires b.Timestamps?
  {
    && b.lowText in vs && b.lowText.Str? && e.instant(b.lowText.s) == Some(b.lowAt)
    && b.highText in vs && b.highText.Str? && e.instant(b.highText.s) == Some(b.highAt)
    && forall v <- vs | Instant(e, v) :: b.lowAt <= e.instant(v.s).value <= b.highAt
  }

  lemma {:induction false} BoundsAreVerbatim(e: Readers, depth: nat, vs: seq<Json>)
    ensures BoundsMean(e, Fold(e, depth, vs).bounds, vs)
  {
    hide CountValue, NoteKey, KindName, ObserveBounds;
    if vs != [] {
      var front, last := vs[..|vs| - 1], vs[|vs| - 1];
      assert vs == front + [last];
      BoundsAreVerbatim(e, depth, front);
      BoundsStep(e, Fold(e, depth, front).bounds, front, last);
    }
  }

  lemma BoundsStep(e: Readers, b: Bounds, front: seq<Json>, last: Json)
    requires BoundsMean(e, b, front)
    ensures BoundsMean(e, ObserveBounds(e, b, last), front + [last])
  {
    var vs := front + [last];
    assert forall v :: v in vs <==> v in front || v == last;
    assert last in vs;
    match b {
      case Unset => BoundsFirst(e, front, last);
      case Numbers(_, _) =>
        var w :| w in front && !w.Null?;
        assert w in vs && w.Num?;
      case Timestamps(_, _, _, _) =>
        var w :| w in front && !w.Null?;
        assert w in vs && Instant(e, w);
      case Mixed => BoundsMixed(e, front, last);
    }
  }

  lemma BoundsFirst(e: Readers, front: seq<Json>, last: Json)
    requires BoundsMean(e, Unset, front)
    ensures BoundsMean(e, ObserveBounds(e, Unset, last), front + [last])
  {
    var vs := front + [last];
    assert forall v :: v in vs <==> v in front || v == last;
  }

  lemma BoundsMixed(e: Readers, front: seq<Json>, last: Json)
    requires BoundsMean(e, Mixed, front)
    ensures BoundsMean(e, Mixed, front + [last])
  {
    var vs := front + [last];
    assert forall v <- front :: v in vs;
  }
}
