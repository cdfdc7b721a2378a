/** JSON values as `serde_json` holds them with insertion-ordered objects, and
    the two ways of addressing a node: `Get`, which is what a pointer resolves
    to, and `At`, which follows only the one canonical name of each child. */
module Json {
  import opened Common

  datatype Number = Int(i: int) | Float(r: real)

  datatype Json =
    | Null
    | Bool(b: bool)
    | Num(n: Number)
    | Str(s: string)
    | Arr(items: seq<Json>)
    | Obj(members: seq<Member>)

  datatype Member = Member(key: string, value: Json)

  predicate DistinctKeys(ms: seq<Member>)
  {
    forall i, j :: 0 <= i < j < |ms| ==> ms[i].key != ms[j].key
  }

  /** What the map and vector types guarantee: object keys are distinct and no
      array is longer than `usize` can count. */
  predicate WellFormed(v: Json)
  {
    match v
    case Arr(items) => |items| < USIZE_LIMIT && forall i :: 0 <= i < |items| ==> WellFormed(items[i])
    case Obj(ms) => DistinctKeys(ms) && forall i :: 0 <= i < |ms| ==> WellFormed(ms[i].value)
    case _ => true
  }

  predicate IsContainer(v: Json) { v.Arr? || v.Obj? }

  function Lookup(ms: seq<Member>, key: string): (r: Option<Json>)
    ensures r.None? <==> forall i :: 0 <= i < |ms| ==> ms[i].key != key
    ensures r.Some? ==> Member(key, r.value) in ms
  {
    if ms == [] then None
    else if ms[0].key == key then Some(ms[0].value)
    else Lookup(ms[1..], key)
  }

  lemma {:induction false} LookupAt(ms: seq<Member>, i: nat)
    requires DistinctKeys(ms) && i < |ms|
    ensures Lookup(ms, ms[i].key) == Some(ms[i].value)
  {
    if i > 0 {
      assert ms[0].key != ms[i].key;
      LookupAt(ms[1..], i - 1);
    }
  }

  lemma LookupIndex(ms: seq<Member>, key: string) returns (i: nat)
    requires Lookup(ms, key).Some?
    ensures i < |ms| && ms[i].key == key && ms[i].value == Lookup(ms, key).value
  {
    i :| 0 <= i < |ms| && ms[i] == Member(key, Lookup(ms, key).value);
  }

  /** `Map::insert`: replaces in place or appends. */
  function Put(ms: seq<Member>, key: string, value: Json): seq<Member>
  {
    if ms == [] then [Member(key, value)]
    else if ms[0].key == key then [Member(key, value)] + ms[1..]
    else [ms[0]] + Put(ms[1..], key, value)
  }

  lemma {:induction false} PutKeeps(ms: seq<Member>, key: string, value: Json)
    ensures Member(key, value) in Put(ms, key, value)
    ensures forall m <- ms | m.key != key :: m in Put(ms, key, value)
    ensures forall m <- Put(ms, key, value) :: m == Member(key, value) || m in ms
  {
    if ms != [] && ms[0].key != key {
      PutKeeps(ms[1..], key, value);
      assert ms == [ms[0]] + ms[1..];
    }
  }

  lemma {:induction false} PutDistinct(ms: seq<Member>, key: string, value: Json)
    requires DistinctKeys(ms)
    ensures DistinctKeys(Put(ms, key, value))
  {
    if ms != [] && ms[0].key != key {
      var tail := ms[1..];
      PutDistinct(tail, key, value);
      PutKeeps(tail, key, value);
      forall m | m in Put(tail, key, value) ensures m.key != ms[0].key {
        if m != Member(key, value) {
          var i :| 0 <= i < |tail| && tail[i] == m;
          assert ms[0].key != ms[i + 1].key;
        }
      }
    }
  }

  /** One step of pointer resolution. */
  function Child(v: Json, segment: string): Option<Json>
  {
    match v
    case Obj(ms) => Lookup(ms, segment)
    case Arr(items) =>
      (match ParseUsize(segment)
       case Some(i) => if i < |items| then Some(items[i]) else None
       case None => None)
    case _ => None
  }

  function Get(v: Json, segments: seq<string>): Option<Json>
    decreases |segments|
  {
    if segments == [] then Some(v)
    else
      match Child(v, segments[0])
      case None => None
      case Some(c) => Get(c, segments[1..])
  }

  /** Resolution factors through any prefix of the address. */
  lemma {:induction false} GetFactors(v: Json, a: seq<string>, b: seq<string>)
    ensures Get(v, a + b) == (match Get(v, a) case None => None case Some(m) => Get(m, b))
    decreases |a|
  {
    if a == [] {
      assert a + b == b;
    } else {
      assert (a + b)[1..] == a[1..] + b;
      match Child(v, a[0]) {
        case None =>
        case Some(c) => GetFactors(c, a[1..], b);
      }
    }
  }

  /** Children under their canonical names: keys of an object, decimal indexes
      of an array. */
  function Children(v: Json): (ms: seq<Member>)
    ensures v.Obj? ==> ms == v.members
    ensures v.Arr? ==> |ms| == |v.items| &&
                       forall i :: 0 <= i < |ms| ==> ms[i] == Member(Dec(i), v.items[i])
    ensures !IsContainer(v) ==> ms == []
    ensures forall i :: 0 <= i < |ms| ==> ms[i].value < v
  {
    match v
    case Obj(ms) => ms
    case Arr(items) => seq(|items|, i requires 0 <= i < |items| => Member(Dec(i), items[i]))
    case _ => []
  }

  lemma ChildrenDistinct(v: Json)
    requires WellFormed(v)
    ensures DistinctKeys(Children(v))
    ensures forall i :: 0 <= i < |Children(v)| ==> WellFormed(Children(v)[i].value)
  {
    var ms := Children(v);
    forall i, j | 0 <= i < j < |ms|
      ensures ms[i].key != ms[j].key
    {
      if v.Arr? && ms[i].key == ms[j].key {
        DecInjective(i, j);
      }
    }
  }

  lemma ChildOfMember(v: Json, i: nat)
    requires WellFormed(v) && i < |Children(v)|
    ensures Child(v, Children(v)[i].key) == Some(Children(v)[i].value)
  {
    if v.Obj? {
      LookupAt(v.members, i);
    } else {
      ParseUsizeOfDec(i);
    }
  }

  /** Every resolved child is one of the children, under its own key when the
      parent is an object. */
  lemma MemberOfChild(v: Json, segment: string) returns (i: nat)
    requires Child(v, segment).Some?
    ensures i < |Children(v)| && Children(v)[i].value == Child(v, segment).value
    ensures v.Obj? ==> Children(v)[i].key == segment
    ensures v.Arr? ==> ParseUsize(segment) == Some(i)
  {
    if v.Obj? {
      i := LookupIndex(v.members, segment);
    } else {
      i := ParseUsize(segment).value;
    }
  }

  /** Resolution along canonical names only. Every node of a well-formed value
      has exactly one such address. */
  function At(v: Json, segments: seq<string>): Option<Json>
    decreases |segments|
  {
    if segments == [] then Some(v)
    else
      match Lookup(Children(v), segments[0])
      case None => None
      case Some(c) => At(c, segments[1..])
  }

  lemma {:induction false} AtIsGet(v: Json, segments: seq<string>)
    requires WellFormed(v) && At(v, segments).Some?
    ensures Get(v, segments) == At(v, segments)
    decreases |segments|
  {
    if segments != [] {
      var i := LookupIndex(Children(v), segments[0]);
      ChildOfMember(v, i);
      ChildrenDistinct(v);
      AtIsGet(Children(v)[i].value, segments[1..]);
    }
  }

  lemma {:induction false} AtFactors(v: Json, a: seq<string>, b: seq<string>)
    ensures At(v, a + b) == (match At(v, a) case None => None case Some(m) => At(m, b))
    decreases |a|
  {
    if a == [] {
      assert a + b == b;
    } else {
      assert (a + b)[1..] == a[1..] + b;
      match Lookup(Children(v), a[0]) {
        case None =>
        case Some(c) => AtFactors(c, a[1..], b);
      }
    }
  }

  lemma {:induction false} WellFormedBelow(v: Json, segments: seq<string>)
    requires WellFormed(v) && Get(v, segments).Some?
    ensures WellFormed(Get(v, segments).value)
    decreases |segments|
  {
    if segments != [] {
      var i := MemberOfChild(v, segments[0]);
      ChildrenDistinct(v);
      WellFormedBelow(Children(v)[i].value, segments[1..]);
    }
  }

  /** What `path` leads to from `v` through object members only. */
  function ThroughObjects(v: Json, path: seq<string>): Option<Json>
    decreases |path|
  {
    if path == [] then Some(v)
    else if !v.Obj? then None
    else
      match Lookup(v.members, path[0])
      case None => None
      case Some(c) => ThroughObjects(c, path[1..])
  }

  lemma {:induction false} ThroughThenChild(v: Json, path: seq<string>, key: string)
    ensures ThroughObjects(v, path + [key]) ==
            (match ThroughObjects(v, path)
             case None => None
             case Some(m) => if m.Obj? then Lookup(m.members, key) else None)
    decreases |path|
  {
    if path == [] {
      assert ([] + [key])[1..] == [];
    } else {
      assert (path + [key])[1..] == path[1..] + [key];
      if v.Obj? && Lookup(v.members, path[0]).Some? {
        ThroughThenChild(Lookup(v.members, path[0]).value, path[1..], key);
      }
    }
  }

  lemma {:induction false} ThroughIsGet(v: Json, path: seq<string>)
    requires ThroughObjects(v, path).Some?
    ensures Get(v, path) == ThroughObjects(v, path)
    decreases |path|
  {
    if path != [] {
      ThroughIsGet(Lookup(v.members, path[0]).value, path[1..]);
    }
  }

  /** How many of the items are objects. */
  function ObjectCount(items: seq<Json>): nat
  {
    if items == [] then 0 else ObjectCount(items[..|items| - 1]) + (if items[|items| - 1].Obj? then 1 else 0)
  }

  /** `==` on values with insertion-ordered objects: key order is ignored. */
  predicate Equivalent(a: Json, b: Json)
    decreases a
  {
    match (a, b)
    case (Arr(xs), Arr(ys)) => |xs| == |ys| && forall i :: 0 <= i < |xs| ==> Equivalent(xs[i], ys[i])
    case (Obj(ms), Obj(ns)) =>
      |ms| == |ns| &&
      forall i :: 0 <= i < |ms| ==>
        Lookup(ns, ms[i].key).Some? && Equivalent(ms[i].value, Lookup(ns, ms[i].key).value)
    case _ => a == b
  }
}
