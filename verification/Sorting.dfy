/** The stable sort behind every `sort_by`, with the facts its callers use. */
module Sorting {
  import opened Common
  import opened Json

  ghost predicate TotalPreorder<T(!new)>(le: (T, T) -> bool)
  {
    && (forall a, b :: le(a, b) || le(b, a))
    && (forall a, b, c :: le(a, b) && le(b, c) ==> le(a, c))
  }

  ghost predicate Sorted<T>(xs: seq<T>, le: (T, T) -> bool)
  {
    forall i, j :: 0 <= i < j < |xs| ==> le(xs[i], xs[j])
  }

  predicate Distinct<T, K(==)>(xs: seq<T>, key: T -> K)
  {
    forall i, j :: 0 <= i < j < |xs| ==> key(xs[i]) != key(xs[j])
  }

  /** Places `x` after every element that is not greater than it. */
  function Insert<T>(xs: seq<T>, x: T, le: (T, T) -> bool): (r: seq<T>)
    ensures |r| == |xs| + 1
  {
    if xs == [] || le(xs[|xs| - 1], x) then xs + [x]
    else Insert(xs[..|xs| - 1], x, le) + [xs[|xs| - 1]]
  }

  function Sort<T>(xs: seq<T>, le: (T, T) -> bool): (r: seq<T>)
    ensures |r| == |xs|
  {
    if xs == [] then [] else Insert(Sort(xs[..|xs| - 1], le), xs[|xs| - 1], le)
  }

  lemma {:induction false} InsertContents<T(!new)>(xs: seq<T>, x: T, le: (T, T) -> bool)
    ensures multiset(Insert(xs, x, le)) == multiset(xs) + multiset{x}
    ensures forall y :: y in Insert(xs, x, le) <==> y == x || y in xs
  {
    if xs != [] && !le(xs[|xs| - 1], x) {
      InsertContents(xs[..|xs| - 1], x, le);
      assert xs == xs[..|xs| - 1] + [xs[|xs| - 1]];
    }
  }

  lemma {:induction false} SortContents<T(!new)>(xs: seq<T>, le: (T, T) -> bool)
    ensures multiset(Sort(xs, le)) == multiset(xs)
    ensures forall y :: y in Sort(xs, le) <==> y in xs
  {
    if xs != [] {
      SortContents(xs[..|xs| - 1], le);
      InsertContents(Sort(xs[..|xs| - 1], le), xs[|xs| - 1], le);
      assert xs == xs[..|xs| - 1] + [xs[|xs| - 1]];
    }
  }

  lemma {:induction false} InsertSorted<T(!new)>(xs: seq<T>, x: T, le: (T, T) -> bool)
    requires TotalPreorder(le) && Sorted(xs, le)
    ensures Sorted(Insert(xs, x, le), le)
  {
    if xs != [] {
      var last := xs[|xs| - 1];
      if !le(last, x) {
        InsertSorted(xs[..|xs| - 1], x, le);
        InsertContents(xs[..|xs| - 1], x, le);
        var front := Insert(xs[..|xs| - 1], x, le);
        forall i | 0 <= i < |front|
          ensures le(front[i], last)
        {
          assert front[i] in front;
        }
      } else {
        forall i | 0 <= i < |xs|
          ensures le(xs[i], x)
        {
          assert i == |xs| - 1 || le(xs[i], last);
        }
      }
    }
  }

  lemma {:induction false} SortSorted<T(!new)>(xs: seq<T>, le: (T, T) -> bool)
    requires TotalPreorder(le)
    ensures Sorted(Sort(xs, le), le)
  {
    if xs != [] {
      SortSorted(xs[..|xs| - 1], le);
      InsertSorted(Sort(xs[..|xs| - 1], le), xs[|xs| - 1], le);
    }
  }

  lemma {:induction false} InsertDistinct<T(!new), K>(xs: seq<T>, x: T, le: (T, T) -> bool, key: T -> K)
    requires Distinct(xs, key) && forall y <- xs :: key(y) != key(x)
    ensures Distinct(Insert(xs, x, le), key)
  {
    if xs != [] && !le(xs[|xs| - 1], x) {
      var front := xs[..|xs| - 1];
      InsertDistinct(front, x, le, key);
      InsertContents(front, x, le);
      forall i | 0 <= i < |front| + 1
        ensures key(Insert(front, x, le)[i]) != key(xs[|xs| - 1])
      {
        var y := Insert(front, x, le)[i];
        assert y in Insert(front, x, le);
        if y != x {
          assert y in front;
          var k :| 0 <= k < |front| && front[k] == y;
          assert key(xs[k]) != key(xs[|xs| - 1]);
        }
      }
    }
  }

  lemma {:induction false} SortDistinct<T(!new), K>(xs: seq<T>, le: (T, T) -> bool, key: T -> K)
    requires Distinct(xs, key)
    ensures Distinct(Sort(xs, le), key)
  {
    if xs != [] {
      var front := xs[..|xs| - 1];
      SortDistinct(front, le, key);
      SortContents(front, le);
      var x := xs[|xs| - 1];
      forall y | y in Sort(front, le)
        ensures key(y) != key(x)
      {
        assert y in front;
        var k :| 0 <= k < |front| && front[k] == y;
        assert key(xs[k]) != key(xs[|xs| - 1]);
      }
      InsertDistinct(Sort(front, le), x, le, key);
    }
  }

  ghost predicate Antisymmetric<T(!new)>(le: (T, T) -> bool)
  {
    forall a, b :: le(a, b) && le(b, a) ==> a == b
  }

  ghost predicate NoRepeats<T>(xs: seq<T>)
  {
    forall i, j :: 0 <= i < j < |xs| ==> xs[i] != xs[j]
  }

  /** A strictly ordered list is determined by its elements. */
  lemma {:induction false} SortedUnique<T(!new)>(xs: seq<T>, ys: seq<T>, le: (T, T) -> bool)
    requires TotalPreorder(le) && Antisymmetric(le)
    requires Sorted(xs, le) && Sorted(ys, le) && NoRepeats(xs) && NoRepeats(ys)
    requires forall x :: x in xs <==> x in ys
    ensures xs == ys
  {
    if xs == [] {
      if ys != [] { SomeMember(ys); }
    } else {
      assert xs[0] in xs;
      var i :| 0 <= i < |ys| && ys[i] == xs[0];
      assert ys[0] in ys;
      var j :| 0 <= j < |xs| && xs[j] == ys[0];
      assert le(xs[0], ys[0]) && le(ys[0], xs[0]);
      assert xs[0] == ys[0];
      forall x ensures x in xs[1..] <==> x in ys[1..] {
        TailMembers(xs, x);
        TailMembers(ys, x);
      }
      SortedUnique(xs[1..], ys[1..], le);
      assert xs == [xs[0]] + xs[1..] && ys == [ys[0]] + ys[1..];
    }
  }

  lemma SomeMember<T(!new)>(xs: seq<T>)
    requires xs != []
    ensures exists x :: x in xs
  {
    assert xs[0] in xs;
  }

  lemma TailMembers<T>(xs: seq<T>, x: T)
    requires xs != [] && NoRepeats(xs)
    ensures x in xs[1..] <==> x in xs && x != xs[0]
  {
    if x in xs[1..] {
      var i :| 0 <= i < |xs[1..]| && xs[1..][i] == x;
      assert xs[i + 1] == x;
    }
    assert xs == [xs[0]] + xs[1..];
  }

  // ----- object keys in sorted order -----

  predicate KeyLe(a: Member, b: Member) { StrLe(a.key, b.key) }

  function KeyOf(m: Member): string { m.key }

  lemma KeyLeIsPreorder()
    ensures TotalPreorder(KeyLe)
  {
    forall a: Member, b: Member ensures KeyLe(a, b) || KeyLe(b, a) { StrLeTotal(a.key, b.key); }
    forall a: Member, b: Member, c: Member | KeyLe(a, b) && KeyLe(b, c) ensures KeyLe(a, c) {
      StrLeTransitive(a.key, b.key, c.key);
    }
  }

  function SortMembers(ms: seq<Member>): (r: seq<Member>)
    ensures |r| == |ms|
  {
    Sort(ms, KeyLe)
  }

  /** Sorting keys keeps every member and their distinctness. */
  lemma SortMembersContents(ms: seq<Member>)
    ensures forall m :: m in SortMembers(ms) <==> m in ms
    ensures multiset(SortMembers(ms)) == multiset(ms)
    ensures DistinctKeys(ms) ==> DistinctKeys(SortMembers(ms))
    ensures Sorted(SortMembers(ms), KeyLe)
  {
    SortContents(ms, KeyLe);
    KeyLeIsPreorder();
    SortSorted(ms, KeyLe);
    if DistinctKeys(ms) {
      assert Distinct(ms, KeyOf);
      SortDistinct(ms, KeyLe, KeyOf);
      var r := SortMembers(ms);
      forall i, j | 0 <= i < j < |r| ensures r[i].key != r[j].key {
        assert KeyOf(r[i]) != KeyOf(r[j]);
      }
    }
  }

  /** The children of a node in the order scans visit them: array order, or
      object keys sorted. */
  function Ordered(v: Json): (ms: seq<Member>)
    ensures |ms| == |Children(v)|
  {
    if v.Obj? then SortMembers(v.members) else Children(v)
  }

  /** Ordering loses nothing: same members, still distinct, found by the same
      names. */
  lemma OrderedFacts(v: Json)
    requires WellFormed(v)
    ensures DistinctKeys(Ordered(v))
    ensures forall m :: m in Ordered(v) <==> m in Children(v)
    ensures forall i :: 0 <= i < |Ordered(v)| ==>
              WellFormed(Ordered(v)[i].value) && Ordered(v)[i].value < v &&
              Lookup(Children(v), Ordered(v)[i].key) == Some(Ordered(v)[i].value)
  {
    hide SortMembers;
    ChildrenDistinct(v);
    if v.Obj? { SortMembersContents(v.members); }
    var ms := Ordered(v);
    forall i | 0 <= i < |ms|
      ensures WellFormed(ms[i].value) && ms[i].value < v && Lookup(Children(v), ms[i].key) == Some(ms[i].value)
    {
      assert ms[i] in ms;
      var k :| 0 <= k < |Children(v)| && Children(v)[k] == ms[i];
      LookupAt(Children(v), k);
    }
  }

  lemma OrderedIndex(v: Json, key: string) returns (i: nat)
    requires WellFormed(v) && Lookup(Children(v), key).Some?
    ensures i < |Ordered(v)| && Ordered(v)[i] == Member(key, Lookup(Children(v), key).value)
  {
    OrderedFacts(v);
    var m := Member(key, Lookup(Children(v), key).value);
    assert m in Ordered(v);
    i :| 0 <= i < |Ordered(v)| && Ordered(v)[i] == m;
  }
}
