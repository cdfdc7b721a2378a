/** Search over a cached payload: a bounded traversal that says when it was
    bounded, and the ranked response built from its hits. */
module Search {
  import opened Common
  import opened Json
  import opened Pointer
  import opened Sorting

  /** What the matcher, the requested kind and the semantic map make of a node:
      a score and the kind of match, or nothing. Opaque. */
  datatype Match = Match(score: real, kind: string)

  type Matcher = (string, Option<string>, Json) -> Option<Match>

  datatype Hit = Hit(path: string, field: Option<string>, value: Json, found: Match)

  // ----- the traversal and its bounds -----

  datatype Progress = Progress(hits: seq<Hit>, visited: nat, truncated: bool)

  datatype Limits = Limits(nodes: nat, depth: nat)

  function HitsHere(m: Matcher, v: Json, path: string, field: Option<string>): seq<Hit>
  {
    if m(path, field, v).Some? then [Hit(path, field, v, m(path, field, v).value)] else []
  }

  function VisitNode(m: Matcher, l: Limits, p: Progress, v: Json, path: string, field: Option<string>, depth: nat): Progress
    requires WellFormed(v)
    decreases v, 1, 0
  {
    if p.visited >= l.nodes || depth > l.depth then p.(truncated := true)
    else
      OrderedFacts(v);
      VisitKids(m, l, Progress(p.hits + HitsHere(m, v, path, field), p.visited + 1, p.truncated), v, path, 0, depth)
  }

  function VisitKids(m: Matcher, l: Limits, p: Progress, v: Json, path: string, i: nat, depth: nat): Progress
    requires WellFormed(v)
    decreases v, 0, |Ordered(v)| - i
  {
    OrderedFacts(v);
    if i >= |Ordered(v)| then p
    else
      var kid := Ordered(v)[i];
      var q := VisitNode(m, l, p, kid.value, Push(path, kid.key), Some(kid.key), depth + 1);
      if q.visited >= l.nodes then q.(truncated := true)
      else VisitKids(m, l, q, v, path, i + 1, depth)
  }

  class SearchTraversal {
    const matcher: Matcher
    const limits: Limits
    var visited: nat
    var truncated: bool
    var hits: seq<Hit>

    constructor (matcher: Matcher, limits: Limits)
      ensures this.matcher == matcher && this.limits == limits && View() == Progress([], 0, false)
    {
      this.matcher := matcher;
      this.limits := limits;
      visited := 0;
      truncated := false;
      hits := [];
    }

    function View(): Progress
      reads this
    {
      Progress(hits, visited, truncated)
    }

    method Visit(value: Json, path: string, field: Option<string>, depth: nat)
      requires WellFormed(value)
      modifies this
      ensures View() == VisitNode(matcher, limits, old(View()), value, path, field, depth)
      decreases value, 0
    {
      hide VisitNode, VisitKids, HitsHere, WellFormed, Push, Ordered;
      OpenNode(matcher, limits, View(), value, path, field, depth);
      if visited >= limits.nodes || depth > limits.depth {
        truncated := true;
        return;
      }
      visited := visited + 1;
      hits := hits + HitsHere(matcher, value, path, field);
      OrderedFacts(value);
      var kids := Ordered(value);
      ghost var all := VisitKids(matcher, limits, View(), value, path, 0, depth);
      for i := 0 to |kids|
        invariant all == VisitKids(matcher, limits, View(), value, path, i, depth)
      {
        OpenKids(matcher, limits, View(), value, path, i, depth);
        Visit(kids[i].value, Push(path, kids[i].key), Some(kids[i].key), depth + 1);
        if visited >= limits.nodes {
          truncated := true;
          return;
        }
      }
      OpenKids(matcher, limits, View(), value, path, |kids|, depth);
    }
  }

  lemma OpenNode(m: Matcher, l: Limits, p: Progress, v: Json, path: string, field: Option<string>, depth: nat)
    requires WellFormed(v)
    ensures VisitNode(m, l, p, v, path, field, depth) ==
            if p.visited >= l.nodes || depth > l.depth then p.(truncated := true)
            else VisitKids(m, l, Progress(p.hits + HitsHere(m, v, path, field), p.visited + 1, p.truncated), v, path, 0, depth)
  {
    hide WellFormed, HitsHere, Push, Ordered, VisitKids;
  }

  lemma OpenKids(m: Matcher, l: Limits, p: Progress, v: Json, path: string, i: nat, depth: nat)
    requires WellFormed(v)
    ensures i >= |Ordered(v)| ==> VisitKids(m, l, p, v, path, i, depth) == p
    ensures i < |Ordered(v)| ==>
              WellFormed(Ordered(v)[i].value) &&
              var q := VisitNode(m, l, p, Ordered(v)[i].value, Push(path, Ordered(v)[i].key), Some(Ordered(v)[i].key), depth + 1);
              VisitKids(m, l, p, v, path, i, depth) ==
              if q.visited >= l.nodes then q.(truncated := true) else VisitKids(m, l, q, v, path, i + 1, depth)
  {
    hide WellFormed, HitsHere, Push, Ordered, VisitNode;
    OrderedFacts(v);
  }

  // ----- every hit there is -----

  function AllHits(m: Matcher, v: Json, path: string, field: Option<string>): seq<Hit>
    requires WellFormed(v)
    decreases v, 1, 0
  {
    OrderedFacts(v);
    HitsHere(m, v, path, field) + KidHits(m, v, path, 0)
  }

  function KidHits(m: Matcher, v: Json, path: string, i: nat): seq<Hit>
    requires WellFormed(v)
    decreases v, 0, |Ordered(v)| - i
  {
    OrderedFacts(v);
    if i >= |Ordered(v)| then []
    else
      AllHits(m, Ordered(v)[i].value, Push(path, Ordered(v)[i].key), Some(Ordered(v)[i].key)) + KidHits(m, v, path, i + 1)
  }

  lemma OpenKidHits(m: Matcher, v: Json, path: string, i: nat)
    requires WellFormed(v)
    ensures i >= |Ordered(v)| ==> KidHits(m, v, path, i) == []
    ensures i < |Ordered(v)| ==>
              WellFormed(Ordered(v)[i].value) && Ordered(v)[i].value < v &&
              KidHits(m, v, path, i) ==
              AllHits(m, Ordered(v)[i].value, Push(path, Ordered(v)[i].key), Some(Ordered(v)[i].key)) +
              KidHits(m, v, path, i + 1)
  {
    OrderedFacts(v);
  }

  lemma OpenAllHits(m: Matcher, v: Json, path: string, field: Option<string>)
    requires WellFormed(v)
    ensures AllHits(m, v, path, field) == HitsHere(m, v, path, field) + KidHits(m, v, path, 0)
  {
  }

  /** A traversal that does not say it was truncated found everything, and no
      traversal visits more nodes than it may. */
  lemma {:induction false} UntruncatedIsComplete(
    m: Matcher, l: Limits, p: Progress, v: Json, path: string, field: Option<string>, depth: nat)
    requires WellFormed(v)
    ensures var q := VisitNode(m, l, p, v, path, field, depth);
            && (p.truncated ==> q.truncated)
            && (!q.truncated ==> q.hits == p.hits + AllHits(m, v, path, field))
            && p.visited <= q.visited <= Max(p.visited, l.nodes)
    decreases v, 1, 0
  {
    hide WellFormed, VisitNode, VisitKids, AllHits, KidHits, HitsHere, Push;
    OpenNode(m, l, p, v, path, field, depth);
    if !(p.visited >= l.nodes || depth > l.depth) {
      var p1 := Progress(p.hits + HitsHere(m, v, path, field), p.visited + 1, p.truncated);
      KidsComplete(m, l, p1, v, path, 0, depth);
      OpenAllHits(m, v, path, field);
      assert p.hits + (HitsHere(m, v, path, field) + KidHits(m, v, path, 0)) == p1.hits + KidHits(m, v, path, 0);
    }
  }

  lemma {:induction false} KidsComplete(m: Matcher, l: Limits, p: Progress, v: Json, path: string, i: nat, depth: nat)
    requires WellFormed(v)
    ensures var q := VisitKids(m, l, p, v, path, i, depth);
            && (p.truncated ==> q.truncated)
            && (!q.truncated ==> q.hits == p.hits + KidHits(m, v, path, i))
            && p.visited <= q.visited <= Max(p.visited, l.nodes)
    decreases v, 0, |Ordered(v)| - i
  {
    hide WellFormed, VisitNode, VisitKids, AllHits, KidHits, HitsHere, Push, Ordered;
    OpenKids(m, l, p, v, path, i, depth);
    OpenKidHits(m, v, path, i);
    if i < |Ordered(v)| {
      var kid := Ordered(v)[i];
      UntruncatedIsComplete(m, l, p, kid.value, Push(path, kid.key), Some(kid.key), depth + 1);
      var q := VisitNode(m, l, p, kid.value, Push(path, kid.key), Some(kid.key), depth + 1);
      KidsComplete(m, l, q, v, path, i + 1, depth);
      var here := AllHits(m, kid.value, Push(path, kid.key), Some(kid.key));
      assert p.hits + (here + KidHits(m, v, path, i + 1)) == p.hits + here + KidHits(m, v, path, i + 1);
    }
  }

  /** Bounded or not, a traversal finds nothing but hits of the subtree. */
  lemma {:induction false} FoundAreHits(
    m: Matcher, l: Limits, p: Progress, v: Json, path: string, field: Option<string>, depth: nat, h: Hit)
    requires WellFormed(v) && h in VisitNode(m, l, p, v, path, field, depth).hits
    ensures h in p.hits || h in AllHits(m, v, path, field)
    decreases v, 1, 0
  {
    hide WellFormed, VisitNode, VisitKids, AllHits, KidHits, HitsHere, Push;
    OpenNode(m, l, p, v, path, field, depth);
    OpenAllHits(m, v, path, field);
    if !(p.visited >= l.nodes || depth > l.depth) {
      KidsFoundAreHits(m, l, Progress(p.hits + HitsHere(m, v, path, field), p.visited + 1, p.truncated), v, path, 0, depth, h);
    }
  }

  lemma {:induction false} KidsFoundAreHits(
    m: Matcher, l: Limits, p: Progress, v: Json, path: string, i: nat, depth: nat, h: Hit)
    requires WellFormed(v) && h in VisitKids(m, l, p, v, path, i, depth).hits
    ensures h in p.hits || h in KidHits(m, v, path, i)
    decreases v, 0, |Ordered(v)| - i
  {
    hide WellFormed, VisitNode, VisitKids, AllHits, KidHits, HitsHere, Push, Ordered;
    OpenKids(m, l, p, v, path, i, depth);
    OpenKidHits(m, v, path, i);
    if i < |Ordered(v)| {
      var kid := Ordered(v)[i];
      var q := VisitNode(m, l, p, kid.value, Push(path, kid.key), Some(kid.key), depth + 1);
      if h !in q.hits {
        KidsFoundAreHits(m, l, q, v, path, i + 1, depth, h);
      }
      if h in q.hits {
        FoundAreHits(m, l, p, kid.value, Push(path, kid.key), Some(kid.key), depth + 1, h);
      }
    }
  }

  // ----- when the flag is raised -----

  /** Nodes of a value. */
  function NodeCount(v: Json): (n: nat)
    requires WellFormed(v)
    ensures n > 0
    decreases v, 1, 0
  {
    1 + KidCount(v, 0)
  }

  function KidCount(v: Json, i: nat): (n: nat)
    requires WellFormed(v)
    ensures i < |Ordered(v)| ==> n > 0
    decreases v, 0, |Ordered(v)| - i
  {
    OrderedFacts(v);
    if i >= |Ordered(v)| then 0 else NodeCount(Ordered(v)[i].value) + KidCount(v, i + 1)
  }

  /** Some node lies deeper than the traversal goes. */
  predicate TooDeep(l: Limits, v: Json, depth: nat)
    requires WellFormed(v)
    decreases v, 1, 0
  {
    depth > l.depth || KidTooDeep(l, v, 0, depth)
  }

  predicate KidTooDeep(l: Limits, v: Json, i: nat, depth: nat)
    requires WellFormed(v)
    decreases v, 0, |Ordered(v)| - i
  {
    OrderedFacts(v);
    i < |Ordered(v)| && (TooDeep(l, Ordered(v)[i].value, depth + 1) || KidTooDeep(l, v, i + 1, depth))
  }

  lemma OpenKidCount(l: Limits, v: Json, i: nat, depth: nat)
    requires WellFormed(v)
    ensures i >= |Ordered(v)| ==> KidCount(v, i) == 0 && !KidTooDeep(l, v, i, depth)
    ensures i < |Ordered(v)| ==>
              WellFormed(Ordered(v)[i].value) && Ordered(v)[i].value < v && KidCount(v, i) > 0 &&
              KidCount(v, i) == NodeCount(Ordered(v)[i].value) + KidCount(v, i + 1) &&
              (KidTooDeep(l, v, i, depth) <==>
               TooDeep(l, Ordered(v)[i].value, depth + 1) || KidTooDeep(l, v, i + 1, depth))
  {
    hide WellFormed, Ordered;
    OrderedFacts(v);
  }

  /** A traversal with nodes to spare raises the flag exactly when some node is
      too deep or a descendant takes up the last of the nodes. */
  lemma {:induction false} FlagExact(
    m: Matcher, l: Limits, p: Progress, v: Json, path: string, field: Option<string>, depth: nat)
    requires WellFormed(v) && !p.truncated && p.visited < l.nodes
    ensures var q := VisitNode(m, l, p, v, path, field, depth);
            && (q.truncated <==> TooDeep(l, v, depth) || (NodeCount(v) > 1 && p.visited + NodeCount(v) >= l.nodes))
            && (!q.truncated ==> q.visited == p.visited + NodeCount(v))
    decreases v, 1, 0
  {
    hide WellFormed, VisitNode, VisitKids, HitsHere, Push, KidCount, KidTooDeep;
    OpenNode(m, l, p, v, path, field, depth);
    if depth <= l.depth {
      KidsFlagExact(m, l, Progress(p.hits + HitsHere(m, v, path, field), p.visited + 1, false), v, path, 0, depth);
      OpenKidCount(l, v, 0, depth);
    }
  }

  lemma {:induction false} KidsFlagExact(m: Matcher, l: Limits, p: Progress, v: Json, path: string, i: nat, depth: nat)
    requires WellFormed(v) && !p.truncated && p.visited <= l.nodes
    requires i < |Ordered(v)| || p.visited < l.nodes || i == 0
    ensures var q := VisitKids(m, l, p, v, path, i, depth);
            && (q.truncated <==>
                KidTooDeep(l, v, i, depth) || (i < |Ordered(v)| && p.visited + KidCount(v, i) >= l.nodes))
            && (!q.truncated ==> q.visited == p.visited + KidCount(v, i))
    decreases v, 0, |Ordered(v)| - i
  {
    hide WellFormed, VisitNode, VisitKids, HitsHere, Push, Ordered, NodeCount, KidCount, TooDeep, KidTooDeep;
    OpenKids(m, l, p, v, path, i, depth);
    OpenKidCount(l, v, i, depth);
    if i < |Ordered(v)| {
      var kid := Ordered(v)[i];
      var q := VisitNode(m, l, p, kid.value, Push(path, kid.key), Some(kid.key), depth + 1);
      if p.visited == l.nodes {
        OpenNode(m, l, p, kid.value, Push(path, kid.key), Some(kid.key), depth + 1);
      } else {
        FlagExact(m, l, p, kid.value, Push(path, kid.key), Some(kid.key), depth + 1);
        if q.visited < l.nodes {
          if q.truncated {
            KidsComplete(m, l, q, v, path, i + 1, depth);
          } else {
            KidsFlagExact(m, l, q, v, path, i + 1, depth);
            OpenKidCount(l, v, i + 1, depth);
          }
        }
      }
    }
  }

  /** Part of a value stays unvisited. */
  predicate OutOfReach(l: Limits, v: Json)
    requires WellFormed(v)
  {
    TooDeep(l, v, 0) || NodeCount(v) > l.nodes
  }

  /** A container finished with exactly the last node allowed. */
  predicate EndsOnLastNode(l: Limits, v: Json)
    requires WellFormed(v)
  {
    NodeCount(v) > 1 && NodeCount(v) == l.nodes
  }

  /** What the flag means on a whole search: something was out of reach, or a
      container was finished with exactly the last node allowed, where it is
      raised although nothing is missing. */
  lemma FlagMeaning(m: Matcher, l: Limits, v: Json, path: string)
    requires WellFormed(v) && l.nodes > 0
    ensures VisitNode(m, l, Progress([], 0, false), v, path, None, 0).truncated <==>
            OutOfReach(l, v) || EndsOnLastNode(l, v)
  {
    hide WellFormed, VisitNode, NodeCount, TooDeep;
    FlagExact(m, l, Progress([], 0, false), v, path, None, 0);
  }

  /** The false alarm on one nested value and two nodes. */
  lemma FlagRaisedOnWholeSearch(m: Matcher, depth: nat)
    requires depth > 0
    ensures var v, l := Arr([Null]), Limits(2, depth);
            !OutOfReach(l, v) && VisitNode(m, l, Progress([], 0, false), v, "", None, 0).truncated
  {
    var v := Arr([Null]);
    assert Ordered(v) == [Member(Dec(0), Null)];
    assert NodeCount(Null) == 1 && KidCount(v, 1) == 0;
    FlagMeaning(m, Limits(2, depth), v, "");
  }

  // ----- hits are the matching nodes, each once -----

  function LastField(s: seq<string>, field: Option<string>): Option<string>
  {
    if s == [] then field else Some(s[|s| - 1])
  }

  /** The hit a node at relative address `s` gives rise to. */
  function HitAt(m: Matcher, v: Json, path: string, field: Option<string>, s: seq<string>): seq<Hit>
  {
    match At(v, s)
    case None => []
    case Some(node) => HitsHere(m, node, path + Join(s), LastField(s, field))
  }

  lemma StepDown(m: Matcher, v: Json, path: string, field: Option<string>, i: nat, rest: seq<string>)
    requires WellFormed(v) && i < |Ordered(v)|
    ensures var kid := Ordered(v)[i];
            HitAt(m, v, path, field, [kid.key] + rest) == HitAt(m, kid.value, Push(path, kid.key), Some(kid.key), rest)
  {
    hide WellFormed, Join, HitsHere, Ordered, At, Push;
    OrderedFacts(v);
    var kid := Ordered(v)[i];
    AtBelow(v, kid.key, rest);
    UnderKey(path, kid.key, rest);
  }

  lemma AtBelow(v: Json, key: string, rest: seq<string>)
    ensures At(v, [key] + rest) == (var c := Lookup(Children(v), key); if c.None? then None else At(c.value, rest))
  {
    assert ([key] + rest)[1..] == rest;
  }

  /** Each hit stands at the address of a matching node. */
  lemma {:induction false} HitIsNode(m: Matcher, v: Json, path: string, field: Option<string>, h: Hit) returns (s: seq<string>)
    requires WellFormed(v) && h in AllHits(m, v, path, field)
    ensures h in HitAt(m, v, path, field, s) && h.path == path + Join(s)
    decreases v, 1, 0
  {
    hide WellFormed, AllHits, KidHits, Join, HitAt;
    OpenAllHits(m, v, path, field);
    if h in HitsHere(m, v, path, field) {
      s := [];
      HitAtRoot(m, v, path, field);
      JoinNothing(path);
    } else {
      s := KidHitIsNode(m, v, path, field, 0, h);
    }
  }

  lemma HitAtRoot(m: Matcher, v: Json, path: string, field: Option<string>)
    ensures HitAt(m, v, path, field, []) == HitsHere(m, v, path, field)
  {
    JoinNothing(path);
  }

  lemma {:induction false} KidHitIsNode(m: Matcher, v: Json, path: string, field: Option<string>, i: nat, h: Hit)
      returns (s: seq<string>)
    requires WellFormed(v) && h in KidHits(m, v, path, i)
    ensures s != [] && h in HitAt(m, v, path, field, s) && h.path == path + Join(s)
    ensures exists k :: i <= k < |Ordered(v)| && Ordered(v)[k].key == s[0]
    decreases v, 0, |Ordered(v)| - i
  {
    hide WellFormed, AllHits, KidHits, Join, HitAt, HitsHere, Push, Ordered;
    OpenKidHits(m, v, path, i);
    var kid := Ordered(v)[i];
    if h in AllHits(m, kid.value, Push(path, kid.key), Some(kid.key)) {
      var rest := HitIsNode(m, kid.value, Push(path, kid.key), Some(kid.key), h);
      s := [kid.key] + rest;
      StepDown(m, v, path, field, i, rest);
      UnderKey(path, kid.key, rest);
    } else {
      s := KidHitIsNode(m, v, path, field, i + 1, h);
    }
  }

  /** Each matching node has its hit. */
  lemma {:induction false} NodeHasHit(m: Matcher, v: Json, path: string, field: Option<string>, s: seq<string>, h: Hit)
    requires WellFormed(v) && h in HitAt(m, v, path, field, s)
    ensures h in AllHits(m, v, path, field)
    decreases |s|
  {
    hide WellFormed, AllHits, KidHits, Join, HitAt, Ordered, Push, HitsHere;
    OpenAllHits(m, v, path, field);
    if s == [] {
      HitAtRoot(m, v, path, field);
    } else {
      var key, rest := s[0], s[1..];
      assert s == [key] + rest;
      AddressStarts(m, v, path, field, s, h);
      var i := OrderedIndex(v, key);
      OrderedFacts(v);
      StepDown(m, v, path, field, i, rest);
      NodeHasHit(m, Ordered(v)[i].value, Push(path, key), Some(key), rest, h);
      KidHitIncluded(m, v, path, 0, i, h);
    }
  }

  lemma AddressStarts(m: Matcher, v: Json, path: string, field: Option<string>, s: seq<string>, h: Hit)
    requires s != [] && h in HitAt(m, v, path, field, s)
    ensures Lookup(Children(v), s[0]).Some?
  {
  }

  lemma {:induction false} KidHitIncluded(m: Matcher, v: Json, path: string, i: nat, k: nat, h: Hit)
    requires WellFormed(v) && i <= k < |Ordered(v)| && WellFormed(Ordered(v)[k].value)
    requires h in AllHits(m, Ordered(v)[k].value, Push(path, Ordered(v)[k].key), Some(Ordered(v)[k].key))
    ensures h in KidHits(m, v, path, i)
    decreases k - i
  {
    hide WellFormed, AllHits, KidHits, Push, Ordered;
    OpenKidHits(m, v, path, i);
    if i < k { KidHitIncluded(m, v, path, i + 1, k, h); }
  }

  function HitPath(h: Hit): string { h.path }

  /** No two hits share a path. */
  lemma {:induction false} HitsAreDistinct(m: Matcher, v: Json, path: string, field: Option<string>)
    requires WellFormed(v)
    ensures Distinct(AllHits(m, v, path, field), HitPath)
    decreases v, 1, 0
  {
    hide WellFormed, AllHits, KidHits, Join;
    OpenAllHits(m, v, path, field);
    KidHitsAreDistinct(m, v, path, 0);
    var here, below := HitsHere(m, v, path, field), KidHits(m, v, path, 0);
    forall a, b | a in here && b in below ensures a.path != b.path {
      var s := KidHitIsNode(m, v, path, field, 0, b);
      JoinNothing(path);
      RelativeDistinct(path, s, []);
    }
    DistinctAppend(here, below);
  }

  lemma DistinctAppend(a: seq<Hit>, b: seq<Hit>)
    requires Distinct(a, HitPath) && Distinct(b, HitPath)
    requires forall x, y :: x in a && y in b ==> x.path != y.path
    ensures Distinct(a + b, HitPath)
  {
    var all := a + b;
    forall i, j | 0 <= i < j < |all| ensures HitPath(all[i]) != HitPath(all[j]) {
      if i < |a| <= j {
        assert all[i] in a && all[j] in b;
      } else if j < |a| {
        assert HitPath(a[i]) != HitPath(a[j]);
      } else {
        assert HitPath(b[i - |a|]) != HitPath(b[j - |a|]);
      }
    }
  }

  lemma {:induction false} KidHitsAreDistinct(m: Matcher, v: Json, path: string, i: nat)
    requires WellFormed(v)
    ensures Distinct(KidHits(m, v, path, i), HitPath)
    decreases v, 0, |Ordered(v)| - i
  {
    hide WellFormed, AllHits, KidHits, Join, Push, HitAt, Ordered;
    OpenKidHits(m, v, path, i);
    if i < |Ordered(v)| {
      var kid := Ordered(v)[i];
      HitsAreDistinct(m, kid.value, Push(path, kid.key), Some(kid.key));
      KidHitsAreDistinct(m, v, path, i + 1);
      var here, rest := AllHits(m, kid.value, Push(path, kid.key), Some(kid.key)), KidHits(m, v, path, i + 1);
      OrderedFacts(v);
      forall a, b | a in here && b in rest ensures a.path != b.path {
        var s := HitIsNode(m, kid.value, Push(path, kid.key), Some(kid.key), a);
        var t := KidHitIsNode(m, v, path, None, i + 1, b);
        UnderKey(path, kid.key, s);
        assert ([kid.key] + s)[0] != t[0];
        RelativeDistinct(path, [kid.key] + s, t);
      }
      DistinctAppend(here, rest);
    }
  }

  // ----- the response -----

  datatype RankedHit = RankedHit(rank: nat, hit: Hit)

  datatype SearchResponse = SearchResponse(hits: seq<RankedHit>, omitted: bool, visited: nat)

  datatype SearchError = BadPointer(text: string) | PathNotFound(path: string)

  predicate HitLe(a: Hit, b: Hit)
  {
    if a.found.score != b.found.score then a.found.score > b.found.score
    else if a.path != b.path then StrLe(a.path, b.path)
    else StrLe(a.found.kind, b.found.kind)
  }

  lemma HitLeIsPreorder()
    ensures TotalPreorder(HitLe)
  {
    forall a: Hit, b: Hit ensures HitLe(a, b) || HitLe(b, a) {
      StrLeTotal(a.path, b.path);
      StrLeTotal(a.found.kind, b.found.kind);
    }
    forall a: Hit, b: Hit, c: Hit | HitLe(a, b) && HitLe(b, c) ensures HitLe(a, c) {
      StrLeTotal(a.path, b.path);
      if StrLe(a.path, b.path) && StrLe(b.path, c.path) { StrLeTransitive(a.path, b.path, c.path); }
      if StrLe(a.found.kind, b.found.kind) && StrLe(b.found.kind, c.found.kind) {
        StrLeTransitive(a.found.kind, b.found.kind, c.found.kind);
      }
    }
  }

  /** Every hit is a matching node in scope, best first, no node twice; with
      nothing omitted there is one for each matching node. Something is said to
      be omitted exactly when a node was out of reach, when there are more hits
      than the limit, or when the search ended on its last allowed node. */
  ghost predicate HonestResponse(m: Matcher, target: Json, scope: string, limit: nat, l: Limits, r: SearchResponse)
    requires WellFormed(target)
  {
    && (forall i :: 0 <= i < |r.hits| ==> r.hits[i].rank == i + 1)
    && (forall i, j :: 0 <= i < j < |r.hits| ==>
          HitLe(r.hits[i].hit, r.hits[j].hit) && r.hits[i].hit.path != r.hits[j].hit.path)
    && |r.hits| <= limit && r.visited <= l.nodes
    && (forall i :: 0 <= i < |r.hits| ==> IsNode(m, target, scope, r.hits[i].hit))
    && (!r.omitted ==> WholeTruth(m, target, scope, r.hits))
    && (r.omitted <==> OutOfReach(l, target) || EndsOnLastNode(l, target) || |AllHits(m, target, scope, None)| > limit)
  }

  /** Every matching node is listed. */
  ghost predicate WholeTruth(m: Matcher, target: Json, scope: string, hits: seq<RankedHit>)
  {
    (forall s, h :: h in HitAt(m, target, scope, None, s) ==> IsListed(hits, h))
  }

  ghost predicate IsNode(m: Matcher, target: Json, scope: string, h: Hit)
  {
    exists s :: h in HitAt(m, target, scope, None, s)
  }

  ghost predicate IsListed(hits: seq<RankedHit>, h: Hit)
  {
    exists i :: 0 <= i < |hits| && hits[i].hit == h
  }

  function Numbered(hs: seq<Hit>): (r: seq<RankedHit>)
    ensures |r| == |hs| && forall i :: 0 <= i < |r| ==> r[i] == RankedHit(i + 1, hs[i])
  {
    seq(|hs|, i requires 0 <= i < |hs| => RankedHit(i + 1, hs[i]))
  }

  method SearchPayload(m: Matcher, payload: Json, scope: string, limit: nat, maxNodes: nat, maxDepth: nat)
      returns (r: Result<SearchResponse, SearchError>)
    requires WellFormed(payload)
    ensures r.Ok? <==> Parse(scope).Some? && Get(payload, Parse(scope).value).Some?
    ensures r.Ok? ==>
              var target := Get(payload, Parse(scope).value).value;
              WellFormed(target) &&
              HonestResponse(m, target, scope, limit, Limits(Max(maxNodes, 1), maxDepth), r.value)
  {
    hide WellFormed, VisitNode, HonestResponse, Get, Parse, HitLe, Sort, Stands, Distinct;
    var resolved := Resolve(payload, scope);
    if resolved.Err? { return Err(BadPointer(scope)); }
    if resolved.value.None? { return Err(PathNotFound(scope)); }
    var target := resolved.value.value;
    WellFormedBelow(payload, Parse(scope).value);
    var l := Limits(Max(maxNodes, 1), maxDepth);
    var traversal := new SearchTraversal(m, l);
    traversal.Visit(target, scope, None, 0);
    var best := BestByPath(traversal.hits);
    var sorted := Sort(best, HitLe);
    var shown := sorted[..Min(limit, |sorted|)];
    var omitted := traversal.truncated || |sorted| > limit;
    r := Ok(SearchResponse(Numbered(shown), omitted, traversal.visited));
    ResponseIsHonest(m, target, scope, limit, l, traversal.View(), best, r.value);
  }

  /** A hit of the same path that scores at least as well. */
  ghost predicate Stands(best: seq<Hit>, h: Hit)
  {
    exists i :: 0 <= i < |best| && best[i].path == h.path && best[i].found.score >= h.found.score
  }

  /** At most one hit per path, the first of the best-scored ones. Paths never
      repeat, so this changes nothing but protects against it. */
  method BestByPath(hits: seq<Hit>) returns (best: seq<Hit>)
    ensures Distinct(best, HitPath)
    ensures forall h <- best :: h in hits
    ensures forall h <- hits :: Stands(best, h)
  {
    var chosen: map<string, Hit> := map[];
    for i := 0 to |hits|
      invariant forall p <- chosen :: chosen[p].path == p && chosen[p] in hits[..i]
      invariant forall h <- hits[..i] :: h.path in chosen && chosen[h.path].found.score >= h.found.score
    {
      var h := hits[i];
      assert hits[..i + 1] == hits[..i] + [h];
      if !(h.path in chosen && chosen[h.path].found.score >= h.found.score) {
        chosen := chosen[h.path := h];
      }
    }
    assert hits[..|hits|] == hits;
    best := [];
    var keys := chosen.Keys;
    while keys != {}
      invariant keys <= chosen.Keys
      invariant Distinct(best, HitPath)
      invariant forall h <- best :: h.path in chosen.Keys - keys && chosen[h.path] == h
      invariant forall p <- chosen.Keys - keys :: chosen[p] in best
      decreases keys
    {
      var p :| p in keys;
      best := best + [chosen[p]];
      keys := keys - {p};
    }
    forall h | h in hits ensures Stands(best, h) {
      assert chosen[h.path] in best;
      var i :| 0 <= i < |best| && best[i] == chosen[h.path];
    }
  }

  lemma ResponseIsHonest(
    m: Matcher, target: Json, scope: string, limit: nat, l: Limits, p: Progress, best: seq<Hit>, r: SearchResponse)
    requires WellFormed(target) && l.nodes > 0
    requires p == VisitNode(m, l, Progress([], 0, false), target, scope, None, 0)
    requires Distinct(best, HitPath) && (forall h <- best :: h in p.hits) && (forall h <- p.hits :: Stands(best, h))
    requires var sorted := Sort(best, HitLe);
             r == SearchResponse(Numbered(sorted[..Min(limit, |sorted|)]), p.truncated || |sorted| > limit, p.visited)
    ensures HonestResponse(m, target, scope, limit, l, r)
  {
    hide WellFormed, VisitNode, HitLe, Sort, HitAt, AllHits, Stands, WholeTruth, IsNode, OutOfReach, EndsOnLastNode;
    UntruncatedIsComplete(m, l, Progress([], 0, false), target, scope, None, 0);
    FlagMeaning(m, l, target, scope);
    var sorted := Sort(best, HitLe);
    SortContents(best, HitLe);
    SortedHits(best);
    forall i | 0 <= i < |r.hits| ensures IsNode(m, target, scope, r.hits[i].hit) {
      assert r.hits[i].hit == sorted[i] && sorted[i] in sorted;
      FoundAreHits(m, l, Progress([], 0, false), target, scope, None, 0, sorted[i]);
      EachIsNode(m, target, scope, sorted[i]);
    }
    if !p.truncated {
      assert p.hits == [] + AllHits(m, target, scope, None) == AllHits(m, target, scope, None);
      HitsAreDistinct(m, target, scope, None);
      BestIsEveryHit(p.hits, best);
    }
    if !r.omitted {
      assert sorted[..|sorted|] == sorted;
      AllHitsListed(m, target, scope, p.hits, best);
    }
  }

  lemma AllHitsListed(m: Matcher, target: Json, scope: string, hits: seq<Hit>, best: seq<Hit>)
    requires WellFormed(target) && hits == AllHits(m, target, scope, None)
    requires (forall h <- best :: h in hits) && (forall h <- hits :: Stands(best, h))
    ensures WholeTruth(m, target, scope, Numbered(Sort(best, HitLe)))
  {
    hide WellFormed, HitLe, Sort, HitAt, AllHits, Stands, IsListed;
    var listed := Numbered(Sort(best, HitLe));
    HitsAreDistinct(m, target, scope, None);
    forall s, h | h in HitAt(m, target, scope, None, s) ensures IsListed(listed, h) {
      NodeHasHit(m, target, scope, None, s, h);
      var i := EveryHitIsBest(hits, best, h);
      IsListedAt(listed, i);
    }
  }

  lemma EachIsNode(m: Matcher, target: Json, scope: string, h: Hit)
    requires WellFormed(target) && h in AllHits(m, target, scope, None)
    ensures IsNode(m, target, scope, h)
  {
    hide WellFormed, HitAt, AllHits;
    var s := HitIsNode(m, target, scope, None, h);
  }

  lemma IsListedAt(hits: seq<RankedHit>, i: nat)
    requires i < |hits|
    ensures IsListed(hits, hits[i].hit)
  {
  }

  lemma SortedHits(best: seq<Hit>)
    requires Distinct(best, HitPath)
    ensures var sorted := Sort(best, HitLe);
            forall i, j :: 0 <= i < j < |sorted| ==> HitLe(sorted[i], sorted[j]) && sorted[i].path != sorted[j].path
  {
    hide HitLe, Sort;
    HitLeIsPreorder();
    SortSorted(best, HitLe);
    SortDistinct(best, HitLe, HitPath);
    var sorted := Sort(best, HitLe);
    forall i, j | 0 <= i < j < |sorted| ensures HitLe(sorted[i], sorted[j]) && sorted[i].path != sorted[j].path {
      assert HitPath(sorted[i]) != HitPath(sorted[j]);
    }
  }

  /** When paths never repeat, the best hit of a path is its only one. */
  lemma EveryHitIsBest(hits: seq<Hit>, best: seq<Hit>, h: Hit) returns (i: nat)
    requires Distinct(hits, HitPath) && h in hits
    requires (forall k <- best :: k in hits) && Stands(best, h)
    ensures i < |Sort(best, HitLe)| && Sort(best, HitLe)[i] == h
  {
    hide HitLe, Sort;
    var k :| 0 <= k < |best| && best[k].path == h.path && best[k].found.score >= h.found.score;
    SamePathSameHit(hits, best[k], h);
    SortContents(best, HitLe);
    assert h in Sort(best, HitLe);
    i :| 0 <= i < |Sort(best, HitLe)| && Sort(best, HitLe)[i] == h;
  }

  /** When paths never repeat, keeping the best hit of each path keeps all. */
  lemma BestIsEveryHit(hits: seq<Hit>, best: seq<Hit>)
    requires Distinct(hits, HitPath) && Distinct(best, HitPath)
    requires (forall h <- best :: h in hits) && (forall h <- hits :: Stands(best, h))
    ensures |best| == |hits|
  {
    forall h | h in hits ensures h in best {
      var k :| 0 <= k < |best| && best[k].path == h.path && best[k].found.score >= h.found.score;
      SamePathSameHit(hits, best[k], h);
    }
    NotLonger(best, hits);
    NotLonger(hits, best);
  }

  lemma {:induction false} NotLonger(a: seq<Hit>, b: seq<Hit>)
    requires Distinct(a, HitPath) && forall h <- a :: h in b
    ensures |a| <= |b|
  {
    if a != [] {
      var front, last := a[..|a| - 1], a[|a| - 1];
      assert last in a;
      var k :| 0 <= k < |b| && b[k] == last;
      var others := b[..k] + b[k + 1..];
      forall h | h in front ensures h in others {
        var i :| 0 <= i < |front| && front[i] == h;
        assert HitPath(a[i]) != HitPath(a[|a| - 1]);
        assert a[i] in a;
        var j :| 0 <= j < |b| && b[j] == h;
        assert others[if j < k then j else j - 1] == h;
      }
      NotLonger(front, others);
    }
  }

  lemma SamePathSameHit(all: seq<Hit>, a: Hit, b: Hit)
    requires Distinct(all, HitPath) && a in all && b in all && a.path == b.path
    ensures a == b
  {
    var i :| 0 <= i < |all| && all[i] == a;
    var j :| 0 <= j < |all| && all[j] == b;
    assert i < j ==> HitPath(all[i]) != HitPath(all[j]);
    assert j < i ==> HitPath(all[j]) != HitPath(all[i]);
  }
}
