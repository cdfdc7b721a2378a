/** Content-directed lens rules: the wildcard scan with its two budgets, and the
    merge that keeps one finding per path. */
module LensScan {
  import opened Common
  import opened Json
  import opened Pointer
  import opened Sorting

  const LENS_RULE_MATCH_LIMIT: nat := 1_000
  const LENS_RULE_VISIT_BUDGET: nat := 200_000

  /** A rule: where it looks, and whether a value there matches (opaque). */
  datatype Rule = Rule(segments: seq<string>, matches: Json -> bool)

  datatype Leaf = Leaf(path: string, value: Json)

  // ----- every leaf the pattern resolves to, in document order -----

  function Leaves(v: Json, segments: seq<string>, path: string): seq<Leaf>
    decreases |segments|, 1, 0
  {
    if segments == [] then [Leaf(path, v)]
    else if segments[0] == "*" then LeavesBelow(Ordered(v), segments[1..], path)
    else
      match Child(v, segments[0])
      case None => []
      case Some(c) => Leaves(c, segments[1..], Push(path, segments[0]))
  }

  function LeavesBelow(ms: seq<Member>, segments: seq<string>, path: string): seq<Leaf>
    decreases |segments|, 2, |ms|
  {
    if ms == [] then []
    else Leaves(ms[0].value, segments, Push(path, ms[0].key)) + LeavesBelow(ms[1..], segments, path)
  }

  // ----- the budgeted scan over them -----

  datatype Progress = Progress(matches: seq<Leaf>, visited: nat)

  predicate Exhausted(p: Progress)
  {
    |p.matches| >= LENS_RULE_MATCH_LIMIT || p.visited >= LENS_RULE_VISIT_BUDGET
  }

  predicate Hits(scope: string, rule: Rule, leaf: Leaf)
  {
    IsWithin(scope, leaf.path) == Some(true) && rule.matches(leaf.value)
  }

  function OfferLeaf(scope: string, rule: Rule, p: Progress, leaf: Leaf): Progress
  {
    Progress(if Hits(scope, rule, leaf) then p.matches + [leaf] else p.matches, p.visited + 1)
  }

  /** Leaves are offered one by one until a budget is met. */
  function ScanLeaves(scope: string, rule: Rule, p: Progress, leaves: seq<Leaf>): Progress
    decreases |leaves|
  {
    if leaves == [] || Exhausted(p) then p
    else ScanLeaves(scope, rule, OfferLeaf(scope, rule, p, leaves[0]), leaves[1..])
  }

  lemma {:induction false} ScanAppend(scope: string, rule: Rule, p: Progress, a: seq<Leaf>, b: seq<Leaf>)
    ensures ScanLeaves(scope, rule, p, a + b) == ScanLeaves(scope, rule, ScanLeaves(scope, rule, p, a), b)
    decreases |a|
  {
    if a == [] {
      assert a + b == b;
    } else if !Exhausted(p) {
      assert (a + b)[1..] == a[1..] + b;
      ScanAppend(scope, rule, OfferLeaf(scope, rule, p, a[0]), a[1..], b);
    }
  }

  class RuleScan {
    const scope: string
    const rule: Rule
    var matches: seq<Leaf>
    var visited: nat

    constructor (scope: string, rule: Rule)
      ensures this.scope == scope && this.rule == rule && View() == Progress([], 0)
    {
      this.scope := scope;
      this.rule := rule;
      matches := [];
      visited := 0;
    }

    function View(): Progress
      reads this
    {
      Progress(matches, visited)
    }

    method Offer(path: string, value: Json)
      modifies this
      ensures View() == OfferLeaf(scope, rule, old(View()), Leaf(path, value))
    {
      visited := visited + 1;
      if IsWithin(scope, path) != Some(true) { return; }
      if !rule.matches(value) { return; }
      matches := matches + [Leaf(path, value)];
    }

    /** The recursive scan stops early exactly where the flat one does. */
    method ResolveRulePaths(value: Json, segments: seq<string>, path: string)
      modifies this
      ensures View() == ScanLeaves(scope, rule, old(View()), Leaves(value, segments, path))
      decreases |segments|, 1
    {
      hide Push, OfferLeaf, Ordered, IsWithin;
      if Exhausted(View()) { return; }
      if segments == [] {
        Offer(path, value);
        OneLeaf(scope, rule, old(View()), Leaf(path, value));
        return;
      }
      if segments[0] == "*" {
        ResolveBelow(Ordered(value), segments[1..], path);
      } else {
        var child := Child(value, segments[0]);
        if child.Some? {
          ResolveRulePaths(child.value, segments[1..], Push(path, segments[0]));
        }
      }
    }

    method ResolveBelow(ms: seq<Member>, segments: seq<string>, path: string)
      modifies this
      ensures View() == ScanLeaves(scope, rule, old(View()), LeavesBelow(ms, segments, path))
      decreases |segments|, 2
    {
      hide Push, ScanLeaves, LeavesBelow, Leaves;
      ghost var start := View();
      ghost var done: seq<Leaf> := [];
      assert ms[0..] == ms;
      ScanStops(scope, rule, start, []);
      for i := 0 to |ms|
        invariant View() == ScanLeaves(scope, rule, start, done)
        invariant done + LeavesBelow(ms[i..], segments, path) == LeavesBelow(ms, segments, path)
      {
        OpenLeaves(ms, i, segments, path);
        var childPath := Push(path, ms[i].key);
        ResolveRulePaths(ms[i].value, segments, childPath);
        ScanAppend(scope, rule, start, done, Leaves(ms[i].value, segments, childPath));
        done := done + Leaves(ms[i].value, segments, childPath);
        assert done + LeavesBelow(ms[i + 1..], segments, path) == LeavesBelow(ms, segments, path);
        if Exhausted(View()) {
          ScanAppend(scope, rule, start, done, LeavesBelow(ms[i + 1..], segments, path));
          ScanStops(scope, rule, View(), LeavesBelow(ms[i + 1..], segments, path));
          return;
        }
      }
      NoLeavesLeft(ms, segments, path);
      assert done + [] == done;
    }
  }

  lemma OneLeaf(scope: string, rule: Rule, p: Progress, leaf: Leaf)
    requires !Exhausted(p)
    ensures ScanLeaves(scope, rule, p, [leaf]) == OfferLeaf(scope, rule, p, leaf)
  {
    var after := OfferLeaf(scope, rule, p, leaf);
    assert [leaf][1..] == [];
    assert ScanLeaves(scope, rule, after, []) == after;
  }

  lemma OpenLeaves(ms: seq<Member>, i: nat, segments: seq<string>, path: string)
    requires i < |ms|
    ensures LeavesBelow(ms[i..], segments, path) ==
            Leaves(ms[i].value, segments, Push(path, ms[i].key)) + LeavesBelow(ms[i + 1..], segments, path)
  {
    assert ms[i..][0] == ms[i] && ms[i..][1..] == ms[i + 1..];
  }

  lemma NoLeavesLeft(ms: seq<Member>, segments: seq<string>, path: string)
    ensures LeavesBelow(ms[|ms|..], segments, path) == []
  {
  }

  // ----- what the scan reports -----

  function HitsAmong(scope: string, rule: Rule, leaves: seq<Leaf>): seq<Leaf>
  {
    if leaves == [] then []
    else (if Hits(scope, rule, leaves[0]) then [leaves[0]] else []) + HitsAmong(scope, rule, leaves[1..])
  }

  /** The matches are those of an initial stretch of the leaves, all of them
      unless a budget was met; neither budget is ever exceeded. */
  lemma {:induction false} ScanIsPrefix(scope: string, rule: Rule, p: Progress, leaves: seq<Leaf>) returns (n: nat)
    requires |p.matches| <= LENS_RULE_MATCH_LIMIT && p.visited <= LENS_RULE_VISIT_BUDGET
    ensures n <= |leaves|
    ensures var q := ScanLeaves(scope, rule, p, leaves);
            && q.matches == p.matches + HitsAmong(scope, rule, leaves[..n])
            && q.visited == p.visited + n
            && (n < |leaves| ==> Exhausted(q))
            && |q.matches| <= LENS_RULE_MATCH_LIMIT && q.visited <= LENS_RULE_VISIT_BUDGET
    decreases |leaves|
  {
    hide Hits, ScanLeaves, HitsAmong;
    if leaves == [] || Exhausted(p) {
      n := 0;
      assert leaves[..0] == [];
      ScanStops(scope, rule, p, leaves);
      OpenHits(scope, rule, []);
    } else {
      ScanSteps(scope, rule, p, leaves);
      var rest := ScanIsPrefix(scope, rule, OfferLeaf(scope, rule, p, leaves[0]), leaves[1..]);
      n := rest + 1;
      assert leaves[..n][1..] == leaves[1..][..rest] && leaves[..n][0] == leaves[0];
      OpenHits(scope, rule, leaves[..n]);
    }
  }

  lemma ScanStops(scope: string, rule: Rule, p: Progress, leaves: seq<Leaf>)
    requires leaves == [] || Exhausted(p)
    ensures ScanLeaves(scope, rule, p, leaves) == p
  {
  }

  lemma ScanSteps(scope: string, rule: Rule, p: Progress, leaves: seq<Leaf>)
    requires leaves != [] && !Exhausted(p)
    ensures ScanLeaves(scope, rule, p, leaves) ==
            ScanLeaves(scope, rule, OfferLeaf(scope, rule, p, leaves[0]), leaves[1..])
  {
  }

  lemma OpenHits(scope: string, rule: Rule, leaves: seq<Leaf>)
    ensures HitsAmong(scope, rule, leaves) ==
            if leaves == [] then []
            else (if Hits(scope, rule, leaves[0]) then [leaves[0]] else []) + HitsAmong(scope, rule, leaves[1..])
  {
  }

  lemma {:induction false} HitsFilter(scope: string, rule: Rule, leaves: seq<Leaf>, leaf: Leaf)
    ensures leaf in HitsAmong(scope, rule, leaves) <==> leaf in leaves && Hits(scope, rule, leaf)
  {
    hide IsWithin;
    if leaves != [] {
      HitsFilter(scope, rule, leaves[1..], leaf);
      assert leaves == [leaves[0]] + leaves[1..];
    }
  }

  lemma {:induction false} HitsAppend(scope: string, rule: Rule, a: seq<Leaf>, b: seq<Leaf>)
    ensures HitsAmong(scope, rule, a + b) == HitsAmong(scope, rule, a) + HitsAmong(scope, rule, b)
  {
    hide Hits;
    if a == [] {
      assert a + b == b;
    } else {
      assert (a + b)[1..] == a[1..] + b;
      HitsAppend(scope, rule, a[1..], b);
    }
  }

  // ----- leaves are the instances of the pattern -----

  /** `s` instantiates the pattern in `v`: a wildcard stands for the name of an
      actual child, any other segment for itself. */
  function Instance(v: Json, segments: seq<string>, s: seq<string>): Option<Json>
    decreases |segments|
  {
    if segments == [] then (if s == [] then Some(v) else None)
    else if s == [] then None
    else if segments[0] == "*" then
      (match Lookup(Children(v), s[0])
       case None => None
       case Some(c) => Instance(c, segments[1..], s[1..]))
    else if s[0] != segments[0] then None
    else
      match Child(v, s[0])
      case None => None
      case Some(c) => Instance(c, segments[1..], s[1..])
  }

  /** An instance resolves, as a pointer, to the value it was found with. */
  lemma {:induction false} InstanceResolves(v: Json, segments: seq<string>, s: seq<string>)
    requires WellFormed(v) && Instance(v, segments, s).Some?
    ensures |s| == |segments| && Get(v, s) == Instance(v, segments, s)
    ensures forall i :: 0 <= i < |s| ==> segments[i] == "*" || s[i] == segments[i]
    decreases |segments|
  {
    hide WellFormed, Instance, Get, Child;
    if segments == [] {
      InstanceOfNothing(v, s);
      GetNothing(v);
    } else {
      InstanceStep(v, segments, s);
      StepIsWellFormed(v, s[0]);
      InstanceResolves(Child(v, s[0]).value, segments[1..], s[1..]);
      GetStep(v, s);
      forall i | 0 <= i < |s| ensures segments[i] == "*" || s[i] == segments[i] {
        if i > 0 { assert segments[1..][i - 1] == segments[i] && s[1..][i - 1] == s[i]; }
      }
    }
  }

  lemma GetNothing(v: Json)
    ensures Get(v, []) == Some(v)
  {
  }

  lemma GetStep(v: Json, s: seq<string>)
    requires s != [] && Child(v, s[0]).Some?
    ensures Get(v, s) == Get(Child(v, s[0]).value, s[1..])
  {
    hide Child;
  }

  lemma InstanceStep(v: Json, segments: seq<string>, s: seq<string>)
    requires WellFormed(v) && segments != [] && Instance(v, segments, s).Some?
    ensures s != [] && (segments[0] == "*" || s[0] == segments[0]) && Child(v, s[0]).Some?
    ensures Instance(v, segments, s) == Instance(Child(v, s[0]).value, segments[1..], s[1..])
  {
    hide WellFormed, Child;
    if segments[0] == "*" {
      var i := LookupIndex(Children(v), s[0]);
      ChildOfMember(v, i);
    }
  }

  lemma StepIsWellFormed(v: Json, segment: string)
    requires WellFormed(v) && Child(v, segment).Some?
    ensures WellFormed(Child(v, segment).value)
  {
    var i := MemberOfChild(v, segment);
    ChildrenDistinct(v);
  }

  lemma InstanceCons(v: Json, segments: seq<string>, key: string, rest: seq<string>)
    requires segments != []
    ensures Instance(v, segments, [key] + rest) ==
            (var c := if segments[0] == "*" then Lookup(Children(v), key)
                      else if key == segments[0] then Child(v, key) else None;
             if c.None? then None else Instance(c.value, segments[1..], rest))
  {
    assert ([key] + rest)[1..] == rest;
  }

  /** Soundness: every leaf is an instance of the pattern. */
  lemma {:induction false} LeafIsInstance(v: Json, segments: seq<string>, path: string, leaf: Leaf) returns (s: seq<string>)
    requires WellFormed(v) && leaf in Leaves(v, segments, path)
    ensures leaf.path == path + Join(s) && Instance(v, segments, s) == Some(leaf.value)
    decreases |segments|, 1, 0
  {
    hide WellFormed, Push, Join, Instance;
    if segments == [] {
      s := [];
      JoinNothing(path);
      InstanceOfNothing(v, s);
    } else {
      var key, c: Json, rest: seq<string>;
      if segments[0] == "*" {
        OrderedFacts(v);
        var j;
        j, rest := LeafBelow(Ordered(v), segments[1..], path, leaf);
        key, c := Ordered(v)[j].key, Ordered(v)[j].value;
      } else {
        key := segments[0];
        c := Child(v, key).value;
        StepIsWellFormed(v, key);
        rest := LeafIsInstance(c, segments[1..], Push(path, key), leaf);
      }
      s := [key] + rest;
      UnderKey(path, key, rest);
      InstanceCons(v, segments, key, rest);
    }
  }

  lemma InstanceOfNothing(v: Json, s: seq<string>)
    ensures Instance(v, [], s) == if s == [] then Some(v) else None
  {
  }

  lemma {:induction false} LeafBelow(ms: seq<Member>, segments: seq<string>, path: string, leaf: Leaf)
      returns (j: nat, rest: seq<string>)
    requires forall i :: 0 <= i < |ms| ==> WellFormed(ms[i].value)
    requires leaf in LeavesBelow(ms, segments, path)
    ensures j < |ms| && leaf.path == Push(path, ms[j].key) + Join(rest)
    ensures Instance(ms[j].value, segments, rest) == Some(leaf.value)
    decreases |segments|, 2, |ms|
  {
    hide WellFormed, Push, Join, Instance, Leaves;
    if leaf in Leaves(ms[0].value, segments, Push(path, ms[0].key)) {
      j := 0;
      rest := LeafIsInstance(ms[0].value, segments, Push(path, ms[0].key), leaf);
    } else {
      j, rest := LeafBelow(ms[1..], segments, path, leaf);
      j := j + 1;
    }
  }

  /** Completeness: every instance of the pattern is a leaf. */
  lemma {:induction false} InstanceIsLeaf(v: Json, segments: seq<string>, path: string, s: seq<string>)
    requires WellFormed(v) && Instance(v, segments, s).Some?
    ensures Leaf(path + Join(s), Instance(v, segments, s).value) in Leaves(v, segments, path)
    decreases |segments|
  {
    hide WellFormed, Push, Join, Instance;
    if segments == [] {
      JoinNothing(path);
      InstanceShape(v, segments, s);
    } else {
      InstanceShape(v, segments, s);
      var key, rest := s[0], s[1..];
      assert s == [key] + rest;
      InstanceCons(v, segments, key, rest);
      UnderKey(path, key, rest);
      if segments[0] == "*" {
        var j := OrderedIndex(v, key);
        OrderedFacts(v);
        InstanceIsLeaf(Ordered(v)[j].value, segments[1..], Push(path, key), rest);
        BelowContains(Ordered(v), j, segments[1..], path, Leaf(path + Join(s), Instance(v, segments, s).value));
      } else {
        StepIsWellFormed(v, key);
        InstanceIsLeaf(Child(v, key).value, segments[1..], Push(path, key), rest);
      }
    }
  }

  lemma InstanceShape(v: Json, segments: seq<string>, s: seq<string>)
    requires Instance(v, segments, s).Some?
    ensures s == [] <==> segments == []
    ensures segments == [] ==> Instance(v, segments, s) == Some(v)
  {
  }

  lemma {:induction false} BelowContains(ms: seq<Member>, j: nat, segments: seq<string>, path: string, leaf: Leaf)
    requires j < |ms| && leaf in Leaves(ms[j].value, segments, Push(path, ms[j].key))
    ensures leaf in LeavesBelow(ms, segments, path)
  {
    hide Push, Leaves;
    if j > 0 {
      BelowContains(ms[1..], j - 1, segments, path, leaf);
    }
  }

  /** The whole claim for one rule over one payload. */
  ghost predicate ScanReport(payload: Json, scope: string, rule: Rule, p: Progress)
  {
    // Sound: each match is a real node in scope that fits the pattern and matches.
    && (forall m <- p.matches ::
          Parse(m.path).Some? && Get(payload, Parse(m.path).value) == Some(m.value) &&
          Instance(payload, rule.segments, Parse(m.path).value) == Some(m.value) && Hits(scope, rule, m))
    // Bounded, and a prefix in document order of all there are.
    && |p.matches| <= LENS_RULE_MATCH_LIMIT && p.visited <= LENS_RULE_VISIT_BUDGET
    && p.matches <= HitsAmong(scope, rule, Leaves(payload, rule.segments, []))
    // Complete unless exhausted.
    && (!Exhausted(p) ==>
          forall s | Instance(payload, rule.segments, s).Some? ::
            var leaf := Leaf(Join(s), Instance(payload, rule.segments, s).value);
            Hits(scope, rule, leaf) ==> leaf in p.matches)
  }

  method ScanRule(payload: Json, scope: string, rule: Rule) returns (p: Progress)
    requires WellFormed(payload)
    ensures ScanReport(payload, scope, rule, p)
  {
    hide ScanReport, WellFormed;
    var scan := new RuleScan(scope, rule);
    scan.ResolveRulePaths(payload, rule.segments, []);
    p := scan.View();
    ScanIsReport(payload, scope, rule);
  }

  lemma ScanIsReport(payload: Json, scope: string, rule: Rule)
    requires WellFormed(payload)
    ensures ScanReport(payload, scope, rule, ScanLeaves(scope, rule, Progress([], 0), Leaves(payload, rule.segments, [])))
  {
    hide WellFormed, Hits, Leaves, Join, Instance, Get, Parse, ScanLeaves, HitsAmong;
    var leaves := Leaves(payload, rule.segments, []);
    var n := ScanIsPrefix(scope, rule, Progress([], 0), leaves);
    var p := ScanLeaves(scope, rule, Progress([], 0), leaves);
    assert leaves == leaves[..n] + leaves[n..];
    HitsAppend(scope, rule, leaves[..n], leaves[n..]);
    assert [] + HitsAmong(scope, rule, leaves[..n]) == HitsAmong(scope, rule, leaves[..n]);
    forall m | m in p.matches
      ensures Parse(m.path).Some? && Get(payload, Parse(m.path).value) == Some(m.value) &&
              Instance(payload, rule.segments, Parse(m.path).value) == Some(m.value) && Hits(scope, rule, m)
    {
      HitsFilter(scope, rule, leaves[..n], m);
      assert m in leaves;
      var s := LeafIsInstance(payload, rule.segments, [], m);
      assert [] + Join(s) == Join(s);
      ParseJoin(s);
      InstanceResolves(payload, rule.segments, s);
    }
    if !Exhausted(p) {
      assert leaves[..n] == leaves;
      forall s | Instance(payload, rule.segments, s).Some?
        ensures var leaf := Leaf(Join(s), Instance(payload, rule.segments, s).value);
                Hits(scope, rule, leaf) ==> leaf in p.matches
      {
        InstanceIsLeaf(payload, rule.segments, [], s);
        assert [] + Join(s) == Join(s);
        HitsFilter(scope, rule, leaves, Leaf(Join(s), Instance(payload, rule.segments, s).value));
      }
    }
  }

  // ----- one diagnosis per path -----

  /** What ranking looks at; severity and goal affinities are opaque weights. */
  datatype LensFinding = LensFinding(
    path: string,
    kind: string,
    confidence: real,
    fromLens: bool,
    severity: int,
    kindAffinity: real,
    wordAffinity: real)

  function PathOf(f: LensFinding): string { f.path }

  /** Confidence first, then severity; the goal only orders equal evidence. */
  predicate LensLe(a: LensFinding, b: LensFinding)
  {
    if a.confidence != b.confidence then a.confidence > b.confidence
    else if a.severity != b.severity then a.severity > b.severity
    else if a.kindAffinity != b.kindAffinity then a.kindAffinity > b.kindAffinity
    else if a.wordAffinity != b.wordAffinity then a.wordAffinity > b.wordAffinity
    else if a.path != b.path then StrLe(a.path, b.path)
    else StrLe(a.kind, b.kind)
  }

  lemma LensLeIsPreorder()
    ensures TotalPreorder(LensLe)
  {
    forall a: LensFinding, b: LensFinding ensures LensLe(a, b) || LensLe(b, a) {
      StrLeTotal(a.path, b.path);
      StrLeTotal(a.kind, b.kind);
    }
    forall a: LensFinding, b: LensFinding, c: LensFinding | LensLe(a, b) && LensLe(b, c) ensures LensLe(a, c) {
      StrLeTotal(a.path, b.path);
      if StrLe(a.path, b.path) && StrLe(b.path, c.path) { StrLeTransitive(a.path, b.path, c.path); }
      if StrLe(a.kind, b.kind) && StrLe(b.kind, c.kind) { StrLeTransitive(a.kind, b.kind, c.kind); }
    }
  }

  /** `kept` wins its path: nothing there is more confident, and a lens finding
      as confident as it means it is a lens finding itself. */
  ghost predicate Wins(fs: seq<LensFinding>, kept: LensFinding)
  {
    && kept in fs
    && forall f <- fs | f.path == kept.path ::
         f.confidence <= kept.confidence && (f.confidence == kept.confidence && f.fromLens ==> kept.fromLens)
  }

  /** One winner for each path, in ranking order. */
  ghost predicate IsMerge(fs: seq<LensFinding>, all: seq<LensFinding>)
  {
    && Sorted(all, LensLe) && Distinct(all, PathOf)
    && (forall f <- all :: Wins(fs, f))
    && (forall f <- fs :: f.path in Paths(all))
  }

  function Paths(all: seq<LensFinding>): set<string> { set f | f in all :: f.path }

  method MergeByPath(fs: seq<LensFinding>, limit: nat) returns (out: seq<LensFinding>)
    ensures exists all :: IsMerge(fs, all) && out == all[..Min(limit, |all|)]
  {
    hide LensLe, Sort;
    var best: map<string, LensFinding> := map[];
    for i := 0 to |fs|
      invariant forall p <- best :: best[p].path == p && Wins(fs[..i], best[p])
      invariant forall f <- fs[..i] :: f.path in best
    {
      var f := fs[i];
      assert fs[..i + 1] == fs[..i] + [f];
      if !(f.path in best &&
           (best[f.path].confidence > f.confidence ||
            (best[f.path].confidence == f.confidence && best[f.path].fromLens))) {
        best := best[f.path := f];
      }
    }
    assert fs[..|fs|] == fs;
    var all := SortedBest(best);
    out := all[..Min(limit, |all|)];
    forall f | f in fs ensures f.path in Paths(all) {
      assert best[f.path] in all;
    }
    assert IsMerge(fs, all);
  }

  /** The winners in ranking order. */
  method SortedBest(best: map<string, LensFinding>) returns (all: seq<LensFinding>)
    requires forall p <- best :: best[p].path == p
    ensures Sorted(all, LensLe) && Distinct(all, PathOf)
    ensures forall f <- all :: f.path in best && best[f.path] == f
    ensures forall p <- best :: best[p] in all
  {
    hide LensLe, Sort;
    var values: seq<LensFinding> := [];
    var keys := best.Keys;
    while keys != {}
      invariant keys <= best.Keys
      invariant Distinct(values, PathOf)
      invariant forall v <- values :: v.path in best.Keys - keys && best[v.path] == v
      invariant forall p <- best.Keys - keys :: best[p] in values
      decreases keys
    {
      var p :| p in keys;
      values := values + [best[p]];
      keys := keys - {p};
    }
    SortContents(values, LensLe);
    LensLeIsPreorder();
    SortSorted(values, LensLe);
    SortDistinct(values, LensLe, PathOf);
    all := Sort(values, LensLe);
  }
}
