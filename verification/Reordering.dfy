/** Findings and the order of object members. Within the node budget the order
    in which an object lists its members never shows in the findings; beyond it,
    it decides what is found at all. */
module Reordering {
  import opened Common
  import opened Json
  import opened Pointer
  import opened Text
  import opened Findings
  import opened RunSignals
  import opened Ranking
  import opened Absence

  // ----- values that differ in member order only -----

  predicate Alike(a: Json, b: Json)
  {
    WellFormed(a) && WellFormed(b) && Equivalent(a, b)
  }

  function KeySet(ms: seq<Member>): set<string>
  {
    set m | m in ms :: m.key
  }

  lemma {:induction false} KeySetSize(ms: seq<Member>)
    requires DistinctKeys(ms)
    ensures |KeySet(ms)| == |ms|
  {
    if ms != [] {
      var front, last := ms[..|ms| - 1], ms[|ms| - 1];
      KeySetSize(front);
      assert ms == front + [last];
      assert KeySet(ms) == KeySet(front) + {last.key};
      assert last.key !in KeySet(front);
    }
  }

  /** As many keys, all of them known to the other side: the same keys. */
  lemma SameKeys(ms: seq<Member>, ns: seq<Member>)
    requires DistinctKeys(ms) && DistinctKeys(ns) && |ms| == |ns|
    requires forall i :: 0 <= i < |ms| ==> Lookup(ns, ms[i].key).Some?
    ensures forall i :: 0 <= i < |ns| ==> Lookup(ms, ns[i].key).Some?
  {
    KeySetSize(ms);
    KeySetSize(ns);
    forall k | k in KeySet(ms) ensures k in KeySet(ns) {
      var i :| 0 <= i < |ms| && ms[i].key == k;
    }
    SubsetOfSameSize(KeySet(ms), KeySet(ns));
    forall i | 0 <= i < |ns| ensures Lookup(ms, ns[i].key).Some? {
      assert ns[i].key in KeySet(ns);
      var j :| 0 <= j < |ms| && ms[j].key == ns[i].key;
    }
  }

  lemma SubsetOfSameSize(a: set<string>, b: set<string>)
    requires a <= b && |a| == |b|
    ensures a == b
  {
    assert b == a + (b - a);
    assert |b - a| == 0;
  }

  lemma {:induction false} AlikeSymmetric(a: Json, b: Json)
    requires Alike(a, b)
    ensures Alike(b, a)
    decreases a
  {
    if a.Arr? {
      forall i | 0 <= i < |b.items| ensures Equivalent(b.items[i], a.items[i]) { AlikeSymmetric(a.items[i], b.items[i]); }
    } else if a.Obj? {
      SameKeys(a.members, b.members);
      forall i | 0 <= i < |b.members| ensures Equivalent(b.members[i].value, Lookup(a.members, b.members[i].key).value) {
        var j := LookupIndex(a.members, b.members[i].key);
        LookupAt(b.members, i);
        AlikeSymmetric(a.members[j].value, b.members[i].value);
      }
    }
  }

  lemma AlikeKinds(a: Json, b: Json)
    requires Alike(a, b)
    ensures a.Obj? == b.Obj? && a.Arr? == b.Arr? && |Children(a)| == |Children(b)|
    ensures !IsContainer(a) ==> a == b
  {
  }

  /** Each child has its counterpart under the same key. */
  lemma AlikeChild(a: Json, b: Json, i: nat) returns (j: nat)
    requires Alike(a, b) && i < |Children(a)|
    ensures j < |Children(b)| && Children(b)[j].key == Children(a)[i].key
    ensures Alike(Children(a)[i].value, Children(b)[j].value)
  {
    ChildrenDistinct(a);
    ChildrenDistinct(b);
    if a.Arr? { j := i; } else { j := LookupIndex(b.members, a.members[i].key); }
  }

  lemma AlikeField(a: Json, b: Json, key: string)
    requires Alike(a, b)
    ensures Field(a, key).Some? == Field(b, key).Some?
    ensures Field(a, key).Some? ==> Alike(Field(a, key).value, Field(b, key).value)
  {
    hide WellFormed, Equivalent;
    AlikeKinds(a, b);
    if Field(a, key).Some? { FieldMatches(a, b, key); }
    if Field(b, key).Some? {
      AlikeSymmetric(a, b);
      FieldMatches(b, a, key);
    }
  }

  lemma FieldMatches(a: Json, b: Json, key: string)
    requires Alike(a, b) && Field(a, key).Some?
    ensures Field(b, key).Some? && Alike(Field(a, key).value, Field(b, key).value)
  {
    var i := LookupIndex(a.members, key);
    LookupAt(a.members, i);
  }

  lemma AlikeText(a: Json, b: Json, key: string)
    requires Alike(a, b)
    ensures FieldStr(a, key) == FieldStr(b, key)
    ensures forall flag :: Says(a, key, flag) <==> Says(b, key, flag)
  {
    AlikeField(a, b, key);
    if Field(a, key).Some? { AlikeKinds(Field(a, key).value, Field(b, key).value); }
  }

  // ----- the cost does not depend on the order -----

  function SumCost(ms: seq<Member>): nat
  {
    if ms == [] then 0 else Cost(ms[0].value) + SumCost(ms[1..])
  }

  lemma {:induction false} KidsCostIsSum(v: Json, i: nat)
    requires i <= |Children(v)|
    ensures KidsCost(v, i) == SumCost(Children(v)[i..])
    decreases |Children(v)| - i
  {
    hide Cost;
    if i < |Children(v)| {
      KidsCostIsSum(v, i + 1);
      assert Children(v)[i..][1..] == Children(v)[i + 1..];
    }
  }

  lemma {:induction false} SumWithout(ms: seq<Member>, j: nat)
    requires j < |ms|
    ensures SumCost(ms) == Cost(ms[j].value) + SumCost(ms[..j] + ms[j + 1..])
  {
    hide Cost;
    var others := ms[..j] + ms[j + 1..];
    if j == 0 {
      assert others == ms[1..];
    } else {
      SumWithout(ms[1..], j - 1);
      assert others[1..] == ms[1..][..j - 1] + ms[1..][j..];
      assert others[0] == ms[0];
    }
  }

  lemma NoCost()
    ensures SumCost([]) == 0
  {
  }

  lemma {:induction false} SumMatches(ms: seq<Member>, ns: seq<Member>)
    requires DistinctKeys(ms) && DistinctKeys(ns) && |ms| == |ns|
    requires forall m <- ms :: exists n <- ns :: n.key == m.key && Cost(n.value) == Cost(m.value)
    ensures SumCost(ms) == SumCost(ns)
  {
    hide Cost, SumCost;
    if ms == [] {
      NoCost();
    } else {
      assert ms[0] in ms;
      SumWithout(ms, 0);
      assert ms[..0] + ms[1..] == ms[1..];
      var n :| n in ns && n.key == ms[0].key && Cost(n.value) == Cost(ms[0].value);
      var j :| 0 <= j < |ns| && ns[j] == n;
      SumWithout(ns, j);
      var others := ns[..j] + ns[j + 1..];
      forall m | m in ms[1..] ensures exists o <- others :: o.key == m.key && Cost(o.value) == Cost(m.value) {
        var o :| o in ns && o.key == m.key && Cost(o.value) == Cost(m.value);
        assert o.key != ms[0].key;
        assert o in others;
      }
      SumMatches(ms[1..], others);
    }
  }

  lemma {:induction false} CostIgnoresOrder(a: Json, b: Json)
    requires Alike(a, b)
    ensures Cost(a) == Cost(b)
    decreases a
  {
    hide WellFormed, Equivalent, KidsCost, SumCost;
    ChildrenDistinct(a);
    ChildrenDistinct(b);
    AlikeKinds(a, b);
    AlikeText(a, b, "text");
    forall m | m in Children(a) ensures exists n <- Children(b) :: n.key == m.key && Cost(n.value) == Cost(m.value) {
      var i :| 0 <= i < |Children(a)| && Children(a)[i] == m;
      var j := AlikeChild(a, b, i);
      CostIgnoresOrder(m.value, Children(b)[j].value);
      assert Children(b)[j] in Children(b);
    }
    SumMatches(Children(a), Children(b));
    KidsCostIsSum(a, 0);
    KidsCostIsSum(b, 0);
    assert Children(a)[0..] == Children(a) && Children(b)[0..] == Children(b);
  }

  // ----- candidates path by path -----

  /** The same candidate but for the order of members inside its values. */
  predicate LikeCandidate(x: Candidate, y: Candidate)
  {
    && x.path == y.path && x.signal == y.signal && x.line == y.line
    && Alike(x.value, y.value)
    && x.context.Some? == y.context.Some?
    && (x.context.Some? ==> Alike(x.context.value, y.context.value))
  }

  predicate LikeAll(xs: seq<Candidate>, ys: seq<Candidate>)
  {
    |xs| == |ys| && forall i :: 0 <= i < |xs| ==> LikeCandidate(xs[i], ys[i])
  }

  lemma LikeAppend(a: seq<Candidate>, b: seq<Candidate>, x: seq<Candidate>, y: seq<Candidate>)
    requires LikeAll(a, x) && LikeAll(b, y)
    ensures LikeAll(a + b, x + y)
  {
    hide LikeCandidate;
  }

  function AtPath(cs: seq<Candidate>, path: string): seq<Candidate>
  {
    if cs == [] then []
    else
      var n := |cs| - 1;
      AtPath(cs[..n], path) + (if cs[n].path == path then [cs[n]] else [])
  }

  lemma AtPathStep(cs: seq<Candidate>, x: Candidate, path: string)
    ensures AtPath(cs + [x], path) == AtPath(cs, path) + (if x.path == path then [x] else [])
  {
    assert (cs + [x])[..|cs|] == cs;
  }

  lemma {:induction false} AtPathAppend(a: seq<Candidate>, b: seq<Candidate>, path: string)
    ensures AtPath(a + b, path) == AtPath(a, path) + AtPath(b, path)
  {
    hide AtPath;
    if b == [] {
      NoneAtPath(b, path);
      assert a + b == a;
    } else {
      var front, last := b[..|b| - 1], b[|b| - 1];
      AtPathAppend(a, front, path);
      AtPathStep(a + front, last, path);
      AtPathStep(front, last, path);
      assert b == front + [last] && a + b == (a + front) + [last];
    }
  }

  lemma {:induction false} NoneAtPath(cs: seq<Candidate>, path: string)
    requires forall x <- cs :: x.path != path
    ensures AtPath(cs, path) == []
  {
    if cs != [] { NoneAtPath(cs[..|cs| - 1], path); }
  }

  /** At every path the same candidates in the same order. */
  ghost predicate SameByPath(xs: seq<Candidate>, ys: seq<Candidate>)
  {
    forall path :: LikeAll(AtPath(xs, path), AtPath(ys, path))
  }

  lemma SameByPathAppend(a: seq<Candidate>, b: seq<Candidate>, x: seq<Candidate>, y: seq<Candidate>)
    requires SameByPath(a, x) && SameByPath(b, y)
    ensures SameByPath(a + b, x + y)
  {
    hide LikeAll;
    forall path ensures LikeAll(AtPath(a + b, path), AtPath(x + y, path)) {
      AtPathAppend(a, b, path);
      AtPathAppend(x, y, path);
      LikeAppend(AtPath(a, path), AtPath(b, path), AtPath(x, path), AtPath(y, path));
    }
  }

  lemma {:induction false} LikeAllAtPath(xs: seq<Candidate>, ys: seq<Candidate>, path: string)
    requires LikeAll(xs, ys)
    ensures LikeAll(AtPath(xs, path), AtPath(ys, path))
  {
    if xs != [] {
      var n := |xs| - 1;
      LikeAllAtPath(xs[..n], ys[..n], path);
    }
  }

  lemma LikeIsSameByPath(xs: seq<Candidate>, ys: seq<Candidate>)
    requires LikeAll(xs, ys)
    ensures SameByPath(xs, ys)
  {
    hide LikeAll;
    forall path ensures LikeAll(AtPath(xs, path), AtPath(ys, path)) { LikeAllAtPath(xs, ys, path); }
  }

  // ----- every candidate lies below the node it comes from -----

  lemma StringPaths(c: Classifiers, text: string, path: string)
    ensures forall x <- StringCandidates(c, text, path) :: x.path == path && x.value.Str? && x.context.None?
  {
    LinePaths(c, Lines(text), 0, path);
  }

  lemma {:induction false} LinePaths(c: Classifiers, lines: seq<string>, i: nat, path: string)
    ensures forall x <- AllLines(c, lines, i, path) :: x.path == path && x.value.Str? && x.context.None?
    decreases |lines| - i
  {
    if i < |lines| { LinePaths(c, lines, i + 1, path); }
  }

  lemma {:induction false} ReachedBelow(c: Classifiers, v: Json, path: string, depth: nat, x: Candidate)
      returns (rest: seq<string>)
    requires x in Reached(c, v, path, depth)
    ensures x.path == path + Join(rest)
    decreases v, 1, 0
  {
    hide StringCandidates, ReachedKids, Join;
    rest := [];
    JoinNothing(path);
    if v.Str? {
      StringPaths(c, v.s, path);
    } else if x !in NodeCandidates(c, v, path) {
      var i;
      i, rest := KidsBelow(c, v, path, 0, depth, x);
      rest := [Children(v)[i].key] + rest;
    }
  }

  lemma {:induction false} KidsBelow(c: Classifiers, v: Json, path: string, i: nat, depth: nat, x: Candidate)
      returns (k: nat, rest: seq<string>)
    requires x in ReachedKids(c, v, path, i, depth)
    ensures i <= k < |Children(v)| && x.path == path + Join([Children(v)[k].key] + rest)
    decreases v, 0, |Children(v)| - i
  {
    hide ReachedPart, Join;
    if x in ReachedPart(c, v, path, i, depth) {
      k := i;
      rest := PartBelow(c, v, path, i, depth, x);
    } else {
      k, rest := KidsBelow(c, v, path, i + 1, depth, x);
    }
  }

  lemma {:induction false} PartBelow(c: Classifiers, v: Json, path: string, i: nat, depth: nat, x: Candidate)
      returns (rest: seq<string>)
    requires i < |Children(v)| && x in ReachedPart(c, v, path, i, depth)
    ensures x.path == path + Join([Children(v)[i].key] + rest)
    decreases v, 0, |Children(v)| - i, 0
  {
    hide Reached, Join, Skipped, KeyClassifies, Push;
    var m := Children(v)[i];
    if x in KeyCandidates(c, v, m, path) {
      rest := [];
    } else {
      rest := ReachedBelow(c, m.value, Push(path, m.key), depth + 1, x);
    }
    UnderKey(path, m.key, rest);
    JoinNothing(Push(path, m.key));
  }

  /** Only one child has candidates at a path below it. */
  lemma {:induction false} OnlyPart(
    c: Classifiers, v: Json, path: string, i: nat, depth: nat, j: nat, rest: seq<string>)
    requires WellFormed(v) && j < |Children(v)|
    ensures var target := path + Join([Children(v)[j].key] + rest);
            AtPath(ReachedKids(c, v, path, i, depth), target) ==
            if i <= j then AtPath(ReachedPart(c, v, path, j, depth), target) else []
    decreases |Children(v)| - i
  {
    hide ReachedPart, Join, AtPath, WellFormed;
    var target := path + Join([Children(v)[j].key] + rest);
    if i >= |Children(v)| {
      NoneAtPath([], target);
    } else {
      OnlyPart(c, v, path, i + 1, depth, j, rest);
      var here := ReachedPart(c, v, path, i, depth);
      AtPathAppend(here, ReachedKids(c, v, path, i + 1, depth), target);
      if i != j {
        ChildrenDistinct(v);
        forall x | x in here ensures x.path != target {
          var other := PartBelow(c, v, path, i, depth, x);
          assert ([Children(v)[i].key] + other)[0] != ([Children(v)[j].key] + rest)[0];
          RelativeDistinct(path, [Children(v)[i].key] + other, [Children(v)[j].key] + rest);
        }
        NoneAtPath(here, target);
      }
    }
  }

  /** A path below no child has no candidates of the children. */
  lemma NoPart(c: Classifiers, v: Json, path: string, depth: nat, target: string)
    requires forall j, rest :: 0 <= j < |Children(v)| ==> target != path + Join([Children(v)[j].key] + rest)
    ensures AtPath(ReachedKids(c, v, path, 0, depth), target) == []
  {
    hide ReachedKids, Join, AtPath;
    var all := ReachedKids(c, v, path, 0, depth);
    forall x | x in all ensures x.path != target {
      var j, rest := KidsBelow(c, v, path, 0, depth, x);
    }
    NoneAtPath(all, target);
  }

  // ----- the collector on reordered values -----

  /** Classifiers and labels that look members up by name. */
  ghost predicate OrderBlind(r: Readings)
  {
    BlindClassifiers(r.classifiers) && BlindSection(r.section) && BlindLabels(r.labels)
  }

  ghost predicate BlindClassifiers(c: Classifiers)
  {
    && (forall key, a, b | Alike(a, b) :: c.key(key, a) == c.key(key, b))
    && (forall a, b | Alike(a, b) :: c.node(a) == c.node(b))
  }

  ghost predicate BlindSection(section: Json -> Signal)
  {
    forall a, b | Alike(a, b) :: section(a) == section(b)
  }

  ghost predicate BlindLabels(l: Labels)
  {
    forall x, y | LikeCandidate(x, y) :: l.fingerprint(x) == l.fingerprint(y) && l.score(x) == l.score(y)
  }

  lemma StringsAlike(c: Classifiers, text: string, path: string)
    ensures LikeAll(StringCandidates(c, text, path), StringCandidates(c, text, path))
  {
    hide StringCandidates;
    StringPaths(c, text, path);
  }

  /** Reordered values give the same candidates at every path. */
  lemma {:induction false} ReachedAlike(c: Classifiers, a: Json, b: Json, path: string, depth: nat)
    requires BlindClassifiers(c) && Alike(a, b)
    ensures SameByPath(Reached(c, a, path, depth), Reached(c, b, path, depth))
    decreases a, 1
  {
    hide StringCandidates, ReachedKids, SameByPath, BlindClassifiers, LikeAll, NodeCandidates, Equivalent, WellFormed;
    AlikeKinds(a, b);
    if depth > MAX_FINDING_DEPTH {
      NothingAlike();
    } else if a.Str? {
      StringsAlike(c, a.s, path);
      LikeIsSameByPath(StringCandidates(c, a.s, path), StringCandidates(c, a.s, path));
    } else {
      NodesAlike(c, a, b, path);
      LikeIsSameByPath(NodeCandidates(c, a, path), NodeCandidates(c, b, path));
      KidsAlike(c, a, b, path, depth);
      SameByPathAppend(NodeCandidates(c, a, path), ReachedKids(c, a, path, 0, depth),
                       NodeCandidates(c, b, path), ReachedKids(c, b, path, 0, depth));
    }
  }

  lemma NothingAlike()
    ensures SameByPath([], [])
  {
  }

  lemma NodesAlike(c: Classifiers, a: Json, b: Json, path: string)
    requires BlindClassifiers(c) && Alike(a, b)
    ensures LikeAll(NodeCandidates(c, a, path), NodeCandidates(c, b, path))
  {
    hide Equivalent, WellFormed;
    AlikeKinds(a, b);
  }

  lemma {:induction false} KidsAlike(c: Classifiers, a: Json, b: Json, path: string, depth: nat)
    requires BlindClassifiers(c) && Alike(a, b)
    ensures SameByPath(ReachedKids(c, a, path, 0, depth), ReachedKids(c, b, path, 0, depth))
    decreases a, 0, 1
  {
    hide ReachedKids, ReachedPart, BlindClassifiers, LikeAll, AtPath, Equivalent, Join;
    AlikeSymmetric(a, b);
    forall target
      ensures LikeAll(AtPath(ReachedKids(c, a, path, 0, depth), target), AtPath(ReachedKids(c, b, path, 0, depth), target))
    {
      if i, rest :| 0 <= i < |Children(a)| && target == path + Join([Children(a)[i].key] + rest) {
        var j := AlikeChild(a, b, i);
        OnlyPart(c, a, path, 0, depth, i, rest);
        OnlyPart(c, b, path, 0, depth, j, rest);
        PartAlike(c, a, b, path, depth, i, j);
      } else {
        forall j, rest | 0 <= j < |Children(b)| ensures target != path + Join([Children(b)[j].key] + rest) {
          var i := AlikeChild(b, a, j);
        }
        NoPart(c, a, path, depth, target);
        NoPart(c, b, path, depth, target);
        NothingLike();
      }
    }
  }

  lemma NothingLike()
    ensures LikeAll([], [])
  {
  }

  lemma {:induction false} PartAlike(c: Classifiers, a: Json, b: Json, path: string, depth: nat, i: nat, j: nat)
    requires BlindClassifiers(c) && Alike(a, b) && i < |Children(a)| && j < |Children(b)|
    requires Children(a)[i].key == Children(b)[j].key && Alike(Children(a)[i].value, Children(b)[j].value)
    ensures SameByPath(ReachedPart(c, a, path, i, depth), ReachedPart(c, b, path, j, depth))
    decreases a, 0, 0
  {
    hide Reached, SameByPath, LikeAll, Equivalent, WellFormed, Skipped, KeyClassifies, KeyCandidates, BlindClassifiers, Push;
    var m, n := Children(a)[i], Children(b)[j];
    SkippedAlike(a, b, m.key);
    KeysAlike(c, a, b, m, n, path);
    if Skipped(a, m.key) {
      NothingAlike();
    } else {
      LikeIsSameByPath(KeyCandidates(c, a, m, path), KeyCandidates(c, b, n, path));
      AlikeKinds(a, b);
      var below, beside := if a.Obj? && KeyClassifies(c, m.key, m.value) then [] else Reached(c, m.value, Push(path, m.key), depth + 1),
                           if b.Obj? && KeyClassifies(c, n.key, n.value) then [] else Reached(c, n.value, Push(path, n.key), depth + 1);
      if a.Obj? && KeyClassifies(c, m.key, m.value) {
        NothingAlike();
      } else {
        ReachedAlike(c, m.value, n.value, Push(path, m.key), depth + 1);
      }
      SameByPathAppend(KeyCandidates(c, a, m, path), below, KeyCandidates(c, b, n, path), beside);
    }
  }

  lemma SkippedAlike(a: Json, b: Json, key: string)
    requires Alike(a, b)
    ensures Skipped(a, key) <==> Skipped(b, key)
  {
    hide Equivalent, WellFormed, FieldStr;
    AlikeText(a, b, "format");
    AlikeText(a, b, "text");
  }

  lemma KeysAlike(c: Classifiers, a: Json, b: Json, m: Member, n: Member, path: string)
    requires BlindClassifiers(c) && Alike(a, b) && m.key == n.key && Alike(m.value, n.value)
    ensures LikeAll(KeyCandidates(c, a, m, path), KeyCandidates(c, b, n, path))
    ensures KeyClassifies(c, m.key, m.value) <==> KeyClassifies(c, n.key, n.value)
  {
    hide Equivalent, WellFormed, Push;
    AlikeKinds(a, b);
    AlikeKinds(m.value, n.value);
  }

  // ----- the run collector -----

  lemma CommandAlike(a: Json, b: Json, path: string)
    requires Alike(a, b)
    ensures LikeAll(CommandCandidates(a, path), CommandCandidates(b, path))
  {
    hide Equivalent, WellFormed, Push, Says, FieldStr;
    AlikeText(a, b, "timed_out");
    AlikeText(a, b, "spawn_error");
    AlikeText(a, b, "success");
    forall message { TextIsAlike(message); }
  }

  lemma TextIsAlike(s: string)
    ensures Alike(Str(s), Str(s))
  {
  }

  lemma {:induction false} SectionsAlike(section: Json -> Signal, xs: seq<Json>, ys: seq<Json>, path: string)
    requires BlindSection(section) && |xs| == |ys| && forall i :: 0 <= i < |xs| ==> Alike(xs[i], ys[i])
    ensures LikeAll(SectionCandidates(section, xs, path), SectionCandidates(section, ys, path))
  {
    hide Equivalent, WellFormed, Push;
    if xs != [] {
      var n := |xs| - 1;
      SectionsAlike(section, xs[..n], ys[..n], path);
      AlikeKinds(xs[n], ys[n]);
    }
  }

  lemma RunAlike(section: Json -> Signal, a: Json, b: Json, path: string)
    requires BlindSection(section) && Alike(a, b)
    ensures LikeAll(FullRun(section, a, path), FullRun(section, b, path))
  {
    hide LikeAll, CommandCandidates, SectionCandidates, BlindSection, Push;
    CommandPartAlike(a, b, path);
    SectionListsAlike(a, b);
    SectionsAlike(section, Sections(a), Sections(b), Push(path, "failure_sections"));
    LikeAppend(CommandPart(a, path), SectionCandidates(section, Sections(a), Push(path, "failure_sections")),
               CommandPart(b, path), SectionCandidates(section, Sections(b), Push(path, "failure_sections")));
  }

  lemma CommandPartAlike(a: Json, b: Json, path: string)
    requires Alike(a, b)
    ensures LikeAll(CommandPart(a, path), CommandPart(b, path))
  {
    hide Equivalent, WellFormed, Push, CommandCandidates, LikeAll, Field;
    AlikeField(a, b, "command");
    NothingLike();
    if Field(a, "command").Some? {
      AlikeKinds(Field(a, "command").value, Field(b, "command").value);
      CommandAlike(Field(a, "command").value, Field(b, "command").value, Push(path, "command"));
    }
  }

  lemma SectionListsAlike(a: Json, b: Json)
    requires Alike(a, b)
    ensures |Sections(a)| == |Sections(b)| && forall i :: 0 <= i < |Sections(a)| ==> Alike(Sections(a)[i], Sections(b)[i])
  {
    AlikeField(a, b, "failure_sections");
    if Field(a, "failure_sections").Some? {
      AlikeKinds(Field(a, "failure_sections").value, Field(b, "failure_sections").value);
    }
  }

  /** Within the node budget, reordered payloads have the same candidates at
      every path, in the same order there. */
  lemma CandidatesAlike(r: Readings, p: Json, q: Json)
    requires OrderBlind(r) && Alike(p, q) && Cost(p) <= MAX_FINDING_NODES
    ensures SameByPath(Candidates(r, p), Candidates(r, q))
  {
    hide Equivalent, WellFormed, Cost, Collect, Reached, FullRun, CappedRun, SameByPath, LikeAll, BlindClassifiers,
         BlindSection, BlindLabels;
    CostIgnoresOrder(p, q);
    WithinBudget(r, p);
    WithinBudget(r, q);
    RunAlike(r.section, p, q, []);
    LikeIsSameByPath(FullRun(r.section, p, []), FullRun(r.section, q, []));
    ReachedAlike(r.classifiers, p, q, [], 0);
    SameByPathAppend(FullRun(r.section, p, []), Reached(r.classifiers, p, [], 0),
                     FullRun(r.section, q, []), Reached(r.classifiers, q, [], 0));
  }

  lemma WithinBudget(r: Readings, p: Json)
    requires WellFormed(p) && Cost(p) <= MAX_FINDING_NODES
    ensures Candidates(r, p) == FullRun(r.section, p, []) + Reached(r.classifiers, p, [], 0)
  {
    hide Cost, Collect, Reached, FullRun, CappedRun;
    RunUncapped(r.section, p, []);
    assert Parse([]) == Some([]);
    Uncapped(r.classifiers, p, [], 0, 0);
  }

  // ----- the ranking of reordered candidates -----

  predicate LikeScored(x: Scored, y: Scored)
  {
    LikeCandidate(x.candidate, y.candidate) && x.fingerprint == y.fingerprint && x.score == y.score
  }

  predicate LikeOption(x: Option<Scored>, y: Option<Scored>)
  {
    x.Some? == y.Some? && (x.Some? ==> LikeScored(x.value, y.value))
  }

  function Label(l: Labels, c: Candidate): Scored { Scored(c, l.fingerprint(c), l.score(c)) }

  lemma LabelStep(l: Labels, cs: seq<Candidate>, x: Candidate)
    ensures Labelled(l, cs + [x]) == Labelled(l, cs) + [Label(l, x)]
  {
  }

  /** An occurrence is decided by the candidates at its own path. */
  lemma {:induction false} KeepAtPath(l: Labels, cs: seq<Candidate>, k: Occurrence)
    ensures Keep(Labelled(l, cs), k) == Keep(Labelled(l, AtPath(cs, k.path)), k)
  {
    hide Keep, StrictlyBetter, Labelled, AtPath;
    if cs == [] {
      NoneAtPath(cs, k.path);
    } else {
      var front, last := cs[..|cs| - 1], cs[|cs| - 1];
      assert cs == front + [last];
      KeepAtPath(l, front, k);
      LabelStep(l, front, last);
      AtPathStep(front, last, k.path);
      KeepStep(Labelled(l, front), Label(l, last), k);
      if last.path == k.path {
        LabelStep(l, AtPath(front, k.path), last);
        KeepStep(Labelled(l, AtPath(front, k.path)), Label(l, last), k);
      } else {
        assert AtPath(front, k.path) + [] == AtPath(front, k.path);
      }
    }
  }

  lemma {:induction false} KeepAlike(l: Labels, xs: seq<Candidate>, ys: seq<Candidate>, k: Occurrence)
    requires BlindLabels(l) && LikeAll(xs, ys)
    ensures LikeOption(Keep(Labelled(l, xs), k), Keep(Labelled(l, ys), k))
  {
    hide Keep, Labelled, LikeCandidate;
    if xs == [] {
      assert Labelled(l, xs) == [] && Labelled(l, ys) == [];
      KeepNothing();
    } else {
      var n := |xs| - 1;
      assert xs == xs[..n] + [xs[n]] && ys == ys[..n] + [ys[n]];
      KeepAlike(l, xs[..n], ys[..n], k);
      LabelStep(l, xs[..n], xs[n]);
      LabelStep(l, ys[..n], ys[n]);
      KeepStep(Labelled(l, xs[..n]), Label(l, xs[n]), k);
      KeepStep(Labelled(l, ys[..n]), Label(l, ys[n]), k);
      LikeLooks(Label(l, xs[n]), Label(l, ys[n]));
      var x, y := Keep(Labelled(l, xs[..n]), k), Keep(Labelled(l, ys[..n]), k);
      if x.Some? { LikeLooks(x.value, y.value); }
    }
  }

  lemma LikeLooks(x: Scored, y: Scored)
    requires LikeScored(x, y)
    ensures ViewOf(x) == ViewOf(y) && KeyOf(x) == KeyOf(y)
  {
  }

  /** Two lists that keep alike candidates for each occurrence have the same
      ranking. */
  lemma RankingsAlike(cs: seq<Scored>, ds: seq<Scored>, a: seq<Scored>, b: seq<Scored>)
    requires IsRanking(cs, a) && IsRanking(ds, b)
    requires forall k :: LikeOption(Keep(cs, k), Keep(ds, k))
    ensures |a| == |b| && forall i :: 0 <= i < |a| ==> LikeScored(a[i], b[i])
  {
    hide ViewLe, Keep, LikeScored, Represented, KeyOf;
    ViewLeIsOrder();
    ViewsOrdered(cs, a);
    ViewsOrdered(ds, b);
    forall v ensures v in Views(a) <==> v in Views(b) {
      if v in Views(a) { ViewCarriesOver(cs, ds, a, b, v); }
      if v in Views(b) {
        forall k ensures LikeOption(Keep(ds, k), Keep(cs, k)) { LikeOptionSymmetric(Keep(cs, k), Keep(ds, k)); }
        ViewCarriesOver(ds, cs, b, a, v);
      }
    }
    Sorting.SortedUnique(Views(a), Views(b), ViewLe);
    assert |a| == |Views(a)| == |Views(b)| == |b|;
    forall i | 0 <= i < |a| ensures LikeScored(a[i], b[i]) {
      assert Views(a)[i] == Views(b)[i] && a[i] in a && b[i] in b;
      SameViewSameKey(a[i], b[i]);
      assert LikeOption(Keep(cs, KeyOf(a[i])), Keep(ds, KeyOf(a[i])));
    }
  }

  lemma SameViewSameKey(x: Scored, y: Scored)
    requires ViewOf(x) == ViewOf(y)
    ensures KeyOf(x) == KeyOf(y)
  {
  }

  lemma LikeOptionSymmetric(x: Option<Scored>, y: Option<Scored>)
    requires LikeOption(x, y)
    ensures LikeOption(y, x)
  {
    hide Alike;
    if x.Some? {
      var c, d := x.value.candidate, y.value.candidate;
      AlikeBoth(c.value, d.value);
      if c.context.Some? { AlikeBoth(c.context.value, d.context.value); }
    }
  }

  lemma AlikeBoth(a: Json, b: Json)
    requires Alike(a, b)
    ensures Alike(b, a)
  {
    AlikeSymmetric(a, b);
  }

  lemma ViewCarriesOver(cs: seq<Scored>, ds: seq<Scored>, a: seq<Scored>, b: seq<Scored>, v: View)
    requires IsRanking(cs, a) && IsRanking(ds, b)
    requires forall k :: LikeOption(Keep(cs, k), Keep(ds, k))
    requires v in Views(a)
    ensures v in Views(b)
  {
    hide Keep, Represented, RankLe, LikeScored, KeyOf;
    var i :| 0 <= i < |a| && Views(a)[i] == v;
    assert a[i] in a;
    var k := KeyOf(a[i]);
    assert LikeOption(Keep(cs, k), Keep(ds, k));
    var y := Keep(ds, k).value;
    LikeLooks(a[i], y);
    KeptIsFirstOfBest(ds, k);
    assert y in ds && KeyOf(y) == k;
    var m := RepresentedAt(b, y);
    assert b[m] in b && b[m] == y;
    assert Views(b)[m] == v;
  }

  // ----- the law and its limit -----

  /** A payload, a reordering of it, and the ranked findings of both. */
  datatype Reordered = Reordered(r: Readings, p: Json, q: Json, a: seq<Scored>, b: seq<Scored>)

  ghost predicate IsReordered(x: Reordered)
  {
    && OrderBlind(x.r) && Alike(x.p, x.q)
    && IsRanking(Labelled(x.r.labels, Candidates(x.r, x.p)), x.a)
    && IsRanking(Labelled(x.r.labels, Candidates(x.r, x.q)), x.b)
  }

  ghost predicate SameFindings(a: seq<Scored>, b: seq<Scored>)
  {
    |a| == |b| && forall i :: 0 <= i < |a| ==> LikeScored(a[i], b[i])
  }

  /** Findings never depend on the order in which an object lists its members:
      same length, and at each rank the same path, kind, line, score and
      fingerprint, and the same value but for that order. */
  lemma FindingsIgnoreMemberOrder(x: Reordered)
    requires IsReordered(x) && Cost(x.p) <= MAX_FINDING_NODES
    ensures SameFindings(x.a, x.b)
  {
    hide Alike, Cost, Candidates, IsRanking, Labelled, LikeOption, LikeScored, BlindClassifiers, BlindSection, BlindLabels,
         LikeAll, Keep, AtPath;
    CandidatesAlike(x.r, x.p, x.q);
    var cs, ds := Candidates(x.r, x.p), Candidates(x.r, x.q);
    var l := x.r.labels;
    forall k ensures LikeOption(Keep(Labelled(l, cs), k), Keep(Labelled(l, ds), k)) {
      KeepAtPath(l, cs, k);
      KeepAtPath(l, ds, k);
      assert LikeAll(AtPath(cs, k.path), AtPath(ds, k.path));
      KeepAlike(l, AtPath(cs, k.path), AtPath(ds, k.path), k);
    }
    RankingsAlike(Labelled(l, cs), Labelled(l, ds), x.a, x.b);
  }

  /** The law for all payloads up to a cost. */
  ghost predicate OrderFreeUpTo(n: nat)
  {
    forall x: Reordered | IsReordered(x) && Cost(x.p) <= n :: SameFindings(x.a, x.b)
  }

  /** It holds exactly up to the node budget of the collector. */
  lemma OrderFreeIffWithinBudget(n: nat)
    ensures OrderFreeUpTo(n) <==> n <= MAX_FINDING_NODES
  {
    hide IsReordered, Cost, SameFindings;
    if n <= MAX_FINDING_NODES {
      forall x: Reordered | IsReordered(x) && Cost(x.p) <= n ensures SameFindings(x.a, x.b) {
        FindingsIgnoreMemberOrder(x);
      }
    } else {
      var x := Bulky();
      BulkyCost();
      BulkyFindings();
      DifferentLengths(x.a, x.b);
    }
  }

  lemma DifferentLengths(a: seq<Scored>, b: seq<Scored>)
    requires |a| != |b|
    ensures !SameFindings(a, b)
  {
  }

  // One more node than the budget: a list that uses it up, and a message.

  function Nulls(n: nat): (r: seq<Json>)
    ensures |r| == n && forall i :: 0 <= i < n ==> r[i] == Null
  {
    if n == 0 then [] else Nulls(n - 1) + [Null]
  }

  const BULK := Arr(Nulls(MAX_FINDING_NODES - 2))
  const MESSAGE: string := "error: lost"
  const FAILURE := Signal("stderr_error", "generic.string_pattern", 0.58, Some("error"))

  const BULK_FIRST := Obj([Member("bulk", BULK), Member("msg", Str(MESSAGE))])
  const MESSAGE_FIRST := Obj([Member("msg", Str(MESSAGE)), Member("bulk", BULK)])

  function KeySignal(key: string, v: Json): Option<Signal> { None }

  function TextSignal(text: string): Option<Signal> { if text == MESSAGE then Some(FAILURE) else None }

  function NodeSignal(v: Json): Option<Signal> { None }

  function SectionSignal(v: Json): Signal { FAILURE }

  function NoFingerprint(x: Candidate): Option<string> { None }

  function NoScore(x: Candidate): real { 0.0 }

  /** Classifiers that know one text. */
  function OneWord(): Readings
  {
    Readings(Classifiers(KeySignal, TextSignal, NodeSignal), SectionSignal, Labels(NoFingerprint, NoScore))
  }

  function Found(): Candidate { Candidate("/msg", Str(MESSAGE), FAILURE, None, None) }

  function Bulky(): Reordered
  {
    Reordered(OneWord(), BULK_FIRST, MESSAGE_FIRST, [], [Label(OneWord().labels, Found())])
  }

  lemma BulkyCost()
    ensures Cost(BULK_FIRST) == MAX_FINDING_NODES + 1
  {
    hide KidsCost;
    NullsCost(0);
    var ms := Children(BULK_FIRST);
    assert KidsCost(BULK_FIRST, 0) == Cost(BULK) + KidsCost(BULK_FIRST, 1) by { OpenKids(BULK_FIRST, 0); }
    assert KidsCost(BULK_FIRST, 1) == Cost(Str(MESSAGE)) + KidsCost(BULK_FIRST, 2) by { OpenKids(BULK_FIRST, 1); }
    OpenKids(BULK_FIRST, 2);
    OpenKids(Str(MESSAGE), 0);
    assert Lookup(BULK_FIRST.members, "text").None?;
  }

  lemma OpenKids(v: Json, i: nat)
    ensures KidsCost(v, i) ==
            if i >= |Children(v)| then 0 else Cost(Children(v)[i].value) + KidsCost(v, i + 1)
  {
  }

  lemma {:induction false} NullsCost(i: nat)
    requires i <= MAX_FINDING_NODES - 2
    ensures KidsCost(BULK, i) == MAX_FINDING_NODES - 2 - i
    decreases MAX_FINDING_NODES - i
  {
    hide KidsCost;
    OpenKids(BULK, i);
    if i < MAX_FINDING_NODES - 2 {
      OpenKids(Null, 0);
      assert Children(BULK)[i].value == Null;
      NullsCost(i + 1);
    }
  }

  /** A list of nulls gives no candidates and uses up the budget. */
  lemma {:induction false} NullsScan(path: string, i: nat, visited: nat)
    requires i <= MAX_FINDING_NODES - 2 && visited < MAX_FINDING_NODES
    ensures CollectKids(OneWord().classifiers, BULK, path, i, 1, visited) ==
            Scan([], Min(visited + MAX_FINDING_NODES - 2 - i, MAX_FINDING_NODES))
    decreases MAX_FINDING_NODES - i
  {
    hide CollectKids, Collect, Push, Dec;
    var c := OneWord().classifiers;
    if i == MAX_FINDING_NODES - 2 {
      NoMoreKids(c, BULK, path, i, 1, visited);
    } else {
      OpenCollectKids(c, BULK, path, i, 1, visited);
      var m := Children(BULK)[i];
      assert m.value == Null;
      NullScan(Push(path, m.key), visited);
      assert KeyCandidates(c, BULK, m, path) == [];
      if visited + 1 < MAX_FINDING_NODES { NullsScan(path, i + 1, visited + 1); }
    }
  }

  lemma NullScan(path: string, visited: nat)
    requires visited < MAX_FINDING_NODES
    ensures Collect(OneWord().classifiers, Null, path, 2, visited) == Scan([], visited + 1)
  {
  }

  lemma BulkScan(path: string, visited: nat)
    requires 0 < visited < MAX_FINDING_NODES - 1
    ensures Collect(OneWord().classifiers, BULK, path, 1, visited) ==
            Scan([], Min(visited + MAX_FINDING_NODES - 1, MAX_FINDING_NODES))
  {
    hide CollectKids;
    NullsScan(path, 0, visited + 1);
  }

  lemma MessageScan(visited: nat)
    requires visited < MAX_FINDING_NODES
    ensures Collect(OneWord().classifiers, Str(MESSAGE), Push([], "msg"), 1, visited) == Scan([Found()], visited + 1)
  {
    hide CollectKids, Parse;
    assert Parse([]) == Some([]) by { EmptyParses(); }
    ParsePush([], "msg");
    assert Push([], "msg") == "/msg" by { PushedMessage(); }
  }

  lemma EmptyParses()
    ensures Parse([]) == Some([])
  {
  }

  lemma PushedMessage()
    ensures Push([], "msg") == "/msg"
  {
  }

  /** With the list first the message is never met; with the message first it is
      found. */
  lemma BulkyFindings()
    ensures IsReordered(Bulky())
  {
    hide Alike, IsRanking, OrderBlind, Collect;
    BulkyAlike();
    BulkyBlind();
    BulkFirstFindsNothing();
    MessageFirstIsFound();
    OneIsRanked(Label(OneWord().labels, Found()));
    var r := OneWord();
    assert Labelled(r.labels, []) == [];
    assert Labelled(r.labels, [Found()]) == [Label(r.labels, Found())];
  }

  lemma BulkyAlike()
    ensures Alike(BULK_FIRST, MESSAGE_FIRST)
  {
    assert WellFormed(BULK);
    assert Equivalent(BULK, BULK) by {
      forall i | 0 <= i < |BULK.items| ensures Equivalent(BULK.items[i], BULK.items[i]) { assert BULK.items[i] == Null; }
    }
    var ms, ns := BULK_FIRST.members, MESSAGE_FIRST.members;
    assert ns == [ms[1], ms[0]];
    LookupAt(ns, 0);
    LookupAt(ns, 1);
  }

  lemma BulkyBlind()
    ensures OrderBlind(OneWord())
  {
    hide Alike;
  }

  lemma OneIsRanked(x: Scored)
    ensures IsRanking([x], [x]) && IsRanking([], [])
  {
    hide Keep, RankLe, Represented, KeyOf, StrictlyBetter;
    RankLeIsPreorder();
    KeepNothing();
    KeepStep([], x, KeyOf(x));
    assert [] + [x] == [x];
    Represents([x], x, x);
  }

  lemma NoRun(section: Json -> Signal, v: Json)
    requires Field(v, "command").None? && Field(v, "failure_sections").None?
    ensures CappedRun(section, v, []) == []
  {
  }

  lemma BulkFirstFindsNothing()
    ensures Candidates(OneWord(), BULK_FIRST) == []
  {
    hide Collect, CollectKids, Push, CappedRun;
    var c := OneWord().classifiers;
    NoRun(OneWord().section, BULK_FIRST);
    OpenCollectKids(c, BULK_FIRST, [], 0, 0, 1);
    BulkScan(Push([], "bulk"), 1);
    OpenObject(c, BULK_FIRST);
  }

  lemma MessageFirstIsFound()
    ensures Candidates(OneWord(), MESSAGE_FIRST) == [Found()]
  {
    hide Collect, CollectKids, Push, CappedRun;
    var c := OneWord().classifiers;
    NoRun(OneWord().section, MESSAGE_FIRST);
    OpenCollectKids(c, MESSAGE_FIRST, [], 0, 0, 1);
    MessageScan(1);
    OpenCollectKids(c, MESSAGE_FIRST, [], 1, 0, 2);
    BulkScan(Push([], "bulk"), 2);
    OpenObject(c, MESSAGE_FIRST);
  }

  lemma OpenObject(c: Classifiers, v: Json)
    requires v.Obj? && c.node(v).None?
    ensures Collect(c, v, [], 0, 0) == CollectKids(c, v, [], 0, 0, 1)
  {
    hide CollectKids;
  }
}
