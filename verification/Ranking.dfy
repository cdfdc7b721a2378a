/** Ranked findings: one best candidate per occurrence, in a total order, cut
    to a limit and numbered. */
module Ranking {
  import opened Common
  import opened Sorting
  import opened Findings

  /** A candidate with its fingerprint and goal-dependent score, both opaque. */
  datatype Scored = Scored(candidate: Candidate, fingerprint: Option<string>, score: real)

  datatype Ranked = Ranked(rank: nat, finding: Scored)

  /** What the order looks at. Two findings with one view are one occurrence. */
  datatype View = View(score: real, confidence: real, path: string, kind: string, fingerprint: string)

  function FingerprintText(s: Scored): string
  {
    if s.fingerprint.Some? then s.fingerprint.value else []
  }

  function ViewOf(s: Scored): View
  {
    View(s.score, s.candidate.signal.confidence, s.candidate.path, s.candidate.signal.kind, FingerprintText(s))
  }

  datatype Occurrence = Occurrence(path: string, kind: string, fingerprint: string)

  function OccurrenceOf(v: View): Occurrence { Occurrence(v.path, v.kind, v.fingerprint) }

  function KeyOf(s: Scored): Occurrence { OccurrenceOf(ViewOf(s)) }

  /** Higher score first, then higher confidence, then path, then kind; the
      occurrence map's own key order settles what is left. */
  predicate ViewLe(a: View, b: View)
  {
    if a.score != b.score then a.score > b.score
    else if a.confidence != b.confidence then a.confidence > b.confidence
    else if a.path != b.path then StrLe(a.path, b.path)
    else if a.kind != b.kind then StrLe(a.kind, b.kind)
    else StrLe(a.fingerprint, b.fingerprint)
  }

  predicate RankLe(a: Scored, b: Scored) { ViewLe(ViewOf(a), ViewOf(b)) }

  /** `compare_candidates(a, b) == Less` for two candidates of one occurrence. */
  predicate StrictlyBetter(a: Scored, b: Scored)
  {
    var x, y := ViewOf(a), ViewOf(b);
    x.score > y.score || (x.score == y.score && x.confidence > y.confidence)
  }

  lemma ViewLeIsOrder()
    ensures TotalPreorder(ViewLe) && Antisymmetric(ViewLe)
  {
    forall a: View, b: View ensures ViewLe(a, b) || ViewLe(b, a) {
      StrLeTotal(a.path, b.path);
      StrLeTotal(a.kind, b.kind);
      StrLeTotal(a.fingerprint, b.fingerprint);
    }
    forall a: View, b: View | ViewLe(a, b) && ViewLe(b, a) ensures a == b {
      StrLeTotal(a.path, b.path);
      StrLeTotal(a.kind, b.kind);
      StrLeTotal(a.fingerprint, b.fingerprint);
    }
    forall a: View, b: View, c: View | ViewLe(a, b) && ViewLe(b, c) ensures ViewLe(a, c) {
      ViewLeTransitive(a, b, c);
    }
  }

  lemma ViewLeTransitive(a: View, b: View, c: View)
    requires ViewLe(a, b) && ViewLe(b, c)
    ensures ViewLe(a, c)
  {
    StrLeStrict(a.path, b.path, c.path);
    StrLeStrict(a.kind, b.kind, c.kind);
    StrLeStrict(a.fingerprint, b.fingerprint, c.fingerprint);
  }

  lemma StrLeStrict(a: string, b: string, c: string)
    ensures StrLe(a, b) && StrLe(b, c) ==> StrLe(a, c)
    ensures StrLe(a, b) && StrLe(b, c) && a == c ==> a == b
  {
    if StrLe(a, b) && StrLe(b, c) {
      StrLeTransitive(a, b, c);
      StrLeTotal(a, b);
    }
  }

  lemma RankLeIsPreorder()
    ensures TotalPreorder(RankLe)
  {
    ViewLeIsOrder();
    forall a: Scored, b: Scored ensures RankLe(a, b) || RankLe(b, a) {
      assert ViewLe(ViewOf(a), ViewOf(b)) || ViewLe(ViewOf(b), ViewOf(a));
    }
    forall a: Scored, b: Scored, c: Scored | RankLe(a, b) && RankLe(b, c) ensures RankLe(a, c) {
      ViewLeTransitive(ViewOf(a), ViewOf(b), ViewOf(c));
    }
  }

  ghost predicate Represented(all: seq<Scored>, c: Scored)
  {
    exists i :: 0 <= i < |all| && KeyOf(all[i]) == KeyOf(c) && RankLe(all[i], c)
  }

  lemma RepresentedAt(all: seq<Scored>, c: Scored) returns (i: nat)
    requires Represented(all, c)
    ensures i < |all| && KeyOf(all[i]) == KeyOf(c) && RankLe(all[i], c)
  {
    i :| 0 <= i < |all| && KeyOf(all[i]) == KeyOf(c) && RankLe(all[i], c);
  }

  /** The candidate an occurrence ends up with: a later one replaces it only by
      being better. */
  function Keep(cs: seq<Scored>, k: Occurrence): Option<Scored>
  {
    if cs == [] then None
    else
      var n := |cs| - 1;
      var before := Keep(cs[..n], k);
      if KeyOf(cs[n]) != k then before
      else if before.Some? && !StrictlyBetter(cs[n], before.value) then before
      else Some(cs[n])
  }

  /** The first of the best candidates of an occurrence is the one kept. */
  lemma {:induction false} KeptIsFirstOfBest(cs: seq<Scored>, k: Occurrence)
    ensures Keep(cs, k).None? <==> forall c <- cs :: KeyOf(c) != k
    ensures Keep(cs, k).Some? ==>
              var x := Keep(cs, k).value;
              KeyOf(x) == k && (forall c <- cs | KeyOf(c) == k :: !StrictlyBetter(c, x)) &&
              exists i :: 0 <= i < |cs| && cs[i] == x && forall j :: 0 <= j < i && KeyOf(cs[j]) == k ==> StrictlyBetter(x, cs[j])
  {
    hide KeyOf;
    if cs != [] {
      var n := |cs| - 1;
      var front := cs[..n];
      KeptIsFirstOfBest(front, k);
      assert cs == front + [cs[n]];
      if KeyOf(cs[n]) == k && !(Keep(front, k).Some? && !StrictlyBetter(cs[n], Keep(front, k).value)) {
        forall j | 0 <= j < n && KeyOf(cs[j]) == k ensures StrictlyBetter(cs[n], cs[j]) {
          assert front[j] in front;
        }
      } else if Keep(cs, k).Some? {
        var x := Keep(front, k).value;
        var i :| 0 <= i < |front| && front[i] == x &&
                 forall j :: 0 <= j < i && KeyOf(front[j]) == k ==> StrictlyBetter(x, front[j]);
        assert cs[i] == x;
        assert forall j :: 0 <= j < i ==> cs[j] == front[j];
      }
    }
  }

  /** `all` is the whole ranking of `cs`: sorted, one finding per occurrence,
      the first of the best, nothing invented, and every candidate represented
      by one at least as good. */
  ghost predicate IsRanking(cs: seq<Scored>, all: seq<Scored>)
  {
    && Sorted(all, RankLe)
    && Distinct(all, KeyOf)
    && (forall r :: r in all ==> r in cs && Keep(cs, KeyOf(r)) == Some(r))
    && (forall c :: c in cs ==> Represented(all, c))
  }

  function Numbered(xs: seq<Scored>): (r: seq<Ranked>)
    ensures |r| == |xs| && forall i :: 0 <= i < |r| ==> r[i] == Ranked(i + 1, xs[i])
  {
    seq(|xs|, i requires 0 <= i < |xs| => Ranked(i + 1, xs[i]))
  }

  /** The pipeline after collection: best per occurrence, sort, cut, number. */
  method RankFindings(candidates: seq<Scored>, limit: nat) returns (out: seq<Ranked>)
    ensures exists all :: IsRanking(candidates, all) && out == Numbered(all[..Min(limit, |all|)])
  {
    hide Keep, KeyOf, StrictlyBetter, IsRanking;
    var best: map<Occurrence, Scored> := map[];
    KeepNothing();
    for i := 0 to |candidates|
      invariant forall k :: Keep(candidates[..i], k) == if k in best then Some(best[k]) else None
    {
      var candidate := candidates[i];
      assert candidates[..i + 1] == candidates[..i] + [candidate];
      forall k { KeepStep(candidates[..i], candidate, k); }
      if !(KeyOf(candidate) in best && !StrictlyBetter(candidate, best[KeyOf(candidate)])) {
        best := best[KeyOf(candidate) := candidate];
      }
    }
    assert candidates[..|candidates|] == candidates;
    forall k { KeptIsFirstOfBest(candidates, k); }
    var all := SortedValues(candidates, best);
    out := Numbered(all[..Min(limit, |all|)]);
  }

  lemma KeepNothing()
    ensures forall k :: Keep([], k) == None
  {
  }

  lemma KeepStep(cs: seq<Scored>, c: Scored, k: Occurrence)
    ensures var before := Keep(cs, k);
            Keep(cs + [c], k) ==
            if KeyOf(c) != k || (before.Some? && !StrictlyBetter(c, before.value)) then before else Some(c)
  {
    assert (cs + [c])[..|cs|] == cs;
  }

  /** The values of the occurrence map, in ranking order. */
  method SortedValues(ghost candidates: seq<Scored>, best: map<Occurrence, Scored>) returns (all: seq<Scored>)
    requires forall k <- best :: best[k] in candidates && KeyOf(best[k]) == k
    requires forall c <- candidates :: KeyOf(c) in best && !StrictlyBetter(c, best[KeyOf(c)])
    requires forall k <- best :: Keep(candidates, k) == Some(best[k])
    ensures IsRanking(candidates, all)
  {
    hide RankLe, StrictlyBetter, KeyOf, Sort, Represented, Keep;
    var values: seq<Scored> := [];
    var keys := best.Keys;
    while keys != {}
      invariant keys <= best.Keys
      invariant Distinct(values, KeyOf)
      invariant forall v <- values :: KeyOf(v) in best.Keys - keys && best[KeyOf(v)] == v
      invariant forall k <- best.Keys - keys :: best[k] in values
      decreases keys
    {
      var key :| key in keys;
      values := values + [best[key]];
      keys := keys - {key};
    }
    SortContents(values, RankLe);
    RankLeIsPreorder();
    SortSorted(values, RankLe);
    SortDistinct(values, RankLe, KeyOf);
    all := Sort(values, RankLe);
    forall c | c in candidates ensures Represented(all, c) {
      var r := best[KeyOf(c)];
      assert r in values;
      assert r in all;
      SameOccurrence(r, c);
      Represents(all, r, c);
    }
  }

  lemma Represents(all: seq<Scored>, r: Scored, c: Scored)
    requires r in all && KeyOf(r) == KeyOf(c) && RankLe(r, c)
    ensures Represented(all, c)
  {
    var i :| 0 <= i < |all| && all[i] == r;
  }

  lemma SameOccurrence(r: Scored, c: Scored)
    requires KeyOf(r) == KeyOf(c) && !StrictlyBetter(c, r)
    ensures RankLe(r, c)
  {
    StrLeTotal(FingerprintText(r), FingerprintText(c));
  }

  function Views(xs: seq<Scored>): (r: seq<View>)
    ensures |r| == |xs| && forall i :: 0 <= i < |r| ==> r[i] == ViewOf(xs[i])
  {
    seq(|xs|, i requires 0 <= i < |xs| => ViewOf(xs[i]))
  }

  lemma RankingContains(cs: seq<Scored>, ds: seq<Scored>, a: seq<Scored>, b: seq<Scored>, v: View)
    requires IsRanking(cs, a) && IsRanking(ds, b)
    requires forall c :: c in cs <==> c in ds
    requires v in Views(a)
    ensures v in Views(b)
  {
    hide RankLe, Represented, KeyOf;
    var i :| 0 <= i < |a| && Views(a)[i] == v;
    assert a[i] in a;
    var m := RepresentedAt(b, a[i]);
    assert b[m] in b;
    var k := RepresentedAt(a, b[m]);
    assert k == i;
    EqualViews(a[i], b[m]);
    assert Views(b)[m] == v;
  }

  lemma EqualViews(r: Scored, s: Scored)
    requires RankLe(r, s) && RankLe(s, r)
    ensures ViewOf(r) == ViewOf(s)
  {
    ViewLeIsOrder();
  }

  /** Ranking depends only on which candidates there are, never on the order in
      which the traversal met them. */
  lemma RankingIgnoresOrder(cs: seq<Scored>, ds: seq<Scored>, a: seq<Scored>, b: seq<Scored>)
    requires IsRanking(cs, a) && IsRanking(ds, b)
    requires forall c :: c in cs <==> c in ds
    ensures Views(a) == Views(b)
  {
    hide ViewLe;
    ViewLeIsOrder();
    ViewsOrdered(cs, a);
    ViewsOrdered(ds, b);
    forall v ensures v in Views(a) <==> v in Views(b) {
      if v in Views(a) { RankingContains(cs, ds, a, b, v); }
      if v in Views(b) { RankingContains(ds, cs, b, a, v); }
    }
    SortedUnique(Views(a), Views(b), ViewLe);
  }

  /** Candidates have one ranking, line and value included. */
  lemma RankingUnique(cs: seq<Scored>, a: seq<Scored>, b: seq<Scored>)
    requires IsRanking(cs, a) && IsRanking(cs, b)
    ensures a == b
  {
    hide Keep, RankLe, Represented;
    RankingIgnoresOrder(cs, cs, a, b);
    assert |a| == |Views(a)| == |Views(b)| == |b|;
    forall i | 0 <= i < |a| ensures a[i] == b[i] {
      assert Views(a)[i] == Views(b)[i] && a[i] in a && b[i] in b;
    }
  }

  lemma ViewsOrdered(cs: seq<Scored>, a: seq<Scored>)
    requires IsRanking(cs, a)
    ensures Sorted(Views(a), ViewLe) && NoRepeats(Views(a))
  {
    forall i, j | 0 <= i < j < |a|
      ensures ViewLe(Views(a)[i], Views(a)[j]) && Views(a)[i] != Views(a)[j]
    {
      assert RankLe(a[i], a[j]) && KeyOf(a[i]) != KeyOf(a[j]);
    }
  }

  /** What the cut to `limit` may lose: only candidates no better than
      everything shown. */
  lemma CutKeepsTheBest(cs: seq<Scored>, all: seq<Scored>, limit: nat, c: Scored)
    requires IsRanking(cs, all) && c in cs
    ensures var shown := all[..Min(limit, |all|)];
            Represented(shown, c) || (|shown| == limit && forall f <- shown :: RankLe(f, c))
  {
    hide RankLe, Represented, KeyOf;
    var shown := all[..Min(limit, |all|)];
    var k := RepresentedAt(all, c);
    if k < limit {
      assert shown[k] == all[k];
      Represents(shown, all[k], c);
    } else {
      RankLeIsPreorder();
      forall f | f in shown ensures RankLe(f, c) {
        var i :| 0 <= i < |shown| && shown[i] == f;
        assert RankLe(all[i], all[k]);
      }
    }
  }

  /** With no effective limit, no fingerprint of any candidate is lost. */
  lemma UnlimitedKeepsFingerprints(cs: seq<Scored>, all: seq<Scored>, c: Scored) returns (i: nat)
    requires IsRanking(cs, all) && c in cs && c.fingerprint.Some? && c.fingerprint.value != []
    ensures i < |all| && all[i].fingerprint == c.fingerprint
  {
    hide RankLe, Represented, Sorted;
    i := RepresentedAt(all, c);
    assert FingerprintText(all[i]) == FingerprintText(c);
  }
}
