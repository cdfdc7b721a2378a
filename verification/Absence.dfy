/** Derivation, ranking and comparison put together: what a resolved finding
    says about the payload it is missing from. */
module Absence {
  import opened Common
  import opened Json
  import opened Findings
  import opened RunSignals
  import Ranking
  import Delta

  /** The opaque labels of a candidate. */
  datatype Labels = Labels(fingerprint: Candidate -> Option<string>, score: Candidate -> real)

  function Labelled(l: Labels, cs: seq<Candidate>): (r: seq<Ranking.Scored>)
    ensures |r| == |cs|
    ensures forall i :: 0 <= i < |r| ==> r[i] == Ranking.Scored(cs[i], l.fingerprint(cs[i]), l.score(cs[i]))
  {
    seq(|cs|, i requires 0 <= i < |cs| => Ranking.Scored(cs[i], l.fingerprint(cs[i]), l.score(cs[i])))
  }

  /** All that decides what is found in a payload: the keyword classifiers, the
      one for sections of a run, and the labels of candidates. */
  datatype Readings = Readings(classifiers: Classifiers, section: Json -> Signal, labels: Labels)

  /** The candidates of the run collector and of the generic one, each under its
      caps. */
  function Candidates(r: Readings, payload: Json): seq<Candidate>
  {
    CappedRun(r.section, payload, []) + Collect(r.classifiers, payload, [], 0, 0).out
  }

  /** The same with no cap at all. */
  function Everything(r: Readings, payload: Json): seq<Candidate>
  {
    FullRun(r.section, payload, []) + Full(r.classifiers, payload, [])
  }

  /** `findings` are the unlimited ranked findings of `payload`. */
  ghost predicate DerivedFrom(
    r: Readings, payload: Json, findings: seq<Delta.Finding>, all: seq<Ranking.Scored>)
  {
    && Ranking.IsRanking(Labelled(r.labels, Candidates(r, payload)), all)
    && |findings| == |all|
    && forall i :: 0 <= i < |all| ==>
         findings[i].fingerprint == all[i].fingerprint && findings[i].path == all[i].candidate.path
  }

  /** Derives the findings a comparison works on. */
  method DeriveAll(r: Readings, payload: Json) returns (findings: seq<Delta.Finding>)
    ensures exists all :: DerivedFrom(r, payload, findings, all)
  {
    hide Collect, CappedRun, Ranking.IsRanking, Ranking.RankLe;
    var run := CollectRunSignals(r.section, payload, []);
    var collector := new SignalCollector(r.classifiers);
    collector.CollectGenericSignals(payload, [], 0);
    var scored := Labelled(r.labels, run + collector.found);
    assert run + collector.found == Candidates(r, payload);
    var ranked := Ranking.RankFindings(scored, |scored|);
    ghost var all :| Ranking.IsRanking(scored, all) && ranked == Ranking.Numbered(all[..Min(|scored|, |all|)]);
    RankingIsNoLonger(scored, all);
    assert all[..|all|] == all;
    findings := seq(|ranked|, i requires 0 <= i < |ranked| =>
      Delta.Finding(ranked[i].finding.fingerprint, ranked[i].finding.candidate.path, None));
    assert DerivedFrom(r, payload, findings, all);
  }

  /** On a complete payload no cap of either collector is met. */
  lemma CompleteMeansEverything(r: Readings, payload: Json)
    requires WellFormed(payload) && Complete(payload)
    ensures Candidates(r, payload) == Everything(r, payload)
  {
    hide Collect, Full, CappedRun, FullRun, Shallow, NothingHidden, WellFormed;
    CompleteMeansNothingMissed(r.classifiers, payload, []);
    RunUncapped(r.section, payload, []);
  }

  /** One finding per occurrence: never more findings than candidates. */
  lemma RankingIsNoLonger(cs: seq<Ranking.Scored>, all: seq<Ranking.Scored>)
    requires Ranking.IsRanking(cs, all)
    ensures |all| <= |cs|
  {
    hide Ranking.Represented, Ranking.RankLe;
    var keys := set x | x in cs :: Ranking.KeyOf(x);
    KeysOfSequence(cs, keys);
    DistinctWithin(all, keys);
  }

  lemma {:induction false} KeysOfSequence(cs: seq<Ranking.Scored>, keys: set<Ranking.Occurrence>)
    requires keys == set x | x in cs :: Ranking.KeyOf(x)
    ensures |keys| <= |cs|
  {
    if cs == [] {
      assert keys == {};
    } else {
      var front, last := cs[..|cs| - 1], cs[|cs| - 1];
      var fewer := set x | x in front :: Ranking.KeyOf(x);
      KeysOfSequence(front, fewer);
      assert cs == front + [last];
      assert keys == fewer + {Ranking.KeyOf(last)};
    }
  }

  lemma {:induction false} DistinctWithin(all: seq<Ranking.Scored>, keys: set<Ranking.Occurrence>)
    requires forall i, j :: 0 <= i < j < |all| ==> Ranking.KeyOf(all[i]) != Ranking.KeyOf(all[j])
    requires forall i :: 0 <= i < |all| ==> Ranking.KeyOf(all[i]) in keys
    ensures |all| <= |keys|
  {
    hide Ranking.KeyOf;
    if all != [] {
      var last := all[|all| - 1];
      DistinctWithin(all[..|all| - 1], keys - {Ranking.KeyOf(last)});
    }
  }

  /** Absence claims are about payloads, not about traversal windows: a
      fingerprint no derived finding of a complete payload carries is not the
      fingerprint of anything the uncapped derivation would find there. */
  lemma NotDerivedIsAbsent(
    r: Readings, payload: Json, sf: seq<Delta.Finding>, all: seq<Ranking.Scored>, fp: string)
    requires WellFormed(payload) && Complete(payload)
    requires DerivedFrom(r, payload, sf, all)
    requires fp != [] && fp !in Delta.ByFingerprint(sf)
    ensures forall x <- Everything(r, payload) :: r.labels.fingerprint(x) != Some(fp)
  {
    hide Complete, WellFormed, Candidates, Everything, Ranking.IsRanking, Delta.ByFingerprint;
    CompleteMeansEverything(r, payload);
    var cs := Everything(r, payload);
    forall x | x in cs
      ensures r.labels.fingerprint(x) != Some(fp)
    {
      if r.labels.fingerprint(x) == Some(fp) {
        var i :| 0 <= i < |cs| && cs[i] == x;
        var scored := Labelled(r.labels, cs)[i];
        var k := Ranking.UnlimitedKeepsFingerprints(Labelled(r.labels, cs), all, scored);
        FingerprintIsListed(sf, k, fp);
      }
    }
  }

  lemma FingerprintIsListed(sf: seq<Delta.Finding>, k: int, fp: string)
    requires 0 <= k < |sf| && sf[k].fingerprint == Some(fp)
    ensures fp in Delta.ByFingerprint(sf)
  {
    Delta.LastOfFingerprint(sf, fp);
  }
}
