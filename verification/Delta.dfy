/** The conservative comparison of two observations: a missing finding counts
    as resolved only when its absence is proven. */
module Delta {
  import opened Common
  import opened Sorting

  const MAX_DELTA_FINDINGS: nat := 100
  const MAX_PROVIDER_WARNINGS: nat := 3

  // ----- records -----

  datatype Availability = Recoverable | CaptureTruncated | RedactedPayload | Expired | MetadataOnly | Unavailable

  datatype StopReason =
    | Completed | ByteLimit | Timeout | Cancelled | RedactedStop | StorageLimit | ExpiredStop | UnavailableStop
    | DerivationWindowed

  datatype AffectedScope = AffectedScope(scope: string, stop: StopReason)

  datatype Capture = Capture(canProveAbsence: bool, stop: StopReason, affected: seq<AffectedScope>)

  /** `excludesSkipped` is the extra a provider sets when every selected test
      ran except those the runner reported as skipped. */
  datatype Selection = Selection(scopes: seq<string>, exhaustive: bool, excludesSkipped: bool)

  datatype SourceValidity =
    | ConfirmedUnchanged | SourceChanged | StaleByTtl | ValidatorUnavailable | ValidatorExpired | RefreshFailed
    | UnknownValidity

  datatype TokenKind = HttpEtag | HttpLastModified | ChangeToken | McpModification

  datatype SourceToken = SourceToken(
    kind: TokenKind,
    value: string,
    sourceId: string,
    operation: string,
    subjectScope: Option<string>)

  datatype WorkspaceState = WorkspaceState(root: Option<string>, digest: string)

  datatype Observation = Observation(
    id: string,
    payloadHash: string,
    availability: Availability,
    invocation: string,
    family: Option<string>,
    sourceId: string,
    operation: string,
    selection: Selection,
    capture: Capture,
    provider: Option<string>,
    parser: Option<string>,
    lens: Option<string>,
    workspace: Option<WorkspaceState>,
    sourceState: Option<SourceToken>,
    sourceValidity: SourceValidity)

  datatype Finding = Finding(fingerprint: Option<string>, path: string, title: Option<string>)

  datatype TestPopulation = TestPopulation(
    tests: map<string, string>,
    executed: Option<nat>,
    failing: Option<nat>,
    skipped: Option<nat>,
    skippedTests: seq<string>,
    warnings: seq<string>)

  datatype Side = Baseline | Subject

  /** The explanations attached to an assessment, one constructor per message. */
  datatype Reason =
    | InvocationsDiffer | FamiliesDiffer | Incomplete | NormalizationDiffers | SourceUnproven | PayloadsGone
    | CoverageUnknown | CaptureStopped(side: Side, stop: StopReason) | ScopeStopped(side: Side, at: AffectedScope)
    | NotExhaustive(side: Side) | SharedSkips(count: nat) | SubjectHasNoTests | PopulationShrank(after: nat, before: nat)
    | FailuresUnnamed(named: nat, failing: nat) | QuietAbout(tests: set<string>) | DidNotRunAgain(tests: set<string>)
    | ProviderWarning(side: Side, text: string) | SharedFingerprints(side: Side, count: nat) | AbsenceProven

  datatype Scope = Equal | Superset | Subset | Overlap | Disjoint | UnknownScope

  datatype Assessment = Assessment(
    sameSubject: bool,
    scope: Scope,
    invocationMatch: bool,
    baselineComplete: bool,
    subjectComplete: bool,
    normalizationCompatible: bool,
    sourceValidity: SourceValidity,
    canProveAbsence: bool,
    reasons: seq<Reason>)

  datatype Status = New | Persisting | Resolved | NotObserved | Unknown

  datatype DeltaFinding = DeltaFinding(
    status: Status,
    fingerprint: string,
    title: Option<string>,
    baselinePath: Option<string>,
    subjectPath: Option<string>,
    availability: Availability,
    reasons: seq<Reason>)

  datatype ObservationDelta = ObservationDelta(
    baselineId: string,
    subjectId: string,
    assessment: Assessment,
    findings: seq<DeltaFinding>,
    counts: map<Status, nat>,
    truncated: bool)

  // ----- scopes -----

  /** Unicode White_Space, which `str::trim` removes. */
  predicate IsWhitespace(c: char)
  {
    '\U{0009}' <= c <= '\U{000D}' || c == ' ' || c == '\U{0085}' || c == '\U{00A0}' || c == '\U{1680}' ||
    '\U{2000}' <= c <= '\U{200A}' || c == '\U{2028}' || c == '\U{2029}' || c == '\U{202F}' || c == '\U{205F}' ||
    c == '\U{3000}'
  }

  function Trim(s: string): string
  {
    if s == [] then s
    else if IsWhitespace(s[0]) then Trim(s[1..])
    else if IsWhitespace(s[|s| - 1]) then Trim(s[..|s| - 1])
    else s
  }

  function NormalizedScopes(o: Observation): set<string>
  {
    set s | s in o.selection.scopes && Trim(s) != [] :: Trim(s)
  }

  function ScopeRelationship(baseline: Observation, subject: Observation): Scope
  {
    var b, s := NormalizedScopes(baseline), NormalizedScopes(subject);
    if b == {} || s == {} then UnknownScope
    else if b == s then Equal
    else if b <= s then Superset
    else if s <= b then Subset
    else if b * s == {} then Disjoint
    else Overlap
  }

  predicate PathWithinScope(path: string, scope: string)
  {
    path == scope || (scope <= path && |path| > |scope| && path[|scope|] == '/')
  }

  // ----- test populations -----

  predicate FailedOrError(status: string) { status == "failed" || status == "error" }

  function FailingTests(p: TestPopulation): set<string>
  {
    set t | t in p.tests && FailedOrError(p.tests[t])
  }

  predicate NamesPassingTests(p: TestPopulation)
  {
    exists t <- p.tests :: p.tests[t] == "passed"
  }

  /** The test ran again: it is named and neither skipped nor otherwise unrun. */
  predicate RanAgain(subject: TestPopulation, t: string)
  {
    t in subject.tests && (subject.tests[t] == "passed" || FailedOrError(subject.tests[t]))
  }

  /** What it takes for the subject's tests to support an absence proof. */
  predicate PopulationComparable(baseline: Option<TestPopulation>, subject: Option<TestPopulation>)
  {
    baseline.None? ||
    (subject.Some? &&
     var b, s := baseline.value, subject.value;
     && (b.executed.Some? && s.executed.Some? ==> s.executed.value >= b.executed.value)
     && (b.failing.Some? ==> b.failing.value <= |FailingTests(b)|)
     && (forall t <- FailingTests(b) :: RanAgain(s, t)))
  }

  /** Tests that failed before and are unnamed in output that names only failures. */
  function QuietTests(b: TestPopulation, s: TestPopulation): set<string>
  {
    set t | t in FailingTests(b) && t !in s.tests && !NamesPassingTests(s)
  }

  /** Tests that failed before and are told not to have run again. */
  function LostTests(b: TestPopulation, s: TestPopulation): set<string>
  {
    set t | t in FailingTests(b) && !RanAgain(s, t) && (t in s.tests || NamesPassingTests(s))
  }

  /** Everything the two populations say against an absence proof, in order. */
  function PopulationReasons(baseline: Option<TestPopulation>, subject: Option<TestPopulation>): seq<Reason>
  {
    if baseline.None? then []
    else if subject.None? then [SubjectHasNoTests]
    else
      var b, s := baseline.value, subject.value;
      (if b.executed.Some? && s.executed.Some? && s.executed.value < b.executed.value
       then [PopulationShrank(s.executed.value, b.executed.value)] else []) +
      (if b.failing.Some? && b.failing.value > |FailingTests(b)|
       then [FailuresUnnamed(|FailingTests(b)|, b.failing.value)] else []) +
      When(QuietTests(b, s) != {}, QuietAbout(QuietTests(b, s))) +
      When(LostTests(b, s) != {}, DidNotRunAgain(LostTests(b, s)))
  }

  /** No reason is given exactly when the populations are comparable, and each
      test named failed before and did not run again. */
  lemma PopulationReasonsMean(baseline: Option<TestPopulation>, subject: Option<TestPopulation>)
    ensures PopulationReasons(baseline, subject) == [] <==> PopulationComparable(baseline, subject)
    ensures forall r <- PopulationReasons(baseline, subject) :: IsPopulationReason(baseline, subject, r)
  {
    hide RanAgain, NamesPassingTests;
    if baseline.Some? && subject.Some? {
      var b, s := baseline.value, subject.value;
      forall t | t in FailingTests(b) ensures t in QuietTests(b, s) || t in LostTests(b, s) || RanAgain(s, t) {
        RunTestsAreNamed(s, t);
      }
      forall t | t in FailingTests(b) && RanAgain(s, t) ensures t !in QuietTests(b, s) && t !in LostTests(b, s) {
        RunTestsAreNamed(s, t);
      }
    }
  }

  lemma RunTestsAreNamed(s: TestPopulation, t: string)
    ensures RanAgain(s, t) ==> t in s.tests
  {
  }

  predicate IsPopulationReason(baseline: Option<TestPopulation>, subject: Option<TestPopulation>, r: Reason)
  {
    match r
    case SubjectHasNoTests => subject.None?
    case PopulationShrank(_, _) => true
    case FailuresUnnamed(_, _) => true
    case DidNotRunAgain(tests) =>
      baseline.Some? && subject.Some? &&
      forall t <- tests :: t in FailingTests(baseline.value) && !RanAgain(subject.value, t) &&
                           (t in subject.value.tests || NamesPassingTests(subject.value))
    case QuietAbout(tests) =>
      baseline.Some? && subject.Some? &&
      forall t <- tests :: t in FailingTests(baseline.value) && t !in subject.value.tests &&
                           !NamesPassingTests(subject.value)
    case _ => false
  }

  /** The loop over baseline-failing tests and the reasons it collects: an
      empty list exactly when the populations are comparable. */
  method TestPopulationReasons(baseline: Option<TestPopulation>, subject: Option<TestPopulation>)
      returns (reasons: seq<Reason>)
    ensures reasons == [] <==> PopulationComparable(baseline, subject)
    ensures reasons == PopulationReasons(baseline, subject)
    ensures forall r <- reasons :: IsPopulationReason(baseline, subject, r)
  {
    hide PopulationComparable, IsPopulationReason, NamesPassingTests;
    PopulationReasonsMean(baseline, subject);
    if baseline.None? { return []; }
    if subject.None? { return [SubjectHasNoTests]; }
    var b, s := baseline.value, subject.value;
    reasons := [];
    if b.executed.Some? && s.executed.Some? && s.executed.value < b.executed.value {
      reasons := reasons + [PopulationShrank(s.executed.value, b.executed.value)];
    }
    var named := |FailingTests(b)|;
    if b.failing.Some? && b.failing.value > named {
      reasons := reasons + [FailuresUnnamed(named, b.failing.value)];
    }
    var narrowed: set<string>, unnamed: set<string> := {}, {};
    var pending := b.tests.Keys;
    while pending != {}
      invariant pending <= b.tests.Keys
      invariant forall t :: t in narrowed <==>
                  t in FailingTests(b) && t !in pending && !RanAgain(s, t) && (t in s.tests || NamesPassingTests(s))
      invariant forall t :: t in unnamed <==>
                  t in FailingTests(b) && t !in pending && t !in s.tests && !NamesPassingTests(s)
      decreases pending
    {
      var test :| test in pending;
      pending := pending - {test};
      if FailedOrError(b.tests[test]) {
        if test in s.tests {
          if !(s.tests[test] == "passed" || FailedOrError(s.tests[test])) {
            narrowed := narrowed + {test};
          }
        } else if NamesPassingTests(s) {
          narrowed := narrowed + {test};
        } else {
          unnamed := unnamed + {test};
        }
      }
    }
    assert unnamed == QuietTests(b, s) && narrowed == LostTests(b, s);
    if unnamed != {} { reasons := reasons + [QuietAbout(unnamed)]; }
    if narrowed != {} { reasons := reasons + [DidNotRunAgain(narrowed)]; }
  }

  predicate ExcludesOnlySkipped(selection: Selection)
  {
    !selection.exhaustive && selection.excludesSkipped
  }

  /** How many tests both runs skipped, when skips are the only gap in both
      selections and both name exactly the same ones. */
  function SharedSkippedTests(
    baseline: Observation,
    subject: Observation,
    baselineTests: Option<TestPopulation>,
    subjectTests: Option<TestPopulation>): Option<nat>
  {
    if !(ExcludesOnlySkipped(baseline.selection) && ExcludesOnlySkipped(subject.selection)) then None
    else if baselineTests.None? || subjectTests.None? then None
    else
      var before, after := baselineTests.value, subjectTests.value;
      if before.skipped.None? then None
      else
        var skipped := before.skipped.value;
        if skipped > 0 && after.skipped == Some(skipped) && |before.skippedTests| == skipped &&
           before.skippedTests == after.skippedTests
        then Some(skipped) else None
  }

  function SourceValidityOf(baseline: Observation, subject: Observation): SourceValidity
  {
    if subject.sourceValidity != UnknownValidity && subject.sourceValidity != ConfirmedUnchanged then
      subject.sourceValidity
    else
      match (baseline.sourceState, subject.sourceState)
      case (Some(l), Some(r)) =>
        if l.sourceId == r.sourceId && l.operation == r.operation && l.subjectScope == r.subjectScope && l.kind == r.kind
        then if l.value == r.value then ConfirmedUnchanged else SourceChanged
        else UnknownValidity
      case (None, None) => subject.sourceValidity
      case _ => UnknownValidity
  }

  // ----- assessment -----

  predicate SelectionCounts(o: Observation, shared: Option<nat>)
  {
    o.selection.exhaustive || (shared.Some? && ExcludesOnlySkipped(o.selection))
  }

  function StoppedScopes(side: Side, affected: seq<AffectedScope>): seq<Reason>
  {
    if affected == [] then []
    else (if affected[0].stop.Completed? then [] else [ScopeStopped(side, affected[0])]) +
         StoppedScopes(side, affected[1..])
  }

  function CaptureReasons(side: Side, o: Observation, counts: bool): seq<Reason>
  {
    (if o.capture.stop.Completed? then [] else [CaptureStopped(side, o.capture.stop)]) +
    StoppedScopes(side, o.capture.affected) +
    (if o.selection.scopes != [] && !counts then [NotExhaustive(side)] else [])
  }

  function When(b: bool, r: Reason): seq<Reason> { if b then [r] else [] }

  function Assess(baseline: Observation, subject: Observation, shared: Option<nat>): Assessment
  {
    var invocationMatch := baseline.invocation == subject.invocation;
    var familyMatch := baseline.family == subject.family;
    var same := baseline.sourceId == subject.sourceId && baseline.operation == subject.operation;
    var scope := ScopeRelationship(baseline, subject);
    var normalized :=
      baseline.parser == subject.parser && baseline.lens == subject.lens && baseline.provider == subject.provider;
    var source := SourceValidityOf(baseline, subject);
    var available := baseline.availability == Recoverable && subject.availability == Recoverable;
    var covers :=
      SelectionCounts(baseline, shared) && SelectionCounts(subject, shared) &&
      NormalizedScopes(baseline) != {} && NormalizedScopes(subject) != {};
    var reasons :=
      When(!invocationMatch, InvocationsDiffer) + When(!familyMatch, FamiliesDiffer) +
      CaptureReasons(Baseline, baseline, SelectionCounts(baseline, shared)) +
      CaptureReasons(Subject, subject, SelectionCounts(subject, shared)) +
      When(!baseline.capture.canProveAbsence || !subject.capture.canProveAbsence, Incomplete) +
      When(!normalized, NormalizationDiffers) + When(source != ConfirmedUnchanged, SourceUnproven) +
      When(!available, PayloadsGone) +
      (if !covers then [CoverageUnknown] else if shared.Some? then [SharedSkips(shared.value)] else []);
    var can :=
      invocationMatch && familyMatch && same && (scope == Equal || scope == Superset) &&
      baseline.capture.canProveAbsence && subject.capture.canProveAbsence && covers && normalized && available &&
      source == ConfirmedUnchanged;
    Assessment(same, scope, invocationMatch, baseline.capture.canProveAbsence, subject.capture.canProveAbsence,
               normalized, source, can, reasons)
  }

  /** Identity: both runs asked the same thing of the same source. */
  predicate SameQuestion(baseline: Observation, subject: Observation)
  {
    && baseline.invocation == subject.invocation && baseline.family == subject.family
    && baseline.sourceId == subject.sourceId && baseline.operation == subject.operation
    && baseline.parser == subject.parser && baseline.lens == subject.lens && baseline.provider == subject.provider
  }

  /** Both runs were captured whole and can still be read. */
  predicate WholeEvidence(o: Observation)
  {
    o.capture.canProveAbsence && o.availability == Recoverable
  }

  /** Selection gaps, if any, are the same named tests skipped by both. */
  predicate SelectionsCover(
    baseline: Observation, subject: Observation, bt: Option<TestPopulation>, st: Option<TestPopulation>)
  {
    || (baseline.selection.exhaustive && subject.selection.exhaustive)
    || (&& ExcludesOnlySkipped(baseline.selection) && ExcludesOnlySkipped(subject.selection)
        && bt.Some? && st.Some? && bt.value.skippedTests == st.value.skippedTests
        && bt.value.skippedTests != []
        && bt.value.skipped == Some(|bt.value.skippedTests|)
        && st.value.skipped == Some(|st.value.skippedTests|))
  }

  /** The source did not move between the captures. */
  predicate SourceHeldStill(baseline: Observation, subject: Observation)
  {
    && (subject.sourceValidity == ConfirmedUnchanged || subject.sourceValidity == UnknownValidity)
    && (match (baseline.sourceState, subject.sourceState)
        case (Some(l), Some(r)) => l == r
        case (None, None) => subject.sourceValidity == ConfirmedUnchanged
        case _ => false)
  }

  /** Everything an absence proof needs, stated without the assessment. */
  predicate AbsenceProvable(
    baseline: Observation, subject: Observation, bt: Option<TestPopulation>, st: Option<TestPopulation>)
  {
    && SameQuestion(baseline, subject)
    && {} < NormalizedScopes(baseline) <= NormalizedScopes(subject)
    && WholeEvidence(baseline) && WholeEvidence(subject)
    && SelectionsCover(baseline, subject, bt, st)
    && SourceHeldStill(baseline, subject)
    && PopulationComparable(bt, st)
  }

  lemma AssessmentMeaning(
    baseline: Observation, subject: Observation, bt: Option<TestPopulation>, st: Option<TestPopulation>)
    ensures var shared := SharedSkippedTests(baseline, subject, bt, st);
            Assess(baseline, subject, shared).canProveAbsence && PopulationComparable(bt, st) <==>
            AbsenceProvable(baseline, subject, bt, st)
  {
    hide PopulationComparable, CaptureReasons, NormalizedScopes;
    var shared := SharedSkippedTests(baseline, subject, bt, st);
    assert SourceValidityOf(baseline, subject) == ConfirmedUnchanged <==> SourceHeldStill(baseline, subject);
    assert SelectionCounts(baseline, shared) && SelectionCounts(subject, shared) <==>
           SelectionsCover(baseline, subject, bt, st);
  }

  // ----- the comparison -----

  /** Findings keyed by fingerprint; a later finding replaces an earlier one. */
  function ByFingerprint(findings: seq<Finding>): map<string, Finding>
  {
    if findings == [] then map[]
    else
      var n := |findings| - 1;
      var before := ByFingerprint(findings[..n]);
      if findings[n].fingerprint.None? then before
      else before[findings[n].fingerprint.value := findings[n]]
  }

  /** A fingerprint is known exactly when some finding carries it, and stands
      for the last that does. */
  lemma {:induction false} LastOfFingerprint(findings: seq<Finding>, fp: string)
    ensures fp in ByFingerprint(findings) <==> exists i :: 0 <= i < |findings| && findings[i].fingerprint == Some(fp)
    ensures fp in ByFingerprint(findings) ==>
              exists i :: 0 <= i < |findings| && findings[i] == ByFingerprint(findings)[fp] &&
                          findings[i].fingerprint == Some(fp) &&
                          forall j :: i < j < |findings| ==> findings[j].fingerprint != Some(fp)
  {
    if findings != [] {
      var n := |findings| - 1;
      LastOfFingerprint(findings[..n], fp);
      if findings[n].fingerprint != Some(fp) && fp in ByFingerprint(findings[..n]) {
        var front := findings[..n];
        var i :| 0 <= i < n && front[i] == ByFingerprint(front)[fp] && front[i].fingerprint == Some(fp) &&
                 forall j :: i < j < n ==> front[j].fingerprint != Some(fp);
        assert findings[i] == front[i];
        assert forall j :: i < j < n ==> findings[j] == front[j];
      }
    }
  }

  function Collisions(findings: seq<Finding>): nat
  {
    if findings == [] then 0
    else
      var n := |findings| - 1;
      Collisions(findings[..n]) +
      (if findings[n].fingerprint.Some? && findings[n].fingerprint.value in ByFingerprint(findings[..n]) then 1 else 0)
  }

  predicate OutsideSubjectCoverage(f: Finding, subject: Observation, scope: Scope)
  {
    match scope
    case Disjoint => true
    case Subset => subject.selection.exhaustive && NormalizedScopes(subject) != {} &&
                   !exists s <- NormalizedScopes(subject) :: PathWithinScope(f.path, s)
    case Overlap => subject.selection.exhaustive && NormalizedScopes(subject) != {} &&
                    !exists s <- NormalizedScopes(subject) :: PathWithinScope(f.path, s)
    case _ => false
  }

  function StatusOf(b: Option<Finding>, s: Option<Finding>, subject: Observation, a: Assessment): Status
    requires b.Some? || s.Some?
  {
    if b.None? then New
    else if s.Some? then Persisting
    else if a.canProveAbsence then Resolved
    else if !subject.selection.exhaustive && NormalizedScopes(subject) != {} then NotObserved
    else if OutsideSubjectCoverage(b.value, subject, a.scope) then NotObserved
    else Unknown
  }

  function Find(m: map<string, Finding>, fp: string): Option<Finding>
  {
    if fp in m then Some(m[fp]) else None
  }

  function Truncate(s: string, limit: nat): string
  {
    if |s| <= limit then s else s[..SatSub(limit, 3)] + "..."
  }

  function Describe(
    fp: string, bm: map<string, Finding>, sm: map<string, Finding>, baseline: Observation, subject: Observation,
    a: Assessment): DeltaFinding
    requires fp in bm.Keys + sm.Keys
  {
    var b, s := Find(bm, fp), Find(sm, fp);
    var status := StatusOf(b, s, subject, a);
    var shown := if s.Some? then s.value else b.value;
    DeltaFinding(
      status, fp,
      if shown.title.Some? then Some(Truncate(shown.title.value, 180)) else None,
      if b.Some? then Some(b.value.path) else None,
      if s.Some? then Some(s.value.path) else None,
      if s.Some? then subject.availability else baseline.availability,
      match status case Resolved => [AbsenceProven] case Unknown => a.reasons case NotObserved => a.reasons case _ => [])
  }

  function Priority(s: Status): nat
  {
    match s case New => 0 case Persisting => 1 case Resolved => 2 case NotObserved => 3 case Unknown => 4
  }

  predicate DeltaLe(a: DeltaFinding, b: DeltaFinding)
  {
    Priority(a.status) < Priority(b.status) ||
    (Priority(a.status) == Priority(b.status) && StrLe(a.fingerprint, b.fingerprint))
  }

  lemma DeltaLeIsPreorder()
    ensures TotalPreorder(DeltaLe)
  {
    forall a: DeltaFinding, b: DeltaFinding ensures DeltaLe(a, b) || DeltaLe(b, a) {
      StrLeTotal(a.fingerprint, b.fingerprint);
    }
    forall a: DeltaFinding, b: DeltaFinding, c: DeltaFinding | DeltaLe(a, b) && DeltaLe(b, c) ensures DeltaLe(a, c) {
      if StrLe(a.fingerprint, b.fingerprint) && StrLe(b.fingerprint, c.fingerprint) {
        StrLeTransitive(a.fingerprint, b.fingerprint, c.fingerprint);
      }
    }
  }

  function Fingerprint(f: DeltaFinding): string { f.fingerprint }

  /** The untruncated comparison: every fingerprint of either side described
      once, new ones first. */
  ghost predicate IsFullComparison(
    baseline: Observation, subject: Observation, bf: seq<Finding>, sf: seq<Finding>, a: Assessment,
    full: seq<DeltaFinding>)
  {
    var bm, sm := ByFingerprint(bf), ByFingerprint(sf);
    && Sorted(full, DeltaLe)
    && Distinct(full, Fingerprint)
    && (forall f <- full :: f.fingerprint in bm.Keys + sm.Keys && f == Describe(f.fingerprint, bm, sm, baseline, subject, a))
    && (forall fp <- bm.Keys + sm.Keys :: Describe(fp, bm, sm, baseline, subject, a) in full)
  }

  function Tally(xs: seq<DeltaFinding>, s: Status): nat
  {
    if xs == [] then 0
    else Tally(xs[..|xs| - 1], s) + (if xs[|xs| - 1].status == s then 1 else 0)
  }

  /** The warnings among `texts`, none repeated. */
  function Warnings(side: Side, texts: seq<string>): (r: seq<Reason>)
    ensures forall x <- r :: x.ProviderWarning? && x.side == side
    ensures r == [] <==> texts == []
  {
    if texts == [] then []
    else
      var n := |texts| - 1;
      var before := Warnings(side, texts[..n]);
      before + When(ProviderWarning(side, texts[n]) !in before, ProviderWarning(side, texts[n]))
  }

  /** Each text is warned of once. */
  lemma {:induction false} WarningsOnceEach(side: Side, texts: seq<string>)
    ensures forall t :: ProviderWarning(side, t) in Warnings(side, texts) <==> t in texts
    ensures NoRepeats(Warnings(side, texts))
  {
    if texts != [] { WarningsOnceEach(side, texts[..|texts| - 1]); }
  }

  /** A provider's first warnings. */
  function FirstWarnings(side: Side, population: Option<TestPopulation>): (r: seq<Reason>)
    ensures r == [] <==> population.None? || population.value.warnings == []
  {
    if population.None? then []
    else
      var texts := population.value.warnings;
      Warnings(side, texts[..Min(|texts|, MAX_PROVIDER_WARNINGS)])
  }

  /** Fingerprints that stand for several findings. */
  function SharedReasons(bf: seq<Finding>, sf: seq<Finding>): seq<Reason>
  {
    When(Collisions(bf) > 0, SharedFingerprints(Baseline, Collisions(bf))) +
    When(Collisions(sf) > 0, SharedFingerprints(Subject, Collisions(sf)))
  }

  /** Why absence is not proven, and what else a reader should know: the gaps
      of the two observations, then of their tests, then the providers' own
      advice where the proof failed, then fingerprints that stand for several
      findings. */
  function AllReasons(
    baseline: Observation, subject: Observation, bf: seq<Finding>, sf: seq<Finding>, bt: Option<TestPopulation>,
    st: Option<TestPopulation>): seq<Reason>
  {
    var first := Assess(baseline, subject, SharedSkippedTests(baseline, subject, bt, st));
    first.reasons + PopulationReasons(bt, st) +
    (if first.canProveAbsence && PopulationComparable(bt, st) then []
     else FirstWarnings(Baseline, bt) + FirstWarnings(Subject, st)) +
    SharedReasons(bf, sf)
  }

  /** The final assessment differs from `Assess` only in what the populations
      and the findings themselves add. */
  ghost predicate IsFinalAssessment(
    baseline: Observation, subject: Observation, bf: seq<Finding>, sf: seq<Finding>, bt: Option<TestPopulation>,
    st: Option<TestPopulation>, a: Assessment)
  {
    var first := Assess(baseline, subject, SharedSkippedTests(baseline, subject, bt, st));
    a == first.(canProveAbsence := first.canProveAbsence && PopulationComparable(bt, st),
                reasons := AllReasons(baseline, subject, bf, sf, bt, st))
  }

  ghost predicate IsDelta(
    baseline: Observation, subject: Observation, bf: seq<Finding>, sf: seq<Finding>, bt: Option<TestPopulation>,
    st: Option<TestPopulation>, d: ObservationDelta, full: seq<DeltaFinding>)
  {
    && IsFinalAssessment(baseline, subject, bf, sf, bt, st, d.assessment)
    && IsFullComparison(baseline, subject, bf, sf, d.assessment, full)
    && d.baselineId == baseline.id && d.subjectId == subject.id
    && d.findings == full[..Min(|full|, MAX_DELTA_FINDINGS)]
    && d.truncated == (|full| > MAX_DELTA_FINDINGS)
    && (forall s: Status :: s in d.counts <==> Tally(full, s) > 0)
    && (forall s <- d.counts :: d.counts[s] == Tally(full, s))
  }

  method CompareObservationsWithTests(
    baseline: Observation, subject: Observation, bf: seq<Finding>, sf: seq<Finding>, bt: Option<TestPopulation>,
    st: Option<TestPopulation>) returns (d: ObservationDelta)
    ensures exists full :: IsDelta(baseline, subject, bf, sf, bt, st, d, full)
  {
    hide IsFinalAssessment, IsFullComparison;
    var assessment := FinalAssessment(baseline, subject, bf, sf, bt, st);
    var findings := DescribeAll(baseline, subject, bf, sf, assessment);
    var counts := CountStatuses(findings);
    d := ObservationDelta(baseline.id, subject.id, assessment, findings[..Min(|findings|, MAX_DELTA_FINDINGS)], counts,
                          |findings| > MAX_DELTA_FINDINGS);
    assert IsDelta(baseline, subject, bf, sf, bt, st, d, findings);
  }

  method FinalAssessment(
    baseline: Observation, subject: Observation, bf: seq<Finding>, sf: seq<Finding>, bt: Option<TestPopulation>,
    st: Option<TestPopulation>) returns (assessment: Assessment)
    ensures IsFinalAssessment(baseline, subject, bf, sf, bt, st, assessment)
  {
    hide Assess, PopulationComparable, PopulationReasons, Collisions, SharedSkippedTests, FirstWarnings, NoWarning,
         IsPopulationReason, SharedReasons, AllReasons;
    var shared := SharedSkippedTests(baseline, subject, bt, st);
    var first := Assess(baseline, subject, shared);
    var population := TestPopulationReasons(bt, st);
    var can := first.canProveAbsence && population == [];
    var reasons := first.reasons + population;
    if !can {
      NoWarningYet(baseline, subject, bt, st, population);
      reasons := AddWarnings(reasons, Baseline, bt);
      OtherWarnings(first.reasons + population, bt);
      reasons := AddWarnings(reasons, Subject, st);
    }
    ghost var told := reasons;
    if Collisions(bf) > 0 {
      reasons := reasons + [SharedFingerprints(Baseline, Collisions(bf))];
    }
    if Collisions(sf) > 0 {
      reasons := reasons + [SharedFingerprints(Subject, Collisions(sf))];
    }
    SharedAppended(told, bf, sf, reasons);
    assessment := first.(canProveAbsence := can, reasons := reasons);
    AllReasonsSplit(baseline, subject, bf, sf, bt, st, told);
  }

  lemma SharedAppended(told: seq<Reason>, bf: seq<Finding>, sf: seq<Finding>, reasons: seq<Reason>)
    requires reasons == told + (if Collisions(bf) > 0 then [SharedFingerprints(Baseline, Collisions(bf))] else []) +
                        (if Collisions(sf) > 0 then [SharedFingerprints(Subject, Collisions(sf))] else [])
    ensures reasons == told + SharedReasons(bf, sf)
  {
  }

  lemma AllReasonsSplit(
    baseline: Observation, subject: Observation, bf: seq<Finding>, sf: seq<Finding>, bt: Option<TestPopulation>,
    st: Option<TestPopulation>, told: seq<Reason>)
    requires var first := Assess(baseline, subject, SharedSkippedTests(baseline, subject, bt, st));
             told == first.reasons + PopulationReasons(bt, st) +
                     (if first.canProveAbsence && PopulationComparable(bt, st) then []
                      else FirstWarnings(Baseline, bt) + FirstWarnings(Subject, st))
    ensures AllReasons(baseline, subject, bf, sf, bt, st) == told + SharedReasons(bf, sf)
  {
    hide Assess, PopulationReasons, FirstWarnings, SharedReasons;
  }

  predicate NoWarning(reasons: seq<Reason>, side: Side)
  {
    forall r <- reasons :: !(r.ProviderWarning? && r.side == side)
  }

  lemma NoWarningYet(
    baseline: Observation, subject: Observation, bt: Option<TestPopulation>, st: Option<TestPopulation>,
    population: seq<Reason>)
    requires forall r <- population :: IsPopulationReason(bt, st, r)
    ensures var reasons := Assess(baseline, subject, SharedSkippedTests(baseline, subject, bt, st)).reasons + population;
            NoWarning(reasons, Baseline) && NoWarning(reasons, Subject)
  {
    hide Assess, SharedSkippedTests;
    NoWarningsYet(baseline, subject, SharedSkippedTests(baseline, subject, bt, st));
  }

  lemma OtherWarnings(reasons: seq<Reason>, population: Option<TestPopulation>)
    requires NoWarning(reasons, Subject)
    ensures NoWarning(reasons + FirstWarnings(Baseline, population), Subject)
  {
  }

  lemma {:induction false} StoppedScopesFacts(side: Side, affected: seq<AffectedScope>)
    ensures forall r <- StoppedScopes(side, affected) :: r.ScopeStopped?
    ensures StoppedScopes(side, affected) == [] <==> forall a <- affected :: a.stop.Completed?
  {
    if affected != [] { StoppedScopesFacts(side, affected[1..]); }
  }

  lemma NoWarningsYet(baseline: Observation, subject: Observation, shared: Option<nat>)
    ensures forall r <- Assess(baseline, subject, shared).reasons :: !r.ProviderWarning?
  {
    hide CaptureReasons, ScopeRelationship, SourceValidityOf, SelectionCounts, NormalizedScopes;
    CaptureWarnsNothing(Baseline, baseline, SelectionCounts(baseline, shared));
    CaptureWarnsNothing(Subject, subject, SelectionCounts(subject, shared));
  }

  lemma CaptureWarnsNothing(side: Side, o: Observation, counts: bool)
    ensures forall r <- CaptureReasons(side, o, counts) :: !r.ProviderWarning?
  {
    hide StoppedScopes;
    StoppedScopesFacts(side, o.capture.affected);
  }

  /** At most three provider warnings, none repeated, after reasons that hold
      no warning of that side. */
  method AddWarnings(reasons: seq<Reason>, side: Side, population: Option<TestPopulation>) returns (r: seq<Reason>)
    ensures reasons <= r && |r| <= |reasons| + MAX_PROVIDER_WARNINGS
    ensures NoWarning(reasons, side) ==> r == reasons + FirstWarnings(side, population)
  {
    hide NoWarning, Warnings;
    r := reasons;
    if population.None? { return; }
    var warnings := population.value.warnings;
    NoWarningsAtAll(side);
    for i := 0 to Min(|warnings|, MAX_PROVIDER_WARNINGS)
      invariant reasons <= r && |r| <= |reasons| + i
      invariant NoWarning(reasons, side) ==> r == reasons + Warnings(side, warnings[..i])
    {
      var reason := ProviderWarning(side, warnings[i]);
      OneMoreWarning(side, warnings[..i], warnings[i]);
      assert warnings[..i + 1] == warnings[..i] + [warnings[i]];
      if NoWarning(reasons, side) { OnlyAmongWarnings(reasons, side, Warnings(side, warnings[..i]), warnings[i]); }
      if reason !in r { r := r + [reason]; }
    }
  }

  lemma NoWarningsAtAll(side: Side)
    ensures Warnings(side, []) == []
  {
  }

  lemma OneMoreWarning(side: Side, texts: seq<string>, text: string)
    ensures Warnings(side, texts + [text]) ==
            Warnings(side, texts) +
            When(ProviderWarning(side, text) !in Warnings(side, texts), ProviderWarning(side, text))
  {
    assert (texts + [text])[..|texts|] == texts;
  }

  lemma OnlyAmongWarnings(reasons: seq<Reason>, side: Side, warnings: seq<Reason>, text: string)
    requires NoWarning(reasons, side)
    ensures ProviderWarning(side, text) in reasons + warnings <==> ProviderWarning(side, text) in warnings
  {
  }

  method DescribeAll(baseline: Observation, subject: Observation, bf: seq<Finding>, sf: seq<Finding>, a: Assessment)
      returns (full: seq<DeltaFinding>)
    ensures IsFullComparison(baseline, subject, bf, sf, a, full)
  {
    hide Describe, ByFingerprint, DeltaLe, Sort;
    var bm, sm := ByFingerprint(bf), ByFingerprint(sf);
    var all := bm.Keys + sm.Keys;
    var pending := all;
    var findings: seq<DeltaFinding> := [];
    while pending != {}
      invariant pending <= all
      invariant forall f <- findings :: f.fingerprint in all - pending &&
                                        f == Describe(f.fingerprint, bm, sm, baseline, subject, a)
      invariant forall fp <- all - pending :: Describe(fp, bm, sm, baseline, subject, a) in findings
      invariant Distinct(findings, Fingerprint)
      decreases pending
    {
      var fp :| fp in pending;
      DescribeKeepsFingerprint(fp, bm, sm, baseline, subject, a);
      findings := findings + [Describe(fp, bm, sm, baseline, subject, a)];
      pending := pending - {fp};
    }
    DeltaLeIsPreorder();
    SortSorted(findings, DeltaLe);
    SortContents(findings, DeltaLe);
    SortDistinct(findings, DeltaLe, Fingerprint);
    full := Sort(findings, DeltaLe);
  }

  lemma DescribeKeepsFingerprint(
    fp: string, bm: map<string, Finding>, sm: map<string, Finding>, baseline: Observation, subject: Observation,
    a: Assessment)
    requires fp in bm.Keys + sm.Keys
    ensures Describe(fp, bm, sm, baseline, subject, a).fingerprint == fp
  {
  }

  method CountStatuses(findings: seq<DeltaFinding>) returns (counts: map<Status, nat>)
    ensures forall s: Status :: s in counts <==> Tally(findings, s) > 0
    ensures forall s <- counts :: counts[s] == Tally(findings, s)
  {
    counts := map[];
    for i := 0 to |findings|
      invariant forall s: Status :: s in counts <==> Tally(findings[..i], s) > 0
      invariant forall s <- counts :: counts[s] == Tally(findings[..i], s)
    {
      assert findings[..i + 1][..i] == findings[..i];
      var s := findings[i].status;
      counts := counts[s := (if s in counts then counts[s] else 0) + 1];
    }
    assert findings[..|findings|] == findings;
  }

  // ----- what the statuses mean -----

  /** A finding is resolved exactly when it was there, is gone, and every
      condition of an absence proof holds. */
  lemma ResolvedExactlyWhenProven(
    baseline: Observation, subject: Observation, bf: seq<Finding>, sf: seq<Finding>, bt: Option<TestPopulation>,
    st: Option<TestPopulation>, d: ObservationDelta, full: seq<DeltaFinding>, f: DeltaFinding)
    requires IsDelta(baseline, subject, bf, sf, bt, st, d, full) && f in full
    ensures f.status == Resolved <==>
            f.fingerprint in ByFingerprint(bf) && f.fingerprint !in ByFingerprint(sf) &&
            AbsenceProvable(baseline, subject, bt, st)
  {
    hide Assess, PopulationComparable, AbsenceProvable;
    AssessmentMeaning(baseline, subject, bt, st);
  }

  // ----- refusals without an explanation -----

  /** Nothing keeps the runs from being compared, as far as the reasons look:
      they never look at the source, the operation or how the scopes relate. */
  predicate NothingToReport(
    baseline: Observation, subject: Observation, bf: seq<Finding>, sf: seq<Finding>, bt: Option<TestPopulation>,
    st: Option<TestPopulation>)
  {
    && NothingMissing(baseline, subject)
    && PopulationComparable(bt, st)
    && Collisions(bf) == 0 && Collisions(sf) == 0
  }

  /** The part of it that concerns the observations alone. */
  predicate NothingMissing(baseline: Observation, subject: Observation)
  {
    && baseline.invocation == subject.invocation && baseline.family == subject.family
    && baseline.parser == subject.parser && baseline.lens == subject.lens && baseline.provider == subject.provider
    && UncutWhole(baseline) && UncutWhole(subject)
    && SourceHeldStill(baseline, subject)
  }

  /** A whole, exhaustive capture that names its scopes and no stop anywhere. */
  predicate UncutWhole(o: Observation)
  {
    && WholeEvidence(o) && o.selection.exhaustive && NormalizedScopes(o) != {}
    && o.capture.stop.Completed? && forall a <- o.capture.affected :: a.stop.Completed?
  }

  /** Silence of the providers, which repeat their advice with every refusal. */
  predicate NoAdvice(population: Option<TestPopulation>)
  {
    population.None? || population.value.warnings == []
  }

  /** An absence proof is refused without a word exactly when the only gap is
      another source or operation, or a subject that leaves a scope out. */
  lemma RefusalUnexplainedIff(
    baseline: Observation, subject: Observation, bf: seq<Finding>, sf: seq<Finding>, bt: Option<TestPopulation>,
    st: Option<TestPopulation>, d: ObservationDelta, full: seq<DeltaFinding>)
    requires IsDelta(baseline, subject, bf, sf, bt, st, d, full)
    ensures !d.assessment.canProveAbsence && d.assessment.reasons == [] <==>
            && NothingToReport(baseline, subject, bf, sf, bt, st) && NoAdvice(bt) && NoAdvice(st)
            && (baseline.sourceId != subject.sourceId || baseline.operation != subject.operation ||
                !(NormalizedScopes(baseline) <= NormalizedScopes(subject)))
  {
    hide Assess, PopulationComparable, PopulationReasons, FirstWarnings, AbsenceProvable, Collisions, SharedSkippedTests,
         NothingMissing, IsFullComparison, NormalizedScopes;
    AssessmentMeaning(baseline, subject, bt, st);
    PopulationReasonsMean(bt, st);
    FirstReasonsEmptyIff(baseline, subject, bt, st);
    if NothingMissing(baseline, subject) && PopulationComparable(bt, st) {
      ProvableOrMoved(baseline, subject, bt, st);
    }
  }

  lemma FirstReasonsEmptyIff(
    baseline: Observation, subject: Observation, bt: Option<TestPopulation>, st: Option<TestPopulation>)
    ensures Assess(baseline, subject, SharedSkippedTests(baseline, subject, bt, st)).reasons == [] <==>
            NothingMissing(baseline, subject)
  {
    hide CaptureReasons, ScopeRelationship, SourceValidityOf, SourceHeldStill, NormalizedScopes;
    var shared := SharedSkippedTests(baseline, subject, bt, st);
    CaptureSilentIff(Baseline, baseline, SelectionCounts(baseline, shared));
    CaptureSilentIff(Subject, subject, SelectionCounts(subject, shared));
    SourceStillIff(baseline, subject);
    ScopesNamed(baseline);
    ScopesNamed(subject);
  }

  lemma CaptureSilentIff(side: Side, o: Observation, counts: bool)
    ensures CaptureReasons(side, o, counts) == [] <==>
            o.capture.stop.Completed? && (forall a <- o.capture.affected :: a.stop.Completed?) &&
            (o.selection.scopes == [] || counts)
  {
    hide StoppedScopes;
    StoppedScopesFacts(side, o.capture.affected);
  }

  lemma SourceStillIff(baseline: Observation, subject: Observation)
    ensures SourceValidityOf(baseline, subject) == ConfirmedUnchanged <==> SourceHeldStill(baseline, subject)
  {
  }

  lemma ScopesNamed(o: Observation)
    ensures NormalizedScopes(o) != {} ==> o.selection.scopes != []
  {
  }

  lemma ProvableOrMoved(
    baseline: Observation, subject: Observation, bt: Option<TestPopulation>, st: Option<TestPopulation>)
    requires NothingMissing(baseline, subject) && PopulationComparable(bt, st)
    ensures AbsenceProvable(baseline, subject, bt, st) <==>
            baseline.sourceId == subject.sourceId && baseline.operation == subject.operation &&
            NormalizedScopes(baseline) <= NormalizedScopes(subject)
  {
    hide SourceHeldStill, PopulationComparable, NormalizedScopes;
  }

  /** Such a refusal: the same run again, over one of its two scopes. */
  lemma RefusalWithoutAWord(o: Observation, d: ObservationDelta, full: seq<DeltaFinding>)
    requires UncutWhole(o) && o.sourceValidity == ConfirmedUnchanged
    requires IsDelta(OverScopes(o, ["/a", "/b"]), OverScopes(o, ["/a"]), [], [], None, None, d, full)
    ensures !d.assessment.canProveAbsence && d.assessment.reasons == []
  {
    hide IsDelta, NormalizedScopes, Trim;
    var before, after := OverScopes(o, ["/a", "/b"]), OverScopes(o, ["/a"]);
    ScopesOf(before, "/a");
    ScopesOf(before, "/b");
    ScopesOf(after, "/a");
    ScopesOf(after, "/b");
    RefusalUnexplainedIff(before, after, [], [], None, None, d, full);
  }

  function OverScopes(o: Observation, scopes: seq<string>): Observation
  {
    o.(selection := Selection(scopes, true, false))
  }

  lemma ScopesOf(o: Observation, scope: string)
    requires scope in {"/a", "/b"} && o.selection.scopes in {["/a"], ["/a", "/b"]}
    ensures scope in NormalizedScopes(o) <==> scope in o.selection.scopes
  {
    assert Trim("/a") == "/a" && Trim("/b") == "/b";
  }

  /** A resolved finding of a run with tests means that each failing test the
      baseline named ran again in the subject, and none was left unnamed. */
  lemma ResolvedMeansTestsRanAgain(
    baseline: Observation, subject: Observation, bf: seq<Finding>, sf: seq<Finding>, bt: Option<TestPopulation>,
    st: Option<TestPopulation>, d: ObservationDelta, full: seq<DeltaFinding>, f: DeltaFinding)
    requires IsDelta(baseline, subject, bf, sf, bt, st, d, full) && f in full && f.status == Resolved && bt.Some?
    ensures st.Some?
    ensures forall t <- bt.value.tests | FailedOrError(bt.value.tests[t]) ::
              t in st.value.tests && st.value.tests[t] in {"passed", "failed", "error"}
    ensures bt.value.failing.Some? ==> bt.value.failing.value <= |FailingTests(bt.value)|
    ensures bt.value.executed.Some? && st.value.executed.Some? ==> st.value.executed.value >= bt.value.executed.value
  {
    hide IsDelta;
    ResolvedExactlyWhenProven(baseline, subject, bf, sf, bt, st, d, full, f);
    forall t | t in bt.value.tests && FailedOrError(bt.value.tests[t])
      ensures t in st.value.tests && st.value.tests[t] in {"passed", "failed", "error"}
    {
      assert t in FailingTests(bt.value);
      assert RanAgain(st.value, t);
    }
  }

  // ----- partition, counts, truncation -----

  lemma {:induction false} TallySum(xs: seq<DeltaFinding>)
    ensures Tally(xs, New) + Tally(xs, Persisting) + Tally(xs, Resolved) + Tally(xs, NotObserved) + Tally(xs, Unknown)
            == |xs|
  {
    if xs != [] { TallySum(xs[..|xs| - 1]); }
  }

  function FingerprintSet(xs: seq<DeltaFinding>): set<string>
  {
    set f | f in xs :: f.fingerprint
  }

  lemma {:induction false} DistinctCount(xs: seq<DeltaFinding>)
    requires Distinct(xs, Fingerprint)
    ensures |FingerprintSet(xs)| == |xs|
  {
    hide FingerprintSet;
    if xs == [] {
      NoFingerprints();
    } else {
      var front, last := xs[..|xs| - 1], xs[|xs| - 1];
      DistinctCount(front);
      assert xs == front + [last];
      forall f | f in front ensures f.fingerprint != last.fingerprint {
        var i :| 0 <= i < |front| && front[i] == f;
        assert Fingerprint(xs[i]) != Fingerprint(xs[|xs| - 1]);
      }
      OneMoreFingerprint(front, last);
    }
  }

  lemma NoFingerprints()
    ensures FingerprintSet([]) == {}
  {
  }

  lemma OneMoreFingerprint(front: seq<DeltaFinding>, last: DeltaFinding)
    requires forall f <- front :: f.fingerprint != last.fingerprint
    ensures FingerprintSet(front + [last]) == FingerprintSet(front) + {last.fingerprint}
    ensures last.fingerprint !in FingerprintSet(front)
  {
  }

  /** Each distinct fingerprint of either side gets exactly one status, and the
      counts add up to the union even when the list is cut. */
  lemma StatusesPartitionTheUnion(
    baseline: Observation, subject: Observation, bf: seq<Finding>, sf: seq<Finding>, bt: Option<TestPopulation>,
    st: Option<TestPopulation>, d: ObservationDelta, full: seq<DeltaFinding>)
    requires IsDelta(baseline, subject, bf, sf, bt, st, d, full)
    ensures FingerprintSet(full) == ByFingerprint(bf).Keys + ByFingerprint(sf).Keys
    ensures |full| == |ByFingerprint(bf).Keys + ByFingerprint(sf).Keys|
    ensures Tally(full, New) + Tally(full, Persisting) + Tally(full, Resolved) + Tally(full, NotObserved) +
            Tally(full, Unknown) == |full|
  {
    hide Describe, ByFingerprint, IsFinalAssessment, DeltaLe;
    var bm, sm := ByFingerprint(bf), ByFingerprint(sf);
    forall fp | fp in bm.Keys + sm.Keys ensures fp in FingerprintSet(full) {
      DescribeKeepsFingerprint(fp, bm, sm, baseline, subject, d.assessment);
      assert Describe(fp, bm, sm, baseline, subject, d.assessment) in full;
    }
    DistinctCount(full);
    TallySum(full);
  }

  /** New findings sort first, so a cut list without one proves there is none. */
  lemma NoNewShownMeansNoneAtAll(
    baseline: Observation, subject: Observation, bf: seq<Finding>, sf: seq<Finding>, bt: Option<TestPopulation>,
    st: Option<TestPopulation>, d: ObservationDelta, full: seq<DeltaFinding>)
    requires IsDelta(baseline, subject, bf, sf, bt, st, d, full)
    requires forall f <- d.findings :: f.status != New
    ensures forall f <- full :: f.status != New
    ensures ByFingerprint(sf).Keys <= ByFingerprint(bf).Keys
  {
    hide ByFingerprint, IsFinalAssessment;
    forall f | f in full ensures f.status != New {
      var i :| 0 <= i < |full| && full[i] == f;
      assert d.findings[0] in d.findings;
      assert i == 0 || DeltaLe(full[0], full[i]);
    }
    var bm, sm := ByFingerprint(bf), ByFingerprint(sf);
    forall fp | fp in sm.Keys ensures fp in bm.Keys {
      assert Describe(fp, bm, sm, baseline, subject, d.assessment) in full;
    }
  }

  /** The list is determined by the comparison: no other order, no other cut. */
  lemma FullComparisonUnique(
    baseline: Observation, subject: Observation, bf: seq<Finding>, sf: seq<Finding>, a: Assessment,
    x: seq<DeltaFinding>, y: seq<DeltaFinding>)
    requires IsFullComparison(baseline, subject, bf, sf, a, x)
    requires IsFullComparison(baseline, subject, bf, sf, a, y)
    ensures x == y
  {
    hide Describe, ByFingerprint, DeltaLe;
    DeltaLeIsPreorder();
    SameMembers(baseline, subject, bf, sf, a, x, y);
    SameMembers(baseline, subject, bf, sf, a, y, x);
    OrderedByFingerprint(x, y);
  }

  /** Two comparisons of the same observations are the same comparison. */
  lemma DeltaUnique(
    baseline: Observation, subject: Observation, bf: seq<Finding>, sf: seq<Finding>, bt: Option<TestPopulation>,
    st: Option<TestPopulation>, d: ObservationDelta, x: seq<DeltaFinding>, e: ObservationDelta, y: seq<DeltaFinding>)
    requires IsDelta(baseline, subject, bf, sf, bt, st, d, x)
    requires IsDelta(baseline, subject, bf, sf, bt, st, e, y)
    ensures d == e && x == y
  {
    hide Assess, AllReasons, IsFullComparison, Tally;
    FullComparisonUnique(baseline, subject, bf, sf, d.assessment, x, y);
    assert d.counts == e.counts;
  }

  lemma SameMembers(
    baseline: Observation, subject: Observation, bf: seq<Finding>, sf: seq<Finding>, a: Assessment,
    x: seq<DeltaFinding>, y: seq<DeltaFinding>)
    requires IsFullComparison(baseline, subject, bf, sf, a, x)
    requires IsFullComparison(baseline, subject, bf, sf, a, y)
    ensures forall f :: f in x ==> f in y
  {
    hide Describe, ByFingerprint, DeltaLe;
  }

  lemma {:induction false} OrderedByFingerprint(x: seq<DeltaFinding>, y: seq<DeltaFinding>)
    requires Sorted(x, DeltaLe) && Sorted(y, DeltaLe)
    requires Distinct(x, Fingerprint) && Distinct(y, Fingerprint)
    requires forall f :: f in x <==> f in y
    ensures x == y
  {
    if x == [] {
      if y != [] { SomeMember(y); }
    } else {
      assert x[0] in x;
      var i :| 0 <= i < |y| && y[i] == x[0];
      assert y[0] in y;
      var j :| 0 <= j < |x| && x[j] == y[0];
      HeadIsLeast(x, j);
      HeadIsLeast(y, i);
      StrLeTotal(x[0].fingerprint, y[0].fingerprint);
      if i > 0 { DistinctAt(y, 0, i); }
      assert x[0] == y[0];
      NoRepeatsByKey(x);
      NoRepeatsByKey(y);
      forall f ensures f in x[1..] <==> f in y[1..] {
        TailMembers(x, f);
        TailMembers(y, f);
      }
      OrderedByFingerprint(x[1..], y[1..]);
      assert x == [x[0]] + x[1..] && y == [y[0]] + y[1..];
    }
  }

  lemma HeadIsLeast(x: seq<DeltaFinding>, i: nat)
    requires Sorted(x, DeltaLe) && i < |x|
    ensures DeltaLe(x[0], x[i])
  {
    StrLeTotal(x[0].fingerprint, x[0].fingerprint);
    assert i == 0 || DeltaLe(x[0], x[i]);
  }

  lemma DistinctAt(x: seq<DeltaFinding>, i: int, j: int)
    requires Distinct(x, Fingerprint) && 0 <= i < j < |x|
    ensures x[i].fingerprint != x[j].fingerprint
  {
    assert Fingerprint(x[i]) != Fingerprint(x[j]);
  }

  lemma NoRepeatsByKey(x: seq<DeltaFinding>)
    requires Distinct(x, Fingerprint)
    ensures NoRepeats(x)
  {
    forall i, j | 0 <= i < j < |x| ensures x[i] != x[j] {
      assert Fingerprint(x[i]) != Fingerprint(x[j]);
    }
  }

  /** Some finding of the comparison carries this fingerprint and status. */
  ghost predicate Reports(full: seq<DeltaFinding>, fp: string, s: Status)
  {
    exists f <- full :: f.fingerprint == fp && f.status == s
  }

  lemma ReportedStatus(
    baseline: Observation, subject: Observation, bf: seq<Finding>, sf: seq<Finding>, a: Assessment,
    full: seq<DeltaFinding>, fp: string, s: Status)
    requires IsFullComparison(baseline, subject, bf, sf, a, full)
    ensures var bm, sm := ByFingerprint(bf), ByFingerprint(sf);
            Reports(full, fp, s) <==>
            (fp in bm.Keys + sm.Keys && StatusOf(Find(bm, fp), Find(sm, fp), subject, a) == s)
  {
    hide ByFingerprint, DeltaLe, StatusOf, Truncate;
    var bm, sm := ByFingerprint(bf), ByFingerprint(sf);
    if fp in bm.Keys + sm.Keys {
      var f := Describe(fp, bm, sm, baseline, subject, a);
      assert f in full && f.fingerprint == fp;
    }
  }

  /** Swapping the arguments exchanges new findings with missing ones. */
  lemma SwapExchangesNewAndMissing(
    baseline: Observation, subject: Observation, bf: seq<Finding>, sf: seq<Finding>, bt: Option<TestPopulation>,
    st: Option<TestPopulation>, d: ObservationDelta, full: seq<DeltaFinding>, e: ObservationDelta,
    back: seq<DeltaFinding>, fp: string)
    requires IsDelta(baseline, subject, bf, sf, bt, st, d, full)
    requires IsDelta(subject, baseline, sf, bf, st, bt, e, back)
    ensures Reports(full, fp, New) <==>
            Reports(back, fp, Resolved) || Reports(back, fp, NotObserved) || Reports(back, fp, Unknown)
    ensures Reports(full, fp, Persisting) <==> Reports(back, fp, Persisting)
  {
    hide IsFinalAssessment, ByFingerprint, DeltaLe, Reports, IsFullComparison, NormalizedScopes, OutsideSubjectCoverage;
    ReportedStatus(baseline, subject, bf, sf, d.assessment, full, fp, New);
    ReportedStatus(baseline, subject, bf, sf, d.assessment, full, fp, Persisting);
    ReportedStatus(subject, baseline, sf, bf, e.assessment, back, fp, Resolved);
    ReportedStatus(subject, baseline, sf, bf, e.assessment, back, fp, NotObserved);
    ReportedStatus(subject, baseline, sf, bf, e.assessment, back, fp, Unknown);
    ReportedStatus(subject, baseline, sf, bf, e.assessment, back, fp, Persisting);
  }
}
