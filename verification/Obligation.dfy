/** Readiness: whether an obligation passes on the evidence that can still be
    read, over an abstract store. */
module Obligation {
  import opened Common
  import opened Json
  import opened Sorting
  import opened Delta

  // ----- test populations read from a run payload -----

  function StringAt(v: Json, segments: seq<string>): Option<string>
  {
    match Get(v, segments)
    case Some(Str(s)) => Some(s)
    case _ => None
  }

  function NatAt(v: Json, segments: seq<string>): Option<nat>
  {
    match Get(v, segments)
    case Some(Num(Int(i))) => if i >= 0 then Some(i) else None
    case _ => None
  }

  /** Named tests with their last recorded status. */
  function NamedTests(records: seq<Json>): map<string, string>
  {
    if records == [] then map[]
    else
      var n := |records| - 1;
      var before := NamedTests(records[..n]);
      match (StringAt(records[n], ["node_id"]), StringAt(records[n], ["status"]))
      case (Some(id), Some(status)) => before[id := status]
      case _ => before
  }

  function SkippedIds(records: seq<Json>): seq<string>
  {
    if records == [] then []
    else
      var n := |records| - 1;
      SkippedIds(records[..n]) +
      (match (StringAt(records[n], ["status"]), StringAt(records[n], ["node_id"]))
       case (Some(status), Some(id)) => if status == "skipped" then [id] else []
       case _ => [])
  }

  function Strings(values: seq<Json>): seq<string>
  {
    if values == [] then []
    else (if values[0].Str? then [values[0].s] else []) + Strings(values[1..])
  }

  function PopulationOf(payload: Json): Option<TestPopulation>
  {
    match Get(payload, ["provider", "normalized", "tests"])
    case Some(Arr(records)) =>
      var failed := NatAt(payload, ["provider", "normalized", "counts", "failed"]);
      var errors := NatAt(payload, ["provider", "normalized", "counts", "error"]);
      Some(TestPopulation(
             NamedTests(records),
             NatAt(payload, ["provider", "normalized", "counts", "executed"]),
             if failed.None? && errors.None? then None
             else Some((if failed.Some? then failed.value else 0) + (if errors.Some? then errors.value else 0)),
             NatAt(payload, ["provider", "normalized", "counts", "skipped"]),
             Sort(SkippedIds(records), StrLe),
             match Get(payload, ["provider", "warnings"]) case Some(Arr(ws)) => Strings(ws) case _ => []))
    case _ => None
  }

  // ----- the store and what it holds -----

  datatype ReceiptStatus = Verified | Mismatched | StalePrecondition | ReceiptPending | ReadbackFailed | ReceiptUnverifiable

  datatype Receipt = Receipt(
    intentId: string,
    status: ReceiptStatus,
    obligationId: string,
    preObservationId: string,
    mutationResponseId: Option<string>,
    readbackId: Option<string>,
    assessment: Option<Assessment>)

  datatype Intent = Intent(sessionId: string, obligationId: string, preObservationId: string)

  datatype Store = Store(
    observations: map<string, Observation>,
    payloads: map<string, Json>,
    receipts: map<string, Receipt>,
    intents: map<string, Intent>)

  /** What lies outside the store: the current workspace, and the finding
      derivation over a stored payload. */
  datatype World = World(sameWorkspace: WorkspaceState -> bool, derive: (Observation, Json) -> seq<Finding>)

  datatype RequiredState = Any | WorkspaceUnchanged | SourceUnchanged | WorkspaceAndSourceUnchanged

  datatype ExpectedOperation = Argv(argv: seq<string>) | SourceOperation(name: string)

  datatype VerificationObligation = VerificationObligation(
    id: string,
    sessionId: string,
    requiredState: RequiredState,
    expectedOperation: Option<ExpectedOperation>,
    family: Option<string>,
    originId: Option<string>,
    expectedAbsent: Option<string>,
    evidenceId: Option<string>,
    receiptId: Option<string>,
    actionIntentId: Option<string>)

  datatype VerificationStatus =
    | Pending | Passed | Failed | StillThere | NewFinding | WasNotObserved | Stale | NotKnown | Unverifiable

  datatype Evaluation = Evaluation(
    status: VerificationStatus,
    assessment: Option<Assessment>,
    newRegressions: seq<DeltaFinding>)

  datatype EvaluationError = UnknownObservation(side: Side, id: string)

  function Read<T>(m: map<string, T>, key: string): Option<T>
  {
    if key in m then Some(m[key]) else None
  }

  function FindingsFor(store: Store, world: World, o: Observation): seq<Finding>
  {
    if o.payloadHash in store.payloads then world.derive(o, store.payloads[o.payloadHash]) else []
  }

  function TestsFor(store: Store, o: Observation): Option<TestPopulation>
  {
    if o.payloadHash in store.payloads then PopulationOf(store.payloads[o.payloadHash]) else None
  }

  ghost predicate ComparesStored(
    store: Store, world: World, b: Observation, s: Observation, d: ObservationDelta, full: seq<DeltaFinding>)
  {
    IsDelta(b, s, FindingsFor(store, world, b), FindingsFor(store, world, s), TestsFor(store, b), TestsFor(store, s),
            d, full)
  }

  method CompareObservationIds(store: Store, world: World, baselineId: string, subjectId: string)
      returns (r: Result<ObservationDelta, EvaluationError>)
    ensures r.Ok? <==> baselineId in store.observations && subjectId in store.observations
    ensures r.Ok? ==> exists full ::
              ComparesStored(store, world, store.observations[baselineId], store.observations[subjectId], r.value, full)
  {
    hide IsDelta, PopulationOf;
    if baselineId !in store.observations { return Err(UnknownObservation(Baseline, baselineId)); }
    if subjectId !in store.observations { return Err(UnknownObservation(Subject, subjectId)); }
    var b, s := store.observations[baselineId], store.observations[subjectId];
    var d := CompareObservationsWithTests(
      b, s, FindingsFor(store, world, b), FindingsFor(store, world, s), TestsFor(store, b), TestsFor(store, s));
    ghost var full :| IsDelta(b, s, FindingsFor(store, world, b), FindingsFor(store, world, s), TestsFor(store, b),
                              TestsFor(store, s), d, full);
    assert ComparesStored(store, world, b, s, d, full);
    r := Ok(d);
  }

  // ----- read-back receipts -----

  /** An observation whose payload can still be read. */
  predicate Readable(store: Store, id: string)
  {
    id in store.observations &&
    var o := store.observations[id];
    !o.availability.Expired? && !o.availability.MetadataOnly? && !o.availability.Unavailable? &&
    o.payloadHash in store.payloads
  }

  /** Every link of a verified receipt holds and every payload behind it can
      still be read. */
  predicate ReceiptSupported(store: Store, ob: VerificationObligation, receipt: Receipt)
  {
    && receipt.readbackId.Some?
    && ob.evidenceId == receipt.readbackId
    && ob.actionIntentId == Some(receipt.intentId)
    && receipt.intentId in store.intents
    && store.intents[receipt.intentId] == Intent(ob.sessionId, ob.id, receipt.preObservationId)
    && Readable(store, receipt.preObservationId)
    && Readable(store, receipt.readbackId.value)
    && (receipt.mutationResponseId.Some? ==> Readable(store, receipt.mutationResponseId.value))
  }

  method ReadbackEvidenceUnavailable(store: Store, ob: VerificationObligation, receipt: Receipt)
      returns (unavailable: bool)
    ensures unavailable <==> !ReceiptSupported(store, ob, receipt)
  {
    if receipt.readbackId.None? { return true; }
    var readback := receipt.readbackId.value;
    if ob.evidenceId != Some(readback) || ob.actionIntentId != Some(receipt.intentId) { return true; }
    if receipt.intentId !in store.intents { return true; }
    var intent := store.intents[receipt.intentId];
    if intent.sessionId != ob.sessionId || intent.obligationId != ob.id ||
       intent.preObservationId != receipt.preObservationId { return true; }
    var roles := [Some(receipt.preObservationId), Some(readback), receipt.mutationResponseId];
    for i := 0 to |roles|
      invariant forall k :: 0 <= k < i && roles[k].Some? ==> Readable(store, roles[k].value)
    {
      if roles[i].None? { continue; }
      var id := roles[i].value;
      if id !in store.observations {
        assert !Readable(store, roles[i].value);
        return true;
      }
      var o := store.observations[id];
      if o.availability.Expired? || o.availability.MetadataOnly? || o.availability.Unavailable? ||
         o.payloadHash !in store.payloads {
        assert !Readable(store, roles[i].value);
        return true;
      }
    }
    assert roles[0].Some? && roles[1].Some? && roles[2] == receipt.mutationResponseId;
    return false;
  }

  // ----- the gate every piece of evidence passes -----

  predicate NeedsWorkspace(s: RequiredState) { s.WorkspaceUnchanged? || s.WorkspaceAndSourceUnchanged? }

  predicate NeedsSource(s: RequiredState) { s.SourceUnchanged? || s.WorkspaceAndSourceUnchanged? }

  function AllStrings(values: seq<Json>): Option<seq<string>>
  {
    if forall i :: 0 <= i < |values| ==> values[i].Str? then Some(Strings(values)) else None
  }

  function EvidenceArgv(store: Store, o: Observation): Option<seq<string>>
  {
    if o.payloadHash !in store.payloads then None
    else
      match Get(store.payloads[o.payloadHash], ["command", "argv"])
      case Some(Arr(argv)) => AllStrings(argv)
      case _ => None
  }

  predicate OperationMatches(store: Store, expected: ExpectedOperation, o: Observation)
  {
    match expected
    case Argv(argv) => EvidenceArgv(store, o) == Some(argv)
    case SourceOperation(name) => o.operation == name
  }

  /** Evidence that was captured whole and can still be read. */
  predicate Usable(o: Observation, s: RequiredState)
  {
    o.availability == Recoverable && o.capture.canProveAbsence && (NeedsWorkspace(s) ==> o.workspace.Some?)
  }

  /** Evidence that still describes the state and the operation asked about. */
  predicate Current(store: Store, world: World, ob: VerificationObligation, o: Observation)
  {
    && (o.workspace.Some? && (NeedsWorkspace(ob.requiredState) || ob.requiredState.Any?) ==>
          world.sameWorkspace(o.workspace.value))
    && (NeedsSource(ob.requiredState) ==> o.sourceValidity == ConfirmedUnchanged)
    && (ob.expectedOperation.Some? ==> OperationMatches(store, ob.expectedOperation.value, o))
    && (ob.family.Some? ==> o.family == ob.family)
  }

  /** The first failing check decides; `None` lets the evidence through. */
  method GateEvidence(store: Store, world: World, ob: VerificationObligation, o: Observation)
      returns (stop: Option<VerificationStatus>)
    ensures stop == (if !Usable(o, ob.requiredState) then Some(Unverifiable)
                     else if !Current(store, world, ob, o) then Some(Stale)
                     else None)
  {
    if o.availability != Recoverable { return Some(Unverifiable); }
    if !o.capture.canProveAbsence { return Some(Unverifiable); }
    var requiresWorkspace := ob.requiredState.WorkspaceUnchanged? || ob.requiredState.WorkspaceAndSourceUnchanged?;
    if requiresWorkspace && o.workspace.None? { return Some(Unverifiable); }
    if o.workspace.Some? {
      if !world.sameWorkspace(o.workspace.value) && (requiresWorkspace || ob.requiredState.Any?) { return Some(Stale); }
    }
    var requiresSource := ob.requiredState.SourceUnchanged? || ob.requiredState.WorkspaceAndSourceUnchanged?;
    if requiresSource && o.sourceValidity != ConfirmedUnchanged { return Some(Stale); }
    if ob.expectedOperation.Some? {
      if !OperationMatches(store, ob.expectedOperation.value, o) { return Some(Stale); }
    }
    if ob.family.Some? && o.family != ob.family { return Some(Stale); }
    return None;
  }

  // ----- the three ways to pass -----

  predicate PassesByReceipt(store: Store, ob: VerificationObligation)
  {
    ob.receiptId.Some? && ob.receiptId.value in store.receipts &&
    var receipt := store.receipts[ob.receiptId.value];
    receipt.obligationId == ob.id && receipt.status == Verified && ReceiptSupported(store, ob, receipt)
  }

  /** Evidence with no receipt in play that clears the gate. */
  predicate Admitted(store: Store, world: World, ob: VerificationObligation)
  {
    ob.receiptId.None? && ob.evidenceId.Some? && ob.evidenceId.value in store.observations &&
    var o := store.observations[ob.evidenceId.value];
    Usable(o, ob.requiredState) && Current(store, world, ob, o)
  }

  function CommandSuccess(store: Store, o: Observation): Option<bool>
  {
    if o.payloadHash !in store.payloads then None
    else
      match Get(store.payloads[o.payloadHash], ["command", "success"])
      case Some(Bool(b)) => Some(b)
      case _ => None
  }

  predicate IsCodingRun(store: Store, o: Observation)
  {
    o.payloadHash in store.payloads &&
    StringAt(store.payloads[o.payloadHash], ["provider", "schema"]) == Some("prog.coding_provider")
  }

  predicate PassesByCommand(store: Store, world: World, ob: VerificationObligation)
  {
    Admitted(store, world, ob) && ob.originId.None? && ob.expectedAbsent.None? &&
    var o := store.observations[ob.evidenceId.value];
    CommandSuccess(store, o) == Some(true) && (IsCodingRun(store, o) ==> o.selection.exhaustive)
  }

  predicate FailsByCommand(store: Store, world: World, ob: VerificationObligation)
  {
    Admitted(store, world, ob) && ob.originId.None? && ob.expectedAbsent.None? &&
    CommandSuccess(store, store.observations[ob.evidenceId.value]) == Some(false)
  }

  predicate FindingQuestion(store: Store, world: World, ob: VerificationObligation)
  {
    Admitted(store, world, ob) && ob.originId.Some? && ob.expectedAbsent.Some? &&
    ob.originId.value in store.observations
  }

  /** The finding route on the untruncated comparison: the expected finding was
      in the origin, is gone, its absence is proven, the evidence holds no
      finding the origin lacked, and the answer survived the cut. */
  ghost predicate PassesByFinding(store: Store, world: World, ob: VerificationObligation, full: seq<DeltaFinding>)
  {
    FindingQuestion(store, world, ob) &&
    var b, s := store.observations[ob.originId.value], store.observations[ob.evidenceId.value];
    var bf, sf := ByFingerprint(FindingsFor(store, world, b)), ByFingerprint(FindingsFor(store, world, s));
    && ob.expectedAbsent.value in bf && ob.expectedAbsent.value !in sf
    && AbsenceProvable(b, s, TestsFor(store, b), TestsFor(store, s))
    && sf.Keys <= bf.Keys
    && (exists i :: 0 <= i < |full| && i < MAX_DELTA_FINDINGS && full[i].fingerprint == ob.expectedAbsent.value)
  }

  /** The comparison behind an evaluation, when there is one. */
  ghost predicate ComparisonOf(store: Store, world: World, ob: VerificationObligation, full: seq<DeltaFinding>)
  {
    FindingQuestion(store, world, ob) ==>
      exists d :: ComparesStored(store, world, store.observations[ob.originId.value],
                                 store.observations[ob.evidenceId.value], d, full)
  }

  /** The three ways to pass, and no other. */
  ghost predicate PassesExactly(
    store: Store, world: World, ob: VerificationObligation, full: seq<DeltaFinding>, e: Evaluation)
  {
    e.status == Passed <==>
    (PassesByReceipt(store, ob) || PassesByCommand(store, world, ob) || PassesByFinding(store, world, ob, full))
  }

  /** The answer where no two observations are compared: a receipt's own, then
      whatever keeps the evidence from being used, then the command's. */
  function PlainAnswer(store: Store, world: World, ob: VerificationObligation): VerificationStatus
  {
    if ob.receiptId.Some? then
      if ob.receiptId.value !in store.receipts then Unverifiable
      else
        var receipt := store.receipts[ob.receiptId.value];
        if receipt.obligationId != ob.id then Unverifiable
        else if receipt.status == Verified && !ReceiptSupported(store, ob, receipt) then Unverifiable
        else ReceiptAnswer(receipt.status)
    else if ob.evidenceId.None? then Pending
    else if ob.evidenceId.value !in store.observations then Unverifiable
    else
      var o := store.observations[ob.evidenceId.value];
      if !Usable(o, ob.requiredState) then Unverifiable
      else if !Current(store, world, ob, o) then Stale
      else if ob.originId.Some? || ob.expectedAbsent.Some? then NotKnown
      else if CommandSuccess(store, o).None? then NotKnown
      else if !CommandSuccess(store, o).value then Failed
      else if IsCodingRun(store, o) && !o.selection.exhaustive then Unverifiable
      else Passed
  }

  method EvaluateObligation(store: Store, world: World, ob: VerificationObligation)
      returns (r: Result<Evaluation, EvaluationError>)
    // An obligation passes in exactly three ways.
    ensures r.Ok? ==> exists full :: ComparisonOf(store, world, ob, full) && PassesExactly(store, world, ob, full, r.value)
    ensures r.Err? <==> Admitted(store, world, ob) && ob.originId.Some? && ob.expectedAbsent.Some? &&
                        ob.originId.value !in store.observations
    // Every other answer, and the one failure that is not a mismatched receipt.
    ensures r.Ok? && !FindingQuestion(store, world, ob) ==> r.value.status == PlainAnswer(store, world, ob)
    ensures r.Ok? && FindingQuestion(store, world, ob) ==> ReadsComparison(store, world, ob, r.value)
    ensures r.Ok? && r.value.status == Failed ==>
              (ob.receiptId.Some? && ob.receiptId.value in store.receipts &&
               store.receipts[ob.receiptId.value].status == Mismatched) ||
              FailsByCommand(store, world, ob)
  {
    hide Usable, Current, ReceiptSupported, AbsenceProvable, ComparesStored, PassesByFinding, PopulationOf, Get;
    if ob.receiptId.Some? {
      NoFindingRoute(store, world, ob);
      assert ComparisonOf(store, world, ob, []);
      if ob.receiptId.value !in store.receipts { return Ok(Evaluation(Unverifiable, None, [])); }
      var receipt := store.receipts[ob.receiptId.value];
      if receipt.obligationId != ob.id { return Ok(Evaluation(Unverifiable, receipt.assessment, [])); }
      if receipt.status == Verified {
        var unavailable := ReadbackEvidenceUnavailable(store, ob, receipt);
        if unavailable { return Ok(Evaluation(Unverifiable, receipt.assessment, [])); }
      }
      return Ok(Evaluation(ReceiptAnswer(receipt.status), receipt.assessment, []));
    }
    if ob.evidenceId.None? || ob.evidenceId.value !in store.observations {
      NoFindingRoute(store, world, ob);
      assert ComparisonOf(store, world, ob, []);
      return Ok(Evaluation(if ob.evidenceId.None? then Pending else Unverifiable, None, []));
    }
    var evidence := store.observations[ob.evidenceId.value];
    var stop := GateEvidence(store, world, ob, evidence);
    if stop.Some? {
      NoFindingRoute(store, world, ob);
      assert ComparisonOf(store, world, ob, []);
      return Ok(Evaluation(stop.value, None, []));
    }
    if ob.originId.Some? && ob.expectedAbsent.Some? {
      r := EvaluateFinding(store, world, ob);
    } else {
      NoFindingRoute(store, world, ob);
      assert ComparisonOf(store, world, ob, []);
      if ob.originId.None? && ob.expectedAbsent.None? {
        var success := CommandSuccess(store, evidence);
        var uncovered := IsCodingRun(store, evidence) && !evidence.selection.exhaustive;
        r := Ok(Evaluation(
                  if success.None? then NotKnown
                  else if !success.value then Failed
                  else if uncovered then Unverifiable else Passed, None, []));
      } else {
        r := Ok(Evaluation(NotKnown, None, []));
      }
    }
  }

  function ReceiptAnswer(s: ReceiptStatus): VerificationStatus
  {
    match s
    case Verified => Passed
    case Mismatched => Failed
    case StalePrecondition => Stale
    case ReceiptPending => Pending
    case ReadbackFailed => Unverifiable
    case ReceiptUnverifiable => Unverifiable
  }

  lemma NoFindingRoute(store: Store, world: World, ob: VerificationObligation)
    ensures !FindingQuestion(store, world, ob) ==> forall full :: !PassesByFinding(store, world, ob, full)
  {
  }

  function FindingAnswer(s: Status): VerificationStatus
  {
    match s
    case New => NewFinding
    case Persisting => StillThere
    case Resolved => Passed
    case NotObserved => WasNotObserved
    case Unknown => NotKnown
  }

  /** The answer of the first listed finding with the fingerprint. */
  function AnswerFor(findings: seq<DeltaFinding>, fp: string): VerificationStatus
  {
    if findings == [] then NotKnown
    else if findings[0].fingerprint == fp then FindingAnswer(findings[0].status)
    else AnswerFor(findings[1..], fp)
  }

  lemma {:induction false} AnswerIsListed(findings: seq<DeltaFinding>, fp: string)
    ensures (exists k :: 0 <= k < |findings| && findings[k].fingerprint == fp) ==>
              exists k :: 0 <= k < |findings| && findings[k].fingerprint == fp &&
                          AnswerFor(findings, fp) == FindingAnswer(findings[k].status)
    ensures !(exists k :: 0 <= k < |findings| && findings[k].fingerprint == fp) ==> AnswerFor(findings, fp) == NotKnown
  {
    if findings != [] && findings[0].fingerprint != fp {
      var rest := findings[1..];
      AnswerIsListed(rest, fp);
      assert forall k :: 0 <= k < |rest| ==> rest[k] == findings[k + 1];
      if k :| 0 <= k < |findings| && findings[k].fingerprint == fp { assert rest[k - 1] == findings[k]; }
    }
  }

  function NewOnes(findings: seq<DeltaFinding>): (r: seq<DeltaFinding>)
    ensures forall f :: f in r <==> f in findings && f.status == New
  {
    if findings == [] then []
    else (if findings[0].status == New then [findings[0]] else []) + NewOnes(findings[1..])
  }

  /** What the shown comparison says of an expected absence: an absence beside a
      new finding is reported as the new finding. */
  function FindingEvaluation(d: ObservationDelta, fp: string): Evaluation
  {
    var answer, regressions := AnswerFor(d.findings, fp), NewOnes(d.findings);
    Evaluation(if answer == Passed && regressions != [] then NewFinding else answer, Some(d.assessment), regressions)
  }

  /** The finding route: look the expected fingerprint up in the shown list and
      refuse to pass beside a new finding. */
  method EvaluateFinding(store: Store, world: World, ob: VerificationObligation)
      returns (r: Result<Evaluation, EvaluationError>)
    requires Admitted(store, world, ob) && ob.originId.Some? && ob.expectedAbsent.Some?
    ensures r.Ok? <==> ob.originId.value in store.observations
    ensures r.Ok? ==> r.value.status != Failed
    ensures r.Ok? ==> exists full ::
              ComparisonOf(store, world, ob, full) &&
              (r.value.status == Passed <==> PassesByFinding(store, world, ob, full))
    ensures r.Ok? ==> ReadsComparison(store, world, ob, r.value)
  {
    hide Usable, Current, AbsenceProvable, PopulationOf, IsDelta, Get, PassesByFinding, ComparesStored, AnswerFor, NewOnes;
    var compared := CompareObservationIds(store, world, ob.originId.value, ob.evidenceId.value);
    if compared.Err? {
      return Err(compared.error);
    }
    var d := compared.value;
    ghost var full :| ComparesStored(store, world, store.observations[ob.originId.value],
                                     store.observations[ob.evidenceId.value], d, full);
    var answer, regressions := AnswerFor(d.findings, ob.expectedAbsent.value), NewOnes(d.findings);
    AnswerIsListed(d.findings, ob.expectedAbsent.value);
    AnyNew(d.findings);
    NeverFails(d.findings, ob.expectedAbsent.value);
    FindingRouteExact(store, world, ob, d, full, answer, regressions != []);
    var status := if answer == Passed && regressions != [] then NewFinding else answer;
    assert ComparisonOf(store, world, ob, full);
    r := Ok(Evaluation(status, Some(d.assessment), regressions));
  }

  lemma AnyNew(findings: seq<DeltaFinding>)
    ensures NewOnes(findings) != [] <==> exists f <- findings :: f.status == New
  {
    if NewOnes(findings) != [] { assert NewOnes(findings)[0] in NewOnes(findings); }
  }

  lemma {:induction false} NeverFails(findings: seq<DeltaFinding>, fp: string)
    ensures AnswerFor(findings, fp) != Failed
  {
    if findings != [] { NeverFails(findings[1..], fp); }
  }

  /** The evaluation is the one a comparison of the two observations gives. */
  ghost predicate ReadsComparison(store: Store, world: World, ob: VerificationObligation, e: Evaluation)
    requires ob.originId.Some? && ob.evidenceId.Some? && ob.expectedAbsent.Some?
    requires ob.originId.value in store.observations && ob.evidenceId.value in store.observations
  {
    exists d, full ::
      ComparesStored(store, world, store.observations[ob.originId.value], store.observations[ob.evidenceId.value], d, full) &&
      e == FindingEvaluation(d, ob.expectedAbsent.value)
  }

  /** Reading the cut list is as good as reading the whole comparison. */
  lemma FindingRouteExact(
    store: Store, world: World, ob: VerificationObligation, d: ObservationDelta, full: seq<DeltaFinding>,
    answer: VerificationStatus, regressed: bool)
    requires FindingQuestion(store, world, ob)
    requires ComparesStored(store, world, store.observations[ob.originId.value],
                            store.observations[ob.evidenceId.value], d, full)
    requires regressed <==> exists f <- d.findings :: f.status == New
    requires var fp := ob.expectedAbsent.value;
             if exists k :: 0 <= k < |d.findings| && d.findings[k].fingerprint == fp
             then exists k :: 0 <= k < |d.findings| && d.findings[k].fingerprint == fp &&
                              answer == FindingAnswer(d.findings[k].status)
             else answer == NotKnown
    ensures answer == Passed && !regressed <==> PassesByFinding(store, world, ob, full)
  {
    hide AbsenceProvable, PopulationOf, IsFinalAssessment, IsFullComparison, ByFingerprint, Usable, Current, Tally;
    var b, s := store.observations[ob.originId.value], store.observations[ob.evidenceId.value];
    var bf, sf := FindingsFor(store, world, b), FindingsFor(store, world, s);
    var bt, st := TestsFor(store, b), TestsFor(store, s);
    var fp := ob.expectedAbsent.value;
    if !regressed {
      NoNewShownMeansNoneAtAll(b, s, bf, sf, bt, st, d, full);
    } else {
      var f :| f in d.findings && f.status == New;
      assert f in full;
      NewIsOnlyInSubject(b, s, bf, sf, d.assessment, full, f);
    }
    if k :| 0 <= k < |d.findings| && d.findings[k].fingerprint == fp && answer == FindingAnswer(d.findings[k].status) {
      assert d.findings[k] == full[k];
      ResolvedExactlyWhenProven(b, s, bf, sf, bt, st, d, full, full[k]);
    }
  }

  lemma NewIsOnlyInSubject(
    b: Observation, s: Observation, bf: seq<Finding>, sf: seq<Finding>, a: Assessment, full: seq<DeltaFinding>,
    f: DeltaFinding)
    requires IsFullComparison(b, s, bf, sf, a, full) && f in full && f.status == New
    ensures f.fingerprint in ByFingerprint(sf) && f.fingerprint !in ByFingerprint(bf)
  {
    hide ByFingerprint;
  }

  /** What a pass by the finding route tells about the whole comparison. */
  lemma PassedFindingMeansResolvedAndNothingNew(
    store: Store, world: World, ob: VerificationObligation, d: ObservationDelta, full: seq<DeltaFinding>)
    requires PassesByFinding(store, world, ob, full)
    requires ComparesStored(store, world, store.observations[ob.originId.value],
                            store.observations[ob.evidenceId.value], d, full)
    ensures exists f <- d.findings :: f.fingerprint == ob.expectedAbsent.value && f.status == Resolved
    ensures forall f <- full :: f.status != New
  {
    hide AbsenceProvable, PopulationOf, IsFinalAssessment, IsFullComparison, ByFingerprint, Usable, Current, Tally;
    var b, s := store.observations[ob.originId.value], store.observations[ob.evidenceId.value];
    var bf, sf := FindingsFor(store, world, b), FindingsFor(store, world, s);
    var bt, st := TestsFor(store, b), TestsFor(store, s);
    var i :| 0 <= i < |full| && i < MAX_DELTA_FINDINGS && full[i].fingerprint == ob.expectedAbsent.value;
    ResolvedExactlyWhenProven(b, s, bf, sf, bt, st, d, full, full[i]);
    assert d.findings[i] == full[i];
    forall f | f in full ensures f.status != New {
      if f.status == New { NewIsOnlyInSubject(b, s, bf, sf, d.assessment, full, f); }
    }
  }
}
