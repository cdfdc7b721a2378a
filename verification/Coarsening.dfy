/** The loop that coarsens a preview policy until the projection fits, and
    exactly which policies it brings to one scalar. */
module Coarsening {
  import opened Common
  import opened Json
  import opened Disclosure

  function HalveToZero(n: nat): nat { if n <= 1 then 0 else n / 2 }

  function Coarsen(p: Policy): Policy
  {
    Policy(HalveToZero(p.arrayItems), HalveToZero(p.objectFields), Max(HalveToZero(p.stringChars), 16),
           SatSub(p.depth, 1), Max(HalveToZero(p.nodeBudget), 1), p.maxEnvelopeBytes)
  }

  function CoarsenTimes(p: Policy, n: nat): Policy
  {
    if n == 0 then p else Coarsen(CoarsenTimes(p, n - 1))
  }

  /** The bottom of the ladder. */
  predicate AtFloor(p: Policy)
  {
    p.arrayItems == 0 && p.objectFields == 0 && p.stringChars == 16 && p.depth == 0 && p.nodeBudget == 1
  }

  /** Sixteen rungs, the most the loop ever takes. */
  const COARSEN_STEPS: nat := 16

  /** The loop stops early only at the floor: no other policy is a fixed point. */
  lemma FixedOnlyAtFloor(p: Policy)
    ensures Coarsen(p) == p <==> AtFloor(p)
  {
  }

  /** Repeated halving is division by a power of two. */
  function Halvings(n: nat, k: nat): nat
  {
    if k == 0 then n else Halvings(n, k - 1) / 2
  }

  lemma {:induction false} CoarsenTimesValues(p: Policy, k: nat)
    ensures var q := CoarsenTimes(p, k);
            q.arrayItems == Halvings(p.arrayItems, k) &&
            q.objectFields == Halvings(p.objectFields, k) &&
            q.depth == SatSub(p.depth, k) && q.maxEnvelopeBytes == p.maxEnvelopeBytes &&
            (k > 0 ==> q.stringChars == Max(Halvings(p.stringChars, k), 16) &&
                       q.nodeBudget == Max(Halvings(p.nodeBudget, k), 1))
  {
    if k > 0 {
      CoarsenTimesValues(p, k - 1);
    }
  }

  lemma FourHalvings(n: nat)
    ensures Halvings(n, 4) == n / 16
  {
    assert Halvings(n, 1) == n / 2;
    assert Halvings(n, 2) == n / 4;
    assert Halvings(n, 3) == n / 8;
  }

  lemma SixteenHalvings(n: nat)
    ensures Halvings(n, 16) == n / 65536
  {
    hide Halvings;
    HalvingsAdd(n, 4, 4);
    HalvingsAdd(n, 8, 4);
    HalvingsAdd(n, 12, 4);
    FourHalvings(n);
    FourHalvings(n / 16);
    FourHalvings(n / 256);
    FourHalvings(n / 4096);
    assert n / 16 / 16 == n / 256;
    assert n / 256 / 16 == n / 4096;
    assert n / 4096 / 16 == n / 65536;
  }

  lemma {:induction false} HalvingsAdd(n: nat, a: nat, b: nat)
    ensures Halvings(n, a + b) == Halvings(Halvings(n, a), b)
  {
    if b > 0 { HalvingsAdd(n, a, b - 1); }
  }

  /** Exactly which policies sixteen rungs bring to the floor. */
  lemma FloorThresholds(p: Policy)
    ensures AtFloor(CoarsenTimes(p, COARSEN_STEPS)) <==>
            p.arrayItems < 65536 && p.objectFields < 65536 && p.stringChars < 17 * 65536 &&
            p.depth <= 16 && p.nodeBudget < 2 * 65536
  {
    CoarsenTimesValues(p, 16);
    SixteenHalvings(p.arrayItems);
    SixteenHalvings(p.objectFields);
    SixteenHalvings(p.stringChars);
    SixteenHalvings(p.nodeBudget);
  }

  /** The serialized size of a projection; `None` when serializing fails. */
  type Sizer = Projection -> Option<nat>

  predicate Fits(p: Projection, limit: nat, size: Sizer)
  {
    size(p).Some? && size(p).value <= limit
  }

  /** `last` is the projection of rung `rung`: every finer rung was too large,
      and the loop had a reason to stop here. */
  ghost predicate StopsAt(v: Json, policy: Policy, base: string, size: Sizer, last: Projection, rung: nat)
  {
    && rung <= COARSEN_STEPS
    && last == ProjectOnce(v, CoarsenTimes(policy, rung), base)
    && AllTooLarge(v, policy, base, size, rung)
    && (Fits(last, policy.maxEnvelopeBytes, size) || size(last).None? ||
        rung == COARSEN_STEPS || AtFloor(CoarsenTimes(policy, rung)))
  }

  ghost predicate AllTooLarge(v: Json, policy: Policy, base: string, size: Sizer, rungs: nat)
  {
    forall k | 0 <= k < rungs ::
      var p := ProjectOnce(v, CoarsenTimes(policy, k), base);
      size(p).Some? && size(p).value > policy.maxEnvelopeBytes
  }

  lemma OneMoreTooLarge(v: Json, policy: Policy, base: string, size: Sizer, rung: nat)
    requires AllTooLarge(v, policy, base, size, rung)
    requires var p := ProjectOnce(v, CoarsenTimes(policy, rung), base);
             size(p).Some? && size(p).value > policy.maxEnvelopeBytes
    ensures AllTooLarge(v, policy, base, size, rung + 1)
  {
    hide ProjectOnce, CoarsenTimes;
  }

  /** One projection by a projector of its own. */
  method RunProjector(v: Json, policy: Policy, base: string) returns (p: Projection)
    ensures p == ProjectOnce(v, policy, base)
  {
    var projector := new Projector(policy);
    var preview := projector.ProjectValue(v, base, policy.depth);
    p := Projection(preview, projector.omitted);
    OnceIs(v, policy, base);
  }

  /** The coarsening loop. It returns the projection of the least coarse rung
      that fits, or of the last rung it may try. */
  method Project(v: Json, policy: Policy, base: string, size: Sizer) returns (last: Projection)
    ensures exists rung :: StopsAt(v, policy, base, size, last, rung)
  {
    hide ProjectOnce, AtFloor, CoarsenTimes, AllTooLarge, Coarsen;
    var current := policy;
    NoneTooLarge(v, policy, base, size);
    last := RunProjector(v, current, base);
    for rung := 0 to COARSEN_STEPS
      invariant current == CoarsenTimes(policy, rung) && current.maxEnvelopeBytes == policy.maxEnvelopeBytes
      invariant last == ProjectOnce(v, current, base)
      invariant AllTooLarge(v, policy, base, size, rung)
    {
      var bytes := size(last);
      if bytes.None? || bytes.value <= current.maxEnvelopeBytes {
        assert StopsAt(v, policy, base, size, last, rung);
        return;
      }
      var next := Coarsen(current);
      if next == current {
        FixedOnlyAtFloor(current);
        assert StopsAt(v, policy, base, size, last, rung);
        return;
      }
      OneMoreTooLarge(v, policy, base, size, rung);
      Rung(policy, rung + 1);
      CoarsenKeepsLimit(current);
      current := next;
      last := RunProjector(v, current, base);
    }
    assert StopsAt(v, policy, base, size, last, COARSEN_STEPS);
  }

  lemma NoneTooLarge(v: Json, policy: Policy, base: string, size: Sizer)
    ensures AllTooLarge(v, policy, base, size, 0) && CoarsenTimes(policy, 0) == policy
  {
  }

  lemma CoarsenKeepsLimit(p: Policy)
    ensures Coarsen(p).maxEnvelopeBytes == p.maxEnvelopeBytes
  {
  }

  lemma Rung(p: Policy, n: nat)
    ensures CoarsenTimes(p, n) == if n == 0 then p else Coarsen(CoarsenTimes(p, n - 1))
  {
  }

  lemma OnceIs(v: Json, p: Policy, base: string)
    ensures ProjectOnce(v, p, base) ==
            (var out := ProjectNode(v, base, p.depth, 0, p); Projection(out.preview, [] + out.omitted))
  {
    var out := ProjectNode(v, base, p.depth, 0, p);
    assert [] + out.omitted == out.omitted;
  }

  /** What the loop is for: whatever the value, the answer fits the limit or is
      one scalar with at most one listed region. */
  ghost predicate FitsOrScalar(policy: Policy)
  {
    forall v: Json, base: string, size: Sizer, last: Projection, rung: nat |
      SizesEnvelope(size) && StopsAt(v, policy, base, size, last, rung) && size(last).Some? ::
      Fits(last, policy.maxEnvelopeBytes, size) || OneScalar(last)
  }

  predicate OneScalar(p: Projection) { !IsContainer(p.preview) && |p.omitted| <= 1 }

  /** `{"preview":` and `,"omitted":[]}` are 25 bytes, and a preview is at least
      one. */
  const ENVELOPE_BYTES: nat := 26

  ghost predicate SizesEnvelope(size: Sizer)
  {
    forall p: Projection :: size(p).Some? ==> size(p).value >= ENVELOPE_BYTES
  }

  /** Sixteen rungs suffice for every policy of depth at most 16, however many
      items, fields, characters and nodes it starts with. */
  lemma CoarseningReachesFloor(v: Json, policy: Policy, base: string, size: Sizer, last: Projection, rung: nat)
    requires policy.depth <= 16 && StopsAt(v, policy, base, size, last, rung)
    ensures size(last).Some? ==> Fits(last, policy.maxEnvelopeBytes, size) || OneScalar(last)
  {
    hide CoarsenTimes, ProjectNode;
    var q := CoarsenTimes(policy, rung);
    CoarsenTimesValues(policy, rung);
    if q.depth == 0 { OpenLeaf(v, base, q.depth, 0, q); }
  }

  /** Beyond depth 16 an empty array is still an array on the last rung: when no
      projection fits the limit, that is the answer. */
  lemma DeepPolicyKeepsArray(policy: Policy, base: string, size: Sizer, last: Projection, rung: nat)
    requires policy.depth > 16 && StopsAt(Arr([]), policy, base, size, last, rung)
    requires forall p: Projection :: size(p).Some? && size(p).value > policy.maxEnvelopeBytes
    ensures rung == COARSEN_STEPS && last.preview == Arr([])
  {
    hide CoarsenTimes, ProjectKids;
    var q := CoarsenTimes(policy, rung);
    CoarsenTimesValues(policy, rung);
    OpenNode(Arr([]), base, q.depth, 0, q);
    assert Showing(Arr([]), q) == [];
    NoKids(base, q.depth - 1, 1, q);
    assert Values([]) == [];
  }

  /** The exact condition: the depth alone decides. */
  lemma FitsOrScalarIffDepth(policy: Policy)
    ensures FitsOrScalar(policy) <==> policy.depth <= 16
  {
    hide CoarsenTimes, ProjectOnce, StopsAt;
    if policy.depth <= 16 {
      forall v: Json, base: string, size: Sizer, last: Projection, rung: nat |
        SizesEnvelope(size) && StopsAt(v, policy, base, size, last, rung) && size(last).Some?
        ensures Fits(last, policy.maxEnvelopeBytes, size) || OneScalar(last)
      {
        CoarseningReachesFloor(v, policy, base, size, last, rung);
      }
    } else {
      var size: Sizer := _ => Some(policy.maxEnvelopeBytes + ENVELOPE_BYTES);
      var last := ProjectOnce(Arr([]), CoarsenTimes(policy, COARSEN_STEPS), []);
      StopsAtLast(policy, size);
      DeepPolicyKeepsArray(policy, [], size, last, COARSEN_STEPS);
      assert StopsAt(Arr([]), policy, [], size, last, COARSEN_STEPS) && !OneScalar(last);
    }
  }

  lemma StopsAtLast(policy: Policy, size: Sizer)
    requires forall p: Projection :: size(p).Some? && size(p).value > policy.maxEnvelopeBytes
    ensures var last := ProjectOnce(Arr([]), CoarsenTimes(policy, COARSEN_STEPS), []);
            StopsAt(Arr([]), policy, [], size, last, COARSEN_STEPS)
  {
    hide CoarsenTimes, ProjectOnce;
  }

  /** The default policy with depth 17 and a limit below every envelope: an
      empty payload comes back as an array that does not fit. */
  lemma DepthSeventeenMissesFloor(size: Sizer, last: Projection, rung: nat)
    requires SizesEnvelope(size) && forall p: Projection :: size(p).Some?
    requires StopsAt(Arr([]), Policy(5, 24, 160, 17, 400, 25), [], size, last, rung)
    ensures last.preview == Arr([]) && !Fits(last, 25, size)
  {
    hide StopsAt;
    var policy := Policy(5, 24, 160, 17, 400, 25);
    forall p: Projection ensures size(p).Some? && size(p).value > policy.maxEnvelopeBytes {
      assert size(p).value >= ENVELOPE_BYTES;
    }
    DeepPolicyKeepsArray(policy, [], size, last, rung);
  }
}
