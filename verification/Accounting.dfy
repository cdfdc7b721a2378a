/** Responses that state their own size: the serializer, the verdict on that
    size, and the loop that looks for a size equal to what it records. */
module Accounting {
  import opened Common
  import opened Json
  import opened Overview

  const ACCOUNTING_ROUNDS: nat := 24
  const DEFAULT_DISCLOSURE_BUDGET_BYTES: nat := 16 * 1024
  const MAX_DISCLOSURE_BUDGET_BYTES: nat := 64 * 1024
  const MIN_DISCLOSURE_BUDGET_BYTES: nat := 512

  // ----- serialization -----

  /** Text of the leaves the serializer does not spell out here: a quoted and
      escaped string, and a float. One character stands for one byte. */
  datatype Codec = Codec(quote: string -> string, float: real -> string)

  /** `Compact`, or `Pretty` at an indentation level. */
  datatype Style = Compact | Pretty(level: nat)

  function Deeper(s: Style): Style { if s.Pretty? then Pretty(s.level + 1) else s }

  function Indent(n: nat): string { if n == 0 then [] else "  " + Indent(n - 1) }

  function BreakLine(s: Style): string { if s.Pretty? then "\n" + Indent(s.level) else [] }

  function Label(c: Codec, v: Json, key: string, s: Style): string
  {
    if v.Obj? then c.quote(key) + (if s.Pretty? then ": " else ":") else []
  }

  function Render(c: Codec, v: Json, s: Style): string
    decreases v, 1
  {
    match v
    case Null => "null"
    case Bool(b) => if b then "true" else "false"
    case Num(n) => if n.Int? then IntText(n.i) else c.float(n.r)
    case Str(text) => c.quote(text)
    case Arr(_) => if Children(v) == [] then "[]" else "[" + RenderFrom(c, v, 0, s) + BreakLine(s) + "]"
    case Obj(_) => if Children(v) == [] then "{}" else "{" + RenderFrom(c, v, 0, s) + BreakLine(s) + "}"
  }

  function RenderFrom(c: Codec, v: Json, i: nat, s: Style): string
    decreases v, 0, |Children(v)| - i
  {
    if i >= |Children(v)| then []
    else
      (if i > 0 then "," else []) + BreakLine(Deeper(s)) + Label(c, v, Children(v)[i].key, s) +
      Render(c, Children(v)[i].value, Deeper(s)) + RenderFrom(c, v, i + 1, s)
  }

  /** Replacing one member's value changes the text by exactly the difference of
      the two values' texts. */
  lemma {:induction false} ReplaceChangesLength(c: Codec, v: Json, w: Json, k: nat, i: nat, s: Style)
    requires v.Obj? && w.Obj? && |v.members| == |w.members| && k < |v.members|
    requires forall j :: 0 <= j < |v.members| ==> v.members[j].key == w.members[j].key
    requires forall j :: 0 <= j < |v.members| && j != k ==> v.members[j] == w.members[j]
    ensures |RenderFrom(c, w, i, s)| - |RenderFrom(c, v, i, s)| ==
            if i <= k then |Render(c, w.members[k].value, Deeper(s))| - |Render(c, v.members[k].value, Deeper(s))| else 0
    decreases |v.members| - i
  {
    hide Render, Label, BreakLine, Deeper;
    if i < |v.members| {
      ReplaceChangesLength(c, v, w, k, i + 1, s);
      LabelOfObject(c, v, w, v.members[i].key, s);
    }
  }

  lemma LabelOfObject(c: Codec, v: Json, w: Json, key: string, s: Style)
    requires v.Obj? && w.Obj?
    ensures Label(c, v, key, s) == Label(c, w, key, s)
  {
  }

  // ----- setting fields of a response -----

  /** `value[key]` when reading: absent is null. */
  function Index(v: Json, key: string): Json
  {
    if v.Obj? && Lookup(v.members, key).Some? then Lookup(v.members, key).value else Null
  }

  predicate Has(v: Json, key: string) { v.Obj? && Lookup(v.members, key).Some? }

  /** `value[key] = x`; null becomes an object first. */
  function SetField(v: Json, key: string, x: Json): (w: Json)
    requires v.Obj? || v.Null?
    ensures w.Obj?
  {
    Obj(Put(if v.Obj? then v.members else [], key, x))
  }

  lemma {:induction false} PutFacts(ms: seq<Member>, key: string, x: Json, other: string)
    ensures Lookup(Put(ms, key, x), key) == Some(x)
    ensures other != key ==> Lookup(Put(ms, key, x), other) == Lookup(ms, other)
    ensures Lookup(ms, key) == Some(x) ==> Put(ms, key, x) == ms
  {
    hide Lookup, DistinctKeys;
    var tail := if ms == [] then [] else ms[1..];
    LookupCons(Member(key, x), tail, key);
    LookupCons(Member(key, x), tail, other);
    if ms != [] {
      assert ms == [ms[0]] + tail;
      LookupCons(ms[0], tail, key);
      LookupCons(ms[0], tail, other);
      if ms[0].key != key {
        PutFacts(tail, key, x, other);
        LookupCons(ms[0], Put(tail, key, x), key);
        LookupCons(ms[0], Put(tail, key, x), other);
      }
    } else {
      LookupNothing(key);
      LookupNothing(other);
      assert [Member(key, x)] + tail == [Member(key, x)];
    }
  }

  lemma LookupCons(m: Member, rest: seq<Member>, key: string)
    ensures Lookup([m] + rest, key) == if m.key == key then Some(m.value) else Lookup(rest, key)
  {
    assert ([m] + rest)[1..] == rest;
  }

  lemma LookupNothing(key: string)
    ensures Lookup([], key) == None
  {
  }

  lemma SetFacts(v: Json, key: string, x: Json, other: string)
    requires v.Obj? || v.Null?
    ensures Index(SetField(v, key, x), key) == x && Has(SetField(v, key, x), key)
    ensures other != key ==> Index(SetField(v, key, x), other) == Index(v, other)
    ensures other != key ==> (Has(SetField(v, key, x), other) <==> Has(v, other))
    ensures Has(v, key) && Index(v, key) == x ==> SetField(v, key, x) == v
  {
    PutFacts(if v.Obj? then v.members else [], key, x, other);
  }

  lemma {:induction false} PutInPlace(ms: seq<Member>, key: string, x: Json) returns (k: nat)
    requires Lookup(ms, key).Some?
    ensures k < |ms| && ms[k] == Member(key, Lookup(ms, key).value)
    ensures Put(ms, key, x) == ms[k := Member(key, x)]
  {
    if ms[0].key == key {
      k := 0;
    } else {
      var j := PutInPlace(ms[1..], key, x);
      k := j + 1;
      UpdateShifts(ms, j, Member(key, x));
    }
  }

  lemma UpdateShifts(ms: seq<Member>, j: nat, m: Member)
    requires j + 1 < |ms|
    ensures [ms[0]] + ms[1..][j := m] == ms[j + 1 := m]
  {
  }

  /** Overwriting a present field changes the text by the fields' difference. */
  lemma SetLength(c: Codec, v: Json, key: string, x: Json, s: Style)
    requires Has(v, key)
    ensures |Render(c, SetField(v, key, x), s)| + |Render(c, Index(v, key), Deeper(s))| ==
            |Render(c, v, s)| + |Render(c, x, Deeper(s))|
  {
    var k := PutInPlace(v.members, key, x);
    var w := SetField(v, key, x);
    ReplaceChangesLength(c, v, w, k, 0, s);
    RenderObject(c, v, s);
    RenderObject(c, w, s);
  }

  lemma RenderObject(c: Codec, v: Json, s: Style)
    requires v.Obj? && v.members != []
    ensures |Render(c, v, s)| == 2 + |RenderFrom(c, v, 0, s)| + |BreakLine(s)|
  {
  }

  // ----- the verdict -----

  datatype Basis = CommandStreams | Artifact | HttpBody | Provided

  datatype ByteBaseline = ByteBaseline(bytes: nat, basis: Basis)

  datatype VerdictResult = BoundedWin | Neutral | RawCheaper | NoBaseline

  datatype Verdict = Verdict(
    result: VerdictResult,
    baseline: Option<ByteBaseline>,
    envelopeBytes: nat,
    ratio: Option<real>)

  /** `shown` turns a count of hundredths into the float that is displayed. */
  function ForBaseline(baseline: Option<ByteBaseline>, envelope: nat, shown: nat -> real): Verdict
  {
    Verdict(
      if baseline.None? then NoBaseline
      else if baseline.value.bytes < envelope then RawCheaper
      else if baseline.value.bytes > 0 && baseline.value.bytes * 4 >= envelope * 5 then BoundedWin
      else Neutral,
      baseline, envelope,
      if baseline.Some? && envelope > 0 then Some(shown(baseline.value.bytes * 100 / envelope)) else None)
  }

  /** The result is decided by exact ratios: below 1 raw input is cheaper, from
      1.25 on the response is a bounded win. */
  lemma VerdictThresholds(b: ByteBaseline, envelope: nat, shown: nat -> real)
    requires envelope > 0
    ensures var ratio := b.bytes as real / envelope as real;
            var result := ForBaseline(Some(b), envelope, shown).result;
            (result == RawCheaper <==> ratio < 1.0) && (result == BoundedWin <==> ratio >= 1.25) &&
            (result == Neutral <==> 1.0 <= ratio < 1.25)
  {
    var x, y := b.bytes as real, envelope as real;
    var ratio := x / y;
    assert ratio * y == x;
    RatioCompare(ratio, x, y, 1.0);
    RatioCompare(ratio, x, y, 1.25);
    assert 1.25 * y * 4.0 == y * 5.0;
  }

  lemma RatioCompare(ratio: real, x: real, y: real, bound: real)
    requires y > 0.0 && ratio * y == x
    ensures ratio >= bound <==> x >= bound * y
  {
    if ratio >= bound {
      assert (ratio - bound) * y >= 0.0;
    } else {
      assert (bound - ratio) * y > 0.0;
    }
  }

  function ResultName(r: VerdictResult): string
  {
    match r
    case BoundedWin => "bounded_win"
    case Neutral => "neutral"
    case RawCheaper => "raw_cheaper"
    case NoBaseline => "unavailable"
  }

  function ReasonText(r: VerdictResult): string
  {
    match r
    case BoundedWin => "response is at least 20% smaller than input."
    case Neutral => "response is less than 20% smaller than raw input"
    case RawCheaper => "response is larger than original input bytes"
    case NoBaseline => "original input cost is unknown; no savings claim"
  }

  /** A change of classification among known baselines never changes the size of
      the verdict; an unknown baseline differs by four bytes, but it never
      turns into a known one. */
  lemma NamesAndReasonsHaveOneLength(r: VerdictResult)
    ensures |ResultName(r)| + |ReasonText(r)| == if r == NoBaseline then 59 else 55
  {
  }

  function BasisName(b: Basis): string
  {
    match b
    case CommandStreams => "command_streams"
    case Artifact => "artifact"
    case HttpBody => "http_body"
    case Provided => "provided"
  }

  function IntJson(n: nat): Json { Num(Int(n)) }

  function VerdictJson(v: Verdict): Json
  {
    Obj([Member("result", Str(ResultName(v.result))),
         Member("baseline", if v.baseline.None? then Null
                            else Obj([Member("bytes", IntJson(v.baseline.value.bytes)),
                                      Member("basis", Str(BasisName(v.baseline.value.basis)))])),
         Member("envelope_bytes", IntJson(v.envelopeBytes)),
         Member("ratio", if v.ratio.None? then Null else Num(Float(v.ratio.value))),
         Member("raw_cheaper_below_ratio", Num(Float(1.0))),
         Member("bounded_win_at_or_above_ratio", Num(Float(1.25))),
         Member("reason", Str(ReasonText(v.result)))])
  }

  // ----- one round of stamping -----

  function Tokens(bytes: nat): nat { (bytes + 3) / 4 }

  /** A response whose fields the accounting may write. */
  predicate Stampable(v: Json)
  {
    v.Obj? && (Index(v, "disclosure_budget").Obj? || Index(v, "disclosure_budget").Null?)
  }

  /** The verdict takes part only beside a summary object. */
  predicate HasVerdict(v: Json)
  {
    Has(v, "disclosure_verdict") && Index(v, "summary").Obj?
  }

  function StampBudget(v: Json, n: nat): Json
    requires Stampable(v)
  {
    SetField(v, "disclosure_budget", SetField(Index(v, "disclosure_budget"), "actual_bytes", IntJson(n)))
  }

  function StampSummary(v: Json, n: nat): (w: Json)
    requires v.Obj? && Index(v, "summary").Obj?
    ensures w.Obj?
  {
    SetField(v, "summary",
             SetField(SetField(Index(v, "summary"), "envelope_bytes", IntJson(n)),
                      "estimated_envelope_tokens", IntJson(Tokens(n))))
  }

  lemma BudgetKeepsVerdict(v: Json, n: nat)
    requires Stampable(v)
    ensures Stampable(StampBudget(v, n))
    ensures HasVerdict(StampBudget(v, n)) <==> HasVerdict(v)
    ensures Index(StampBudget(v, n), "summary") == Index(v, "summary")
    ensures Index(StampBudget(v, n), "disclosure_verdict") == Index(v, "disclosure_verdict")
  {
    var b := SetField(Index(v, "disclosure_budget"), "actual_bytes", IntJson(n));
    SetFacts(v, "disclosure_budget", b, "summary");
    SetFacts(v, "disclosure_budget", b, "disclosure_verdict");
  }

  function Stamp(v: Json, n: nat, verdict: Option<Json>): Json
    requires Stampable(v) && (verdict.Some? ==> HasVerdict(v))
  {
    BudgetKeepsVerdict(v, n);
    var v1 := StampBudget(v, n);
    if verdict.None? then v1
    else
      SetFacts(v1, "disclosure_verdict", verdict.value, "summary");
      StampSummary(SetField(v1, "disclosure_verdict", verdict.value), n)
  }

  /** The sizes a response records are `n` and what follows from it. */
  predicate Records(v: Json, n: nat, verdict: Option<Json>)
  {
    && Has(v, "disclosure_budget") && Has(Index(v, "disclosure_budget"), "actual_bytes")
    && Index(Index(v, "disclosure_budget"), "actual_bytes") == IntJson(n)
    && (verdict.Some? ==>
          && Has(v, "disclosure_verdict") && Index(v, "disclosure_verdict") == verdict.value
          && Has(v, "summary")
          && Has(Index(v, "summary"), "envelope_bytes")
          && Index(Index(v, "summary"), "envelope_bytes") == IntJson(n)
          && Has(Index(v, "summary"), "estimated_envelope_tokens")
          && Index(Index(v, "summary"), "estimated_envelope_tokens") == IntJson(Tokens(n)))
  }

  /** Values as maps compare: alike, or alike but for the order of members. */
  predicate SameValue(a: Json, b: Json) { a == b || Equivalent(a, b) }

  /** What the loop stops at: the recorded sizes are `n` and what follows from
      it, the verdict compared as a map is. */
  predicate Settled(v: Json, n: nat, verdict: Option<Json>)
  {
    if verdict.None? then Records(v, n, None)
    else
      && Has(v, "disclosure_verdict") && SameValue(Index(v, "disclosure_verdict"), verdict.value)
      && Records(v, n, Some(Index(v, "disclosure_verdict")))
  }

  lemma RecordedIsSettled(v: Json, n: nat, verdict: Option<Json>)
    requires Records(v, n, verdict)
    ensures Settled(v, n, verdict)
  {
  }

  lemma SummaryStamped(v: Json, n: nat)
    requires v.Obj? && Index(v, "summary").Obj?
    ensures var w := StampSummary(v, n);
            && Has(w, "summary") && Index(w, "summary").Obj?
            && Has(Index(w, "summary"), "envelope_bytes")
            && Index(Index(w, "summary"), "envelope_bytes") == IntJson(n)
            && Has(Index(w, "summary"), "estimated_envelope_tokens")
            && Index(Index(w, "summary"), "estimated_envelope_tokens") == IntJson(Tokens(n))
    ensures forall k :: k != "summary" ==> Index(StampSummary(v, n), k) == Index(v, k) &&
                                           (Has(StampSummary(v, n), k) <==> Has(v, k))
  {
    hide SetField, Index, Has;
    var s := Index(v, "summary");
    SetFacts(s, "envelope_bytes", IntJson(n), "estimated_envelope_tokens");
    var s1 := SetField(s, "envelope_bytes", IntJson(n));
    SetFacts(s1, "estimated_envelope_tokens", IntJson(Tokens(n)), "envelope_bytes");
    var s2 := SetField(s1, "estimated_envelope_tokens", IntJson(Tokens(n)));
    forall k | k != "summary"
      ensures Index(StampSummary(v, n), k) == Index(v, k) && (Has(StampSummary(v, n), k) <==> Has(v, k))
    {
      SetFacts(v, "summary", s2, k);
    }
    SetFacts(v, "summary", s2, "");
  }

  /** A stamped response records what it was stamped with, and can be stamped
      again. */
  lemma StampRecords(v: Json, n: nat, verdict: Option<Json>)
    requires Stampable(v) && (verdict.Some? ==> HasVerdict(v))
    ensures var w := Stamp(v, n, verdict);
            Records(w, n, verdict) && Stampable(w) && (HasVerdict(v) ==> HasVerdict(w))
  {
    hide SetField, Index, Has, StampSummary;
    BudgetKeepsVerdict(v, n);
    var b := SetField(Index(v, "disclosure_budget"), "actual_bytes", IntJson(n));
    SetFacts(Index(v, "disclosure_budget"), "actual_bytes", IntJson(n), "");
    SetFacts(v, "disclosure_budget", b, "");
    if verdict.Some? {
      var v1 := StampBudget(v, n);
      SetFacts(v1, "disclosure_verdict", verdict.value, "summary");
      SetFacts(v1, "disclosure_verdict", verdict.value, "disclosure_budget");
      SummaryStamped(SetField(v1, "disclosure_verdict", verdict.value), n);
    }
  }
  // ----- accounting touches nothing else -----

  ghost predicate Agree(v: Json, w: Json, except: set<string>)
  {
    forall k :: k !in except ==> Index(v, k) == Index(w, k) && (Has(v, k) <==> Has(w, k))
  }

  /** `w` is `v` but for the recorded sizes and the verdict. */
  ghost predicate OnlyStamped(v: Json, w: Json)
  {
    && Agree(v, w, if HasVerdict(v) then {"disclosure_budget", "disclosure_verdict", "summary"} else {"disclosure_budget"})
    && Agree(Index(v, "disclosure_budget"), Index(w, "disclosure_budget"), {"actual_bytes"})
    && (HasVerdict(v) ==>
          Agree(Index(v, "summary"), Index(w, "summary"), {"envelope_bytes", "estimated_envelope_tokens"}))
    && (HasVerdict(v) <==> HasVerdict(w))
  }

  lemma AgreeStep(v: Json, w: Json, except: set<string>, key: string, x: Json)
    requires Agree(v, w, except) && key in except && (w.Obj? || w.Null?)
    ensures Agree(v, SetField(w, key, x), except) && Index(SetField(w, key, x), key) == x
  {
    hide SetField, Index, Has;
    SetFacts(w, key, x, "");
    forall k | k !in except
      ensures Index(v, k) == Index(SetField(w, key, x), k) && (Has(v, k) <==> Has(SetField(w, key, x), k))
    {
      SetFacts(w, key, x, k);
    }
  }

  lemma OnlyStampedTransitive(u: Json, v: Json, w: Json)
    requires OnlyStamped(u, v) && OnlyStamped(v, w)
    ensures OnlyStamped(u, w)
  {
    hide Index, Has, HasVerdict;
  }

  /** One stamping changes only the recorded sizes and the verdict. */
  lemma StampsOnly(v: Json, n: nat, verdict: Option<Json>)
    requires Stampable(v) && (verdict.Some? <==> HasVerdict(v))
    ensures OnlyStamped(v, Stamp(v, n, verdict))
  {
    hide SetField, Index, Has;
    StampKeepsVerdict(v, n, verdict);
    BudgetKeepsVerdict(v, n);
    var fields := if HasVerdict(v) then {"disclosure_budget", "disclosure_verdict", "summary"} else {"disclosure_budget"};
    var budget := SetField(Index(v, "disclosure_budget"), "actual_bytes", IntJson(n));
    AgreeStep(Index(v, "disclosure_budget"), Index(v, "disclosure_budget"), {"actual_bytes"}, "actual_bytes", IntJson(n));
    AgreeStep(v, v, fields, "disclosure_budget", budget);
    if verdict.Some? {
      var v1 := StampBudget(v, n);
      var v2 := SetField(v1, "disclosure_verdict", verdict.value);
      SetFacts(v1, "disclosure_verdict", verdict.value, "summary");
      SetFacts(v1, "disclosure_verdict", verdict.value, "disclosure_budget");
      AgreeStep(v, v1, fields, "disclosure_verdict", verdict.value);
      SummaryOnly(v2, n);
      AgreeStep(v, v2, fields, "summary", Index(StampSummary(v2, n), "summary"));
    }
  }

  lemma SummaryOnly(v: Json, n: nat)
    requires v.Obj? && Index(v, "summary").Obj?
    ensures var w := StampSummary(v, n);
            && w == SetField(v, "summary", Index(w, "summary"))
            && Index(w, "disclosure_budget") == Index(v, "disclosure_budget")
            && Agree(Index(v, "summary"), Index(w, "summary"), {"envelope_bytes", "estimated_envelope_tokens"})
  {
    hide SetField, Index, Has;
    var s, except := Index(v, "summary"), {"envelope_bytes", "estimated_envelope_tokens"};
    AgreeStep(s, s, except, "envelope_bytes", IntJson(n));
    var s1 := SetField(s, "envelope_bytes", IntJson(n));
    AgreeStep(s, s1, except, "estimated_envelope_tokens", IntJson(Tokens(n)));
    SetFacts(v, "summary", SetField(s1, "estimated_envelope_tokens", IntJson(Tokens(n))), "disclosure_budget");
  }

  /** Bytes the recorded sizes and the verdict take up in the text. */
  function Width(c: Codec, n: nat, verdict: Option<Json>, s: Style): nat
  {
    |Dec(n)| + (if verdict.None? then 0
                else |Render(c, verdict.value, Deeper(s))| + |Dec(n)| + |Dec(Tokens(n))|)
  }

  lemma RenderInt(c: Codec, n: nat, s: Style)
    ensures |Render(c, IntJson(n), s)| == |Dec(n)|
  {
  }

  /** Stamping a stamped response moves its length by the difference in width,
      and nothing else. */
  lemma StampLength(c: Codec, v: Json, m: nat, was: Option<Json>, n: nat, verdict: Option<Json>, s: Style)
    requires Stampable(v) && Records(v, m, was) && (was.Some? <==> verdict.Some?)
    requires verdict.Some? ==> HasVerdict(v)
    ensures |Render(c, Stamp(v, n, verdict), s)| + Width(c, m, was, s) ==
            |Render(c, v, s)| + Width(c, n, verdict, s)
  {
    hide SetField, Index, Has, Render, StampSummary, StampBudget, Records;
    BudgetLength(c, v, m, was, n, s);
    if verdict.Some? {
      BudgetKeepsVerdict(v, n);
      var v1 := StampBudget(v, n);
      RecordsVerdict(v, m, was);
      BudgetKeepsHas(v, n);
      SetLength(c, v1, "disclosure_verdict", verdict.value, s);
      var v2 := SetField(v1, "disclosure_verdict", verdict.value);
      SetFacts(v1, "disclosure_verdict", verdict.value, "summary");
      SummaryLength(c, v2, m, n, s);
    }
  }

  lemma RecordsVerdict(v: Json, m: nat, verdict: Option<Json>)
    requires Records(v, m, verdict) && verdict.Some?
    ensures Has(v, "disclosure_verdict") && Index(v, "disclosure_verdict") == verdict.value
    ensures SummaryRecords(v, m)
  {
  }

  predicate SummaryRecords(v: Json, m: nat)
  {
    && Has(v, "summary")
    && Has(Index(v, "summary"), "envelope_bytes")
    && Index(Index(v, "summary"), "envelope_bytes") == IntJson(m)
    && Has(Index(v, "summary"), "estimated_envelope_tokens")
    && Index(Index(v, "summary"), "estimated_envelope_tokens") == IntJson(Tokens(m))
  }

  lemma BudgetKeepsHas(v: Json, n: nat)
    requires Stampable(v)
    ensures Has(v, "disclosure_verdict") ==> Has(StampBudget(v, n), "disclosure_verdict")
    ensures Has(v, "summary") ==> Has(StampBudget(v, n), "summary")
  {
    var b := SetField(Index(v, "disclosure_budget"), "actual_bytes", IntJson(n));
    SetFacts(v, "disclosure_budget", b, "summary");
    SetFacts(v, "disclosure_budget", b, "disclosure_verdict");
  }

  lemma BudgetLength(c: Codec, v: Json, m: nat, verdict: Option<Json>, n: nat, s: Style)
    requires Stampable(v) && Records(v, m, verdict)
    ensures |Render(c, StampBudget(v, n), s)| + |Dec(m)| == |Render(c, v, s)| + |Dec(n)|
  {
    hide SetField, Render;
    var b := Index(v, "disclosure_budget");
    SetLength(c, b, "actual_bytes", IntJson(n), Deeper(s));
    SetLength(c, v, "disclosure_budget", SetField(b, "actual_bytes", IntJson(n)), s);
    RenderInt(c, m, Deeper(Deeper(s)));
    RenderInt(c, n, Deeper(Deeper(s)));
  }

  lemma SummaryLength(c: Codec, v: Json, m: nat, n: nat, s: Style)
    requires v.Obj? && Index(v, "summary").Obj? && SummaryRecords(v, m)
    ensures |Render(c, StampSummary(v, n), s)| + |Dec(m)| + |Dec(Tokens(m))| ==
            |Render(c, v, s)| + |Dec(n)| + |Dec(Tokens(n))|
  {
    hide SetField, Render, Index, Has;
    var a := Index(v, "summary");
    var d := Deeper(s);
    SetLength(c, a, "envelope_bytes", IntJson(n), d);
    var a1 := SetField(a, "envelope_bytes", IntJson(n));
    SetFacts(a, "envelope_bytes", IntJson(n), "estimated_envelope_tokens");
    SetLength(c, a1, "estimated_envelope_tokens", IntJson(Tokens(n)), d);
    var a2 := SetField(a1, "estimated_envelope_tokens", IntJson(Tokens(n)));
    SetLength(c, v, "summary", a2, s);
    RenderInt(c, m, Deeper(d));
    RenderInt(c, n, Deeper(d));
    RenderInt(c, Tokens(m), Deeper(d));
    RenderInt(c, Tokens(n), Deeper(d));
  }

  // ----- convergence of the recorded size -----

  lemma {:induction false} DecMonotone(m: nat, n: nat)
    requires m <= n
    ensures |Dec(m)| <= |Dec(n)|
  {
    if n >= 10 && m >= 10 {
      DecMonotone(m / 10, n / 10);
    }
  }

  function Power10(k: nat): nat { if k == 0 then 1 else 10 * Power10(k - 1) }

  lemma {:induction false} DecBound(n: nat, k: nat)
    requires k > 0 && n < Power10(k)
    ensures |Dec(n)| <= k
  {
    if n >= 10 {
      DecBound(n / 10, k - 1);
    }
  }

  /** Growing a hundredfold adds at most two digits. */
  lemma DecHundred(m: nat, n: nat)
    requires n > 0 && m <= 100 * n
    ensures |Dec(m)| <= |Dec(n)| + 2
  {
    DecMonotone(m, 100 * n);
    assert 100 * n / 10 == 10 * n && 10 * n / 10 == n;
    assert |Dec(100 * n)| == |Dec(10 * n)| + 1;
    assert |Dec(10 * n)| == |Dec(n)| + 1;
  }

  /** Digits a recorded size takes up: once in the budget, and with a verdict
      also in the verdict and the summary, beside its token estimate. */
  function Digits(verdict: bool, n: nat): nat
  {
    if verdict then 3 * |Dec(n)| + |Dec(Tokens(n))| else |Dec(n)|
  }

  /** The part of `Digits` that any change of it must change. */
  function Scale(n: nat): nat { |Dec(n)| + |Dec(Tokens(n))| }

  /** One round: `base` bytes that never change, and the digits of the size
      recorded before. */
  function Next(verdict: bool, base: int, n: nat): nat
    requires base + Digits(verdict, 0) > 0
  {
    DigitsMonotone(verdict, 0, n);
    base + Digits(verdict, n)
  }

  function Rounds(verdict: bool, base: int, first: nat, k: nat): nat
    requires base + Digits(verdict, 0) > 0
  {
    if k == 0 then first else Next(verdict, base, Rounds(verdict, base, first, k - 1))
  }

  lemma DigitsMonotone(verdict: bool, m: nat, n: nat)
    requires m <= n
    ensures Digits(verdict, m) <= Digits(verdict, n)
    ensures Scale(m) <= Scale(n)
    ensures Digits(verdict, m) < Digits(verdict, n) ==> Scale(m) < Scale(n)
  {
    DecMonotone(m, n);
    DecMonotone(Tokens(m), Tokens(n));
  }

  lemma DigitsBound(verdict: bool, n: nat)
    requires n < USIZE_LIMIT
    ensures Digits(verdict, n) <= 80
  {
    assert Power10(20) == 100_000_000_000_000_000_000 by {
      assert Power10(5) == 100_000;
      assert Power10(10) == 10_000_000_000;
      assert Power10(15) == 1_000_000_000_000_000;
    }
    DecBound(n, 20);
    DecBound(Tokens(n), 20);
  }

  /** After the first round every size lies in a window that spans at most four
      digit boundaries. */
  lemma {:induction false} RoundsWindow(verdict: bool, base: int, first: nat, k: nat)
    requires base + Digits(verdict, 0) > 0 && first < USIZE_LIMIT && base + 80 < USIZE_LIMIT && k > 0
    ensures base + Digits(verdict, 0) <= Rounds(verdict, base, first, k) <= base + 80
    ensures Scale(base + Digits(verdict, 0)) <= Scale(Rounds(verdict, base, first, k)) <= Scale(base + Digits(verdict, 0)) + 4
  {
    hide Dec, Digits, Scale;
    var before := Rounds(verdict, base, first, k - 1);
    if k > 1 { RoundsWindow(verdict, base, first, k - 1); }
    DigitsBound(verdict, before);
    DigitsMonotone(verdict, 0, before);
    var low, size := base + Digits(verdict, 0), Rounds(verdict, base, first, k);
    DigitsMonotone(verdict, low, size);
    ScaleWindow(verdict, base, size);
  }

  lemma ScaleWindow(verdict: bool, base: int, size: nat)
    requires 0 < base + Digits(verdict, 0) <= size <= base + 80
    ensures Scale(size) <= Scale(base + Digits(verdict, 0)) + 4
  {
    hide Dec;
    var low := base + Digits(verdict, 0);
    DecHundred(size, low);
    DecHundred(Tokens(size), Tokens(low));
  }

  /** A sequence that keeps moving up gains a digit boundary each round. */
  lemma {:induction false} Climbs(verdict: bool, base: int, first: nat, k: nat)
    requires base + Digits(verdict, 0) > 0 && k > 0
    requires Rounds(verdict, base, first, 1) < Rounds(verdict, base, first, 2)
    requires forall j :: 1 <= j <= k ==> Rounds(verdict, base, first, j) != Rounds(verdict, base, first, j + 1)
    ensures Rounds(verdict, base, first, k) < Rounds(verdict, base, first, k + 1)
    ensures Scale(Rounds(verdict, base, first, k)) >= Scale(Rounds(verdict, base, first, 1)) + k - 1
  {
    hide Digits, Scale;
    if k > 1 {
      Climbs(verdict, base, first, k - 1);
      var a, b := Rounds(verdict, base, first, k - 1), Rounds(verdict, base, first, k);
      assert Rounds(verdict, base, first, k) != Rounds(verdict, base, first, k + 1);
      DigitsMonotone(verdict, a, b);
    }
  }

  lemma {:induction false} Falls(verdict: bool, base: int, first: nat, k: nat)
    requires base + Digits(verdict, 0) > 0 && k > 0
    requires Rounds(verdict, base, first, 1) > Rounds(verdict, base, first, 2)
    requires forall j :: 1 <= j <= k ==> Rounds(verdict, base, first, j) != Rounds(verdict, base, first, j + 1)
    ensures Rounds(verdict, base, first, k) > Rounds(verdict, base, first, k + 1)
    ensures Scale(Rounds(verdict, base, first, k)) + k - 1 <= Scale(Rounds(verdict, base, first, 1))
  {
    hide Digits, Scale;
    if k > 1 {
      Falls(verdict, base, first, k - 1);
      var a, b := Rounds(verdict, base, first, k - 1), Rounds(verdict, base, first, k);
      assert Rounds(verdict, base, first, k) != Rounds(verdict, base, first, k + 1);
      DigitsMonotone(verdict, b, a);
    }
  }

  /** The recorded size settles within seven rounds of the first. */
  lemma SizeSettles(verdict: bool, base: int, first: nat) returns (k: nat)
    requires base + Digits(verdict, 0) > 0 && first < USIZE_LIMIT && base + 80 < USIZE_LIMIT
    ensures 1 <= k <= 6 && Rounds(verdict, base, first, k) == Rounds(verdict, base, first, k + 1)
  {
    hide Rounds, Digits, Scale;
    k := 1;
    while k < 6 && Rounds(verdict, base, first, k) != Rounds(verdict, base, first, k + 1)
      invariant 1 <= k <= 6
      invariant forall j :: 1 <= j < k ==> Rounds(verdict, base, first, j) != Rounds(verdict, base, first, j + 1)
    {
      k := k + 1;
    }
    if Rounds(verdict, base, first, k) != Rounds(verdict, base, first, k + 1) {
      SixMovesAreTooMany(verdict, base, first);
    }
  }

  lemma SixMovesAreTooMany(verdict: bool, base: int, first: nat)
    requires base + Digits(verdict, 0) > 0 && first < USIZE_LIMIT && base + 80 < USIZE_LIMIT
    ensures exists j :: 1 <= j <= 6 && Rounds(verdict, base, first, j) == Rounds(verdict, base, first, j + 1)
  {
    hide Rounds, Digits, Scale;
    RoundsWindow(verdict, base, first, 1);
    RoundsWindow(verdict, base, first, 6);
    if forall j :: 1 <= j <= 6 ==> Rounds(verdict, base, first, j) != Rounds(verdict, base, first, j + 1) {
      if Rounds(verdict, base, first, 1) < Rounds(verdict, base, first, 1 + 1) {
        Climbs(verdict, base, first, 6);
      } else {
        Falls(verdict, base, first, 6);
      }
    }
  }

  // ----- the loop -----

  datatype AccountingError = BadVerdict | DidNotConverge | BudgetTooSmall(requested: nat, minimum: nat)

  /** What the renderer takes from outside: how a stored verdict decodes to its
      baseline, and how a count of hundredths is displayed. */
  datatype Reader = Reader(decode: Json -> Option<Option<ByteBaseline>>, shown: nat -> real)

  /** The verdict for an unknown baseline. */
  function UnknownVerdict(n: nat): Json { VerdictJson(Verdict(NoBaseline, None, n, None)) }

  lemma UnknownVerdictWidth(c: Codec, m: nat, n: nat, s: Style)
    ensures Width(c, n, Some(UnknownVerdict(n)), s) - Width(c, m, Some(UnknownVerdict(m)), s) ==
            Digits(true, n) - Digits(true, m)
  {
    hide Render, Dec;
    var v, w, d := UnknownVerdict(m), UnknownVerdict(n), Deeper(s);
    ReplaceChangesLength(c, v, w, 2, 0, d);
    RenderObject(c, v, d);
    RenderObject(c, w, d);
    RenderInt(c, m, Deeper(d));
    RenderInt(c, n, Deeper(d));
  }

  /** The verdict recorded with a size: the exact classification, and a ratio
      that is never above the exact display value. */
  ghost predicate HonestVerdict(verdict: Json, baseline: Option<ByteBaseline>, n: nat, shown: nat -> real)
  {
    exists ratio: Option<real> ::
      var exact := ForBaseline(baseline, n, shown);
      && verdict == VerdictJson(exact.(ratio := ratio))
      && (ratio.Some? <==> exact.ratio.Some?)
      && (ratio.Some? ==> ratio.value <= exact.ratio.value)
  }

  /** The text is a response `v`, and `v` tells its own size: one newline longer
      than the text. */
  ghost predicate TellsItsSize(c: Codec, rd: Reader, v0: Json, v: Json, s: Style, text: string)
  {
    && text == Render(c, v, s)
    && (if HasVerdict(v0) then
          var decoded := rd.decode(Index(v0, "disclosure_verdict"));
          decoded.Some? &&
          exists verdict :: Settled(v, |text| + 1, Some(verdict)) && HonestVerdict(verdict, decoded.value, |text| + 1, rd.shown)
        else Settled(v, |text| + 1, None))
  }

  /** What is delivered: `v0` but for the accounting, telling its own size. */
  ghost predicate Delivers(c: Codec, rd: Reader, v0: Json, s: Style, text: string)
  {
    exists v :: OnlyStamped(v0, v) && TellsItsSize(c, rd, v0, v, s, text)
  }

  /** No ratio is displayed: no verdict, or one whose baseline is unknown. */
  predicate NoRatio(rd: Reader, v: Json)
  {
    HasVerdict(v) ==> rd.decode(Index(v, "disclosure_verdict")) == Some(None)
  }

  function PlainVerdict(v: Json, n: nat): Option<Json>
  {
    if HasVerdict(v) then Some(UnknownVerdict(n)) else None
  }

  /** The response and its first stamped form are strings a machine can hold. */
  predicate MachineSized(c: Codec, v: Json, s: Style)
    requires Stampable(v)
  {
    var n := |Render(c, v, s)| + 1;
    n < USIZE_LIMIT / 2 && |Render(c, Stamp(v, n, PlainVerdict(v, n)), s)| + 1 < USIZE_LIMIT / 2
  }

  /** Where a run without ratios stands after `k` rounds: the response is
      stamped with the k-th size, and its own size is the next one. */
  ghost predicate OnTrack(c: Codec, v0: Json, v: Json, s: Style, base: int, first: nat, k: nat)
    requires base + Digits(HasVerdict(v0), 0) > 0
  {
    var n := Rounds(HasVerdict(v0), base, first, k);
    && Stampable(v) && (HasVerdict(v0) <==> HasVerdict(v))
    && Records(v, n, PlainVerdict(v0, n))
    && |Render(c, v, s)| + 1 == Rounds(HasVerdict(v0), base, first, k + 1)
  }

  lemma WidthIsDigits(c: Codec, v0: Json, m: nat, n: nat, s: Style)
    ensures Width(c, n, PlainVerdict(v0, n), s) - Width(c, m, PlainVerdict(v0, m), s) ==
            Digits(HasVerdict(v0), n) - Digits(HasVerdict(v0), m)
  {
    hide Dec, Render, HasVerdict;
    if HasVerdict(v0) { UnknownVerdictWidth(c, m, n, s); }
  }

  /** The bytes that never change, found by the first round. */
  lemma FirstRound(c: Codec, v0: Json, s: Style, first: nat) returns (base: int)
    requires Stampable(v0) && first == |Render(c, v0, s)| + 1 && MachineSized(c, v0, s)
    ensures base + Digits(HasVerdict(v0), 0) > 0 && base + 80 < USIZE_LIMIT && first < USIZE_LIMIT
    ensures OnTrack(c, v0, Stamp(v0, first, PlainVerdict(v0, first)), s, base, first, 0)
  {
    hide Render, Dec, SetField, Index, Has, Stamp, Records, HasVerdict, Stampable, Digits, Width, VerdictJson;
    var v1 := Stamp(v0, first, PlainVerdict(v0, first));
    StampRecords(v0, first, PlainVerdict(v0, first));
    StampKeepsVerdict(v0, first, PlainVerdict(v0, first));
    base := |Render(c, v1, s)| + 1 - Digits(HasVerdict(v0), first);
    StampLength(c, v1, first, PlainVerdict(v0, first), 0, PlainVerdict(v0, 0), s);
    WidthIsDigits(c, v0, first, 0, s);
    DigitsMonotone(HasVerdict(v0), 0, first);
  }

  lemma StampKeepsVerdict(v: Json, n: nat, verdict: Option<Json>)
    requires Stampable(v) && (verdict.Some? <==> HasVerdict(v))
    ensures HasVerdict(Stamp(v, n, verdict)) <==> HasVerdict(v)
  {
    hide SetField, Index, Has, Records;
    StampRecords(v, n, verdict);
    BudgetKeepsVerdict(v, n);
  }

  lemma NextRound(c: Codec, v0: Json, v: Json, s: Style, base: int, first: nat, k: nat)
    requires base + Digits(HasVerdict(v0), 0) > 0
    requires OnTrack(c, v0, v, s, base, first, k)
    ensures var n := Rounds(HasVerdict(v0), base, first, k + 1);
            OnTrack(c, v0, Stamp(v, n, PlainVerdict(v0, n)), s, base, first, k + 1)
  {
    hide Render, Dec, SetField, Index, Has, Stamp, Records, HasVerdict, Stampable, Digits, Width, VerdictJson;
    var m, n := Rounds(HasVerdict(v0), base, first, k), Rounds(HasVerdict(v0), base, first, k + 1);
    StampRecords(v, n, PlainVerdict(v0, n));
    StampKeepsVerdict(v, n, PlainVerdict(v0, n));
    StampLength(c, v, m, PlainVerdict(v0, m), n, PlainVerdict(v0, n), s);
    WidthIsDigits(c, v0, m, n, s);
  }

  /** The verdict of one round, with the ratio pinned in the late rounds. */
  function RoundVerdict(rd: Reader, baseline: Option<ByteBaseline>, n: nat, round: nat, low: Option<real>): (Json, Option<real>)
  {
    var verdict := ForBaseline(baseline, n, rd.shown);
    if verdict.ratio.None? then (VerdictJson(verdict), low)
    else
      var ratio := verdict.ratio.value;
      var lower := if round < 8 then low else if low.Some? && low.value < ratio then low else Some(ratio);
      (VerdictJson(if round >= 16 then verdict.(ratio := lower) else verdict), lower)
  }

  lemma RoundVerdictIsHonest(rd: Reader, baseline: Option<ByteBaseline>, n: nat, round: nat, low: Option<real>)
    ensures HonestVerdict(RoundVerdict(rd, baseline, n, round, low).0, baseline, n, rd.shown)
  {
    var exact := ForBaseline(baseline, n, rd.shown);
    var lower := RoundVerdict(rd, baseline, n, round, low).1;
    assert exact.(ratio := exact.ratio) == exact;
    assert RoundVerdict(rd, baseline, n, round, low).0 ==
           VerdictJson(exact.(ratio := if exact.ratio.Some? && round >= 16 then lower else exact.ratio));
  }

  lemma UnknownRoundVerdict(rd: Reader, n: nat, round: nat, low: Option<real>)
    ensures RoundVerdict(rd, None, n, round, low).0 == UnknownVerdict(n)
  {
  }

  /** Renders, stamps the size into the response, and repeats until the response
      already recorded the size it has. */
  method RenderAccountedJson(c: Codec, rd: Reader, v0: Json, s: Style)
      returns (r: Result<string, AccountingError>, v: Json)
    requires Stampable(v0)
    ensures Stampable(v) && OnlyStamped(v0, v)
    ensures r.Ok? ==> Delivers(c, rd, v0, s, r.value)
    ensures r.Err? ==> r.error == BadVerdict || r.error == DidNotConverge
    ensures r == Err(BadVerdict) <==> HasVerdict(v0) && rd.decode(Index(v0, "disclosure_verdict")).None?
    ensures NoRatio(rd, v0) && MachineSized(c, v0, s) ==> r.Ok?
  {
    hide Render, Dec, SetField, Has, Stamp, Records, Settled, Stampable, Digits, VerdictJson, RoundVerdict, OnTrack, Rounds,
         MachineSized, HonestVerdict, HasVerdict, Index, OnlyStamped;
    StampedIsReflexive(v0);
    v := v0;
    var decoded: Option<ByteBaseline> := None;
    if HasVerdict(v0) {
      var d := rd.decode(Index(v0, "disclosure_verdict"));
      if d.None? { return Err(BadVerdict), v; }
      decoded := d.value;
    }
    ghost var first := |Render(c, v0, s)| + 1;
    ghost var settles := NoRatio(rd, v0) && MachineSized(c, v0, s);
    ghost var base: int := 0;
    if settles {
      base := FirstRound(c, v0, s, first);
    }
    var low: Option<real> := None;
    var round := 0;
    while round < ACCOUNTING_ROUNDS
      invariant 0 <= round <= ACCOUNTING_ROUNDS
      invariant Stampable(v) && (HasVerdict(v) <==> HasVerdict(v0)) && OnlyStamped(v0, v)
      invariant settles ==> base + Digits(HasVerdict(v0), 0) > 0 && base + 80 < USIZE_LIMIT && first < USIZE_LIMIT
      invariant settles && round == 0 ==> v == v0
      invariant settles && round > 0 ==> OnTrack(c, v0, v, s, base, first, round - 1)
      invariant settles ==> forall j :: 0 <= j < round - 1 ==>
                  Rounds(HasVerdict(v0), base, first, j) != Rounds(HasVerdict(v0), base, first, j + 1)
    {
      var rendered := Render(c, v, s);
      var bytes := |rendered| + 1;
      var before := v;
      var verdict: Option<Json> := None;
      if HasVerdict(v0) {
        RoundVerdictIsHonest(rd, decoded, bytes, round, low);
        if decoded.None? { UnknownRoundVerdict(rd, bytes, round, low); }
        var pair := RoundVerdict(rd, decoded, bytes, round, low);
        verdict := Some(pair.0);
        low := pair.1;
      }
      var settled := Settled(v, bytes, verdict);
      StampKeepsVerdict(v, bytes, verdict);
      StampRecords(v, bytes, verdict);
      StampsOnly(v, bytes, verdict);
      OnlyStampedTransitive(v0, v, Stamp(v, bytes, verdict));
      v := Stamp(v, bytes, verdict);
      if settled {
        assert TellsItsSize(c, rd, v0, before, s, rendered);
        return Ok(rendered), v;
      }
      if settles {
        if Records(before, bytes, verdict) { RecordedIsSettled(before, bytes, verdict); }
        assert verdict == PlainVerdict(v0, bytes) by { NoRatioMeansPlain(rd, v0, decoded); }
        if round > 0 {
          StillMoving(c, v0, before, s, base, first, round - 1);
          NextRound(c, v0, before, s, base, first, round - 1);
        }
      }
      round := round + 1;
    }
    if settles {
      var k := SizeSettles(HasVerdict(v0), base, first);
    }
    return Err(DidNotConverge), v;
  }

  lemma StampedIsReflexive(v: Json)
    ensures OnlyStamped(v, v)
  {
  }

  lemma NoRatioMeansPlain(rd: Reader, v0: Json, decoded: Option<ByteBaseline>)
    requires NoRatio(rd, v0)
    requires HasVerdict(v0) ==> rd.decode(Index(v0, "disclosure_verdict")) == Some(decoded)
    ensures HasVerdict(v0) ==> decoded.None?
  {
  }

  /** A response that does not record its own size is not at a fixed point. */
  lemma StillMoving(c: Codec, v0: Json, v: Json, s: Style, base: int, first: nat, k: nat)
    requires base + Digits(HasVerdict(v0), 0) > 0
    requires OnTrack(c, v0, v, s, base, first, k)
    requires var n := |Render(c, v, s)| + 1; !Records(v, n, PlainVerdict(v0, n))
    ensures Rounds(HasVerdict(v0), base, first, k) != Rounds(HasVerdict(v0), base, first, k + 1)
    ensures |Render(c, v, s)| + 1 == Rounds(HasVerdict(v0), base, first, k + 1)
  {
    hide Render, Rounds, Records, HasVerdict, Digits;
  }

  // ----- budgets -----

  datatype BudgetError = BudgetOverflow | ZeroBudget | BelowMinimum(effective: nat)

  /** Bytes asked for, four to a token; the default when nothing is asked. */
  function RequestedBudget(bytes: Option<nat>, tokens: Option<nat>): nat
  {
    if bytes.Some? then bytes.value else if tokens.Some? then tokens.value * 4 else DEFAULT_DISCLOSURE_BUDGET_BYTES
  }

  /** One of the two requests is authoritative, or neither is given. */
  function EffectiveDisclosureBudget(bytes: Option<nat>, tokens: Option<nat>): (r: Result<nat, BudgetError>)
    requires bytes.None? || tokens.None?
    ensures r.Ok? ==> MIN_DISCLOSURE_BUDGET_BYTES <= r.value <= MAX_DISCLOSURE_BUDGET_BYTES
    ensures r.Ok? ==> r.value == Min(RequestedBudget(bytes, tokens), MAX_DISCLOSURE_BUDGET_BYTES)
    ensures r == Err(BudgetOverflow) <==> bytes.None? && RequestedBudget(bytes, tokens) >= USIZE_LIMIT
    ensures r.Err? && r.error != BudgetOverflow <==> RequestedBudget(bytes, tokens) < MIN_DISCLOSURE_BUDGET_BYTES
    ensures r == Err(ZeroBudget) <==> RequestedBudget(bytes, tokens) == 0
    ensures r.Err? && r.error.BelowMinimum? ==> r.error.effective == RequestedBudget(bytes, tokens)
  {
    var requested := RequestedBudget(bytes, tokens);
    if bytes.None? && tokens.Some? && requested >= USIZE_LIMIT then Err(BudgetOverflow)
    else if requested == 0 then Err(ZeroBudget)
    else
      var effective := Min(requested, MAX_DISCLOSURE_BUDGET_BYTES);
      if effective < MIN_DISCLOSURE_BUDGET_BYTES then Err(BelowMinimum(effective)) else Ok(effective)
  }

  /** The rest of an invocation: its budget, the compact view it may ask for,
      and the metadata blocks attached to a full response. */
  datatype Invocation = Invocation(
    compact: bool,
    effectiveBytes: nat,
    compactView: Json -> Json,
    disclosure: seq<Member>,
    capture: Json,
    storage: Json)

  function AsObject(v: Json): (w: Json)
    ensures w.Obj?
  {
    if v.Obj? then v else Obj([Member("result", v)])
  }

  function Attach(v: Json, ctx: Invocation): (w: Json)
    requires v.Obj?
    ensures Stampable(w)
  {
    var v1 := SetField(v, "disclosure_budget", Obj(ctx.disclosure));
    var v2 := SetField(v1, "capture_budget", ctx.capture);
    SetFacts(v, "disclosure_budget", Obj(ctx.disclosure), "");
    SetFacts(v1, "capture_budget", ctx.capture, "disclosure_budget");
    SetFacts(v2, "storage_budget", ctx.storage, "disclosure_budget");
    SetField(v2, "storage_budget", ctx.storage)
  }

  /** A full response to `value`, accounted for in its own text. */
  ghost predicate IsAccounted(c: Codec, value: Json, ctx: Invocation, s: Style, bytes: nat, v: Json)
  {
    bytes == |Render(c, v, s)| + 1 && RecordsSize(v, bytes) && OnlyStamped(Attach(AsObject(value), ctx), v)
  }

  /** Never more than the effective budget, newline included; a full response
      states its exact size, and a refusal the size of the compact text that
      was still too long. */
  method RenderBudgetedJson(c: Codec, rd: Reader, value: Json, pretty: bool, ctx: Invocation)
      returns (r: Result<string, AccountingError>)
    ensures r.Ok? ==> |r.value| + 1 <= ctx.effectiveBytes
    ensures r.Ok? && ctx.compact ==> exists s :: r.value == Render(c, ctx.compactView(AsObject(value)), s)
    ensures r.Ok? && !ctx.compact ==>
              exists v, s :: r.value == Render(c, v, s) && IsAccounted(c, value, ctx, s, |r.value| + 1, v)
    ensures r.Err? && r.error.BudgetTooSmall? ==>
              r.error.requested == ctx.effectiveBytes < r.error.minimum &&
              if ctx.compact then r.error.minimum == |Render(c, ctx.compactView(AsObject(value)), Compact)| + 1
              else exists v :: IsAccounted(c, value, ctx, Compact, r.error.minimum, v)
  {
    hide Render, Attach, Stampable, TellsItsSize, SetField, RecordsSize, Dec, OnlyStamped;
    var v := AsObject(value);
    var style := if pretty then Pretty(0) else Compact;
    if ctx.compact {
      var view := ctx.compactView(v);
      var text := Render(c, view, style);
      if pretty && |text| + 1 > ctx.effectiveBytes { text := Render(c, view, Compact); }
      if |text| + 1 > ctx.effectiveBytes { return Err(BudgetTooSmall(ctx.effectiveBytes, |text| + 1)); }
      return Ok(text);
    }
    var v0 := Attach(v, ctx);
    StampedIsReflexive(v0);
    var first, v1 := RenderAccountedJson(c, rd, v0, style);
    if first.Err? { return first; }
    ghost var w1 := DeliveredIsAccounted(c, rd, value, ctx, v0, style, first.value);
    if |first.value| + 1 <= ctx.effectiveBytes { return first; }
    if !pretty { return Err(BudgetTooSmall(ctx.effectiveBytes, |first.value| + 1)); }
    var second, v2 := RenderAccountedJson(c, rd, v1, Compact);
    if second.Err? { return second; }
    ghost var w2 := DeliveredIsAccounted(c, rd, value, ctx, v1, Compact, second.value);
    if |second.value| + 1 > ctx.effectiveBytes {
      return Err(BudgetTooSmall(ctx.effectiveBytes, |second.value| + 1));
    }
    return second;
  }

  predicate RecordsSize(v: Json, n: nat)
  {
    Index(Index(v, "disclosure_budget"), "actual_bytes") == IntJson(n)
  }

  lemma DeliveredIsAccounted(
    c: Codec, rd: Reader, value: Json, ctx: Invocation, from: Json, s: Style, text: string) returns (v: Json)
    requires OnlyStamped(Attach(AsObject(value), ctx), from) && Delivers(c, rd, from, s, text)
    ensures text == Render(c, v, s) && IsAccounted(c, value, ctx, s, |text| + 1, v)
  {
    hide Render, Dec, HonestVerdict, OnlyStamped, Attach, Equivalent;
    v :| OnlyStamped(from, v) && TellsItsSize(c, rd, from, v, s, text);
    OnlyStampedTransitive(Attach(AsObject(value), ctx), from, v);
  }
}
