/** Bounded finding derivation: the predicate that promises the traversal
    reaches everything, the budgeted collector, and the theorem between them. */
module Findings {
  import opened Common
  import opened Json
  import opened Pointer
  import opened Text

  const MAX_FINDING_NODES: nat := 10_000
  const MAX_FINDING_DEPTH: nat := 64

  // ----- field access -----

  function Field(v: Json, key: string): Option<Json>
  {
    if v.Obj? then Lookup(v.members, key) else None
  }

  function FieldStr(v: Json, key: string): Option<string>
  {
    match Field(v, key)
    case Some(Str(s)) => Some(s)
    case _ => None
  }

  function FieldNat(v: Json, key: string): Option<nat>
  {
    match Field(v, key)
    case Some(Num(Int(i))) => if i >= 0 then Some(i) else None
    case _ => None
  }

  function FieldLength(v: Json, key: string): nat
  {
    match Field(v, key)
    case Some(Arr(items)) => |items|
    case _ => 0
  }

  // ----- the completeness predicate -----

  /** A text wrapper that kept only head and tail windows. */
  predicate Windowed(v: Json)
  {
    FieldStr(v, "format") == Some("text") && FieldNat(v, "line_count").Some? &&
    var count := FieldNat(v, "line_count").value;
    count > FieldLength(v, "head") + FieldLength(v, "tail") &&
    FieldStr(v, "text").None? &&
    !(Field(v, "lines").Some? && Field(v, "lines").value.Arr? && FieldLength(v, "lines") >= count)
  }

  /** A coding-provider record that does not declare itself complete. */
  predicate IncompleteProvider(v: Json)
  {
    FieldStr(v, "schema") == Some("prog.coding_provider") && Field(v, "complete") != Some(Bool(true))
  }

  /** Lines of an exact `text` field beyond the first are counted at the object
      that carries it. */
  function ExtraLines(v: Json): nat
  {
    match FieldStr(v, "text")
    case Some(text) => SatSub(|Lines(text)|, 1)
    case None => 0
  }

  /** Nodes plus virtual line nodes of a subtree. */
  function Cost(v: Json): (n: nat)
    ensures n > 0
    decreases v, 1, 0
  {
    1 + ExtraLines(v) + KidsCost(v, 0)
  }

  function KidsCost(v: Json, i: nat): (n: nat)
    ensures i < |Children(v)| ==> n > 0
    decreases v, 0, |Children(v)| - i
  {
    if i >= |Children(v)| then 0
    else Cost(Children(v)[i].value) + KidsCost(v, i + 1)
  }

  predicate Shallow(v: Json, depth: nat)
  {
    depth <= MAX_FINDING_DEPTH &&
    forall i :: 0 <= i < |Children(v)| ==> Shallow(Children(v)[i].value, depth + 1)
  }

  predicate NothingHidden(v: Json)
  {
    !Windowed(v) && !IncompleteProvider(v) &&
    forall i :: 0 <= i < |Children(v)| ==> NothingHidden(Children(v)[i].value)
  }

  /** What completeness means, with no traversal order in sight. */
  predicate Complete(payload: Json)
  {
    Cost(payload) <= MAX_FINDING_NODES && Shallow(payload, 0) && NothingHidden(payload)
  }

  /** The short-circuiting visitor with its shared counter. */
  class DerivationCheck {
    var visited: nat

    constructor ()
      ensures visited == 0
    {
      visited := 0;
    }

    method Visit(value: Json, depth: nat) returns (ok: bool)
      modifies this
      ensures ok <==> old(visited) + Cost(value) <= MAX_FINDING_NODES &&
                      Shallow(value, depth) && NothingHidden(value)
      ensures ok ==> visited == old(visited) + Cost(value)
      decreases value
    {
      hide *;
      OpenVisit(value, depth);
      if depth > MAX_FINDING_DEPTH || visited >= MAX_FINDING_NODES {
        return false;
      }
      visited := visited + 1;
      var additional := ExtraLines(value);
      if visited + additional > MAX_FINDING_NODES {
        return false;
      }
      visited := visited + additional;
      if Windowed(value) { return false; }
      if IncompleteProvider(value) { return false; }
      var kids := Children(value);
      for i := 0 to |kids|
        invariant visited + KidsCost(value, i) == old(visited) + Cost(value)
        invariant visited <= MAX_FINDING_NODES
        invariant forall k :: 0 <= k < i ==> Shallow(kids[k].value, depth + 1) && NothingHidden(kids[k].value)
      {
        OpenKidsCost(value, i);
        ok := Visit(kids[i].value, depth + 1);
        if !ok { return; }
      }
      OpenKidsCost(value, |kids|);
      return true;
    }
  }

  lemma OpenVisit(v: Json, depth: nat)
    ensures Cost(v) == 1 + ExtraLines(v) + KidsCost(v, 0)
    ensures Shallow(v, depth) <==>
            (depth <= MAX_FINDING_DEPTH &&
             forall i :: 0 <= i < |Children(v)| ==> Shallow(Children(v)[i].value, depth + 1))
    ensures NothingHidden(v) <==>
            (!Windowed(v) && !IncompleteProvider(v) &&
             forall i :: 0 <= i < |Children(v)| ==> NothingHidden(Children(v)[i].value))
  {
  }

  lemma OpenKidsCost(v: Json, i: nat)
    ensures i < |Children(v)| ==> KidsCost(v, i) == Cost(Children(v)[i].value) + KidsCost(v, i + 1)
    ensures i >= |Children(v)| ==> KidsCost(v, i) == 0
  {
  }

  method FindingDerivationIsComplete(payload: Json) returns (ok: bool)
    ensures ok <==> Complete(payload)
  {
    var check := new DerivationCheck();
    ok := check.Visit(payload, 0);
  }

  // ----- classification, left abstract -----

  datatype Signal = Signal(kind: string, source: string, confidence: real, severity: Option<string>)

  /** The keyword classifiers. Every theorem holds for all of them. */
  datatype Classifiers = Classifiers(
    key: (string, Json) -> Option<Signal>,
    text: string -> Option<Signal>,
    node: Json -> Option<Signal>)

  /** `context` is the enclosing object of a key signal, from which spans and
      identity are taken; `line` is set for one line of a text field. */
  datatype Candidate = Candidate(
    path: string,
    value: Json,
    signal: Signal,
    context: Option<Json>,
    line: Option<nat>)

  predicate IsCommandArgvPath(path: string)
  {
    Parse(path).Some? &&
    var s := Parse(path).value;
    exists i :: 0 <= i < |s| - 1 && s[i] == "command" && s[i + 1] == "argv"
  }

  predicate IsCanonicalTextPath(path: string)
  {
    Parse(path).Some? && Parse(path).value != [] && Parse(path).value[|Parse(path).value| - 1] == "text"
  }

  /** Derived copies of evidence that is traversed elsewhere. */
  predicate Skipped(v: Json, key: string)
  {
    (FieldStr(v, "format") == Some("text") && FieldStr(v, "text").Some? && (key == "head" || key == "tail")) ||
    (FieldStr(v, "format") == Some("run") && (key == "combined" || key == "failure_sections"))
  }

  /** The key signal already gives the string its kind. */
  predicate KeyClassifies(c: Classifiers, key: string, child: Json)
  {
    c.key(key, child).Some? && child.Str? && c.text(child.s).Some? &&
    c.text(child.s).value.kind == c.key(key, child).value.kind
  }

  function NodeCandidates(c: Classifiers, v: Json, path: string): seq<Candidate>
  {
    if v.Obj? && c.node(v).Some? then [Candidate(path, v, c.node(v).value, None, None)] else []
  }

  function KeyCandidates(c: Classifiers, v: Json, m: Member, path: string): seq<Candidate>
  {
    if v.Obj? && c.key(m.key, m.value).Some? then
      [Candidate(Push(path, m.key), m.value, c.key(m.key, m.value).value, Some(v), None)]
    else []
  }

  function TextCandidates(c: Classifiers, text: string, path: string): seq<Candidate>
  {
    if c.text(text).Some? then [Candidate(path, Str(text), c.text(text).value, None, None)] else []
  }

  function LineCandidates(c: Classifiers, line: string, index: nat, path: string): seq<Candidate>
  {
    if c.text(line).Some? then [Candidate(path, Str(line), c.text(line).value, None, Some(index + 1))] else []
  }

  // ----- the collection with no caps -----

  function AllLines(c: Classifiers, lines: seq<string>, i: nat, path: string): seq<Candidate>
    decreases |lines| - i
  {
    if i >= |lines| then [] else LineCandidates(c, lines[i], i, path) + AllLines(c, lines, i + 1, path)
  }

  /** Line signals, or the whole text when no line matched on its own. */
  function StringCandidates(c: Classifiers, text: string, path: string): seq<Candidate>
  {
    if IsCommandArgvPath(path) then []
    else if IsCanonicalTextPath(path) then
      var found := AllLines(c, Lines(text), 0, path);
      if found == [] then TextCandidates(c, text, path) else found
    else TextCandidates(c, text, path)
  }

  function Full(c: Classifiers, v: Json, path: string): seq<Candidate>
    decreases v, 1, 0
  {
    if v.Str? then StringCandidates(c, v.s, path)
    else NodeCandidates(c, v, path) + FullKids(c, v, path, 0)
  }

  function FullKids(c: Classifiers, v: Json, path: string, i: nat): seq<Candidate>
    decreases v, 0, |Children(v)| - i
  {
    if i >= |Children(v)| then []
    else
      var m := Children(v)[i];
      if Skipped(v, m.key) then FullKids(c, v, path, i + 1)
      else
        KeyCandidates(c, v, m, path) +
        (if v.Obj? && KeyClassifies(c, m.key, m.value) then [] else Full(c, m.value, Push(path, m.key))) +
        FullKids(c, v, path, i + 1)
  }

  /** The same, without what lies deeper than the collector goes. */
  function Reached(c: Classifiers, v: Json, path: string, depth: nat): seq<Candidate>
    decreases v, 1, 0
  {
    if depth > MAX_FINDING_DEPTH then []
    else if v.Str? then StringCandidates(c, v.s, path)
    else NodeCandidates(c, v, path) + ReachedKids(c, v, path, 0, depth)
  }

  function ReachedKids(c: Classifiers, v: Json, path: string, i: nat, depth: nat): seq<Candidate>
    decreases v, 0, |Children(v)| - i
  {
    if i >= |Children(v)| then []
    else ReachedPart(c, v, path, i, depth) + ReachedKids(c, v, path, i + 1, depth)
  }

  /** What one child contributes: its key signal, then everything below it. */
  function ReachedPart(c: Classifiers, v: Json, path: string, i: nat, depth: nat): seq<Candidate>
    requires i < |Children(v)|
    decreases v, 0, |Children(v)| - i, 0
  {
    var m := Children(v)[i];
    if Skipped(v, m.key) then []
    else
      KeyCandidates(c, v, m, path) +
      (if v.Obj? && KeyClassifies(c, m.key, m.value) then [] else Reached(c, m.value, Push(path, m.key), depth + 1))
  }

  // ----- the same collection under its caps -----

  datatype Scan = Scan(out: seq<Candidate>, visited: nat)

  function ScanLines(c: Classifiers, lines: seq<string>, i: nat, path: string, visited: nat): Scan
    decreases |lines| - i
  {
    if i >= |lines| || (i > 0 && visited >= MAX_FINDING_NODES) then Scan([], visited)
    else
      var rest := ScanLines(c, lines, i + 1, path, if i > 0 then visited + 1 else visited);
      Scan(LineCandidates(c, lines[i], i, path) + rest.out, rest.visited)
  }

  function ScanString(c: Classifiers, text: string, path: string, visited: nat): Scan
  {
    if IsCommandArgvPath(path) then Scan([], visited)
    else if IsCanonicalTextPath(path) then
      var found := ScanLines(c, Lines(text), 0, path, visited);
      if found.out == [] then Scan(TextCandidates(c, text, path), found.visited) else found
    else Scan(TextCandidates(c, text, path), visited)
  }

  function Collect(c: Classifiers, v: Json, path: string, depth: nat, visited: nat): Scan
    decreases v, 1, 0
  {
    if visited >= MAX_FINDING_NODES || depth > MAX_FINDING_DEPTH then Scan([], visited)
    else if v.Str? then ScanString(c, v.s, path, visited + 1)
    else
      var kids := CollectKids(c, v, path, 0, depth, visited + 1);
      Scan(NodeCandidates(c, v, path) + kids.out, kids.visited)
  }

  function CollectKids(c: Classifiers, v: Json, path: string, i: nat, depth: nat, visited: nat): Scan
    decreases v, 0, |Children(v)| - i
  {
    if i >= |Children(v)| then Scan([], visited)
    else
      var m := Children(v)[i];
      if Skipped(v, m.key) then CollectKids(c, v, path, i + 1, depth, visited)
      else
        var kid := if v.Obj? && KeyClassifies(c, m.key, m.value) then Scan([], visited)
                   else Collect(c, m.value, Push(path, m.key), depth + 1, visited);
        var here := KeyCandidates(c, v, m, path) + kid.out;
        if kid.visited >= MAX_FINDING_NODES then Scan(here, kid.visited)
        else
          var rest := CollectKids(c, v, path, i + 1, depth, kid.visited);
          Scan(here + rest.out, rest.visited)
  }

  /** The collector: one counter and one output list shared by the recursion. */
  class SignalCollector {
    const classifiers: Classifiers
    var visited: nat
    var found: seq<Candidate>

    constructor (classifiers: Classifiers)
      ensures this.classifiers == classifiers && visited == 0 && found == []
    {
      this.classifiers := classifiers;
      visited := 0;
      found := [];
    }

    method CollectGenericSignals(value: Json, path: string, depth: nat)
      modifies this
      ensures var scan := Collect(classifiers, value, path, depth, old(visited));
              found == old(found) + scan.out && visited == scan.visited
      decreases value, 1
    {
      hide ScanString, CollectKids, NodeCandidates;
      if visited >= MAX_FINDING_NODES || depth > MAX_FINDING_DEPTH {
        return;
      }
      visited := visited + 1;
      if value.Str? {
        CollectString(value.s, path);
      } else {
        found := found + NodeCandidates(classifiers, value, path);
        ghost var before, start := found, visited;
        CollectChildren(value, path, depth);
        assert found == before + CollectKids(classifiers, value, path, 0, depth, start).out;
      }
    }

    method CollectChildren(value: Json, path: string, depth: nat)
      modifies this
      ensures var scan := CollectKids(classifiers, value, path, 0, depth, old(visited));
              found == old(found) + scan.out && visited == scan.visited
      decreases value, 0
    {
      hide *;
      var kids := Children(value);
      ghost var all := CollectKids(classifiers, value, path, 0, depth, visited);
      var i := 0;
      while i < |kids|
        invariant 0 <= i <= |kids|
        invariant var rest := CollectKids(classifiers, value, path, i, depth, visited);
                  old(found) + all.out == found + rest.out && all.visited == rest.visited
        decreases |kids| - i
      {
        OpenCollectKids(classifiers, value, path, i, depth, visited);
        ghost var at := found;
        if Skipped(value, kids[i].key) {
          i := i + 1;
          continue;
        }
        found := found + KeyCandidates(classifiers, value, kids[i], path);
        if !(value.Obj? && KeyClassifies(classifiers, kids[i].key, kids[i].value)) {
          CollectGenericSignals(kids[i].value, Push(path, kids[i].key), depth + 1);
        }
        i := i + 1;
        if visited >= MAX_FINDING_NODES {
          return;
        }
      }
      NoMoreKids(classifiers, value, path, i, depth, visited);
    }

    method CollectString(text: string, path: string)
      modifies this
      ensures var scan := ScanString(classifiers, text, path, old(visited));
              found == old(found) + scan.out && visited == scan.visited
    {
      hide Lines, IsCommandArgvPath, IsCanonicalTextPath, LineCandidates, TextCandidates;
      if IsCommandArgvPath(path) {
        return;
      }
      if !IsCanonicalTextPath(path) {
        found := found + TextCandidates(classifiers, text, path);
        return;
      }
      var lines := Lines(text);
      ghost var all := ScanLines(classifiers, lines, 0, path, visited);
      var emitted: seq<Candidate> := [];
      var index := 0;
      while index < |lines|
        invariant 0 <= index <= |lines|
        invariant found == old(found)
        invariant var rest := ScanLines(classifiers, lines, index, path, visited);
                  all.out == emitted + rest.out && all.visited == rest.visited
      {
        if index > 0 {
          if visited >= MAX_FINDING_NODES {
            break;
          }
          visited := visited + 1;
        }
        emitted := emitted + LineCandidates(classifiers, lines[index], index, path);
        index := index + 1;
      }
      assert all.out == emitted;
      found := found + (if emitted == [] then TextCandidates(classifiers, text, path) else emitted);
    }
  }

  lemma OpenCollectKids(c: Classifiers, v: Json, path: string, i: nat, depth: nat, visited: nat)
    requires i < |Children(v)|
    ensures var m := Children(v)[i];
            var scan := CollectKids(c, v, path, i, depth, visited);
            if Skipped(v, m.key) then scan == CollectKids(c, v, path, i + 1, depth, visited)
            else
              var kid := if v.Obj? && KeyClassifies(c, m.key, m.value) then Scan([], visited)
                         else Collect(c, m.value, Push(path, m.key), depth + 1, visited);
              var here := KeyCandidates(c, v, m, path) + kid.out;
              if kid.visited >= MAX_FINDING_NODES then scan == Scan(here, kid.visited)
              else
                var rest := CollectKids(c, v, path, i + 1, depth, kid.visited);
                scan == Scan(here + rest.out, rest.visited)
  {
  }

  lemma NoMoreKids(c: Classifiers, v: Json, path: string, i: nat, depth: nat, visited: nat)
    requires i >= |Children(v)|
    ensures CollectKids(c, v, path, i, depth, visited) == Scan([], visited)
  {
  }

  // ----- completeness implies that no cap is met -----

  /** Extra line nodes the collector counts at a text string itself. */
  function TextExtra(v: Json, path: string): nat
  {
    if v.Str? && IsCanonicalTextPath(path) then SatSub(|Lines(v.s)|, 1) else 0
  }

  /** Extra lines still to be met among the children from `i` on. */
  function ExtraFrom(v: Json, i: nat): nat
    requires i <= |Children(v)|
  {
    match Lookup(Children(v)[i..], "text")
    case Some(Str(text)) => if v.Obj? then SatSub(|Lines(text)|, 1) else 0
    case _ => 0
  }

  lemma ExtraAtStart(v: Json)
    ensures ExtraFrom(v, 0) == ExtraLines(v)
  {
    assert Children(v)[0..] == Children(v);
  }

  lemma TextIsNotIndex(n: nat)
    ensures Dec(n) != "text"
  {
    assert IsDigit(Dec(n)[0]);
    assert !IsDigit("text"[0]);
  }

  lemma PushedText(path: string, key: string)
    requires Parse(path).Some?
    ensures IsCanonicalTextPath(Push(path, key)) <==> key == "text"
  {
    ParsePush(path, key);
  }

  lemma ExtraStep(v: Json, i: nat, path: string)
    requires WellFormed(v) && i < |Children(v)| && Parse(path).Some?
    ensures var m := Children(v)[i];
            TextExtra(m.value, Push(path, m.key)) + ExtraFrom(v, i + 1) <= ExtraFrom(v, i)
  {
    hide Lines, Push, Parse, Dec;
    var ms := Children(v);
    var m := ms[i];
    PushedText(path, m.key);
    ChildrenDistinct(v);
    assert ms[i..][1..] == ms[i + 1..] && ms[i..][0] == m;
    if v.Arr? {
      TextIsNotIndex(i);
    } else if m.key == "text" {
      var rest := ms[i + 1..];
      assert forall k :: 0 <= k < |rest| ==> rest[k].key == ms[i + 1 + k].key != "text";
    }
  }

  lemma {:induction false} LinesUncapped(c: Classifiers, lines: seq<string>, i: nat, path: string, visited: nat)
    requires i <= |lines|
    requires visited + (if i == 0 then SatSub(|lines|, 1) else |lines| - i) <= MAX_FINDING_NODES
    ensures ScanLines(c, lines, i, path, visited) ==
            Scan(AllLines(c, lines, i, path), visited + if i == 0 then SatSub(|lines|, 1) else |lines| - i)
    decreases |lines| - i
  {
    if i < |lines| {
      LinesUncapped(c, lines, i + 1, path, if i > 0 then visited + 1 else visited);
    }
  }

  lemma StringUncapped(c: Classifiers, text: string, path: string, visited: nat)
    requires visited + TextExtra(Str(text), path) <= MAX_FINDING_NODES
    ensures var scan := ScanString(c, text, path, visited);
            scan.out == StringCandidates(c, text, path) &&
            visited <= scan.visited <= visited + TextExtra(Str(text), path)
  {
    hide Lines, IsCommandArgvPath, IsCanonicalTextPath, LineCandidates, TextCandidates;
    if IsCanonicalTextPath(path) {
      LinesUncapped(c, Lines(text), 0, path, visited);
    }
  }

  lemma {:induction false} Uncapped(c: Classifiers, v: Json, path: string, depth: nat, visited: nat)
    requires WellFormed(v) && Parse(path).Some?
    requires visited + Cost(v) + TextExtra(v, path) <= MAX_FINDING_NODES
    ensures var scan := Collect(c, v, path, depth, visited);
            scan.out == Reached(c, v, path, depth) &&
            visited <= scan.visited <= visited + Cost(v) + TextExtra(v, path)
    decreases v, 1, 0
  {
    hide ScanString, StringCandidates, CollectKids, ReachedKids, NodeCandidates, TextExtra, ExtraLines, ExtraFrom;
    if depth > MAX_FINDING_DEPTH {
    } else if v.Str? {
      StringUncapped(c, v.s, path, visited + 1);
    } else {
      ExtraAtStart(v);
      KidsUncapped(c, v, path, 0, depth, visited + 1);
    }
  }

  lemma {:induction false} KidsUncapped(c: Classifiers, v: Json, path: string, i: nat, depth: nat, visited: nat)
    requires WellFormed(v) && Parse(path).Some? && i <= |Children(v)|
    requires visited + KidsCost(v, i) + ExtraFrom(v, i) <= MAX_FINDING_NODES
    ensures var scan := CollectKids(c, v, path, i, depth, visited);
            scan.out == ReachedKids(c, v, path, i, depth) &&
            visited <= scan.visited <= visited + KidsCost(v, i) + ExtraFrom(v, i)
    decreases v, 0, |Children(v)| - i
  {
    hide *;
    if i == |Children(v)| {
      NoMoreKids(c, v, path, i, depth, visited);
      NoMoreReached(c, v, path, i, depth);
    } else {
      var m := Children(v)[i];
      var childPath := Push(path, m.key);
      ParsePush(path, m.key);
      ExtraStep(v, i, path);
      KidFacts(v, i);
      OpenCollectKids(c, v, path, i, depth, visited);
      OpenReachedKids(c, v, path, i, depth);
      if Skipped(v, m.key) {
        KidsUncapped(c, v, path, i + 1, depth, visited);
      } else {
        if !(v.Obj? && KeyClassifies(c, m.key, m.value)) {
          Uncapped(c, m.value, childPath, depth + 1, visited);
        }
        var after := if v.Obj? && KeyClassifies(c, m.key, m.value) then visited
                     else Collect(c, m.value, childPath, depth + 1, visited).visited;
        assert after + KidsCost(v, i + 1) + ExtraFrom(v, i + 1) <= visited + KidsCost(v, i) + ExtraFrom(v, i);
        KidsUncapped(c, v, path, i + 1, depth, after);
        if after >= MAX_FINDING_NODES {
          // The counter is at its cap only after the last child.
          NoMoreReached(c, v, path, i + 1, depth);
        }
      }
    }
  }

  lemma OpenReachedKids(c: Classifiers, v: Json, path: string, i: nat, depth: nat)
    requires i < |Children(v)|
    ensures var m := Children(v)[i];
            ReachedKids(c, v, path, i, depth) ==
            if Skipped(v, m.key) then ReachedKids(c, v, path, i + 1, depth)
            else
              KeyCandidates(c, v, m, path) +
              (if v.Obj? && KeyClassifies(c, m.key, m.value) then [] else Reached(c, m.value, Push(path, m.key), depth + 1)) +
              ReachedKids(c, v, path, i + 1, depth)
  {
  }

  lemma NoMoreReached(c: Classifiers, v: Json, path: string, i: nat, depth: nat)
    ensures i >= |Children(v)| ==> ReachedKids(c, v, path, i, depth) == []
  {
  }

  /** Where nothing is too deep, nothing is left out. */
  lemma {:induction false} ReachedIsFull(c: Classifiers, v: Json, path: string, depth: nat)
    requires Shallow(v, depth)
    ensures Reached(c, v, path, depth) == Full(c, v, path)
    decreases v, 1, 0
  {
    hide StringCandidates, NodeCandidates, ReachedKids, FullKids;
    if !v.Str? { ReachedKidsAreFull(c, v, path, 0, depth); }
  }

  lemma {:induction false} ReachedKidsAreFull(c: Classifiers, v: Json, path: string, i: nat, depth: nat)
    requires Shallow(v, depth)
    ensures ReachedKids(c, v, path, i, depth) == FullKids(c, v, path, i)
    decreases v, 0, |Children(v)| - i
  {
    hide Full, FullKids, Reached, ReachedKids, Skipped, KeyCandidates, KeyClassifies, Push;
    if i >= |Children(v)| {
      NoMoreReached(c, v, path, i, depth);
      NoMoreFullKids(c, v, path, i);
    } else {
      OpenReachedKids(c, v, path, i, depth);
      OpenFullKids(c, v, path, i);
      ReachedIsFull(c, Children(v)[i].value, Push(path, Children(v)[i].key), depth + 1);
      ReachedKidsAreFull(c, v, path, i + 1, depth);
    }
  }

  lemma KidFacts(v: Json, i: nat)
    requires WellFormed(v) && i < |Children(v)|
    ensures WellFormed(Children(v)[i].value)
    ensures KidsCost(v, i) == Cost(Children(v)[i].value) + KidsCost(v, i + 1)
    ensures Cost(Children(v)[i].value) > 0
    ensures i + 1 < |Children(v)| ==> KidsCost(v, i + 1) > 0
  {
    ChildrenDistinct(v);
  }

  lemma OpenFullKids(c: Classifiers, v: Json, path: string, i: nat)
    requires i < |Children(v)|
    ensures var m := Children(v)[i];
            FullKids(c, v, path, i) ==
            if Skipped(v, m.key) then FullKids(c, v, path, i + 1)
            else
              KeyCandidates(c, v, m, path) +
              (if v.Obj? && KeyClassifies(c, m.key, m.value) then [] else Full(c, m.value, Push(path, m.key))) +
              FullKids(c, v, path, i + 1)
  {
  }

  lemma NoMoreFullKids(c: Classifiers, v: Json, path: string, i: nat)
    ensures i >= |Children(v)| ==> FullKids(c, v, path, i) == []
  {
  }

  // ----- every scope inside a complete payload -----

  /** Extra lines of a node addressed by `segments`. */
  function SegmentExtra(v: Json, segments: seq<string>): nat
  {
    if v.Str? && segments != [] && segments[|segments| - 1] == "text" then SatSub(|Lines(v.s)|, 1) else 0
  }

  lemma {:induction false} CostOfKid(v: Json, i: nat, k: nat)
    requires i <= k < |Children(v)|
    ensures KidsCost(v, i) >= Cost(Children(v)[k].value)
    decreases k - i
  {
    if i < k { CostOfKid(v, i + 1, k); }
  }

  /** One step down, with the lines the parent counted for that child. */
  lemma ChildCost(v: Json, segment: string, depth: nat) returns (child: Json)
    requires WellFormed(v) && Child(v, segment).Some? && Shallow(v, depth)
    ensures Child(v, segment) == Some(child) && WellFormed(child) && Shallow(child, depth + 1)
    ensures Cost(child) + SegmentExtra(child, [segment]) <= Cost(v)
  {
    hide Lines, WellFormed, Dec;
    var i := MemberOfChild(v, segment);
    child := Children(v)[i].value;
    ChildrenDistinct(v);
    OpenVisit(v, depth);
    CostOfKid(v, 0, i);
    if segment == "text" && v.Arr? {
      TextIsNotUsize();
    }
  }

  lemma TextIsNotUsize()
    ensures ParseUsize("text").None?
  {
    NotUsize("text");
  }

  lemma NotUsize(s: string)
    requires s != [] && !IsDigit(s[0]) && s[0] != '+'
    ensures ParseUsize(s).None?
  {
    assert !AllDigits(s);
  }

  /** A subtree, with the lines its parent counted for it, costs no more than
      the whole. */
  lemma {:induction false} ScopeCost(v: Json, segments: seq<string>, depth: nat)
    requires WellFormed(v) && Get(v, segments).Some? && Shallow(v, depth)
    ensures var scoped := Get(v, segments).value;
            Cost(scoped) + SegmentExtra(scoped, segments) <= Cost(v) &&
            Shallow(scoped, depth + |segments|)
    decreases |segments|
  {
    hide Lines, WellFormed, Cost, Shallow, Child;
    if segments != [] {
      var child := ChildCost(v, segments[0], depth);
      ScopeCost(child, segments[1..], depth + 1);
      if |segments| == 1 {
        assert segments == [segments[0]];
      }
    }
  }

  lemma {:induction false} ShallowAnywhere(v: Json, depth: nat, less: nat)
    requires Shallow(v, depth) && less <= depth
    ensures Shallow(v, less)
  {
    forall i | 0 <= i < |Children(v)| ensures Shallow(Children(v)[i].value, less + 1) {
      ShallowAnywhere(Children(v)[i].value, depth + 1, less + 1);
    }
  }

  /** The guarantee absence claims rest on: when the predicate holds, the
      budgeted collector started at any scope of the payload emits exactly
      what the collector with no caps emits there. */
  lemma CompleteMeansNothingMissed(c: Classifiers, payload: Json, scope: string)
    requires WellFormed(payload) && Complete(payload)
    requires Parse(scope).Some? && Get(payload, Parse(scope).value).Some?
    ensures var scoped := Get(payload, Parse(scope).value).value;
            var scan := Collect(c, scoped, scope, 0, 0);
            scan.out == Full(c, scoped, scope) && scan.visited <= Cost(payload)
  {
    hide Collect, Full, Reached, Cost, Shallow, NothingHidden, WellFormed, Get, Parse, Lines;
    var segments := Parse(scope).value;
    ScopeCost(payload, segments, 0);
    var scoped := Get(payload, segments).value;
    WellFormedBelow(payload, segments);
    ShallowAnywhere(scoped, |segments|, 0);
    assert TextExtra(scoped, scope) == SegmentExtra(scoped, segments);
    Uncapped(c, scoped, scope, 0, 0);
    ReachedIsFull(c, scoped, scope, 0);
  }
}
