/** The collector for `run` payloads: what the command's own record says, then
    one candidate for each failure section, up to a cap. */
module RunSignals {
  import opened Common
  import opened Json
  import opened Pointer
  import opened Findings

  const TIMED_OUT := Signal("command_timeout", "generic.run.command", 0.98, Some("error"))
  const SPAWN_ERROR := Signal("command_spawn_error", "generic.run.command", 0.98, Some("error"))
  const NONZERO_EXIT := Signal("nonzero_exit", "generic.run.command", 0.72, Some("error"))

  predicate Says(v: Json, key: string, b: bool) { Field(v, key) == Some(Bool(b)) }

  function CommandCandidates(command: Json, path: string): seq<Candidate>
  {
    (if Says(command, "timed_out", true) then [Candidate(path, command, TIMED_OUT, None, None)] else []) +
    (match FieldStr(command, "spawn_error")
     case Some(message) =>
       if message == [] then [] else [Candidate(Push(path, "spawn_error"), Str(message), SPAWN_ERROR, None, None)]
     case None => []) +
    (if Says(command, "success", false) then [Candidate(path, command, NONZERO_EXIT, None, None)] else [])
  }

  /** `section` reads the signal, with its confidence, off a section. */
  function SectionCandidates(section: Json -> Signal, items: seq<Json>, path: string): seq<Candidate>
  {
    if items == [] then []
    else
      var n := |items| - 1;
      SectionCandidates(section, items[..n], path) +
      (if items[n].Obj? then [Candidate(Push(path, Dec(n)), items[n], section(items[n]), None, None)] else [])
  }

  function CommandPart(v: Json, path: string): seq<Candidate>
  {
    match Field(v, "command")
    case Some(Obj(ms)) => CommandCandidates(Obj(ms), Push(path, "command"))
    case _ => []
  }

  function Sections(v: Json): seq<Json>
  {
    match Field(v, "failure_sections")
    case Some(Arr(items)) => items
    case _ => []
  }

  /** Everything the payload says about its run. */
  function FullRun(section: Json -> Signal, v: Json, path: string): seq<Candidate>
  {
    CommandPart(v, path) + SectionCandidates(section, Sections(v), Push(path, "failure_sections"))
  }

  /** The same from the first sections only. */
  function CappedRun(section: Json -> Signal, v: Json, path: string): seq<Candidate>
  {
    CommandPart(v, path) +
    SectionCandidates(section, Sections(v)[..Min(|Sections(v)|, MAX_FINDING_NODES)], Push(path, "failure_sections"))
  }

  method CollectRunSignals(section: Json -> Signal, v: Json, path: string) returns (out: seq<Candidate>)
    ensures out == CappedRun(section, v, path)
  {
    hide CommandPart, Sections, SectionCandidates, Push, Dec;
    out := CommandPart(v, path);
    var items := Sections(v);
    var sectionsPath := Push(path, "failure_sections");
    NoSections(section, sectionsPath);
    for i := 0 to Min(|items|, MAX_FINDING_NODES)
      invariant out == CommandPart(v, path) + SectionCandidates(section, items[..i], sectionsPath)
    {
      SectionStep(section, items[..i], items[i], sectionsPath);
      assert items[..i + 1] == items[..i] + [items[i]];
      if items[i].Obj? {
        out := out + [Candidate(Push(sectionsPath, Dec(i)), items[i], section(items[i]), None, None)];
      }
    }
  }

  lemma NoSections(section: Json -> Signal, path: string)
    ensures SectionCandidates(section, [], path) == []
  {
  }

  lemma SectionStep(section: Json -> Signal, items: seq<Json>, item: Json, path: string)
    ensures SectionCandidates(section, items + [item], path) ==
            SectionCandidates(section, items, path) +
            (if item.Obj? then [Candidate(Push(path, Dec(|items|)), item, section(item), None, None)] else [])
  {
    assert (items + [item])[..|items|] == items;
  }

  /** On a payload within the node budget the cap on sections is never met:
      each section is a node. */
  lemma RunUncapped(section: Json -> Signal, v: Json, path: string)
    requires WellFormed(v) && Cost(v) <= MAX_FINDING_NODES
    ensures CappedRun(section, v, path) == FullRun(section, v, path)
    ensures |Sections(v)| < MAX_FINDING_NODES
  {
    hide Cost, CommandPart, SectionCandidates, Sections, Push;
    SectionsAreNodes(v);
    assert Sections(v)[..|Sections(v)|] == Sections(v);
  }

  lemma SectionsAreNodes(v: Json)
    requires WellFormed(v)
    ensures |Sections(v)| < Cost(v)
  {
    hide Cost, KidsCost, WellFormed;
    OpenCost(v);
    if Sections(v) != [] {
      var k := LookupIndex(v.members, "failure_sections");
      CostOfKid(v, 0, k);
      ItemsCost(Arr(Sections(v)), 0);
      OpenCost(Arr(Sections(v)));
    }
  }

  lemma OpenCost(v: Json)
    ensures Cost(v) > KidsCost(v, 0)
  {
  }

  lemma {:induction false} ItemsCost(v: Json, i: nat)
    requires i <= |Children(v)|
    ensures KidsCost(v, i) >= |Children(v)| - i
    decreases |Children(v)| - i
  {
    hide Cost, Children;
    if i < |Children(v)| { ItemsCost(v, i + 1); }
  }
}
