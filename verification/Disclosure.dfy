/** Progressive disclosure: a projector with node, depth, width and string
    budgets that records every omission. */
module Disclosure {
  import opened Common
  import opened Json
  import opened Pointer
  import opened Sorting

  datatype Policy = Policy(
    arrayItems: nat,
    objectFields: nat,
    stringChars: nat,
    depth: nat,
    nodeBudget: nat,
    maxEnvelopeBytes: nat)

  datatype OmissionReason = NodeBudget | RedactedText | LargeString | DeepObject | LongArray | ManyFields

  datatype Omitted = Omitted(path: string, reason: OmissionReason, detail: string)

  datatype Projection = Projection(preview: Json, omitted: seq<Omitted>)

  // ----- one projection as a function of the counters it threads -----

  datatype Out = Out(preview: Json, used: nat, omitted: seq<Omitted>)

  datatype Kids = Kids(members: seq<Member>, used: nat, omitted: seq<Omitted>)

  function ArrayMarker(n: nat): Json { Str("\U{00AB}array: " + Dec(n) + " items\U{00BB}") }

  function ObjectMarker(n: nat): Json { Str("\U{00AB}object: " + Dec(n) + " fields\U{00BB}") }

  function MarkerFor(v: Json): (m: Json)
    ensures m.Str?
  {
    match v
    case Arr(items) => ArrayMarker(|items|)
    case Obj(ms) => ObjectMarker(|ms|)
    case Str(s) => Str("\U{00AB}string: " + Dec(|s|) + " chars\U{00BB}")
    case _ => Str("\U{00AB}omitted\U{00BB}")
  }

  function ProjectString(s: string, path: string, used: nat, pol: Policy): (out: Out)
    ensures out.used == used && out.preview.Str?
    ensures out.omitted == [] ==> out.preview == Str(s)
    ensures out.omitted != [] ==> |out.omitted| == 1 && out.omitted[0].path == path
  {
    if "[REDACTED:" <= s then
      Out(Str("\U{00AB}redacted\U{00BB}"), used, [Omitted(path, RedactedText, "redacted by policy")])
    else if |s| <= pol.stringChars then Out(Str(s), used, [])
    else
      Out(Str(s[..pol.stringChars] + "\U{2026}"), used,
          [Omitted(path, LargeString, Dec(|s|) + " chars, showing " + Dec(pol.stringChars))])
  }

  /** The children a container shows, in the order they are visited. */
  function Showing(v: Json, pol: Policy): seq<Member>
  {
    match v
    case Arr(items) => Children(v)[..Min(|items|, pol.arrayItems)]
    case Obj(ms) => SortMembers(ms)[..Min(|ms|, pol.objectFields)]
    case _ => []
  }

  function DepthOmission(v: Json, path: string): (r: seq<Omitted>)
    ensures IsContainer(v) ==> |r| == 1 && r[0].path == path
  {
    match v
    case Arr(items) => [Omitted(path, DeepObject, "array has " + Dec(|items|) + " items")]
    case Obj(ms) => [Omitted(path, DeepObject, "object has " + Dec(|ms|) + " fields")]
    case _ => []
  }

  function WidthOmission(v: Json, path: string, pol: Policy): (r: seq<Omitted>)
    ensures r == [] <==> |Showing(v, pol)| == |Children(v)|
    ensures r != [] ==> |r| == 1 && r[0].path == path
  {
    match v
    case Arr(items) =>
      if |items| > pol.arrayItems then
        [Omitted(path, LongArray, Dec(|items|) + " items, showing " + Dec(pol.arrayItems))]
      else []
    case Obj(ms) =>
      if |ms| > pol.objectFields then
        [Omitted(path, ManyFields, Dec(|ms|) + " fields, showing " + Dec(pol.objectFields))]
      else []
    case _ => []
  }

  function Values(ms: seq<Member>): (r: seq<Json>)
    ensures |r| == |ms| && forall i :: 0 <= i < |r| ==> r[i] == ms[i].value
  {
    seq(|ms|, i requires 0 <= i < |ms| => ms[i].value)
  }

  function Rebuild(v: Json, ms: seq<Member>): Json
  {
    if v.Arr? then Arr(Values(ms)) else Obj(ms)
  }

  function ProjectNode(v: Json, path: string, depth: nat, used: nat, pol: Policy): Out
    decreases depth, 0
  {
    if used >= pol.nodeBudget then
      Out(MarkerFor(v), used, [Omitted(path, NodeBudget, "global node budget reached")])
    else if v.Str? then ProjectString(v.s, path, used + 1, pol)
    else if !IsContainer(v) then Out(v, used + 1, [])
    else if depth == 0 then Out(MarkerFor(v), used + 1, DepthOmission(v, path))
    else
      var kids := ProjectKids(Showing(v, pol), path, depth - 1, used + 1, pol);
      Out(Rebuild(v, kids.members), kids.used, WidthOmission(v, path, pol) + kids.omitted)
  }

  function ProjectKids(ms: seq<Member>, path: string, depth: nat, used: nat, pol: Policy): Kids
    decreases depth, |ms| + 1
  {
    if ms == [] then Kids([], used, [])
    else
      var first := ProjectNode(ms[0].value, Push(path, ms[0].key), depth, used, pol);
      var rest := ProjectKids(ms[1..], path, depth, first.used, pol);
      Kids([Member(ms[0].key, first.preview)] + rest.members, rest.used, first.omitted + rest.omitted)
  }

  function ProjectOnce(v: Json, pol: Policy, base: string): Projection
  {
    var out := ProjectNode(v, base, pol.depth, 0, pol);
    Projection(out.preview, out.omitted)
  }

  // ----- the projector object -----

  class Projector {
    const policy: Policy
    var nodesUsed: nat
    var omitted: seq<Omitted>

    constructor (policy: Policy)
      ensures this.policy == policy && nodesUsed == 0 && omitted == []
    {
      this.policy := policy;
      nodesUsed := 0;
      omitted := [];
    }

    method Omit(path: string, reason: OmissionReason, detail: string)
      modifies this`omitted
      ensures omitted == old(omitted) + [Omitted(path, reason, detail)]
    {
      omitted := omitted + [Omitted(path, reason, detail)];
    }

    method ProjectValue(value: Json, path: string, depth: nat) returns (preview: Json)
      modifies this
      ensures var out := ProjectNode(value, path, depth, old(nodesUsed), policy);
              preview == out.preview && nodesUsed == out.used && omitted == old(omitted) + out.omitted
      decreases depth, 1
    {
      hide Push, ProjectString, ProjectKids, Showing, WidthOmission, DepthOmission;
      if nodesUsed >= policy.nodeBudget {
        Omit(path, NodeBudget, "global node budget reached");
        return MarkerFor(value);
      }
      nodesUsed := nodesUsed + 1;
      match value {
        case Null => preview := value;
        case Bool(_) => preview := value;
        case Num(_) => preview := value;
        case Str(text) => preview := ProjectText(text, path);
        case Arr(_) => preview := ProjectContainer(value, path, depth);
        case Obj(_) => preview := ProjectContainer(value, path, depth);
      }
    }

    method ProjectText(text: string, path: string) returns (preview: Json)
      modifies this`omitted
      ensures var out := ProjectString(text, path, nodesUsed, policy);
              preview == out.preview && omitted == old(omitted) + out.omitted
    {
      if "[REDACTED:" <= text {
        Omit(path, RedactedText, "redacted by policy");
        return Str("\U{00AB}redacted\U{00BB}");
      }
      if |text| <= policy.stringChars {
        return Str(text);
      }
      Omit(path, LargeString, Dec(|text|) + " chars, showing " + Dec(policy.stringChars));
      return Str(text[..policy.stringChars] + "\U{2026}");
    }

    method ProjectContainer(value: Json, path: string, depth: nat) returns (preview: Json)
      requires IsContainer(value)
      modifies this
      ensures depth == 0 ==>
                preview == MarkerFor(value) && nodesUsed == old(nodesUsed) &&
                omitted == old(omitted) + DepthOmission(value, path)
      ensures depth > 0 ==>
                var kids := ProjectKids(Showing(value, policy), path, depth - 1, old(nodesUsed), policy);
                preview == Rebuild(value, kids.members) && nodesUsed == kids.used &&
                omitted == old(omitted) + (WidthOmission(value, path, policy) + kids.omitted)
      decreases depth, 0
    {
      hide ProjectKids, ProjectNode, Push, Showing, WidthOmission, DepthOmission, MarkerFor;
      if depth == 0 {
        omitted := omitted + DepthOmission(value, path);
        return MarkerFor(value);
      }
      omitted := omitted + WidthOmission(value, path, policy);
      var ms := Showing(value, policy);
      var shown: seq<Member> := [];
      ghost var before := omitted;
      ghost var all := ProjectKids(ms, path, depth - 1, nodesUsed, policy);
      assert ms[0..] == ms;
      for i := 0 to |ms|
        invariant var rest := ProjectKids(ms[i..], path, depth - 1, nodesUsed, policy);
                  all.members == shown + rest.members && all.used == rest.used &&
                  before + all.omitted == omitted + rest.omitted
      {
        OpenKids(ms[i..], path, depth - 1, nodesUsed, policy);
        assert ms[i..][1..] == ms[i + 1..];
        var child := ProjectValue(ms[i].value, Push(path, ms[i].key), depth - 1);
        shown := shown + [Member(ms[i].key, child)];
      }
      NoKids(path, depth - 1, nodesUsed, policy);
      assert shown + [] == shown && omitted + [] == omitted;
      assert before + all.omitted == old(omitted) + (WidthOmission(value, path, policy) + all.omitted);
      return Rebuild(value, shown);
    }
  }

  // ----- faithfulness -----

  /** An interior node: within budget, a container, and not at the depth floor. */
  predicate Interior(v: Json, depth: nat, used: nat, pol: Policy)
  {
    used < pol.nodeBudget && IsContainer(v) && depth > 0
  }

  /** The region at relative address `s` below `path` is listed. */
  ghost predicate Covered(omitted: seq<Omitted>, path: string, s: seq<string>)
  {
    exists o :: o in omitted && o.path == path + Join(s)
  }

  /** A preview node that stands for its source unchanged: scalars are equal,
      containers have the same kind and the same child names. */
  ghost predicate SameNode(x: Json, y: Json)
  {
    if IsContainer(x) then
      (x.Arr? <==> y.Arr?) && (x.Obj? <==> y.Obj?) && |Children(x)| == |Children(y)| &&
      forall m <- Children(y) :: Lookup(Children(x), m.key).Some?
    else x == y
  }

  function KidsOf(v: Json, path: string, depth: nat, used: nat, pol: Policy): Kids
    requires depth > 0
  {
    ProjectKids(Showing(v, pol), path, depth - 1, used + 1, pol)
  }

  lemma OpenLeaf(v: Json, path: string, depth: nat, used: nat, pol: Policy)
    requires !Interior(v, depth, used, pol)
    ensures var out := ProjectNode(v, path, depth, used, pol);
            !IsContainer(out.preview) &&
            (out.omitted == [] ==> out.preview == v) &&
            (out.omitted != [] ==> |out.omitted| == 1 && out.omitted[0].path == path)
  {
  }

  lemma OpenNode(v: Json, path: string, depth: nat, used: nat, pol: Policy)
    requires Interior(v, depth, used, pol)
    ensures var out := ProjectNode(v, path, depth, used, pol);
            var kids := KidsOf(v, path, depth, used, pol);
            out.omitted == WidthOmission(v, path, pol) + kids.omitted &&
            out.preview == Rebuild(v, kids.members)
  {
  }

  lemma OpenKids(ms: seq<Member>, path: string, depth: nat, used: nat, pol: Policy)
    requires ms != []
    ensures var first := ProjectNode(ms[0].value, Push(path, ms[0].key), depth, used, pol);
            var rest := ProjectKids(ms[1..], path, depth, first.used, pol);
            var kids := ProjectKids(ms, path, depth, used, pol);
            kids.members == [Member(ms[0].key, first.preview)] + rest.members &&
            kids.used == rest.used && kids.omitted == first.omitted + rest.omitted
  {
  }

  lemma NoKids(path: string, depth: nat, used: nat, pol: Policy)
    ensures ProjectKids([], path, depth, used, pol) == Kids([], used, [])
  {
  }

  lemma ShowingFacts(v: Json, pol: Policy)
    requires WellFormed(v)
    ensures var ms := Showing(v, pol);
            DistinctKeys(ms) && |ms| <= |Children(v)| &&
            (forall i :: 0 <= i < |ms| ==> ms[i] in Children(v) && WellFormed(ms[i].value)) &&
            (v.Arr? ==> forall i :: 0 <= i < |ms| ==> ms[i] == Children(v)[i])
    ensures |Showing(v, pol)| == |Children(v)| ==> forall m <- Children(v) :: m in Showing(v, pol)
  {
    ChildrenDistinct(v);
    if v.Obj? {
      SortMembersContents(v.members);
      var sorted := SortMembers(v.members);
      forall i | 0 <= i < |Showing(v, pol)|
        ensures Showing(v, pol)[i] in Children(v) && WellFormed(Showing(v, pol)[i].value)
      {
        assert sorted[i] in sorted;
      }
    }
  }

  lemma {:induction false} KidsLength(ms: seq<Member>, path: string, depth: nat, used: nat, pol: Policy)
    ensures var kids := ProjectKids(ms, path, depth, used, pol);
            |kids.members| == |ms| &&
            forall i :: 0 <= i < |ms| ==> kids.members[i].key == ms[i].key
  {
    if ms != [] {
      OpenKids(ms, path, depth, used, pol);
      var first := ProjectNode(ms[0].value, Push(path, ms[0].key), depth, used, pol);
      KidsLength(ms[1..], path, depth, first.used, pol);
    }
  }

  /** The `j`-th shown child is a projection of its own, with its omissions
      among the parent's. */
  lemma {:induction false} KidAt(ms: seq<Member>, path: string, depth: nat, used: nat, pol: Policy, j: nat)
      returns (u: nat)
    requires j < |ms|
    ensures var kids := ProjectKids(ms, path, depth, used, pol);
            var out := ProjectNode(ms[j].value, Push(path, ms[j].key), depth, u, pol);
            j < |kids.members| && kids.members[j] == Member(ms[j].key, out.preview) &&
            forall o :: o in out.omitted ==> o in kids.omitted
  {
    OpenKids(ms, path, depth, used, pol);
    KidsLength(ms, path, depth, used, pol);
    var first := ProjectNode(ms[0].value, Push(path, ms[0].key), depth, used, pol);
    if j == 0 {
      u := used;
    } else {
      u := KidAt(ms[1..], path, depth, first.used, pol, j - 1);
    }
  }

  /** Every omission of the children belongs to one of them. */
  lemma {:induction false} KidOf(ms: seq<Member>, path: string, depth: nat, used: nat, pol: Policy, o: Omitted)
      returns (j: nat, u: nat)
    requires o in ProjectKids(ms, path, depth, used, pol).omitted
    ensures j < |ms| && o in ProjectNode(ms[j].value, Push(path, ms[j].key), depth, u, pol).omitted
    ensures var kids := ProjectKids(ms, path, depth, used, pol);
            j < |kids.members| &&
            kids.members[j] == Member(ms[j].key, ProjectNode(ms[j].value, Push(path, ms[j].key), depth, u, pol).preview)
  {
    var first := ProjectNode(ms[0].value, Push(path, ms[0].key), depth, used, pol);
    OpenKids(ms, path, depth, used, pol);
    if o in first.omitted {
      j, u := 0, used;
    } else {
      j, u := KidOf(ms[1..], path, depth, first.used, pol, o);
      j := j + 1;
    }
  }

  /** The budget is a hard ceiling on visited nodes. */
  lemma {:induction false} NodesWithinBudget(v: Json, path: string, depth: nat, used: nat, pol: Policy)
    ensures var out := ProjectNode(v, path, depth, used, pol);
            used <= out.used <= Max(used, pol.nodeBudget)
    decreases depth, 0
  {
    if used < pol.nodeBudget && IsContainer(v) && depth > 0 {
      KidsWithinBudget(Showing(v, pol), path, depth - 1, used + 1, pol);
    }
  }

  lemma {:induction false} KidsWithinBudget(ms: seq<Member>, path: string, depth: nat, used: nat, pol: Policy)
    ensures var kids := ProjectKids(ms, path, depth, used, pol);
            used <= kids.used <= Max(used, pol.nodeBudget)
    decreases depth, |ms| + 1
  {
    if ms != [] {
      NodesWithinBudget(ms[0].value, Push(path, ms[0].key), depth, used, pol);
      var first := ProjectNode(ms[0].value, Push(path, ms[0].key), depth, used, pol);
      KidsWithinBudget(ms[1..], path, depth, first.used, pol);
    }
  }

  /** The children of an interior preview are the projected members, in the
      order of the shown source children. */
  lemma PreviewChildren(v: Json, path: string, depth: nat, used: nat, pol: Policy)
    requires WellFormed(v) && Interior(v, depth, used, pol)
    ensures var preview := ProjectNode(v, path, depth, used, pol).preview;
            var kids := KidsOf(v, path, depth, used, pol);
            (preview.Arr? <==> v.Arr?) && (preview.Obj? <==> v.Obj?) &&
            Children(preview) == kids.members && |kids.members| == |Showing(v, pol)| &&
            DistinctKeys(kids.members) &&
            forall i :: 0 <= i < |kids.members| ==> kids.members[i].key == Showing(v, pol)[i].key
  {
    hide ProjectNode, ProjectKids, Showing, WidthOmission;
    OpenNode(v, path, depth, used, pol);
    ShowingFacts(v, pol);
    KidsLength(Showing(v, pol), path, depth - 1, used + 1, pol);
    var members := KidsOf(v, path, depth, used, pol).members;
    if v.Arr? {
      var c := Children(Rebuild(v, members));
      forall i | 0 <= i < |members| ensures c[i] == members[i] {
        assert Children(v)[i].key == Dec(i);
      }
    }
  }

  /** A shown child seen from both sides: at one index of the source children
      shown and of the preview's children. */
  lemma SharedChild(v: Json, path: string, depth: nat, used: nat, pol: Policy, key: string, j: nat) returns (u: nat)
    requires WellFormed(v) && Interior(v, depth, used, pol)
    requires j < |Showing(v, pol)| && Showing(v, pol)[j].key == key
    ensures var m := Showing(v, pol)[j];
            var out := ProjectNode(v, path, depth, used, pol);
            var kid := ProjectNode(m.value, Push(path, key), depth - 1, u, pol);
            WellFormed(m.value) &&
            Lookup(Children(v), key) == Some(m.value) &&
            Lookup(Children(out.preview), key) == Some(kid.preview) &&
            Inherits(kid.omitted, out.omitted)
  {
    hide ProjectNode, ProjectKids, Showing, WidthOmission, Push, WellFormed;
    OpenNode(v, path, depth, used, pol);
    u := KidAt(Showing(v, pol), path, depth - 1, used + 1, pol, j);
    OfKid(v, path, depth, used, pol, j, u);
  }

  ghost predicate Inherits(kid: seq<Omitted>, all: seq<Omitted>)
  {
    forall o :: o in kid ==> o in all
  }

  lemma InheritsNothing(kid: seq<Omitted>)
    requires Inherits(kid, [])
    ensures kid == []
  {
    if kid != [] { HasElement(kid); }
  }

  lemma HasElement(kid: seq<Omitted>)
    requires kid != []
    ensures exists o :: o in kid
  {
    assert kid[0] in kid;
  }

  lemma JoinCons(key: string, s: seq<string>)
    ensures Join([key] + s) == "/" + Escape(key) + Join(s)
  {
    assert ([key] + s)[1..] == s;
  }

  lemma CoveredByKid(omitted: seq<Omitted>, all: seq<Omitted>, path: string, key: string, s: seq<string>)
    requires Covered(omitted, Push(path, key), s) && Inherits(omitted, all)
    ensures Covered(all, path, [key] + s)
  {
    JoinCons(key, s);
    assert Push(path, key) + Join(s) == path + Join([key] + s);
  }

  lemma AtRoot(v: Json)
    ensures At(v, []) == Some(v)
  {
  }

  lemma AtCons(v: Json, key: string, s: seq<string>)
    ensures At(v, [key] + s) == (match Lookup(Children(v), key) case None => None case Some(c) => At(c, s))
  {
    assert ([key] + s)[1..] == s;
  }

  lemma RootIsVerbatim(v: Json, path: string, depth: nat, used: nat, pol: Policy)
    requires WellFormed(v)
    ensures var out := ProjectNode(v, path, depth, used, pol);
            Covered(out.omitted, path, []) || SameNode(out.preview, v)
    ensures Interior(v, depth, used, pol) && |Showing(v, pol)| < |Children(v)| ==>
              Covered(ProjectNode(v, path, depth, used, pol).omitted, path, [])
  {
    hide ProjectNode, ProjectKids, Showing, KidsOf;
    var out := ProjectNode(v, path, depth, used, pol);
    assert path + Join([]) == path;
    if !Interior(v, depth, used, pol) {
      OpenLeaf(v, path, depth, used, pol);
      if out.omitted != [] { assert out.omitted[0] in out.omitted; }
    } else {
      OpenNode(v, path, depth, used, pol);
      ShowingFacts(v, pol);
      PreviewChildren(v, path, depth, used, pol);
      var kids := KidsOf(v, path, depth, used, pol);
      if |Showing(v, pol)| < |Children(v)| {
        assert out.omitted[0] == WidthOmission(v, path, pol)[0];
        assert out.omitted[0] in out.omitted;
      } else {
        forall m | m in Children(v) ensures Lookup(kids.members, m.key).Some? {
          var i :| 0 <= i < |Showing(v, pol)| && Showing(v, pol)[i] == m;
          assert kids.members[i].key == m.key;
        }
      }
    }
  }

  /** The other direction: a preview child is a shown source child. */
  lemma PreviewChild(v: Json, path: string, depth: nat, used: nat, pol: Policy, key: string) returns (j: nat)
    requires WellFormed(v) && Lookup(Children(ProjectNode(v, path, depth, used, pol).preview), key).Some?
    ensures Interior(v, depth, used, pol) && depth > 0
    ensures j < |Showing(v, pol)| && Showing(v, pol)[j].key == key
  {
    hide ProjectNode, ProjectKids, Showing, KidsOf, Push, WellFormed;
    if !Interior(v, depth, used, pol) { OpenLeaf(v, path, depth, used, pol); }
    PreviewChildren(v, path, depth, used, pol);
    j := LookupIndex(Children(ProjectNode(v, path, depth, used, pol).preview), key);
  }

  /** Each preview node stands at the address of a source node, and is that
      node unless its address is listed. */
  lemma {:induction false} PreviewIsVerbatim(v: Json, path: string, depth: nat, used: nat, pol: Policy, s: seq<string>)
    requires WellFormed(v)
    requires At(ProjectNode(v, path, depth, used, pol).preview, s).Some?
    ensures var out := ProjectNode(v, path, depth, used, pol);
            At(v, s).Some? &&
            (Covered(out.omitted, path, s) || SameNode(At(out.preview, s).value, At(v, s).value))
    decreases |s|
  {
    hide *;
    var out := ProjectNode(v, path, depth, used, pol);
    if s == [] {
      RootIsVerbatim(v, path, depth, used, pol);
      AtRoot(v);
      AtRoot(out.preview);
    } else {
      var key, rest := s[0], s[1..];
      assert s == [key] + rest;
      AtCons(out.preview, key, rest);
      AtCons(v, key, rest);
      var j := PreviewChild(v, path, depth, used, pol, key);
      var u := SharedChild(v, path, depth, used, pol, key, j);
      var m := Showing(v, pol)[j].value;
      PreviewIsVerbatim(m, Push(path, key), depth - 1, u, pol, rest);
      var kid := ProjectNode(m, Push(path, key), depth - 1, u, pol);
      if Covered(kid.omitted, Push(path, key), rest) {
        CoveredByKid(kid.omitted, out.omitted, path, key, rest);
      }
    }
  }

  /** When the root itself is not listed, every child is shown. */
  lemma ShownIndex(v: Json, path: string, depth: nat, used: nat, pol: Policy, key: string) returns (j: nat)
    requires WellFormed(v) && Lookup(Children(v), key).Some?
    requires !Covered(ProjectNode(v, path, depth, used, pol).omitted, path, [])
    ensures Interior(v, depth, used, pol) && depth > 0
    ensures j < |Showing(v, pol)| && Showing(v, pol)[j].key == key
  {
    hide ProjectNode, ProjectKids, Showing, KidsOf, Push, WellFormed;
    RootIsVerbatim(v, path, depth, used, pol);
    if !Interior(v, depth, used, pol) { CutIsCovered(v, path, depth, used, pol); }
    ShowingFacts(v, pol);
    var m := Member(key, Lookup(Children(v), key).value);
    j :| 0 <= j < |Showing(v, pol)| && Showing(v, pol)[j] == m;
  }

  lemma CutIsCovered(v: Json, path: string, depth: nat, used: nat, pol: Policy)
    requires !Interior(v, depth, used, pol) && IsContainer(v)
    ensures Covered(ProjectNode(v, path, depth, used, pol).omitted, path, [])
  {
    OpenLeaf(v, path, depth, used, pol);
    assert path + Join([]) == path;
    var omitted := ProjectNode(v, path, depth, used, pol).omitted;
    assert omitted[0] in omitted;
  }

  /** A source node the preview does not show lies at or below a listed
      address. */
  lemma {:induction false} MissingIsCovered(v: Json, path: string, depth: nat, used: nat, pol: Policy, s: seq<string>)
      returns (a: seq<string>)
    requires WellFormed(v) && At(v, s).Some?
    requires At(ProjectNode(v, path, depth, used, pol).preview, s).None?
    ensures a <= s && Covered(ProjectNode(v, path, depth, used, pol).omitted, path, a)
    decreases |s|
  {
    hide *;
    var out := ProjectNode(v, path, depth, used, pol);
    if Covered(out.omitted, path, []) {
      a := [];
    } else {
      AtRoot(out.preview);
      var key, rest := s[0], s[1..];
      assert s == [key] + rest;
      AtCons(v, key, rest);
      AtCons(out.preview, key, rest);
      var j := ShownIndex(v, path, depth, used, pol, key);
      var u := SharedChild(v, path, depth, used, pol, key, j);
      var m := Showing(v, pol)[j].value;
      var b := MissingIsCovered(m, Push(path, key), depth - 1, u, pol, rest);
      CoveredByKid(ProjectNode(m, Push(path, key), depth - 1, u, pol).omitted, out.omitted, path, key, b);
      a := [key] + b;
    }
  }

  /** Nothing omitted means nothing changed. */
  lemma {:induction false} NothingOmittedIsWhole(v: Json, path: string, depth: nat, used: nat, pol: Policy)
    requires WellFormed(v)
    requires ProjectNode(v, path, depth, used, pol).omitted == []
    ensures Equivalent(ProjectNode(v, path, depth, used, pol).preview, v)
    decreases depth
  {
    hide ProjectNode, ProjectKids, Showing, KidsOf;
    var out := ProjectNode(v, path, depth, used, pol);
    if !Interior(v, depth, used, pol) {
      OpenLeaf(v, path, depth, used, pol);
      OmittedWhenCut(v, path, depth, used, pol);
      assert out.preview == v;
    } else {
      PreviewChildren(v, path, depth, used, pol);
      OpenNode(v, path, depth, used, pol);
      ShowingFacts(v, pol);
      var ps := Children(out.preview);
      forall j | 0 <= j < |ps|
        ensures Lookup(Children(v), ps[j].key).Some? &&
                Equivalent(ps[j].value, Lookup(Children(v), ps[j].key).value)
      {
        var m := Showing(v, pol)[j];
        var u := SharedChild(v, path, depth, used, pol, m.key, j);
        LookupAt(ps, j);
        InheritsNothing(ProjectNode(m.value, Push(path, m.key), depth - 1, u, pol).omitted);
        NothingOmittedIsWhole(m.value, Push(path, m.key), depth - 1, u, pol);
      }
      EquivalentByChildren(out.preview, v);
    }
  }

  lemma OmittedWhenCut(v: Json, path: string, depth: nat, used: nat, pol: Policy)
    requires !Interior(v, depth, used, pol) && ProjectNode(v, path, depth, used, pol).omitted == []
    ensures !IsContainer(v)
  {
  }

  lemma EquivalentByChildren(a: Json, b: Json)
    requires IsContainer(a) && (a.Arr? <==> b.Arr?) && (a.Obj? <==> b.Obj?)
    requires |Children(a)| == |Children(b)| && WellFormed(b)
    requires forall i :: 0 <= i < |Children(a)| ==>
               Lookup(Children(b), Children(a)[i].key).Some? &&
               Equivalent(Children(a)[i].value, Lookup(Children(b), Children(a)[i].key).value)
    ensures Equivalent(a, b)
  {
    if a.Arr? {
      ChildrenDistinct(b);
      forall i | 0 <= i < |a.items| ensures Equivalent(a.items[i], b.items[i]) {
        assert Children(a)[i].key == Children(b)[i].key;
        LookupAt(Children(b), i);
      }
    }
  }

  /** Listed addresses name source nodes inside the projected value. */
  lemma {:induction false} OmissionsAreInside(v: Json, path: string, depth: nat, used: nat, pol: Policy, o: Omitted)
      returns (s: seq<string>)
    requires WellFormed(v) && o in ProjectNode(v, path, depth, used, pol).omitted
    ensures o.path == path + Join(s) && At(v, s).Some?
    ensures o.path == path || (Interior(v, depth, used, pol) && s != [])
    decreases depth, 0
  {
    hide ProjectNode, ProjectKids, Showing, KidsOf, WidthOmission;
    var out := ProjectNode(v, path, depth, used, pol);
    assert path + Join([]) == path;
    if !Interior(v, depth, used, pol) {
      OpenLeaf(v, path, depth, used, pol);
      s := [];
    } else {
      OpenNode(v, path, depth, used, pol);
      if o in WidthOmission(v, path, pol) {
        s := [];
      } else {
        s := KidsAreInside(v, path, depth, used, pol, o);
      }
    }
  }

  lemma {:induction false} KidsAreInside(v: Json, path: string, depth: nat, used: nat, pol: Policy, o: Omitted)
      returns (s: seq<string>)
    requires WellFormed(v) && depth > 0 && Interior(v, depth, used, pol)
    requires o in KidsOf(v, path, depth, used, pol).omitted
    ensures s != [] && o.path == path + Join(s) && At(v, s).Some?
    decreases depth - 1, 1
  {
    hide ProjectNode, ProjectKids, Showing, WidthOmission, Join, Push, WellFormed;
    var j, u := KidOf(Showing(v, pol), path, depth - 1, used + 1, pol, o);
    var m := Showing(v, pol)[j];
    var _ := SharedChild(v, path, depth, used, pol, m.key, j);
    var t := OmissionsAreInside(m.value, Push(path, m.key), depth - 1, u, pol, o);
    s := [m.key] + t;
    AtCons(v, m.key, t);
    UnderKey(path, m.key, t);
  }

  // ----- no needless omission -----

  function Keys(ms: seq<Member>): (r: seq<string>)
    ensures |r| == |ms| && forall i :: 0 <= i < |r| ==> r[i] == ms[i].key
  {
    seq(|ms|, i requires 0 <= i < |ms| => ms[i].key)
  }

  /** Why a node may be listed with a reason, and what the preview then shows
      in its place: the marker, the leading characters, the leading items, or
      the fields that come first in key order. */
  ghost predicate Justified(reason: OmissionReason, node: Json, shown: Json, atFloor: bool, pol: Policy)
  {
    match reason
    case NodeBudget => shown == MarkerFor(node)
    case RedactedText => node.Str? && "[REDACTED:" <= node.s && shown == Str("\U{00AB}redacted\U{00BB}")
    case LargeString =>
      node.Str? && |node.s| > pol.stringChars && shown == Str(node.s[..pol.stringChars] + "\U{2026}")
    case DeepObject => IsContainer(node) && atFloor && shown == MarkerFor(node)
    case LongArray => node.Arr? && shown.Arr? && |node.items| > pol.arrayItems == |shown.items|
    case ManyFields =>
      node.Obj? && shown.Obj? && |node.members| > pol.objectFields &&
      Keys(shown.members) == Keys(SortMembers(node.members)[..pol.objectFields])
  }

  /** Every omission is justified by the node it names, and the preview shows
      there exactly what its reason says. */
  lemma {:induction false} OmissionsAreJustified(v: Json, path: string, depth: nat, used: nat, pol: Policy, o: Omitted)
      returns (s: seq<string>)
    requires WellFormed(v) && o in ProjectNode(v, path, depth, used, pol).omitted
    ensures o.path == path + Join(s) && At(v, s).Some? && At(ProjectNode(v, path, depth, used, pol).preview, s).Some?
    ensures Justified(o.reason, At(v, s).value, At(ProjectNode(v, path, depth, used, pol).preview, s).value, |s| == depth, pol)
    decreases depth
  {
    hide ProjectNode, ProjectKids, Showing, WidthOmission, Justified, MarkerFor, Push, Join, WellFormed;
    if !Interior(v, depth, used, pol) {
      s := [];
      JoinNothing(path);
      LeafIsJustified(v, path, depth, used, pol, o);
    } else {
      OpenNode(v, path, depth, used, pol);
      if o in WidthOmission(v, path, pol) {
        s := [];
        JoinNothing(path);
        WidthIsJustified(v, path, depth, used, pol, o);
      } else {
        var j, u := KidOf(Showing(v, pol), path, depth - 1, used + 1, pol, o);
        var m := Showing(v, pol)[j];
        OfKid(v, path, depth, used, pol, j, u);
        var t := OmissionsAreJustified(m.value, Push(path, m.key), depth - 1, u, pol, o);
        s := [m.key] + t;
        AtCons(v, m.key, t);
        AtCons(ProjectNode(v, path, depth, used, pol).preview, m.key, t);
        UnderKey(path, m.key, t);
      }
    }
  }

  lemma LeafIsJustified(v: Json, path: string, depth: nat, used: nat, pol: Policy, o: Omitted)
    requires !Interior(v, depth, used, pol) && o in ProjectNode(v, path, depth, used, pol).omitted
    ensures o.path == path && Justified(o.reason, v, ProjectNode(v, path, depth, used, pol).preview, depth == 0, pol)
  {
  }

  lemma WidthIsJustified(v: Json, path: string, depth: nat, used: nat, pol: Policy, o: Omitted)
    requires WellFormed(v) && Interior(v, depth, used, pol) && o in WidthOmission(v, path, pol)
    ensures o.path == path && Justified(o.reason, v, ProjectNode(v, path, depth, used, pol).preview, 0 == depth, pol)
  {
    hide ProjectNode, ProjectKids, WellFormed;
    PreviewChildren(v, path, depth, used, pol);
  }

  lemma OfKid(v: Json, path: string, depth: nat, used: nat, pol: Policy, j: nat, u: nat)
    requires WellFormed(v) && Interior(v, depth, used, pol) && j < |Showing(v, pol)|
    requires var kids := KidsOf(v, path, depth, used, pol);
             var m := Showing(v, pol)[j];
             j < |kids.members| && kids.members[j] == Member(m.key, ProjectNode(m.value, Push(path, m.key), depth - 1, u, pol).preview)
    ensures var m := Showing(v, pol)[j];
            WellFormed(m.value) && Lookup(Children(v), m.key) == Some(m.value) &&
            Lookup(Children(ProjectNode(v, path, depth, used, pol).preview), m.key) ==
            Some(ProjectNode(m.value, Push(path, m.key), depth - 1, u, pol).preview)
  {
    hide ProjectNode, ProjectKids, Showing, Push, WellFormed, KidsOf;
    PreviewChildren(v, path, depth, used, pol);
    ShowingFacts(v, pol);
    ChildrenDistinct(v);
    var i :| 0 <= i < |Children(v)| && Children(v)[i] == Showing(v, pol)[j];
    LookupAt(Children(v), i);
    LookupAt(KidsOf(v, path, depth, used, pol).members, j);
  }

  /** A node is left out for the budget only once the budget is spent. */
  lemma {:induction false} BudgetIsSpentFirst(v: Json, path: string, depth: nat, used: nat, pol: Policy)
    requires ProjectNode(v, path, depth, used, pol).used < pol.nodeBudget
    ensures forall o <- ProjectNode(v, path, depth, used, pol).omitted :: !o.reason.NodeBudget?
    decreases depth, 0
  {
    hide ProjectKids, Showing, Push;
    if used < pol.nodeBudget && IsContainer(v) && depth > 0 {
      KidsSpendFirst(Showing(v, pol), path, depth - 1, used + 1, pol);
    }
  }

  lemma {:induction false} KidsSpendFirst(ms: seq<Member>, path: string, depth: nat, used: nat, pol: Policy)
    requires ProjectKids(ms, path, depth, used, pol).used < pol.nodeBudget
    ensures forall o <- ProjectKids(ms, path, depth, used, pol).omitted :: !o.reason.NodeBudget?
    decreases depth, |ms| + 1
  {
    hide ProjectNode, ProjectKids, Push;
    if ms == [] {
      NoKids(path, depth, used, pol);
    } else {
      OpenKids(ms, path, depth, used, pol);
      var first := ProjectNode(ms[0].value, Push(path, ms[0].key), depth, used, pol);
      KidsWithinBudget(ms[1..], path, depth, first.used, pol);
      BudgetIsSpentFirst(ms[0].value, Push(path, ms[0].key), depth, used, pol);
      KidsSpendFirst(ms[1..], path, depth, first.used, pol);
    }
  }

  ghost predicate DistinctPaths(omitted: seq<Omitted>)
  {
    forall i, j :: 0 <= i < j < |omitted| ==> omitted[i].path != omitted[j].path
  }

  lemma DistinctAppend(a: seq<Omitted>, b: seq<Omitted>)
    requires DistinctPaths(a) && DistinctPaths(b)
    requires forall x, y :: x in a && y in b ==> x.path != y.path
    ensures DistinctPaths(a + b)
  {
    var all := a + b;
    forall i, j | 0 <= i < j < |all| ensures all[i].path != all[j].path {
      if i < |a| <= j {
        assert all[i] in a && all[j] in b;
      }
    }
  }

  lemma WidthOmissionPath(v: Json, path: string, pol: Policy)
    ensures DistinctPaths(WidthOmission(v, path, pol))
    ensures forall o :: o in WidthOmission(v, path, pol) ==> o.path == path
  {
  }

  lemma LeafOmissionsDistinct(v: Json, path: string, depth: nat, used: nat, pol: Policy)
    requires !Interior(v, depth, used, pol)
    ensures DistinctPaths(ProjectNode(v, path, depth, used, pol).omitted)
  {
    hide ProjectNode;
    OpenLeaf(v, path, depth, used, pol);
  }

  /** No region is listed twice. */
  lemma {:induction false} OmissionsAreDistinct(v: Json, path: string, depth: nat, used: nat, pol: Policy)
    requires WellFormed(v)
    ensures DistinctPaths(ProjectNode(v, path, depth, used, pol).omitted)
    decreases depth, 0
  {
    hide ProjectNode, ProjectKids, Showing, WidthOmission, DistinctPaths, WellFormed, Join, Push;
    if !Interior(v, depth, used, pol) {
      LeafOmissionsDistinct(v, path, depth, used, pol);
    } else {
      OpenNode(v, path, depth, used, pol);
      ShowingFacts(v, pol);
      var kids := KidsOf(v, path, depth, used, pol);
      KidOmissionsAreDistinct(Showing(v, pol), path, depth - 1, used + 1, pol);
      forall o | o in kids.omitted ensures o.path != path {
        var s := KidsAreInside(v, path, depth, used, pol, o);
        NotTheRoot(path, s);
      }
      WidthOmissionPath(v, path, pol);
      DistinctAppend(WidthOmission(v, path, pol), kids.omitted);
    }
  }

  lemma NotTheRoot(path: string, s: seq<string>)
    requires s != []
    ensures path + Join(s) != path
  {
    assert path + Join([]) == path;
    RelativeDistinct(path, s, []);
  }

  lemma {:induction false} KidOmissionsAreDistinct(ms: seq<Member>, path: string, depth: nat, used: nat, pol: Policy)
    requires DistinctKeys(ms) && forall i :: 0 <= i < |ms| ==> WellFormed(ms[i].value)
    ensures DistinctPaths(ProjectKids(ms, path, depth, used, pol).omitted)
    decreases depth, |ms| + 1
  {
    hide ProjectNode, ProjectKids, Showing, WidthOmission, DistinctPaths, Join, Push, WellFormed;
    if ms == [] {
      NoKids(path, depth, used, pol);
      NoneDistinct();
    } else {
      OpenKids(ms, path, depth, used, pol);
      var p := Push(path, ms[0].key);
      var first := ProjectNode(ms[0].value, p, depth, used, pol);
      var rest := ProjectKids(ms[1..], path, depth, first.used, pol);
      OmissionsAreDistinct(ms[0].value, p, depth, used, pol);
      KidOmissionsAreDistinct(ms[1..], path, depth, first.used, pol);
      forall a, b | a in first.omitted && b in rest.omitted ensures a.path != b.path {
        var s := OmissionsAreInside(ms[0].value, p, depth, used, pol, a);
        var j, u := KidOf(ms[1..], path, depth, first.used, pol, b);
        var t := OmissionsAreInside(ms[1..][j].value, Push(path, ms[1..][j].key), depth, u, pol, b);
        UnderDistinctKeys(path, ms[0].key, s, a, ms[1..][j].key, t, b);
      }
      DistinctAppend(first.omitted, rest.omitted);
    }
  }

  lemma NoneDistinct()
    ensures DistinctPaths([])
  {
  }

  lemma UnderDistinctKeys(path: string, j: string, s: seq<string>, a: Omitted, k: string, t: seq<string>, b: Omitted)
    requires j != k && a.path == Push(path, j) + Join(s) && b.path == Push(path, k) + Join(t)
    ensures a.path != b.path
  {
    hide Join, Push;
    UnderKey(path, j, s);
    UnderKey(path, k, t);
    assert ([j] + s)[0] != ([k] + t)[0];
    RelativeDistinct(path, [j] + s, [k] + t);
  }

  /** Both sides of an omission at address `s`. */
  ghost predicate Explained(v: Json, preview: Json, s: seq<string>, reason: OmissionReason, pol: Policy)
  {
    At(v, s).Some? && At(preview, s).Some? && Justified(reason, At(v, s).value, At(preview, s).value, |s| == pol.depth, pol)
  }

  /** The whole contract of one projection, for every value and policy. */
  lemma ProjectionIsFaithful(v: Json, pol: Policy, base: string)
    requires WellFormed(v)
    ensures var p := ProjectOnce(v, pol, base);
            && (forall s | At(p.preview, s).Some? ::
                  At(v, s).Some? &&
                  (Covered(p.omitted, base, s) || SameNode(At(p.preview, s).value, At(v, s).value)))
            && (forall s | At(v, s).Some? && At(p.preview, s).None? ::
                  exists n :: 0 <= n <= |s| && Covered(p.omitted, base, s[..n]))
            && (forall o <- p.omitted :: exists s :: o.path == base + Join(s) && Explained(v, p.preview, s, o.reason, pol))
            && DistinctPaths(p.omitted)
            && (p.omitted == [] ==> Equivalent(p.preview, v))
    ensures var out := ProjectNode(v, base, pol.depth, 0, pol);
            out.used <= pol.nodeBudget && (out.used < pol.nodeBudget ==> forall o <- out.omitted :: !o.reason.NodeBudget?)
  {
    hide ProjectNode, SameNode, Covered, DistinctPaths, Equivalent, WellFormed, Join, Justified;
    var p := ProjectOnce(v, pol, base);
    forall s | At(p.preview, s).Some?
      ensures At(v, s).Some? &&
              (Covered(p.omitted, base, s) || SameNode(At(p.preview, s).value, At(v, s).value))
    {
      PreviewIsVerbatim(v, base, pol.depth, 0, pol, s);
    }
    forall s | At(v, s).Some? && At(p.preview, s).None?
      ensures exists n :: 0 <= n <= |s| && Covered(p.omitted, base, s[..n])
    {
      var a := MissingIsCovered(v, base, pol.depth, 0, pol, s);
      assert s[..|a|] == a;
    }
    forall o | o in p.omitted
      ensures exists s :: o.path == base + Join(s) && Explained(v, p.preview, s, o.reason, pol)
    {
      var s := OmissionsAreJustified(v, base, pol.depth, 0, pol, o);
      assert Explained(v, p.preview, s, o.reason, pol);
    }
    if ProjectNode(v, base, pol.depth, 0, pol).used < pol.nodeBudget {
      BudgetIsSpentFirst(v, base, pol.depth, 0, pol);
    }
    OmissionsAreDistinct(v, base, pol.depth, 0, pol);
    if p.omitted == [] {
      NothingOmittedIsWhole(v, base, pol.depth, 0, pol);
    }
    NodesWithinBudget(v, base, pol.depth, 0, pol);
  }
}
