/** Field selection, scoped slices, and the expansion of a cached payload. */
module Expansion {
  import opened Common
  import opened Json
  import opened Pointer
  import opened Sorting
  import opened Disclosure
  import opened Coarsening

  function WithoutKeys(ms: seq<Member>, omit: seq<string>): (r: seq<Member>)
    ensures forall m :: m in r <==> m in ms && m.key !in omit
    ensures DistinctKeys(ms) ==> DistinctKeys(r)
  {
    if ms == [] then []
    else if ms[0].key in omit then WithoutKeys(ms[1..], omit)
    else [ms[0]] + WithoutKeys(ms[1..], omit)
  }

  /** Named fields in request order, an omitted or absent name skipped. */
  function PickFields(ms: seq<Member>, fields: seq<string>, omit: seq<string>): seq<Member>
  {
    if fields == [] then []
    else
      var n := |fields| - 1;
      var before := PickFields(ms, fields[..n], omit);
      if fields[n] !in omit && Lookup(ms, fields[n]).Some? then Put(before, fields[n], Lookup(ms, fields[n]).value)
      else before
  }

  /** A field is picked exactly when it is named, present and not omitted, and
      none is picked twice. */
  lemma {:induction false} PickedFields(ms: seq<Member>, fields: seq<string>, omit: seq<string>)
    ensures DistinctKeys(PickFields(ms, fields, omit))
    ensures forall m :: m in PickFields(ms, fields, omit) <==>
                        m.key in fields && m.key !in omit && Lookup(ms, m.key) == Some(m.value)
  {
    hide Lookup, Put;
    if fields != [] {
      var n := |fields| - 1;
      assert fields == fields[..n] + [fields[n]];
      PickedFields(ms, fields[..n], omit);
      if fields[n] !in omit && Lookup(ms, fields[n]).Some? {
        PutKeeps(PickFields(ms, fields[..n], omit), fields[n], Lookup(ms, fields[n]).value);
        PutDistinct(PickFields(ms, fields[..n], omit), fields[n], Lookup(ms, fields[n]).value);
      }
    }
  }

  function SelectObjectFields(ms: seq<Member>, fields: seq<string>, omit: seq<string>): seq<Member>
  {
    if fields == [] then WithoutKeys(SortMembers(ms), omit) else PickFields(ms, fields, omit)
  }

  function SelectFields(v: Json, fields: seq<string>, omit: seq<string>): Json
  {
    match v
    case Obj(ms) => Obj(SelectObjectFields(ms, fields, omit))
    case Arr(items) => Arr(seq(|items|, i requires 0 <= i < |items| => SelectFields(items[i], fields, omit)))
    case _ => v
  }

  lemma SelectedMembers(ms: seq<Member>, fields: seq<string>, omit: seq<string>)
    requires DistinctKeys(ms)
    ensures var r := SelectObjectFields(ms, fields, omit);
            DistinctKeys(r) && forall m :: m in r ==> m in ms
  {
    hide DistinctKeys, PickFields, WithoutKeys, SortMembers;
    SortMembersContents(ms);
    PickedFields(ms, fields, omit);
  }

  lemma {:induction false} SelectKeepsShape(v: Json, fields: seq<string>, omit: seq<string>)
    requires WellFormed(v)
    ensures WellFormed(SelectFields(v, fields, omit))
  {
    match v {
      case Obj(ms) =>
        SelectedMembers(ms, fields, omit);
        var r := SelectObjectFields(ms, fields, omit);
        forall i | 0 <= i < |r| ensures WellFormed(r[i].value) {
          assert r[i] in r;
        }
      case Arr(items) =>
        forall i | 0 <= i < |items| ensures WellFormed(SelectFields(items[i], fields, omit)) {
          SelectKeepsShape(items[i], fields, omit);
        }
      case _ =>
    }
  }

  /** Selection only drops members: what remains keeps its address, and every
      scalar its value. */
  lemma {:induction false} SelectKeepsAddresses(v: Json, fields: seq<string>, omit: seq<string>, s: seq<string>)
    requires WellFormed(v) && At(SelectFields(v, fields, omit), s).Some?
    ensures At(v, s).Some?
    ensures var x := At(SelectFields(v, fields, omit), s).value;
            !IsContainer(x) ==> At(v, s).value == x
    decreases |s|
  {
    var w := SelectFields(v, fields, omit);
    if s != [] {
      var i := LookupIndex(Children(w), s[0]);
      ChildrenDistinct(v);
      if v.Obj? {
        SelectedMembers(v.members, fields, omit);
        assert w.members[i] in w.members;
        var k :| 0 <= k < |v.members| && v.members[k] == w.members[i];
        LookupAt(v.members, k);
      } else {
        LookupAt(Children(v), i);
        SelectKeepsAddresses(v.items[i], fields, omit, s[1..]);
      }
    }
  }

  datatype SliceRequest = SliceRequest(
    path: Option<string>,
    limit: Option<nat>,
    depth: Option<nat>,
    fields: seq<string>,
    omit: seq<string>)

  datatype ScopedSlice = ScopedSlice(root: string, request: SliceRequest, target: string)

  datatype SliceError =
    | BadPointer(text: string)
    | OutsideBoundary(path: string, boundary: string)
    | PathNotFound(missing: string)

  /** A slice is accepted only when both pointers are canonical and the target
      lies within the root. */
  function NewScopedSlice(root: string, request: SliceRequest): (r: Result<ScopedSlice, SliceError>)
    ensures r.Ok? <==>
            Canonical(root) && (request.path.Some? ==> Canonical(request.path.value)) &&
            (request.path.Some? ==> IsWithin(root, request.path.value) == Some(true))
    ensures r.Ok? ==> IsWithin(root, r.value.target) == Some(true) && Canonical(r.value.target)
  {
    var target := if request.path.Some? then request.path.value else root;
    if !Canonical(root) then Err(BadPointer(root))
    else if !Canonical(target) then Err(BadPointer(target))
    else if IsWithin(root, target) != Some(true) then Err(OutsideBoundary(target, root))
    else Ok(ScopedSlice(root, request, target))
  }

  function EffectivePolicy(pol: Policy, request: SliceRequest, selected: Json): Policy
  {
    var p1 := if request.limit.Some? then pol.(arrayItems := request.limit.value) else pol;
    var p2 := if request.depth.Some? then p1.(depth := request.depth.value) else p1;
    if selected.Str? && request.limit.Some? then p2.(stringChars := request.limit.value) else p2
  }

  method Expand(payload: Json, slice: ScopedSlice, pol: Policy, size: Sizer)
      returns (r: Result<Projection, SliceError>)
    requires WellFormed(payload)
    requires NewScopedSlice(slice.root, slice.request) == Ok(slice)
    ensures r.Ok? <==> Get(payload, Parse(slice.target).value).Some?
    ensures r.Err? ==> r.error == PathNotFound(slice.target)
    // Every listed region is inside the target, so inside the scope, and names a payload node.
    ensures r.Ok? ==> forall o <- r.value.omitted ::
              IsWithin(slice.target, o.path) == Some(true) && IsWithin(slice.root, o.path) == Some(true) &&
              Parse(o.path).Some? && Get(payload, Parse(o.path).value).Some?
    // Every unlisted scalar of the preview is the payload's own scalar.
    ensures r.Ok? ==> forall s | At(r.value.preview, s).Some? && !IsContainer(At(r.value.preview, s).value) &&
                                 !Covered(r.value.omitted, slice.target, s) ::
              Get(payload, Parse(slice.target).value + s) == At(r.value.preview, s)
  {
    hide *;
    SliceIsCanonical(slice);
    var found := Resolve(payload, slice.target);
    if found.value.None? { return Err(PathNotFound(slice.target)); }
    var node := found.value.value;
    var selected := SelectFields(node, slice.request.fields, slice.request.omit);
    var projection := Project(selected, EffectivePolicy(pol, slice.request, selected), slice.target, size);
    r := Ok(projection);
    ghost var rung :| StopsAt(selected, EffectivePolicy(pol, slice.request, selected), slice.target, size, projection, rung);
    ghost var policy := CoarsenTimes(EffectivePolicy(pol, slice.request, selected), rung);
    StoppedProjection(selected, EffectivePolicy(pol, slice.request, selected), slice.target, size, projection, rung);
    forall o | o in projection.omitted
      ensures IsWithin(slice.target, o.path) == Some(true) && IsWithin(slice.root, o.path) == Some(true) &&
              Parse(o.path).Some? && Get(payload, Parse(o.path).value).Some?
    {
      ExpandedOmission(payload, slice, node, policy, o);
    }
    forall s | At(projection.preview, s).Some? && !IsContainer(At(projection.preview, s).value) &&
               !Covered(projection.omitted, slice.target, s)
      ensures Get(payload, Parse(slice.target).value + s) == At(projection.preview, s)
    {
      ExpandedScalar(payload, slice, node, policy, s);
    }
  }

  lemma StoppedProjection(v: Json, policy: Policy, base: string, size: Sizer, last: Projection, rung: nat)
    requires StopsAt(v, policy, base, size, last, rung)
    ensures last == ProjectOnce(v, CoarsenTimes(policy, rung), base)
  {
  }

  lemma SliceIsCanonical(slice: ScopedSlice)
    requires NewScopedSlice(slice.root, slice.request) == Ok(slice)
    ensures Canonical(slice.target) && Parse(slice.target).Some? && Join(Parse(slice.target).value) == slice.target
    ensures Parse(slice.root).Some? && IsWithin(slice.root, slice.target) == Some(true)
  {
  }

  lemma ExpandedOmission(payload: Json, slice: ScopedSlice, node: Json, policy: Policy, o: Omitted)
    requires WellFormed(payload) && NewScopedSlice(slice.root, slice.request) == Ok(slice)
    requires Get(payload, Parse(slice.target).value) == Some(node)
    requires o in ProjectOnce(SelectFields(node, slice.request.fields, slice.request.omit), policy, slice.target).omitted
    ensures IsWithin(slice.target, o.path) == Some(true) && IsWithin(slice.root, o.path) == Some(true)
    ensures Parse(o.path).Some? && Get(payload, Parse(o.path).value).Some?
  {
    hide WellFormed, SelectFields, ProjectNode, Join, At, Get, Canonical, Parse;
    SliceIsCanonical(slice);
    var target := Parse(slice.target).value;
    WellFormedBelow(payload, target);
    var selected := SelectFields(node, slice.request.fields, slice.request.omit);
    SelectKeepsShape(node, slice.request.fields, slice.request.omit);
    var s := OmissionsAreInside(selected, slice.target, policy.depth, 0, policy, o);
    SelectKeepsAddresses(node, slice.request.fields, slice.request.omit, s);
    AtIsGet(node, s);
    ParseExtends(slice.target, s);
    GetFactors(payload, target, s);
    assert target <= target + s;
    assert Parse(slice.root).value <= target + s;
  }

  lemma ExpandedScalar(payload: Json, slice: ScopedSlice, node: Json, policy: Policy, s: seq<string>)
    requires WellFormed(payload) && NewScopedSlice(slice.root, slice.request) == Ok(slice)
    requires Get(payload, Parse(slice.target).value) == Some(node)
    requires var p := ProjectOnce(SelectFields(node, slice.request.fields, slice.request.omit), policy, slice.target);
             At(p.preview, s).Some? && !IsContainer(At(p.preview, s).value) && !Covered(p.omitted, slice.target, s)
    ensures Get(payload, Parse(slice.target).value + s) ==
            At(ProjectOnce(SelectFields(node, slice.request.fields, slice.request.omit), policy, slice.target).preview, s)
  {
    hide WellFormed, SelectFields, ProjectNode, Join, At, Get, Canonical, Parse, Covered;
    SliceIsCanonical(slice);
    var target := Parse(slice.target).value;
    WellFormedBelow(payload, target);
    var selected := SelectFields(node, slice.request.fields, slice.request.omit);
    SelectKeepsShape(node, slice.request.fields, slice.request.omit);
    PreviewIsVerbatim(selected, slice.target, policy.depth, 0, policy, s);
    SelectKeepsAddresses(node, slice.request.fields, slice.request.omit, s);
    AtIsGet(node, s);
    GetFactors(payload, target, s);
  }
}
