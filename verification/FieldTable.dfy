/** The field table of a collection: streaming over items, its batch meaning,
    record-key inference and the overview built from it. */
module FieldTable {
  import opened Common
  import opened Json
  import opened Pointer
  import opened Sorting
  import opened Overview

  // ----- the observations one item makes -----

  datatype Seen = Seen(field: string, depth: nat, value: Json)

  function SeenIn(ms: seq<Member>, prefix: string, depth: nat): seq<Seen>
    decreases SatSub(FIELD_DEPTH, depth), |ms|
  {
    if ms == [] then []
    else
      var field := Push(prefix, ms[0].key);
      [Seen(field, depth, ms[0].value)] +
      (if depth < FIELD_DEPTH && ms[0].value.Obj? then SeenIn(ms[0].value.members, field, depth + 1) else []) +
      SeenIn(ms[1..], prefix, depth)
  }

  function SeenInItems(items: seq<Json>): seq<Seen>
  {
    if items == [] then []
    else
      SeenInItems(items[..|items| - 1]) +
      (var item := items[|items| - 1]; if item.Obj? then SeenIn(item.members, [], 1) else [])
  }

  // ----- the table as a value -----

  datatype Table = Table(order: seq<string>, stats: map<string, Stats>)

  function Touch(e: Readers, t: Table, o: Seen): Table
  {
    var order := if o.field in t.stats then t.order else t.order + [o.field];
    var before := if o.field in t.stats then t.stats[o.field] else FreshStats(o.depth);
    Table(order, t.stats[o.field := ObserveStats(e, before, o.value)])
  }

  function TouchAll(e: Readers, t: Table, os: seq<Seen>): Table
  {
    if os == [] then t else Touch(e, TouchAll(e, t, os[..|os| - 1]), os[|os| - 1])
  }

  lemma {:induction false} TouchAllAppend(e: Readers, t: Table, a: seq<Seen>, b: seq<Seen>)
    ensures TouchAll(e, t, a + b) == TouchAll(e, TouchAll(e, t, a), b)
  {
    if b == [] {
      assert a + b == a;
    } else {
      var c := a + b;
      assert c[..|c| - 1] == a + b[..|b| - 1] && c[|c| - 1] == b[|b| - 1];
      TouchAllAppend(e, t, a, b[..|b| - 1]);
    }
  }

  /** The table object: field names in first-seen order, one statistics object
      per name, no two names sharing one. */
  class FieldTable {
    const readers: Readers
    var order: seq<string>
    var stats: map<string, FieldStats>

    ghost predicate Valid()
      reads this, stats.Values
    {
      && (forall k <- stats :: stats[k].readers == readers)
      && (forall j, k :: j in stats && k in stats && j != k ==> stats[j] != stats[k])
    }

    ghost function View(): Table
      reads this, stats.Values
    {
      Table(order, map k | k in stats :: stats[k].View())
    }

    constructor (readers: Readers)
      ensures Valid() && View() == Table([], map[]) && this.readers == readers && stats == map[]
    {
      this.readers := readers;
      order := [];
      stats := map[];
    }

    method ObserveField(field: string, depth: nat, value: Json)
      requires Valid()
      modifies this, stats.Values
      ensures Valid() && fresh(stats.Values - old(stats.Values))
      ensures View() == Touch(readers, old(View()), Seen(field, depth, value))
    {
      hide ObserveStats;
      if field !in stats {
        var created := new FieldStats(readers, depth);
        order := order + [field];
        stats := stats[field := created];
      }
      stats[field].Observe(value);
      ghost var was := old(View());
      assert View().stats == Touch(readers, was, Seen(field, depth, value)).stats;
    }

    method ObserveObject(ms: seq<Member>, prefix: string, depth: nat)
      requires Valid()
      modifies this, stats.Values
      ensures Valid() && fresh(stats.Values - old(stats.Values))
      ensures View() == TouchAll(readers, old(View()), SeenIn(ms, prefix, depth))
      decreases SatSub(FIELD_DEPTH, depth)
    {
      hide Push, Touch, SeenIn, TouchAll;
      ghost var start := View();
      TouchNone(readers, start);
      ghost var done: seq<Seen> := [];
      var i := 0;
      assert ms[0..] == ms;
      while i < |ms|
        invariant 0 <= i <= |ms|
        invariant Valid() && fresh(stats.Values - old(stats.Values))
        invariant View() == TouchAll(readers, start, done)
        invariant done + SeenIn(ms[i..], prefix, depth) == SeenIn(ms, prefix, depth)
      {
        OpenSeen(ms, i, prefix, depth);
        var field, value := Push(prefix, ms[i].key), ms[i].value;
        ObserveField(field, depth, value);
        ghost var one := [Seen(field, depth, value)];
        TouchOne(readers, TouchAll(readers, start, done), Seen(field, depth, value));
        TouchAllAppend(readers, start, done, one);
        ghost var rest := SeenIn(ms[i + 1..], prefix, depth);
        ghost var before := done;
        done := done + one;
        if depth < FIELD_DEPTH && value.Obj? {
          ObserveObject(value.members, field, depth + 1);
          TouchAllAppend(readers, start, done, SeenIn(value.members, field, depth + 1));
          done := done + SeenIn(value.members, field, depth + 1);
        }
        SeenRegroup(before, one, if depth < FIELD_DEPTH && value.Obj? then SeenIn(value.members, field, depth + 1) else [],
                    rest, done);
        i := i + 1;
      }
      NothingSeen(ms, prefix, depth);
      assert done + [] == done;
    }
  }

  lemma TouchNone(e: Readers, t: Table)
    ensures TouchAll(e, t, []) == t
  {
  }

  lemma SeenRegroup(before: seq<Seen>, one: seq<Seen>, inner: seq<Seen>, rest: seq<Seen>, done: seq<Seen>)
    requires done == before + one + inner || (inner == [] && done == before + one)
    ensures before + (one + inner + rest) == done + rest
  {
  }

  lemma TouchOne(e: Readers, t: Table, o: Seen)
    ensures TouchAll(e, t, [o]) == Touch(e, t, o)
  {
    assert [o][..0] == [];
    assert TouchAll(e, t, [o][..0]) == t;
  }

  lemma OpenSeen(ms: seq<Member>, i: nat, prefix: string, depth: nat)
    requires i < |ms|
    ensures var field := Push(prefix, ms[i].key);
            SeenIn(ms[i..], prefix, depth) ==
            [Seen(field, depth, ms[i].value)] +
            (if depth < FIELD_DEPTH && ms[i].value.Obj? then SeenIn(ms[i].value.members, field, depth + 1) else []) +
            SeenIn(ms[i + 1..], prefix, depth)
  {
    assert ms[i..][0] == ms[i] && ms[i..][1..] == ms[i + 1..];
  }

  lemma NothingSeen(ms: seq<Member>, prefix: string, depth: nat)
    ensures SeenIn(ms[|ms|..], prefix, depth) == []
  {
  }

  // ----- batch meaning of the table -----

  /** The values observed for one field, in order. */
  function ValuesOf(os: seq<Seen>, field: string): seq<Json>
  {
    if os == [] then []
    else ValuesOf(os[..|os| - 1], field) + (if os[|os| - 1].field == field then [os[|os| - 1].value] else [])
  }

  ghost predicate DepthsAgree(os: seq<Seen>)
  {
    forall a <- os, b <- os :: a.field == b.field ==> a.depth == b.depth
  }

  /** The table lists each field that was seen, once. */
  lemma {:induction false} TableListsSeenFields(e: Readers, os: seq<Seen>)
    ensures var t := TouchAll(e, Table([], map[]), os);
            && (forall f :: f in t.stats <==> ValuesOf(os, f) != [])
            && (forall f :: f in t.order <==> f in t.stats)
            && NoRepeats(t.order)
  {
    hide ObserveStats, TouchAll, ValuesOf, Touch;
    if os == [] {
      NothingTouched(e);
    } else {
      var front, last := os[..|os| - 1], os[|os| - 1];
      TableListsSeenFields(e, front);
      OpenTouch(e, os);
      TouchLists(e, TouchAll(e, Table([], map[]), front), last);
      forall f: string { OpenValues(os, f); }
    }
  }

  lemma NothingTouched(e: Readers)
    ensures TouchAll(e, Table([], map[]), []) == Table([], map[])
    ensures forall f :: ValuesOf([], f) == []
  {
  }

  lemma TouchLists(e: Readers, t: Table, o: Seen)
    requires (forall f :: f in t.order <==> f in t.stats) && NoRepeats(t.order)
    ensures forall f :: f in Touch(e, t, o).stats <==> f in t.stats || f == o.field
    ensures forall f :: f in Touch(e, t, o).order <==> f in t.order || f == o.field
    ensures NoRepeats(Touch(e, t, o).order)
  {
    hide ObserveStats;
  }

  /** For each field seen, the streamed table holds the statistics of exactly
      its values. */
  lemma {:induction false} TableIsBatch(e: Readers, os: seq<Seen>, o: Seen)
    requires DepthsAgree(os) && o in os
    ensures var t := TouchAll(e, Table([], map[]), os);
            o.field in t.stats && t.stats[o.field] == Fold(e, o.depth, ValuesOf(os, o.field))
  {
    hide ObserveStats, NoRepeats, TouchAll, ValuesOf, Fold;
    var front, last := os[..|os| - 1], os[|os| - 1];
    assert os == front + [last];
    OpenTouch(e, os);
    OpenValues(os, o.field);
    TableListsSeenFields(e, front);
    OpenFold(e, o.depth, ValuesOf(front, o.field), last.value);
    if last.field != o.field {
      TableIsBatch(e, front, o);
      assert ValuesOf(front, o.field) + [] == ValuesOf(front, o.field);
    } else if ValuesOf(front, o.field) != [] {
      FieldWasSeen(front, o.field);
      var w :| w in front && w.field == o.field;
      TableIsBatch(e, front, w);
    }
  }

  lemma OpenTouch(e: Readers, os: seq<Seen>)
    requires os != []
    ensures TouchAll(e, Table([], map[]), os) ==
            Touch(e, TouchAll(e, Table([], map[]), os[..|os| - 1]), os[|os| - 1])
  {
  }

  lemma OpenValues(os: seq<Seen>, field: string)
    requires os != []
    ensures ValuesOf(os, field) ==
            ValuesOf(os[..|os| - 1], field) + (if os[|os| - 1].field == field then [os[|os| - 1].value] else [])
  {
  }

  lemma OpenFold(e: Readers, depth: nat, vs: seq<Json>, v: Json)
    ensures Fold(e, depth, vs + [v]) == ObserveStats(e, Fold(e, depth, vs), v)
    ensures Fold(e, depth, []) == FreshStats(depth)
  {
    assert (vs + [v])[..|vs|] == vs;
  }

  lemma {:induction false} FieldWasSeen(os: seq<Seen>, field: string)
    requires ValuesOf(os, field) != []
    ensures exists o <- os :: o.field == field
  {
    var front, last := os[..|os| - 1], os[|os| - 1];
    assert os == front + [last];
    if last.field != field {
      FieldWasSeen(front, field);
    } else {
      assert last in os;
    }
  }

  // ----- which values a field has -----

  function OptionSeq(o: Option<Json>): seq<Json> { if o.Some? then [o.value] else [] }

  /** All values of a field over the items, in item order. */
  function FieldValues(items: seq<Json>, path: seq<string>): seq<Json>
  {
    if items == [] then []
    else FieldValues(items[..|items| - 1], path) + OptionSeq(ThroughObjects(items[|items| - 1], path))
  }

  lemma {:induction false} ValuesOfAppend(a: seq<Seen>, b: seq<Seen>, field: string)
    ensures ValuesOf(a + b, field) == ValuesOf(a, field) + ValuesOf(b, field)
  {
    if b == [] {
      assert a + b == a;
    } else {
      var c := a + b;
      assert c[..|c| - 1] == a + b[..|b| - 1] && c[|c| - 1] == b[|b| - 1];
      ValuesOfAppend(a, b[..|b| - 1], field);
    }
  }

  /** Every observation names an object path below the prefix, as deep as its
      depth says. */
  lemma {:induction false} SeenNames(ms: seq<Member>, prefix: string, depth: nat, o: Seen) returns (path: seq<string>)
    requires depth <= FIELD_DEPTH && o in SeenIn(ms, prefix, depth)
    ensures o.field == prefix + Join(path) && |path| > 0 && o.depth == depth + |path| - 1 <= FIELD_DEPTH
    ensures path[0] in (set m | m in ms :: m.key)
    decreases SatSub(FIELD_DEPTH, depth), |ms|
  {
    hide Join, Escape, SeenIn;
    assert ms[0..] == ms;
    if ms == [] {
      NothingSeen(ms, prefix, depth);
    }
    OpenSeen(ms, 0, prefix, depth);
    var field := Push(prefix, ms[0].key);
    if o == Seen(field, depth, ms[0].value) {
      path := [ms[0].key];
      PushAfter(prefix, [], ms[0].key);
      JoinNothing(prefix);
      assert [] + path == path;
    } else if o in SeenIn(ms[1..], prefix, depth) {
      path := SeenNames(ms[1..], prefix, depth, o);
    } else {
      var rest := SeenNames(ms[0].value.members, field, depth + 1, o);
      path := [ms[0].key] + rest;
      UnderKey(prefix, ms[0].key, rest);
    }
  }

  lemma {:induction false} NoneUnderOtherKeys(ms: seq<Member>, prefix: string, depth: nat, path: seq<string>)
    requires depth <= FIELD_DEPTH && path != [] && forall m <- ms :: m.key != path[0]
    ensures ValuesOf(SeenIn(ms, prefix, depth), prefix + Join(path)) == []
  {
    hide Join, SeenIn;
    var os := SeenIn(ms, prefix, depth);
    if ValuesOf(os, prefix + Join(path)) != [] {
      FieldWasSeen(os, prefix + Join(path));
      var o :| o in os && o.field == prefix + Join(path);
      var other := SeenNames(ms, prefix, depth, o);
      RelativeInjective(prefix, other, path);
    }
  }

  /** What an object contributes to one field is what it carries there. */
  lemma {:induction false} SeenIsCarried(v: Json, prefix: string, depth: nat, path: seq<string>)
    requires WellFormed(v) && v.Obj? && 0 < |path| && depth + |path| <= FIELD_DEPTH + 1
    ensures ValuesOf(SeenIn(v.members, prefix, depth), prefix + Join(path)) == OptionSeq(ThroughObjects(v, path))
    decreases SatSub(FIELD_DEPTH, depth), |v.members|
  {
    hide Join, SeenIn, WellFormed, ValuesOf;
    var ms := v.members;
    assert ms[0..] == ms;
    var target := prefix + Join(path);
    if ms == [] {
      NothingSeen(ms, prefix, depth);
      NoValuesOf(target);
    } else {
      WellFormedMembers(v);
      OpenSeen(ms, 0, prefix, depth);
      var m, rest := ms[0], ms[1..];
      var field := Push(prefix, m.key);
      var one := [Seen(field, depth, m.value)];
      var inner := if depth < FIELD_DEPTH && m.value.Obj? then SeenIn(m.value.members, field, depth + 1) else [];
      ValuesOfAppend(one + inner, SeenIn(rest, prefix, depth), target);
      ValuesOfAppend(one, inner, target);
      if m.key == path[0] {
        assert path == [m.key] + path[1..];
        OwnKey(m, prefix, depth, path[1..], one, inner);
        NoneUnderOtherKeys(rest, prefix, depth, path);
      } else {
        SeenIsCarried(Obj(rest), prefix, depth, path);
        OnlyOwnKey(m, prefix, depth, path, one, inner);
      }
    }
  }

  /** The member whose key heads the path contributes what lies under it. */
  lemma OwnKey(m: Member, prefix: string, depth: nat, rest: seq<string>, one: seq<Seen>, inner: seq<Seen>)
    requires WellFormed(m.value) && depth + 1 + |rest| <= FIELD_DEPTH + 1
    requires one == [Seen(Push(prefix, m.key), depth, m.value)]
    requires inner == if depth < FIELD_DEPTH && m.value.Obj? then SeenIn(m.value.members, Push(prefix, m.key), depth + 1) else []
    ensures var target := prefix + Join([m.key] + rest);
            ValuesOf(one, target) + ValuesOf(inner, target) == OptionSeq(ThroughObjects(m.value, rest))
    decreases SatSub(FIELD_DEPTH, depth), 0, 1
  {
    hide Join, SeenIn, WellFormed, ValuesOf, Push;
    var field := Push(prefix, m.key);
    UnderKey(prefix, m.key, rest);
    ValuesOfOne(field, depth, m.value, prefix + Join([m.key] + rest));
    InnerIsCarried(m.value, field, depth, rest, inner);
  }

  lemma WellFormedMembers(v: Json)
    requires WellFormed(v) && v.Obj? && v.members != []
    ensures WellFormed(v.members[0].value) && WellFormed(Obj(v.members[1..]))
    ensures forall m <- v.members[1..] :: m.key != v.members[0].key
  {
  }

  lemma NoValuesOf(field: string)
    ensures ValuesOf([], field) == []
  {
  }

  lemma ValuesOfOne(field: string, depth: nat, value: Json, target: string)
    ensures ValuesOf([Seen(field, depth, value)], target) == if field == target then [value] else []
  {
    var one := [Seen(field, depth, value)];
    assert one[..0] == [];
    assert ValuesOf(one[..0], target) == [];
  }

  /** Inside the member whose key heads the path: either the path ends here or
      the rest is found one level down. */
  lemma InnerIsCarried(v: Json, field: string, depth: nat, path: seq<string>, inner: seq<Seen>)
    requires WellFormed(v) && depth + 1 + |path| <= FIELD_DEPTH + 1
    requires inner == if depth < FIELD_DEPTH && v.Obj? then SeenIn(v.members, field, depth + 1) else []
    ensures path == [] ==> ValuesOf(inner, field + Join(path)) == []
    ensures path != [] ==> ValuesOf(inner, field + Join(path)) == OptionSeq(ThroughObjects(v, path)) && field != field + Join(path)
    ensures path == [] ==> field == field + Join(path)
    decreases SatSub(FIELD_DEPTH, depth), 0, 0
  {
    hide Join, SeenIn, WellFormed;
    JoinNothing(field);
    if path == [] {
      if ValuesOf(inner, field) != [] {
        FieldWasSeen(inner, field);
        var o :| o in inner && o.field == field;
        var other := SeenNames(v.members, field, depth + 1, o);
        RelativeInjective(field, other, []);
      }
    } else {
      RelativeDistinct(field, path, []);
      if v.Obj? {
        SeenIsCarried(v, field, depth + 1, path);
      }
    }
  }

  /** A member with another key contributes nothing. */
  lemma OnlyOwnKey(m: Member, prefix: string, depth: nat, path: seq<string>, one: seq<Seen>, inner: seq<Seen>)
    requires path != [] && m.key != path[0] && depth <= FIELD_DEPTH
    requires one == [Seen(Push(prefix, m.key), depth, m.value)]
    requires inner == if depth < FIELD_DEPTH && m.value.Obj? then SeenIn(m.value.members, Push(prefix, m.key), depth + 1) else []
    ensures ValuesOf(one, prefix + Join(path)) == [] && ValuesOf(inner, prefix + Join(path)) == []
  {
    hide SeenIn, Join;
    var whole := SeenIn([m], prefix, depth);
    assert [m][0..] == [m] && [m][1..] == [];
    OpenSeen([m], 0, prefix, depth);
    NothingSeen([], prefix, depth);
    var none: seq<Member> := []; assert none[|none|..] == none;
    assert whole == one + inner + [];
    assert one + inner + [] == one + inner;
    NoneUnderOtherKeys([m], prefix, depth, path);
    ValuesOfAppend(one, inner, prefix + Join(path));
  }

  lemma {:induction false} ItemsAreBatch(items: seq<Json>, path: seq<string>)
    requires forall i :: 0 <= i < |items| ==> WellFormed(items[i])
    requires 0 < |path| <= FIELD_DEPTH
    ensures ValuesOf(SeenInItems(items), Join(path)) == FieldValues(items, path)
  {
    hide Join, SeenIn, WellFormed;
    if items != [] {
      var front, item := items[..|items| - 1], items[|items| - 1];
      ItemsAreBatch(front, path);
      var here := if item.Obj? then SeenIn(item.members, [], 1) else [];
      ValuesOfAppend(SeenInItems(front), here, Join(path));
      assert [] + Join(path) == Join(path);
      if item.Obj? {
        SeenIsCarried(item, [], 1, path);
      }
    }
  }

  lemma {:induction false} ItemNames(items: seq<Json>, o: Seen) returns (path: seq<string>)
    requires o in SeenInItems(items)
    ensures o.field == Join(path) && 0 < |path| <= FIELD_DEPTH && o.depth == |path|
  {
    hide Join, SeenIn;
    var front, item := items[..|items| - 1], items[|items| - 1];
    if o in SeenInItems(front) {
      path := ItemNames(front, o);
    } else {
      path := SeenNames(item.members, [], 1, o);
      assert [] + Join(path) == Join(path);
    }
  }

  lemma ItemDepthsAgree(items: seq<Json>)
    ensures DepthsAgree(SeenInItems(items))
  {
    hide SeenInItems, Join;
    var os := SeenInItems(items);
    forall a, b | a in os && b in os && a.field == b.field ensures a.depth == b.depth {
      var p := ItemNames(items, a);
      var q := ItemNames(items, b);
      JoinInjective(p, q);
    }
  }

  /** The table after streaming every object item. */
  function TableOf(e: Readers, items: seq<Json>): Table
  {
    TouchAll(e, Table([], map[]), SeenInItems(items))
  }

  /** Streaming equals batch: a field is listed exactly when some item carries
      it, and its statistics are those of the values the items carry. */
  lemma StreamedFieldIsBatch(e: Readers, items: seq<Json>, path: seq<string>)
    requires forall i :: 0 <= i < |items| ==> WellFormed(items[i])
    requires 0 < |path| <= FIELD_DEPTH
    ensures var t := TableOf(e, items);
            && (Join(path) in t.stats <==> FieldValues(items, path) != [])
            && (Join(path) in t.stats ==> t.stats[Join(path)] == Fold(e, |path|, FieldValues(items, path)))
  {
    hide Join, SeenInItems, WellFormed, Fold, TouchAll;
    var os := SeenInItems(items);
    ItemDepthsAgree(items);
    ItemsAreBatch(items, path);
    if FieldValues(items, path) != [] {
      FieldWasSeen(os, Join(path));
      var o :| o in os && o.field == Join(path);
      var p := ItemNames(items, o);
      JoinInjective(p, path);
      TableIsBatch(e, os, o);
    }
    TableListsSeenFields(e, os);
  }

  /** The table lists no other names, and each name once. */
  lemma TableNames(e: Readers, items: seq<Json>, field: string) returns (path: seq<string>)
    requires field in TableOf(e, items).stats
    ensures field == Join(path) && 0 < |path| <= FIELD_DEPTH
  {
    hide Join, SeenInItems, TouchAll;
    var os := SeenInItems(items);
    ItemDepthsAgree(items);
    TableListsSeenFields(e, os);
    FieldWasSeen(os, field);
    var o :| o in os && o.field == field;
    path := ItemNames(items, o);
  }

  // ----- record keys -----

  predicate IsCandidate(t: Table, field: string, items: nat)
  {
    field in t.stats && t.stats[field].unique.Some? && |t.stats[field].unique.value| == items &&
    t.stats[field].present == items
  }

  function Leaf(field: string): string
  {
    var pieces := Split(field);
    pieces[|pieces| - 1]
  }

  function PriorityOf(leaf: string, i: nat): nat
    requires i <= |KEY_PRIORITY|
    decreases |KEY_PRIORITY| - i
  {
    if i == |KEY_PRIORITY| || KEY_PRIORITY[i] == leaf then i else PriorityOf(leaf, i + 1)
  }

  datatype Keyed = Keyed(field: string, depth: nat, priority: nat)

  predicate KeyedLe(a: Keyed, b: Keyed) { a.depth < b.depth || (a.depth == b.depth && a.priority <= b.priority) }

  function CandidatesIn(t: Table, fields: seq<string>, items: nat): (r: seq<Keyed>)
    requires forall f <- fields :: f in t.stats
    ensures forall k :: k in r ==> k.field in fields && IsCandidate(t, k.field, items)
    ensures forall f <- fields | IsCandidate(t, f, items) :: Keyed(f, t.stats[f].depth, PriorityOf(Leaf(f), 0)) in r
  {
    if fields == [] then []
    else
      var f := fields[0];
      (if IsCandidate(t, f, items) then [Keyed(f, t.stats[f].depth, PriorityOf(Leaf(f), 0))] else []) +
      CandidatesIn(t, fields[1..], items)
  }

  function Names(ks: seq<Keyed>): (r: seq<string>)
    ensures |r| == |ks| && forall i :: 0 <= i < |r| ==> r[i] == ks[i].field
  {
    seq(|ks|, i requires 0 <= i < |ks| => ks[i].field)
  }

  function TableKeyCandidates(t: Table, items: nat, objects: nat): (r: seq<string>)
    requires forall f <- t.order :: f in t.stats
    ensures |r| <= MAX_KEY_CANDIDATES
  {
    if items == 0 || objects != items then []
    else
      var sorted := Sort(CandidatesIn(t, t.order, items), KeyedLe);
      Names(sorted[..Min(|sorted|, MAX_KEY_CANDIDATES)])
  }

  /** A record key: every item is an object that carries a key-shaped value at
      the path, and no two items carry the same one. */
  ghost predicate IsRecordKey(items: seq<Json>, path: seq<string>)
  {
    && (forall i :: 0 <= i < |items| ==> items[i].Obj? && ThroughObjects(items[i], path).Some? &&
                                         KeyShaped(ThroughObjects(items[i], path).value))
    && (forall i, j :: 0 <= i < j < |items| ==> ThroughObjects(items[i], path) != ThroughObjects(items[j], path))
  }

  /** No two different key values of the field collide under the hash. */
  ghost predicate NoCollision(e: Readers, items: seq<Json>, path: seq<string>)
  {
    forall i, j :: 0 <= i < j < |items| && ThroughObjects(items[i], path).Some? && ThroughObjects(items[j], path).Some? &&
                   KeyHash(e, ThroughObjects(items[i], path).value) == KeyHash(e, ThroughObjects(items[j], path).value) ==>
                   ThroughObjects(items[i], path) == ThroughObjects(items[j], path)
  }

  lemma {:induction false} AllObjects(items: seq<Json>)
    ensures ObjectCount(items) <= |items|
    ensures ObjectCount(items) == |items| <==> forall i :: 0 <= i < |items| ==> items[i].Obj?
  {
    if items != [] {
      AllObjects(items[..|items| - 1]);
    }
  }

  lemma {:induction false} FullFieldValues(items: seq<Json>, path: seq<string>)
    ensures |FieldValues(items, path)| <= |items|
    ensures |FieldValues(items, path)| == |items| <==> forall i :: 0 <= i < |items| ==> ThroughObjects(items[i], path).Some?
    ensures |FieldValues(items, path)| == |items| ==>
              forall i :: 0 <= i < |items| ==> ThroughObjects(items[i], path) == Some(FieldValues(items, path)[i])
  {
    hide ThroughObjects;
    if items != [] {
      FullFieldValues(items[..|items| - 1], path);
    }
  }

  /** Key inference over one collection. Soundness needs nothing of the hash:
      a collision can only lose a key. */
  lemma CandidateMeansRecordKey(e: Readers, items: seq<Json>, path: seq<string>)
    requires forall i :: 0 <= i < |items| ==> WellFormed(items[i])
    requires 0 < |path| <= FIELD_DEPTH && items != [] && ObjectCount(items) == |items|
    ensures IsCandidate(TableOf(e, items), Join(path), |items|) ==> IsRecordKey(items, path)
    ensures IsRecordKey(items, path) && NoCollision(e, items, path) ==>
              IsCandidate(TableOf(e, items), Join(path), |items|)
  {
    hide Join, TableOf, Fold, WellFormed, ThroughObjects, KeyShaped, KeyHash;
    StreamedFieldIsBatch(e, items, path);
    var vs := FieldValues(items, path);
    FullFieldValues(items, path);
    AllObjects(items);
    PresenceAndKinds(e, |path|, vs);
    UniqueIsDistinctHashes(e, |path|, vs);
    if IsCandidate(TableOf(e, items), Join(path), |items|) {
      assert DistinctHashes(e, vs);
      forall i, j | 0 <= i < j < |items| ensures ThroughObjects(items[i], path) != ThroughObjects(items[j], path) {
        assert KeyHash(e, vs[i]) != KeyHash(e, vs[j]);
      }
    }
    if IsRecordKey(items, path) && NoCollision(e, items, path) {
      forall i, j | 0 <= i < j < |vs| ensures KeyHash(e, vs[i]) != KeyHash(e, vs[j]) {
        assert ThroughObjects(items[i], path) != ThroughObjects(items[j], path);
      }
      assert DistinctHashes(e, vs);
    }
  }

  method BuildTable(e: Readers, items: seq<Json>) returns (table: FieldTable)
    ensures fresh(table) && fresh(table.stats.Values) && table.Valid() && table.readers == e
    ensures table.View() == TableOf(e, items)
  {
    hide SeenIn, Touch;
    table := new FieldTable(e);
    for i := 0 to |items|
      invariant fresh(table) && fresh(table.stats.Values) && table.Valid() && table.readers == e
      invariant table.View() == TableOf(e, items[..i])
    {
      assert items[..i + 1][..i] == items[..i];
      if items[i].Obj? {
        table.ObserveObject(items[i].members, [], 1);
        TouchAllAppend(e, Table([], map[]), SeenInItems(items[..i]), SeenIn(items[i].members, [], 1));
      } else {
        assert SeenInItems(items[..i]) + [] == SeenInItems(items[..i]);
      }
    }
    assert items[..|items|] == items;
  }

  /** The candidates one collection offers. */
  function SideCandidates(e: Readers, items: seq<Json>): seq<string>
  {
    TableWellBuilt(e, items);
    TableKeyCandidates(TableOf(e, items), |items|, ObjectCount(items))
  }

  /** Keys that hold in every collection, as record comparison needs them: just
      those that every side offers. */
  method KeyCandidates(e: Readers, collections: seq<seq<Json>>) returns (keys: seq<string>)
    requires forall c <- collections, v <- c :: WellFormed(v)
    ensures |keys| <= MAX_KEY_CANDIDATES
    ensures forall key :: key in keys <==> collections != [] && forall c <- collections :: key in SideCandidates(e, c)
    ensures forall key <- keys :: collections != [] &&
              exists path :: key == Join(path) && 0 < |path| <= FIELD_DEPTH &&
                             forall c <- collections :: c != [] && IsRecordKey(c, path)
  {
    hide TableOf, SideCandidates, WellFormed, IsRecordKey, Join, SideKey;
    keys := [];
    for i := 0 to |collections|
      invariant |keys| <= MAX_KEY_CANDIDATES
      invariant i == 0 ==> keys == []
      invariant i > 0 ==> forall key :: key in keys <==> forall c <- collections[..i] :: key in SideCandidates(e, c)
    {
      var items := collections[i];
      var side := CandidatesOfSide(e, items);
      if i == 0 {
        keys := side;
      } else {
        keys := Keep(keys, side);
      }
      assert collections[..i + 1] == collections[..i] + [items];
    }
    assert collections[..|collections|] == collections;
    forall key | key in keys
      ensures collections != [] &&
              exists path :: key == Join(path) && 0 < |path| <= FIELD_DEPTH &&
                             forall c <- collections :: c != [] && IsRecordKey(c, path)
    {
      forall c | c in collections ensures SideKey(c, key) {
        CandidatesAreKeys(e, c);
      }
      OnePathForAll(collections, key);
    }
  }

  method CandidatesOfSide(e: Readers, items: seq<Json>) returns (side: seq<string>)
    ensures side == SideCandidates(e, items) && |side| <= MAX_KEY_CANDIDATES
  {
    hide TableOf, TableKeyCandidates;
    var table := BuildTable(e, items);
    ghost var view := table.View();
    TableWellBuilt(e, items);
    assert forall f <- table.order :: f in table.stats by { assert forall f <- view.order :: f in view.stats; }
    side := TableKeyCandidates(SnapshotOf(table), |items|, ObjectCount(items));
  }

  function SnapshotOf(table: FieldTable): (t: Table)
    reads table, table.stats.Values
    ensures t == table.View()
  {
    Table(table.order, map k | k in table.stats :: table.stats[k].View())
  }

  function Keep(keys: seq<string>, side: seq<string>): (r: seq<string>)
    ensures |r| <= |keys|
    ensures forall k :: k in r <==> k in keys && k in side
  {
    if keys == [] then []
    else (if keys[0] in side then [keys[0]] else []) + Keep(keys[1..], side)
  }

  ghost predicate SideKey(items: seq<Json>, key: string)
  {
    items != [] && exists path :: key == Join(path) && 0 < |path| <= FIELD_DEPTH && IsRecordKey(items, path)
  }

  lemma OnePathForAll(collections: seq<seq<Json>>, key: string)
    requires collections != [] && forall c <- collections :: SideKey(c, key)
    ensures exists path :: key == Join(path) && 0 < |path| <= FIELD_DEPTH &&
                           forall c <- collections :: c != [] && IsRecordKey(c, path)
  {
    hide Join, IsRecordKey;
    assert collections[0] in collections;
    var path :| key == Join(path) && 0 < |path| <= FIELD_DEPTH && IsRecordKey(collections[0], path);
    forall c | c in collections ensures c != [] && IsRecordKey(c, path) {
      var other :| key == Join(other) && 0 < |other| <= FIELD_DEPTH && IsRecordKey(c, other);
      JoinInjective(other, path);
    }
  }

  lemma TableWellBuilt(e: Readers, items: seq<Json>)
    ensures var t := TableOf(e, items); forall f <- t.order :: f in t.stats
  {
    ItemDepthsAgree(items);
    TableListsSeenFields(e, SeenInItems(items));
  }

  lemma CandidatesAreKeys(e: Readers, items: seq<Json>)
    requires forall v <- items :: WellFormed(v)
    ensures forall key <- SideCandidates(e, items) :: SideKey(items, key)
  {
    hide TableOf, WellFormed, IsRecordKey, Join, Sort, IsCandidate, PriorityOf, Leaf;
    TableWellBuilt(e, items);
    var t := TableOf(e, items);
    var keys := TableKeyCandidates(t, |items|, ObjectCount(items));
    forall key | key in keys ensures SideKey(items, key) {
      var all := CandidatesIn(t, t.order, |items|);
      SortContents(all, KeyedLe);
      var sorted := Sort(all, KeyedLe);
      var i :| 0 <= i < |keys| && keys[i] == key;
      assert sorted[i] in sorted;
      CandidateInTable(t, key, |items|);
      var path := TableNames(e, items, key);
      CandidateMeansRecordKey(e, items, path);
    }
  }

  lemma KeyedLeIsPreorder()
    ensures TotalPreorder(KeyedLe)
  {
  }

  /** What ranks a candidate: its depth, then how usual its name is for a key. */
  function RankOf(path: seq<string>): Keyed
  {
    Keyed(Join(path), |path|, PriorityOf(Leaf(Join(path)), 0))
  }

  /** A record key without collisions is offered, unless as many candidates as
      may be offered rank no worse. */
  lemma MissedKeyIsOutranked(e: Readers, items: seq<Json>, path: seq<string>)
    requires forall i :: 0 <= i < |items| ==> WellFormed(items[i])
    requires 0 < |path| <= FIELD_DEPTH && items != [] && IsRecordKey(items, path) && NoCollision(e, items, path)
    ensures var side := SideCandidates(e, items);
            Join(path) in side ||
            (|side| == MAX_KEY_CANDIDATES &&
             forall key <- side :: exists other :: key == Join(other) && KeyedLe(RankOf(other), RankOf(path)))
  {
    hide TableOf, WellFormed, IsRecordKey, NoCollision, Join, Sort, IsCandidate, PriorityOf, Leaf, KeyedLe, SideCandidates,
         CandidatesIn, RankOf;
    var t := TableOf(e, items);
    TableWellBuilt(e, items);
    EveryItemIsObject(items, path);
    AllObjects(items);
    CandidateMeansRecordKey(e, items, path);
    CandidateIsListed(e, items, path);
    var all := CandidatesIn(t, t.order, |items|);
    var sorted := Sort(all, KeyedLe);
    KeyedLeIsPreorder();
    SortContents(all, KeyedLe);
    SortSorted(all, KeyedLe);
    var mine: nat :| mine < |sorted| && sorted[mine] == RankOf(path);
    var side := SideCandidates(e, items);
    SideIsHead(e, items);
    assert RankOf(path).field == Join(path) by { RankNames(path); }
    assert mine < |side| ==> side[mine] == Join(path);
    if Join(path) !in side {
      forall key | key in side ensures exists other :: key == Join(other) && KeyedLe(RankOf(other), RankOf(path)) {
        var i :| 0 <= i < |side| && side[i] == key;
        assert sorted[i] in sorted;
        var other := RankedName(e, items, sorted[i]);
        assert KeyedLe(sorted[i], sorted[mine]);
      }
    }
  }

  lemma RankNames(path: seq<string>)
    ensures RankOf(path).field == Join(path)
  {
  }

  lemma SideIsHead(e: Readers, items: seq<Json>)
    requires items != [] && ObjectCount(items) == |items|
    requires var t := TableOf(e, items); forall f <- t.order :: f in t.stats
    ensures var t := TableOf(e, items);
            var sorted := Sort(CandidatesIn(t, t.order, |items|), KeyedLe);
            SideCandidates(e, items) == Names(sorted[..Min(|sorted|, MAX_KEY_CANDIDATES)])
  {
    hide TableOf, CandidatesIn, Sort;
  }

  lemma EveryItemIsObject(items: seq<Json>, path: seq<string>)
    requires IsRecordKey(items, path)
    ensures forall i :: 0 <= i < |items| ==> items[i].Obj?
  {
  }

  lemma CandidateIsListed(e: Readers, items: seq<Json>, path: seq<string>)
    requires forall i :: 0 <= i < |items| ==> WellFormed(items[i])
    requires 0 < |path| <= FIELD_DEPTH && IsCandidate(TableOf(e, items), Join(path), |items|)
    requires var t := TableOf(e, items); forall f <- t.order :: f in t.stats
    ensures var t := TableOf(e, items); RankOf(path) in CandidatesIn(t, t.order, |items|)
  {
    hide WellFormed, Join, PriorityOf, Leaf, Fold, IsCandidate;
    CandidateInTable(TableOf(e, items), Join(path), |items|);
    StreamedFieldIsBatch(e, items, path);
    PresenceAndKinds(e, |path|, FieldValues(items, path));
    TableListsSeenFields(e, SeenInItems(items));
  }

  lemma RankedName(e: Readers, items: seq<Json>, k: Keyed) returns (path: seq<string>)
    requires forall i :: 0 <= i < |items| ==> WellFormed(items[i])
    requires var t := TableOf(e, items); (forall f <- t.order :: f in t.stats) && k in CandidatesIn(t, t.order, |items|)
    ensures k.field == Join(path) && k == RankOf(path)
  {
    hide WellFormed, Join, PriorityOf, Leaf, Fold, IsCandidate, TableOf;
    var t := TableOf(e, items);
    CandidateInTable(t, k.field, |items|);
    path := TableNames(e, items, k.field);
    StreamedFieldIsBatch(e, items, path);
    PresenceAndKinds(e, |path|, FieldValues(items, path));
    CandidateRank(t, t.order, |items|, k);
  }

  lemma {:induction false} CandidateRank(t: Table, fields: seq<string>, items: nat, k: Keyed)
    requires (forall f <- fields :: f in t.stats) && k in CandidatesIn(t, fields, items)
    ensures k.field in t.stats && k == Keyed(k.field, t.stats[k.field].depth, PriorityOf(Leaf(k.field), 0))
  {
    hide IsCandidate, PriorityOf, Leaf;
    var f := fields[0];
    if k in CandidatesIn(t, fields[1..], items) { CandidateRank(t, fields[1..], items, k); }
  }

  lemma CandidateInTable(t: Table, field: string, items: nat)
    requires IsCandidate(t, field, items)
    ensures field in t.stats
  {
  }

  // ----- the overview of a collection -----

  datatype FieldOverview = FieldOverview(
    field: string,
    kinds: set<string>,
    present: nat,
    values: seq<ValueCount>,
    low: Option<Json>,
    high: Option<Json>)

  datatype CollectionOverview = CollectionOverview(
    items: nat,
    itemKinds: map<string, nat>,
    fields: seq<FieldOverview>,
    fieldsOmitted: nat,
    keyCandidates: seq<string>)

  predicate MoreFrequent(a: ValueCount, b: ValueCount) { a.count >= b.count }

  /** The value list a field shows: nothing when no value repeats. */
  function ShownValues(s: Stats): seq<ValueCount>
  {
    var values := if s.values.Some? then s.values.value else [];
    if s.present > 1 && forall i :: 0 <= i < |values| ==> values[i].count == 1 then []
    else Sort(values, MoreFrequent)
  }

  function LowOf(b: Bounds): Option<Json>
  {
    match b case Numbers(low, _) => Some(low) case Timestamps(_, low, _, _) => Some(low) case _ => None
  }

  function HighOf(b: Bounds): Option<Json>
  {
    match b case Numbers(_, high) => Some(high) case Timestamps(_, _, _, high) => Some(high) case _ => None
  }

  function IntoOverview(field: string, s: Stats): FieldOverview
  {
    var values := ShownValues(s);
    FieldOverview(field, s.kinds, s.present, values,
                  if values == [] then LowOf(s.bounds) else None, if values == [] then HighOf(s.bounds) else None)
  }

  /** What an overview says of one field is exact over the items. */
  ghost predicate ExactField(e: Readers, vs: seq<Json>, f: FieldOverview)
  {
    && f.present == |vs| && f.kinds == (set v | v in vs :: KindName(v))
    && (f.values != [] ==>
          IsHistogram(vs, f.values) && Sorted(f.values, MoreFrequent) && f.low.None? && f.high.None?)
    && f.low.Some? == f.high.Some?
    && (f.values == [] ==> (f.low.Some? <==> OneKind(e, vs)))
    && (f.low.Some? ==> Extremes(e, f.low.value, f.high.value, vs))
  }

  /** There is a value, and all that there are compare: numbers, or instants. */
  ghost predicate OneKind(e: Readers, vs: seq<Json>)
  {
    && (exists v <- vs :: !v.Null?)
    && ((forall v <- vs :: v.Null? || v.Num?) || (forall v <- vs :: v.Null? || Instant(e, v)))
  }

  /** Two of the values, and no other lies outside them. */
  ghost predicate Extremes(e: Readers, low: Json, high: Json, vs: seq<Json>)
  {
    || NumberRange(e, low, high, vs)
    || (&& low in vs && high in vs && Instant(e, low) && Instant(e, high)
        && forall v <- vs | Instant(e, v) ::
             e.instant(low.s).value <= e.instant(v.s).value <= e.instant(high.s).value)
  }

  lemma MoreFrequentIsPreorder()
    ensures TotalPreorder(MoreFrequent)
  {
  }

  lemma SortKeepsHistogram(vs: seq<Json>, h: seq<ValueCount>)
    requires IsHistogram(vs, h)
    ensures IsHistogram(vs, Sort(h, MoreFrequent))
  {
    hide Sort, CountOf;
    var g := Sort(h, MoreFrequent);
    SortContents(h, MoreFrequent);
    var value := (c: ValueCount) => c.value;
    SortDistinct(h, MoreFrequent, value);
    forall i, j | 0 <= i < j < |g| ensures g[i].value != g[j].value {
      assert value(g[i]) != value(g[j]);
    }
    forall i | 0 <= i < |g| ensures g[i].count == CountOf(vs, g[i].value) && g[i].count > 0 {
      assert g[i] in h;
      var k :| 0 <= k < |h| && h[k] == g[i];
    }
    forall v | v in vs ensures exists i :: 0 <= i < |g| && g[i].value == v {
      var k :| 0 <= k < |h| && h[k].value == v;
      assert h[k] in g;
      var i :| 0 <= i < |g| && g[i] == h[k];
    }
  }

  lemma OverviewFieldIsExact(e: Readers, depth: nat, vs: seq<Json>, field: string)
    ensures ExactField(e, vs, IntoOverview(field, Fold(e, depth, vs)))
  {
    hide Fold, IsHistogram, KindName, Enumerable, Sort, BoundsMean, OneKind, Extremes;
    PresenceAndKinds(e, depth, vs);
    ValuesAreTheHistogram(e, depth, vs);
    BoundsAreVerbatim(e, depth, vs);
    var s := Fold(e, depth, vs);
    if s.values.Some? {
      SortKeepsHistogram(vs, s.values.value);
      MoreFrequentIsPreorder();
      SortSorted(s.values.value, MoreFrequent);
    }
    BoundsInValues(e, s.bounds, vs);
  }

  lemma BoundsInValues(e: Readers, b: Bounds, vs: seq<Json>)
    requires BoundsMean(e, b, vs)
    ensures LowOf(b).Some? == HighOf(b).Some?
    ensures LowOf(b).Some? <==> OneKind(e, vs)
    ensures LowOf(b).Some? ==> Extremes(e, LowOf(b).value, HighOf(b).value, vs)
  {
  }

  datatype NamedDepth = NamedDepth(field: string, depth: nat)

  predicate ShallowerFirst(a: NamedDepth, b: NamedDepth) { a.depth <= b.depth }

  function Depths(t: Table, order: seq<string>): (r: seq<NamedDepth>)
    requires forall f <- order :: f in t.stats
    ensures |r| == |order|
    ensures forall i :: 0 <= i < |r| ==> r[i] == NamedDepth(order[i], t.stats[order[i]].depth)
  {
    seq(|order|, i requires 0 <= i < |order| => NamedDepth(order[i], t.stats[order[i]].depth))
  }

  function TallyKind(items: seq<Json>, kind: string): nat
  {
    if items == [] then 0
    else TallyKind(items[..|items| - 1], kind) + (if KindName(items[|items| - 1]) == kind then 1 else 0)
  }

  /** The overview lists the first `maxFields` fields, top level before nested,
      each exact over the items, and counts the rest. */
  ghost predicate IsOverview(e: Readers, items: seq<Json>, maxFields: nat, o: CollectionOverview)
  {
    && o.items == |items|
    && (forall k: string :: k in o.itemKinds <==> TallyKind(items, k) > 0)
    && (forall k <- o.itemKinds :: o.itemKinds[k] == TallyKind(items, k))
    && |o.fields| + o.fieldsOmitted == |TableOf(e, items).order|
    && |o.fields| == Min(maxFields, |TableOf(e, items).order|)
    && (forall i :: 0 <= i < |o.fields| ==> FieldOfItems(e, items, o.fields[i]))
    && (forall i :: 0 <= i < |o.fields| && i < |FieldOrder(e, items)| ==> o.fields[i].field == FieldOrder(e, items)[i].field)
    && o.keyCandidates == SideCandidates(e, items)
  }

  /** Every field of the items, top level before nested. */
  function FieldOrder(e: Readers, items: seq<Json>): seq<NamedDepth>
  {
    TableWellBuilt(e, items);
    Sort(Depths(TableOf(e, items), TableOf(e, items).order), ShallowerFirst)
  }

  function NameOf(n: NamedDepth): string { n.field }

  /** Each field that some item carries appears once, under its depth, and no
      nested field comes before a shallower one. */
  lemma FieldOrderFacts(e: Readers, items: seq<Json>, path: seq<string>)
    requires forall i :: 0 <= i < |items| ==> WellFormed(items[i])
    requires 0 < |path| <= FIELD_DEPTH
    ensures var order := FieldOrder(e, items);
            && (NamedDepth(Join(path), |path|) in order <==> FieldValues(items, path) != [])
            && Distinct(order, NameOf) && Sorted(order, ShallowerFirst)
  {
    hide WellFormed, Join, Fold, TouchAll, FieldValues;
    var t := TableOf(e, items);
    TableWellBuilt(e, items);
    var depths := Depths(t, t.order);
    StreamedFieldIsBatch(e, items, path);
    PresenceAndKinds(e, |path|, FieldValues(items, path));
    TableListsSeenFields(e, SeenInItems(items));
    SortContents(depths, ShallowerFirst);
    assert TotalPreorder(ShallowerFirst);
    SortSorted(depths, ShallowerFirst);
    forall i, j | 0 <= i < j < |depths| ensures NameOf(depths[i]) != NameOf(depths[j]) {
      assert t.order[i] != t.order[j];
    }
    SortDistinct(depths, ShallowerFirst, NameOf);
    if FieldValues(items, path) != [] {
      assert Join(path) in t.order;
      var i :| 0 <= i < |t.order| && t.order[i] == Join(path);
      assert depths[i] == NamedDepth(Join(path), |path|);
    }
    if NamedDepth(Join(path), |path|) in FieldOrder(e, items) {
      var i :| 0 <= i < |depths| && depths[i] == NamedDepth(Join(path), |path|);
      assert t.order[i] in t.order;
    }
  }

  ghost predicate FieldOfItems(e: Readers, items: seq<Json>, f: FieldOverview)
  {
    exists path :: f.field == Join(path) && 0 < |path| <= FIELD_DEPTH && f.present > 0 &&
                   ExactField(e, FieldValues(items, path), f)
  }

  method OverviewOf(e: Readers, items: seq<Json>, maxFields: nat) returns (o: CollectionOverview)
    requires forall v <- items :: WellFormed(v)
    ensures IsOverview(e, items, maxFields, o)
  {
    hide TableOf, TableKeyCandidates, WellFormed, FieldOfItems, IntoOverview, Sort, KindName;
    var itemKinds := CountKinds(items);
    var table := BuildTable(e, items);
    var t := SnapshotOf(table);
    TableWellBuilt(e, items);
    var keys := TableKeyCandidates(t, |items|, ObjectCount(items));
    var ordered := Sort(Depths(t, t.order), ShallowerFirst);
    SortContents(Depths(t, t.order), ShallowerFirst);
    var shown := Min(maxFields, |ordered|);
    var fields: seq<FieldOverview> := [];
    for i := 0 to shown
      invariant |fields| == i
      invariant forall k :: 0 <= k < i ==> FieldOfItems(e, items, fields[k]) && fields[k].field == ordered[k].field
    {
      assert ordered[i] in ordered;
      var f := ordered[i].field;
      assert f in t.order;
      ListedFieldIsExact(e, items, f);
      OverviewKeepsName(f, t.stats[f]);
      fields := fields + [IntoOverview(f, t.stats[f])];
    }
    o := CollectionOverview(|items|, itemKinds, fields, |ordered| - shown, keys);
  }

  lemma OverviewKeepsName(field: string, s: Stats)
    ensures IntoOverview(field, s).field == field
  {
  }

  lemma ListedFieldIsExact(e: Readers, items: seq<Json>, field: string)
    requires forall v <- items :: WellFormed(v)
    requires field in TableOf(e, items).stats
    ensures FieldOfItems(e, items, IntoOverview(field, TableOf(e, items).stats[field]))
  {
    hide TableOf, WellFormed, Join, Fold, ExactField;
    var path := TableNames(e, items, field);
    StreamedFieldIsBatch(e, items, path);
    PresenceAndKinds(e, |path|, FieldValues(items, path));
    OverviewFieldIsExact(e, |path|, FieldValues(items, path), field);
  }

  method CountKinds(items: seq<Json>) returns (kinds: map<string, nat>)
    ensures forall k: string :: k in kinds <==> TallyKind(items, k) > 0
    ensures forall k <- kinds :: kinds[k] == TallyKind(items, k)
  {
    hide KindName;
    kinds := map[];
    for i := 0 to |items|
      invariant forall k: string :: k in kinds <==> TallyKind(items[..i], k) > 0
      invariant forall k <- kinds :: kinds[k] == TallyKind(items[..i], k)
    {
      assert items[..i + 1][..i] == items[..i];
      var kind := KindName(items[i]);
      kinds := kinds[kind := (if kind in kinds then kinds[kind] else 0) + 1];
    }
    assert items[..|items|] == items;
  }
}
