/** Locating the collection to describe: a breadth-first search through object
    members for the largest array of records. */
module Collection {
  import opened Common
  import opened Json
  import opened Pointer

  const OVERVIEW_MIN_ITEMS: nat := 2
  const SEARCH_DEPTH: nat := 4

  predicate IsRecordCollection(v: Json)
  {
    v.Arr? && |v.items| >= OVERVIEW_MIN_ITEMS && ObjectCount(v.items) * 2 >= |v.items|
  }

  /** A record array the search may return. */
  predicate Reachable(root: Json, path: seq<string>)
  {
    0 < |path| <= SEARCH_DEPTH && ThroughObjects(root, path).Some? &&
    IsRecordCollection(ThroughObjects(root, path).value)
  }

  function LengthAt(root: Json, path: seq<string>): nat
    requires Reachable(root, path)
  {
    |ThroughObjects(root, path).value.items|
  }

  datatype Entry = Entry(path: seq<string>, node: Json)

  /** Every queued entry is a real node at its address, shallow enough to open,
      and the queue is ordered by depth across at most two levels. */
  ghost predicate QueueOk(root: Json, queue: seq<Entry>)
  {
    && (forall q <- queue :: |q.path| < SEARCH_DEPTH && ThroughObjects(root, q.path) == Some(q.node) && WellFormed(q.node))
    && (forall i, j :: 0 <= i < j < |queue| ==> |queue[i].path| <= |queue[j].path| <= |queue[i].path| + 1)
  }

  ghost predicate BestOk(root: Json, best: Option<seq<string>>)
  {
    best.Some? ==> Reachable(root, best.value)
  }

  /** The best so far is at least as long as `path`, and no deeper when it ties. */
  ghost predicate Beats(root: Json, best: Option<seq<string>>, path: seq<string>)
  {
    Reachable(root, path) ==>
      best.Some? && Reachable(root, best.value) && LengthAt(root, best.value) >= LengthAt(root, path) &&
      (LengthAt(root, best.value) == LengthAt(root, path) ==> |best.value| <= |path|)
  }

  /** A reachable array not yet met lies below something still queued. */
  ghost predicate Pending(queue: seq<Entry>, path: seq<string>)
  {
    exists i :: 0 <= i < |queue| && queue[i].path < path
  }

  ghost predicate Covers(root: Json, queue: seq<Entry>, best: Option<seq<string>>)
  {
    forall path :: Reachable(root, path) ==> Beats(root, best, path) || Pending(queue, path)
  }

  /** Nodes of a value: the work a queue entry may still cause. */
  function Size(v: Json): nat
    decreases v, 1
  {
    1 + SizeFrom(v, 0)
  }

  function SizeFrom(v: Json, i: nat): nat
    decreases v, 0, |Children(v)| - i
  {
    if i >= |Children(v)| then 0 else Size(Children(v)[i].value) + SizeFrom(v, i + 1)
  }

  function Work(queue: seq<Entry>): nat
  {
    if queue == [] then 0 else Size(queue[0].node) + Work(queue[1..])
  }

  lemma {:induction false} WorkAppend(queue: seq<Entry>, e: Entry)
    ensures Work(queue + [e]) == Work(queue) + Size(e.node)
  {
    if queue == [] {
      assert (queue + [e])[1..] == [];
    } else {
      assert (queue + [e])[1..] == queue[1..] + [e];
      WorkAppend(queue[1..], e);
    }
  }

  /** Opens one object: records its record arrays and queues its objects. */
  method OpenObject(root: Json, entry: Entry, queue0: seq<Entry>, best0: Option<seq<string>>)
      returns (queue: seq<Entry>, best: Option<seq<string>>)
    requires entry.node.Obj? && QueueOk(root, [entry] + queue0) && BestOk(root, best0)
    requires best0.Some? ==> |best0.value| <= |entry.path| + 1
    ensures QueueOk(root, queue) && BestOk(root, best)
    ensures best.Some? ==> |best.value| <= |entry.path| + 1
    ensures forall q <- queue :: |entry.path| <= |q.path|
    ensures queue0 <= queue && Work(queue) < Work(queue0) + Size(entry.node)
    ensures forall path :: Beats(root, best0, path) ==> Beats(root, best, path)
    ensures forall k <- entry.node.members :: Handled(root, queue, best, entry.path, k)
  {
    hide ThroughObjects, IsRecordCollection, Size, SizeFrom, Work, Beats, Pending, Handled, QueueOk, WellFormed, Reachable;
    queue, best := queue0, best0;
    EntriesBehind(root, entry, queue0);
    var ms := entry.node.members;
    for i := 0 to |ms|
      invariant QueueOk(root, queue) && BestOk(root, best) && queue0 <= queue
      invariant forall q <- queue :: |entry.path| <= |q.path| <= |entry.path| + 1
      invariant best.Some? ==> |best.value| <= |entry.path| + 1
      invariant Work(queue) + SizeFrom(entry.node, i) <= Work(queue0) + SizeFrom(entry.node, 0)
      invariant forall path :: Beats(root, best0, path) ==> Beats(root, best, path)
      invariant forall k <- ms[..i] :: Handled(root, queue, best, entry.path, k)
    {
      var key, child := ms[i].key, ms[i].value;
      var path := entry.path + [key];
      MemberAt(root, entry, i);
      OpenSize(entry.node, i);
      ghost var q0, b0 := queue, best;
      if child.Arr? && IsRecordCollection(child) {
        ReachableHere(root, path, child);
        if best.None? || |child.items| > LengthAt(root, best.value) {
          best := Some(path);
        }
        BestImproves(root, b0, best, path);
      } else if child.Obj? && |entry.path| + 1 < SEARCH_DEPTH {
        queue := queue + [Entry(path, child)];
        WorkAppend(q0, Entry(path, child));
        QueueGrows(root, q0, Entry(path, child));
      }
      HandledNow(root, queue, best, entry.path, ms[i]);
      StillHandled(root, q0, b0, queue, best, entry.path, ms[..i]);
      assert ms[..i + 1] == ms[..i] + [ms[i]];
    }
    OpenSize(entry.node, |ms|);
    assert ms[..|ms|] == ms;
  }

  /** What opening an object settles about one member. */
  ghost predicate Handled(root: Json, queue: seq<Entry>, best: Option<seq<string>>, at: seq<string>, m: Member)
  {
    var path := at + [m.key];
    (if m.value.Arr? && IsRecordCollection(m.value) then Beats(root, best, path)
     else if m.value.Obj? && |path| < SEARCH_DEPTH then Entry(path, m.value) in queue
     else true)
  }

  lemma HandledNow(root: Json, queue: seq<Entry>, best: Option<seq<string>>, at: seq<string>, m: Member)
    requires m.value.Arr? && IsRecordCollection(m.value) ==> Beats(root, best, at + [m.key])
    requires !(m.value.Arr? && IsRecordCollection(m.value)) && m.value.Obj? && |at| + 1 < SEARCH_DEPTH ==>
               queue != [] && queue[|queue| - 1] == Entry(at + [m.key], m.value)
    ensures Handled(root, queue, best, at, m)
  {
    hide Beats, IsRecordCollection;
  }

  lemma StillHandled(
    root: Json, q0: seq<Entry>, b0: Option<seq<string>>, q1: seq<Entry>, b1: Option<seq<string>>, at: seq<string>,
    ms: seq<Member>)
    requires q0 <= q1 && forall path :: Beats(root, b0, path) ==> Beats(root, b1, path)
    requires forall k <- ms :: Handled(root, q0, b0, at, k)
    ensures forall k <- ms :: Handled(root, q1, b1, at, k)
  {
    hide Beats, IsRecordCollection;
    assert forall e :: e in q0 ==> e in q1 by {
      assert q1 == q0 + q1[|q0|..];
    }
  }

  lemma EntriesBehind(root: Json, entry: Entry, queue: seq<Entry>)
    requires QueueOk(root, [entry] + queue)
    ensures QueueOk(root, queue)
    ensures ThroughObjects(root, entry.path) == Some(entry.node) && WellFormed(entry.node)
    ensures |entry.path| < SEARCH_DEPTH
    ensures forall q <- queue :: |entry.path| <= |q.path| <= |entry.path| + 1
  {
    hide ThroughObjects, WellFormed;
    var all := [entry] + queue;
    assert all[0] in all;
    forall q | q in queue ensures |entry.path| <= |q.path| <= |entry.path| + 1 {
      var i :| 0 <= i < |queue| && queue[i] == q;
      assert all[0] == entry && all[i + 1] == q;
    }
    forall q | q in queue ensures q in all {
    }
    forall i, j | 0 <= i < j < |queue| ensures |queue[i].path| <= |queue[j].path| <= |queue[i].path| + 1 {
      assert all[i + 1] == queue[i] && all[j + 1] == queue[j];
    }
  }

  lemma QueueGrows(root: Json, queue: seq<Entry>, e: Entry)
    requires QueueOk(root, queue)
    requires |e.path| < SEARCH_DEPTH && ThroughObjects(root, e.path) == Some(e.node) && WellFormed(e.node)
    requires forall q <- queue :: |e.path| - 1 <= |q.path| <= |e.path|
    ensures QueueOk(root, queue + [e])
  {
    hide ThroughObjects, WellFormed;
  }

  lemma MemberAt(root: Json, entry: Entry, i: nat)
    requires entry.node.Obj? && i < |entry.node.members|
    requires ThroughObjects(root, entry.path) == Some(entry.node) && WellFormed(entry.node)
    ensures ThroughObjects(root, entry.path + [entry.node.members[i].key]) == Some(entry.node.members[i].value)
    ensures WellFormed(entry.node.members[i].value)
  {
    ThroughThenChild(root, entry.path, entry.node.members[i].key);
    LookupAt(entry.node.members, i);
  }

  lemma ReachableHere(root: Json, path: seq<string>, child: Json)
    requires ThroughObjects(root, path) == Some(child) && IsRecordCollection(child) && 0 < |path| <= SEARCH_DEPTH
    ensures Reachable(root, path) && LengthAt(root, path) == |child.items|
  {
  }

  lemma RecordsAreArrays(v: Json)
    requires IsRecordCollection(v)
    ensures v.Arr? && |v.items| >= OVERVIEW_MIN_ITEMS
  {
  }

  lemma OpenSize(v: Json, i: nat)
    ensures i < |Children(v)| ==> SizeFrom(v, i) == Size(Children(v)[i].value) + SizeFrom(v, i + 1)
    ensures i >= |Children(v)| ==> SizeFrom(v, i) == 0
    ensures Size(v) == 1 + SizeFrom(v, 0)
  {
  }

  lemma BestImproves(root: Json, before: Option<seq<string>>, best: Option<seq<string>>, path: seq<string>)
    requires BestOk(root, before) && Reachable(root, path)
    requires before.Some? ==> |before.value| <= |path|
    requires best == if before.None? || LengthAt(root, path) > LengthAt(root, before.value) then Some(path) else before
    ensures Beats(root, best, path)
    ensures forall p :: Beats(root, before, p) ==> Beats(root, best, p)
  {
    hide Reachable;
  }

  /** Opening the head of the queue leaves nothing uncovered. */
  lemma OpeningCovers(
    root: Json, entry: Entry, queue0: seq<Entry>, best0: Option<seq<string>>, queue: seq<Entry>,
    best: Option<seq<string>>, path: seq<string>)
    requires QueueOk(root, [entry] + queue0)
    requires Reachable(root, path)
    requires Beats(root, best0, path) || Pending([entry] + queue0, path)
    requires queue0 <= queue && (Beats(root, best0, path) ==> Beats(root, best, path))
    requires entry.node.Obj? ==> forall k <- entry.node.members :: Handled(root, queue, best, entry.path, k)
    ensures Beats(root, best, path) || Pending(queue, path)
  {
    hide Beats, WellFormed, IsRecordCollection;
    if !Beats(root, best0, path) {
      var all := [entry] + queue0;
      var i :| 0 <= i < |all| && all[i].path < path;
      if i > 0 {
        assert queue[i - 1] == all[i];
      } else {
        assert entry in all;
        BelowEntry(root, entry, queue, best, path);
      }
    }
  }

  lemma BelowEntry(root: Json, entry: Entry, queue: seq<Entry>, best: Option<seq<string>>, path: seq<string>)
    requires ThroughObjects(root, entry.path) == Some(entry.node)
    requires Reachable(root, path) && entry.path < path
    requires entry.node.Obj? ==> forall k <- entry.node.members :: Handled(root, queue, best, entry.path, k)
    ensures Beats(root, best, path) || Pending(queue, path)
  {
    hide Beats, IsRecordCollection;
    var n := |entry.path|;
    var next := path[..n + 1];
    assert next == entry.path + [path[n]];
    ThroughThenChild(root, entry.path, path[n]);
    ThroughPrefix(root, next, path[n + 1..]);
    assert path == next + path[n + 1..];
    var k := LookupIndex(entry.node.members, path[n]);
    var m := entry.node.members[k];
    assert m in entry.node.members;
    if |path| == n + 1 {
      assert path == next;
      RecordsAreArrays(m.value);
    } else {
      OnlyObjectsInside(m.value, path[n + 1..]);
      var e := Entry(next, m.value);
      assert e in queue;
      var j :| 0 <= j < |queue| && queue[j] == e;
      assert queue[j].path < path;
    }
  }

  lemma OnlyObjectsInside(v: Json, rest: seq<string>)
    requires rest != [] && ThroughObjects(v, rest).Some?
    ensures v.Obj?
  {
  }

  lemma {:induction false} ThroughPrefix(v: Json, a: seq<string>, b: seq<string>)
    ensures ThroughObjects(v, a + b) ==
            (match ThroughObjects(v, a) case None => None case Some(m) => ThroughObjects(m, b))
    decreases |a|
  {
    if a == [] {
      assert a + b == b;
    } else {
      assert (a + b)[1..] == a[1..] + b;
      if v.Obj? && Lookup(v.members, a[0]).Some? {
        ThroughPrefix(Lookup(v.members, a[0]).value, a[1..], b);
      }
    }
  }

  /** A reachable record array that none exceeds in length and no equally long
      one precedes in depth. */
  ghost predicate IsLargest(root: Json, best: seq<string>)
  {
    Reachable(root, best) &&
    forall path | Reachable(root, path) ::
      LengthAt(root, path) <= LengthAt(root, best) &&
      (LengthAt(root, path) == LengthAt(root, best) ==> |best| <= |path|)
  }

  /** The search below an object: the largest reachable record array, or none
      when none is reachable. */
  method SearchBelow(root: Json) returns (best: Option<seq<string>>)
    requires WellFormed(root)
    ensures best.None? ==> forall path :: !Reachable(root, path)
    ensures best.Some? ==> IsLargest(root, best.value)
  {
    hide ThroughObjects, WellFormed, Size, SizeFrom, Work, Reachable, Beats, Pending, Handled;
    best := None;
    var queue := [Entry([], root)];
    Start(root);
    while queue != []
      invariant QueueOk(root, queue) && BestOk(root, best) && Covers(root, queue, best)
      invariant best.Some? && queue != [] ==> |best.value| <= |queue[0].path| + 1
      decreases Work(queue)
    {
      var entry, rest := queue[0], queue[1..];
      assert queue == [entry] + rest;
      OpenWork(queue);
      ghost var queue0, best0 := queue, best;
      if entry.node.Obj? {
        queue, best := OpenObject(root, entry, rest, best);
      } else {
        EntriesBehind(root, entry, rest);
        queue := rest;
      }
      forall path | Reachable(root, path) ensures Beats(root, best, path) || Pending(queue, path) {
        OpeningCovers(root, entry, rest, best0, queue, best, path);
      }
      HeadIsDeepEnough(root, entry, rest, queue, best);
    }
    forall path | Reachable(root, path) ensures Beats(root, best, path) {
      NothingPending(path);
    }
    BeatsMeans(root, best);
  }

  lemma HeadIsDeepEnough(root: Json, entry: Entry, rest: seq<Entry>, queue: seq<Entry>, best: Option<seq<string>>)
    requires best.Some? ==> |best.value| <= |entry.path| + 1
    requires QueueOk(root, [entry] + rest)
    requires queue == rest || (rest <= queue && forall q <- queue :: |entry.path| <= |q.path|)
    ensures best.Some? && queue != [] ==> |best.value| <= |queue[0].path| + 1
  {
    hide ThroughObjects, WellFormed;
    EntriesBehind(root, entry, rest);
    if queue != [] { assert queue[0] in queue; }
  }

  lemma NothingPending(path: seq<string>)
    ensures !Pending([], path)
  {
  }

  lemma BeatsMeans(root: Json, best: Option<seq<string>>)
    requires forall path | Reachable(root, path) :: Beats(root, best, path)
    ensures best.None? ==> forall path :: !Reachable(root, path)
    ensures best.Some? && Reachable(root, best.value) ==> IsLargest(root, best.value)
  {
    hide Reachable;
  }

  lemma Start(root: Json)
    requires WellFormed(root)
    ensures QueueOk(root, [Entry([], root)]) && Covers(root, [Entry([], root)], None)
  {
    var queue := [Entry([], root)];
    forall path | Reachable(root, path) ensures Pending(queue, path) {
      assert queue[0].path < path;
    }
  }

  lemma OpenWork(queue: seq<Entry>)
    requires queue != []
    ensures Work(queue) == Size(queue[0].node) + Work(queue[1..]) && Size(queue[0].node) > 0
  {
  }

  predicate NamesArray(v: Json, pointer: string)
  {
    Parse(pointer).Some? && Get(v, Parse(pointer).value).Some? &&
    Get(v, Parse(pointer).value).value.Arr? && |Get(v, Parse(pointer).value).value.items| >= OVERVIEW_MIN_ITEMS
  }

  /** What may be found from a node addressed by `start`. */
  ghost predicate FoundFrom(root: Json, start: string, found: Option<string>)
  {
    if root.Arr? then found == if |root.items| >= OVERVIEW_MIN_ITEMS then Some(start) else None
    else if found.None? then forall path :: !Reachable(root, path)
    else exists best :: IsLargest(root, best) && found.value == start + Join(best)
  }

  /** The array at `start` itself, or the largest record array below it. The
      answer is always addressable. */
  method FindCollection(value: Json, start: string) returns (found: Option<string>)
    requires WellFormed(value)
    ensures found.Some? ==> NamesArray(value, found.value)
    ensures found.Some? ==> IsWithin(start, found.value) == Some(true)
    ensures if Parse(start).Some? && Get(value, Parse(start).value).Some?
            then FoundFrom(Get(value, Parse(start).value).value, start, found) else found.None?
  {
    hide WellFormed, Reachable, Join, Parse, Get, IsLargest;
    var resolved := Resolve(value, start);
    if resolved.Err? || resolved.value.None? { return None; }
    var root := resolved.value.value;
    var segments := Parse(start).value;
    WellFormedBelow(value, segments);
    if root.Arr? {
      return if |root.items| >= OVERVIEW_MIN_ITEMS then Some(start) else None;
    }
    var best := SearchBelow(root);
    if best.None? { return None; }
    assert Reachable(root, best.value) by { LargestIsReachable(root, best.value); }
    found := Some(start + Join(best.value));
    ParseExtends(start, best.value);
    GetFactors(value, segments, best.value);
    ReachableNode(root, best.value);
    assert segments <= segments + best.value;
  }

  lemma LargestIsReachable(root: Json, best: seq<string>)
    requires IsLargest(root, best)
    ensures Reachable(root, best)
  {
  }

  lemma ReachableNode(root: Json, path: seq<string>)
    requires Reachable(root, path)
    ensures Get(root, path).Some? && Get(root, path).value.Arr? && |Get(root, path).value.items| >= OVERVIEW_MIN_ITEMS
  {
    ThroughIsGet(root, path);
  }
}
