/** The byte stream hashed into a cache identity: a working directory and an
    environment snapshot, every part preceded by its length. */
module CacheScope {

  type Byte = n: nat | n < 256

  type Bytes = seq<Byte>

  const U64_LIMIT: nat := 0x1_0000_0000_0000_0000

  /** `b"prog.execution_context.v1"`. */
  function Version(): Bytes
  {
    [112, 114, 111, 103, 46, 101, 120, 101, 99, 117, 116, 105, 111, 110, 95,
     99, 111, 110, 116, 101, 120, 116, 46, 118, 49]
  }

  // ----- the environment snapshot: a map iterated in key order -----

  datatype Entry = Entry(key: Bytes, value: Bytes)

  predicate Before(a: Bytes, b: Bytes)
  {
    b != [] && (a == [] || a[0] < b[0] || (a[0] == b[0] && Before(a[1..], b[1..])))
  }

  lemma {:induction false} BeforeIsTotal(a: Bytes, b: Bytes)
    ensures Before(a, b) || Before(b, a) || a == b
    ensures !(Before(a, b) && Before(b, a))
    decreases |a|
  {
    if a != [] && b != [] {
      BeforeIsTotal(a[1..], b[1..]);
      assert a == [a[0]] + a[1..] && b == [b[0]] + b[1..];
    }
  }

  lemma {:induction false} BeforeIsTransitive(a: Bytes, b: Bytes, c: Bytes)
    requires Before(a, b) && Before(b, c)
    ensures Before(a, c)
    decreases |a|
  {
    if a != [] && a[0] == b[0] == c[0] { BeforeIsTransitive(a[1..], b[1..], c[1..]); }
  }

  predicate InKeyOrder(es: seq<Entry>)
  {
    forall i, j :: 0 <= i < j < |es| ==> Before(es[i].key, es[j].key)
  }

  /** `BTreeMap::insert`: in key order, a known key keeps its place. */
  function Insert(es: seq<Entry>, key: Bytes, value: Bytes): seq<Entry>
  {
    if es == [] || Before(key, es[0].key) then [Entry(key, value)] + es
    else if es[0].key == key then [Entry(key, value)] + es[1..]
    else [es[0]] + Insert(es[1..], key, value)
  }

  /** The map collected from a process's variables. */
  function Collect(vars: seq<Entry>): seq<Entry>
  {
    if vars == [] then []
    else
      var last := vars[|vars| - 1];
      Insert(Collect(vars[..|vars| - 1]), last.key, last.value)
  }

  /** What the variables mean: the last setting of a name counts. */
  function Meaning(vars: seq<Entry>): map<Bytes, Bytes>
  {
    if vars == [] then map[]
    else
      var last := vars[|vars| - 1];
      Meaning(vars[..|vars| - 1])[last.key := last.value]
  }

  /** The value a list in key order gives a key. */
  function Find(es: seq<Entry>, key: Bytes): (i: nat)
    ensures i <= |es|
    ensures i < |es| ==> es[i].key == key
    ensures forall k :: 0 <= k < i ==> es[k].key != key
  {
    if es == [] || es[0].key == key then 0 else 1 + Find(es[1..], key)
  }

  ghost predicate Represents(es: seq<Entry>, m: map<Bytes, Bytes>)
  {
    && InKeyOrder(es)
    && (forall e <- es :: e.key in m && m[e.key] == e.value)
    && (forall k <- m :: Entry(k, m[k]) in es)
  }

  lemma {:induction false} InsertKeepsMembers(es: seq<Entry>, key: Bytes, value: Bytes)
    requires InKeyOrder(es)
    ensures forall e :: e in Insert(es, key, value) <==> e == Entry(key, value) || (e in es && e.key != key)
    ensures InKeyOrder(Insert(es, key, value))
  {
    if es != [] {
      var tail := es[1..];
      assert es == [es[0]] + tail;
      forall e | e in tail ensures Before(es[0].key, e.key) && e.key != es[0].key {
        var j :| 0 <= j < |tail| && tail[j] == e;
        assert es[j + 1] == e;
        BeforeIsTotal(es[0].key, e.key);
      }
      BeforeIsTotal(key, es[0].key);
      if Before(key, es[0].key) {
        forall e | e in es ensures Before(key, e.key) && e.key != key {
          if e != es[0] { BeforeIsTransitive(key, es[0].key, e.key); }
          BeforeIsTotal(key, e.key);
        }
        InFront(Entry(key, value), es);
      } else if es[0].key == key {
        InFront(Entry(key, value), tail);
      } else {
        InsertKeepsMembers(tail, key, value);
        InFront(es[0], Insert(tail, key, value));
      }
    }
  }

  lemma InFront(e: Entry, es: seq<Entry>)
    requires InKeyOrder(es) && forall x <- es :: Before(e.key, x.key)
    ensures InKeyOrder([e] + es)
  {
    forall i, j | 0 <= i < j < |[e] + es| ensures Before(([e] + es)[i].key, ([e] + es)[j].key) {
      if i == 0 { assert es[j - 1] in es; } else { assert Before(es[i - 1].key, es[j - 1].key); }
    }
  }

  lemma {:induction false} CollectRepresents(vars: seq<Entry>)
    ensures Represents(Collect(vars), Meaning(vars))
  {
    if vars != [] {
      var before, last := vars[..|vars| - 1], vars[|vars| - 1];
      CollectRepresents(before);
      InsertKeepsMembers(Collect(before), last.key, last.value);
    }
  }

  /** A map has only one list in key order. */
  lemma {:induction false} OneListPerMap(a: seq<Entry>, b: seq<Entry>, m: map<Bytes, Bytes>)
    requires Represents(a, m) && Represents(b, m)
    ensures a == b
    decreases |a|
  {
    hide Before, InKeyOrder, Represents;
    SameMembers(a, b, m);
    SameMembers(b, a, m);
    if a != [] {
      assert a[0] in a && b[0] in b;
      FirstIsLeast(a, b, m);
      FirstIsLeast(b, a, m);
      BeforeIsTotal(a[0].key, b[0].key);
      Behead(a, m);
      Behead(b, m);
      OneListPerMap(a[1..], b[1..], m - {a[0].key});
      assert a == [a[0]] + a[1..] && b == [b[0]] + b[1..];
    }
  }

  lemma SameMembers(a: seq<Entry>, b: seq<Entry>, m: map<Bytes, Bytes>)
    requires Represents(a, m) && Represents(b, m)
    ensures forall e <- a :: e in b
    ensures a != [] ==> b != []
  {
    forall e | e in a ensures e in b { assert Entry(e.key, m[e.key]) in b; }
    if a != [] { assert a[0] in a; }
  }

  lemma FirstIsLeast(a: seq<Entry>, b: seq<Entry>, m: map<Bytes, Bytes>)
    requires Represents(a, m) && a != [] && b != [] && b[0] in a
    ensures a[0] == b[0] || Before(a[0].key, b[0].key)
  {
    var j :| 0 <= j < |a| && a[j] == b[0];
    if j > 0 { assert Before(a[0].key, a[j].key); }
  }

  lemma Behead(es: seq<Entry>, m: map<Bytes, Bytes>)
    requires Represents(es, m) && es != []
    ensures Represents(es[1..], m - {es[0].key})
  {
    var tail := es[1..];
    assert es == [es[0]] + tail;
    forall e | e in tail ensures e.key != es[0].key {
      var j :| 0 <= j < |tail| && tail[j] == e;
      assert Before(es[0].key, es[j + 1].key);
      BeforeIsTotal(es[0].key, es[0].key);
    }
  }

  // ----- the stream -----

  function Pow256(k: nat): nat { if k == 0 then 1 else 256 * Pow256(k - 1) }

  /** The lowest `k` bytes of a number, most significant first. */
  function BigEndian(n: nat, k: nat): (r: Bytes)
    ensures |r| == k
  {
    if k == 0 then [] else BigEndian(n / 256, k - 1) + [n % 256]
  }

  lemma {:induction false} BigEndianInjective(a: nat, b: nat, k: nat)
    requires a < Pow256(k) && b < Pow256(k) && BigEndian(a, k) == BigEndian(b, k)
    ensures a == b
    decreases k
  {
    if k > 0 {
      var x, y := BigEndian(a, k), BigEndian(b, k);
      assert x[..k - 1] == BigEndian(a / 256, k - 1) && y[..k - 1] == BigEndian(b / 256, k - 1);
      assert x[k - 1] == a % 256 && y[k - 1] == b % 256;
      BigEndianInjective(a / 256, b / 256, k - 1);
    }
  }

  lemma EightBytesHoldU64()
    ensures Pow256(8) == U64_LIMIT
  {
    assert Pow256(4) == 0x1_0000_0000;
    assert Pow256(8) == 256 * 256 * 256 * 256 * Pow256(4);
  }

  function Part(bytes: Bytes): Bytes { BigEndian(|bytes|, 8) + bytes }

  function EntryPart(e: Entry): Bytes { Part(e.key) + Part(e.value) }

  function EntryParts(es: seq<Entry>): Bytes
  {
    if es == [] then [] else EntryPart(es[0]) + EntryParts(es[1..])
  }

  datatype ExecutionContext = ExecutionContext(workingDir: Bytes, environment: seq<Entry>)

  function Stream(c: ExecutionContext): Bytes
  {
    Version() + Part(c.workingDir) + BigEndian(|c.environment|, 8) + EntryParts(c.environment)
  }

  class Hasher {
    var fed: Bytes

    constructor ()
      ensures fed == []
    {
      fed := [];
    }

    method Update(bytes: Bytes)
      modifies this
      ensures fed == old(fed) + bytes
    {
      fed := fed + bytes;
    }
  }

  method HashPart(hash: Hasher, bytes: Bytes)
    modifies hash
    ensures hash.fed == old(hash.fed) + Part(bytes)
  {
    hash.Update(BigEndian(|bytes|, 8));
    hash.Update(bytes);
  }

  lemma OneEntryOn(es: seq<Entry>, i: nat, fed: Bytes)
    requires i < |es|
    ensures fed + EntryParts(es[i..]) == fed + Part(es[i].key) + Part(es[i].value) + EntryParts(es[i + 1..])
  {
    hide Part;
    assert es[i..][0] == es[i] && es[i..][1..] == es[i + 1..];
  }

  /** `digest` stands for the finished hash in hexadecimal. */
  method CacheScopeOf(context: ExecutionContext, digest: Bytes -> string) returns (scope: string)
    ensures scope == digest(Stream(context))
  {
    hide Version, Part, BigEndian, EntryPart;
    var hash := new Hasher();
    hash.Update(Version());
    HashPart(hash, context.workingDir);
    hash.Update(BigEndian(|context.environment|, 8));
    assert [] + Version() == Version();
    assert context.environment[0..] == context.environment;
    for i := 0 to |context.environment|
      invariant hash.fed + EntryParts(context.environment[i..]) == Stream(context)
    {
      OneEntryOn(context.environment, i, hash.fed);
      HashPart(hash, context.environment[i].key);
      HashPart(hash, context.environment[i].value);
    }
    assert hash.fed + [] == hash.fed;
    scope := digest(hash.fed);
  }

  // ----- the stream identifies the context -----

  predicate Fits(bytes: Bytes) { |bytes| < U64_LIMIT }

  predicate AllFit(es: seq<Entry>)
  {
    |es| < U64_LIMIT && forall e <- es :: Fits(e.key) && Fits(e.value)
  }

  /** A length-prefixed part can be told from whatever follows it. */
  lemma PartIsSelfDelimiting(a: Bytes, b: Bytes, s: Bytes, t: Bytes)
    requires Fits(a) && Fits(b) && Part(a) + s == Part(b) + t
    ensures a == b && s == t
  {
    var x, y := Part(a) + s, Part(b) + t;
    EightBytesHoldU64();
    assert x[..8] == BigEndian(|a|, 8) && y[..8] == BigEndian(|b|, 8);
    BigEndianInjective(|a|, |b|, 8);
    assert x[8..8 + |a|] == a && y[8..8 + |b|] == b;
    assert x[8 + |a|..] == s && y[8 + |b|..] == t;
  }

  lemma EntryIsSelfDelimiting(a: Entry, b: Entry, s: Bytes, t: Bytes)
    requires Fits(a.key) && Fits(a.value) && Fits(b.key) && Fits(b.value) && EntryPart(a) + s == EntryPart(b) + t
    ensures a == b && s == t
  {
    hide Part;
    assert EntryPart(a) + s == Part(a.key) + (Part(a.value) + s);
    assert EntryPart(b) + t == Part(b.key) + (Part(b.value) + t);
    PartIsSelfDelimiting(a.key, b.key, Part(a.value) + s, Part(b.value) + t);
    PartIsSelfDelimiting(a.value, b.value, s, t);
  }

  lemma {:induction false} EntriesInjective(a: seq<Entry>, b: seq<Entry>)
    requires |a| == |b| && AllFit(a) && AllFit(b) && EntryParts(a) == EntryParts(b)
    ensures a == b
  {
    hide EntryPart;
    if a != [] {
      assert a[0] in a && b[0] in b;
      EntryIsSelfDelimiting(a[0], b[0], EntryParts(a[1..]), EntryParts(b[1..]));
      EntriesInjective(a[1..], b[1..]);
      assert a == [a[0]] + a[1..] && b == [b[0]] + b[1..];
    }
  }

  lemma StreamInjective(a: ExecutionContext, b: ExecutionContext)
    requires Fits(a.workingDir) && Fits(b.workingDir) && AllFit(a.environment) && AllFit(b.environment)
    requires Stream(a) == Stream(b)
    ensures a == b
  {
    hide Part, EntryParts, BigEndian, Version;
    var s := BigEndian(|a.environment|, 8) + EntryParts(a.environment);
    var t := BigEndian(|b.environment|, 8) + EntryParts(b.environment);
    assert Stream(a) == Version() + (Part(a.workingDir) + s) && Stream(b) == Version() + (Part(b.workingDir) + t);
    SamePrefix(Version(), Part(a.workingDir) + s, Part(b.workingDir) + t);
    PartIsSelfDelimiting(a.workingDir, b.workingDir, s, t);
    EightBytesHoldU64();
    assert s[..8] == BigEndian(|a.environment|, 8) && t[..8] == BigEndian(|b.environment|, 8);
    assert s[8..] == EntryParts(a.environment) && t[8..] == EntryParts(b.environment);
    BigEndianInjective(|a.environment|, |b.environment|, 8);
    EntriesInjective(a.environment, b.environment);
  }

  lemma SamePrefix(p: Bytes, s: Bytes, t: Bytes)
    requires p + s == p + t
    ensures s == t
  {
    assert (p + s)[|p|..] == s && (p + t)[|p|..] == t;
  }

  /** Two processes feed the hash the same bytes exactly when they have the same
      working directory and the same environment, in whatever order and however
      often its variables were set. */
  lemma SameStreamSameContext(dirA: Bytes, varsA: seq<Entry>, dirB: Bytes, varsB: seq<Entry>)
    requires Fits(dirA) && Fits(dirB) && AllFit(Collect(varsA)) && AllFit(Collect(varsB))
    ensures Stream(ExecutionContext(dirA, Collect(varsA))) == Stream(ExecutionContext(dirB, Collect(varsB)))
       <==> dirA == dirB && Meaning(varsA) == Meaning(varsB)
  {
    hide Stream, Collect, Meaning;
    var a, b := ExecutionContext(dirA, Collect(varsA)), ExecutionContext(dirB, Collect(varsB));
    CollectRepresents(varsA);
    CollectRepresents(varsB);
    if Meaning(varsA) == Meaning(varsB) {
      OneListPerMap(Collect(varsA), Collect(varsB), Meaning(varsA));
    }
    if Stream(a) == Stream(b) {
      StreamInjective(a, b);
      OneMapPerList(Collect(varsA), Meaning(varsA), Meaning(varsB));
    }
  }

  lemma OneMapPerList(es: seq<Entry>, m: map<Bytes, Bytes>, n: map<Bytes, Bytes>)
    requires Represents(es, m) && Represents(es, n)
    ensures m == n
  {
    forall k ensures k in m <==> k in n {
      if k in m { assert Entry(k, m[k]) in es; }
      if k in n { assert Entry(k, n[k]) in es; }
    }
    forall k | k in m ensures m[k] == n[k] { assert Entry(k, m[k]) in es; }
  }
}
