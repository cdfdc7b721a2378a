/** Bounded intake of provider output: whole lines only, and an exact account
    of whether any is missing. */
module ProviderLines {
  import opened Common
  import opened Text

  const MAX_PROVIDER_BYTES: nat := 1024 * 1024
  const MAX_PROVIDER_LINES: nat := 10000

  // ----- text as UTF-8 -----

  function Width(c: char): (w: nat)
    ensures 1 <= w <= 4
  {
    if (c as int) < 0x80 then 1 else if (c as int) < 0x800 then 2 else if (c as int) < 0x1_0000 then 3 else 4
  }

  function Bytes(s: string): nat
  {
    if s == [] then 0 else Width(s[0]) + Bytes(s[1..])
  }

  lemma {:induction false} BytesAppend(a: string, b: string)
    ensures Bytes(a + b) == Bytes(a) + Bytes(b)
  {
    if a == [] {
      assert a + b == b;
    } else {
      assert (a + b)[1..] == a[1..] + b;
      BytesAppend(a[1..], b);
    }
  }

  lemma BytesGrow(s: string, i: nat, j: nat)
    requires i <= j <= |s|
    ensures Bytes(s[..i]) + (j - i) <= Bytes(s[..j])
  {
    assert s[..j] == s[..i] + s[i..j];
    BytesAppend(s[..i], s[i..j]);
    AtLeastOneEach(s[i..j]);
  }

  lemma {:induction false} AtLeastOneEach(s: string)
    ensures |s| <= Bytes(s)
  {
    if s != [] { AtLeastOneEach(s[1..]); }
  }

  /** How many characters the first `offset` bytes are, if they end at a
      character boundary. */
  function CharsAt(s: string, offset: nat): (r: Option<nat>)
    ensures r.Some? ==> r.value <= |s| && Bytes(s[..r.value]) == offset
  {
    if offset == 0 then Some(0)
    else if s == [] || Width(s[0]) > offset then None
    else
      match CharsAt(s[1..], offset - Width(s[0]))
      case None => None
      case Some(n) =>
        assert s[..n + 1][1..] == s[1..][..n];
        Some(n + 1)
  }

  lemma {:induction false} BoundaryFound(s: string, n: nat)
    requires n <= |s|
    ensures CharsAt(s, Bytes(s[..n])) == Some(n)
    decreases n
  {
    if n > 0 {
      assert s[..n][1..] == s[1..][..n - 1];
      BoundaryFound(s[1..], n - 1);
    }
  }

  // ----- the part of a stream that is examined -----

  /** A prefix of whole lines, or all of the text, within a byte budget. */
  predicate IsWhole(text: string, budget: nat, n: nat)
  {
    n <= |text| && (n == 0 || n == |text| || text[n - 1] == '\n') && Bytes(text[..n]) <= budget
  }

  function LargestWhole(text: string, budget: nat, n: nat): (r: nat)
    requires n <= |text|
    ensures r <= n && IsWhole(text, budget, r)
    ensures forall k :: r < k <= n ==> !IsWhole(text, budget, k)
  {
    if IsWhole(text, budget, n) then n
    else
      assert n > 0 by { assert text[..0] == []; }
      LargestWhole(text, budget, n - 1)
  }

  /** The longest such prefix. */
  function WholeCut(text: string, budget: nat): string
  {
    text[..LargestWhole(text, budget, |text|)]
  }

  lemma LargestIsUnique(text: string, budget: nat, n: nat)
    requires IsWhole(text, budget, n) && forall k :: n < k <= |text| ==> !IsWhole(text, budget, k)
    ensures WholeCut(text, budget) == text[..n]
  {
  }

  /** Position after the last newline, or 0 when there is none. */
  function AfterLastNewline(s: string): (n: nat)
    ensures n <= |s| && (n == 0 || s[n - 1] == '\n')
    ensures forall k :: n <= k < |s| ==> s[k] != '\n'
  {
    if s == [] then 0 else if s[|s| - 1] == '\n' then |s| else AfterLastNewline(s[..|s| - 1])
  }

  /** Floors the budget to a character boundary, then goes back to the last
      newline when that cuts the text. */
  method CutToLines(text: string, remaining: nat) returns (bounded: string)
    ensures bounded == WholeCut(text, remaining)
  {
    assert text[..|text|] == text;
    var end := Min(Bytes(text), remaining);
    ghost var top := end;
    while CharsAt(text, end).None?
      invariant 0 <= end <= top
      invariant forall n :: 0 <= n <= |text| && Bytes(text[..n]) <= top ==> Bytes(text[..n]) <= end
      decreases end
    {
      forall n | 0 <= n <= |text| && Bytes(text[..n]) <= top ensures Bytes(text[..n]) <= end - 1 {
        BoundaryFound(text, n);
      }
      end := SatSub(end, 1);
    }
    var chars := CharsAt(text, end).value;
    bounded := text[..chars];
    FloorIsLast(text, top, chars);
    if end < Bytes(text) && !(bounded != [] && bounded[|bounded| - 1] == '\n') {
      bounded := bounded[..AfterLastNewline(bounded)];
      assert bounded == text[..|bounded|];
    }
    assert IsCutAt(text, remaining, chars, |bounded|);
    CutIsLargest(text, remaining, chars, |bounded|);
  }

  lemma FloorIsLast(text: string, top: nat, chars: nat)
    requires chars <= |text| && Bytes(text[..chars]) <= top
    requires forall n :: 0 <= n <= |text| && Bytes(text[..n]) <= top ==> Bytes(text[..n]) <= Bytes(text[..chars])
    ensures forall n :: chars < n <= |text| ==> Bytes(text[..n]) > top
  {
    forall n | chars < n <= |text| ensures Bytes(text[..n]) > top {
      BytesGrow(text, chars, n);
    }
  }

  /** What the loop and the cut at the last newline arrive at. */
  predicate IsCutAt(text: string, remaining: nat, chars: nat, n: nat)
  {
    && n <= chars <= |text| && Bytes(text[..chars]) <= Min(Bytes(text), remaining)
    && (if Bytes(text[..chars]) < Bytes(text) && !(chars > 0 && text[chars - 1] == '\n')
        then n == AfterLastNewline(text[..chars]) else n == chars)
  }

  lemma CutIsLargest(text: string, remaining: nat, chars: nat, n: nat)
    requires IsCutAt(text, remaining, chars, n)
    requires forall k :: chars < k <= |text| ==> Bytes(text[..k]) > Min(Bytes(text), remaining)
    ensures WholeCut(text, remaining) == text[..n]
  {
    hide IsWhole, IsCutAt, Bytes, WholeCut;
    CutIsWhole(text, remaining, chars, n);
    forall k | n < k <= |text| ensures !IsWhole(text, remaining, k) {
      NoneBeyond(text, remaining, chars, n, k);
    }
    LargestIsUnique(text, remaining, n);
  }

  lemma CutIsWhole(text: string, remaining: nat, chars: nat, n: nat)
    requires IsCutAt(text, remaining, chars, n)
    ensures IsWhole(text, remaining, n)
  {
    hide Bytes;
    assert text[..|text|] == text;
    BytesGrow(text, n, chars);
    BytesGrow(text, chars, |text|);
  }

  lemma NoneBeyond(text: string, remaining: nat, chars: nat, n: nat, k: nat)
    requires IsCutAt(text, remaining, chars, n) && n < k <= |text|
    requires k > chars ==> Bytes(text[..k]) > Min(Bytes(text), remaining)
    ensures !IsWhole(text, remaining, k)
  {
    hide Bytes;
    assert text[..|text|] == text;
    BytesGrow(text, k, |text|);
    if k <= chars { assert text[..chars][k - 1] == text[k - 1]; }
  }

  // ----- whole lines -----

  datatype Stream = Stdout | Stderr

  datatype InputLine = InputLine(stream: Stream, number: nat, text: string)

  function Numbered(stream: Stream, lines: seq<string>): (r: seq<InputLine>)
    ensures |r| == |lines| && forall i :: 0 <= i < |r| ==> r[i] == InputLine(stream, i + 1, lines[i])
  {
    seq(|lines|, i requires 0 <= i < |lines| => InputLine(stream, i + 1, lines[i]))
  }

  function Capped(lines: seq<InputLine>): seq<InputLine>
  {
    lines[..Min(|lines|, MAX_PROVIDER_LINES)]
  }

  function AllLines(stdout: string, stderr: string): seq<InputLine>
  {
    Numbered(Stdout, Lines(stdout)) + Numbered(Stderr, Lines(stderr))
  }

  lemma {:induction false} IndexAtMost(s: string, c: char, n: nat)
    requires n < |s| && s[n] == c
    ensures IndexOf(s, c) <= n
  {
    if n > 0 && s[0] != c { IndexAtMost(s[1..], c, n - 1); }
  }

  lemma {:induction false} IndexInPrefix(s: string, c: char, n: nat)
    requires IndexOf(s, c) < n <= |s|
    ensures IndexOf(s[..n], c) == IndexOf(s, c)
  {
    if s[0] != c {
      IndexInPrefix(s[1..], c, n - 1);
      assert s[..n][1..] == s[1..][..n - 1];
    }
  }

  lemma LinesStep(text: string, first: nat)
    requires first == IndexOf(text, '\n') < |text|
    ensures Lines(text) == [StripCarriageReturn(text[..first])] + Lines(text[first + 1..])
  {
  }

  /** Lines split where a newline ends a prefix. */
  lemma {:induction false} LinesSplit(text: string, n: nat)
    requires n <= |text| && (n == 0 || n == |text| || text[n - 1] == '\n')
    ensures Lines(text) == Lines(text[..n]) + Lines(text[n..])
    decreases |text|
  {
    hide Lines, IndexOf, StripCarriageReturn;
    LinesOfNothing();
    if n == 0 {
      assert text[..0] == [] && text[0..] == text;
    } else if n == |text| {
      assert text[..n] == text && text[n..] == [];
    } else {
      var first := IndexOf(text, '\n');
      IndexAtMost(text, '\n', n - 1);
      IndexInPrefix(text, '\n', n);
      LinesStep(text, first);
      LinesStep(text[..n], first);
      var rest := text[first + 1..];
      LinesSplit(rest, n - first - 1);
      assert text[..n][..first] == text[..first];
      assert text[..n][first + 1..] == rest[..n - first - 1];
      assert text[n..] == rest[n - first - 1..];
    }
  }

  lemma LinesOfNothing()
    ensures Lines([]) == []
  {
  }

  lemma LinesOfSomething(text: string)
    requires text != []
    ensures Lines(text) != []
  {
  }

  /** Whole lines of the cut are the first lines of the stream, and all of them
      only when nothing was cut. */
  lemma CutLinesArePrefix(text: string, budget: nat)
    ensures var cut := WholeCut(text, budget);
            && Lines(cut) <= Lines(text)
            && (Lines(cut) == Lines(text) <==> cut == text)
            && (cut == text <==> Bytes(text) <= budget)
            && Bytes(cut) <= budget
  {
    hide Lines, LargestWhole;
    var n := LargestWhole(text, budget, |text|);
    assert text[..|text|] == text;
    LinesSplit(text, n);
    if n < |text| {
      LinesOfSomething(text[n..]);
      assert !IsWhole(text, budget, |text|);
    }
  }

  // ----- the intake -----

  /** Adds one stream to what was taken so far. */
  method TakeStream(stream: Stream, text: string, examined: nat, before: seq<InputLine>)
      returns (nowExamined: nat, lines: seq<InputLine>, hit: bool, stop: bool)
    requires examined <= MAX_PROVIDER_BYTES && |before| <= MAX_PROVIDER_LINES
    ensures var cut := WholeCut(text, MAX_PROVIDER_BYTES - examined);
            && nowExamined == examined + Bytes(cut)
            && lines == Capped(before + Numbered(stream, Lines(cut)))
            && (stop <==> examined == MAX_PROVIDER_BYTES || |before| + |Lines(cut)| > MAX_PROVIDER_LINES)
            && (hit <==> if examined == MAX_PROVIDER_BYTES then text != [] else |before| + |Lines(cut)| > MAX_PROVIDER_LINES)
  {
    hide WholeCut, Lines;
    nowExamined, lines, hit, stop := examined, before, false, false;
    var remaining := SatSub(MAX_PROVIDER_BYTES, examined);
    if remaining == 0 {
      NothingFits(text);
      return nowExamined, lines, text != [], true;
    }
    var bounded := CutToLines(text, remaining);
    nowExamined := examined + Bytes(bounded);
    var pieces := Lines(bounded);
    ghost var all := before + Numbered(stream, pieces);
    for i := 0 to |pieces|
      invariant |before| + i <= MAX_PROVIDER_LINES && !hit && !stop
      invariant lines == all[..|before| + i]
    {
      if |lines| >= MAX_PROVIDER_LINES {
        hit, stop := true, true;
        return;
      }
      lines := lines + [InputLine(stream, i + 1, pieces[i])];
    }
  }

  lemma NothingFits(text: string)
    ensures WholeCut(text, 0) == [] && Lines([]) == []
  {
    LinesOfNothing();
    AtLeastOneEach(WholeCut(text, 0));
  }

  /** A whole line of its stream, with its true number. */
  predicate IsGenuine(stdout: string, stderr: string, l: InputLine)
  {
    var source := Lines(if l.stream.Stdout? then stdout else stderr);
    0 < l.number <= |source| && l.text == source[l.number - 1]
  }

  predicate AllGenuine(stdout: string, stderr: string, lines: seq<InputLine>)
  {
    forall i :: 0 <= i < |lines| ==> IsGenuine(stdout, stderr, lines[i])
  }

  method BoundedLines(stdout: string, stderr: string) returns (lines: seq<InputLine>, total: nat, boundHit: bool)
    ensures total == Bytes(stdout) + Bytes(stderr)
    ensures |lines| <= MAX_PROVIDER_LINES && AllGenuine(stdout, stderr, lines)
    ensures var out := WholeCut(stdout, MAX_PROVIDER_BYTES);
            var err := WholeCut(stderr, MAX_PROVIDER_BYTES - Bytes(out));
            Bytes(out) + Bytes(err) <= MAX_PROVIDER_BYTES && lines == Capped(AllLines(out, err))
    ensures boundHit <==> lines != AllLines(stdout, stderr)
  {
    hide WholeCut, Lines, AllGenuine;
    total := Bytes(stdout) + Bytes(stderr);
    boundHit := total > MAX_PROVIDER_BYTES;
    ghost var out := WholeCut(stdout, MAX_PROVIDER_BYTES);
    CutLinesArePrefix(stdout, MAX_PROVIDER_BYTES);
    ghost var err := WholeCut(stderr, MAX_PROVIDER_BYTES - Bytes(out));
    CutLinesArePrefix(stderr, MAX_PROVIDER_BYTES - Bytes(out));
    NothingFits(stderr);
    assert [] + Numbered(Stdout, Lines(out)) == Numbered(Stdout, Lines(out));
    var examined, hit, stop;
    examined, lines, hit, stop := TakeStream(Stdout, stdout, 0, []);
    boundHit := boundHit || hit;
    if !stop {
      assert lines == Numbered(Stdout, Lines(out));
      examined, lines, hit, stop := TakeStream(Stderr, stderr, examined, lines);
      boundHit := boundHit || hit;
    } else {
      assert lines == Capped(AllLines(out, err));
    }
    AtLeastOneEach(stderr);
    assert boundHit <==> total > MAX_PROVIDER_BYTES || |Lines(out)| + |Lines(err)| > MAX_PROVIDER_LINES;
    CappedIsGenuine(stdout, stderr, out, err);
    HitIsExact(stdout, stderr);
  }

  lemma CappedIsGenuine(stdout: string, stderr: string, out: string, err: string)
    requires Lines(out) <= Lines(stdout) && Lines(err) <= Lines(stderr)
    ensures AllGenuine(stdout, stderr, Capped(AllLines(out, err)))
  {
    hide Lines;
    var lines, n := Capped(AllLines(out, err)), |Lines(out)|;
    forall i | 0 <= i < |lines| ensures IsGenuine(stdout, stderr, lines[i]) {
      if i < n {
        assert lines[i] == InputLine(Stdout, i + 1, Lines(out)[i]);
      } else {
        assert lines[i] == InputLine(Stderr, i - n + 1, Lines(err)[i - n]);
      }
    }
  }

  /** Lines are missing exactly when the streams exceed the byte bound or what
      was cut from them the line bound. */
  lemma HitIsExact(stdout: string, stderr: string)
    ensures var out := WholeCut(stdout, MAX_PROVIDER_BYTES);
            var err := WholeCut(stderr, MAX_PROVIDER_BYTES - Bytes(out));
            Capped(AllLines(out, err)) != AllLines(stdout, stderr) <==>
            Bytes(stdout) + Bytes(stderr) > MAX_PROVIDER_BYTES || |Lines(out)| + |Lines(err)| > MAX_PROVIDER_LINES
  {
    hide Lines, WholeCut;
    var out := WholeCut(stdout, MAX_PROVIDER_BYTES);
    CutLinesArePrefix(stdout, MAX_PROVIDER_BYTES);
    var err := WholeCut(stderr, MAX_PROVIDER_BYTES - Bytes(out));
    CutLinesArePrefix(stderr, MAX_PROVIDER_BYTES - Bytes(out));
    if Bytes(stdout) + Bytes(stderr) > MAX_PROVIDER_BYTES {
      assert out != stdout || err != stderr;
      assert |AllLines(out, err)| < |AllLines(stdout, stderr)|;
    } else {
      assert out == stdout && err == stderr;
    }
  }
}
