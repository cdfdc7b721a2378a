/** JSON Pointer text (sections 3 and 4 of RFC 6901): escaping, splitting,
    joining, and the containment test that bounds every expansion. */
module Pointer {
  import opened Common
  import opened Json

  // ----- text replacement -----

  /** `str::replace`: leftmost, non-overlapping occurrences of `pattern`. */
  function Replace(s: string, pattern: string, replacement: string): string
    requires pattern != []
  {
    if |s| < |pattern| then s
    else if pattern <= s then replacement + Replace(s[|pattern|..], pattern, replacement)
    else [s[0]] + Replace(s[1..], pattern, replacement)
  }

  function Escape(token: string): string
  {
    Replace(Replace(token, "~", "~0"), "/", "~1")
  }

  function Unescape(token: string): string
  {
    Replace(Replace(token, "~1", "/"), "~0", "~")
  }

  /** The escaped form of one character. */
  function EscapeChar(c: char): string
  {
    if c == '~' then "~0" else if c == '/' then "~1" else [c]
  }

  /** A character that cannot start the pattern is copied. */
  lemma ReplaceSkips(c: char, s: string, pattern: string, replacement: string)
    requires pattern != [] && c != pattern[0]
    ensures Replace([c] + s, pattern, replacement) == [c] + Replace(s, pattern, replacement)
  {
    var u := [c] + s;
    assert u[0] == c && u[1..] == s;
    if |u| < |pattern| {
      assert |s| < |pattern|;
    }
  }

  lemma ReplaceHits(s: string, pattern: string, replacement: string)
    requires pattern != []
    ensures Replace(pattern + s, pattern, replacement) == replacement + Replace(s, pattern, replacement)
  {
    assert (pattern + s)[|pattern|..] == s;
  }

  lemma EscapeCons(c: char, rest: string)
    ensures Escape([c] + rest) == EscapeChar(c) + Escape(rest)
  {
    var inner := Replace(rest, "~", "~0");
    if c == '~' {
      ReplaceHits(rest, "~", "~0");
      ReplaceSkips('~', "0" + inner, "/", "~1");
      ReplaceSkips('0', inner, "/", "~1");
      assert "~" + ("0" + inner) == "~0" + inner;
      assert "~" + ("0" + Replace(inner, "/", "~1")) == "~0" + Replace(inner, "/", "~1");
    } else {
      ReplaceSkips(c, rest, "~", "~0");
      if c == '/' {
        ReplaceHits(inner, "/", "~1");
      } else {
        ReplaceSkips(c, inner, "/", "~1");
      }
    }
  }

  /** Undoing the escapes of an escaped character leaves the character. */
  lemma UnescapeEscapedChar(c: char, rest: string)
    ensures Unescape(EscapeChar(c) + rest) == [c] + Unescape(rest)
  {
    var inner := Replace(rest, "~1", "/");
    if c == '~' {
      var t := "~0" + rest;
      assert t[1..] == "0" + rest && !("~1" <= t) by { assert t[1] == '0'; }
      ReplaceSkips('0', rest, "~1", "/");
      assert Replace(t, "~1", "/") == "~" + ("0" + inner);
      assert "~" + ("0" + inner) == "~0" + inner;
      ReplaceHits(inner, "~0", "~");
    } else if c == '/' {
      ReplaceHits(rest, "~1", "/");
      ReplaceSkips('/', inner, "~0", "~");
    } else {
      ReplaceSkips(c, rest, "~1", "/");
      ReplaceSkips(c, inner, "~0", "~");
    }
  }

  lemma {:induction false} UnescapeEscape(token: string)
    ensures Unescape(Escape(token)) == token
  {
    if token == [] {
      assert Escape(token) == [];
    } else {
      EscapeCons(token[0], token[1..]);
      assert token == [token[0]] + token[1..];
      UnescapeEscapedChar(token[0], Escape(token[1..]));
      UnescapeEscape(token[1..]);
    }
  }

  lemma {:induction false} EscapeHasNoSlash(token: string)
    ensures '/' !in Escape(token)
  {
    if token != [] {
      EscapeCons(token[0], token[1..]);
      assert token == [token[0]] + token[1..];
      EscapeHasNoSlash(token[1..]);
    }
  }

  // ----- splitting and parsing -----

  /** `split('/')`: always at least one piece. */
  function Split(s: string): (pieces: seq<string>)
    ensures |pieces| > 0
  {
    if s == [] then [[]]
    else
      var rest := Split(s[1..]);
      if s[0] == '/' then [[]] + rest else [[s[0]] + rest[0]] + rest[1..]
  }

  lemma {:induction false} SplitAtSlash(a: string, b: string)
    ensures Split(a + "/" + b) == Split(a) + Split(b)
  {
    var s := a + "/" + b;
    if a == [] {
      assert s[1..] == b;
      assert [[]] + Split(b) == Split(a) + Split(b);
    } else {
      assert s[1..] == a[1..] + "/" + b;
      SplitAtSlash(a[1..], b);
    }
  }

  lemma {:induction false} SplitSingle(s: string)
    requires '/' !in s
    ensures Split(s) == [s]
  {
    if s != [] {
      SplitSingle(s[1..]);
      assert s == [s[0]] + s[1..];
    }
  }

  lemma {:induction false} SplitPieces(s: string)
    ensures forall piece <- Split(s) :: '/' !in piece
  {
    if s != [] {
      SplitPieces(s[1..]);
    }
  }

  function UnescapeAll(pieces: seq<string>): (r: seq<string>)
    ensures |r| == |pieces|
    ensures forall i :: 0 <= i < |r| ==> r[i] == Unescape(pieces[i])
  {
    seq(|pieces|, i requires 0 <= i < |pieces| => Unescape(pieces[i]))
  }

  /** Unescaped segments, or `None` for text that is neither empty nor begins
      with `/`. */
  function Parse(pointer: string): Option<seq<string>>
  {
    if pointer == [] then Some([])
    else if pointer[0] != '/' then None
    else Some(UnescapeAll(Split(pointer[1..])))
  }

  function Push(pointer: string, segment: string): string
  {
    pointer + "/" + Escape(segment)
  }

  function Join(segments: seq<string>): string
  {
    if segments == [] then []
    else "/" + Escape(segments[0]) + Join(segments[1..])
  }

  /** The loop that builds a pointer one segment at a time. */
  method JoinSegments(segments: seq<string>) returns (out: string)
    ensures out == Join(segments)
    ensures Parse(out) == Some(segments)
  {
    out := [];
    for i := 0 to |segments|
      invariant out == Join(segments[..i])
    {
      JoinAppend(segments[..i], [segments[i]]);
      assert segments[..i] + [segments[i]] == segments[..i + 1];
      out := out + "/" + Escape(segments[i]);
      assert Join([segments[i]]) == "/" + Escape(segments[i]);
    }
    assert segments[..|segments|] == segments;
    ParseJoin(segments);
  }

  lemma {:induction false} JoinAppend(a: seq<string>, b: seq<string>)
    ensures Join(a + b) == Join(a) + Join(b)
  {
    if a == [] {
      assert a + b == b;
    } else {
      assert (a + b)[1..] == a[1..] + b;
      JoinAppend(a[1..], b);
    }
  }

  lemma JoinPush(a: seq<string>, segment: string)
    ensures Join(a + [segment]) == Push(Join(a), segment)
  {
    JoinAppend(a, [segment]);
    assert Join([segment]) == "/" + Escape(segment);
  }

  lemma SplitEscaped(segment: string)
    ensures UnescapeAll(Split(Escape(segment))) == [segment]
  {
    EscapeHasNoSlash(segment);
    SplitSingle(Escape(segment));
    UnescapeEscape(segment);
  }

  lemma UnescapeAllAppend(a: seq<string>, b: seq<string>)
    ensures UnescapeAll(a + b) == UnescapeAll(a) + UnescapeAll(b)
  {
  }

  lemma ParsePush(pointer: string, segment: string)
    ensures Parse(pointer).None? ==> Parse(Push(pointer, segment)).None?
    ensures Parse(pointer).Some? ==>
              Parse(Push(pointer, segment)) == Some(Parse(pointer).value + [segment])
  {
    var e := Escape(segment);
    var pushed := pointer + "/" + e;
    SplitEscaped(segment);
    if pointer == [] {
      assert pushed[1..] == e;
      assert [] + [segment] == [segment];
    } else if pointer[0] == '/' {
      assert pushed[1..] == pointer[1..] + "/" + e;
      SplitAtSlash(pointer[1..], e);
      UnescapeAllAppend(Split(pointer[1..]), Split(e));
    }
  }

  /** Every segment list survives the trip through text. */
  lemma {:induction false} ParseJoin(segments: seq<string>)
    ensures Parse(Join(segments)) == Some(segments)
  {
    if segments != [] {
      var n := |segments| - 1;
      ParseJoin(segments[..n]);
      JoinPush(segments[..n], segments[n]);
      ParsePush(Join(segments[..n]), segments[n]);
      assert segments == segments[..n] + [segments[n]];
    }
  }

  lemma JoinInjective(a: seq<string>, b: seq<string>)
    requires Join(a) == Join(b)
    ensures a == b
  {
    ParseJoin(a);
    ParseJoin(b);
  }

  /** Two addresses under one base path are equal when their texts are. */
  lemma RelativeInjective(base: string, a: seq<string>, b: seq<string>)
    requires base + Join(a) == base + Join(b)
    ensures a == b
  {
    assert Join(a) == (base + Join(a))[|base|..];
    assert Join(b) == (base + Join(b))[|base|..];
    JoinInjective(a, b);
  }

  lemma RelativeDistinct(base: string, a: seq<string>, b: seq<string>)
    requires a != b
    ensures base + Join(a) != base + Join(b)
  {
    if base + Join(a) == base + Join(b) {
      RelativeInjective(base, a, b);
    }
  }

  lemma PushAfter(base: string, rest: seq<string>, segment: string)
    ensures base + Join(rest + [segment]) == Push(base + Join(rest), segment)
  {
    JoinPush(rest, segment);
  }

  /** Below a pushed key is below the base with the key put first. */
  lemma UnderKey(base: string, key: string, rest: seq<string>)
    ensures Push(base, key) + Join(rest) == base + Join([key] + rest)
  {
    assert ([key] + rest)[1..] == rest;
  }

  lemma {:induction false} ParseExtends(base: string, rest: seq<string>)
    requires Parse(base).Some?
    ensures Parse(base + Join(rest)) == Some(Parse(base).value + rest)
  {
    hide Parse, Join, Push;
    if rest == [] {
      JoinNothing(base);
      assert Parse(base).value + rest == Parse(base).value;
    } else {
      var front, last := rest[..|rest| - 1], rest[|rest| - 1];
      ParseExtends(base, front);
      ParsePush(base + Join(front), last);
      PushAfter(base, front, last);
      assert rest == front + [last];
      assert Parse(base).value + rest == Parse(base).value + front + [last];
    }
  }

  lemma JoinNothing(base: string)
    ensures base + Join([]) == base
  {
  }

  // ----- canonical pointers -----

  /** Section 3 of RFC 6901: a tilde is always followed by 0 or 1. */
  predicate ValidSegment(s: string)
  {
    s == [] ||
    (if s[0] == '~' then |s| >= 2 && (s[1] == '0' || s[1] == '1') && ValidSegment(s[2..])
     else ValidSegment(s[1..]))
  }

  lemma {:induction false} EscapeIsValid(token: string)
    ensures ValidSegment(Escape(token))
  {
    if token != [] {
      EscapeCons(token[0], token[1..]);
      assert token == [token[0]] + token[1..];
      EscapeIsValid(token[1..]);
      var rest := Escape(token[1..]);
      var e := EscapeChar(token[0]) + rest;
      assert e[|EscapeChar(token[0])|..] == rest;
    }
  }

  lemma {:induction false} ValidIsCanonical(s: string)
    requires '/' !in s
    ensures ValidSegment(s) <==> Escape(Unescape(s)) == s
  {
    EscapeIsValid(Unescape(s));
    if ValidSegment(s) {
      ValidRoundTrip(s);
    }
  }

  lemma {:induction false} ValidRoundTrip(s: string)
    requires '/' !in s && ValidSegment(s)
    ensures Escape(Unescape(s)) == s
  {
    if s == [] {
      assert Unescape(s) == [];
    } else {
      var c := if s[0] != '~' then s[0] else if s[1] == '0' then '~' else '/';
      var rest := s[|EscapeChar(c)|..];
      assert s == EscapeChar(c) + rest;
      UnescapeEscapedChar(c, rest);
      EscapeCons(c, Unescape(rest));
      ValidRoundTrip(rest);
    }
  }

  function JoinRaw(pieces: seq<string>): string
  {
    if pieces == [] then [] else "/" + pieces[0] + JoinRaw(pieces[1..])
  }

  lemma JoinRawCons(piece: string, rest: seq<string>)
    ensures JoinRaw([piece] + rest) == "/" + piece + JoinRaw(rest)
  {
    assert ([piece] + rest)[1..] == rest;
  }

  lemma {:induction false} JoinRawSplit(s: string)
    ensures JoinRaw(Split(s)) == "/" + s
  {
    if s == [] {
      JoinRawCons([], []);
    } else {
      JoinRawSplit(s[1..]);
      var rest := Split(s[1..]);
      if s[0] == '/' {
        JoinRawCons([], rest);
        assert "/" + [] + ("/" + s[1..]) == "/" + s;
      } else {
        assert rest == [rest[0]] + rest[1..];
        JoinRawCons(rest[0], rest[1..]);
        JoinRawCons([s[0]] + rest[0], rest[1..]);
        AfterSlash(s[1..], rest[0] + JoinRaw(rest[1..]));
        assert "/" + ([s[0]] + rest[0]) + JoinRaw(rest[1..]) == "/" + ([s[0]] + s[1..]);
        assert [s[0]] + s[1..] == s;
      }
    }
  }

  lemma AfterSlash(a: string, b: string)
    requires "/" + a == "/" + b
    ensures a == b
  {
    assert a == ("/" + a)[1..] && b == ("/" + b)[1..];
  }

  lemma {:induction false} JoinIsRaw(pieces: seq<string>)
    requires forall piece <- pieces :: '/' !in piece
    ensures Join(UnescapeAll(pieces)) == JoinRaw(pieces)
            <==> forall piece <- pieces :: ValidSegment(piece)
  {
    if pieces != [] {
      var rest := pieces[1..];
      assert UnescapeAll(pieces)[1..] == UnescapeAll(rest);
      JoinIsRaw(rest);
      ValidIsCanonical(pieces[0]);
      assert pieces == [pieces[0]] + rest;
      var e := Escape(Unescape(pieces[0]));
      assert Join(UnescapeAll(pieces)) == "/" + e + Join(UnescapeAll(rest));
      assert JoinRaw(pieces) == "/" + pieces[0] + JoinRaw(rest);
      if Join(UnescapeAll(pieces)) == JoinRaw(pieces) {
        EscapeHasNoSlash(Unescape(pieces[0]));
        FirstPieceEqual(e, Join(UnescapeAll(rest)), pieces[0], JoinRaw(rest));
      }
    }
  }

  function BeforeSlash(s: string): string
  {
    if s == [] || s[0] == '/' then [] else [s[0]] + BeforeSlash(s[1..])
  }

  lemma {:induction false} BeforeSlashOf(a: string, x: string)
    requires '/' !in a && (x == [] || x[0] == '/')
    ensures BeforeSlash(a + x) == a
  {
    if a == [] {
      assert a + x == x;
    } else {
      assert (a + x)[0] == a[0] && (a + x)[1..] == a[1..] + x;
      BeforeSlashOf(a[1..], x);
    }
  }

  lemma FirstPieceEqual(a: string, x: string, b: string, y: string)
    requires "/" + a + x == "/" + b + y
    requires '/' !in a && '/' !in b
    requires (x == [] || x[0] == '/') && (y == [] || y[0] == '/')
    ensures a == b && x == y
  {
    assert ("/" + a + x)[1..] == a + x && ("/" + b + y)[1..] == b + y;
    BeforeSlashOf(a, x);
    BeforeSlashOf(b, y);
    assert x == (a + x)[|a|..];
  }

  /** What `JsonPointer::parse` accepts. */
  predicate Canonical(pointer: string)
  {
    Parse(pointer).Some? && Join(Parse(pointer).value) == pointer
  }

  lemma CanonicalIsValidText(pointer: string)
    ensures Canonical(pointer) <==>
            pointer == [] ||
            (pointer[0] == '/' && forall piece <- Split(pointer[1..]) :: ValidSegment(piece))
  {
    if pointer != [] && pointer[0] == '/' {
      SplitPieces(pointer[1..]);
      JoinIsRaw(Split(pointer[1..]));
      JoinRawSplit(pointer[1..]);
      assert pointer == "/" + pointer[1..];
    }
  }

  /** The scanner behind `JsonPointer::parse`: an index walks each segment and
      steps over escape pairs. It accepts exactly the canonical pointers. */
  method ValidateJsonPointer(value: string) returns (ok: bool)
    ensures ok <==> Canonical(value)
  {
    hide Split, Canonical, Parse, Join;
    CanonicalIsValidText(value);
    if value == [] { return true; }
    if value[0] != '/' { return false; }
    var pieces := Split(value[1..]);
    for k := 0 to |pieces|
      invariant forall piece <- pieces[..k] :: ValidSegment(piece)
    {
      var segment := pieces[k];
      var index := 0;
      while index < |segment|
        invariant 0 <= index <= |segment|
        invariant ValidSegment(segment) <==> ValidSegment(segment[index..])
      {
        var rest := segment[index..];
        if segment[index] == '~' {
          if index + 1 >= |segment| || !(segment[index + 1] == '0' || segment[index + 1] == '1') {
            assert !ValidSegment(rest);
            assert segment in pieces;
            return false;
          }
          assert rest[2..] == segment[index + 2..];
          index := index + 2;
        } else {
          assert rest[1..] == segment[index + 1..];
          index := index + 1;
        }
      }
      assert segment[index..] == [];
      assert pieces[..k + 1] == pieces[..k] + [segment];
    }
    assert pieces[..|pieces|] == pieces;
    return true;
  }

  // ----- containment -----

  /** `is_within`: `None` stands for a parse error on either side. */
  function IsWithin(boundary: string, path: string): Option<bool>
  {
    match (Parse(boundary), Parse(path))
    case (Some(b), Some(p)) => Some(b <= p)
    case _ => None
  }

  lemma WithinIsPartialOrder(a: string, b: string, c: string)
    requires Canonical(a) && Canonical(b) && Canonical(c)
    ensures IsWithin(a, a) == Some(true)
    ensures IsWithin(a, b) == Some(true) && IsWithin(b, a) == Some(true) ==> a == b
    ensures IsWithin(a, b) == Some(true) && IsWithin(b, c) == Some(true) ==> IsWithin(a, c) == Some(true)
  {
    var sa, sb := Parse(a).value, Parse(b).value;
    if sa <= sb && sb <= sa {
      assert sa == sb;
    }
  }

  /** Antisymmetry needs canonical text: two spellings of one address. */
  lemma WithinNotAntisymmetricOnRawText()
    ensures IsWithin("/~", "/~0") == Some(true) && IsWithin("/~0", "/~") == Some(true)
    ensures "/~" != "/~0" && !Canonical("/~")
  {
    assert Split("~") == ["~"] by { SplitSingle("~"); }
    assert Split("~0") == ["~0"] by { SplitSingle("~0"); }
    assert Unescape("~") == "~";
    assert Unescape("~0") == "~" by { UnescapeEscapedChar('~', ""); assert "~0" + "" == "~0"; assert "~" + "" == "~"; }
    assert UnescapeAll(["~"]) == ["~"] == UnescapeAll(["~0"]);
    assert "/~"[1..] == "~" && "/~0"[1..] == "~0";
    CanonicalIsValidText("/~");
    assert !ValidSegment("~");
    assert "~" in Split("/~"[1..]);
  }

  /** No canonical pointer other than `a` contains `a` and is contained in it. */
  ghost predicate StandsAlone(a: string)
  {
    forall b :: Canonical(b) && IsWithin(a, b) == Some(true) && IsWithin(b, a) == Some(true) ==> a == b
  }

  /** The exact condition: a pointer shares its place with another spelling
      precisely when it is not canonical itself. */
  lemma CanonicalIffStandsAlone(a: string)
    requires Parse(a).Some?
    ensures Canonical(a) <==> StandsAlone(a)
  {
    hide Parse, Join;
    if Canonical(a) {
      forall b | Canonical(b) && IsWithin(a, b) == Some(true) && IsWithin(b, a) == Some(true) ensures a == b {
        WithinIsPartialOrder(a, b, a);
      }
    } else {
      var b := Join(Parse(a).value);
      ParseJoin(Parse(a).value);
      assert Canonical(b) && a != b;
      assert IsWithin(a, b) == Some(true) && IsWithin(b, a) == Some(true);
    }
  }

  /** Containment on text is containment of subtrees: what lies at a contained
      path lies below what is at the boundary. */
  lemma WithinSelectsSubtree(v: Json, boundary: string, path: string)
    requires IsWithin(boundary, path) == Some(true)
    ensures var b, p := Parse(boundary).value, Parse(path).value;
            Get(v, p) == (match Get(v, b) case None => None case Some(m) => Get(m, p[|b|..]))
  {
    var b, p := Parse(boundary).value, Parse(path).value;
    assert p == b + p[|b|..];
    GetFactors(v, b, p[|b|..]);
  }

  /** Resolution as a loop over a cursor. */
  method Resolve(value: Json, pointer: string) returns (r: Result<Option<Json>, string>)
    ensures Parse(pointer).None? ==> r == Err(pointer)
    ensures Parse(pointer).Some? ==> r == Ok(Get(value, Parse(pointer).value))
  {
    var parsed := Parse(pointer);
    if parsed.None? { return Err(pointer); }
    var segments := parsed.value;
    var cur := value;
    for i := 0 to |segments|
      invariant Get(value, segments) == Get(cur, segments[i..])
    {
      match Child(cur, segments[i]) {
        case None => return Ok(None);
        case Some(next) => cur := next;
      }
    }
    return Ok(Some(cur));
  }
}
