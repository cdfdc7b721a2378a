/** Command templates: which arguments a call must bring, and what becomes of
    the text around and inside the placeholders. */
module Template {
  import opened Common
  import opened Json
  import opened Text

  datatype ArgError =
    | BadSchema
    | BadArgs(missing: set<string>, unknown: set<string>)
    | MissingArg(name: string)
    | NullArg(name: string)
    | NotScalar(name: string)

  // ----- placeholders -----

  predicate IsNameStart(c: char) { c == '_' || 'a' <= c <= 'z' || 'A' <= c <= 'Z' }

  predicate IsNamePart(c: char) { IsNameStart(c) || IsDigit(c) }

  predicate IsPlaceholderName(name: string)
  {
    name != [] && IsNameStart(name[0]) && forall i :: 1 <= i < |name| ==> IsNamePart(name[i])
  }

  /** A template is plain text, placeholders, and braces around anything else. */
  datatype Piece = Plain(text: string) | Slot(name: string) | Braced(inner: string)

  function Hole(inner: string): Piece
  {
    if IsPlaceholderName(inner) then Slot(inner) else Braced(inner)
  }

  /** The text a piece was read from. */
  function Raw(p: Piece): string
  {
    match p
    case Plain(text) => text
    case Slot(name) => "{" + name + "}"
    case Braced(inner) => "{" + inner + "}"
  }

  function RawAll(ps: seq<Piece>): string
  {
    if ps == [] then [] else Raw(ps[0]) + RawAll(ps[1..])
  }

  /** Up to the first brace, from there to the first closing one, and on. */
  function Pieces(t: string): seq<Piece>
    decreases |t|
  {
    var start := IndexOf(t, '{');
    if start == |t| then [Plain(t)]
    else
      var after := t[start + 1..];
      var end := IndexOf(after, '}');
      if end == |after| then [Plain(t)]
      else [Plain(t[..start]), Hole(after[..end])] + Pieces(after[end + 1..])
  }

  lemma PiecesStep(t: string, start: nat, end: nat)
    requires start == IndexOf(t, '{') < |t| && end == IndexOf(t[start + 1..], '}') < |t[start + 1..]|
    ensures Pieces(t) == [Plain(t[..start]), Hole(t[start + 1..][..end])] + Pieces(t[start + 1..][end + 1..])
  {
    hide IndexOf, Hole;
  }

  lemma AroundHole(t: string, start: nat, end: nat)
    requires start < |t| && t[start] == '{' && end < |t[start + 1..]| && t[start + 1..][end] == '}'
    ensures t == t[..start] + ("{" + t[start + 1..][..end] + "}" + t[start + 1..][end + 1..])
  {
  }

  /** Nothing of the template is lost or made up by taking it apart. */
  lemma {:induction false} PiecesKeepText(t: string)
    ensures RawAll(Pieces(t)) == t
    decreases |t|
  {
    hide IndexOf;
    var start := IndexOf(t, '{');
    if start == |t| || IndexOf(t[start + 1..], '}') == |t[start + 1..]| {
      assert Pieces(t)[1..] == [];
    } else {
      var end := IndexOf(t[start + 1..], '}');
      PiecesStep(t, start, end);
      AroundHole(t, start, end);
      var rest := t[start + 1..][end + 1..];
      PiecesKeepText(rest);
      RawOfTwo(Plain(t[..start]), Hole(t[start + 1..][..end]), Pieces(rest));
    }
  }

  lemma RawOfTwo(a: Piece, b: Piece, rest: seq<Piece>)
    ensures RawAll([a, b] + rest) == Raw(a) + (Raw(b) + RawAll(rest))
  {
    assert ([a, b] + rest)[1..] == [b] + rest;
    assert ([b] + rest)[1..] == rest;
  }

  // ----- rendering -----

  /** `nt` is the text of a number. */
  function ArgToString(name: string, value: Json, nt: Number -> string): Result<string, ArgError>
  {
    match value
    case Str(s) => Ok(s)
    case Num(n) => Ok(nt(n))
    case Bool(b) => Ok(if b then "true" else "false")
    case Null => Err(NullArg(name))
    case _ => Err(NotScalar(name))
  }

  function RenderPiece(p: Piece, args: seq<Member>, nt: Number -> string): Result<string, ArgError>
  {
    if p.Slot? then
      match Lookup(args, p.name)
      case None => Err(MissingArg(p.name))
      case Some(value) => ArgToString(p.name, value, nt)
    else Ok(Raw(p))
  }

  function Before(prefix: string, r: Result<string, ArgError>): Result<string, ArgError>
  {
    if r.Ok? then Ok(prefix + r.value) else r
  }

  /** Every piece on its own: only placeholders change, and what they become is
      not looked at again. */
  function Render(ps: seq<Piece>, args: seq<Member>, nt: Number -> string): Result<string, ArgError>
  {
    if ps == [] then Ok([])
    else
      match RenderPiece(ps[0], args, nt)
      case Err(error) => Err(error)
      case Ok(text) => Before(text, Render(ps[1..], args, nt))
  }

  lemma RenderTwo(a: string, b: Piece, rest: seq<Piece>, args: seq<Member>, nt: Number -> string)
    ensures var piece := RenderPiece(b, args, nt);
            Render([Plain(a), b] + rest, args, nt) ==
            if piece.Err? then piece else Before(a + piece.value, Render(rest, args, nt))
  {
    assert ([Plain(a), b] + rest)[1..] == [b] + rest;
    assert ([b] + rest)[1..] == rest;
    if RenderPiece(b, args, nt).Ok? && Render(rest, args, nt).Ok? {
      assert a + (RenderPiece(b, args, nt).value + Render(rest, args, nt).value) ==
             a + RenderPiece(b, args, nt).value + Render(rest, args, nt).value;
    }
  }

  lemma RenderPlain(t: string, args: seq<Member>, nt: Number -> string)
    ensures Render([Plain(t)], args, nt) == Ok(t)
  {
    assert [Plain(t)][1..] == [] && t + [] == t;
  }

  lemma OnePiece(t: string)
    requires IndexOf(t, '{') == |t| || IndexOf(t[IndexOf(t, '{') + 1..], '}') == |t[IndexOf(t, '{') + 1..]|
    ensures Pieces(t) == [Plain(t)]
  {
    hide IndexOf;
  }

  lemma BeforeTwice(a: string, b: string, r: Result<string, ArgError>)
    ensures Before(a, Before(b, r)) == Before(a + b, r)
  {
    if r.Ok? { assert a + (b + r.value) == a + b + r.value; }
  }

  lemma BeforeNothing(r: Result<string, ArgError>)
    ensures Before("", r) == r
  {
    if r.Ok? { assert "" + r.value == r.value; }
  }

  method SubstituteTemplate(template: string, args: seq<Member>, nt: Number -> string)
      returns (r: Result<string, ArgError>)
    ensures r == Render(Pieces(template), args, nt)
  {
    hide IndexOf, Render, Pieces, Lookup, IsPlaceholderName;
    BeforeNothing(Render(Pieces(template), args, nt));
    var output, rest := "", template;
    ghost var whole := Render(Pieces(template), args, nt);
    while IndexOf(rest, '{') < |rest|
      invariant whole == Before(output, Render(Pieces(rest), args, nt))
      decreases |rest|
    {
      var start := IndexOf(rest, '{');
      var after := rest[start + 1..];
      var end := IndexOf(after, '}');
      ghost var before, plain := output, rest[..start];
      output := output + rest[..start];
      if end == |after| {
        OnePiece(rest);
        RenderPlain(rest, args, nt);
        output := output + rest[start..];
        assert output == before + rest;
        return Ok(output);
      }
      var name := after[..end];
      PiecesStep(rest, start, end);
      RenderTwo(plain, Hole(name), Pieces(after[end + 1..]), args, nt);
      if RenderPiece(Hole(name), args, nt).Ok? {
        BeforeTwice(before, plain + RenderPiece(Hole(name), args, nt).value, Render(Pieces(after[end + 1..]), args, nt));
      }
      if IsPlaceholderName(name) {
        var value := Lookup(args, name);
        if value.None? { return Err(MissingArg(name)); }
        var text := ArgToString(name, value.value, nt);
        if text.Err? { return text; }
        output := output + text.value;
      } else {
        output := output + ("{" + name + "}");
      }
      rest := after[end + 1..];
      assert output == before + (plain + RenderPiece(Hole(name), args, nt).value);
    }
    OnePiece(rest);
    RenderPlain(rest, args, nt);
    r := Ok(output + rest);
  }

  /** `{name}` stands at `p` and is replaced there. */
  predicate SlotAt(ps: seq<Piece>, p: int, name: string)
  {
    ps != [] && ((p == 0 && ps[0] == Slot(name)) || SlotAt(ps[1..], p - |Raw(ps[0])|, name))
  }

  /** No brace is open: none was opened since the text began or since some
      closing brace. */
  ghost predicate OutsideBraces(t: string, p: nat)
    requires p <= |t|
  {
    exists j :: StartsClean(t, j, p)
  }

  predicate StartsClean(t: string, j: int, p: nat)
    requires p <= |t|
  {
    0 <= j <= p && (j == 0 || t[j - 1] == '}') && '{' !in t[j..p]
  }

  lemma {:induction false} SlotAtNonNegative(ps: seq<Piece>, p: int, name: string)
    requires SlotAt(ps, p, name)
    ensures p >= 0
  {
    if !(p == 0 && ps[0] == Slot(name)) { SlotAtNonNegative(ps[1..], p - |Raw(ps[0])|, name); }
  }

  lemma NameHasNoBrace(name: string)
    requires IsPlaceholderName(name)
    ensures '{' !in name && '}' !in name
  {
    forall i | 0 <= i < |name| ensures name[i] != '{' && name[i] != '}' {
      if i > 0 { assert IsNamePart(name[i]); }
    }
  }

  lemma {:induction false} FirstOccurrence(s: string, c: char, n: nat)
    requires n < |s| && s[n] == c
    ensures IndexOf(s, c) <= n
    ensures c !in s[..n] ==> IndexOf(s, c) == n
  {
    if n > 0 && s[0] != c {
      assert s[1..][..n - 1] == s[..n][1..];
      FirstOccurrence(s[1..], c, n - 1);
    } else if n > 0 {
      assert s[..n][0] == c;
    }
  }

  predicate StandsAt(t: string, p: nat, name: string)
  {
    p + |name| + 2 <= |t| && t[p..p + |name| + 2] == "{" + name + "}"
  }

  /** A placeholder is replaced exactly when no brace is open before it: inside
      a brace that was opened earlier it is kept as it stands. */
  lemma {:induction false} ReplacedIffOutside(t: string, p: nat, name: string)
    requires IsPlaceholderName(name) && StandsAt(t, p, name)
    ensures SlotAt(Pieces(t), p, name) <==> OutsideBraces(t, p)
    decreases |t|
  {
    hide IndexOf, Pieces, SlotAt, OutsideBraces, IsPlaceholderName, StandsAt, Hole, StartsClean;
    var start, end := FirstHole(t, p, name);
    var after, next := t[start + 1..], start + 1 + end + 1;
    PiecesStep(t, start, end);
    SlotBeyond(Plain(t[..start]), Hole(after[..end]), Pieces(after[end + 1..]), p, name);
    HoleLength(after[..end]);
    if p == start {
      SlotOfName(name);
      OutsideText(t, p);
    } else if p < next {
      InsideHole(t, start, next, p);
      SlotNotBefore(Pieces(after[end + 1..]), p - next, name);
    } else {
      ReplacedIffOutside(after[end + 1..], p - next, name);
      OutsideShifts(t, next, p);
    }
  }

  lemma HoleLength(inner: string)
    ensures |Raw(Hole(inner))| == |inner| + 2
  {
  }

  lemma SlotOfName(name: string)
    requires IsPlaceholderName(name)
    ensures Hole(name) == Slot(name)
  {
  }

  lemma SlotNotBefore(ps: seq<Piece>, p: int, name: string)
    requires p < 0
    ensures !SlotAt(ps, p, name)
  {
    if SlotAt(ps, p, name) { SlotAtNonNegative(ps, p, name); }
  }

  lemma OutsideText(t: string, p: nat)
    requires p == IndexOf(t, '{') <= |t|
    ensures OutsideBraces(t, p)
  {
    assert t[0..p] == t[..p];
    assert StartsClean(t, 0, p);
  }

  lemma NameFollows(t: string, p: nat, name: string)
    requires StandsAt(t, p, name)
    ensures t[p] == '{' && t[p + |name| + 1] == '}' && t[p + 1..][..|name|] == name
  {
    var here := t[p..p + |name| + 2];
    assert t[p] == here[0] && t[p + |name| + 1] == here[|name| + 1];
    forall i | 0 <= i < |name| ensures t[p + 1..][..|name|][i] == name[i] {
      assert here[i + 1] == t[p + 1 + i] && here[i + 1] == ("{" + name + "}")[i + 1];
    }
  }

  lemma StandsIn(t: string, next: nat, p: nat, name: string)
    requires StandsAt(t, p, name) && next <= p
    ensures StandsAt(t[next..], p - next, name)
  {
    assert t[next..][p - next..p - next + |name| + 2] == t[p..p + |name| + 2];
  }

  /** The first hole of a text in which a placeholder stands: it is that
      placeholder, or begins before it. */
  lemma FirstHole(t: string, p: nat, name: string) returns (start: nat, end: nat)
    requires IsPlaceholderName(name) && StandsAt(t, p, name)
    ensures start == IndexOf(t, '{') <= p < |t| && t[start] == '{'
    ensures end == IndexOf(t[start + 1..], '}') < |t[start + 1..]| && t[start + 1..][end + 1..] == t[start + 1 + end + 1..]
    ensures t[start + 1 + end] == '}' && forall k :: start < k < start + 1 + end ==> t[k] != '}'
    ensures p == start ==> t[start + 1..][..end] == name
    ensures p > start + 1 + end ==> StandsAt(t[start + 1 + end + 1..], p - start - 1 - end - 1, name)
    ensures p != start + 1 + end
  {
    hide IndexOf, IsPlaceholderName;
    var close := p + |name| + 1;
    NameFollows(t, p, name);
    FirstOccurrence(t, '{', p);
    start := IndexOf(t, '{');
    var after := t[start + 1..];
    assert after[close - start - 1] == t[close];
    FirstOccurrence(after, '}', close - start - 1);
    end := IndexOf(after, '}');
    forall k | start < k < start + 1 + end ensures t[k] != '}' {
      assert after[..end][k - start - 1] == t[k];
    }
    var next := start + 1 + end + 1;
    if p == start {
      NameHasNoBrace(name);
      FirstOccurrence(after, '}', |name|);
    } else if p >= next {
      StandsIn(t, next, p, name);
    }
  }

  /** So not every placeholder that stands in a template is replaced. */
  lemma OpenBraceHidesPlaceholder()
    ensures StandsAt("{{a}", 1, "a") && IsPlaceholderName("a") && !SlotAt(Pieces("{{a}"), 1, "a")
  {
    hide Pieces, SlotAt;
    var t := "{{a}";
    assert t[1..4] == "{a}";
    ReplacedIffOutside(t, 1, "a");
    forall j ensures !StartsClean(t, j, 1) {
      if j == 0 { assert t[0..1][0] == '{'; }
    }
  }

  lemma SlotBeyond(a: Piece, b: Piece, rest: seq<Piece>, p: int, name: string)
    requires a.Plain?
    ensures SlotAt([a, b] + rest, p, name) <==>
            (p == |Raw(a)| && b == Slot(name)) || SlotAt(rest, p - |Raw(a)| - |Raw(b)|, name)
  {
    var ps := [a, b] + rest;
    assert ps[1..] == [b] + rest && ([b] + rest)[1..] == rest;
    assert SlotAt(ps, p, name) <==> SlotAt([b] + rest, p - |Raw(a)|, name);
  }

  /** Between an opening brace and the first closing one after it. */
  lemma InsideHole(t: string, start: nat, next: nat, p: nat)
    requires start < p < next <= |t| && t[start] == '{'
    requires forall k :: start < k < next - 1 ==> t[k] != '}'
    ensures !OutsideBraces(t, p)
  {
    forall j ensures !StartsClean(t, j, p) {
      if 0 <= j <= start { assert t[j..p][start - j] == '{'; }
    }
  }

  lemma OutsideShifts(t: string, next: nat, p: nat)
    requires 0 < next <= p <= |t| && t[next - 1] == '}'
    ensures OutsideBraces(t, p) <==> OutsideBraces(t[next..], p - next)
  {
    var rest := t[next..];
    if OutsideBraces(t, p) {
      var j :| StartsClean(t, j, p);
      if j >= next {
        assert rest[j - next..p - next] == t[j..p];
        assert StartsClean(rest, j - next, p - next);
      } else {
        assert t[j..p][next - j..] == t[next..p] == rest[0..p - next];
        assert StartsClean(rest, 0, p - next);
      }
    }
    if OutsideBraces(rest, p - next) {
      var j :| StartsClean(rest, j, p - next);
      assert rest[j..p - next] == t[j + next..p];
      assert StartsClean(t, j + next, p);
    }
  }

  /** Only placeholders are replaced. */
  lemma {:induction false} SlotStands(ps: seq<Piece>, p: int, name: string)
    requires SlotAt(ps, p, name)
    ensures p >= 0 && StandsAt(RawAll(ps), p, name) && Slot(name) in ps
  {
    hide StandsAt, Raw;
    SlotAtNonNegative(ps, p, name);
    if p == 0 && ps[0] == Slot(name) {
      StandsFirst(ps[0], RawAll(ps[1..]));
    } else {
      SlotAtNonNegative(ps[1..], p - |Raw(ps[0])|, name);
      SlotStands(ps[1..], p - |Raw(ps[0])|, name);
      StandsBehind(Raw(ps[0]), RawAll(ps[1..]), p - |Raw(ps[0])|, name);
    }
  }

  lemma StandsFirst(piece: Piece, rest: string)
    requires piece.Slot?
    ensures StandsAt(Raw(piece) + rest, 0, piece.name)
  {
    assert (Raw(piece) + rest)[0..|piece.name| + 2] == "{" + piece.name + "}";
  }

  lemma StandsBehind(front: string, t: string, p: nat, name: string)
    requires StandsAt(t, p, name)
    ensures StandsAt(front + t, |front| + p, name)
  {
    assert (front + t)[|front| + p..|front| + p + |name| + 2] == t[p..p + |name| + 2];
  }

  lemma {:induction false} SlotSomewhere(ps: seq<Piece>, name: string) returns (p: nat)
    requires Slot(name) in ps
    ensures SlotAt(ps, p, name)
  {
    if ps[0] == Slot(name) {
      p := 0;
    } else {
      var rest := SlotSomewhere(ps[1..], name);
      p := |Raw(ps[0])| + rest;
    }
  }

  // ----- which arguments a call must bring -----

  function SlotNames(ps: seq<Piece>): set<string>
  {
    set piece | piece in ps && piece.Slot? :: piece.name
  }

  lemma SlotNamesStep(start: string, inner: string, rest: seq<Piece>)
    ensures SlotNames([Plain(start), Hole(inner)] + rest) ==
            (if IsPlaceholderName(inner) then {inner} else {}) + SlotNames(rest)
  {
    hide IsPlaceholderName;
    var ps := [Plain(start), Hole(inner)] + rest;
    forall piece ensures piece in ps <==> piece == Plain(start) || piece == Hole(inner) || piece in rest {
      assert ps[0] == Plain(start) && ps[1] == Hole(inner) && ps[2..] == rest;
    }
    if IsPlaceholderName(inner) { assert Slot(inner) in ps; }
  }

  method CollectPlaceholders(template: string, before: set<string>) returns (names: set<string>)
    ensures names == before + SlotNames(Pieces(template))
  {
    hide IndexOf, Pieces, SlotNames, IsPlaceholderName;
    names := before;
    var rest := template;
    while IndexOf(rest, '{') < |rest|
      invariant names + SlotNames(Pieces(rest)) == before + SlotNames(Pieces(template))
      decreases |rest|
    {
      var start := IndexOf(rest, '{');
      var after := rest[start + 1..];
      var end := IndexOf(after, '}');
      if end == |after| {
        break;
      }
      var name := after[..end];
      PiecesStep(rest, start, end);
      SlotNamesStep(rest[..start], name, Pieces(after[end + 1..]));
      if IsPlaceholderName(name) {
        names := names + {name};
      }
      rest := after[end + 1..];
    }
    OnePiece(rest);
    PlainHasNoSlot(rest);
  }

  lemma PlainHasNoSlot(t: string)
    ensures SlotNames([Plain(t)]) == {}
  {
  }

  /** The collected names are those of the placeholders that get replaced. */
  lemma CollectedAreReplaced(t: string, name: string)
    ensures name in SlotNames(Pieces(t)) <==> IsPlaceholderName(name) && exists p: nat :: StandsOutside(t, p, name)
  {
    hide Pieces, OutsideBraces, IsPlaceholderName, SlotAt, StandsAt;
    PiecesKeepText(t);
    if name in SlotNames(Pieces(t)) {
      SlotsAreNames(t, name);
      var p := SlotSomewhere(Pieces(t), name);
      SlotStands(Pieces(t), p, name);
      StandsInside(t, p, name);
      ReplacedIffOutside(t, p, name);
      assert StandsOutside(t, p, name);
    }
    if IsPlaceholderName(name) && exists p: nat :: StandsOutside(t, p, name) {
      var p: nat :| StandsOutside(t, p, name);
      ReplacedIffOutside(t, p, name);
      SlotStands(Pieces(t), p, name);
    }
  }

  lemma StandsInside(t: string, p: nat, name: string)
    requires StandsAt(t, p, name)
    ensures p <= |t|
  {
  }

  ghost predicate StandsOutside(t: string, p: nat, name: string)
  {
    StandsAt(t, p, name) && p <= |t| && OutsideBraces(t, p)
  }

  lemma {:induction false} SlotsAreNames(t: string, name: string)
    requires Slot(name) in Pieces(t)
    ensures IsPlaceholderName(name)
    decreases |t|
  {
    hide IndexOf, IsPlaceholderName;
    var start := IndexOf(t, '{');
    if start < |t| && IndexOf(t[start + 1..], '}') < |t[start + 1..]| {
      var end := IndexOf(t[start + 1..], '}');
      PiecesStep(t, start, end);
      if Slot(name) != Hole(t[start + 1..][..end]) {
        SlotsAreNames(t[start + 1..][end + 1..], name);
      }
    }
  }

  datatype Operation = Operation(inputSchema: Json, command: string, args: seq<string>, env: seq<(string, string)>)

  function Values(env: seq<(string, string)>): (r: seq<string>)
    ensures |r| == |env| && forall i :: 0 <= i < |r| ==> r[i] == env[i].1
  {
    seq(|env|, i requires 0 <= i < |env| => env[i].1)
  }

  /** Everything of an operation that is substituted. */
  function Templates(op: Operation): seq<string> { [op.command] + op.args + Values(op.env) }

  function NamesIn(templates: seq<string>): set<string>
  {
    if templates == [] then {} else NamesIn(templates[..|templates| - 1]) + SlotNames(Pieces(templates[|templates| - 1]))
  }

  lemma {:induction false} NamesOfEach(templates: seq<string>, i: nat)
    requires i < |templates|
    ensures SlotNames(Pieces(templates[i])) <= NamesIn(templates)
  {
    hide Pieces, SlotNames;
    if i < |templates| - 1 { NamesOfEach(templates[..|templates| - 1], i); }
  }

  method ReferencedArgs(op: Operation) returns (names: set<string>)
    ensures names == NamesIn(Templates(op))
  {
    hide Pieces, SlotNames;
    names := {};
    var templates := Templates(op);
    for i := 0 to |templates|
      invariant names == NamesIn(templates[..i])
    {
      names := CollectPlaceholders(templates[i], names);
      assert templates[..i + 1][..i] == templates[..i];
    }
    assert templates[..|templates|] == templates;
  }

  datatype ArgConstraints = ArgConstraints(required: set<string>, allowed: set<string>, allowUnknown: bool)

  function Keys(ms: seq<Member>): set<string> { set m | m in ms :: m.key }

  predicate AllStrings(items: seq<Json>) { forall i :: 0 <= i < |items| ==> items[i].Str? }

  function Strings(items: seq<Json>): set<string> { set v | v in items && v.Str? :: v.s }

  /** Schemas the source takes: none, or an object of type `object` whose
      required names are strings and whose properties are an object. */
  predicate SchemaOk(schema: Json)
  {
    match schema
    case Null => true
    case Obj(ms) =>
      && (match Lookup(ms, "type") case Some(Str(name)) => name == "object" case _ => true)
      && (match Lookup(ms, "required") case Some(v) => v.Arr? && AllStrings(v.items) case None => true)
      && (match Lookup(ms, "properties") case Some(v) => v.Obj? case None => true)
    case _ => false
  }

  function SchemaRequires(schema: Json): set<string>
  {
    if !schema.Obj? then {}
    else match Lookup(schema.members, "required")
      case Some(Arr(items)) => Strings(items)
      case _ => {}
  }

  function SchemaNames(schema: Json): set<string>
  {
    if !schema.Obj? then {}
    else match Lookup(schema.members, "properties")
      case Some(Obj(ms)) => Keys(ms)
      case _ => {}
  }

  predicate SchemaIsOpen(schema: Json)
  {
    if !schema.Obj? then false
    else
      var snake := Lookup(schema.members, "additional_properties");
      (if snake.Some? then snake else Lookup(schema.members, "additionalProperties")) == Some(Bool(true))
  }

  /** What a call must and may bring. */
  function ConstraintsOf(op: Operation): ArgConstraints
  {
    var required := NamesIn(Templates(op)) + SchemaRequires(op.inputSchema);
    ArgConstraints(required, required + SchemaNames(op.inputSchema), SchemaIsOpen(op.inputSchema))
  }

  method ArgConstraintsFor(op: Operation) returns (r: Result<ArgConstraints, ArgError>)
    ensures r.Ok? <==> SchemaOk(op.inputSchema)
    ensures r.Ok? ==> r.value == ConstraintsOf(op)
    ensures r.Err? ==> r.error == BadSchema
  {
    hide NamesIn, Lookup, Templates;
    var referenced := ReferencedArgs(op);
    if op.inputSchema.Null? {
      return Ok(ArgConstraints(referenced, referenced, false));
    }
    if !op.inputSchema.Obj? { return Err(BadSchema); }
    var schema := op.inputSchema.members;
    var kind := Lookup(schema, "type");
    if kind.Some? && kind.value.Str? && kind.value.s != "object" { return Err(BadSchema); }
    var required := referenced;
    var listed := Lookup(schema, "required");
    if listed.Some? {
      if !listed.value.Arr? { return Err(BadSchema); }
      var items := listed.value.items;
      for i := 0 to |items|
        invariant AllStrings(items[..i]) && required == referenced + Strings(items[..i])
      {
        if !items[i].Str? {
          NotAllStrings(items, i);
          return Err(BadSchema);
        }
        StringsStep(items, i);
        required := required + {items[i].s};
      }
      assert items[..|items|] == items;
    }
    var allowed := {};
    var properties := Lookup(schema, "properties");
    if properties.Some? {
      if !properties.value.Obj? { return Err(BadSchema); }
      allowed := Keys(properties.value.members);
    }
    allowed := allowed + required;
    var snake := Lookup(schema, "additional_properties");
    var extra := if snake.Some? then snake else Lookup(schema, "additionalProperties");
    var allowUnknown := extra.Some? && extra.value.Bool? && extra.value.b;
    r := Ok(ArgConstraints(required, allowed, allowUnknown));
  }

  lemma NotAllStrings(items: seq<Json>, i: nat)
    requires i < |items| && !items[i].Str?
    ensures !AllStrings(items)
  {
  }

  lemma StringsStep(items: seq<Json>, i: nat)
    requires i < |items| && items[i].Str? && AllStrings(items[..i])
    ensures AllStrings(items[..i + 1]) && Strings(items[..i + 1]) == Strings(items[..i]) + {items[i].s}
  {
    assert items[..i + 1] == items[..i] + [items[i]];
  }

  /** Accepted exactly when nothing required is missing and nothing brought is unknown. */
  predicate Accepted(op: Operation, args: seq<Member>)
  {
    && SchemaOk(op.inputSchema)
    && ConstraintsOf(op).required <= Keys(args)
    && (ConstraintsOf(op).allowUnknown || Keys(args) <= ConstraintsOf(op).allowed)
  }

  lemma NothingLeft(a: set<string>, b: set<string>)
    ensures a - b == {} <==> a <= b
  {
    assert a == (a - b) + a * b;
  }

  method ValidateArgs(op: Operation, args: seq<Member>) returns (r: Result<(), ArgError>)
    ensures r.Ok? <==> Accepted(op, args)
    ensures r.Err? && r.error.BadArgs? ==>
              r.error.missing == ConstraintsOf(op).required - Keys(args) &&
              r.error.unknown == (if ConstraintsOf(op).allowUnknown then {} else Keys(args) - ConstraintsOf(op).allowed)
    ensures r.Err? ==> r.error.BadArgs? || (r.error.BadSchema? && !SchemaOk(op.inputSchema))
  {
    hide ConstraintsOf, SchemaOk;
    var constraints := ArgConstraintsFor(op);
    if constraints.Err? { return Err(constraints.error); }
    var c := constraints.value;
    var missing := c.required - Keys(args);
    var unknown := if c.allowUnknown then {} else Keys(args) - c.allowed;
    NothingLeft(c.required, Keys(args));
    NothingLeft(Keys(args), c.allowed);
    if missing == {} && unknown == {} { return Ok(()); }
    r := Err(BadArgs(missing, unknown));
  }

  // ----- accepted arguments substitute -----

  predicate IsScalar(v: Json) { v.Str? || v.Num? || v.Bool? }

  /** The error that is left for an argument that is there. */
  predicate RefusesValue(args: seq<Member>, error: ArgError)
  {
    match error
    case NullArg(name) => Lookup(args, name) == Some(Null)
    case NotScalar(name) => Lookup(args, name).Some? && IsContainer(Lookup(args, name).value)
    case _ => false
  }

  predicate AllScalar(args: seq<Member>, names: set<string>)
  {
    forall name <- names :: Lookup(args, name).Some? && IsScalar(Lookup(args, name).value)
  }

  /** With every name present, a template renders exactly when the named values
      are scalars. */
  lemma {:induction false} PresentNamesRender(ps: seq<Piece>, args: seq<Member>, nt: Number -> string)
    requires SlotNames(ps) <= Keys(args)
    ensures var r := Render(ps, args, nt);
            && (r.Ok? <==> AllScalar(args, SlotNames(ps)))
            && (r.Err? ==> RefusesValue(args, r.error))
  {
    hide Lookup, Raw;
    if ps != [] {
      assert ps == [ps[0]] + ps[1..];
      forall name | name in SlotNames(ps[1..]) ensures name in SlotNames(ps) { assert Slot(name) in ps; }
      PresentNamesRender(ps[1..], args, nt);
      if ps[0].Slot? {
        assert ps[0] in ps && ps[0].name in SlotNames(ps);
        KeyIsFound(args, ps[0].name);
      }
      assert forall name <- SlotNames(ps) :: name in SlotNames(ps[1..]) || ps[0] == Slot(name);
    }
  }

  lemma KeyIsFound(args: seq<Member>, name: string)
    requires name in Keys(args)
    ensures Lookup(args, name).Some?
  {
    var m :| m in args && m.key == name;
  }

  /** All templates of an operation, in order, up to the first that fails. */
  method RenderEach(templates: seq<string>, args: seq<Member>, nt: Number -> string)
      returns (r: Result<seq<string>, ArgError>)
    ensures r.Ok? <==> forall i :: 0 <= i < |templates| ==> Render(Pieces(templates[i]), args, nt).Ok?
    ensures r.Ok? ==>
              |r.value| == |templates| &&
              forall i :: 0 <= i < |templates| ==> Render(Pieces(templates[i]), args, nt) == Ok(r.value[i])
    ensures r.Err? ==> exists i :: 0 <= i < |templates| && Render(Pieces(templates[i]), args, nt) == Err(r.error)
  {
    hide Render, Pieces;
    var rendered := [];
    for i := 0 to |templates|
      invariant |rendered| == i
      invariant forall k :: 0 <= k < i ==> Render(Pieces(templates[k]), args, nt) == Ok(rendered[k])
    {
      var one := SubstituteTemplate(templates[i], args, nt);
      if one.Err? { return Err(one.error); }
      rendered := rendered + [one.value];
    }
    r := Ok(rendered);
  }

  /** What a call does before it spawns anything. Once the arguments are
      accepted, only a null or a container among the named ones can stop it. */
  method PrepareCall(op: Operation, args: seq<Member>, nt: Number -> string) returns (r: Result<seq<string>, ArgError>)
    ensures r.Ok? <==> Accepted(op, args) && AllScalar(args, NamesIn(Templates(op)))
    ensures Accepted(op, args) && r.Err? ==> RefusesValue(args, r.error)
    ensures r.Ok? ==>
              |r.value| == |Templates(op)| &&
              forall i :: 0 <= i < |r.value| ==> Render(Pieces(Templates(op)[i]), args, nt) == Ok(r.value[i])
  {
    hide Render, Pieces, Accepted, NamesIn, AllScalar, RefusesValue, Templates;
    var valid := ValidateArgs(op, args);
    if valid.Err? { return Err(valid.error); }
    AcceptedHasNames(op, args);
    EachPresentNamesRender(Templates(op), args, nt);
    r := RenderEach(Templates(op), args, nt);
  }

  lemma AcceptedHasNames(op: Operation, args: seq<Member>)
    requires Accepted(op, args)
    ensures NamesIn(Templates(op)) <= Keys(args)
  {
    hide NamesIn, Templates;
  }

  lemma {:induction false} EachPresentNamesRender(templates: seq<string>, args: seq<Member>, nt: Number -> string)
    requires NamesIn(templates) <= Keys(args)
    ensures (forall i :: 0 <= i < |templates| ==> Render(Pieces(templates[i]), args, nt).Ok?) <==> AllScalar(args, NamesIn(templates))
    ensures forall i :: 0 <= i < |templates| ==>
              var r := Render(Pieces(templates[i]), args, nt);
              r.Err? ==> RefusesValue(args, r.error)
  {
    hide Render, Pieces, SlotNames, RefusesValue, Lookup;
    if templates != [] {
      var front, last := templates[..|templates| - 1], templates[|templates| - 1];
      EachPresentNamesRender(front, args, nt);
      PresentNamesRender(Pieces(last), args, nt);
      assert forall i :: 0 <= i < |front| ==> templates[i] == front[i];
    }
  }

  // ----- bounded output of the command -----

  function Joined(chunks: seq<seq<nat>>): seq<nat>
  {
    if chunks == [] then [] else Joined(chunks[..|chunks| - 1]) + chunks[|chunks| - 1]
  }

  datatype Captured = Captured(bytes: seq<nat>, totalBytes: nat, truncated: bool)

  /** Reads to the end, keeps what fits and says exactly whether something did
      not; `chunks` are the non-empty reads before the end of the stream. */
  method ReadBounded(chunks: seq<seq<nat>>, cap: nat) returns (c: Captured)
    ensures c.bytes == Joined(chunks)[..Min(cap, |Joined(chunks)|)]
    ensures c.totalBytes == |Joined(chunks)|
    ensures c.truncated <==> c.bytes != Joined(chunks)
  {
    var output, total, truncated := [], 0, false;
    for i := 0 to |chunks|
      invariant total == |Joined(chunks[..i])|
      invariant output == Joined(chunks[..i])[..Min(cap, total)]
      invariant truncated <==> total > cap
    {
      assert chunks[..i + 1][..i] == chunks[..i];
      var read := |chunks[i]|;
      total := total + read;
      var remaining := SatSub(cap, |output|);
      if remaining > 0 {
        output := output + chunks[i][..Min(read, remaining)];
      }
      if read > remaining || total > cap {
        truncated := true;
      }
    }
    assert chunks[..|chunks|] == chunks;
    c := Captured(output, total, truncated);
  }
}
