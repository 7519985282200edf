/**
 * The layout pass of `run()`: `preg_replace_callback('/{\w+}/', ...)` over the
 * layout. The layout is scanned left to right for non-overlapping tokens
 * (a brace, one or more word characters, a closing brace); each token is handed
 * to a section renderer, whose answer replaces it, or, when the renderer does
 * not support it, the token is kept verbatim. Replaced content is not scanned.
 *
 * The renderer may change state (the pager and sorter configurations), so the
 * pass threads a state of type `S` through the calls, in layout order.
 */
module Layout {
  import opened Wrappers
  import Strings

  /** PCRE's `\w` without the Unicode flag. */
  predicate IsWordChar(c: char) {
    'a' <= c <= 'z' || 'A' <= c <= 'Z' || '0' <= c <= '9' || c == '_'
  }

  /** The whole of `t` matches `{\w+}`. */
  predicate IsToken(t: string) {
    |t| >= 3 && t[0] == '{' && t[|t| - 1] == '}' && forall k :: 1 <= k < |t| - 1 ==> IsWordChar(t[k])
  }

  /** The end of the run of word characters that starts at `i`. */
  function WordRun(s: string, i: nat): (j: nat)
    requires i <= |s|
    ensures i <= j <= |s|
    ensures forall k :: i <= k < j ==> IsWordChar(s[k])
    ensures j == |s| || !IsWordChar(s[j])
    decreases |s| - i
  {
    if i < |s| && IsWordChar(s[i]) then WordRun(s, i + 1) else i
  }

  /** The length of the token match at the start of `s`, if the pattern matches there. */
  function TokenLength(s: string): (r: Option<nat>)
    ensures r.Some? ==> 3 <= r.value <= |s| && IsToken(s[..r.value])
    ensures |s| == 0 || s[0] != '{' ==> r.None?
    ensures forall n :: 0 <= n <= |s| ==> (IsToken(s[..n]) <==> r == Some(n))
  {
    if |s| >= 3 && s[0] == '{' && IsWordChar(s[1]) then
      var j := WordRun(s, 1);
      if j < |s| && s[j] == '}' then Some(j + 1) else None
    else None
  }

  /** A section renderer: `None` is PHP's `false`, "not a section". */
  type Renderer<!S> = (S, string) -> (Option<string>, S)

  /**
   * The layout pass: the rewritten text and the state after the last call.
   * Its properties are the step lemmas below.
   */
  function Substitute<S>(s: string, st: S, render: Renderer<S>): (string, S)
    decreases |s|
  {
    if s == [] then ([], st)
    else match TokenLength(s)
      case Some(n) =>
        var (out, st1) := render(st, s[..n]);
        var piece := if out.Some? then out.value else s[..n];
        var (rest, st2) := Substitute(s[n..], st1, render);
        (piece + rest, st2)
      case None =>
        var (rest, st1) := Substitute(s[1..], st, render);
        ([s[0]] + rest, st1)
  }

  /** A step of the pass at a token: the token is rendered, or kept when unsupported, and the scan resumes after it. */
  lemma SubstituteTokenStep<S>(s: string, i: nat, n: nat, st: S, render: Renderer<S>)
    requires i < |s| && TokenLength(s[i..]) == Some(n)
    ensures i + n <= |s|
    ensures var (out, st1) := render(st, s[i..i + n]);
      var tail := Substitute(s[i + n..], st1, render);
      Substitute(s[i..], st, render) == ((if out.Some? then out.value else s[i..i + n]) + tail.0, tail.1)
  {
    assert s[i..][..n] == s[i..i + n] && s[i..][n..] == s[i + n..];
  }

  /** A step of the pass where no token starts: one character is copied. */
  lemma SubstituteCharStep<S>(s: string, i: nat, st: S, render: Renderer<S>)
    requires i < |s| && TokenLength(s[i..]).None?
    ensures var tail := Substitute(s[i + 1..], st, render);
      Substitute(s[i..], st, render) == ([s[i]] + tail.0, tail.1)
  {
    assert s[i..][1..] == s[i + 1..];
  }

  /** The pattern does not match at position `i` of `s`. */
  predicate NoTokenAt(s: string, i: nat)
    requires i <= |s|
  {
    TokenLength(s[i..]).None?
  }

  lemma AppendAt(s: string, n: nat, x: string)
    requires 0 < n <= |s|
    ensures s[..n - 1] + ([s[n - 1]] + x) == s[..n] + x
  {
    assert s[..n - 1] + [s[n - 1]] == s[..n];
  }

  /** The first `n` characters, at none of which a token starts, are copied and call no renderer. */
  lemma {:induction false} SubstituteUnmatchedRun<S>(s: string, n: nat, st: S, render: Renderer<S>)
    requires n <= |s|
    requires forall i :: 0 <= i < n ==> NoTokenAt(s, i)
    ensures var tail := Substitute(s[n..], st, render);
      Substitute(s, st, render) == (s[..n] + tail.0, tail.1)
    decreases n
  {
    if n == 0 {
      var x := Substitute(s, st, render).0;
      assert s[..0] + x == x && s[0..] == s;
    } else {
      SubstituteUnmatchedRun(s, n - 1, st, render);
      assert NoTokenAt(s, n - 1);
      SubstituteCharStep(s, n - 1, st, render);
      AppendAt(s, n, Substitute(s[n..], st, render).0);
    }
  }

  /**
   * Text at no character of which a token starts (a brace followed by no
   * word, `{}`, `{a b}`, the outer brace of `{{items}}`, ...) is copied and
   * calls no renderer.
   */
  lemma SubstituteUnmatchedPrefix<S>(a: string, rest: string, st: S, render: Renderer<S>)
    requires forall i :: 0 <= i < |a| ==> NoTokenAt(a + rest, i)
    ensures Substitute(a + rest, st, render) == (a + Substitute(rest, st, render).0, Substitute(rest, st, render).1)
  {
    var s := a + rest;
    SubstituteUnmatchedRun(s, |a|, st, render);
    assert s[..|a|] == a && s[|a|..] == rest;
  }

  /** Text without an opening brace is copied unchanged and calls no renderer. */
  lemma SubstituteText<S>(t: string, rest: string, st: S, render: Renderer<S>)
    requires Strings.Plain(t)
    ensures Substitute(t + rest, st, render) == (t + Substitute(rest, st, render).0, Substitute(rest, st, render).1)
  {
    forall i | 0 <= i < |t|
      ensures NoTokenAt(t + rest, i)
    {
      assert (t + rest)[i..][0] == t[i];
    }
    SubstituteUnmatchedPrefix(t, rest, st, render);
  }

  /** The token `{name}` at the front is rendered once; unsupported, it is kept verbatim. */
  lemma SubstituteToken<S>(name: string, rest: string, st: S, render: Renderer<S>)
    requires |name| > 0 && forall k :: 0 <= k < |name| ==> IsWordChar(name[k])
    ensures var tok := "{" + name + "}";
      var (out, st1) := render(st, tok);
      var (tail, st2) := Substitute(rest, st1, render);
      Substitute(tok + rest, st, render) == ((if out.Some? then out.value else tok) + tail, st2)
  {
    var tok := "{" + name + "}";
    var s := tok + rest;
    assert s[..|tok|] == tok;
    assert IsToken(tok);
    assert s[|tok|..] == rest;
  }

  // ---- layouts built from text and tokens ----

  /** A piece of a layout: literal text without an opening brace, or a token `{name}`. */
  datatype Piece = Text(text: string) | Token(name: string)

  predicate WellFormed(p: Piece) {
    match p
    case Text(t) => Strings.Plain(t)
    case Token(n) => |n| > 0 && forall k :: 0 <= k < |n| ==> IsWordChar(n[k])
  }

  function Spell(p: Piece): string {
    match p
    case Text(t) => t
    case Token(n) => "{" + n + "}"
  }

  function Join(ps: seq<Piece>): string {
    if ps == [] then [] else Spell(ps[0]) + Join(ps[1..])
  }

  /** The intended reading of a layout: texts as they are, each token rendered in turn or kept. */
  function RenderPieces<S>(ps: seq<Piece>, st: S, render: Renderer<S>): (string, S) {
    if ps == [] then ([], st)
    else match ps[0]
      case Text(t) =>
        var (rest, st1) := RenderPieces(ps[1..], st, render);
        (t + rest, st1)
      case Token(n) =>
        var tok := "{" + n + "}";
        var (out, st1) := render(st, tok);
        var (rest, st2) := RenderPieces(ps[1..], st1, render);
        ((if out.Some? then out.value else tok) + rest, st2)
  }

  /**
   * The pass replaces exactly the tokens of a layout, in order, keeps the
   * unsupported ones and copies the text between them.
   */
  lemma {:induction false} SubstitutePieces<S>(ps: seq<Piece>, st: S, render: Renderer<S>)
    requires forall i :: 0 <= i < |ps| ==> WellFormed(ps[i])
    ensures Substitute(Join(ps), st, render) == RenderPieces(ps, st, render)
    decreases |ps|
  {
    if ps != [] {
      match ps[0]
      case Text(t) =>
        SubstituteText(t, Join(ps[1..]), st, render);
        SubstitutePieces(ps[1..], st, render);
      case Token(n) =>
        SubstituteToken(n, Join(ps[1..]), st, render);
        SubstitutePieces(ps[1..], render(st, "{" + n + "}").1, render);
    }
  }

  lemma JoinCons(p: Piece, ps: seq<Piece>)
    ensures Join([p] + ps) == Spell(p) + Join(ps)
  {
    assert ([p] + ps)[1..] == ps;
  }

  /**
   * The pieces of the default layout `{summary}`, newline, `{items}`, newline,
   * `{pager}`.
   */
  function DefaultPieces(): seq<Piece> {
    [Token("summary"), Text("\n"), Token("items"), Text("\n"), Token("pager")]
  }

  /** The default layout, "{summary}\n{items}\n{pager}", spelled from its pieces. */
  const DefaultLayout: string := Join(DefaultPieces())

  /** The pieces of the default layout are well formed. */
  lemma DefaultPiecesWellFormed()
    ensures forall i :: 0 <= i < |DefaultPieces()| ==> WellFormed(DefaultPieces()[i])
  {
  }

  /** A renderer that answers S, I and P for the default sections and nothing else. */
  function FixedSections(u: (), name: string): (Option<string>, ()) {
    (if name == "{summary}" then Some("S")
     else if name == "{items}" then Some("I")
     else if name == "{pager}" then Some("P")
     else None, u)
  }

  lemma RenderPiecesCons<S>(p: Piece, ps: seq<Piece>, st: S, render: Renderer<S>)
    ensures RenderPieces([p] + ps, st, render) ==
      match p
      case Text(t) =>
        var (rest, st1) := RenderPieces(ps, st, render);
        (t + rest, st1)
      case Token(n) =>
        var (out, st1) := render(st, "{" + n + "}");
        var (rest, st2) := RenderPieces(ps, st1, render);
        ((if out.Some? then out.value else "{" + n + "}") + rest, st2)
  {
    assert ([p] + ps)[0] == p && ([p] + ps)[1..] == ps;
  }

  /** Rendering a supported token in front of an already rendered tail. */
  lemma RenderTokenPiece<S>(n: string, ps: seq<Piece>, st: S, render: Renderer<S>, out: string, st1: S, tail: string, st2: S)
    requires render(st, "{" + n + "}") == (Some(out), st1)
    requires RenderPieces(ps, st1, render) == (tail, st2)
    ensures RenderPieces([Token(n)] + ps, st, render) == (out + tail, st2)
  {
    RenderPiecesCons(Token(n), ps, st, render);
  }

  /** Keeping an unsupported token in front of an already rendered tail. */
  lemma KeepTokenPiece<S>(n: string, ps: seq<Piece>, st: S, render: Renderer<S>, st1: S, tail: string, st2: S)
    requires render(st, "{" + n + "}") == (None, st1)
    requires RenderPieces(ps, st1, render) == (tail, st2)
    ensures RenderPieces([Token(n)] + ps, st, render) == ("{" + n + "}" + tail, st2)
  {
    RenderPiecesCons(Token(n), ps, st, render);
  }

  /** Copying a text in front of an already rendered tail. */
  lemma RenderTextPiece<S>(t: string, ps: seq<Piece>, st: S, render: Renderer<S>, tail: string, st2: S)
    requires RenderPieces(ps, st, render) == (tail, st2)
    ensures RenderPieces([Text(t)] + ps, st, render) == (t + tail, st2)
  {
    RenderPiecesCons(Text(t), ps, st, render);
  }

  /**
   * The default layout's pieces, rendered by any renderer whose summary and
   * items sections leave the state alone: the three sections, one per line.
   */
  lemma DefaultPiecesRendered<S>(st: S, render: Renderer<S>, summary: string, items: string, pager: string, st1: S)
    requires render(st, "{summary}") == (Some(summary), st)
    requires render(st, "{items}") == (Some(items), st)
    requires render(st, "{pager}") == (Some(pager), st1)
    ensures RenderPieces(DefaultPieces(), st, render) == (summary + "\n" + items + "\n" + pager, st1)
  {
    var ps := DefaultPieces();
    var q4 := [ps[4]];
    var q3 := [ps[3]] + q4;
    var q2 := [ps[2]] + q3;
    var q1 := [ps[1]] + q2;
    assert ps == [ps[0]] + q1;
    assert q4 == [ps[4]] + [];
    assert "{" + "pager" + "}" == "{pager}";
    RenderTokenPiece("pager", [], st, render, pager, st1, [], st1);
    assert ps[4] == Token("pager") && pager + [] == pager;
    RenderTextPiece("\n", q4, st, render, pager, st1);
    assert ps[3] == Text("\n");
    assert "{" + "items" + "}" == "{items}";
    RenderTokenPiece("items", q3, st, render, items, st, "\n" + pager, st1);
    assert ps[2] == Token("items");
    RenderTextPiece("\n", q2, st, render, items + ("\n" + pager), st1);
    assert ps[1] == Text("\n");
    assert "{" + "summary" + "}" == "{summary}";
    RenderTokenPiece("summary", q1, st, render, summary, st, "\n" + (items + ("\n" + pager)), st1);
    assert ps[0] == Token("summary");
    assert summary + ("\n" + (items + ("\n" + pager))) == summary + "\n" + items + "\n" + pager;
  }

  lemma FixedDefaultPieces()
    ensures RenderPieces(DefaultPieces(), (), FixedSections).0 == "S\nI\nP"
  {
    assert FixedSections((), "{summary}") == (Some("S"), ());
    assert FixedSections((), "{items}") == (Some("I"), ());
    assert FixedSections((), "{pager}") == (Some("P"), ());
    DefaultPiecesRendered((), FixedSections, "S", "I", "P", ());
    assert "S" + "\n" + "I" + "\n" + "P" == "S\nI\nP";
  }

  lemma DefaultLayoutExample()
    ensures Substitute(DefaultLayout, (), FixedSections).0 == "S\nI\nP"
  {
    DefaultPiecesWellFormed();
    SubstitutePieces(DefaultPieces(), (), FixedSections);
    FixedDefaultPieces();
  }

  function FooPieces(): seq<Piece> {
    [Token("items"), Text(" "), Token("foo")]
  }

  lemma FooPiecesJoined()
    ensures Join(FooPieces()) == "{items} {foo}"
    ensures forall i :: 0 <= i < |FooPieces()| ==> WellFormed(FooPieces()[i])
  {
    var ps := FooPieces();
    assert ps == [ps[0]] + ([ps[1]] + ([ps[2]] + []));
    JoinCons(ps[2], []);
    JoinCons(ps[1], [ps[2]]);
    JoinCons(ps[0], [ps[1]] + [ps[2]]);
  }

  lemma FooPiecesRendered()
    ensures RenderPieces(FooPieces(), (), FixedSections).0 == "I {foo}"
  {
    var ps := FooPieces();
    var q2 := [ps[2]];
    var q1 := [ps[1]] + q2;
    assert ps == [ps[0]] + q1;
    assert q2 == [ps[2]] + [];
    assert FixedSections((), "{" + "foo" + "}") == (None, ());
    KeepTokenPiece("foo", [], (), FixedSections, (), [], ());
    assert ps[2] == Token("foo");
    assert "{" + "foo" + "}" + [] == "{foo}";
    RenderTextPiece(" ", q2, (), FixedSections, "{foo}", ());
    assert ps[1] == Text(" ") && " " + "{foo}" == " {foo}";
    assert FixedSections((), "{" + "items" + "}") == (Some("I"), ());
    RenderTokenPiece("items", q1, (), FixedSections, "I", (), " {foo}", ());
    assert ps[0] == Token("items") && "I" + " {foo}" == "I {foo}";
  }

  /** An unsupported token survives verbatim next to a supported one. */
  lemma UnsupportedTokenExample()
    ensures Substitute("{items} {foo}", (), FixedSections).0 == "I {foo}"
  {
    FooPiecesJoined();
    SubstitutePieces(FooPieces(), (), FixedSections);
    FooPiecesRendered();
  }

  /** A brace followed by another brace opens no token: it is copied and the scan moves on by one. */
  lemma BraceBeforeBrace<S>(s: string, st: S, render: Renderer<S>)
    requires |s| >= 2 && s[0] == '{' && s[1] == '{'
    ensures Substitute(s, st, render) == ("{" + Substitute(s[1..], st, render).0, Substitute(s[1..], st, render).1)
  {
    assert !IsWordChar(s[1]);
    assert s[0..] == s;
    SubstituteCharStep(s, 0, st, render);
  }

  /** In "{{name}}"-like text only the inner token is rendered; the outer brace is copied. */
  lemma NestedToken<S>(name: string, rest: string, st: S, render: Renderer<S>)
    requires |name| > 0 && forall k :: 0 <= k < |name| ==> IsWordChar(name[k])
    ensures var tok := "{" + name + "}";
      var (out, st1) := render(st, tok);
      var (tail, st2) := Substitute(rest, st1, render);
      Substitute("{" + tok + rest, st, render) == ("{" + (if out.Some? then out.value else tok) + tail, st2)
  {
    var tok := "{" + name + "}";
    var s := "{" + tok + rest;
    assert s[1..] == tok + rest;
    BraceBeforeBrace(s, st, render);
    SubstituteToken(name, rest, st, render);
    var (out, st1) := render(st, tok);
    var piece := if out.Some? then out.value else tok;
    var (tail, st2) := Substitute(rest, st1, render);
    assert Substitute(s[1..], st, render) == (piece + tail, st2);
    assert "{" + (piece + tail) == "{" + piece + tail;
  }
}
