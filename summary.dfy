/**
 * `renderSummary`: the display numbers derived from the data provider and the
 * one-pass substitution of the six summary tokens into the summary template.
 */
module Summary {
  import opened Wrappers
  import opened Provider
  import opened Strings

  /** The six numbers a summary template can show. */
  datatype Display = Display(begin: int, end: int, count: int, totalCount: int, page: int, pageCount: int)

  /**
   * The translated default templates, supplied by the localization layer:
   * `showing(totalCount)` for a paginated, non-empty page and `total(count)`
   * otherwise.
   */
  datatype Messages = Messages(showing: int -> string, total: int -> string)

  /** The summary is computed from the pagination only when there is one and the page is not empty. */
  predicate Paged(dp: DataProvider) {
    dp.pagination.Some? && dp.count > 0
  }

  /** The display numbers (1-based where a user sees them). */
  function DisplayOf(dp: DataProvider): (d: Display)
    ensures d.count == dp.count
    ensures d.end - d.begin + 1 == d.count
    ensures !Paged(dp) ==> d.begin == d.page == d.pageCount == 1 && d.totalCount == dp.count
  {
    if Paged(dp) then
      var p := dp.pagination.value;
      var begin := p.page * p.pageSize + 1;
      Display(begin, begin + dp.count - 1, dp.count, dp.totalCount, p.page + 1, p.pageCount)
    else
      Display(1, dp.count, dp.count, dp.count, 1, 1)
  }

  /** A paginated, non-empty page starts after the rows of all earlier pages. */
  lemma PagedDisplay(dp: DataProvider)
    requires Paged(dp)
    ensures var d, p := DisplayOf(dp), dp.pagination.value;
      && d.begin - 1 == p.page * p.pageSize
      && d.page - 1 == p.page
      && d.pageCount == p.pageCount
      && d.totalCount == dp.totalCount
  {
  }

  /** For a consistent provider the shown range lies within 1..totalCount and the page within 1..pageCount. */
  lemma {:induction false} DisplayInRange(dp: DataProvider)
    requires Consistent(dp)
    ensures var d := DisplayOf(dp);
      && 1 <= d.page <= d.pageCount
      && (dp.count > 0 ==> 1 <= d.begin <= d.end <= d.totalCount)
  {
    if Paged(dp) {
      var p := dp.pagination.value;
      assert 0 <= p.page * p.pageSize by {
        MulNonNegative(p.page, p.pageSize);
      }
    }
  }

  lemma MulNonNegative(a: int, b: int)
    requires 0 <= a && 0 <= b
    ensures 0 <= a * b
  {
  }

  /** The example of a second page of five rows out of fifty. */
  lemma SecondPageExample()
    ensures DisplayOf(DataProvider(5, 50, Some(Pagination(1, 5, 10)), None)) == Display(6, 10, 5, 50, 2, 10)
  {
  }

  // ---- decimal rendering of the numbers (PHP's int-to-string conversion) ----

  predicate IsDigit(c: char) { '0' <= c <= '9' }

  /** The characters a decimal number is written with. */
  predicate IsNumberChar(c: char) { IsDigit(c) || c == '-' }

  function DigitChar(n: nat): (c: char)
    requires n < 10
    ensures IsDigit(c) && c as int - '0' as int == n
  {
    ('0' as int + n) as char
  }

  /** The decimal digits of `n`, most significant first, without leading zeros. */
  function Digits(n: nat): (r: string)
    ensures |r| > 0 && forall i :: 0 <= i < |r| ==> IsDigit(r[i])
    ensures n < 10 <==> |r| == 1
    decreases n
  {
    if n < 10 then [DigitChar(n)] else Digits(n / 10) + [DigitChar(n % 10)]
  }

  /** Only zero itself is written with a leading zero. */
  lemma {:induction false} DigitsNoLeadingZero(n: nat)
    ensures Digits(n)[0] == '0' ==> n == 0
    decreases n
  {
    if n >= 10 {
      DigitsNoLeadingZero(n / 10);
      assert Digits(n)[0] == Digits(n / 10)[0];
    }
  }

  function Decimal(n: int): (r: string)
    ensures |r| > 0 && forall i :: 0 <= i < |r| ==> IsNumberChar(r[i])
    ensures r[0] == '-' <==> n < 0
  {
    if n < 0 then "-" + Digits(-n) else Digits(n)
  }

  function DigitValue(c: char): (n: nat)
    requires IsDigit(c)
    ensures n < 10 && DigitChar(n) == c
  {
    c as int - '0' as int
  }

  /** Reads back a string of decimal digits. */
  function ParseDigits(s: string): nat
    requires forall i :: 0 <= i < |s| ==> IsDigit(s[i])
    decreases |s|
  {
    if s == [] then 0 else ParseDigits(s[..|s| - 1]) * 10 + DigitValue(s[|s| - 1])
  }

  function ParseDecimal(s: string): int
    requires |s| > 0 && forall i :: 0 <= i < |s| ==> IsNumberChar(s[i])
    requires forall i :: 1 <= i < |s| ==> IsDigit(s[i])
  {
    if s[0] == '-' then -(ParseDigits(s[1..]) as int)
    else
      assert IsNumberChar(s[0]);
      ParseDigits(s)
  }

  lemma {:induction false} DigitsRoundTrip(n: nat)
    ensures ParseDigits(Digits(n)) == n
    decreases n
  {
    if n >= 10 {
      var r := Digits(n);
      assert r[..|r| - 1] == Digits(n / 10);
      DigitsRoundTrip(n / 10);
    }
  }

  /** Every number shown in a summary is written so that it reads back as itself. */
  lemma DecimalRoundTrip(n: int)
    ensures forall i :: 1 <= i < |Decimal(n)| ==> IsDigit(Decimal(n)[i])
    ensures ParseDecimal(Decimal(n)) == n
  {
    if n < 0 {
      assert Decimal(n)[1..] == Digits(-n);
      DigitsRoundTrip(-n);
    } else {
      DigitsRoundTrip(n);
    }
  }

  // ---- the token substitution ----

  /** The six tokens with their values, in the order the source lists them. */
  function Tokens(d: Display): (pairs: Pairs)
    ensures |pairs| == 6
  {
    [ ("{begin}", Decimal(d.begin)),
      ("{end}", Decimal(d.end)),
      ("{count}", Decimal(d.count)),
      ("{totalCount}", Decimal(d.totalCount)),
      ("{page}", Decimal(d.page)),
      ("{pageCount}", Decimal(d.pageCount)) ]
  }

  /** The summary template with its tokens substituted in one pass. */
  function Fill(template: string, d: Display): string {
    Strtr(template, Tokens(d))
  }

  /** The template used: the configured summary, or the translated default wrapped in a summary block. */
  function Template(dp: DataProvider, summary: Option<string>, m: Messages): (t: string)
    ensures summary.Some? ==> t == summary.value
    ensures summary.None? ==> |t| >= 27 && t[..21] == "<div class=\"summary\">" && t[|t| - 6..] == "</div>"
    ensures summary.None? ==> t[21..|t| - 6] == (if Paged(dp) then m.showing(dp.totalCount) else m.total(dp.count))
  {
    match summary
    case Some(s) => s
    case None =>
      "<div class=\"summary\">"
      + (if Paged(dp) then m.showing(dp.totalCount) else m.total(dp.count))
      + "</div>"
  }

  /**
   * `renderSummary()`: none of the six tokens is left in the summary, and a
   * configured summary without tokens is shown as it is.
   */
  function Render(dp: DataProvider, summary: Option<string>, m: Messages): (r: string)
    ensures NoKeyIn(r, Tokens(DisplayOf(dp)))
    ensures summary.Some? && NoKeyIn(summary.value, Tokens(DisplayOf(dp))) ==> r == summary.value
  {
    var t, d := Template(dp, summary, m), DisplayOf(dp);
    FillLeavesNoToken(t, d);
    assert NoKeyIn(t, Tokens(d)) ==> Fill(t, d) == t by {
      if NoKeyIn(t, Tokens(d)) { FillKeyFree(t, d); }
    }
    Fill(t, d)
  }

  /** Each token's key opens with a brace and has neither a brace nor a number character after it. */
  predicate SafeKey(key: string) {
    |key| > 1 && key[0] == '{' && forall t :: 1 <= t < |key| ==> key[t] != '{' && !IsNumberChar(key[t])
  }

  /** The six keys are well separated from what replaces them, and none is a prefix of another. */
  lemma TokensShape(d: Display)
    ensures forall j :: 0 <= j < 6 ==> SafeKey(Tokens(d)[j].0)
    ensures forall j :: 0 <= j < 6 ==> |Tokens(d)[j].1| > 0
    ensures forall j, u :: 0 <= j < 6 && 0 <= u < |Tokens(d)[j].1| ==> IsNumberChar(Tokens(d)[j].1[u])
    ensures PrefixFree(Tokens(d))
  {
    var ts := Tokens(d);
    forall i, j | 0 <= i < 6 && 0 <= j < 6 && i != j
      ensures !KeyAt(ts[i].0, ts[j].0)
    {
      var a, b := ts[i].0, ts[j].0;
      if |a| <= |b| {
        // The keys already differ at their second character, except {page} and {pageCount}.
        var x := if a[1] != b[1] then 1 else 5;
        assert a[x] != b[x];
        assert b[..|a|][x] != a[x];
      }
    }
  }

  /** Every key opens with a brace, so no key starts at any other character. */
  lemma NoTokenAtPlainChar(s: string, d: Display)
    requires s != [] && s[0] != '{'
    ensures LongestFrom(s, Tokens(d), 0).None?
  {
    forall j | 0 <= j < 6 ensures !KeyAt(Tokens(d)[j].0, s) {
      assert Tokens(d)[j].0[0] == '{';
    }
  }

  /** Each of the six tokens is replaced by its value, and the scan resumes right after it. */
  lemma FillToken(j: nat, rest: string, d: Display)
    requires j < 6
    ensures Fill(Tokens(d)[j].0 + rest, d) == Tokens(d)[j].1 + Fill(rest, d)
  {
    var s := Tokens(d)[j].0 + rest;
    TokensShape(d);
    assert s[|Tokens(d)[j].0|..] == rest;
    StrtrAtKey(s, Tokens(d), j);
  }

  /** Text without an opening brace is copied unchanged. */
  lemma FillPlainText(a: string, rest: string, d: Display)
    requires Plain(a)
    ensures Fill(a + rest, d) == a + Fill(rest, d)
  {
    forall i | 0 <= i < |a|
      ensures UnmatchedAt(a + rest, i, Tokens(d))
    {
      assert (a + rest)[i..][0] == a[i];
      NoTokenAtPlainChar((a + rest)[i..], d);
    }
    StrtrUnmatchedPrefix(a, rest, Tokens(d));
  }

  /** A template in which none of the six tokens occurs is returned unchanged. */
  lemma FillKeyFree(t: string, d: Display)
    requires NoKeyIn(t, Tokens(d))
    ensures Fill(t, d) == t
  {
    StrtrKeyFree(t, Tokens(d));
  }

  /** Characters that can follow the opening brace of a key: neither a brace nor a number character. */
  predicate KeyTail(w: string) {
    forall t :: 0 <= t < |w| ==> w[t] != '{' && !IsNumberChar(w[t])
  }

  /** What the pass writes out starting with key-tail characters was copied from the template. */
  lemma {:induction false} FillCopiesKeyTail(rest: string, w: string, d: Display)
    requires KeyTail(w)
    requires |w| <= |Fill(rest, d)| && Fill(rest, d)[..|w|] == w
    ensures |w| <= |rest| && rest[..|w|] == w
    decreases |w|
  {
    if w != [] {
      assert rest != [];
      FillHead(rest, d);
      assert Fill(rest[1..], d)[..|w| - 1] == w[1..];
      FillCopiesKeyTail(rest[1..], w[1..], d);
      assert rest[..|w|] == [rest[0]] + rest[1..][..|w| - 1];
    }
  }

  /** The pass writes first either a number or the template's first character, copied because no token starts there. */
  lemma FillHead(s: string, d: Display)
    requires s != []
    ensures |Fill(s, d)| > 0
    ensures || IsNumberChar(Fill(s, d)[0])
            || (LongestFrom(s, Tokens(d), 0).None? && Fill(s, d) == [s[0]] + Fill(s[1..], d))
  {
    TokensShape(d);
  }

  /**
   * The pass is complete: none of the six tokens survives in the result, since
   * every occurrence is replaced and the numbers inserted cannot form one.
   */
  lemma {:induction false} FillLeavesNoToken(s: string, d: Display)
    ensures NoKeyIn(Fill(s, d), Tokens(d))
    decreases |s|
  {
    if s != [] {
      TokensShape(d);
      var ts := Tokens(d);
      match LongestFrom(s, ts, 0)
      case Some(k) =>
        var v, rest := ts[k].1, s[|ts[k].0|..];
        FillLeavesNoToken(rest, d);
        var out := v + Fill(rest, d);
        assert Fill(s, d) == out;
        forall i, j | 0 <= i < |out| && 0 <= j < |ts|
          ensures !KeyAt(ts[j].0, out[i..])
        {
          if i < |v| {
            assert out[i..][0] == v[i];
          } else {
            assert out[i..] == Fill(rest, d)[i - |v|..];
          }
        }
      case None =>
        var rest := s[1..];
        FillLeavesNoToken(rest, d);
        var out := [s[0]] + Fill(rest, d);
        assert Fill(s, d) == out;
        forall i, j | 0 <= i < |out| && 0 <= j < |ts|
          ensures !KeyAt(ts[j].0, out[i..])
        {
          if i == 0 {
            var key := ts[j].0;
            if KeyAt(key, out) {
              var w := key[1..];
              assert Fill(rest, d)[..|w|] == out[1..|key|] == w;
              FillCopiesKeyTail(rest, w, d);
            }
          } else {
            assert out[i..] == Fill(rest, d)[i - 1..];
          }
        }
    }
  }

  /** An unknown `{word}` in a template is not one of the six tokens and is left as it is. */
  lemma UnknownTokenKept(d: Display)
    ensures Fill(" {foo}", d) == " {foo}"
  {
    var t := " {foo}";
    forall i, j | 0 <= i < |t| && 0 <= j < |Tokens(d)|
      ensures !KeyAt(Tokens(d)[j].0, t[i..])
    {
      var key := Tokens(d)[j].0;
      if i != 1 {
        assert t[i..][0] == t[i] != '{' == key[0];
      } else {
        assert 1 < |key| && key[1] != 'f' == t[i..][1];
      }
    }
    FillKeyFree(t, d);
  }

  /** Plain text, then one of the six tokens: the text is copied and the token replaced. */
  lemma FillPlainThenToken(a: string, j: nat, rest: string, d: Display)
    requires Plain(a) && j < 6
    ensures Fill(a + Tokens(d)[j].0 + rest, d) == a + Tokens(d)[j].1 + Fill(rest, d)
  {
    FillToken(j, rest, d);
    FillPlainText(a, Tokens(d)[j].0 + rest, d);
    assert a + Tokens(d)[j].0 + rest == a + (Tokens(d)[j].0 + rest);
  }

  /** Regrouping a concatenation of seven strings from the right. */
  lemma Regroup(a: string, x: string, b: string, y: string, c: string, z: string, t: string)
    ensures a + x + b + y + c + z + t == a + x + (b + y + (c + z + t))
  {
  }

  /** The back part `b{end}c{totalCount}tail` of a range template. */
  lemma FillEndTotal(b: string, c: string, tail: string, d: Display)
    requires Plain(b) && Plain(c) && NoKeyIn(tail, Tokens(d))
    ensures var ts := Tokens(d);
      Fill(b + ts[1].0 + (c + ts[3].0 + tail), d) == b + ts[1].1 + (c + ts[3].1 + tail)
  {
    FillKeyFree(tail, d);
    FillPlainThenToken(c, 3, tail, d);
    FillPlainThenToken(b, 1, c + Tokens(d)[3].0 + tail, d);
  }

  /** A template `a{begin}b{end}c{totalCount}tail` with plain text between the tokens and a tail free of them. */
  lemma FillRange(a: string, b: string, c: string, tail: string, d: Display)
    requires Plain(a) && Plain(b) && Plain(c) && NoKeyIn(tail, Tokens(d))
    ensures var ts := Tokens(d);
      Fill(a + ts[0].0 + b + ts[1].0 + c + ts[3].0 + tail, d)
      == a + ts[0].1 + b + ts[1].1 + c + ts[3].1 + tail
  {
    var ts := Tokens(d);
    var r1 := b + ts[1].0 + (c + ts[3].0 + tail);
    FillEndTotal(b, c, tail, d);
    FillPlainThenToken(a, 0, r1, d);
    Regroup(a, ts[0].0, b, ts[1].0, c, ts[3].0, tail);
    Regroup(a, ts[0].1, b, ts[1].1, c, ts[3].1, tail);
  }

  /**
   * The second page of five rows out of fifty, through any template of the
   * shape `a{begin}b{end}c{totalCount}tail` whose tail holds none of the six
   * tokens (such as " {foo}"): the tokens become 6, 10 and 50, the rest stays.
   */
  lemma SecondPageSummaryExample(a: string, b: string, c: string, tail: string)
    requires Plain(a) && Plain(b) && Plain(c)
    requires NoKeyIn(tail, Tokens(Display(6, 10, 5, 50, 2, 10)))
    ensures Render(DataProvider(5, 50, Some(Pagination(1, 5, 10)), None),
                   Some(a + "{begin}" + b + "{end}" + c + "{totalCount}" + tail), Messages(n => "", n => ""))
      == a + "6" + b + "10" + c + "50" + tail
  {
    SecondPageExample();
    assert Decimal(6) == "6" && Decimal(10) == "10" && Decimal(50) == "50";
    FillRange(a, b, c, tail, Display(6, 10, 5, 50, 2, 10));
  }

  /**
   * An unknown `{word}` before a token is copied while the token is replaced:
   * `{foo} {begin}` becomes `{foo} ` followed by the first row's number.
   * The literal prefix is a parameter fixed by the precondition: written
   * into the statement itself, it makes the proof several times costlier.
   */
  lemma MixedTemplateExample(u: string, tail: string, d: Display)
    requires u == "{foo} " && NoKeyIn(tail, Tokens(d))
    ensures Fill(u + Tokens(d)[0].0 + tail, d) == u + Decimal(d.begin) + tail
  {
    var ts, rest := Tokens(d), Tokens(d)[0].0 + tail;
    forall i | 0 <= i < |u|
      ensures UnmatchedAt(u + rest, i, ts)
    {
      var t := (u + rest)[i..];
      if i == 0 {
        forall j | 0 <= j < 6 ensures !KeyAt(ts[j].0, t) {
          assert 1 < |ts[j].0| && ts[j].0[1] != 'f' == t[1];
        }
      } else {
        assert t[0] == u[i] != '{';
        NoTokenAtPlainChar(t, d);
      }
    }
    StrtrUnmatchedPrefix(u, rest, ts);
    FillToken(0, tail, d);
    FillKeyFree(tail, d);
    assert u + Tokens(d)[0].0 + tail == u + rest;
  }
}
