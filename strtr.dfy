/**
 * PHP's `strtr($s, $pairs)` in its array form: one left-to-right pass over `s`
 * which, at every position, replaces the LONGEST key found there by its value
 * and resumes after the key. Inserted values are never scanned again; a
 * position where no key starts is copied unchanged. Empty keys never match.
 */
module Strings {
  import opened Wrappers

  type Pairs = seq<(string, string)>

  /** `key` is a non-empty prefix of `s`. */
  predicate KeyAt(key: string, s: string) {
    0 < |key| <= |s| && s[..|key|] == key
  }

  /** The index of the longest key among `pairs[i..]` that starts `s`, if any. */
  function LongestFrom(s: string, pairs: Pairs, i: nat): (r: Option<nat>)
    requires i <= |pairs|
    ensures r.Some? ==> i <= r.value < |pairs| && KeyAt(pairs[r.value].0, s)
    ensures r.Some? ==> forall j :: i <= j < |pairs| && KeyAt(pairs[j].0, s) ==> |pairs[j].0| <= |pairs[r.value].0|
    ensures r.None? <==> forall j :: i <= j < |pairs| ==> !KeyAt(pairs[j].0, s)
    decreases |pairs| - i
  {
    if i == |pairs| then None
    else
      var best := LongestFrom(s, pairs, i + 1);
      if KeyAt(pairs[i].0, s) && (best.None? || |pairs[best.value].0| < |pairs[i].0|) then Some(i)
      else best
  }

  /** No key of `pairs` starts anywhere in `s`. */
  predicate NoKeyIn(s: string, pairs: Pairs) {
    forall i, j :: 0 <= i < |s| && 0 <= j < |pairs| ==> !KeyAt(pairs[j].0, s[i..])
  }

  /** No key is a prefix of another key. */
  predicate PrefixFree(pairs: Pairs) {
    forall i, j :: 0 <= i < |pairs| && 0 <= j < |pairs| && i != j ==> !KeyAt(pairs[i].0, pairs[j].0)
  }

  /** Text without an opening brace. */
  predicate Plain(a: string) {
    forall i :: 0 <= i < |a| ==> a[i] != '{'
  }

  /** The single replacement pass. */
  function Strtr(s: string, pairs: Pairs): string
    decreases |s|
  {
    if s == [] then []
    else match LongestFrom(s, pairs, 0)
      case Some(k) => pairs[k].1 + Strtr(s[|pairs[k].0|..], pairs)
      case None => [s[0]] + Strtr(s[1..], pairs)
  }

  /** A text in which no key occurs comes back unchanged. */
  lemma {:induction false} StrtrKeyFree(s: string, pairs: Pairs)
    requires NoKeyIn(s, pairs)
    ensures Strtr(s, pairs) == s
    decreases |s|
  {
    if s != [] {
      assert s[0..] == s;
      assert forall j :: 0 <= j < |pairs| ==> !KeyAt(pairs[j].0, s[0..]);
      assert LongestFrom(s, pairs, 0).None?;
      forall i, j | 0 <= i < |s[1..]| && 0 <= j < |pairs|
        ensures !KeyAt(pairs[j].0, s[1..][i..])
      {
        assert s[1..][i..] == s[i + 1..];
      }
      StrtrKeyFree(s[1..], pairs);
    }
  }

  /** No key starts at position `i` of `s`. */
  predicate UnmatchedAt(s: string, i: nat, pairs: Pairs)
    requires i <= |s|
  {
    LongestFrom(s[i..], pairs, 0).None?
  }

  /** A copied prefix grows by one character where no key starts. */
  lemma StrtrCopyStep(s: string, n: nat, pairs: Pairs)
    requires 0 < n <= |s| && UnmatchedAt(s, n - 1, pairs)
    requires Strtr(s, pairs) == s[..n - 1] + Strtr(s[n - 1..], pairs)
    ensures Strtr(s, pairs) == s[..n] + Strtr(s[n..], pairs)
  {
    var t := s[n - 1..];
    assert t[1..] == s[n..];
    assert Strtr(t, pairs) == [s[n - 1]] + Strtr(s[n..], pairs);
    assert s[..n - 1] + [s[n - 1]] == s[..n];
  }

  /** The first `n` characters, at none of which a key starts, are copied, and the pass goes on after them. */
  lemma {:induction false} StrtrUnmatchedRun(s: string, n: nat, pairs: Pairs)
    requires n <= |s|
    requires forall i :: 0 <= i < n ==> UnmatchedAt(s, i, pairs)
    ensures Strtr(s, pairs) == s[..n] + Strtr(s[n..], pairs)
    decreases n
  {
    if n == 0 {
      assert s[..0] == [] && s[0..] == s;
    } else {
      StrtrUnmatchedRun(s, n - 1, pairs);
      StrtrCopyStep(s, n, pairs);
    }
  }

  /** Text at no character of which a key starts is copied, and the pass goes on with the rest. */
  lemma StrtrUnmatchedPrefix(a: string, rest: string, pairs: Pairs)
    requires forall i :: 0 <= i < |a| ==> UnmatchedAt(a + rest, i, pairs)
    ensures Strtr(a + rest, pairs) == a + Strtr(rest, pairs)
  {
    var s := a + rest;
    StrtrUnmatchedRun(s, |a|, pairs);
    assert s[..|a|] == a && s[|a|..] == rest;
  }

  /** With prefix-free keys, a text starting with key `k` has that key replaced by its value. */
  lemma StrtrAtKey(s: string, pairs: Pairs, k: nat)
    requires k < |pairs| && PrefixFree(pairs) && KeyAt(pairs[k].0, s)
    ensures Strtr(s, pairs) == pairs[k].1 + Strtr(s[|pairs[k].0|..], pairs)
  {
    assert LongestFrom(s, pairs, 0) == Some(k);
  }
}
