/**
 * The string operations of PHP that the client's decisions rest on:
 * `stripos`, `explode`, and the loose comparison `==` between an integer or a
 * string and a string.
 */
module PhpStrings {
  import opened Wrappers

  // ---------------------------------------------------------------------
  // Case folding and substring search
  // ---------------------------------------------------------------------

  predicate IsUpper(c: char) { 'A' <= c <= 'Z' }

  function LowerChar(c: char): (d: char)
    ensures !IsUpper(d)
  {
    if IsUpper(c) then (c as int + 32) as char else c
  }

  /** ASCII lower-casing, as `stripos` applies it to both of its arguments. */
  function Lower(s: string): (r: string)
    ensures |r| == |s|
    ensures forall i :: 0 <= i < |s| ==> r[i] == LowerChar(s[i])
  {
    seq(|s|, i requires 0 <= i < |s| => LowerChar(s[i]))
  }

  /** `n` occurs in `h` starting at position `i`. */
  predicate OccursAt(h: string, n: string, i: int) {
    0 <= i && i + |n| <= |h| && h[i..i + |n|] == n
  }

  /** `h` contains `n` somewhere: the independent reading of a substring test. */
  ghost predicate Contains(h: string, n: string) {
    exists i :: OccursAt(h, n, i)
  }

  /** The first position at or after `k` where `n` occurs in `h`. */
  function StrPosFrom(h: string, n: string, k: nat): (r: Option<nat>)
    requires k <= |h|
    ensures r.Some? ==> k <= r.value && OccursAt(h, n, r.value)
    ensures r.Some? ==> forall j :: k <= j < r.value ==> !OccursAt(h, n, j)
    ensures r.None? ==> forall j :: k <= j ==> !OccursAt(h, n, j)
    decreases |h| - k
  {
    if OccursAt(h, n, k) then Some(k)
    else if k == |h| then None
    else StrPosFrom(h, n, k + 1)
  }

  /** `strpos($h, $n)`: the first occurrence, or `false` (here `None`). */
  function StrPos(h: string, n: string): (r: Option<nat>)
    ensures r.None? <==> !Contains(h, n)
    ensures r.Some? ==> OccursAt(h, n, r.value) && forall j :: 0 <= j < r.value ==> !OccursAt(h, n, j)
  {
    var r := StrPosFrom(h, n, 0);
    assert r.Some? ==> OccursAt(h, n, r.value);
    r
  }

  /** `stripos($h, $n)`: `strpos` after ASCII lower-casing both strings. */
  function StrIPos(h: string, n: string): (r: Option<nat>)
    ensures r.None? <==> !Contains(Lower(h), Lower(n))
    ensures r.Some? ==> OccursAt(Lower(h), Lower(n), r.value)
  {
    StrPos(Lower(h), Lower(n))
  }

  /** Lower-casing twice is lower-casing once. */
  lemma LowerIdempotent(s: string)
    ensures Lower(Lower(s)) == Lower(s)
  {
  }

  /** An occurrence survives lower-casing of both strings, at the same place. */
  lemma OccursAtLower(h: string, n: string, i: int)
    requires OccursAt(h, n, i)
    ensures OccursAt(Lower(h), Lower(n), i)
  {
    assert Lower(h)[i..i + |n|] == Lower(n) by {
      forall k | 0 <= k < |n| ensures Lower(h)[i + k] == Lower(n)[k] {
        assert h[i + k] == h[i..i + |n|][k];
      }
    }
  }

  /** An occurrence of `m` in `h` carries every occurrence of `n` in `m` along. */
  lemma OccursAtTransitive(h: string, m: string, n: string, i: int, j: int)
    requires OccursAt(h, m, i) && OccursAt(m, n, j)
    ensures OccursAt(h, n, i + j)
  {
    var window := h[i..i + |m|];
    forall p | i + j <= p < i + j + |n|
      ensures h[p] == window[p - i]
    {
    }
    assert window[j..j + |n|] == h[i + j..i + j + |n|];
  }

  /** No occurrence at `i`, shown by one mismatching character. */
  lemma MismatchAt(h: string, n: string, i: nat, k: nat)
    requires k < |n| && i + k < |h| && h[i + k] != n[k]
    ensures !OccursAt(h, n, i)
  {
    if i + |n| <= |h| {
      assert h[i..i + |n|][k] == h[i + k];
    }
  }

  /** The middle part of a concatenation occurs right after the first part. */
  lemma OccursInMiddle(a: string, n: string, b: string)
    ensures OccursAt(a + n + b, n, |a|)
  {
    assert (a + n + b)[|a|..|a| + |n|] == n;
  }

  /** A string without upper-case letters is its own lower-case form. */
  lemma LowerOfLowerCase(s: string)
    requires forall i :: 0 <= i < |s| ==> !IsUpper(s[i])
    ensures Lower(s) == s
  {
  }

  // ---------------------------------------------------------------------
  // explode
  // ---------------------------------------------------------------------

  /** The inverse of `explode`: the pieces joined by the separator. */
  function Implode(sep: char, pieces: seq<string>): (r: string)
    requires |pieces| >= 1
  {
    if |pieces| == 1 then pieces[0]
    else pieces[0] + [sep] + Implode(sep, pieces[1..])
  }

  /**
   * `explode($sep, $s)` for a one-character separator: the maximal runs
   * between separators, always at least one (possibly empty) piece.
   */
  function Explode(sep: char, s: string): (pieces: seq<string>)
    ensures |pieces| >= 1
    ensures forall p :: p in pieces ==> sep !in p
    ensures Implode(sep, pieces) == s
  {
    if s == [] then [""]
    else
      var rest := Explode(sep, s[1..]);
      if s[0] == sep then
        [""] + rest
      else
        assert Implode(sep, [[s[0]] + rest[0]] + rest[1..]) == [s[0]] + Implode(sep, rest);
        [[s[0]] + rest[0]] + rest[1..]
  }

  /** A string without the separator explodes to itself alone. */
  lemma {:induction false} ExplodeNoSep(sep: char, a: string)
    requires sep !in a
    ensures Explode(sep, a) == [a]
  {
    if a != [] {
      ExplodeNoSep(sep, a[1..]);
      assert [a[0]] + a[1..] == a;
    }
  }

  /** The text before the first separator is the first piece. */
  lemma {:induction false} ExplodeFirst(sep: char, a: string, b: string)
    requires sep !in a
    ensures Explode(sep, a + [sep] + b) == [a] + Explode(sep, b)
  {
    if a == [] {
      assert a + [sep] + b == [sep] + b;
    } else {
      assert (a + [sep] + b)[1..] == a[1..] + [sep] + b;
      ExplodeFirst(sep, a[1..], b);
      assert [a[0]] + a[1..] == a;
    }
  }

  // ---------------------------------------------------------------------
  // Integer numeric strings and loose comparison (PHP 8 rules)
  // ---------------------------------------------------------------------

  /** The white space PHP allows around a numeric string. */
  predicate IsWhitespace(c: char) {
    c == ' ' || c == '\t' || c == '\n' || c == '\r' || c == '\U{000B}' || c == '\U{000C}'
  }

  predicate IsDigit(c: char) { '0' <= c <= '9' }

  predicate IsDigits(s: string) {
    |s| > 0 && forall i :: 0 <= i < |s| ==> IsDigit(s[i])
  }

  function TrimLeading(s: string): (r: string)
    ensures |r| <= |s|
    ensures r == [] || !IsWhitespace(r[0])
  {
    if s != [] && IsWhitespace(s[0]) then TrimLeading(s[1..]) else s
  }

  function TrimTrailing(s: string): (r: string)
    ensures |r| <= |s|
    ensures r == [] || !IsWhitespace(r[|r| - 1])
  {
    if s != [] && IsWhitespace(s[|s| - 1]) then TrimTrailing(s[..|s| - 1]) else s
  }

  /** Trimming removes a leading run of white space and nothing else. */
  lemma {:induction false} TrimLeadingStrips(s: string)
    ensures var r := TrimLeading(s);
      r == s[|s| - |r|..] && forall i :: 0 <= i < |s| - |r| ==> IsWhitespace(s[i])
  {
    if s != [] && IsWhitespace(s[0]) {
      TrimLeadingStrips(s[1..]);
    }
  }

  /** Trimming removes a trailing run of white space and nothing else. */
  lemma {:induction false} TrimTrailingStrips(s: string)
    ensures var r := TrimTrailing(s);
      r == s[..|r|] && forall i :: |r| <= i < |s| ==> IsWhitespace(s[i])
  {
    if s != [] && IsWhitespace(s[|s| - 1]) {
      TrimTrailingStrips(s[..|s| - 1]);
    }
  }

  /** The decimal value of a run of digits. */
  function DigitsValue(s: string): (r: nat)
    requires IsDigits(s)
  {
    var last := s[|s| - 1] as int - '0' as int;
    if |s| == 1 then last else 10 * DigitsValue(s[..|s| - 1]) + last
  }

  /** The value of three digits, spelled out positionally. */
  lemma ThreeDigitsValue(s: string)
    requires |s| == 3 && IsDigits(s)
    ensures DigitsValue(s) == 100 * (s[0] as int - '0' as int) + 10 * (s[1] as int - '0' as int) + (s[2] as int - '0' as int)
  {
    var front := s[..2];
    assert front[..1] == s[..1];
    assert IsDigits(front) && IsDigits(s[..1]);
    assert DigitsValue(front) == 10 * (s[0] as int - '0' as int) + (s[1] as int - '0' as int);
  }

  /** The sign and digits left once the surrounding white space is removed. */
  function NumericCore(s: string): (r: string) {
    TrimTrailing(TrimLeading(s))
  }

  /**
   * `s` is an integer numeric string: optional white space, an optional sign,
   * digits, optional white space.
   */
  predicate IsIntegerString(s: string) {
    var t := NumericCore(s);
    IsDigits(t) || (|t| > 1 && (t[0] == '+' || t[0] == '-') && IsDigits(t[1..]))
  }

  function IntegerValue(s: string): (r: int)
    requires IsIntegerString(s)
  {
    var t := NumericCore(s);
    if IsDigits(t) then DigitsValue(t)
    else if t[0] == '-' then -(DigitsValue(t[1..]) as int)
    else DigitsValue(t[1..])
  }

  /**
   * `$n == $s` for an integer `$n` and a string `$s`: a numeric string is
   * compared by value; any other string is compared with the decimal form
   * of `$n`, which is itself numeric, so it never matches.
   */
  predicate LooseEqualsIntString(n: int, s: string) {
    IsIntegerString(s) && IntegerValue(s) == n
  }

  /** `$a == $b` for two strings: by value when both are numeric, else exactly. */
  predicate LooseEqualsStrings(a: string, b: string) {
    if IsIntegerString(a) && IsIntegerString(b) then IntegerValue(a) == IntegerValue(b)
    else a == b
  }

  /** Loose comparison of strings does not depend on the order of its operands. */
  lemma LooseEqualsStringsSymmetric(a: string, b: string)
    ensures LooseEqualsStrings(a, b) <==> LooseEqualsStrings(b, a)
  {
  }

  /** A numeric string loosely equals an integer exactly when it loosely equals that integer's numeric spellings. */
  lemma LooseEqualsIntThroughString(n: int, a: string, b: string)
    requires IsIntegerString(b) && IntegerValue(b) == n
    ensures LooseEqualsIntString(n, a) <==> IsIntegerString(a) && LooseEqualsStrings(a, b)
  {
  }
}
