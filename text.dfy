/** The usual optional value, for lookups that may miss. */
module Wrappers {
  datatype Option<+T> = None | Some(value: T)
}

/**
 * String helpers shared by the front end and the back end: whitespace
 * trimming as JavaScript's `String.prototype.trim` and Python's `str.strip`
 * do it, Python's `s[:n]` slice and the decimal rendering of an integer
 * inside an f-string.
 */
module Text {

  /** Characters removed by JavaScript's `trim`: WhiteSpace and LineTerminator. */
  predicate IsJsWhiteSpace(c: char) {
    c == '\t' || c == '\n' || c == '\U{B}' || c == '\U{C}' || c == '\r' || c == ' '
    || c == '\U{A0}' || c == '\U{1680}' || ('\U{2000}' <= c <= '\U{200A}')
    || c == '\U{2028}' || c == '\U{2029}' || c == '\U{202F}' || c == '\U{205F}'
    || c == '\U{3000}' || c == '\U{FEFF}'
  }

  /** Characters for which Python's `str.isspace` holds, hence removed by `str.strip()`. */
  predicate IsPySpace(c: char) {
    ('\t' <= c <= '\r') || ('\U{1C}' <= c <= '\U{1F}') || c == ' '
    || c == '\U{85}' || c == '\U{A0}' || c == '\U{1680}' || ('\U{2000}' <= c <= '\U{200A}')
    || c == '\U{2028}' || c == '\U{2029}' || c == '\U{202F}' || c == '\U{205F}'
    || c == '\U{3000}'
  }

  ghost predicate AllSpace(s: string, ws: char -> bool) {
    forall i :: 0 <= i < |s| ==> ws(s[i])
  }

  /** `s` with its leading `ws` characters removed. */
  function DropLeading(s: string, ws: char -> bool): string {
    if s != [] && ws(s[0]) then DropLeading(s[1..], ws) else s
  }

  /** `s` with its trailing `ws` characters removed. */
  function DropTrailing(s: string, ws: char -> bool): string {
    if s != [] && ws(s[|s| - 1]) then DropTrailing(s[..|s| - 1], ws) else s
  }

  /**
   * Dropping leading whitespace keeps a suffix of `s`, cuts off only `ws`
   * characters, and stops at the first character that is not one.
   */
  lemma {:induction false} DropLeadingCutsSpace(s: string, ws: char -> bool)
    ensures var r := DropLeading(s, ws);
      |r| <= |s| && r == s[|s| - |r|..] && AllSpace(s[..|s| - |r|], ws)
      && (r == [] || !ws(r[0]))
  {
    if s != [] && ws(s[0]) {
      var t := s[1..];
      DropLeadingCutsSpace(t, ws);
      var r := DropLeading(t, ws);
      assert DropLeading(s, ws) == r;
      assert t[|t| - |r|..] == s[|s| - |r|..];
      forall k | 0 <= k < |s| - |r| ensures ws(s[k]) {
        if 0 < k {
          assert s[k] == t[..|t| - |r|][k - 1];
        }
      }
    }
  }

  /**
   * Dropping trailing whitespace keeps a prefix of `s`, cuts off only `ws`
   * characters, and stops at the last character that is not one.
   */
  lemma {:induction false} DropTrailingCutsSpace(s: string, ws: char -> bool)
    ensures var r := DropTrailing(s, ws);
      |r| <= |s| && r == s[..|r|] && AllSpace(s[|r|..], ws)
      && (r == [] || !ws(r[|r| - 1]))
  {
    if s != [] && ws(s[|s| - 1]) {
      var t := s[..|s| - 1];
      DropTrailingCutsSpace(t, ws);
      var r := DropTrailing(t, ws);
      assert DropTrailing(s, ws) == r;
      assert t[..|r|] == s[..|r|];
      forall k | 0 <= k < |s| - |r| ensures ws(s[|r|..][k]) {
        if k < |t| - |r| {
          assert s[|r|..][k] == t[|r|..][k];
        }
      }
    }
  }

  /** Dropping whitespace at both ends leaves nothing exactly when every character was whitespace. */
  lemma DroppedEmptyIff(s: string, ws: char -> bool)
    ensures DropTrailing(DropLeading(s, ws), ws) == [] <==> AllSpace(s, ws)
  {
    var a := DropLeading(s, ws);
    var r := DropTrailing(a, ws);
    DropLeadingCutsSpace(s, ws);
    DropTrailingCutsSpace(a, ws);
    var k := |s| - |a|;
    if r == [] {
      assert a == [];
      forall i | 0 <= i < |s| ensures ws(s[i]) {
        assert s[..k][i] == s[i];
      }
    } else {
      assert s[k] == r[0];
    }
  }

  /**
   * Trimming: leading and then trailing `ws` characters removed. The result
   * is empty exactly for an all-`ws` string, and otherwise neither starts
   * nor ends with a `ws` character.
   */
  function Strip(s: string, ws: char -> bool): (r: string)
    ensures |r| <= |s|
    ensures r == [] <==> AllSpace(s, ws)
    ensures r == [] || (!ws(r[0]) && !ws(r[|r| - 1]))
  {
    var a := DropLeading(s, ws);
    DropLeadingCutsSpace(s, ws);
    DropTrailingCutsSpace(a, ws);
    DroppedEmptyIff(s, ws);
    DropTrailing(a, ws)
  }

  /**
   * A trimmed string is the middle slice of `s` that neither starts nor
   * ends with a `ws` character; everything cut away on either side is `ws`.
   */
  lemma StripSlice(s: string, ws: char -> bool)
    ensures var r := Strip(s, ws);
      (exists i, j :: 0 <= i <= j <= |s| && r == s[i..j] && AllSpace(s[..i], ws) && AllSpace(s[j..], ws))
      && (r == [] || (!ws(r[0]) && !ws(r[|r| - 1])))
  {
    var a := DropLeading(s, ws);
    var r := DropTrailing(a, ws);
    DropLeadingCutsSpace(s, ws);
    DropTrailingCutsSpace(a, ws);
    var i := |s| - |a|;
    assert r == s[i..i + |r|];
    assert s[i + |r|..] == a[|r|..];
  }

  /** JavaScript `s.trim()`: empty exactly for an all-whitespace string, else bounded by non-whitespace. */
  function JsTrim(s: string): (r: string)
    ensures r == [] <==> AllSpace(s, IsJsWhiteSpace)
    ensures r == [] || (!IsJsWhiteSpace(r[0]) && !IsJsWhiteSpace(r[|r| - 1]))
  {
    Strip(s, IsJsWhiteSpace)
  }

  /** Python `s.strip()` with no argument: empty exactly for an all-whitespace string, else bounded by non-whitespace. */
  function PyStrip(s: string): (r: string)
    ensures r == [] <==> AllSpace(s, IsPySpace)
    ensures r == [] || (!IsPySpace(r[0]) && !IsPySpace(r[|r| - 1]))
  {
    Strip(s, IsPySpace)
  }

  /** Python `s[:n]` for `n >= 0`: the first `n` characters, or all of `s` when shorter. */
  function Take(s: string, n: nat): (r: string)
    ensures |r| <= n && r <= s
    ensures |s| <= n ==> r == s
    ensures |s| > n ==> |r| == n
  {
    if |s| <= n then s else s[..n]
  }

  predicate IsDigit(c: char) {
    '0' <= c <= '9'
  }

  function DigitChar(d: nat): (c: char)
    requires d < 10
    ensures IsDigit(c) && c as int - '0' as int == d
  {
    (d + '0' as int) as char
  }

  /** Python `str(n)` for a non-negative integer: decimal digits, no leading zero. */
  function NatToString(n: nat): (r: string)
    ensures r != [] && forall i :: 0 <= i < |r| ==> IsDigit(r[i])
    ensures r[0] == '0' ==> n == 0 && r == "0"
  {
    if n < 10 then [DigitChar(n)] else NatToString(n / 10) + [DigitChar(n % 10)]
  }

  /** Python `str(i)` for any integer: a minus sign before the digits of a negative one. */
  function IntToString(i: int): (r: string)
    ensures r != [] && (r[0] == '-' <==> i < 0)
    ensures i < 0 ==> |r| >= 2 && r[1..] == NatToString(-i)
    ensures i >= 0 ==> r == NatToString(i)
  {
    if i < 0 then "-" + NatToString(-i) else NatToString(i)
  }

  function DigitValue(c: char): (d: nat)
    requires IsDigit(c)
    ensures d < 10
  {
    c as int - '0' as int
  }

  /** The number a string of decimal digits denotes. */
  function DecimalValue(s: string): nat
    requires forall i :: 0 <= i < |s| ==> IsDigit(s[i])
  {
    if s == [] then 0
    else 10 * DecimalValue(s[..|s| - 1]) + DigitValue(s[|s| - 1])
  }

  /** `s` is the decimal numeral of `n`: digits only, no leading zero, denoting `n`. */
  predicate IsDecimalOf(s: string, n: nat) {
    s != [] && (forall i :: 0 <= i < |s| ==> IsDigit(s[i])) && (s[0] == '0' ==> |s| == 1)
    && DecimalValue(s) == n
  }

  /** Digits that do not start with `0` denote a positive number. */
  lemma {:induction false} LeadingDigitPositive(s: string)
    requires s != [] && (forall i :: 0 <= i < |s| ==> IsDigit(s[i])) && s[0] != '0'
    ensures DecimalValue(s) >= 1
  {
    if |s| > 1 {
      LeadingDigitPositive(s[..|s| - 1]);
    }
  }

  /** Rendering a digit's value gives the digit back. */
  lemma DigitCharOfValue(c: char)
    requires IsDigit(c)
    ensures DigitChar(DigitValue(c)) == c
  {
    assert DigitChar(DigitValue(c)) as int == c as int;
  }

  /** A number has one decimal numeral: the one `NatToString` renders. */
  lemma {:induction false} DecimalNumeralUnique(s: string, n: nat)
    requires IsDecimalOf(s, n)
    ensures s == NatToString(n)
  {
    var last := s[|s| - 1];
    if |s| == 1 {
      assert s[..0] == [] && DecimalValue(s[..0]) == 0;
      assert DecimalValue(s) == 10 * DecimalValue(s[..0]) + DigitValue(last);
      DigitCharOfValue(last);
    } else {
      var init := s[..|s| - 1];
      assert init[0] == s[0] != '0';
      LeadingDigitPositive(init);
      assert n / 10 == DecimalValue(init) && n % 10 == DigitValue(last);
      DecimalNumeralUnique(init, n / 10);
      DigitCharOfValue(last);
      assert n >= 10 && NatToString(n) == NatToString(n / 10) + [DigitChar(n % 10)];
      assert s == init + [last];
    }
  }

  /** Reading back the digits of `NatToString(n)` gives `n`. */
  lemma {:induction false} NatToStringRoundTrip(n: nat)
    ensures DecimalValue(NatToString(n)) == n
  {
    if n >= 10 {
      NatToStringRoundTrip(n / 10);
      var s := NatToString(n);
      assert s[..|s| - 1] == NatToString(n / 10);
    }
  }

  /** Different integers render as different strings. */
  lemma IntToStringInjective(i: int, j: int)
    requires IntToString(i) == IntToString(j)
    ensures i == j
  {
    var r := IntToString(i);
    if i < 0 {
      assert j < 0;
      var a, b := -i, -j;
      assert NatToString(a) == r[1..] == NatToString(b);
      NatToStringRoundTrip(a);
      NatToStringRoundTrip(b);
    } else {
      assert j >= 0;
      NatToStringRoundTrip(i);
      NatToStringRoundTrip(j);
    }
  }

}
