/**
 * The string helpers the server relies on: `std::to_string` for integers,
 * C's `atoi`, and the `/` and `+` operators the server uses to build
 * filesystem paths.
 */
module Strings {

  predicate IsDigit(c: char) {
    '0' <= c <= '9'
  }

  /** The characters C's `isspace` accepts in the "C" locale. */
  predicate IsSpace(c: char) {
    c == ' ' || c == '\t' || c == '\n' || c == '\r' || c == '\U{B}' || c == '\U{C}'
  }

  predicate AllDigits(s: string) {
    forall i :: 0 <= i < |s| ==> IsDigit(s[i])
  }

  function DigitChar(d: nat): char
    requires d < 10
  {
    "0123456789"[d]
  }

  function DigitValue(c: char): nat
    requires IsDigit(c)
  {
    (c as int - '0' as int) as nat
  }

  /** Decimal digits of `n`, most significant first, no leading zero. */
  function Digits(n: nat): (s: string)
    ensures |s| > 0 && AllDigits(s)
    ensures s[0] == '0' ==> n == 0
  {
    if n < 10 then [DigitChar(n)] else Digits(n / 10) + [DigitChar(n % 10)]
  }

  /** `std::to_string` of an int: an optional minus sign and the digits. */
  function IntToString(i: int): (s: string)
    ensures |s| > 0
  {
    if i < 0 then "-" + Digits(-i) else Digits(i)
  }

  /** Value of a string of decimal digits, read left to right. */
  function DigitsValue(s: string): nat
    requires AllDigits(s)
  {
    if s == [] then 0 else DigitsValue(s[..|s| - 1]) * 10 + DigitValue(s[|s| - 1])
  }

  /** Length of the longest prefix of `s` made of decimal digits. */
  function DigitPrefixLength(s: string): (n: nat)
    ensures n <= |s| && AllDigits(s[..n])
    ensures n < |s| ==> !IsDigit(s[n])
  {
    if s != [] && IsDigit(s[0]) then
      var n := 1 + DigitPrefixLength(s[1..]);
      assert s[..n] == [s[0]] + s[1..][..n - 1];
      n
    else 0
  }

  function SkipSpace(s: string): (t: string)
    ensures t == [] || !IsSpace(t[0])
    ensures |t| <= |s| && t == s[|s| - |t|..]
  {
    if s != [] && IsSpace(s[0]) then SkipSpace(s[1..]) else s
  }

  function LeadingValue(s: string): nat {
    DigitsValue(s[..DigitPrefixLength(s)])
  }

  /**
   * C's `atoi`: leading white space, an optional sign, then as many decimal
   * digits as follow; anything else ends the number, and no digits give 0.
   * Integers are unbounded here, so the overflow C leaves undefined is
   * not modelled.
   */
  function Atoi(s: string): int {
    var t := SkipSpace(s);
    if t != [] && t[0] == '-' then 0 - LeadingValue(t[1..])
    else if t != [] && t[0] == '+' then LeadingValue(t[1..])
    else LeadingValue(t)
  }

  /** `fs::path(dir) / leaf` for a non-empty `leaf` without a leading separator. */
  function Join(dir: string, leaf: string): string {
    dir + "/" + leaf
  }

  /**
   * `fs::path(dir) / name` for a job or node name, which may be empty:
   * Boost.Filesystem appends nothing for an empty path, so `dir` is
   * returned unchanged.
   */
  function JoinName(dir: string, name: string): string {
    if |name| == 0 then dir else Join(dir, name)
  }

  lemma {:induction false} DigitsValueOfDigits(n: nat)
    ensures DigitsValue(Digits(n)) == n
  {
    var s := Digits(n);
    if n >= 10 {
      DigitsValueOfDigits(n / 10);
      assert s[..|s| - 1] == Digits(n / 10);
    }
  }

  lemma {:induction false} DigitPrefixOfDigits(s: string)
    requires AllDigits(s)
    ensures DigitPrefixLength(s) == |s|
  {
    if s != [] {
      DigitPrefixOfDigits(s[1..]);
    }
  }

  lemma LeadingValueOfDigits(n: nat)
    ensures LeadingValue(Digits(n)) == n
  {
    var d := Digits(n);
    DigitsValueOfDigits(n);
    DigitPrefixOfDigits(d);
    assert d[..|d|] == d;
  }

  /** What `std::to_string` prints, `atoi` reads back. */
  lemma AtoiOfIntToString(i: int)
    ensures Atoi(IntToString(i)) == i
  {
    if i < 0 {
      var d := Digits(-i);
      var s := "-" + d;
      assert s[0] == '-' && !IsSpace(s[0]);
      assert SkipSpace(s) == s;
      assert s[1..] == d;
      LeadingValueOfDigits(-i);
    } else {
      var d := Digits(i);
      assert IsDigit(d[0]);
      assert SkipSpace(d) == d;
      LeadingValueOfDigits(i);
    }
  }

  /** The rendering is injective: distinct numbers print differently. */
  lemma IntToStringInjective(i: int, j: int)
    ensures IntToString(i) == IntToString(j) ==> i == j
  {
    AtoiOfIntToString(i);
    AtoiOfIntToString(j);
  }
}
