/**
 * The pieces of the Java string library that the modelled code relies on:
 * `String.equalsIgnoreCase`, `Integer.toString`, `Integer.parseInt` and
 * `Boolean.parseBoolean`, restricted to ASCII text.
 */
module JavaText {
  import opened Wrappers

  const MinInt32: int := -0x8000_0000
  const MaxInt32: int := 0x7FFF_FFFF

  predicate IsInt32(n: int) { MinInt32 <= n <= MaxInt32 }

  /** ASCII lower-casing; every other character is left alone. */
  function FoldCase(c: char): (d: char)
    ensures 'A' <= c <= 'Z' ==> 'a' <= d <= 'z'
    ensures !('A' <= c <= 'Z') ==> d == c
  {
    if 'A' <= c <= 'Z' then (c as int - 'A' as int + 'a' as int) as char else c
  }

  /** The string in lower case, letter by letter. */
  function Lower(s: string): (t: string)
    ensures |t| == |s|
  {
    if s == [] then [] else [FoldCase(s[0])] + Lower(s[1..])
  }

  /** `a.equalsIgnoreCase(b)` for ASCII letters. */
  predicate EqualsIgnoreCase(a: string, b: string) {
    |a| == |b| && forall i :: 0 <= i < |a| ==> FoldCase(a[i]) == FoldCase(b[i])
  }

  /** Case-insensitive equality is equality of the lower-cased strings. */
  lemma EqualsIgnoreCaseIffLowerEqual(a: string, b: string)
    ensures EqualsIgnoreCase(a, b) <==> Lower(a) == Lower(b)
  {
    LowerIsPointwise(a);
    LowerIsPointwise(b);
    if Lower(a) == Lower(b) {
      forall i | 0 <= i < |a|
        ensures FoldCase(a[i]) == FoldCase(b[i])
      {
        assert Lower(a)[i] == Lower(b)[i];
      }
    }
  }

  lemma {:induction false} LowerIsPointwise(s: string)
    ensures forall i :: 0 <= i < |s| ==> Lower(s)[i] == FoldCase(s[i])
  {
    if s != [] {
      LowerIsPointwise(s[1..]);
    }
  }

  lemma EqualsIgnoreCaseIsEquivalence(a: string, b: string, c: string)
    ensures EqualsIgnoreCase(a, a)
    ensures EqualsIgnoreCase(a, b) ==> EqualsIgnoreCase(b, a)
    ensures EqualsIgnoreCase(a, b) && EqualsIgnoreCase(b, c) ==> EqualsIgnoreCase(a, c)
  {
  }

  predicate IsDigit(c: char) { '0' <= c <= '9' }

  function DigitChar(d: nat): (c: char)
    requires d < 10
    ensures IsDigit(c) && c as int - '0' as int == d
  {
    ('0' as int + d) as char
  }

  /** Decimal digits of `n`, most significant first, without leading zeros. */
  function NatToString(n: nat): (s: string)
    ensures |s| > 0
    ensures forall i :: 0 <= i < |s| ==> IsDigit(s[i])
    decreases n
  {
    if n < 10 then [DigitChar(n)] else NatToString(n / 10) + [DigitChar(n % 10)]
  }

  /** `Integer.toString(n)` (and `String.valueOf` of a boxed integral value). */
  function IntToString(n: int): (s: string)
    ensures |s| > 0
    ensures s[0] == '-' <==> n < 0
    ensures forall i :: (if n < 0 then 1 else 0) <= i < |s| ==> IsDigit(s[i])
  {
    if n < 0 then "-" + NatToString(-n) else NatToString(n)
  }

  /** The value of a string of decimal digits, read left to right. */
  function DigitsValue(s: string): nat
    requires forall i :: 0 <= i < |s| ==> IsDigit(s[i])
  {
    if s == [] then 0
    else
      assert IsDigit(s[|s| - 1]);
      DigitsValue(s[..|s| - 1]) * 10 + (s[|s| - 1] as int - '0' as int)
  }

  predicate AllDigits(s: string) {
    |s| > 0 && forall i :: 0 <= i < |s| ==> IsDigit(s[i])
  }

  /**
   * `Integer.parseInt(s)`: an optional sign followed by at least one digit,
   * whose value fits in 32 bits; `None` is a `NumberFormatException`.
   */
  function ParseInt(s: string): (r: Option<int>)
    ensures r.Some? ==> IsInt32(r.value)
    ensures r.Some? ==> |s| > 0
  {
    if |s| == 0 then None
    else
      var negative := s[0] == '-';
      var digits := if s[0] == '-' || s[0] == '+' then s[1..] else s;
      if !AllDigits(digits) then None
      else
        var magnitude: int := DigitsValue(digits);
        var n: int := if negative then -magnitude else magnitude;
        if IsInt32(n) then Some(n) else None
  }

  lemma {:induction false} DigitsValueOfNatToString(n: nat)
    ensures DigitsValue(NatToString(n)) == n
    decreases n
  {
    var s := NatToString(n);
    if n >= 10 {
      DigitsValueOfNatToString(n / 10);
      assert s[..|s| - 1] == NatToString(n / 10);
    }
  }

  /** `Integer.parseInt` reads back what `Integer.toString` writes. */
  lemma {:induction false} ParseIntOfIntToString(n: int)
    requires IsInt32(n)
    ensures ParseInt(IntToString(n)) == Some(n)
  {
    var s := IntToString(n);
    if n < 0 {
      DigitsValueOfNatToString(-n);
      assert s[1..] == NatToString(-n);
      assert s[0] == '-';
    } else {
      DigitsValueOfNatToString(n);
      assert s[0] != '-' && s[0] != '+' by {
        assert IsDigit(NatToString(n)[0]);
      }
    }
  }

  /** `Boolean.parseBoolean(s)`: true exactly for "true" in any letter case. */
  function ParseBoolean(s: string): (b: bool)
    ensures b ==> |s| == 4
    ensures b <==> EqualsIgnoreCase(s, "true")
  {
    EqualsIgnoreCase(s, "true")
  }

  lemma ParseBooleanExamples()
    ensures ParseBoolean("TRUE") && ParseBoolean("True") && !ParseBoolean("yes") && !ParseBoolean("1")
  {
    assert ParseBoolean("TRUE") by { assert FoldCase('T') == 't'; assert FoldCase('R') == 'r'; assert FoldCase('U') == 'u'; assert FoldCase('E') == 'e'; }
    assert ParseBoolean("True") by { assert FoldCase('T') == 't'; }
    assert !ParseBoolean("yes") && !ParseBoolean("1");
  }
}
