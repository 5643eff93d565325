/**
 * Character classes the matchers use, and decimal text for naturals.
 *
 * `IsWhitespace` is Rust's `char::is_whitespace` (the Unicode White_Space
 * property, which is a short fixed list). `IsDigit` is `is_digit(10)`.
 * `IsAlphanumeric` covers ASCII letters and digits only.
 */
module Chars {

  predicate IsWhitespace(c: char) {
    var k := c as int;
    (0x09 <= k <= 0x0D) || k == 0x20 || k == 0x85 || k == 0xA0 || k == 0x1680
    || (0x2000 <= k <= 0x200A) || k == 0x2028 || k == 0x2029 || k == 0x202F
    || k == 0x205F || k == 0x3000
  }

  predicate IsDigit(c: char) {
    '0' <= c <= '9'
  }

  predicate IsAlphanumeric(c: char) {
    IsDigit(c) || ('a' <= c <= 'z') || ('A' <= c <= 'Z')
  }

  /** Number of bytes `c` takes in UTF-8, which is what Rust's `String::len` counts. */
  function Utf8Len(c: char): (n: nat)
    ensures 1 <= n <= 4
    ensures n == 1 <==> c as int < 0x80
  {
    if c as int < 0x80 then 1
    else if c as int < 0x800 then 2
    else if c as int < 0x10000 then 3
    else 4
  }

  function Utf8Length(s: string): (n: nat)
    ensures n >= |s|
  {
    if s == [] then 0 else Utf8Length(s[..|s| - 1]) + Utf8Len(s[|s| - 1])
  }

  /** A string is one byte long exactly when it is a single ASCII character. */
  lemma {:induction false} Utf8LengthOne(s: string)
    ensures Utf8Length(s) == 1 <==> (|s| == 1 && s[0] as int < 0x80)
  {
    if |s| > 1 {
      assert Utf8Length(s[..|s| - 1]) >= |s| - 1;
    } else if |s| == 1 {
      assert s[..0] == [];
    }
  }

  /**
   * The end of the maximal run of characters satisfying `p` that starts at
   * index `i` of `s`: the first index from `i` on whose character fails `p`,
   * or `|s|`.
   */
  function RunEnd(s: string, i: nat, p: char -> bool): (e: nat)
    requires i <= |s|
    ensures i <= e <= |s|
    ensures forall j :: i <= j < e ==> p(s[j])
    ensures e < |s| ==> !p(s[e])
    decreases |s| - i
  {
    if i == |s| || !p(s[i]) then i else RunEnd(s, i + 1, p)
  }

  /** The run end is the only index that bounds a run of `p` from `i` that cannot be extended. */
  lemma RunEndUnique(s: string, i: nat, e: nat, p: char -> bool)
    requires i <= e <= |s|
    requires forall j :: i <= j < e ==> p(s[j])
    requires e == |s| || !p(s[e])
    ensures RunEnd(s, i, p) == e
  {
  }

  function DigitValue(c: char): (d: nat)
    requires IsDigit(c)
    ensures d < 10
  {
    c as int - '0' as int
  }

  function DigitChar(d: nat): (c: char)
    requires d < 10
    ensures IsDigit(c) && DigitValue(c) == d
  {
    (d + '0' as int) as char
  }

  predicate AllDigits(s: string) {
    forall i :: 0 <= i < |s| ==> IsDigit(s[i])
  }

  /** The value of a run of decimal digits, as `from_str_radix(s, 10)` computes it. */
  function DigitsValue(s: string): nat
    requires AllDigits(s)
  {
    if s == [] then 0 else DigitsValue(s[..|s| - 1]) * 10 + DigitValue(s[|s| - 1])
  }

  /** Decimal text of `n` without leading zeros, as Rust's `to_string` prints integers. */
  function NatToString(n: nat): (s: string)
    ensures |s| > 0 && AllDigits(s)
    ensures s[0] == '0' ==> n == 0
  {
    if n < 10 then [DigitChar(n)] else NatToString(n / 10) + [DigitChar(n % 10)]
  }

  /** Printing a natural and reading it back gives the same natural. */
  lemma {:induction false} DigitsValueOfNatToString(n: nat)
    ensures DigitsValue(NatToString(n)) == n
  {
    var s := NatToString(n);
    if n >= 10 {
      DigitsValueOfNatToString(n / 10);
      assert s[..|s| - 1] == NatToString(n / 10);
    } else {
      assert s[..0] == [];
    }
  }

  /** A digit string and its value's text agree once leading zeros are dropped. */
  function StripLeadingZeros(s: string): (r: string)
    requires AllDigits(s)
    ensures AllDigits(r) && |r| <= |s|
  {
    if |s| > 1 && s[0] == '0' then StripLeadingZeros(s[1..]) else s
  }

  lemma {:induction false} DigitsValueLeadingZero(s: string)
    requires |s| > 0 && AllDigits(s) && s[0] == '0'
    ensures DigitsValue(s) == DigitsValue(s[1..])
  {
    if |s| > 1 {
      DigitsValueLeadingZero(s[..|s| - 1]);
      assert s[..|s| - 1][1..] == s[1..][..|s[1..]| - 1];
    } else {
      assert s[1..] == [];
      assert s[..0] == [];
    }
  }

  lemma {:induction false} DigitsValueBound(s: string)
    requires |s| > 0 && AllDigits(s) && s[0] != '0'
    ensures DigitsValue(s) >= Pow10(|s| - 1)
  {
    if |s| > 1 {
      DigitsValueBound(s[..|s| - 1]);
    }
  }

  function Pow10(k: nat): (p: nat)
    ensures p >= 1
  {
    if k == 0 then 1 else 10 * Pow10(k - 1)
  }

  lemma {:induction false} NatToStringLength(n: nat)
    ensures n < Pow10(|NatToString(n)|)
    ensures |NatToString(n)| > 1 ==> n >= Pow10(|NatToString(n)| - 1)
  {
    if n >= 10 {
      NatToStringLength(n / 10);
    }
  }

  /** Two digit strings without leading zeros and with equal values are equal. */
  lemma {:induction false} DigitsInjective(s: string, t: string)
    requires |s| > 0 && |t| > 0 && AllDigits(s) && AllDigits(t)
    requires (s[0] == '0' ==> |s| == 1) && (t[0] == '0' ==> |t| == 1)
    requires DigitsValue(s) == DigitsValue(t)
    ensures s == t
  {
    var a, b := s[..|s| - 1], t[..|t| - 1];
    assert DigitsValue(s) == DigitsValue(a) * 10 + DigitValue(s[|s| - 1]);
    assert DigitsValue(t) == DigitsValue(b) * 10 + DigitValue(t[|t| - 1]);
    assert DigitsValue(a) == DigitsValue(b) && DigitValue(s[|s| - 1]) == DigitValue(t[|t| - 1]);
    if |a| > 0 && |b| > 0 {
      DigitsInjective(a, b);
      assert s == a + [s[|s| - 1]] && t == b + [t[|t| - 1]];
    } else if |a| == 0 && |b| > 0 {
      assert b[0] != '0';
      DigitsValueBound(b);
    } else if |a| > 0 && |b| == 0 {
      assert a[0] != '0';
      DigitsValueBound(a);
    } else {
      assert s == [s[0]] && t == [t[0]];
    }
  }

  /** The text the int matcher prints is the digit run with leading zeros removed. */
  lemma {:induction false} NatToStringOfDigits(s: string)
    requires |s| > 0 && AllDigits(s)
    ensures NatToString(DigitsValue(s)) == StripLeadingZeros(s)
  {
    if |s| > 1 && s[0] == '0' {
      DigitsValueLeadingZero(s);
      NatToStringOfDigits(s[1..]);
    } else {
      var n := DigitsValue(s);
      DigitsValueOfNatToString(n);
      DigitsInjective(NatToString(n), s);
    }
  }
}
