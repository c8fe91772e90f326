// Decimal numerals: Python's `str` on a non-negative integer, `str.zfill`,
// and the reading of a numeral back into its value.

module Decimal {

  predicate IsDigit(c: char) {
    '0' <= c <= '9'
  }

  predicate IsDigits(s: string) {
    forall i :: 0 <= i < |s| ==> IsDigit(s[i])
  }

  function DigitValue(c: char): (v: nat)
    requires IsDigit(c)
    ensures v < 10
  {
    (c as int) - ('0' as int)
  }

  function DigitChar(v: nat): (c: char)
    requires v < 10
    ensures IsDigit(c) && DigitValue(c) == v
  {
    (('0' as int) + v) as char
  }

  /** `str(n)` for a non-negative integer: its shortest decimal numeral. */
  function Str(n: nat): string
    decreases n
  {
    if n < 10 then [DigitChar(n)] else Str(n / 10) + [DigitChar(n % 10)]
  }

  /**
   * `str(n)` is a numeral of one digit below 10, of three or more from 100
   * on, and without a leading zero unless it is "0".
   */
  lemma {:induction false} StrShape(n: nat)
    ensures IsDigits(Str(n))
    ensures |Str(n)| == 1 <==> n < 10
    ensures |Str(n)| >= 3 <==> n >= 100
    ensures |Str(n)| >= 1 && (Str(n)[0] == '0' ==> n == 0)
    decreases n
  {
    if n >= 10 {
      StrShape(n / 10);
    }
  }

  /** The value of a decimal numeral; the empty numeral reads as 0. */
  function Value(s: string): nat
    requires IsDigits(s)
    decreases |s|
  {
    if s == [] then 0 else Value(s[..|s| - 1]) * 10 + DigitValue(s[|s| - 1])
  }

  /** Reading `str(n)` back gives `n`. */
  lemma {:induction false} ValueOfStr(n: nat)
    ensures IsDigits(Str(n)) && Value(Str(n)) == n
    decreases n
  {
    StrShape(n);
    if n >= 10 {
      var s := Str(n);
      assert s[..|s| - 1] == Str(n / 10);
      ValueOfStr(n / 10);
    }
  }

  function Zeros(k: nat): (z: string)
    ensures |z| == k && forall i :: 0 <= i < k ==> z[i] == '0'
  {
    if k == 0 then "" else Zeros(k - 1) + "0"
  }

  /**
   * `s.zfill(width)` for a string without a sign: zeros are put in front of
   * `s` until it is `width` long; a string already that long is left as it is.
   */
  function ZFill(s: string, width: nat): string {
    if |s| >= width then s else Zeros(width - |s|) + s
  }

  /**
   * `zfill` pads and never truncates: the result is `width` long or, when
   * `s` is longer, as long as `s`; `s` is its suffix; the rest is zeros.
   */
  lemma ZFillShape(s: string, width: nat)
    ensures var r := ZFill(s, width);
      && |r| == (if |s| >= width then |s| else width)
      && r[|r| - |s|..] == s
      && forall i :: 0 <= i < |r| - |s| ==> r[i] == '0'
  {
  }

  /** Leading zeros do not change the value of a numeral. */
  lemma {:induction false} ValueIgnoresLeadingZeros(k: nat, s: string)
    requires IsDigits(s)
    ensures IsDigits(Zeros(k) + s) && Value(Zeros(k) + s) == Value(s)
    decreases |s| + k
  {
    var t := Zeros(k) + s;
    if s != [] {
      assert t[..|t| - 1] == Zeros(k) + s[..|s| - 1];
      ValueIgnoresLeadingZeros(k, s[..|s| - 1]);
    } else if k > 0 {
      assert t == Zeros(k - 1) + "0";
      ValueIgnoresLeadingZeros(k - 1, s);
      assert t[..|t| - 1] == Zeros(k - 1) + s;
    }
  }

  /**
   * `str(n).zfill(width)` is a numeral for `n`: it is at least `width` long,
   * it is never shorter than `str(n)`, and it reads back as `n`.
   */
  lemma PaddedNumeral(n: nat, width: nat)
    ensures IsDigits(ZFill(Str(n), width))
    ensures |ZFill(Str(n), width)| == if |Str(n)| >= width then |Str(n)| else width
    ensures Value(ZFill(Str(n), width)) == n
  {
    ValueOfStr(n);
    StrShape(n);
    if |Str(n)| < width {
      ValueIgnoresLeadingZeros(width - |Str(n)|, Str(n));
    }
  }
}
