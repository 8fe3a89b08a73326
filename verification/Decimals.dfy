/** Strings of decimal digits and the whole numbers they write. */
module Decimals {

  predicate IsDigit(c: char) {
    '0' <= c <= '9'
  }

  predicate AllDigits(s: string) {
    forall i :: 0 <= i < |s| ==> IsDigit(s[i])
  }

  function DigitValue(c: char): nat
    requires IsDigit(c)
  {
    c as int - '0' as int
  }

  function Pow10(n: nat): nat {
    if n == 0 then 1 else 10 * Pow10(n - 1)
  }

  function ValueOf(s: string): nat
    requires AllDigits(s)
  {
    if s == "" then 0 else 10 * ValueOf(s[..|s| - 1]) + DigitValue(s[|s| - 1])
  }

  lemma {:induction false} ValueConcat(s: string, t: string)
    requires AllDigits(s) && AllDigits(t)
    ensures AllDigits(s + t) && ValueOf(s + t) == ValueOf(s) * Pow10(|t|) + ValueOf(t)
  {
    if t == "" {
      assert s + t == s;
    } else {
      var front := t[..|t| - 1];
      ValueConcat(s, front);
      assert (s + t)[..|s + t| - 1] == s + front;
      assert 10 * (ValueOf(s) * Pow10(|front|)) == ValueOf(s) * Pow10(|t|);
    }
  }

  lemma {:induction false} Pow10Positive(n: nat)
    ensures Pow10(n) >= 1
  {
    if n > 0 {
      Pow10Positive(n - 1);
    }
  }

  /** A whole number written out. */
  function Digits(n: nat): (s: string)
    ensures AllDigits(s) && s != ""
  {
    if n < 10 then [('0' as int + n) as char] else Digits(n / 10) + [('0' as int + n % 10) as char]
  }

  lemma {:induction false} DigitsWrite(n: nat)
    ensures ValueOf(Digits(n)) == n
  {
    if n >= 10 {
      DigitsWrite(n / 10);
      var s := Digits(n);
      assert s[..|s| - 1] == Digits(n / 10);
    } else {
      assert Digits(n)[..0] == "";
    }
  }

  function Zeros(n: nat): (s: string)
    ensures |s| == n && AllDigits(s)
  {
    if n == 0 then "" else Zeros(n - 1) + "0"
  }

  lemma {:induction false} ZerosAreNothing(n: nat)
    ensures ValueOf(Zeros(n)) == 0
  {
    if n > 0 {
      ZerosAreNothing(n - 1);
      assert Zeros(n)[..n - 1] == Zeros(n - 1);
    }
  }

  lemma ZerosInFront(n: nat, s: string)
    requires AllDigits(s)
    ensures ValueOf(Zeros(n) + s) == ValueOf(s)
  {
    ZerosAreNothing(n);
    ValueConcat(Zeros(n), s);
    assert 0 * Pow10(|s|) == 0;
  }

  /** Written out to at least some width, with zeros in front. */
  function Padded(n: nat, width: nat): (s: string)
    ensures AllDigits(s) && s != ""
  {
    var digits := Digits(n);
    if |digits| < width then Zeros(width - |digits|) + digits else digits
  }

  lemma PaddedWrites(n: nat, width: nat)
    ensures ValueOf(Padded(n, width)) == n
  {
    var digits := Digits(n);
    DigitsWrite(n);
    if |digits| < width {
      ZerosInFront(width - |digits|, digits);
    }
  }

  /** The longest run of digits a string ends in. */
  function Trailing(s: string): (t: string)
    ensures AllDigits(t)
  {
    if s != "" && IsDigit(s[|s| - 1]) then Trailing(s[..|s| - 1]) + [s[|s| - 1]] else ""
  }

  lemma {:induction false} TrailingConcat(s: string, t: string)
    requires AllDigits(t)
    ensures Trailing(s + t) == Trailing(s) + t
  {
    if t == "" {
      assert s + t == s;
    } else {
      TrailingConcat(s, t[..|t| - 1]);
      assert (s + t)[..|s + t| - 1] == s + t[..|t| - 1];
    }
  }
}
