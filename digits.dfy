/**
 * Decimal digit strings: the `\d+` group of the project URL pattern and the
 * `parseInt(…, 10)` that reads it.
 */
module Digits {

  /** `\d` in a JavaScript regular expression without the `u` flag: ASCII 0-9 only. */
  predicate IsDigit(c: char) {
    '0' <= c <= '9'
  }

  predicate AllDigits(s: string) {
    forall i :: 0 <= i < |s| ==> IsDigit(s[i])
  }

  function DigitValue(c: char): (d: nat)
    requires IsDigit(c)
    ensures d < 10
  {
    c as int - '0' as int
  }

  function DigitChar(d: nat): (c: char)
    requires d < 10
    ensures IsDigit(c) && DigitValue(c) == d
  {
    (d + '0' as int) as char
  }

  /** The longest prefix of `s` made of digits: what the greedy `\d+` consumes. */
  function LeadingDigits(s: string): (r: string)
    ensures r <= s && AllDigits(r)
    ensures |r| == |s| || !IsDigit(s[|r|])
  {
    if s != [] && IsDigit(s[0]) then [s[0]] + LeadingDigits(s[1..]) else []
  }

  /** 10 to the power `k`. */
  function Pow10(k: nat): (p: nat)
    ensures p >= 1
  {
    if k == 0 then 1 else 10 * Pow10(k - 1)
  }

  /**
   * The base-10 value of a digit string, most significant digit first: an
   * n-digit string reads below 10^n, and at least 10^(n-1) when its first
   * digit is not a zero.
   */
  function Value(s: string): (r: nat)
    requires AllDigits(s)
    ensures r < Pow10(|s|)
    ensures s != [] && s[0] != '0' ==> Pow10(|s| - 1) <= r
  {
    if s == [] then 0 else Value(s[..|s| - 1]) * 10 + DigitValue(s[|s| - 1])
  }

  /** The shortest decimal numeral of `n`. */
  function ToDecimal(n: nat): (s: string)
    ensures s != [] && AllDigits(s) && Value(s) == n
    ensures s[0] == '0' ==> s == "0"
  {
    if n < 10 then [DigitChar(n)]
    else
      var s := ToDecimal(n / 10) + [DigitChar(n % 10)];
      assert s[..|s| - 1] == ToDecimal(n / 10);
      s
  }

  /** A run of `k` zero digits. */
  function Zeros(k: nat): (s: string)
    ensures |s| == k && AllDigits(s)
    ensures forall i :: 0 <= i < k ==> s[i] == '0'
  {
    seq(k, _ => '0')
  }

  /** The digits in front of the first non-digit are all that `\d+` reads. */
  lemma {:induction false} LeadingDigitsOfDigits(digits: string, tail: string)
    requires AllDigits(digits)
    ensures LeadingDigits(digits + tail) == digits + LeadingDigits(tail)
  {
    if digits == [] {
      assert digits + tail == tail;
    } else {
      var whole := digits + tail;
      assert whole[0] == digits[0] && whole[1..] == digits[1..] + tail;
      LeadingDigitsOfDigits(digits[1..], tail);
      assert LeadingDigits(whole) == [digits[0]] + (digits[1..] + LeadingDigits(tail));
      assert digits == [digits[0]] + digits[1..];
    }
  }

  /** A leading zero does not change the value `parseInt` reads. */
  lemma {:induction false} ValuePrependZero(s: string)
    requires AllDigits(s)
    ensures AllDigits("0" + s) && Value("0" + s) == Value(s)
  {
    if s != [] {
      var front := s[..|s| - 1];
      assert ("0" + s)[..|s|] == "0" + front;
      ValuePrependZero(front);
    }
  }

  /** Any run of leading zeros is allowed and ignored. */
  lemma {:induction false} ValueLeadingZeros(k: nat, s: string)
    requires AllDigits(s)
    ensures AllDigits(Zeros(k) + s) && Value(Zeros(k) + s) == Value(s)
  {
    if k == 0 {
      assert Zeros(k) + s == s;
    } else {
      ValueLeadingZeros(k - 1, s);
      assert Zeros(k) + s == "0" + (Zeros(k - 1) + s);
      ValuePrependZero(Zeros(k - 1) + s);
    }
  }
}
