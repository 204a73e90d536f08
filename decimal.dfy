/**
 * Decimal text of integers: `Long.toString`, `Long.parseLong` on plain digit
 * strings, and the ten-digit zero-padded counter ZooKeeper appends to the
 * name of a sequential node.
 */
module Decimal {

  predicate IsDigit(c: char) {
    '0' <= c <= '9'
  }

  /** Non-empty and made of decimal digits only. */
  predicate IsDigits(s: string) {
    |s| > 0 && forall i :: 0 <= i < |s| ==> IsDigit(s[i])
  }

  function DigitChar(d: nat): (c: char)
    requires d < 10
    ensures IsDigit(c)
  {
    ['0', '1', '2', '3', '4', '5', '6', '7', '8', '9'][d]
  }

  function DigitValue(c: char): (d: nat)
    requires IsDigit(c)
    ensures d < 10 && DigitChar(d) == c
  {
    c as int - '0' as int
  }

  /** The shortest decimal text of `n`. */
  function Digits(n: nat): (s: string)
    ensures IsDigits(s)
    ensures |s| > 1 ==> s[0] != '0'
  {
    if n < 10 then [DigitChar(n)] else Digits(n / 10) + [DigitChar(n % 10)]
  }

  /** The value of a string of digits (0 for the empty string). */
  function ParseDigits(s: string): nat
    requires forall i :: 0 <= i < |s| ==> IsDigit(s[i])
  {
    if s == [] then 0 else ParseDigits(s[..|s| - 1]) * 10 + DigitValue(s[|s| - 1])
  }

  lemma {:induction false} ParseDigitsOfDigits(n: nat)
    ensures ParseDigits(Digits(n)) == n
  {
    var s := Digits(n);
    if n >= 10 {
      assert s[..|s| - 1] == Digits(n / 10) && DigitValue(s[|s| - 1]) == n % 10;
      ParseDigitsOfDigits(n / 10);
    } else {
      assert DigitValue(s[0]) == n;
    }
  }

  /** Leading zeros do not change the value. */
  lemma {:induction false} ParseDigitsLeadingZeros(k: nat, s: string)
    requires forall i :: 0 <= i < |s| ==> IsDigit(s[i])
    ensures forall i :: 0 <= i < |Zeros(k) + s| ==> IsDigit((Zeros(k) + s)[i])
    ensures ParseDigits(Zeros(k) + s) == ParseDigits(s)
    decreases |s|
  {
    assert forall i :: 0 <= i < |Zeros(k) + s| ==> IsDigit((Zeros(k) + s)[i]);
    if s == [] {
      assert Zeros(k) + s == Zeros(k);
      ParseZeros(k);
    } else {
      var init := s[..|s| - 1];
      assert (Zeros(k) + s)[..|Zeros(k) + s| - 1] == Zeros(k) + init;
      ParseDigitsLeadingZeros(k, init);
    }
  }

  function Zeros(k: nat): (z: string)
    ensures |z| == k && forall i :: 0 <= i < k ==> z[i] == '0'
  {
    if k == 0 then [] else Zeros(k - 1) + ['0']
  }

  lemma {:induction false} ParseZeros(k: nat)
    ensures ParseDigits(Zeros(k)) == 0
  {
    if k > 0 {
      assert Zeros(k)[..k - 1] == Zeros(k - 1);
      ParseZeros(k - 1);
    }
  }

  /** `Long.toString(x)`: a minus sign for negative values, then the digits. */
  function LongToString(x: int): string {
    if x < 0 then "-" + Digits(-x) else Digits(x)
  }

  /** `Long.parseLong` on the text `LongToString` produces. */
  function ParseLong(s: string): (x: int)
    requires |s| > 0 && (s[0] == '-' ==> |s| > 1)
    requires forall i :: (if s[0] == '-' then 1 else 0) <= i < |s| ==> IsDigit(s[i])
  {
    var magnitude: int := if s[0] == '-' then ParseDigits(s[1..]) else ParseDigits(s);
    if s[0] == '-' then -magnitude else magnitude
  }

  /** `Long.toString` is read back by `Long.parseLong` as the same value. */
  lemma LongToStringRoundTrip(x: int)
    ensures var s := LongToString(x);
      && |s| > 0 && (s[0] == '-' ==> |s| > 1)
      && (forall i :: (if s[0] == '-' then 1 else 0) <= i < |s| ==> IsDigit(s[i]))
      && ParseLong(s) == x
  {
    if x < 0 {
      ParseDigitsOfDigits(-x);
      assert LongToString(x)[1..] == Digits(-x);
    } else {
      ParseDigitsOfDigits(x);
    }
  }

  /**
   * The name ZooKeeper gives the `n`th sequential child of a node created at
   * `parent + "/"`: the counter, zero-padded to ten digits.
   */
  function SequenceName(n: nat): (s: string)
    ensures IsDigits(s) && |s| >= 10
  {
    var d := Digits(n);
    if |d| < 10 then Zeros(10 - |d|) + d else d
  }

  lemma SequenceNameValue(n: nat)
    ensures ParseDigits(SequenceName(n)) == n
  {
    ParseDigitsOfDigits(n);
    var d := Digits(n);
    if |d| < 10 {
      ParseDigitsLeadingZeros(10 - |d|, d);
    }
  }
}
