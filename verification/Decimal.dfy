/** Decimal numbers as text: how 64-bit numbers are printed, and what parses as one. */
module Decimal {
  import opened Common

  function DigitChar(d: nat): (c: char)
    requires d < 10
    ensures IsDigit(c) && DigitValue(c) == d
  {
    ('0' as int + d) as char
  }

  predicate IsDigit(c: char) {
    '0' <= c <= '9'
  }

  function DigitValue(c: char): nat
    requires IsDigit(c)
  {
    c as int - '0' as int
  }

  predicate AllDigits(s: string) {
    forall i :: 0 <= i < |s| ==> IsDigit(s[i])
  }

  /** The number without leading zeros. */
  function Print(n: nat): (s: string)
    ensures s != [] && AllDigits(s)
  {
    if n < 10 then [DigitChar(n)] else Print(n / 10) + [DigitChar(n % 10)]
  }

  function Value(s: string): nat
    requires AllDigits(s)
  {
    if s == [] then 0 else 10 * Value(s[..|s| - 1]) + DigitValue(s[|s| - 1])
  }

  /** Accepts digits, also after a plus sign and with leading zeros, up to the largest 64-bit
      value. */
  function Parse(s: string): Option<U64> {
    var digits := if s != [] && s[0] == '+' then s[1..] else s;
    if digits != [] && AllDigits(digits) && Value(digits) <= U64_MAX then Some(Value(digits)) else None
  }

  lemma {:induction false} ValueOfPrint(n: nat)
    ensures Value(Print(n)) == n
  {
    if 10 <= n {
      ValueOfPrint(n / 10);
      assert Print(n)[..|Print(n)| - 1] == Print(n / 10);
    }
  }

  /** Printing and parsing a 64-bit number gives it back. */
  lemma ParsePrint(n: U64)
    ensures Parse(Print(n)) == Some(n)
  {
    ValueOfPrint(n);
    assert IsDigit(Print(n)[0]);
  }

  /** Different numbers are printed differently. */
  lemma PrintInjective(m: nat, n: nat)
    requires Print(m) == Print(n)
    ensures m == n
  {
    ValueOfPrint(m);
    ValueOfPrint(n);
  }

  function Zeros(k: nat): (s: string)
    ensures |s| == k && AllDigits(s)
  {
    seq(k, _ => '0')
  }

  lemma {:induction false} ValueOfZeros(k: nat, s: string)
    requires AllDigits(s)
    ensures Value(Zeros(k) + s) == Value(s)
  {
    if s != [] {
      ValueOfZeros(k, s[..|s| - 1]);
      assert (Zeros(k) + s)[..|Zeros(k) + s| - 1] == Zeros(k) + s[..|s| - 1];
    } else if 0 < k {
      ValueOfZeros(k - 1, s);
      assert Zeros(k) + s == Zeros(k) && Zeros(k - 1) + s == Zeros(k - 1);
      assert Zeros(k)[..k - 1] == Zeros(k - 1);
    }
  }

  lemma ValueOfOne(c: char)
    requires IsDigit(c)
    ensures Value([c]) == DigitValue(c) && Print(DigitValue(c)) == [c]
  {
    assert [c][..0] == [];
  }

  lemma ValueStep(front: string, c: char)
    requires AllDigits(front) && IsDigit(c)
    ensures Value(front + [c]) == 10 * Value(front) + DigitValue(c)
  {
    assert (front + [c])[..|front|] == front;
  }

  lemma PrintStep(n: nat, c: char)
    requires 0 < n && IsDigit(c)
    ensures Print(10 * n + DigitValue(c)) == Print(n) + [c]
  {
    var m := 10 * n + DigitValue(c);
    assert m / 10 == n && m % 10 == DigitValue(c);
  }

  lemma DigitAfterZeros(k: nat, c: char)
    requires IsDigit(c)
    ensures Zeros(k) + "0" + [c] == Zeros(k + 1) + Print(DigitValue(c))
  {
    ValueOfOne(c);
    assert Zeros(k) + "0" == Zeros(k + 1);
  }

  lemma DigitAfterNumber(k: nat, n: nat, c: char)
    requires 0 < n && IsDigit(c)
    ensures Zeros(k) + Print(n) + [c] == Zeros(k) + Print(10 * n + DigitValue(c))
  {
    PrintStep(n, c);
    assert Zeros(k) + Print(n) + [c] == Zeros(k) + (Print(n) + [c]);
  }

  /** Digits are the printed number they stand for, after some zeros. */
  lemma {:induction false} DigitsArePrinted(s: string) returns (k: nat)
    requires s != [] && AllDigits(s)
    ensures s == Zeros(k) + Print(Value(s))
  {
    var front, c := s[..|s| - 1], s[|s| - 1];
    assert s == front + [c];
    if front == [] {
      ValueOfOne(c);
      assert s == [c] && Zeros(0) + [c] == [c];
      k := 0;
    } else {
      k := DigitsArePrinted(front);
      var n := Value(front);
      ValueStep(front, c);
      if n == 0 {
        DigitAfterZeros(k, c);
        assert Print(0) == "0";
        k := k + 1;
      } else {
        DigitAfterNumber(k, n, c);
      }
    }
  }

  lemma PaddedParses(k: nat, n: U64, s: string)
    requires s == Zeros(k) + Print(n) || s == "+" + (Zeros(k) + Print(n))
    ensures Parse(s) == Some(n)
  {
    var digits := Zeros(k) + Print(n);
    ValueOfZeros(k, Print(n));
    ValueOfPrint(n);
    assert IsDigit(digits[0]);
    assert s == "+" + digits ==> s[1..] == digits;
  }

  lemma ParsedIsPadded(s: string, n: U64) returns (k: nat)
    requires Parse(s) == Some(n)
    ensures s == Zeros(k) + Print(n) || s == "+" + (Zeros(k) + Print(n))
  {
    var digits := if s[0] == '+' then s[1..] else s;
    k := DigitsArePrinted(digits);
    assert s == digits || s == "+" + digits;
  }

  /** A text is read as n exactly when it is n as printed, after any zeros and perhaps a plus. */
  lemma ParseExactly(s: string, n: U64)
    ensures Parse(s) == Some(n) <==>
      exists k: nat :: s == Zeros(k) + Print(n) || s == "+" + (Zeros(k) + Print(n))
  {
    if Parse(s) == Some(n) {
      var k := ParsedIsPadded(s, n);
    }
    forall k: nat | s == Zeros(k) + Print(n) || s == "+" + (Zeros(k) + Print(n)) ensures Parse(s) == Some(n) {
      PaddedParses(k, n, s);
    }
  }

  function Pow10(k: nat): nat {
    if k == 0 then 1 else 10 * Pow10(k - 1)
  }

  lemma {:induction false} PrintLength(n: nat, k: nat)
    requires 0 < k && n < Pow10(k)
    ensures |Print(n)| <= k
  {
    if 10 <= n {
      PrintLength(n / 10, k - 1);
    }
  }

  /** A 64-bit number has at most twenty digits. */
  lemma PrintedU64Length(n: U64)
    ensures |Print(n)| <= 20
  {
    assert Pow10(10) == 10000000000;
    Pow10Add(10, 10);
    PrintLength(n, 20);
  }

  lemma {:induction false} Pow10Add(a: nat, b: nat)
    ensures Pow10(a + b) == Pow10(a) * Pow10(b)
  {
    if 0 < a {
      Pow10Add(a - 1, b);
    }
  }
}
