/**
 * Decimal text of integers, as JavaScript renders a whole number with
 * `toString()` or a template literal, and the value such text reads back as.
 */
module Decimal {
  import opened Wrappers

  predicate IsDigit(c: char) {
    '0' <= c <= '9'
  }

  function DigitValue(c: char): nat
    requires IsDigit(c)
  {
    c as int - '0' as int
  }

  /** The character of the decimal digit `d`. */
  function DigitChar(d: nat): (c: char)
    requires d < 10
    ensures IsDigit(c) && DigitValue(c) == d
  {
    ('0' as int + d) as char
  }

  predicate AllDigits(s: string) {
    forall i :: 0 <= i < |s| ==> IsDigit(s[i])
  }

  /** A numeral: one or more decimal digits. */
  predicate IsNumeral(s: string) {
    |s| > 0 && AllDigits(s)
  }

  /** The value of a string of digits, most significant first (leading zeros allowed). */
  function DigitsValue(s: string): nat
    requires AllDigits(s)
    decreases |s|
  {
    if |s| == 0 then 0
    else 10 * DigitsValue(s[..|s| - 1]) + DigitValue(s[|s| - 1])
  }

  /** The canonical decimal text of a natural number: no sign, no leading zero. */
  function NatToDec(n: nat): (s: string)
    ensures IsNumeral(s)
    ensures s[0] == '0' <==> n == 0
    ensures n == 0 ==> s == "0"
  {
    if n < 10 then [DigitChar(n)]
    else NatToDec(n / 10) + [DigitChar(n % 10)]
  }

  /** The text JavaScript produces for a whole number: a minus sign for negatives, then the digits. */
  function IntToDec(n: int): (s: string)
    ensures |s| > 0
    ensures n < 0 <==> s[0] == '-'
  {
    if n < 0 then "-" + NatToDec(-n) else NatToDec(n)
  }

  /**
   * The value `parseInt(s, 10)` gives for text made of an optional minus
   * sign followed by digits; `None` for any other text.
   */
  function DecToInt(s: string): (r: Option<int>)
    ensures r.Some? <==> IsNumeral(s) || (|s| > 0 && s[0] == '-' && IsNumeral(s[1..]))
    ensures r.Some? && IsNumeral(s) ==> r.value == DigitsValue(s)
    ensures r.Some? && !IsNumeral(s) ==> r.value == -(DigitsValue(s[1..]) as int)
    ensures r.Some? && r.value < 0 ==> s[0] == '-'
  {
    if |s| > 0 && s[0] == '-' then
      (if IsNumeral(s[1..]) then Some(-(DigitsValue(s[1..]) as int)) else None)
    else if IsNumeral(s) then Some(DigitsValue(s))
    else None
  }

  function Pow10(k: nat): (p: nat)
    ensures p >= 1
  {
    if k == 0 then 1 else 10 * Pow10(k - 1)
  }

  /** `k` zero digits. */
  function Zeros(k: nat): (z: string)
    ensures |z| == k && AllDigits(z)
    ensures forall i :: 0 <= i < k ==> z[i] == '0'
  {
    if k == 0 then "" else Zeros(k - 1) + "0"
  }

  /** A run of zeros reads as zero. */
  lemma {:induction false} ZerosValue(k: nat)
    ensures DigitsValue(Zeros(k)) == 0
  {
    if k > 0 {
      assert Zeros(k)[..k - 1] == Zeros(k - 1);
      ZerosValue(k - 1);
    }
  }

  /** Reading the canonical text of `n` gives `n` back. */
  lemma {:induction false} NatToDecValue(n: nat)
    ensures DigitsValue(NatToDec(n)) == n
  {
    if n >= 10 {
      var s := NatToDec(n);
      assert s[..|s| - 1] == NatToDec(n / 10);
      NatToDecValue(n / 10);
    }
  }

  /** Writing an integer as text and parsing it back is lossless. */
  lemma IntToDecRoundTrip(n: int)
    ensures DecToInt(IntToDec(n)) == Some(n)
  {
    if n < 0 {
      var s := IntToDec(n);
      assert s[1..] == NatToDec(-n);
      NatToDecValue(-n);
    } else {
      NatToDecValue(n);
    }
  }

  /** Distinct integers have distinct texts. */
  lemma IntToDecInjective(a: int, b: int)
    ensures IntToDec(a) == IntToDec(b) <==> a == b
  {
    IntToDecRoundTrip(a);
    IntToDecRoundTrip(b);
  }

  lemma AllDigitsConcat(s: string, t: string)
    requires AllDigits(s) && AllDigits(t)
    ensures AllDigits(s + t)
  {
    forall i | 0 <= i < |s + t| ensures IsDigit((s + t)[i]) {
      if i < |s| { assert (s + t)[i] == s[i]; } else { assert (s + t)[i] == t[i - |s|]; }
    }
  }

  lemma ShiftStep(a: int, p: int, b: int, d: int)
    ensures 10 * (a * p + b) + d == a * (10 * p) + (10 * b + d)
  {
    assert 10 * (a * p) == a * (10 * p);
  }

  /** Appending digits multiplies the value already read by a power of ten. */
  lemma {:induction false} DigitsValueAppend(s: string, t: string)
    requires AllDigits(s) && AllDigits(t)
    ensures AllDigits(s + t)
    ensures DigitsValue(s + t) == DigitsValue(s) * Pow10(|t|) + DigitsValue(t)
  {
    AllDigitsConcat(s, t);
    if |t| == 0 {
      assert s + t == s;
    } else {
      var t' := t[..|t| - 1];
      var last := t[|t| - 1];
      AllDigitsConcat(s, t');
      assert (s + t)[..|s + t| - 1] == s + t';
      assert (s + t)[|s + t| - 1] == last;
      DigitsValueAppend(s, t');
      assert DigitsValue(s + t) == 10 * DigitsValue(s + t') + DigitValue(last);
      assert DigitsValue(t) == 10 * DigitsValue(t') + DigitValue(last);
      ShiftStep(DigitsValue(s), Pow10(|t'|), DigitsValue(t'), DigitValue(last));
    }
  }

  /** Multiplying by ten appends a zero digit: the quotient by ten is the number again, the remainder 0. */
  lemma TimesTenDigits(m: nat)
    ensures (m * 10) / 10 == m && (m * 10) % 10 == 0
  {
  }

  /** One more power of ten is one more factor of ten, and keeps a positive number positive. */
  lemma Pow10Step(n: nat, k: nat)
    requires n > 0 && k > 0
    ensures n * Pow10(k) == (n * Pow10(k - 1)) * 10
    ensures n * Pow10(k - 1) > 0
  {
    var p := Pow10(k - 1);
    assert Pow10(k) == 10 * p;
    assert n * (10 * p) == (n * p) * 10;
    assert n * p >= p;
  }

  /** For a positive number, appending `k` zeros to its text is the text of the number times 10^k. */
  lemma {:induction false} NatToDecShift(n: nat, k: nat)
    requires n > 0
    ensures NatToDec(n * Pow10(k)) == NatToDec(n) + Zeros(k)
  {
    if k > 0 {
      var m := n * Pow10(k - 1);
      Pow10Step(n, k);
      NatToDecShift(n, k - 1);
      TimesTenDigits(m);
      assert NatToDec(m * 10) == NatToDec(m) + [DigitChar(0)];
      assert DigitChar(0) == '0';
    }
  }
}
