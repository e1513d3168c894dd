/** ASCII decimal fields: what sprintf's `%ld` and `%*ld` print and what atol reads back. */
module Decimal {

  /** The decimal digit of d. */
  function DigitChar(d: nat): (c: char)
    requires d < 10
    ensures IsDigit(c) && DigitValue(c) == d
  {
    '0' + d as char
  }

  predicate IsDigit(c: char) {
    '0' <= c <= '9'
  }

  function DigitValue(c: char): nat
    requires IsDigit(c)
  {
    c as nat - '0' as nat
  }

  predicate AllDigits(s: string) {
    forall i :: 0 <= i < |s| ==> IsDigit(s[i])
  }

  /** The text `%ld` prints for a non-negative number. */
  function Digits(n: nat): (s: string)
    ensures s != "" && AllDigits(s)
  {
    if n < 10 then [DigitChar(n)] else Digits(n / 10) + [DigitChar(n % 10)]
  }

  function Spaces(n: nat): (s: string)
    ensures |s| == n && forall i :: 0 <= i < n ==> s[i] == ' '
  {
    seq(n, i => ' ')
  }

  /** The text `%*ld` prints: the digits, right-justified in a field of the given width. */
  function Field(width: nat, n: nat): (s: string)
    ensures |Digits(n)| <= width ==> |s| == width
  {
    if |Digits(n)| < width then Spaces(width - |Digits(n)|) + Digits(n) else Digits(n)
  }

  /** The white space atol skips. */
  predicate IsSpace(c: char) {
    c == ' ' || '\t' <= c <= '\r'
  }

  function SkipSpace(s: string): string {
    if s != "" && IsSpace(s[0]) then SkipSpace(s[1..]) else s
  }

  /** The digit loop of atol, which stops at the first character that is not a digit. */
  function Accumulate(acc: nat, s: string): nat
    decreases |s|
  {
    if s == "" || !IsDigit(s[0]) then acc
    else Accumulate(10 * acc + DigitValue(s[0]), s[1..])
  }

  /** atol: white space, an optional sign, then digits; no digits means 0. */
  function Atol(s: string): int {
    var t := SkipSpace(s);
    if t != "" && t[0] == '-' then -(Accumulate(0, t[1..]) as int)
    else if t != "" && t[0] == '+' then Accumulate(0, t[1..])
    else Accumulate(0, t)
  }

  lemma {:induction false} AccumulateAppend(acc: nat, s: string, t: string)
    requires AllDigits(s)
    ensures Accumulate(acc, s + t) == Accumulate(Accumulate(acc, s), t)
    decreases |s|
  {
    if s == "" {
      assert s + t == t;
    } else {
      assert (s + t)[1..] == s[1..] + t;
      AccumulateAppend(10 * acc + DigitValue(s[0]), s[1..], t);
    }
  }

  lemma {:induction false} AccumulateDigits(n: nat)
    ensures Accumulate(0, Digits(n)) == n
  {
    if n < 10 {
      assert Digits(n)[1..] == "";
    } else {
      AccumulateDigits(n / 10);
      AccumulateAppend(0, Digits(n / 10), [DigitChar(n % 10)]);
      assert [DigitChar(n % 10)][1..] == "";
    }
  }

  lemma {:induction false} SkipSpaces(k: nat, s: string)
    requires s != "" && !IsSpace(s[0])
    ensures SkipSpace(Spaces(k) + s) == s
  {
    if k == 0 {
      assert Spaces(k) + s == s;
    } else {
      assert (Spaces(k) + s)[1..] == Spaces(k - 1) + s;
      SkipSpaces(k - 1, s);
    }
  }

  /** Reading a printed field gives the number back, whatever the padding. */
  lemma FieldRoundTrip(width: nat, n: nat)
    ensures Atol(Field(width, n)) == n
  {
    AccumulateDigits(n);
    var d := Digits(n);
    assert IsDigit(d[0]);
    if |d| < width {
      SkipSpaces(width - |d|, d);
    }
  }

  /** The unpadded text reads back too. */
  lemma DigitsRoundTrip(n: nat)
    ensures Atol(Digits(n)) == n
  {
    AccumulateDigits(n);
    assert IsDigit(Digits(n)[0]);
  }

  function Pow10(k: nat): (p: nat)
    ensures p >= 1
  {
    if k == 0 then 1 else 10 * Pow10(k - 1)
  }

  /** A number fits in k columns exactly when it is below 10^k. */
  lemma {:induction false} DigitsFit(n: nat, k: nat)
    requires k >= 1
    ensures |Digits(n)| <= k <==> n < Pow10(k)
    decreases k
  {
    if k == 1 {
      assert Pow10(1) == 10 * Pow10(0);
    } else if n >= 10 {
      DigitsFit(n / 10, k - 1);
      assert Pow10(k) == 10 * Pow10(k - 1);
    } else {
      assert Pow10(k) == 10 * Pow10(k - 1);
    }
  }
}
