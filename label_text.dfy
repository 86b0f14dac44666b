/**
 * The text of a deviation label: `f"{tegn}{forskel}"` where `forskel` is an
 * integer and `tegn` is "+" for a strictly positive value and "" otherwise.
 * Python's decimal rendering of an int is modelled together with a parser,
 * so that the text can be shown to carry its value exactly.
 */
module LabelText {
  import opened Wrappers

  predicate IsDigit(c: char) {
    '0' <= c <= '9'
  }

  predicate AllDigits(s: string) {
    forall i :: 0 <= i < |s| ==> IsDigit(s[i])
  }

  function DigitChar(d: int): (c: char)
    requires 0 <= d < 10
    ensures IsDigit(c)
  {
    (('0' as int) + d) as char
  }

  /** Decimal digits of `n`, most significant first, without leading zeros. */
  function Digits(n: nat): (s: string)
    ensures |s| >= 1
    ensures AllDigits(s)
    ensures s[0] == '0' ==> n == 0 && s == "0"
  {
    if n < 10 then [DigitChar(n)] else Digits(n / 10) + [DigitChar(n % 10)]
  }

  /** Python's `str(n)` for an int: a minus sign only for negative values. */
  function IntText(n: int): string {
    if n < 0 then "-" + Digits(-n) else Digits(n)
  }

  /** The label text for a truncated difference `d`. */
  function Format(d: int): (s: string)
    ensures |s| >= 1
    ensures s[0] == '+' <==> d > 0
    ensures s[0] == '-' <==> d < 0
    ensures s == "0" <==> d == 0
    ensures AllDigits(s[1..])
    ensures d != 0 ==> |s| >= 2 && s[1] != '0'
  {
    var sign := if d > 0 then "+" else "";
    sign + IntText(d)
  }

  function DigitValue(c: char): (d: nat)
    requires IsDigit(c)
    ensures d < 10 && DigitChar(d) == c
  {
    c as int - '0' as int
  }

  /** Value of a string of decimal digits, read left to right. */
  function DigitsValue(s: string): nat
    requires AllDigits(s)
  {
    if |s| == 0 then 0
    else
      var n := |s| - 1;
      10 * DigitsValue(s[..n]) + DigitValue(s[n])
  }

  /** Reads a label back: an optional '+' or '-' followed by at least one digit. */
  function Parse(s: string): Option<int> {
    if |s| == 0 then None
    else if s[0] == '+' || s[0] == '-' then
      var body := s[1..];
      if |body| == 0 || !AllDigits(body) then None
      else if s[0] == '+' then Some(DigitsValue(body))
      else var v: int := DigitsValue(body); Some(-v)
    else if AllDigits(s) then Some(DigitsValue(s))
    else None
  }

  lemma {:induction false} DigitsRoundTrip(n: nat)
    ensures DigitsValue(Digits(n)) == n
  {
    if n >= 10 {
      var s := Digits(n);
      assert s[..|s| - 1] == Digits(n / 10);
      DigitsRoundTrip(n / 10);
    }
  }

  /** A '+' followed by the digits of a positive number reads back as that number. */
  lemma ParsePlus(n: nat)
    ensures Parse(['+'] + Digits(n)) == Some(n)
  {
    var s := ['+'] + Digits(n);
    assert s[0] == '+';
    assert s[1..] == Digits(n);
    DigitsRoundTrip(n);
  }

  /** A '-' followed by the digits of a number reads back as its negation. */
  lemma ParseMinus(n: nat)
    ensures Parse(['-'] + Digits(n)) == Some(-(n as int))
  {
    var s := ['-'] + Digits(n);
    assert s[0] == '-';
    assert s[1..] == Digits(n);
    DigitsRoundTrip(n);
  }

  lemma FormatRoundTripPositive(d: int)
    requires d > 0
    ensures Parse(Format(d)) == Some(d)
  {
    assert Format(d) == ['+'] + Digits(d);
    ParsePlus(d);
  }

  lemma FormatRoundTripNegative(d: int)
    requires d < 0
    ensures Parse(Format(d)) == Some(d)
  {
    var n: nat := -d;
    assert Format(d) == ['-'] + Digits(n);
    ParseMinus(n);
  }

  lemma FormatRoundTripZero()
    ensures Parse(Format(0)) == Some(0)
  {
    var s := Digits(0);
    assert Format(0) == s;
    assert |s| == 1 && s[0] == '0' && AllDigits(s);
    DigitsRoundTrip(0);
  }

  /** The label text determines the truncated difference it was made from. */
  lemma FormatRoundTrip(d: int)
    ensures Parse(Format(d)) == Some(d)
  {
    if d > 0 {
      FormatRoundTripPositive(d);
    } else if d < 0 {
      FormatRoundTripNegative(d);
    } else {
      FormatRoundTripZero();
    }
  }

  /** Different differences never share a label text. */
  lemma FormatInjective(d1: int, d2: int)
    ensures Format(d1) == Format(d2) ==> d1 == d2
  {
    FormatRoundTrip(d1);
    FormatRoundTrip(d2);
  }

  lemma FormatExamples()
    ensures Format(5) == "+5"
    ensures Format(-3) == "-3"
    ensures Format(0) == "0"
    ensures Format(20) == "+20"
    ensures Format(-120) == "-120"
  {
  }
}
