/**
 * Python's `str()` of an `int`: an optional minus sign, then the decimal
 * digits, most significant first, with no leading zero.  The reader
 * `ParseInt` is the partner that shows nothing is lost when a radius or a
 * sleeper density is written into a parameter or a file name.
 */
module DecimalText {
  import opened Wrappers

  predicate IsDigit(c: char) {
    '0' <= c <= '9'
  }

  predicate AllDigits(s: string) {
    forall i :: 0 <= i < |s| ==> IsDigit(s[i])
  }

  function DigitValue(c: char): (d: nat)
    requires IsDigit(c)
    ensures d < 10
  {
    (c as int) - ('0' as int)
  }

  function DigitChar(d: nat): (c: char)
    requires d < 10
    ensures IsDigit(c) && DigitValue(c) == d
  {
    (('0' as int) + d) as char
  }

  /** Decimal form of a natural number. */
  function NatToString(n: nat): (s: string)
    ensures |s| > 0 && AllDigits(s)
    ensures s[0] == '0' <==> n == 0
    ensures n == 0 ==> s == "0"
    decreases n
  {
    if n < 10 then [DigitChar(n)] else NatToString(n / 10) + [DigitChar(n % 10)]
  }

  /** Decimal form of an integer, as `str(i)` writes it. */
  function IntToString(i: int): (s: string)
    ensures |s| > 0
    ensures i >= 0 ==> AllDigits(s) && (s[0] == '0' <==> i == 0) && (i == 0 ==> s == "0")
    ensures i < 0 ==> |s| >= 2 && s[0] == '-' && AllDigits(s[1..]) && s[1] != '0'
  {
    if i < 0 then "-" + NatToString(-i) else NatToString(i)
  }

  /** A decimal form holds only digits and the minus sign. */
  lemma DecimalAlphabet(i: int)
    ensures forall k :: 0 <= k < |IntToString(i)| ==> IsDigit(IntToString(i)[k]) || IntToString(i)[k] == '-'
  {
    var s := IntToString(i);
    if i < 0 {
      forall k | 0 < k < |s|
        ensures IsDigit(s[k])
      {
        assert s[k] == s[1..][k - 1];
      }
    }
  }

  /** Reads a non-empty run of decimal digits. */
  function ParseNat(s: string): (r: Option<nat>)
    ensures r.Some? <==> |s| > 0 && AllDigits(s)
    decreases |s|
  {
    if |s| == 0 || !IsDigit(s[|s| - 1]) then None
    else if |s| == 1 then Some(DigitValue(s[0]))
    else
      match ParseNat(s[..|s| - 1])
      case None => None
      case Some(high) => Some(10 * high + DigitValue(s[|s| - 1]))
  }

  /** Reads an optional minus sign followed by decimal digits. */
  function ParseInt(s: string): (r: Option<int>)
  {
    if |s| > 0 && s[0] == '-' then
      match ParseNat(s[1..])
      case None => None
      case Some(n) => Some(-(n as int))
    else
      match ParseNat(s)
      case None => None
      case Some(n) => Some(n as int)
  }

  lemma {:induction false} NatToStringRoundTrip(n: nat)
    ensures ParseNat(NatToString(n)) == Some(n)
    decreases n
  {
    if n >= 10 {
      var s := NatToString(n);
      assert s[..|s| - 1] == NatToString(n / 10);
      NatToStringRoundTrip(n / 10);
    }
  }

  /** Every integer's decimal form reads back as that integer. */
  lemma IntToStringRoundTrip(i: int)
    ensures ParseInt(IntToString(i)) == Some(i)
  {
    if i < 0 {
      var digits := NatToString(-i);
      assert IntToString(i) == "-" + digits;
      assert ("-" + digits)[1..] == digits;
      NatToStringRoundTrip(-i);
    } else {
      var digits := NatToString(i);
      assert IsDigit(digits[0]);
      NatToStringRoundTrip(i);
    }
  }

  /** Distinct integers have distinct decimal forms. */
  lemma IntToStringInjective(i: int, j: int)
    ensures IntToString(i) == IntToString(j) ==> i == j
  {
    IntToStringRoundTrip(i);
    IntToStringRoundTrip(j);
  }
}
