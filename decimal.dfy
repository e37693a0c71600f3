/**
 * Decimal rendering of integers, as Python's `str(n)`, `'{}'.format(n)` and
 * the zero-padded format spec `0Nd` produce it, together with the digit-string value that
 * reads such a rendering back.
 */
module Decimal {
  import opened Wrappers

  predicate IsDigit(c: char) { '0' <= c <= '9' }

  predicate IsDigits(s: string) { forall i :: 0 <= i < |s| ==> IsDigit(s[i]) }

  function DigitChar(d: nat): (c: char)
    requires d < 10
    ensures IsDigit(c)
  {
    ('0' as int + d) as char
  }

  function DigitValue(c: char): (d: nat)
    requires IsDigit(c)
    ensures d < 10
  {
    c as int - '0' as int
  }

  /** Python's `str(n)` for a non-negative int: the shortest decimal rendering. */
  function Digits(n: nat): (s: string)
    ensures 1 <= |s| && IsDigits(s)
    ensures |s| > 1 ==> s[0] != '0'
  {
    if n < 10 then [DigitChar(n)] else Digits(n / 10) + [DigitChar(n % 10)]
  }

  /** Python's `str(n)` for any int: a minus sign before the digits of a negative value. */
  function IntToString(n: int): string
  {
    if n < 0 then "-" + Digits(-n) else Digits(n)
  }

  function Zeros(k: nat): (s: string)
    ensures |s| == k && IsDigits(s)
  {
    seq(k, _ => '0')
  }

  /**
   * Python's zero-padded format spec `0wd` applied to a non-negative int: the digits of `n`,
   * left-filled with zeros up to width `w`, never truncated.
   */
  function ZeroPad(n: nat, w: nat): string
  {
    var d := Digits(n);
    if |d| >= w then d else Zeros(w - |d|) + d
  }

  /** The number a digit string denotes (leading zeros allowed). */
  function DigitsValue(s: string): nat
    requires IsDigits(s)
  {
    if s == [] then 0 else 10 * DigitsValue(s[..|s| - 1]) + DigitValue(s[|s| - 1])
  }

  /** Python's `int(s)` restricted to what `str` produces: an optional minus sign and digits. */
  function ParseInt(s: string): Option<int>
  {
    if |s| > 1 && s[0] == '-' && IsDigits(s[1..]) then Some(-(DigitsValue(s[1..]) as int))
    else if |s| > 0 && IsDigits(s) then Some(DigitsValue(s))
    else None
  }

  /** Reading back the shortest rendering gives the number again. */
  lemma {:induction false} DigitsRoundTrip(n: nat)
    ensures DigitsValue(Digits(n)) == n
  {
    if n >= 10 {
      DigitsRoundTrip(n / 10);
      var s := Digits(n);
      assert s[..|s| - 1] == Digits(n / 10);
    }
  }

  /** `str` is injective on non-negative ints. */
  lemma DigitsInjective(a: nat, b: nat)
    ensures Digits(a) == Digits(b) <==> a == b
  {
    if Digits(a) == Digits(b) {
      DigitsRoundTrip(a);
      DigitsRoundTrip(b);
    }
  }

  lemma ParseDigits(m: nat)
    ensures ParseInt(Digits(m)) == Some(m)
  {
    var s := Digits(m);
    assert IsDigit(s[0]);
    DigitsRoundTrip(m);
  }

  lemma ParseNegative(m: nat)
    ensures ParseInt("-" + Digits(m)) == Some(-(m as int))
  {
    var s := "-" + Digits(m);
    assert s[1..] == Digits(m);
    DigitsRoundTrip(m);
  }

  /** `int(str(n)) == n` for every int. */
  lemma IntToStringRoundTrip(n: int)
    ensures ParseInt(IntToString(n)) == Some(n)
  {
    if n < 0 {
      ParseNegative(-n);
    } else {
      ParseDigits(n);
    }
  }

  /** Distinct ints never share a rendering, so `str(account_id)` keys keep accounts apart. */
  lemma IntToStringInjective(a: int, b: int)
    ensures IntToString(a) == IntToString(b) <==> a == b
  {
    if IntToString(a) == IntToString(b) {
      IntToStringRoundTrip(a);
      IntToStringRoundTrip(b);
    }
  }

  /** Leading zeros do not change the value of a digit string. */
  lemma {:induction false} LeadingZerosValue(k: nat, s: string)
    requires IsDigits(s)
    ensures IsDigits(Zeros(k) + s) && DigitsValue(Zeros(k) + s) == DigitsValue(s)
    decreases |s|, k
  {
    var t := Zeros(k) + s;
    if s == [] {
      assert t == Zeros(k);
      if k > 0 {
        assert t[..|t| - 1] == Zeros(k - 1) + [];
        LeadingZerosValue(k - 1, []);
      }
    } else {
      assert t[..|t| - 1] == Zeros(k) + s[..|s| - 1];
      LeadingZerosValue(k, s[..|s| - 1]);
    }
  }

  /**
   * The format spec `0wd` renders `n` as a digit string of width max(w, |str(n)|) that
   * still denotes `n`.
   */
  lemma ZeroPadValue(n: nat, w: nat)
    ensures IsDigits(ZeroPad(n, w))
    ensures |ZeroPad(n, w)| == if |Digits(n)| >= w then |Digits(n)| else w
    ensures DigitsValue(ZeroPad(n, w)) == n
  {
    DigitsRoundTrip(n);
    var d := Digits(n);
    if |d| < w {
      LeadingZerosValue(w - |d|, d);
    }
  }

  /** Numbers below 100 have at most two digits, so the format spec `02d` gives exactly two characters. */
  lemma TwoDigitWidth(n: nat)
    requires n < 100
    ensures |ZeroPad(n, 2)| == 2 && IsDigits(ZeroPad(n, 2)) && DigitsValue(ZeroPad(n, 2)) == n
  {
    ZeroPadValue(n, 2);
    if n >= 10 {
      assert Digits(n / 10) == [DigitChar(n / 10)];
    }
  }
}
