/**
 * Elapsed-time arithmetic and its text form `H:MM:SS.mmm` (ICPC_TIME_FORMAT,
 * main.py:13). Durations are whole seconds; a Python `timedelta` keeps a day
 * count and a seconds-within-the-day part, and `.seconds` reads only the latter.
 */
module Clock {
  import opened Wrappers
  import opened Decimal

  const SECONDS_PER_DAY: nat := 86400
  /** The fixed shift added to every attempt's elapsed time (main.py:26). */
  const SUBMISSION_SHIFT: int := 30
  /** The largest elapsed time a submission may report: five hours (main.py:26). */
  const ELAPSED_CAP: int := 5 * 3600

  /** `timedelta.seconds`: the part of a duration within its (floored) day. */
  function DaySeconds(delta: int): (r: nat)
    ensures r < SECONDS_PER_DAY
    ensures (delta - r) % SECONDS_PER_DAY == 0
  {
    delta % SECONDS_PER_DAY
  }

  /** `min(elapsed + 30 s, 5 h)` (main.py:26). */
  function ShiftAndClamp(elapsed: int): (r: int)
    ensures r <= ELAPSED_CAP && r <= elapsed + SUBMISSION_SHIFT
    ensures r == ELAPSED_CAP || r == elapsed + SUBMISSION_SHIFT
  {
    if elapsed + SUBMISSION_SHIFT < ELAPSED_CAP then elapsed + SUBMISSION_SHIFT else ELAPSED_CAP
  }

  /** ICPC_TIME_FORMAT (main.py:13): the hours as they are, minutes and seconds zero-padded to two digits, milliseconds to three. */
  function FormatClock(h: nat, m: nat, s: nat, ms: nat): string
  {
    Digits(h) + ":" + ZeroPad(m, 2) + ":" + ZeroPad(s, 2) + "." + ZeroPad(ms, 3)
  }

  /** The split an attempt's contest_time uses: `s // 3600, (s // 60) % 60, s % 60` (main.py:28-31). */
  function ElapsedText(secs: nat): string
  {
    FormatClock(secs / 3600, (secs / 60) % 60, secs % 60, 0)
  }

  /** The split the contest durations use: `s // 3600, (s % 3600) // 60, s % 60` (main.py:80, 86). */
  function DurationText(secs: nat): string
  {
    FormatClock(secs / 3600, (secs % 3600) / 60, secs % 60, 0)
  }

  /**
   * Reads an `H:MM:SS.000` text back into seconds: hours of any width, then
   * two-digit minutes and seconds below 60, then zero milliseconds.
   */
  function DecodeClock(t: string): Option<nat>
  {
    if |t| < 11 then None
    else
      var n := |t|;
      var h, m, s := t[..n - 10], t[n - 9..n - 7], t[n - 6..n - 4];
      if t[n - 10] == ':' && t[n - 7] == ':' && t[n - 4] == '.'
         && t[n - 3] == '0' && t[n - 2] == '0' && t[n - 1] == '0'
         && IsDigits(h) && IsDigits(m) && IsDigits(s)
         && DigitsValue(m) < 60 && DigitsValue(s) < 60
      then Some(3600 * DigitsValue(h) + 60 * DigitsValue(m) + DigitsValue(s))
      else None
  }

  /** The two splits agree on every non-negative count of seconds: both lines use one formatter. */
  lemma SameSplit(secs: nat)
    ensures ElapsedText(secs) == DurationText(secs)
  {
    var q, r := secs / 3600, secs % 3600;
    assert secs == 3600 * q + r;
    assert secs / 60 == 60 * q + r / 60;
    assert (secs / 60) % 60 == r / 60;
  }

  lemma ZeroMillis()
    ensures ZeroPad(0, 3) == "000"
  {
    assert Digits(0) == "0";
    assert Zeros(2) == "00";
  }

  /** DecodeClock reads the fields at their fixed distances from the end. */
  lemma DecodeAt(t: string, hs: string, ms: string, ss: string)
    requires |hs| >= 1 && IsDigits(hs)
    requires |ms| == 2 && IsDigits(ms) && DigitsValue(ms) < 60
    requires |ss| == 2 && IsDigits(ss) && DigitsValue(ss) < 60
    requires |t| == |hs| + 10
    requires t[|t| - 10] == ':' && t[|t| - 7] == ':' && t[|t| - 4] == '.'
    requires t[|t| - 3] == t[|t| - 2] == t[|t| - 1] == '0'
    requires t[..|t| - 10] == hs && t[|t| - 9..|t| - 7] == ms && t[|t| - 6..|t| - 4] == ss
    ensures DecodeClock(t) == Some(3600 * DigitsValue(hs) + 60 * DigitsValue(ms) + DigitsValue(ss))
  {
  }

  /** DecodeClock takes apart any text of the shape it expects. */
  lemma DecodeFields(hs: string, ms: string, ss: string)
    requires |hs| >= 1 && IsDigits(hs)
    requires |ms| == 2 && IsDigits(ms) && DigitsValue(ms) < 60
    requires |ss| == 2 && IsDigits(ss) && DigitsValue(ss) < 60
    ensures DecodeClock(hs + ":" + ms + ":" + ss + "." + "000") ==
      Some(3600 * DigitsValue(hs) + 60 * DigitsValue(ms) + DigitsValue(ss))
  {
    var w := hs + ":" + ms + ":";
    var x := w + ss;
    var t := x + "." + "000";
    var n := |t|;
    assert |w| == n - 6 && |x| == n - 4;
    assert t[n - 10] == ':' && t[n - 7] == ':' && t[n - 4] == '.' by {
      assert t[n - 7] == w[|w| - 1];
      assert t[n - 10] == w[|hs|];
    }
    assert t[n - 3] == t[n - 2] == t[n - 1] == '0';
    assert t[..n - 10] == hs by { assert t[..n - 10] == w[..|hs|]; }
    assert t[n - 9..n - 7] == ms by { assert t[n - 9..n - 7] == w[|hs| + 1..|hs| + 3]; }
    assert t[n - 6..n - 4] == ss by {
      assert t[..n - 4] == x;
      assert t[n - 6..n - 4] == x[|w|..];
    }
    DecodeAt(t, hs, ms, ss);
  }

  /** The hours, minutes and seconds of the contest_time split add back up to the whole. */
  lemma ElapsedSplit(secs: nat)
    ensures 3600 * (secs / 3600) + 60 * ((secs / 60) % 60) + secs % 60 == secs
  {
    var q, r := secs / 3600, secs % 3600;
    assert secs == 3600 * q + r;
    assert secs / 60 == 60 * q + r / 60;
  }

  /** `H:MM:SS.000` rendering and DecodeClock are inverse: the text determines the seconds. */
  lemma ElapsedTextRoundTrip(secs: nat)
    ensures DecodeClock(ElapsedText(secs)) == Some(secs)
  {
    var h, m, s := secs / 3600, (secs / 60) % 60, secs % 60;
    DigitsRoundTrip(h);
    TwoDigitWidth(m);
    TwoDigitWidth(s);
    ZeroMillis();
    DecodeFields(Digits(h), ZeroPad(m, 2), ZeroPad(s, 2));
    ElapsedSplit(secs);
  }

  /** The contest durations read back the same way. */
  lemma DurationTextRoundTrip(secs: nat)
    ensures DecodeClock(DurationText(secs)) == Some(secs)
  {
    SameSplit(secs);
    ElapsedTextRoundTrip(secs);
  }

  /** Distinct durations render differently. */
  lemma ElapsedTextInjective(a: nat, b: nat)
    ensures ElapsedText(a) == ElapsedText(b) <==> a == b
  {
    ElapsedTextRoundTrip(a);
    ElapsedTextRoundTrip(b);
  }

  /** `.seconds` is the identity on durations that lie within the first day. */
  lemma DaySecondsWithinDay(delta: int)
    requires 0 <= delta < SECONDS_PER_DAY
    ensures DaySeconds(delta) == delta
  {
  }

  /** Single-digit fields: the hour as is, minutes and seconds with one leading zero. */
  lemma SmallClockText(h: nat, m: nat, s: nat)
    requires h < 10 && m < 10 && s < 10
    ensures FormatClock(h, m, s, 0) ==
      [DigitChar(h), ':', '0', DigitChar(m), ':', '0', DigitChar(s), '.', '0', '0', '0']
  {
    assert ZeroPad(m, 2) == ['0', DigitChar(m)] by { assert Zeros(1) == ['0']; }
    assert ZeroPad(s, 2) == ['0', DigitChar(s)] by { assert Zeros(1) == ['0']; }
    ZeroMillis();
  }

  /** The five-hour cap renders as `5:00:00.000`. */
  lemma CapText()
    ensures ElapsedText(ELAPSED_CAP) == "5:00:00.000"
  {
    SmallClockText(5, 0, 0);
  }
}
