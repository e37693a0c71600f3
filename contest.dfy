/**
 * The contest reader (`read_contest`, main.py:66-101): contest metadata and
 * the ordered problem codes from the contest descriptor.
 *
 * Times in the descriptor are naive local clock readings ("DD.MM.YYYY HH:MM");
 * here each is the number of seconds on that local clock from a fixed origin,
 * so the calendar parsing itself is not part of the model. The rendering of
 * an absolute time in ICPC_DATETIME_FORMAT (`strftime`) is a library call and
 * enters as the parameter `render`.
 */
module ContestReader {
  import opened Wrappers
  import opened Clock

  /** The descriptor's fields, already read out of the XML document. */
  datatype Descriptor = Descriptor(
    id: string,
    title: string,
    start: int,
    finish: int,
    freeze: int,
    problemCodes: seq<string>)

  datatype Contest = Contest(
    id: string,
    name: string,
    formalName: string,
    startTime: string,
    duration: string,
    scoreboardFreezeDuration: string,
    penaltyTime: nat)

  /** The finish is moved one minute later before any subtraction (main.py:77). */
  const FINISH_GRACE: int := 60
  /** The fixed penalty time, in minutes (main.py:99). */
  const PENALTY_MINUTES: nat := 20

  /** Python's `s[:-k]` for k > 0. */
  function DropLast(s: string, k: nat): (r: string)
    requires k > 0
    ensures |r| == if |s| >= k then |s| - k else 0
    ensures r <= s
  {
    if |s| >= k then s[..|s| - k] else []
  }

  /** Python's `s[-k:]` for k > 0. */
  function TakeLast(s: string, k: nat): (r: string)
    requires k > 0
    ensures |r| == if |s| >= k then k else |s|
    ensures forall i :: 0 <= i < |r| ==> r[i] == s[|s| - |r| + i]
  {
    if |s| >= k then s[|s| - k..] else s
  }

  /** `s[:-6] + s[-3:]` (main.py:89). */
  function CutMicroseconds(s: string): string
  {
    DropLast(s, 6) + TakeLast(s, 3)
  }

  /** The finished contest record and the problem list (main.py:66-101). */
  function ReadContest(d: Descriptor, render: int -> string): (Contest, seq<string>)
  {
    var finish := d.finish + FINISH_GRACE;
    var duration := DurationText(DaySeconds(finish - d.start));
    var freezeDuration := DurationText(DaySeconds(finish - d.freeze));
    var contest := Contest(d.id, d.title, d.title, CutMicroseconds(render(d.start)),
                           duration, freezeDuration, PENALTY_MINUTES);
    (contest, d.problemCodes)
  }

  /**
   * The cut keeps everything but the last six characters, then the last three:
   * three characters shorter, same head, same tail.
   */
  lemma CutMicrosecondsShape(s: string)
    requires |s| >= 6
    ensures |CutMicroseconds(s)| == |s| - 3
    ensures CutMicroseconds(s)[..|s| - 6] == s[..|s| - 6]
    ensures CutMicroseconds(s)[|s| - 6..] == s[|s| - 3..]
  {
  }

  /**
   * On an ICPC_DATETIME_FORMAT rendering (`... .ffffff+10`) the cut keeps the
   * first three of the six fraction digits, the milliseconds, and the `+10`.
   */
  lemma CutMicrosecondsKeepsMillis(head: string, fraction: string)
    requires |fraction| == 6
    ensures CutMicroseconds(head + fraction + "+10") == head + fraction[..3] + "+10"
  {
    var s := head + fraction + "+10";
    assert DropLast(s, 6) == head + fraction[..3];
    assert TakeLast(s, 3) == "+10";
  }

  /** Renderings shorter than six characters keep only their last three characters. */
  lemma CutMicrosecondsShort(s: string)
    requires |s| < 6
    ensures CutMicroseconds(s) == TakeLast(s, 3)
  {
  }

  /**
   * The duration reads back as (finish + 1 min - start) reduced to its
   * seconds within a day, and the freeze duration as (finish + 1 min - freeze)
   * reduced the same way; the contest's other fields come straight from the
   * descriptor, and the problem list is the descriptor's, in order.
   */
  lemma ReadContestFields(d: Descriptor, render: int -> string)
    ensures var (c, problems) := ReadContest(d, render);
      && DecodeClock(c.duration) == Some((d.finish + 60 - d.start) % 86400)
      && DecodeClock(c.scoreboardFreezeDuration) == Some((d.finish + 60 - d.freeze) % 86400)
      && c.id == d.id && c.name == d.title && c.formalName == d.title
      && c.startTime == CutMicroseconds(render(d.start))
      && c.penaltyTime == 20
      && problems == d.problemCodes
  {
    var c := ReadContest(d, render).0;
    var a, b := DaySeconds(d.finish + 60 - d.start), DaySeconds(d.finish + 60 - d.freeze);
    assert c.duration == DurationText(a);
    assert c.scoreboardFreezeDuration == DurationText(b);
    DurationTextRoundTrip(a);
    DurationTextRoundTrip(b);
  }

  /** A contest shorter than a day (after the grace minute) has its exact length as duration. */
  lemma DurationWithinDay(d: Descriptor, render: int -> string)
    requires 0 <= d.finish + 60 - d.start < 86400
    ensures DecodeClock(ReadContest(d, render).0.duration) == Some(d.finish + 60 - d.start)
  {
    var delta := d.finish + 60 - d.start;
    var secs := DaySeconds(delta);
    assert secs == delta by { DaySecondsWithinDay(delta); }
    assert ReadContest(d, render).0.duration == DurationText(secs);
    DurationTextRoundTrip(secs);
  }

  /**
   * Start 10:00, finish 13:00 and freeze 12:00 on one day give the duration
   * `3:01:00.000` and the freeze duration `1:01:00.000`.
   */
  lemma ThreeHourContest(day: int, render: int -> string)
    ensures var c := ReadContest(Descriptor("c", "t", day + 10 * 3600, day + 13 * 3600, day + 12 * 3600, []), render).0;
      c.duration == "3:01:00.000" && c.scoreboardFreezeDuration == "1:01:00.000"
  {
    var d := Descriptor("c", "t", day + 10 * 3600, day + 13 * 3600, day + 12 * 3600, []);
    var c := ReadContest(d, render).0;
    assert c.duration == DurationText(10860) && c.scoreboardFreezeDuration == DurationText(3660) by {
      assert DaySeconds(d.finish + FINISH_GRACE - d.start) == 10860;
      assert DaySeconds(d.finish + FINISH_GRACE - d.freeze) == 3660;
    }
    ThreeAndOneHourTexts();
  }

  /** Three hours one minute and one hour one minute, as written. */
  lemma ThreeAndOneHourTexts()
    ensures DurationText(10860) == "3:01:00.000" && DurationText(3660) == "1:01:00.000"
  {
    assert DurationText(10860) == "3:01:00.000" by {
      assert 10860 / 3600 == 3 && (10860 % 3600) / 60 == 1 && 10860 % 60 == 0;
      SmallClockText(3, 1, 0);
    }
    assert DurationText(3660) == "1:01:00.000" by {
      assert 3660 / 3600 == 1 && (3660 % 3600) / 60 == 1 && 3660 % 60 == 0;
      SmallClockText(1, 1, 0);
    }
  }
}
