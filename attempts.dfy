/**
 * The attempt reader (`read_attempts` and `parse_attempt`, main.py:16-63):
 * turns each logged attempt of a known team into a submission and its
 * judgement, numbered by one counter shared by both.
 *
 * Elapsed times are whole seconds (the log's fractional days are not
 * modelled); absolute times are seconds on the contest's local clock, and
 * their ICPC_DATETIME_FORMAT rendering (`strftime`) is the parameter `render`.
 */
module AttemptReader {
  import opened Wrappers
  import opened Clock

  /** One `req` entry of the log, its child elements already read out. */
  datatype Attempt = Attempt(teamId: string, code: string, elapsed: int, shortState: string)

  datatype Submission = Submission(
    id: nat,
    problemId: string,
    teamId: nat,
    languageId: string,
    files: seq<string>,
    contestTime: string,
    time: string)

  datatype Judgement = Judgement(
    id: nat,
    submissionId: nat,
    judgementTypeId: string,
    startContestTime: string,
    startTime: string,
    endContestTime: string,
    endTime: string)

  /** The `(submission, judgement)` pair `parse_attempt` returns. */
  datatype Record = Record(submission: Submission, judgement: Judgement)

  /** Every submission names the one language of the feed (main.py:39). */
  const LANGUAGE_ID: string := "1"

  /** The conditional expression of main.py:48. */
  function Verdict(state: string): string
  {
    if state == "OK" then "OK" else if state == "CE" then "CE" else "NA"
  }

  /** The pair built for an attempt of a known team with the given dense team id and counter value (main.py:25-53). */
  function Transform(a: Attempt, team: nat, id: nat, start: int, render: int -> string): Record
  {
    var offset := ShiftAndClamp(a.elapsed);
    var contestTime := ElapsedText(DaySeconds(offset));
    var time := render(start + offset);
    Record(
      Submission(id, a.code, team, LANGUAGE_ID, [], contestTime, time),
      Judgement(id, id, Verdict(a.shortState), contestTime, time, contestTime, time))
  }

  /** The attempts whose team is in the id map, in log order. */
  function Matched(attempts: seq<Attempt>, idMap: map<string, nat>): (m: seq<Attempt>)
    ensures forall k :: 0 <= k < |m| ==> m[k].teamId in idMap
  {
    if attempts == [] then []
    else if attempts[0].teamId in idMap then [attempts[0]] + Matched(attempts[1..], idMap)
    else Matched(attempts[1..], idMap)
  }

  /** The pairs for already matched attempts, numbered from `next` in order. */
  function Build(m: seq<Attempt>, idMap: map<string, nat>, start: int, render: int -> string, next: nat): (r: seq<Record>)
    requires forall k :: 0 <= k < |m| ==> m[k].teamId in idMap
    ensures |r| == |m|
  {
    seq(|m|, k requires 0 <= k < |m| => Transform(m[k], idMap[m[k].teamId], next + k, start, render))
  }

  /**
   * What `read_attempts` returns when the counter stands at `next` before the
   * first attempt: the k-th attempt of a known team (0-based, in log order)
   * becomes the pair numbered next + k.
   */
  function Records(attempts: seq<Attempt>, idMap: map<string, nat>, start: int,
                   render: int -> string, next: nat): seq<Record>
  {
    Build(Matched(attempts, idMap), idMap, start, render, next)
  }

  /** `parse_attempt` with its function-attribute counter (main.py:19-58), the id map and start bound once. */
  class AttemptParser {
    const idMap: map<string, nat>
    const start: int
    const render: int -> string
    var counter: nat

    /** `parse_attempt.counter = 1` (main.py:58). */
    constructor (idMap: map<string, nat>, start: int, render: int -> string)
      ensures this.idMap == idMap && this.start == start && this.render == render
      ensures counter == 1
    {
      this.idMap := idMap;
      this.start := start;
      this.render := render;
      counter := 1;
    }

    method Parse(a: Attempt) returns (r: Option<Record>)
      modifies this
      ensures a.teamId !in idMap ==> r == None && counter == old(counter)
      ensures a.teamId in idMap ==>
        r == Some(Transform(a, idMap[a.teamId], old(counter), start, render)) && counter == old(counter) + 1
    {
      if a.teamId !in idMap {
        return None;
      }
      var offset := ShiftAndClamp(a.elapsed);
      var contestTime := ElapsedText(DaySeconds(offset));
      var time := render(start + offset);
      var submission := Submission(counter, a.code, idMap[a.teamId], LANGUAGE_ID, [], contestTime, time);
      var judgement := Judgement(counter, counter, Verdict(a.shortState), contestTime, time, contestTime, time);
      counter := counter + 1;
      r := Some(Record(submission, judgement));
    }
  }

  /** `read_attempts` (main.py:16-63): parse every attempt in log order and drop the `None`s. */
  method ReadAttempts(attempts: seq<Attempt>, idMap: map<string, nat>, start: int, render: int -> string)
    returns (records: seq<Record>)
    ensures records == Records(attempts, idMap, start, render, 1)
  {
    var parser := new AttemptParser(idMap, start, render);
    records := [];
    for i := 0 to |attempts|
      invariant parser.idMap == idMap && parser.start == start && parser.render == render
      invariant records == Records(attempts[..i], idMap, start, render, 1)
      invariant parser.counter == 1 + |records|
    {
      assert attempts[..i + 1] == attempts[..i] + [attempts[i]];
      RecordsSnoc(attempts[..i], attempts[i], idMap, start, render, 1);
      var r := parser.Parse(attempts[i]);
      if r.Some? {
        records := records + [r.value];
      }
    }
    assert attempts[..|attempts|] == attempts;
  }

  /** Only attempts of known teams are matched, and every one of them is. */
  lemma {:induction false} MatchedExactly(attempts: seq<Attempt>, idMap: map<string, nat>)
    ensures forall a :: a in Matched(attempts, idMap) <==> a in attempts && a.teamId in idMap
  {
    if attempts != [] {
      MatchedExactly(attempts[1..], idMap);
      assert attempts == [attempts[0]] + attempts[1..];
    }
  }

  /** Matching keeps log order: it distributes over concatenation. */
  lemma {:induction false} MatchedAppend(xs: seq<Attempt>, ys: seq<Attempt>, idMap: map<string, nat>)
    ensures Matched(xs + ys, idMap) == Matched(xs, idMap) + Matched(ys, idMap)
  {
    if xs != [] {
      assert (xs + ys)[1..] == xs[1..] + ys;
      MatchedAppend(xs[1..], ys, idMap);
    } else {
      assert xs + ys == ys;
    }
  }

  /**
   * Processing a log in two parts: the second part starts with the counter
   * advanced by the number of pairs the first part produced.
   */
  lemma RecordsAppend(xs: seq<Attempt>, ys: seq<Attempt>, idMap: map<string, nat>,
                      start: int, render: int -> string, next: nat)
    ensures Records(xs + ys, idMap, start, render, next) ==
      Records(xs, idMap, start, render, next)
      + Records(ys, idMap, start, render, next + |Records(xs, idMap, start, render, next)|)
  {
    MatchedAppend(xs, ys, idMap);
    BuildAppend(Matched(xs, idMap), Matched(ys, idMap), idMap, start, render, next);
  }

  /** Building distributes over concatenation, the second part numbered after the first. */
  lemma BuildAppend(m1: seq<Attempt>, m2: seq<Attempt>, idMap: map<string, nat>,
                    start: int, render: int -> string, next: nat)
    requires forall k :: 0 <= k < |m1| ==> m1[k].teamId in idMap
    requires forall k :: 0 <= k < |m2| ==> m2[k].teamId in idMap
    ensures forall k :: 0 <= k < |m1 + m2| ==> (m1 + m2)[k].teamId in idMap
    ensures Build(m1 + m2, idMap, start, render, next) ==
      Build(m1, idMap, start, render, next) + Build(m2, idMap, start, render, next + |m1|)
  {
    assert forall k :: 0 <= k < |m1 + m2| ==> (m1 + m2)[k] == if k < |m1| then m1[k] else m2[k - |m1|];
    var all := Build(m1 + m2, idMap, start, render, next);
    var first, second := Build(m1, idMap, start, render, next), Build(m2, idMap, start, render, next + |m1|);
    forall k | 0 <= k < |m1| ensures all[k] == first[k] {
      assert (m1 + m2)[k] == m1[k];
    }
    forall k | |m1| <= k < |all| ensures all[k] == second[k - |m1|] {
      assert (m1 + m2)[k] == m2[k - |m1|];
    }
    assert all == first + second;
  }

  /**
   * The k-th pair belongs to the k-th matched attempt: its submission carries
   * that attempt's dense team id and the counter value next + k.
   */
  lemma RecordsTeams(attempts: seq<Attempt>, idMap: map<string, nat>, start: int, render: int -> string, next: nat)
    ensures var r, m := Records(attempts, idMap, start, render, next), Matched(attempts, idMap);
      && |r| == |m|
      && forall k :: 0 <= k < |r| ==>
           && m[k].teamId in idMap && r[k].submission.teamId == idMap[m[k].teamId]
           && r[k].submission.id == next + k && r[k].submission.problemId == m[k].code
  {
  }

  /** The k-th pair's submission and judgement both carry the counter value next + k. */
  lemma RecordsIds(attempts: seq<Attempt>, idMap: map<string, nat>, start: int, render: int -> string, next: nat)
    ensures var r := Records(attempts, idMap, start, render, next);
      forall k :: 0 <= k < |r| ==> r[k].submission.id == next + k && r[k].judgement.id == next + k
  {
    var m := Matched(attempts, idMap);
    var r := Records(attempts, idMap, start, render, next);
    forall k | 0 <= k < |r| ensures r[k].submission.id == next + k && r[k].judgement.id == next + k {
      assert r[k] == Transform(m[k], idMap[m[k].teamId], next + k, start, render);
    }
  }

  /** One more attempt adds one pair, numbered after the others, exactly when its team is known. */
  lemma RecordsSnoc(xs: seq<Attempt>, a: Attempt, idMap: map<string, nat>,
                    start: int, render: int -> string, next: nat)
    ensures Records(xs + [a], idMap, start, render, next) ==
      Records(xs, idMap, start, render, next)
      + (if a.teamId in idMap
         then [Transform(a, idMap[a.teamId], next + |Records(xs, idMap, start, render, next)|, start, render)]
         else [])
  {
    RecordsAppend(xs, [a], idMap, start, render, next);
    RecordsSingle(a, idMap, start, render, next + |Records(xs, idMap, start, render, next)|);
  }

  /** A log of one attempt yields one pair, numbered `next`, exactly when its team is known. */
  lemma RecordsSingle(a: Attempt, idMap: map<string, nat>, start: int, render: int -> string, next: nat)
    ensures Records([a], idMap, start, render, next) ==
      if a.teamId in idMap then [Transform(a, idMap[a.teamId], next, start, render)] else []
  {
    MatchedSingle(a, idMap);
  }

  lemma MatchedSingle(a: Attempt, idMap: map<string, nat>)
    ensures Matched([a], idMap) == if a.teamId in idMap then [a] else []
  {
    assert [a][1..] == [];
  }

  /** An attempt of an unknown team, wherever it stands, changes nothing: no pair and no counter step. */
  lemma UnknownTeamIgnored(xs: seq<Attempt>, a: Attempt, ys: seq<Attempt>, idMap: map<string, nat>,
                           start: int, render: int -> string, next: nat)
    requires a.teamId !in idMap
    ensures Records(xs + [a] + ys, idMap, start, render, next) == Records(xs + ys, idMap, start, render, next)
  {
    RecordsAppend(xs + [a], ys, idMap, start, render, next);
    RecordsAppend(xs, [a], idMap, start, render, next);
    RecordsAppend(xs, ys, idMap, start, render, next);
    MatchedSingle(a, idMap);
  }

  /**
   * The attempt at log position i, when its team is known, becomes the pair
   * numbered one more than the known-team attempts before it: ids run 1, 2,
   * ... over those attempts with no gap and no reuse.
   */
  lemma AttemptNumber(attempts: seq<Attempt>, idMap: map<string, nat>, start: int, render: int -> string, i: nat)
    requires i < |attempts| && attempts[i].teamId in idMap
    ensures var p := |Matched(attempts[..i], idMap)|;
      var r := Records(attempts, idMap, start, render, 1);
      && p < |r|
      && r[p] == Transform(attempts[i], idMap[attempts[i].teamId], p + 1, start, render)
      && r[p].submission.id == p + 1 && r[p].judgement.id == p + 1 && r[p].judgement.submissionId == p + 1
  {
    var xs, a, ys := attempts[..i], attempts[i], attempts[i + 1..];
    assert attempts == xs + [a] + ys;
    RecordsAppend(xs + [a], ys, idMap, start, render, 1);
    RecordsSnoc(xs, a, idMap, start, render, 1);
  }

  /**
   * The submission takes the attempt's problem code, the mapped team and the
   * fixed language; the judgement is instantaneous: its start and end both
   * carry the submission's contest time and absolute time.
   */
  lemma TransformFields(a: Attempt, team: nat, id: nat, start: int, render: int -> string)
    ensures var r := Transform(a, team, id, start, render);
      && r.submission.id == id && r.judgement.id == id && r.judgement.submissionId == id
      && r.submission.problemId == a.code && r.submission.teamId == team
      && r.submission.languageId == "1" && r.submission.files == []
      && r.judgement.startContestTime == r.submission.contestTime
      && r.judgement.endContestTime == r.submission.contestTime
      && r.judgement.startTime == r.submission.time && r.judgement.endTime == r.submission.time
      && r.submission.time == render(start + ShiftAndClamp(a.elapsed))
      && r.judgement.judgementTypeId == Verdict(a.shortState)
  {
  }

  /** The verdict is a closed three-way classification of the short state. */
  lemma VerdictClassification(state: string)
    ensures Verdict(state) in ["OK", "CE", "NA"]
    ensures Verdict(state) == "OK" <==> state == "OK"
    ensures Verdict(state) == "CE" <==> state == "CE"
    ensures Verdict(state) == "NA" <==> state != "OK" && state != "CE"
  {
  }

  /**
   * For an attempt logged at or after the contest start (less the 30 s shift),
   * the contest time reads back as min(elapsed + 30 s, 5 h), so never beyond
   * five hours.
   */
  lemma ContestTimeClamped(a: Attempt, team: nat, id: nat, start: int, render: int -> string)
    requires a.elapsed + SUBMISSION_SHIFT >= 0
    ensures var t := Transform(a, team, id, start, render).submission.contestTime;
      && DecodeClock(t) == Some(if a.elapsed + 30 < 18000 then a.elapsed + 30 else 18000)
      && DecodeClock(t).value <= 18000
  {
    var offset := ShiftAndClamp(a.elapsed);
    assert DaySeconds(offset) == offset;
    ElapsedTextRoundTrip(offset);
  }

  /** An attempt at 5 h - 30 s or later shows exactly `5:00:00.000`. */
  lemma ContestTimeCapped(a: Attempt, team: nat, id: nat, start: int, render: int -> string)
    requires a.elapsed + SUBMISSION_SHIFT >= ELAPSED_CAP
    ensures Transform(a, team, id, start, render).submission.contestTime == "5:00:00.000"
  {
    assert DaySeconds(ShiftAndClamp(a.elapsed)) == ELAPSED_CAP;
    CapText();
  }

  /**
   * For every attempt, the contest time reads back as the shifted and capped
   * elapsed time reduced to its seconds within a day, as `timedelta.seconds`
   * does; below zero (more than 30 s before the start) this wraps around the day.
   */
  lemma ContestTimeWraps(a: Attempt, team: nat, id: nat, start: int, render: int -> string)
    ensures DecodeClock(Transform(a, team, id, start, render).submission.contestTime)
            == Some(ShiftAndClamp(a.elapsed) % 86400)
  {
    ElapsedTextRoundTrip(DaySeconds(ShiftAndClamp(a.elapsed)));
  }

  /**
   * The contest time of an attempt logged before the contest start wraps
   * around the day, as `timedelta.seconds` does: one minute early reads as
   * 23:59:30.
   */
  lemma ContestTimeBeforeStart(a: Attempt, team: nat, id: nat, start: int, render: int -> string)
    requires a.elapsed == -60
    ensures DecodeClock(Transform(a, team, id, start, render).submission.contestTime) == Some(86370)
  {
    assert DaySeconds(ShiftAndClamp(a.elapsed)) == 86370;
    ElapsedTextRoundTrip(86370);
  }
}
