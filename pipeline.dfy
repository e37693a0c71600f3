/**
 * The whole conversion (`main`, main.py:191-196): read the contest, read the
 * teams, read the attempts against the teams' id map and the contest start,
 * and write the feed.
 */
module Pipeline {
  import opened Decimal
  import opened ContestReader
  import opened TeamReader
  import opened AttemptReader
  import opened EventWriter

  /** The lines of the output file for a descriptor, a roster and an attempt log. */
  function Feed(d: Descriptor, users: seq<User>, attempts: seq<Attempt>, render: int -> string): seq<Event>
  {
    var rows := Kept(users);
    Numbered(Commands(ReadContest(d, render).0, ReadContest(d, render).1, Entries(rows),
                      Records(attempts, IdMap(rows), d.start, render, 1)))
  }

  /**
   * `main` (main.py:191-196). The attempts are timed against the contest's own
   * start, which `read_attempts` recovers by parsing the start string back.
   */
  method Convert(d: Descriptor, users: seq<User>, attempts: seq<Attempt>, render: int -> string)
    returns (events: seq<Event>)
    ensures events == Feed(d, users, attempts, render)
  {
    var (contest, problems) := ReadContest(d, render);
    var teams, idMap := ReadTeams(users);
    var records := ReadAttempts(attempts, idMap, d.start, render);
    events := WriteData(records, contest, problems, teams);
  }

  /**
   * Five fixed lines, one per problem, two per kept team and two per attempt
   * of a known team; and for every event type, exactly that many lines of it.
   */
  lemma FeedCounts(d: Descriptor, users: seq<User>, attempts: seq<Attempt>, render: int -> string, x: string)
    ensures var m := |Matched(attempts, IdMap(Kept(users)))|;
      |Feed(d, users, attempts, render)| == 5 + |d.problemCodes| + 2 * |Kept(users)| + 2 * m
    ensures Occurrences(EventKinds(Feed(d, users, attempts, render)), x) ==
      ExpectedCount(x, |d.problemCodes|, |Kept(users)|, |Matched(attempts, IdMap(Kept(users)))|)
  {
    var rows := Kept(users);
    KindCounts(ReadContest(d, render).0, d.problemCodes, Entries(rows),
               Records(attempts, IdMap(rows), d.start, render, 1), x);
  }

  /** Every line has its own id `icpc<k>`, k its position, and the op `create`. */
  lemma FeedIds(d: Descriptor, users: seq<User>, attempts: seq<Attempt>, render: int -> string)
    ensures var e := Feed(d, users, attempts, render);
      && (forall k :: 0 <= k < |e| ==> e[k].id == EventId(k) && e[k].op == "create")
      && (forall j, k :: 0 <= j < k < |e| ==> e[j].id != e[k].id)
  {
    var rows := Kept(users);
    NumberedLines(Commands(ReadContest(d, render).0, d.problemCodes, Entries(rows),
                           Records(attempts, IdMap(rows), d.start, render, 1)));
  }

  /**
   * Within each of the types organizations, teams, submissions and judgements
   * the feed never repeats a `data.id`; problem ids repeat exactly where the
   * descriptor repeats a code.
   */
  lemma FeedDataIds(d: Descriptor, users: seq<User>, attempts: seq<Attempt>, render: int -> string, p: nat, q: nat)
    requires p < q < |Feed(d, users, attempts, render)|
    ensures var e := Feed(d, users, attempts, render);
      && (e[p].kind == "organizations" && e[q].kind == "organizations" ==>
            e[p].data.OrganizationData? && e[q].data.OrganizationData? && e[p].data.organizationId != e[q].data.organizationId)
      && (e[p].kind == "teams" && e[q].kind == "teams" ==>
            e[p].data.TeamData? && e[q].data.TeamData? && e[p].data.teamId != e[q].data.teamId)
      && (e[p].kind == "submissions" && e[q].kind == "submissions" ==>
            e[p].data.SubmissionData? && e[q].data.SubmissionData? && e[p].data.submission.id != e[q].data.submission.id)
      && (e[p].kind == "judgements" && e[q].kind == "judgements" ==>
            e[p].data.JudgementData? && e[q].data.JudgementData? && e[p].data.judgement.id != e[q].data.judgement.id)
      && (e[p].kind == "problems" && e[q].kind == "problems" ==>
            && 5 <= p && q < 5 + |d.problemCodes|
            && e[p].data.ProblemData? && e[q].data.ProblemData?
            && (e[p].data.problemId == e[q].data.problemId <==> d.problemCodes[p - 5] == d.problemCodes[q - 5]))
  {
    var rows := Kept(users);
    var idMap := IdMap(rows);
    var records := Records(attempts, idMap, d.start, render, 1);
    RecordsIds(attempts, idMap, d.start, render, 1);
    DataIdsDistinct(ReadContest(d, render).0, ReadContest(d, render).1, rows, records, p, q);
    ProblemIdsDistinct(ReadContest(d, render).0, ReadContest(d, render).1, Entries(rows), records, p, q);
  }

  /**
   * The j-th kept roster record (0-based) becomes organization and team
   * number j + 1, the team belonging to the organization of the same number.
   */
  lemma FeedTeam(d: Descriptor, users: seq<User>, attempts: seq<Attempt>, render: int -> string, j: nat)
    requires j < |Kept(users)|
    ensures var e, at, row := Feed(d, users, attempts, render), 5 + |d.problemCodes| + 2 * j, Kept(users)[j];
      && at + 1 < |e|
      && e[at].kind == "organizations" && e[at].data == OrganizationData(j + 1, row.name, row.name, "Russia")
      && e[at + 1].kind == "teams" && e[at + 1].data == TeamData(j + 1, row.name, j + 1)
  {
    var rows := Kept(users);
    RosterLines(ReadContest(d, render).0, d.problemCodes, rows, Records(attempts, IdMap(rows), d.start, render, 1), j);
  }

  /** FeedTeam for any contest, problem list and pairs around the kept rows. */
  lemma RosterLines(contest: Contest, problems: seq<string>, rows: seq<Row>, records: seq<Record>, j: nat)
    requires j < |rows|
    ensures var e, at := Numbered(Commands(contest, problems, Entries(rows), records)), 5 + |problems| + 2 * j;
      && at + 1 < |e|
      && e[at].kind == "organizations" && e[at].data == OrganizationData(j + 1, rows[j].name, rows[j].name, "Russia")
      && e[at + 1].kind == "teams" && e[at + 1].data == TeamData(j + 1, rows[j].name, j + 1)
  {
    var teams := Entries(rows);
    assert teams[j] == TeamEntry(j + 1, rows[j].name, rows[j].tag);
    TeamLines(contest, problems, teams, records, j);
  }

  /**
   * Every submission names a team the feed creates: the one whose account id
   * is the attempt's team id, the last such one when account ids repeat.
   */
  lemma SubmissionTeamExists(d: Descriptor, users: seq<User>, attempts: seq<Attempt>, render: int -> string, k: nat)
    requires k < |Matched(attempts, IdMap(Kept(users)))|
    ensures var t := Records(attempts, IdMap(Kept(users)), d.start, render, 1)[k].submission.teamId;
      && 1 <= t <= |Kept(users)|
      && Kept(users)[t - 1].key == Matched(attempts, IdMap(Kept(users)))[k].teamId
      && (forall j :: t <= j < |Kept(users)| ==> Kept(users)[j].key != Matched(attempts, IdMap(Kept(users)))[k].teamId)
      && Feed(d, users, attempts, render)[5 + |d.problemCodes| + 2 * (t - 1) + 1].kind == "teams"
      && Feed(d, users, attempts, render)[5 + |d.problemCodes| + 2 * (t - 1) + 1].data
         == TeamData(t, Kept(users)[t - 1].name, t)
  {
    var rows := Kept(users);
    var records := Records(attempts, IdMap(rows), d.start, render, 1);
    var key := Matched(attempts, IdMap(rows))[k].teamId;
    SubmissionKey(attempts, rows, d.start, render, k);
    assert Feed(d, users, attempts, render) == Numbered(Commands(ReadContest(d, render).0, d.problemCodes, Entries(rows), records));
    PairTeamLine(ReadContest(d, render).0, d.problemCodes, rows, records, k, key);
  }

  /** The k-th submission's team is the id map's value for the k-th matched attempt's team id. */
  lemma SubmissionKey(attempts: seq<Attempt>, rows: seq<Row>, start: int, render: int -> string, k: nat)
    requires k < |Matched(attempts, IdMap(rows))|
    ensures var key := Matched(attempts, IdMap(rows))[k].teamId;
      && k < |Records(attempts, IdMap(rows), start, render, 1)|
      && key in IdMap(rows)
      && Records(attempts, IdMap(rows), start, render, 1)[k].submission.teamId == IdMap(rows)[key]
  {
    RecordsTeams(attempts, IdMap(rows), start, render, 1);
  }

  /**
   * A pair whose team is the id map's value for a key names the last row with
   * that key, and the feed built around it creates that team.
   */
  lemma {:induction false} PairTeamLine(contest: Contest, problems: seq<string>, rows: seq<Row>, records: seq<Record>, k: nat, key: string)
    requires k < |records| && key in IdMap(rows) && records[k].submission.teamId == IdMap(rows)[key]
    ensures var t, e := records[k].submission.teamId, Numbered(Commands(contest, problems, Entries(rows), records));
      && 1 <= t <= |rows| && rows[t - 1].key == key
      && (forall j :: t <= j < |rows| ==> rows[j].key != key)
      && e[5 + |problems| + 2 * (t - 1) + 1].kind == "teams"
      && e[5 + |problems| + 2 * (t - 1) + 1].data == TeamData(t, rows[t - 1].name, t)
  {
    IdMapLastWins(rows, key);
    var j := records[k].submission.teamId - 1;
    RosterLines(contest, problems, rows, records, j);
  }

  /** A roster of two teams and a jury account, and a log of three attempts, one of them by the jury. */
  const SampleRoster: seq<User> := [User(0, 0, 0, "in_contest", 1, "Alpha", "a"),
                                    User(0, 0, 1, "in_contest", 2, "Jury", "j"),
                                    User(0, 0, 0, "in_contest", 3, "Gamma", "g")]
  const SampleLog: seq<Attempt> := [Attempt("1", "A", 100, "OK"), Attempt("2", "A", 200, "OK"), Attempt("3", "B", 300, "WA")]
  const SampleDescriptor: Descriptor := Descriptor("7", "Cup", 10 * 3600, 13 * 3600, 12 * 3600, ["A", "B"])

  /** The jury account is dropped; the two teams become 1 and 2, keyed by their account ids. */
  lemma SampleTeams()
    ensures Kept(SampleRoster) == [Row("1", "Alpha", "a"), Row("3", "Gamma", "g")]
    ensures IdMap(Kept(SampleRoster)) == map["1" := 1, "3" := 2]
  {
    var users, rows := SampleRoster, [Row("1", "Alpha", "a"), Row("3", "Gamma", "g")];
    assert IntToString(1) == "1" && IntToString(3) == "3";
    assert users[..2][..1] == [users[0]];
    assert users[..2][..1][..0] == [];
    assert Kept(users) == rows;
    assert rows[..1] == [rows[0]];
    assert rows[..1][..0] == [];
    assert IdMap(rows[..1]) == map["1" := 1];
  }

  /** Only the attempts of the two teams are matched. */
  lemma SampleMatched()
    ensures Matched(SampleLog, map["1" := 1, "3" := 2]) == [SampleLog[0], SampleLog[2]]
  {
    var attempts, idMap := SampleLog, map["1" := 1, "3" := 2];
    assert attempts[1..][1..] == [attempts[2]];
    assert attempts[1..][1..][1..] == [];
    assert Matched([attempts[2]], idMap) == [attempts[2]];
    assert Matched(attempts[1..], idMap) == [attempts[2]];
  }

  /**
   * The sample contest: the jury's attempt gets no submission, the other two
   * become submissions 1 and 2 of teams 1 and 2, and the feed has 15 lines.
   */
  lemma SampleFeed(render: int -> string)
    ensures var r := Records(SampleLog, IdMap(Kept(SampleRoster)), SampleDescriptor.start, render, 1);
      && |r| == 2
      && r[0].submission.id == 1 && r[0].submission.teamId == 1 && r[0].judgement.judgementTypeId == "OK"
      && r[1].submission.id == 2 && r[1].submission.teamId == 2 && r[1].judgement.judgementTypeId == "NA"
    ensures |Feed(SampleDescriptor, SampleRoster, SampleLog, render)| == 15
  {
    SampleTeams();
    SampleMatched();
    FeedCounts(SampleDescriptor, SampleRoster, SampleLog, render, "");
  }
}
