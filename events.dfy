/**
 * The event writer (`write_icpc_command` and `write_data`, main.py:123-188):
 * the creation events of the feed, one per output line, in a fixed order and
 * tagged `icpc0`, `icpc1`, ... by a counter. In the program the counter lives
 * as long as the process; `main` calls `write_data` exactly once, so the model
 * starts a fresh counter at 0 in each `WriteData`, which numbers the same.
 *
 * The JSON serialisation of each line (`json.dumps`) is not modelled: an
 * event is the record that would be serialised. The `icpc_id` fields, always
 * JSON null, are not stored.
 */
module EventWriter {
  import opened Decimal
  import opened ContestReader
  import opened TeamReader
  import opened AttemptReader

  datatype Payload =
    | ContestData(contest: Contest)
    | LanguageData(languageId: nat, name: string)
    | JudgementTypeData(typeId: string, typeName: string, penalty: bool, solved: bool)
    | ProblemData(problemId: string, labelText: string, name: string, ordinal: nat, color: string, rgb: string)
    | OrganizationData(organizationId: nat, name: string, formalName: string, country: string)
    | TeamData(teamId: nat, name: string, teamOrganizationId: nat)
    | SubmissionData(submission: Submission)
    | JudgementData(judgement: Judgement)

  /** What `write_data` asks `write_icpc_command` to write: an event type and its data. */
  datatype Command = Command(kind: string, data: Payload)

  /** One output line: `{"type": ..., "id": ..., "op": "create", "data": ...}`. */
  datatype Event = Event(kind: string, id: string, op: string, data: Payload)

  /** `'icpc{}'.format(next_id)` (main.py:126). */
  function EventId(k: nat): string
  {
    "icpc" + Digits(k)
  }

  /** The contest, the one language and the three judgement types (main.py:139-149). */
  function Header(contest: Contest): seq<Command>
  {
    [ Command("contests", ContestData(contest)),
      Command("languages", LanguageData(1, "")),
      Command("judgement-types", JudgementTypeData("OK", "Accepted", false, true)),
      Command("judgement-types", JudgementTypeData("CE", "Compile Error", false, false)),
      Command("judgement-types", JudgementTypeData("NA", "Not accepted", true, false)) ]
  }

  /** The problem event for the code at position i (main.py:152-161). */
  function ProblemCommand(code: string, i: nat): Command
  {
    Command("problems", ProblemData(code, code, code, i, "black", "#000000"))
  }

  function ProblemCommands(problems: seq<string>): seq<Command>
  {
    seq(|problems|, i requires 0 <= i < |problems| => ProblemCommand(problems[i], i))
  }

  /** The organization and team events for one team (main.py:165-184). */
  function TeamPair(t: TeamEntry): seq<Command>
  {
    [ Command("organizations", OrganizationData(t.id, t.name, t.name, "Russia")),
      Command("teams", TeamData(t.id, t.name, t.id)) ]
  }

  function TeamCommands(teams: seq<TeamEntry>): (r: seq<Command>)
    ensures |r| == 2 * |teams|
  {
    if teams == [] then [] else TeamCommands(teams[..|teams| - 1]) + TeamPair(teams[|teams| - 1])
  }

  /** The submission and judgement events for one pair (main.py:186-188). */
  function RecordPair(r: Record): seq<Command>
  {
    [ Command("submissions", SubmissionData(r.submission)),
      Command("judgements", JudgementData(r.judgement)) ]
  }

  function RecordCommands(records: seq<Record>): (r: seq<Command>)
    ensures |r| == 2 * |records|
  {
    if records == [] then [] else RecordCommands(records[..|records| - 1]) + RecordPair(records[|records| - 1])
  }

  /** Everything `write_data` writes, in its order. */
  function Commands(contest: Contest, problems: seq<string>, teams: seq<TeamEntry>, records: seq<Record>): seq<Command>
  {
    Header(contest) + ProblemCommands(problems) + TeamCommands(teams) + RecordCommands(records)
  }

  /** The line written for a command when the event counter stands at k. */
  function Stamped(c: Command, k: nat): Event
  {
    Event(c.kind, EventId(k), "create", c.data)
  }

  /** The lines written for the commands when the event counter stands at `from` before the first. */
  function NumberedFrom(cmds: seq<Command>, from: nat): seq<Event>
  {
    seq(|cmds|, k requires 0 <= k < |cmds| => Stamped(cmds[k], from + k))
  }

  /** The lines written for the commands by a counter that starts at 0. */
  function Numbered(cmds: seq<Command>): seq<Event>
  {
    NumberedFrom(cmds, 0)
  }

  /** `write_icpc_command` with its `next_id` attribute; the output file is the sequence of lines written. */
  class EventLog {
    var nextId: nat
    var lines: seq<Event>

    /** `write_icpc_command.next_id = 0` (main.py:134) and a freshly truncated output file. */
    constructor ()
      ensures nextId == 0 && lines == []
    {
      nextId := 0;
      lines := [];
    }

    method Write(kind: string, data: Payload)
      modifies this
      ensures lines == old(lines) + [Event(kind, EventId(old(nextId)), "create", data)]
      ensures nextId == old(nextId) + 1
    {
      var command := Event(kind, EventId(nextId), "create", data);
      nextId := nextId + 1;
      lines := lines + [command];
    }

    /** The contest, the language and the three judgement types (main.py:139-149). */
    method WriteHeader(contest: Contest)
      requires nextId == |lines|
      modifies this
      ensures lines == old(lines) + NumberedFrom(Header(contest), old(nextId))
      ensures nextId == |lines|
    {
      Write("contests", ContestData(contest));
      Write("languages", LanguageData(1, ""));
      Write("judgement-types", JudgementTypeData("OK", "Accepted", false, true));
      Write("judgement-types", JudgementTypeData("CE", "Compile Error", false, false));
      Write("judgement-types", JudgementTypeData("NA", "Not accepted", true, false));
    }

    /** The loop of main.py:151-161: one event per problem, its position as ordinal. */
    method WriteProblems(problems: seq<string>)
      requires nextId == |lines|
      modifies this
      ensures lines == old(lines) + NumberedFrom(ProblemCommands(problems), old(nextId))
      ensures nextId == |lines|
    {
      ghost var cmds, from := ProblemCommands(problems), nextId;
      for i := 0 to |problems|
        invariant nextId == |lines| == from + i
        invariant lines == old(lines) + NumberedFrom(cmds[..i], from)
      {
        ghost var done := NumberedFrom(cmds[..i], from);
        Write("problems", ProblemData(problems[i], problems[i], problems[i], i, "black", "#000000"));
        NumberedSnoc(cmds, i, from, done);
      }
      assert cmds[..|problems|] == cmds;
    }

    /** The loop of main.py:164-184: an organization event, then a team event, per team. */
    method WriteTeams(teams: seq<TeamEntry>)
      requires nextId == |lines|
      modifies this
      ensures lines == old(lines) + NumberedFrom(TeamCommands(teams), old(nextId))
      ensures nextId == |lines|
    {
      ghost var cmds, from := TeamCommands(teams), nextId;
      for j := 0 to |teams|
        invariant nextId == |lines| == from + 2 * j
        invariant lines == old(lines) + NumberedFrom(cmds[..2 * j], from)
      {
        var team := teams[j];
        TeamCommandsAt(teams, j);
        ghost var done := NumberedFrom(cmds[..2 * j], from);
        Write("organizations", OrganizationData(team.id, team.name, team.name, "Russia"));
        NumberedSnoc(cmds, 2 * j, from, done);
        done := NumberedFrom(cmds[..2 * j + 1], from);
        Write("teams", TeamData(team.id, team.name, team.id));
        NumberedSnoc(cmds, 2 * j + 1, from, done);
      }
      assert cmds[..2 * |teams|] == cmds;
    }

    /** The loop of main.py:186-188: a submission event, then a judgement event, per pair. */
    method WriteRecords(records: seq<Record>)
      requires nextId == |lines|
      modifies this
      ensures lines == old(lines) + NumberedFrom(RecordCommands(records), old(nextId))
      ensures nextId == |lines|
    {
      ghost var cmds, from := RecordCommands(records), nextId;
      for k := 0 to |records|
        invariant nextId == |lines| == from + 2 * k
        invariant lines == old(lines) + NumberedFrom(cmds[..2 * k], from)
      {
        var record := records[k];
        RecordCommandsAt(records, k);
        ghost var done := NumberedFrom(cmds[..2 * k], from);
        Write("submissions", SubmissionData(record.submission));
        NumberedSnoc(cmds, 2 * k, from, done);
        done := NumberedFrom(cmds[..2 * k + 1], from);
        Write("judgements", JudgementData(record.judgement));
        NumberedSnoc(cmds, 2 * k + 1, from, done);
      }
      assert cmds[..2 * |records|] == cmds;
    }
  }

  lemma {:induction false} TeamCommandsAt(teams: seq<TeamEntry>, j: nat)
    requires j < |teams|
    ensures TeamCommands(teams)[2 * j] == TeamPair(teams[j])[0]
    ensures TeamCommands(teams)[2 * j + 1] == TeamPair(teams[j])[1]
  {
    var n := |teams| - 1;
    if j < n {
      TeamCommandsAt(teams[..n], j);
    }
  }

  lemma {:induction false} RecordCommandsAt(records: seq<Record>, k: nat)
    requires k < |records|
    ensures RecordCommands(records)[2 * k] == RecordPair(records[k])[0]
    ensures RecordCommands(records)[2 * k + 1] == RecordPair(records[k])[1]
  {
    var n := |records| - 1;
    if k < n {
      RecordCommandsAt(records[..n], k);
    }
  }

  /**
   * The commands in `write_data`'s order: the five fixed ones, then the
   * problems with their positions as ordinals, then an organization and a
   * team per team, then a submission and a judgement per pair.
   */
  lemma CommandsLayout(contest: Contest, problems: seq<string>, teams: seq<TeamEntry>, records: seq<Record>)
    ensures var cmds := Commands(contest, problems, teams, records);
      && |cmds| == 5 + |problems| + 2 * |teams| + 2 * |records|
      && cmds[..5] == Header(contest)
      && (forall i :: 0 <= i < |problems| ==> cmds[5 + i] == ProblemCommand(problems[i], i))
      && (forall j :: 0 <= j < |teams| ==>
            cmds[5 + |problems| + 2 * j] == TeamPair(teams[j])[0]
            && cmds[5 + |problems| + 2 * j + 1] == TeamPair(teams[j])[1])
      && (forall k :: 0 <= k < |records| ==>
            cmds[5 + |problems| + 2 * |teams| + 2 * k] == RecordPair(records[k])[0]
            && cmds[5 + |problems| + 2 * |teams| + 2 * k + 1] == RecordPair(records[k])[1])
  {
    var h, ps, ts, rs := Header(contest), ProblemCommands(problems), TeamCommands(teams), RecordCommands(records);
    var cmds := Commands(contest, problems, teams, records);
    assert cmds == h + ps + ts + rs;
    var t0, r0 := 5 + |problems|, 5 + |problems| + 2 * |teams|;
    forall i | 0 <= i < |problems| ensures cmds[5 + i] == ProblemCommand(problems[i], i) {
      assert cmds[5 + i] == ps[i];
    }
    forall j | 0 <= j < |teams|
      ensures cmds[t0 + 2 * j] == TeamPair(teams[j])[0] && cmds[t0 + 2 * j + 1] == TeamPair(teams[j])[1]
    {
      TeamCommandsAt(teams, j);
      assert cmds[t0 + 2 * j] == ts[2 * j] && cmds[t0 + 2 * j + 1] == ts[2 * j + 1];
    }
    forall k | 0 <= k < |records|
      ensures cmds[r0 + 2 * k] == RecordPair(records[k])[0] && cmds[r0 + 2 * k + 1] == RecordPair(records[k])[1]
    {
      RecordCommandsAt(records, k);
      assert cmds[r0 + 2 * k] == rs[2 * k] && cmds[r0 + 2 * k + 1] == rs[2 * k + 1];
    }
  }

  /** The organization and team lines of the j-th team, right after the problems. */
  lemma TeamLines(contest: Contest, problems: seq<string>, teams: seq<TeamEntry>, records: seq<Record>, j: nat)
    requires j < |teams|
    ensures var e, at := Numbered(Commands(contest, problems, teams, records)), 5 + |problems| + 2 * j;
      && at + 1 < |e|
      && e[at] == Event("organizations", EventId(at), "create",
                        OrganizationData(teams[j].id, teams[j].name, teams[j].name, "Russia"))
      && e[at + 1] == Event("teams", EventId(at + 1), "create", TeamData(teams[j].id, teams[j].name, teams[j].id))
  {
    TeamCommandsAt(teams, j);
    var cmds := Commands(contest, problems, teams, records);
    var at := 5 + |problems| + 2 * j;
    assert cmds[at] == TeamCommands(teams)[2 * j];
    assert cmds[at + 1] == TeamCommands(teams)[2 * j + 1];
  }

  /** The submission and judgement lines of the k-th pair, right after the teams. */
  lemma RecordLines(contest: Contest, problems: seq<string>, teams: seq<TeamEntry>, records: seq<Record>, k: nat)
    requires k < |records|
    ensures var e, at := Numbered(Commands(contest, problems, teams, records)), 5 + |problems| + 2 * |teams| + 2 * k;
      && at + 1 < |e|
      && e[at] == Event("submissions", EventId(at), "create", SubmissionData(records[k].submission))
      && e[at + 1] == Event("judgements", EventId(at + 1), "create", JudgementData(records[k].judgement))
  {
    RecordCommandsAt(records, k);
    var cmds := Commands(contest, problems, teams, records);
    var at := 5 + |problems| + 2 * |teams| + 2 * k;
    assert cmds[at] == RecordCommands(records)[2 * k];
    assert cmds[at + 1] == RecordCommands(records)[2 * k + 1];
  }

  /**
   * What the command at position p is, by the section p lies in: a header
   * command, the problem at p - 5, one of the two events of a team, or one of
   * the two events of a pair.
   */
  lemma CommandAt(contest: Contest, problems: seq<string>, teams: seq<TeamEntry>, records: seq<Record>, p: nat)
    requires p < 5 + |problems| + 2 * |teams| + 2 * |records|
    ensures var cmds, t0, r0 := Commands(contest, problems, teams, records), 5 + |problems|, 5 + |problems| + 2 * |teams|;
      && (p < 5 ==> cmds[p] == Header(contest)[p])
      && (5 <= p < t0 ==> cmds[p] == ProblemCommand(problems[p - 5], p - 5))
      && (t0 <= p < r0 ==> cmds[p] == TeamPair(teams[(p - t0) / 2])[(p - t0) % 2])
      && (r0 <= p ==> cmds[p] == RecordPair(records[(p - r0) / 2])[(p - r0) % 2])
  {
    CommandsLayout(contest, problems, teams, records);
    var cmds := Commands(contest, problems, teams, records);
    if p < 5 {
      assert cmds[p] == cmds[..5][p];
    }
  }

  /**
   * Which section a command of each per-problem, per-team and per-pair type
   * lies in, at which parity, and what data it carries there.
   */
  lemma KindSection(contest: Contest, problems: seq<string>, teams: seq<TeamEntry>, records: seq<Record>, p: nat)
    requires p < 5 + |problems| + 2 * |teams| + 2 * |records|
    ensures var c, t0, r0 := Commands(contest, problems, teams, records)[p], 5 + |problems|, 5 + |problems| + 2 * |teams|;
      && (c.kind == "problems" ==> 5 <= p < t0 && c == ProblemCommand(problems[p - 5], p - 5))
      && (c.kind == "organizations" ==> t0 <= p < r0 && (p - t0) % 2 == 0 && c == TeamPair(teams[(p - t0) / 2])[0])
      && (c.kind == "teams" ==> t0 <= p < r0 && (p - t0) % 2 == 1 && c == TeamPair(teams[(p - t0) / 2])[1])
      && (c.kind == "submissions" ==> r0 <= p && (p - r0) % 2 == 0 && c == RecordPair(records[(p - r0) / 2])[0])
      && (c.kind == "judgements" ==> r0 <= p && (p - r0) % 2 == 1 && c == RecordPair(records[(p - r0) / 2])[1])
  {
    CommandAt(contest, problems, teams, records, p);
  }

  /**
   * Within each of the types organizations, teams, submissions and judgements,
   * no two lines carry the same `data.id`, when the teams are the kept rows
   * numbered 1..N and the pairs are numbered 1..A.
   */
  lemma DataIdsDistinct(contest: Contest, problems: seq<string>, rows: seq<Row>, records: seq<Record>, p: nat, q: nat)
    requires forall k :: 0 <= k < |records| ==> records[k].submission.id == 1 + k && records[k].judgement.id == 1 + k
    requires p < q < |Numbered(Commands(contest, problems, Entries(rows), records))|
    ensures var e := Numbered(Commands(contest, problems, Entries(rows), records));
      && (e[p].kind == "organizations" && e[q].kind == "organizations" ==>
            e[p].data.OrganizationData? && e[q].data.OrganizationData? && e[p].data.organizationId != e[q].data.organizationId)
      && (e[p].kind == "teams" && e[q].kind == "teams" ==>
            e[p].data.TeamData? && e[q].data.TeamData? && e[p].data.teamId != e[q].data.teamId)
      && (e[p].kind == "submissions" && e[q].kind == "submissions" ==>
            e[p].data.SubmissionData? && e[q].data.SubmissionData? && e[p].data.submission.id != e[q].data.submission.id)
      && (e[p].kind == "judgements" && e[q].kind == "judgements" ==>
            e[p].data.JudgementData? && e[q].data.JudgementData? && e[p].data.judgement.id != e[q].data.judgement.id)
  {
    var teams := Entries(rows);
    var cmds := Commands(contest, problems, teams, records);
    var e := Numbered(cmds);
    assert e[p] == Stamped(cmds[p], p) && e[q] == Stamped(cmds[q], q);
    KindSection(contest, problems, teams, records, p);
    KindSection(contest, problems, teams, records, q);
  }

  /**
   * Two problem lines carry the same `data.id` exactly when the descriptor
   * lists the same code at both places: codes are written as they are.
   */
  lemma ProblemIdsDistinct(contest: Contest, problems: seq<string>, teams: seq<TeamEntry>, records: seq<Record>, p: nat, q: nat)
    requires p < q < |Numbered(Commands(contest, problems, teams, records))|
    ensures var e := Numbered(Commands(contest, problems, teams, records));
      e[p].kind == "problems" && e[q].kind == "problems" ==>
        && 5 <= p && q < 5 + |problems|
        && e[p].data.ProblemData? && e[q].data.ProblemData?
        && (e[p].data.problemId == e[q].data.problemId <==> problems[p - 5] == problems[q - 5])
  {
    var cmds := Commands(contest, problems, teams, records);
    var e := Numbered(cmds);
    assert e[p] == Stamped(cmds[p], p) && e[q] == Stamped(cmds[q], q);
    KindSection(contest, problems, teams, records, p);
    KindSection(contest, problems, teams, records, q);
  }

  /** Writing the command at position m extends the lines for the first m commands. */
  lemma NumberedSnoc(cmds: seq<Command>, m: nat, from: nat, lines: seq<Event>)
    requires m < |cmds| && lines == NumberedFrom(cmds[..m], from)
    ensures lines + [Stamped(cmds[m], from + m)] == NumberedFrom(cmds[..m + 1], from)
  {
  }

  /** Writing two command lists one after the other numbers them as one list. */
  lemma NumberedAppend(xs: seq<Command>, ys: seq<Command>, from: nat)
    ensures NumberedFrom(xs, from) + NumberedFrom(ys, from + |xs|) == NumberedFrom(xs + ys, from)
  {
  }

  /** Event ids `icpc<k>` differ for different k. */
  lemma EventIdInjective(j: nat, k: nat)
    ensures EventId(j) == EventId(k) <==> j == k
  {
    if EventId(j) == EventId(k) {
      assert EventId(j)[4..] == Digits(j);
      assert EventId(k)[4..] == Digits(k);
      DigitsInjective(j, k);
    }
  }

  /**
   * The k-th line carries the k-th command with id `icpc<k>` and op `create`,
   * so no two lines share an id.
   */
  lemma NumberedLines(cmds: seq<Command>)
    ensures |Numbered(cmds)| == |cmds|
    ensures forall k :: 0 <= k < |cmds| ==>
      Numbered(cmds)[k] == Event(cmds[k].kind, "icpc" + Digits(k), "create", cmds[k].data)
    ensures forall j, k :: 0 <= j < k < |cmds| ==> Numbered(cmds)[j].id != Numbered(cmds)[k].id
  {
    forall j, k | 0 <= j < k < |cmds| ensures Numbered(cmds)[j].id != Numbered(cmds)[k].id {
      EventIdInjective(j, k);
    }
  }

  function Kinds(cmds: seq<Command>): seq<string>
  {
    seq(|cmds|, k requires 0 <= k < |cmds| => cmds[k].kind)
  }

  /** The `type` field of each line, in order. */
  function EventKinds(events: seq<Event>): seq<string>
  {
    seq(|events|, k requires 0 <= k < |events| => events[k].kind)
  }

  /** How many times x occurs in s. */
  function Occurrences(s: seq<string>, x: string): nat
  {
    if s == [] then 0
    else Occurrences(s[..|s| - 1], x) + (if s[|s| - 1] == x then 1 else 0)
  }

  lemma {:induction false} OccurrencesAppend(xs: seq<string>, ys: seq<string>, x: string)
    ensures Occurrences(xs + ys, x) == Occurrences(xs, x) + Occurrences(ys, x)
  {
    if ys == [] {
      assert xs + ys == xs;
    } else {
      var n := |ys| - 1;
      assert (xs + ys)[..|xs + ys| - 1] == xs + ys[..n];
      OccurrencesAppend(xs, ys[..n], x);
    }
  }

  lemma KindsAppend(xs: seq<Command>, ys: seq<Command>, x: string)
    ensures Occurrences(Kinds(xs + ys), x) == Occurrences(Kinds(xs), x) + Occurrences(Kinds(ys), x)
  {
    assert Kinds(xs + ys) == Kinds(xs) + Kinds(ys);
    OccurrencesAppend(Kinds(xs), Kinds(ys), x);
  }

  /** A run of commands of one kind counts once per command for that kind and never for another. */
  lemma {:induction false} UniformKinds(cmds: seq<Command>, kind: string, x: string)
    requires forall k :: 0 <= k < |cmds| ==> cmds[k].kind == kind
    ensures Occurrences(Kinds(cmds), x) == if x == kind then |cmds| else 0
  {
    if cmds != [] {
      var n := |cmds| - 1;
      UniformKinds(cmds[..n], kind, x);
      assert Kinds(cmds)[..n] == Kinds(cmds[..n]);
    }
  }

  lemma OccurrencesPair(a: string, b: string, x: string)
    ensures Occurrences([a, b], x) == (if a == x then 1 else 0) + (if b == x then 1 else 0)
  {
    assert [a, b][..1] == [a];
    assert [a][..0] == [];
    assert Occurrences([a], x) == (if a == x then 1 else 0);
  }

  lemma HeaderKinds(contest: Contest, x: string)
    ensures Occurrences(Kinds(Header(contest)), x) ==
      if x == "contests" || x == "languages" then 1 else if x == "judgement-types" then 3 else 0
  {
    var k := Kinds(Header(contest));
    assert k == ["contests", "languages"] + ["judgement-types", "judgement-types", "judgement-types"];
    OccurrencesAppend(["contests", "languages"], ["judgement-types", "judgement-types", "judgement-types"], x);
    OccurrencesPair("contests", "languages", x);
    var j := ["judgement-types", "judgement-types", "judgement-types"];
    assert j[..2] == ["judgement-types", "judgement-types"];
    OccurrencesPair("judgement-types", "judgement-types", x);
  }

  /** One organization and one team event per team, and nothing else in that section. */
  lemma {:induction false} TeamKinds(teams: seq<TeamEntry>, x: string)
    ensures Occurrences(Kinds(TeamCommands(teams)), x) ==
      if x == "organizations" || x == "teams" then |teams| else 0
  {
    if teams != [] {
      var n := |teams| - 1;
      TeamKinds(teams[..n], x);
      KindsAppend(TeamCommands(teams[..n]), TeamPair(teams[n]), x);
      assert Kinds(TeamPair(teams[n])) == ["organizations", "teams"];
      OccurrencesPair("organizations", "teams", x);
      assert teams[..n + 1] == teams;
    }
  }

  /** One submission and one judgement event per pair, and nothing else in that section. */
  lemma {:induction false} RecordKinds(records: seq<Record>, x: string)
    ensures Occurrences(Kinds(RecordCommands(records)), x) ==
      if x == "submissions" || x == "judgements" then |records| else 0
  {
    if records != [] {
      var n := |records| - 1;
      RecordKinds(records[..n], x);
      KindsAppend(RecordCommands(records[..n]), RecordPair(records[n]), x);
      assert Kinds(RecordPair(records[n])) == ["submissions", "judgements"];
      OccurrencesPair("submissions", "judgements", x);
    }
  }

  /** How many lines of type x the feed holds. */
  function ExpectedCount(x: string, problems: nat, teams: nat, records: nat): nat
  {
    (if x == "contests" || x == "languages" then 1 else if x == "judgement-types" then 3 else 0)
    + (if x == "problems" then problems else 0)
    + (if x == "organizations" || x == "teams" then teams else 0)
    + (if x == "submissions" || x == "judgements" then records else 0)
  }

  /**
   * One contest, one language and three judgement types, then one line per
   * problem and two per team and per pair: the count of each event type.
   */
  lemma KindCounts(contest: Contest, problems: seq<string>, teams: seq<TeamEntry>, records: seq<Record>, x: string)
    ensures Occurrences(EventKinds(Numbered(Commands(contest, problems, teams, records))), x)
            == ExpectedCount(x, |problems|, |teams|, |records|)
  {
    var h, ps, ts, rs := Header(contest), ProblemCommands(problems), TeamCommands(teams), RecordCommands(records);
    assert EventKinds(Numbered(h + ps + ts + rs)) == Kinds(h + ps + ts + rs);
    KindsAppend(h, ps, x);
    KindsAppend(h + ps, ts, x);
    KindsAppend(h + ps + ts, rs, x);
    HeaderKinds(contest, x);
    UniformKinds(ps, "problems", x);
    TeamKinds(teams, x);
    RecordKinds(records, x);
  }

  /** The judgement types written are exactly the three values a verdict can take. */
  lemma VerdictIsWrittenType(contest: Contest, state: string)
    ensures exists i :: (2 <= i < 5 && Header(contest)[i].kind == "judgement-types"
                         && Header(contest)[i].data.JudgementTypeData? && Header(contest)[i].data.typeId == Verdict(state))
  {
    VerdictClassification(state);
    if Verdict(state) == "OK" { assert Header(contest)[2].data.typeId == "OK"; }
    else if Verdict(state) == "CE" { assert Header(contest)[3].data.typeId == "CE"; }
    else { assert Header(contest)[4].data.typeId == "NA"; }
  }

  /**
   * `write_data` (main.py:137-188): every event in order through one event log,
   * section by section. The log, and so its counter, is created here at 0: the
   * program's counter is set to 0 once (main.py:134) and `main` writes once.
   */
  method WriteData(records: seq<Record>, contest: Contest, problems: seq<string>, teams: seq<TeamEntry>)
    returns (events: seq<Event>)
    ensures events == Numbered(Commands(contest, problems, teams, records))
  {
    var log := new EventLog();
    log.WriteHeader(contest);
    log.WriteProblems(problems);
    log.WriteTeams(teams);
    log.WriteRecords(records);
    events := log.lines;
    ghost var h, ps, ts, rs := Header(contest), ProblemCommands(problems), TeamCommands(teams), RecordCommands(records);
    NumberedAppend(h, ps, 0);
    NumberedAppend(h + ps, ts, 0);
    NumberedAppend(h + ps + ts, rs, 0);
  }
}
