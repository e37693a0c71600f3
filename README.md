# CATS export to ICPC event feed, modelled in Dafny

The program (`main.py`) converts a contest exported from the CATS judging system into an ICPC Contest API event feed. It has three inputs:

- a contest descriptor (XML);
- a team roster (JSON);
- an attempt log (XML).

It writes one `create` event per line. The conversion has four stages, and each stage is one Dafny module.

- `ContestReader` models `read_contest`. It builds the contest record:
  - the duration and the freeze duration are taken from the finish moved one minute later;
  - both are reduced to the seconds within one day, as `timedelta.seconds` does, and rendered as `H:MM:SS.000`;
  - the rendered start time has its `s[:-6] + s[-3:]` cut applied.
  It also returns the problem codes, in order.
- `TeamReader` models `read_teams`. It keeps the roster records of real in-contest teams and numbers them 1..N in roster order. It maps `str(account_id)` to that number, and when an account id repeats, the later record overwrites the earlier one.
- `AttemptReader` models `read_attempts` and `parse_attempt`:
  - attempts of teams missing from the id map are skipped;
  - every other attempt gets its elapsed time shifted by 30 s and capped at 5 h, then rendered as `H:MM:SS.000`;
  - it yields a submission and a judgement that share the value of one counter, which starts at 1;
  - the verdict is `OK`, `CE` or `NA`.
- `EventWriter` models `write_icpc_command` and `write_data`. It writes, in this order:
  - the contest, the language and three judgement types;
  - one event per problem;
  - an organization and a team per team;
  - a submission and a judgement per pair.
  Every event carries the id `icpc<k>`, where k is the value of a counter that starts at 0. In the program that counter is set once for the whole process (main.py:134); `main` calls `write_data` once, so the model creates the counter at 0 inside each `WriteData`, and the numbering is the same.

`Decimal` holds Python's integer rendering (`str`, `{:02d}`) and its inverse. `Clock` holds the elapsed-time arithmetic and the `H:MM:SS.mmm` format. `Pipeline` is `main`: `Convert` runs the four stages, and `Feed` is the function that specifies its output.

Where the source updates state, the model does too:

- `parse_attempt.counter` is a field of the class `AttemptReader.AttemptParser`;
- `write_icpc_command.next_id` and the output file are fields of `EventWriter.EventLog`;
- the loops of `read_teams`, `read_attempts` and `write_data` are `for` loops with invariants.

Each such method is proved equal to a specification function: `Kept`/`IdMap`/`Entries`, `Records` and `Numbered(Commands(...))` respectively. The lemmas are stated about those functions.

Two behaviours of `main.py` are worth knowing:

- The durations are `(finish + 1 min - start).seconds` and `(finish + 1 min - freeze).seconds` (main.py:77-86). `.seconds` keeps only the part of a difference within one day, so a duration wraps around whenever that difference is outside [0 s, 24 h). A contest of 23 h 59 min already shows `0:00:00.000` because of the grace minute, and a finish more than one minute before the start, or a freeze more than one minute after the finish, wraps as well (`ContestReader.ReadContestFields`).
- An attempt's contest_time is `.seconds` of min(elapsed + 30 s, 5 h) (main.py:26-28). An attempt logged up to 30 s before the start shows its shifted time, while one logged more than 30 s before the start wraps around the day (`AttemptReader.ContestTimeWraps`, `AttemptReader.ContestTimeBeforeStart`).
- Problem events carry the descriptor's codes as they are (main.py:90, 154), and nothing removes repeats. A descriptor that lists a code twice yields two problem events with the same `data.id` (`EventWriter.ProblemIdsDistinct`). Organization, team, submission and judgement ids never repeat within their type (`Pipeline.FeedDataIds`).

## Model

| member | source | states |
|---|---|---|
| Decimal.Digits | main.py:126 | the shortest decimal rendering of a nat, as `str` and `{}` give it; inverted by `DigitsValue` in `DigitsRoundTrip` |
| Decimal.IntToString | main.py:109 | `str` of an int, with a `-` before negative ones; inverted by `ParseInt` in `IntToStringRoundTrip` |
| Decimal.ZeroPad | main.py:13 | the `{:0wd}` field: the rendering with zeros in front up to width w; stated by `ZeroPadValue` and `TwoDigitWidth` |
| Decimal.DigitsRoundTrip | main.py:109 | reading back the decimal rendering of a non-negative int gives the int |
| Decimal.DigitsInjective | main.py:126 | two non-negative ints have the same rendering exactly when they are equal |
| Decimal.IntToStringRoundTrip | main.py:109 | `int(str(n)) == n` for every int, negative ones included |
| Decimal.IntToStringInjective | main.py:109 | `str(a) == str(b)` exactly when `a == b`, so key strings keep account ids apart |
| Decimal.LeadingZerosValue | main.py:13 | zeros put in front of a digit string keep it a digit string with the same value |
| Decimal.ZeroPadValue | main.py:13 | `{:0wd}` yields a digit string of width max(w, number of digits) whose value is n |
| Decimal.TwoDigitWidth | main.py:13 | for n < 100, `{:02d}` is exactly two digits and has the value n |
| Clock.DaySeconds | main.py:28-30 | `timedelta.seconds` lies in [0, 86400) and differs from the full duration by whole days |
| Clock.FormatClock | main.py:13 | ICPC_TIME_FORMAT: hours as they are, minutes and seconds in two digits, milliseconds in three |
| Clock.ElapsedText | main.py:28-31 | the contest_time split and format; inverted by `DecodeClock` in `ElapsedTextRoundTrip` |
| Clock.DurationText | main.py:79-86 | the duration split and format; inverted by `DecodeClock` in `DurationTextRoundTrip` |
| Clock.ShiftAndClamp | main.py:26 | the elapsed time is at most 5 h and at most elapsed + 30 s, and equals one of the two |
| Clock.SameSplit | main.py:28-31 | the attempt split `s//3600, (s//60)%60, s%60` and the duration split `s//3600, (s%3600)//60, s%60` render the same text |
| Clock.DecodeFields | main.py:13 | any `H:MM:SS.000` text with two-digit minutes and seconds below 60 decodes to 3600·H + 60·MM + SS |
| Clock.ElapsedSplit | main.py:28-30 | hours, minutes and seconds of the split add back up to the whole count |
| Clock.ElapsedTextRoundTrip | main.py:28-31 | the contest_time text decodes back to the seconds it was made from |
| Clock.DurationTextRoundTrip | main.py:79-80 | the duration text decodes back to its seconds |
| Clock.ElapsedTextInjective | main.py:28-31 | different elapsed times render differently |
| Clock.SmallClockText | main.py:13 | single-digit fields render as the hour digit, a zero-led minute, a zero-led second and `.000` |
| Clock.CapText | main.py:26-31 | the 5-hour cap renders as exactly `5:00:00.000` |
| ContestReader.DropLast | main.py:89 | `s[:-k]` for k > 0 is a prefix of s, k characters shorter (empty when s is shorter than k) |
| ContestReader.CutMicroseconds | main.py:89 | `s[:-6] + s[-3:]`; its shape is stated by the lemmas below |
| ContestReader.ReadContest | main.py:66-101 | the contest record and the problem list; what it yields is stated by `ReadContestFields` |
| ContestReader.TakeLast | main.py:89 | `s[-k:]` for k > 0 is the tail of s with k characters, or all of s when s is shorter |
| ContestReader.CutMicrosecondsShape | main.py:89 | the cut removes three characters and keeps the head and the last three characters |
| ContestReader.CutMicrosecondsKeepsMillis | main.py:88-89 | on a rendering `… .ffffff+10` the cut keeps the first three fraction digits and the `+10` |
| ContestReader.CutMicrosecondsShort | main.py:89 | a string shorter than six characters keeps only its last three |
| ContestReader.ReadContestFields | main.py:66-101 | duration and freeze duration decode to (finish + 60 - start) mod 86400 and (finish + 60 - freeze) mod 86400; id, names, cut start, penalty 20 and the problem list come from the descriptor |
| ContestReader.DurationWithinDay | main.py:75-80 | a contest shorter than a day, grace minute included, has its exact length as duration |
| ContestReader.ThreeHourContest | main.py:75-86 | start 10:00, finish 13:00, freeze 12:00 give `3:01:00.000` and `1:01:00.000` |
| ContestReader.ThreeAndOneHourTexts | main.py:80-86 | 10860 s and 3660 s render as `3:01:00.000` and `1:01:00.000` |
| TeamReader.ReadTeams | main.py:115-120 | the loop yields entry i + 1 with the name and tag of the i-th kept row, and the id map `IdMap(Kept(users))` |
| TeamReader.InContest | main.py:105-106 | `pred`: ooc, virtual and jury all 0 and role `in_contest` |
| TeamReader.Extract | main.py:108-109 | `only_what_we_need`: `(str(account_id), name, tag)` |
| TeamReader.Kept | main.py:113 | `list(map(only_what_we_need, filter(pred, users)))`; never longer than the roster, and `KeptExactly` states which rows it holds |
| TeamReader.IdMap | main.py:115-117 | the dict the loop builds, later rows overwriting earlier ones; stated by `IdMapKeys` and `IdMapLastWins` |
| TeamReader.Entries | main.py:118-120 | `dict(teams)` in insertion order: the i-th kept row as entry i + 1 with its name and tag |
| TeamReader.KeptStep | main.py:113 | the record at index i is kept, after the earlier ones, exactly when it passes `pred` |
| TeamReader.KeptPrefix | main.py:113 | what is kept from a prefix of the roster is a prefix of what is kept from the whole |
| TeamReader.KeptContains | main.py:113 | a record that passes is the kept row at its rank |
| TeamReader.RankMonotone | main.py:113 | ranks never decrease along the roster and grow past every kept record, so roster order is kept |
| TeamReader.KeptOrigin | main.py:113 | every kept row comes from a passing record whose rank is that row's position |
| TeamReader.KeptExactly | main.py:105-113 | the kept rows are exactly the passing records, each at its rank, in roster order |
| TeamReader.IdMapKeys | main.py:115-117 | the id map's keys are exactly the rows' keys |
| TeamReader.IdMapLastWins | main.py:116-117 | a key maps to one plus the position of the last row carrying it, a value in 1..N |
| TeamReader.DenseIds | main.py:116-118 | with distinct keys, the i-th row gets id i + 1 |
| TeamReader.DistinctAccountsKeys | main.py:108-109 | distinct account ids among the passing records give distinct keys |
| TeamReader.UserDenseId | main.py:104-120 | with distinct account ids, a passing record is found under `str(account_id)` with id rank + 1 |
| AttemptReader.Matched | main.py:22-23 | every matched attempt's team is in the id map |
| AttemptReader.Verdict | main.py:48 | `OK` for OK, `CE` for CE, `NA` otherwise; stated by `VerdictClassification` |
| AttemptReader.Transform | main.py:25-53 | the submission and judgement dicts of one known-team attempt; stated by `TransformFields` and the `ContestTime` lemmas |
| AttemptReader.Records | main.py:58-63 | what `read_attempts` returns, counter starting at `next`; stated by `RecordsTeams`, `RecordsAppend`, `AttemptNumber` and `UnknownTeamIgnored` |
| AttemptReader.AttemptParser.constructor | main.py:58 | the counter starts at 1 |
| AttemptReader.AttemptParser.Parse | main.py:19-56 | an unknown team gives None and leaves the counter; a known one gives the pair numbered with the counter, which then goes up by one |
| AttemptReader.ReadAttempts | main.py:58-63 | mapping `parse_attempt` over the log and dropping the Nones yields `Records(attempts, idMap, start, render, 1)` |
| AttemptReader.MatchedExactly | main.py:22-23 | an attempt is matched exactly when it is in the log and its team is in the id map |
| AttemptReader.MatchedAppend | main.py:61-62 | matching keeps log order: it distributes over concatenation |
| AttemptReader.RecordsAppend | main.py:55-62 | processing a log in two parts numbers the second part after the pairs of the first |
| AttemptReader.BuildAppend | main.py:55-61 | building pairs distributes over concatenation, with the numbering carried on |
| AttemptReader.RecordsTeams | main.py:35-38 | the k-th pair has id next + k, the k-th matched attempt's problem code, and that attempt's team mapped through the id map |
| AttemptReader.RecordsIds | main.py:36-55 | the k-th pair's submission and judgement both carry the counter value next + k |
| AttemptReader.RecordsSnoc | main.py:55-62 | one more attempt adds one pair, numbered after the others, exactly when its team is known |
| AttemptReader.RecordsSingle | main.py:22-56 | a one-attempt log yields one pair numbered `next` exactly when the team is known |
| AttemptReader.MatchedSingle | main.py:22-23 | a one-attempt log is matched whole or not at all, by its team |
| AttemptReader.UnknownTeamIgnored | main.py:22-23 | an attempt of an unknown team, wherever it stands, changes neither the pairs nor their numbering |
| AttemptReader.AttemptNumber | main.py:36-47 | the attempt at log position i with a known team becomes the pair numbered one more than the known-team attempts before it, in submission id, judgement id and submission_id |
| AttemptReader.TransformFields | main.py:35-53 | the problem, the mapped team, language `1`, no files, the judgement's start and end equal to the submission's times, and the verdict |
| AttemptReader.VerdictClassification | main.py:48 | the verdict is OK exactly for OK, CE exactly for CE, NA for everything else |
| AttemptReader.ContestTimeClamped | main.py:26-31 | for elapsed + 30 s ≥ 0 the contest_time decodes to min(elapsed + 30 s, 5 h), so never beyond 5 h |
| AttemptReader.ContestTimeCapped | main.py:26-31 | an attempt at 5 h - 30 s or later shows exactly `5:00:00.000` |
| AttemptReader.ContestTimeWraps | main.py:26-31 | for every attempt the contest_time decodes to min(elapsed + 30 s, 5 h) mod 24 h, so it wraps around the day when the attempt is more than 30 s before the start |
| AttemptReader.ContestTimeBeforeStart | main.py:26-28 | an attempt one minute before the start wraps around the day to 23:59:30 |
| EventWriter.EventLog.constructor | main.py:134 | the counter starts at 0 and the output is empty |
| EventWriter.NumberedFrom | main.py:123-130 | the lines written for a command list when the counter stands at `from`: command k stamped with id `icpc<from + k>` and op `create` |
| EventWriter.Numbered | main.py:123-134 | the same with the counter starting at 0; stated by `NumberedLines`, `NumberedSnoc` and `NumberedAppend` |
| EventWriter.EventId | main.py:126 | `icpc<k>`; injective by `EventIdInjective` |
| EventWriter.Header | main.py:139-149 | the contest, language 1 and the OK, CE and NA judgement types, in that order |
| EventWriter.ProblemCommand | main.py:152-161 | the problem event for a code at position i, with the code as id, label and name and i as ordinal |
| EventWriter.TeamPair | main.py:165-184 | the organization (country Russia) and team events of one entry |
| EventWriter.RecordPair | main.py:186-188 | the submission and judgement events of one pair |
| EventWriter.Commands | main.py:137-188 | everything `write_data` writes, in its order; laid out by `CommandsLayout` and counted by `KindCounts` |
| EventWriter.EventLog.Write | main.py:123-131 | appends one line with the type, id `icpc<counter>`, op `create` and the data, and advances the counter |
| EventWriter.EventLog.WriteHeader | main.py:139-149 | appends the contest, language and three judgement-type lines, numbered from the counter |
| EventWriter.EventLog.WriteProblems | main.py:151-161 | appends one problem line per code, numbered from the counter |
| EventWriter.EventLog.WriteTeams | main.py:164-184 | appends an organization and a team line per team, numbered from the counter |
| EventWriter.EventLog.WriteRecords | main.py:186-188 | appends a submission and a judgement line per pair, numbered from the counter |
| EventWriter.WriteData | main.py:137-188 | the lines written are `Numbered(Commands(contest, problems, teams, records))` |
| EventWriter.TeamCommandsAt | main.py:164-184 | the section of the j-th team holds its organization and then its team event |
| EventWriter.RecordCommandsAt | main.py:186-188 | the section of the k-th pair holds its submission and then its judgement event |
| EventWriter.CommandsLayout | main.py:137-188 | 5 + P + 2T + 2A commands: the header, problems with their positions as ordinals, then the team events and the pair events at their fixed positions |
| EventWriter.CommandAt | main.py:137-188 | the command at position p is the header command p, the problem at p - 5, or the first or second event of the team or pair that the section offset and its parity name |
| EventWriter.KindSection | main.py:151-188 | a command of type problems, organizations, teams, submissions or judgements lies in its own section, at the parity of its place in its pair, and is that problem's, team's or pair's event |
| EventWriter.DataIdsDistinct | main.py:164-188 | with teams numbered 1..N and pairs 1..A, two lines of type organizations, teams, submissions or judgements never share a `data.id` |
| EventWriter.ProblemIdsDistinct | main.py:151-161 | two problem lines share a `data.id` exactly when the problem list has the same code at both places |
| EventWriter.TeamLines | main.py:164-184 | lines 5 + P + 2j and 5 + P + 2j + 1 are the j-th team's organization and team events, with their ids |
| EventWriter.RecordLines | main.py:186-188 | lines 5 + P + 2T + 2k and the next are the k-th pair's submission and judgement events, with their ids |
| EventWriter.NumberedSnoc | main.py:130 | writing one more command extends the numbered lines by that command's line |
| EventWriter.NumberedAppend | main.py:130 | writing two command lists one after the other numbers them as one list |
| EventWriter.EventIdInjective | main.py:126 | `icpc<j>` equals `icpc<k>` exactly when j = k |
| EventWriter.NumberedLines | main.py:124-130 | line k carries command k with id `icpc<k>` and op `create`, and no two lines share an id |
| EventWriter.UniformKinds | main.py:151-161 | a run of events of one type counts once per event for that type and never for another |
| EventWriter.HeaderKinds | main.py:139-149 | the header holds one contest, one language and three judgement-type events |
| EventWriter.TeamKinds | main.py:183-184 | the team section holds exactly one organization and one team event per team |
| EventWriter.RecordKinds | main.py:187-188 | the pair section holds exactly one submission and one judgement event per pair |
| EventWriter.KindCounts | main.py:137-188 | for every type, the number of lines of that type is 1 (contests, languages), 3 (judgement-types), P (problems), T (organizations, teams) or A (submissions, judgements), and 0 for any other |
| EventWriter.VerdictIsWrittenType | main.py:141-149 | every verdict an attempt can get is the id of one of the three judgement types written |
| Pipeline.Feed | main.py:191-196 | the output lines for a descriptor, roster and attempt log; stated by `FeedCounts`, `FeedIds`, `FeedTeam` and `SubmissionTeamExists` |
| Pipeline.Convert | main.py:191-196 | running the stages in the order of `main` yields `Feed(d, users, attempts, render)` |
| Pipeline.FeedCounts | main.py:191-196 | the feed has 5 + P + 2·(kept teams) + 2·(attempts of known teams) lines, and exactly that many of each type |
| Pipeline.FeedIds | main.py:123-134 | every line of the feed has id `icpc<k>`, k its position, op `create`, and the ids are pairwise distinct |
| Pipeline.FeedDataIds | main.py:151-196 | in the feed, organization, team, submission and judgement ids never repeat within their type; problem ids repeat exactly where the descriptor repeats a code |
| Pipeline.FeedTeam | main.py:164-184 | the j-th kept roster record becomes organization j + 1 (country Russia) and team j + 1 of organization j + 1 |
| Pipeline.RosterLines | main.py:164-184 | the same for any contest, problem list and pairs around the kept rows |
| Pipeline.SubmissionKey | main.py:36-38 | the k-th submission's team id is the id map's value for the k-th matched attempt's account id |
| Pipeline.PairTeamLine | main.py:115-184 | a pair whose team id t is the id map's value for a key (built at lines 115-117) names the last kept row with that key, and line 5 + P + 2(t - 1) + 1 creates team t with that row's name |
| Pipeline.SubmissionTeamExists | main.py:38 | every submission's team id t lies in 1..N; the feed creates team t; and t is the kept row carrying the attempt's account id, the last such row when ids repeat |
| Pipeline.SampleTeams | main.py:104-120 | a roster with a jury account keeps the two teams as 1 and 2, keyed by their account ids |
| Pipeline.SampleMatched | main.py:22-23 | only the two teams' attempts are matched |
| Pipeline.SampleFeed | main.py:191-196 | the sample's jury attempt gets no submission; the others become submissions 1 and 2 of teams 1 and 2 with verdicts OK and NA; the feed has 15 lines |

## Left out

- File I/O is not modelled: the three input files, the output file and `json.dumps`. Every stage takes its input already read and returns the lines, records or dicts it would write.
- XML and JSON parsing is not modelled. A descriptor, a roster record and an attempt are datatypes holding the fields the program reads. A missing element or key, which raises in the source, cannot occur.
- `strptime` and `strftime` are library calls and are not modelled:
  - Absolute times are integer seconds on the contest's naive local clock.
  - The rendering in `ICPC_DATETIME_FORMAT` (main.py:12, which writes the day before the month) is the parameter `render`.
  - `read_attempts` parses `contest['start_time']` back with `strptime` (main.py:17). A three-digit fraction reads as whole milliseconds, which are zero here, so this recovers the start. The model passes the start seconds directly.
- Python floats are not modelled. `time_since_start` is a fraction of a day in the source; here it is whole seconds (`Attempt.elapsed`). Rounding to microseconds and the truncation by `.seconds` of a sub-second part are therefore not modelled.
- The `awards` dict in `write_data` (main.py:163, 179-181) is built and never used, so it is left out.
- The `icpc_id` fields are always JSON null and are not stored.
- The roster's `account_id` is taken to be a JSON integer (`User.accountId: int`), rendered by `str` into the key. A string `account_id`, which `str` would leave unchanged, is not modelled.
- `read_teams` returns `dict(teams)`, whose keys are 1..N in insertion order. It is modelled as the sequence of its entries in that order (`TeamReader.Entries`).
