/**
 * The team reader (`read_teams`, main.py:104-120): keeps the roster records of
 * real in-contest teams, numbers them 1..N in roster order, and maps each
 * team's account id, as a string, to its new number.
 */
module TeamReader {
  import opened Decimal

  /**
   * One roster record, already read out of the JSON document. The flags are the
   * JSON numbers (a JSON `false` compares equal to 0 in the source, so it is 0 here).
   */
  datatype User = User(
    ooc: int,
    virtual: int,
    jury: int,
    role: string,
    accountId: int,
    name: string,
    tag: string)

  /** `only_what_we_need`: the account id as a string, the name and the tag (main.py:108-109). */
  datatype Row = Row(key: string, name: string, tag: string)

  /** One item of the returned `teams` dict, in its insertion order: dense id -> (name, tag). */
  datatype TeamEntry = TeamEntry(id: nat, name: string, tag: string)

  /** `pred` (main.py:105-106). */
  predicate InContest(u: User)
  {
    u.ooc == 0 && u.virtual == 0 && u.jury == 0 && u.role == "in_contest"
  }

  function Extract(u: User): Row
  {
    Row(IntToString(u.accountId), u.name, u.tag)
  }

  /** `list(map(only_what_we_need, filter(pred, users)))` (main.py:113). */
  function Kept(users: seq<User>): (rows: seq<Row>)
    ensures |rows| <= |users|
  {
    if users == [] then []
    else
      var init := Kept(users[..|users| - 1]);
      var last := users[|users| - 1];
      if InContest(last) then init + [Extract(last)] else init
  }

  /** The id map the loop of main.py:115-117 builds: later rows overwrite earlier ones. */
  function IdMap(rows: seq<Row>): map<string, nat>
  {
    if rows == [] then map[]
    else IdMap(rows[..|rows| - 1])[rows[|rows| - 1].key := |rows|]
  }

  /** The id the roster record at index i gets, less one: how many records before it were kept. */
  function Rank(users: seq<User>, i: nat): nat
    requires i <= |users|
  {
    |Kept(users[..i])|
  }

  predicate DistinctKeys(rows: seq<Row>)
  {
    forall i, j :: 0 <= i < j < |rows| ==> rows[i].key != rows[j].key
  }

  /** No two in-contest roster records share an account id. */
  predicate DistinctAccounts(users: seq<User>)
  {
    forall i, j :: 0 <= i < j < |users| && InContest(users[i]) && InContest(users[j]) ==>
      users[i].accountId != users[j].accountId
  }

  /** The `teams` dict `read_teams` returns, in insertion order: the kept rows numbered 1..N. */
  function Entries(rows: seq<Row>): seq<TeamEntry>
  {
    seq(|rows|, i requires 0 <= i < |rows| => TeamEntry(i + 1, rows[i].name, rows[i].tag))
  }

  /** The `for` loop of main.py:115-118, with `dict(teams)` kept in its insertion order. */
  method ReadTeams(users: seq<User>) returns (teams: seq<TeamEntry>, idMap: map<string, nat>)
    ensures |teams| == |Kept(users)|
    ensures forall i :: 0 <= i < |teams| ==>
      teams[i] == TeamEntry(i + 1, Kept(users)[i].name, Kept(users)[i].tag)
    ensures idMap == IdMap(Kept(users))
    ensures teams == Entries(Kept(users))
  {
    var rows := Kept(users);
    teams, idMap := [], map[];
    for i := 0 to |rows|
      invariant |teams| == i
      invariant forall k :: 0 <= k < i ==> teams[k] == TeamEntry(k + 1, rows[k].name, rows[k].tag)
      invariant idMap == IdMap(rows[..i])
    {
      assert rows[..i + 1][..i] == rows[..i];
      idMap := idMap[rows[i].key := i + 1];
      teams := teams + [TeamEntry(i + 1, rows[i].name, rows[i].tag)];
    }
    assert rows[..|rows|] == rows;
  }

  /** The record at index i is kept exactly when it passes the filter. */
  lemma {:induction false} KeptStep(users: seq<User>, i: nat)
    requires i < |users|
    ensures Kept(users[..i + 1]) ==
      Kept(users[..i]) + (if InContest(users[i]) then [Extract(users[i])] else [])
  {
    assert users[..i + 1][..i] == users[..i];
  }

  /** What is kept from a prefix of the roster is a prefix of what is kept from all of it. */
  lemma {:induction false} KeptPrefix(users: seq<User>, i: nat)
    requires i <= |users|
    ensures Kept(users[..i]) <= Kept(users)
    decreases |users| - i
  {
    if i < |users| {
      KeptStep(users, i);
      KeptPrefix(users, i + 1);
    } else {
      assert users[..i] == users;
    }
  }

  /** Each record that passes the filter is kept, at the position of its rank. */
  lemma KeptContains(users: seq<User>, i: nat)
    requires i < |users| && InContest(users[i])
    ensures Rank(users, i) < |Kept(users)|
    ensures Kept(users)[Rank(users, i)] == Extract(users[i])
  {
    KeptStep(users, i);
    KeptPrefix(users, i + 1);
  }

  /** Ranks grow by one exactly at the kept records, so kept records keep their roster order. */
  lemma RankMonotone(users: seq<User>, i: nat, j: nat)
    requires i <= j <= |users|
    ensures Rank(users, i) <= Rank(users, j)
    ensures i < j && InContest(users[i]) ==> Rank(users, i) < Rank(users, j)
  {
    if i < j {
      assert Rank(users, i + 1) == Rank(users, i) + (if InContest(users[i]) then 1 else 0) by {
        KeptStep(users, i);
      }
      assert Rank(users, i + 1) <= Rank(users, j) by {
        KeptPrefix(users[..j], i + 1);
        assert users[..j][..i + 1] == users[..i + 1];
      }
    }
  }

  /** The roster record at index i is the one kept as the row at position p. */
  predicate KeptAs(users: seq<User>, i: nat, p: nat)
  {
    i < |users| && InContest(users[i]) && Rank(users, i) == p
  }

  /** The kept row at position p comes from some roster record that passes the filter. */
  ghost predicate HasOrigin(users: seq<User>, p: nat)
    requires p < |Kept(users)|
  {
    exists i: nat :: KeptAs(users, i, p) && Kept(users)[p] == Extract(users[i])
  }

  /** Every kept row comes from a record that passes the filter and has that row's position as rank. */
  lemma {:induction false} KeptOrigin(users: seq<User>, p: nat)
    requires p < |Kept(users)|
    ensures exists i: nat :: KeptAs(users, i, p) && Kept(users)[p] == Extract(users[i])
    decreases |users|
  {
    var n := |users| - 1;
    var shorter := users[..n];
    assert Kept(users) == Kept(shorter) + (if InContest(users[n]) then [Extract(users[n])] else []) by {
      KeptStep(users, n);
      assert users[..n + 1] == users;
    }
    if InContest(users[n]) && p == Rank(users, n) {
      KeptContains(users, n);
      assert KeptAs(users, n, p);
    } else {
      assert p < |Kept(shorter)|;
      KeptOrigin(shorter, p);
      var i: nat :| KeptAs(shorter, i, p) && Kept(shorter)[p] == Extract(shorter[i]);
      assert Rank(users, i) == Rank(shorter, i) by {
        assert shorter[..i] == users[..i];
      }
      assert KeptAs(users, i, p);
    }
  }

  /**
   * The kept rows are exactly the records passing the filter, in roster order:
   * the record at index i that passes is the row at position Rank(users, i),
   * every row has such a record, and distinct records get distinct ranks.
   */
  lemma KeptExactly(users: seq<User>)
    ensures forall i :: 0 <= i < |users| && InContest(users[i]) ==>
      Rank(users, i) < |Kept(users)| && Kept(users)[Rank(users, i)] == Extract(users[i])
    ensures forall p: nat :: p < |Kept(users)| ==> HasOrigin(users, p)
    ensures forall i, j :: 0 <= i < j < |users| && InContest(users[i]) ==> Rank(users, i) < Rank(users, j)
  {
    forall i | 0 <= i < |users| && InContest(users[i])
      ensures Rank(users, i) < |Kept(users)| && Kept(users)[Rank(users, i)] == Extract(users[i])
    {
      KeptContains(users, i);
    }
    forall p: nat | p < |Kept(users)|
      ensures HasOrigin(users, p)
    {
      KeptOrigin(users, p);
    }
    forall i, j | 0 <= i < j < |users| && InContest(users[i])
      ensures Rank(users, i) < Rank(users, j)
    {
      RankMonotone(users, i, j);
    }
  }

  /** The keys of the id map are exactly the keys of the rows. */
  lemma {:induction false} IdMapKeys(rows: seq<Row>)
    ensures IdMap(rows).Keys == set r | r in rows :: r.key
  {
    if rows != [] {
      var init := rows[..|rows| - 1];
      IdMapKeys(init);
      assert rows == init + [rows[|rows| - 1]];
    }
  }

  /**
   * Each key maps to one plus the position of the LAST row carrying it, so
   * every value lies in 1..N.
   */
  lemma {:induction false} IdMapLastWins(rows: seq<Row>, k: string)
    requires k in IdMap(rows)
    ensures 1 <= IdMap(rows)[k] <= |rows|
    ensures rows[IdMap(rows)[k] - 1].key == k
    ensures forall j :: IdMap(rows)[k] <= j < |rows| ==> rows[j].key != k
  {
    var n := |rows| - 1;
    if rows[n].key != k {
      IdMapLastWins(rows[..n], k);
    }
  }

  /** With distinct keys the i-th row (0-based) is mapped to i + 1. */
  lemma DenseIds(rows: seq<Row>, i: nat)
    requires DistinctKeys(rows) && i < |rows|
    ensures rows[i].key in IdMap(rows) && IdMap(rows)[rows[i].key] == i + 1
  {
    IdMapKeys(rows);
    assert rows[i] in rows;
    IdMapLastWins(rows, rows[i].key);
  }

  /** Distinct account ids among the records that pass give distinct keys. */
  lemma DistinctAccountsKeys(users: seq<User>)
    requires DistinctAccounts(users)
    ensures DistinctKeys(Kept(users))
  {
    var rows := Kept(users);
    forall p, q | 0 <= p < q < |rows| ensures rows[p].key != rows[q].key {
      KeptOrigin(users, p);
      KeptOrigin(users, q);
      var i: nat :| KeptAs(users, i, p) && rows[p] == Extract(users[i]);
      var j: nat :| KeptAs(users, j, q) && rows[q] == Extract(users[j]);
      if j <= i {
        RankMonotone(users, j, i);
      }
      IntToStringInjective(users[i].accountId, users[j].accountId);
    }
  }

  /**
   * The record at roster index i that passes the filter, with account ids all
   * distinct, is found under `str(account_id)` with id Rank(users, i) + 1.
   */
  lemma UserDenseId(users: seq<User>, i: nat)
    requires DistinctAccounts(users) && i < |users| && InContest(users[i])
    ensures IntToString(users[i].accountId) in IdMap(Kept(users))
    ensures IdMap(Kept(users))[IntToString(users[i].accountId)] == Rank(users, i) + 1
  {
    KeptContains(users, i);
    DistinctAccountsKeys(users);
    DenseIds(Kept(users), Rank(users, i));
  }
}
