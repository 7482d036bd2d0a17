/** What a bridge-key validation tells its caller, said about tokens and table rows alone. */
module KeyChecks {
  import opened Wrappers
  import opened BridgeKeys
  import KeyCache
  import opened CacheRetention

  // ---------- Tokens ----------

  /** sb_, the kind, an underscore and 32 lower-case hex digits. */
  ghost predicate TokenOf(token: string, kind: string) {
    && kind in {"live", "test"}
    && exists digits :: |digits| == 32 && HexDigits(digits) && token == "sb_" + kind + "_" + digits
  }

  /** The prefix of a token is its kind, exactly when it has one. */
  lemma PrefixExactly(token: string, kind: string)
    ensures Prefix(token) == Some(kind) <==> TokenOf(token, kind)
  {
    if Prefix(token) == Some(kind) {
      assert token == token[..8] + token[8..];
      assert "sb_" + kind + "_" == token[..8];
    }
    if TokenOf(token, kind) {
      var digits :| |digits| == 32 && HexDigits(digits) && token == "sb_" + kind + "_" + digits;
      assert |"sb_" + kind + "_"| == 8;
      assert token[..8] == "sb_" + kind + "_" && token[8..] == digits;
      assert "sb_live_" == "sb_" + "live" + "_" && "sb_test_" == "sb_" + "test" + "_";
      assert "sb_live_"[3] == 'l' && "sb_test_"[3] == 't';
    }
  }

  // ---------- Rows and keys ----------

  /** The row is this token's, not revoked, and all its columns can be read. */
  predicate Stands(row: Row, token: string) {
    && row.hash == Sha256(token) && row.revokedAt.None?
    && row.scopes.Readable? && row.budgets.Readable? && row.rateLimits.Readable? && row.metadata.Readable?
  }

  /** The key says what the row says, and the kind of the token. */
  ghost predicate Says(key: BridgeKey, row: Row, token: string) {
    && TokenOf(token, key.prefix)
    && row.scopes == Readable(key.scopes) && row.budgets == Readable(key.budgets)
    && row.rateLimits == Readable(key.rateLimits) && row.metadata == Readable(key.metadata)
    && key.id == row.id && key.hash == row.hash && key.name == row.name
    && key.createdAt == row.createdAt && key.createdBy == row.createdBy
    && key.lastUsedAt == row.lastUsedAt && key.revokedAt == row.revokedAt
  }

  lemma KeyInSays(rows: seq<Row>, token: string)
    requires KeyIn(rows, token).Some?
    ensures exists row :: row in rows && Stands(row, token) && Says(KeyIn(rows, token).value, row, token)
  {
    var row := GetByHash(rows, Sha256(token)).value;
    PrefixExactly(token, Prefix(token).value);
    assert row in rows && Stands(row, token) && Says(KeyIn(rows, token).value, row, token);
  }

  lemma StandingIsFound(rows: seq<Row>, row: Row, token: string)
    requires UniqueRows(rows) && row in rows && Stands(row, token)
    ensures GetByHash(rows, Sha256(token)) == Some(row)
  {
    var found := GetByHash(rows, Sha256(token)).value;
    var i :| 0 <= i < |rows| && rows[i] == row;
    var j :| 0 <= j < |rows| && rows[j] == found;
    assert i < j ==> rows[i].hash != rows[j].hash;
    assert j < i ==> rows[j].hash != rows[i].hash;
  }

  /** Without a cached answer the table decides: a token of a kind whose row stands gets the key that row says; one
      with a row that cannot be read is told so, one without an unrevoked row is revoked, and any other is malformed. */
  lemma TableAnswers(rows: seq<Row>, token: string, now: int)
    requires UniqueRows(rows)
    ensures var answer := Validate(rows, [], token, now);
      && (answer == BadFormat <==> !TokenOf(token, "live") && !TokenOf(token, "test"))
      && (answer != BadFormat ==>
            && (answer == Revoked <==>
                  !exists row :: row in rows && row.hash == Sha256(token) && row.revokedAt.None?)
            && (answer.Valid? <==> exists row :: row in rows && Stands(row, token))
            && (forall row | row in rows && Stands(row, token) :: Says(answer.key, row, token)))
  {
    PrefixExactly(token, "live");
    PrefixExactly(token, "test");
    if Prefix(token).Some? {
      PrefixExactly(token, Prefix(token).value);
      forall row | row in rows && Stands(row, token) ensures GetByHash(rows, Sha256(token)) == Some(row) {
        StandingIsFound(rows, row, token);
      }
    }
  }

  // ---------- In every run ----------

  /** Every key returned in a run is what a row of its token said, standing in the table at some instant of the last
      ttl. */
  lemma ValidSaysRow(start: Machine, events: seq<Timed>, token: string, now: int, max: nat, ttl: int)
    returns (s: Snapshot, row: Row)
    requires Initial(start) && Monotone(start.now, events) && ttl > 0
    requires var m := After(start, events, max, ttl); m.now <= now && Validate(m.rows, m.cache, token, now).Valid?
    ensures var m := After(start, events, max, ttl);
      && s in m.history + [Snapshot(now, m.rows)] && now - ttl < s.at <= now
      && row in s.rows && Stands(row, token) && Says(Validate(m.rows, m.cache, token, now).key, row, token)
  {
    s := ValidKeyIsFresh(start, events, token, now, max, ttl);
    KeyInSays(s.rows, token);
    row :| row in s.rows && Stands(row, token)
           && Says(Validate(After(start, events, max, ttl).rows, After(start, events, max, ttl).cache, token, now).key,
                   row, token);
  }

  lemma {:induction false} RunKeepsUnique(m: Machine, events: seq<Timed>, max: nat, ttl: int)
    requires UniqueRows(m.rows)
    ensures UniqueRows(After(m, events, max, ttl).rows)
    decreases |events|
  {
    if events != [] {
      StepKeepsUnique(m.rows, events[0].event);
      RunKeepsUnique(Step(m, events[0].event, events[0].now, max, ttl), events[1..], max, ttl);
    }
  }

  /** In every run a token of a kind whose row stands in the table is accepted, whatever the cache holds. */
  lemma StandingIsAccepted(start: Machine, events: seq<Timed>, token: string, row: Row, now: int, max: nat, ttl: int)
    requires Initial(start) && UniqueRows(start.rows) && Monotone(start.now, events)
    requires TokenOf(token, "live") || TokenOf(token, "test")
    requires row in After(start, events, max, ttl).rows && Stands(row, token)
    ensures var m := After(start, events, max, ttl); Validate(m.rows, m.cache, token, now).Valid?
  {
    var m := After(start, events, max, ttl);
    NeverWrongPrefix(start, events, token, now, max, ttl);
    RunKeepsUnique(start, events, max, ttl);
    StandingIsFound(m.rows, row, token);
    PrefixExactly(token, "live");
    PrefixExactly(token, "test");
  }

  // ---------- The cache ----------

  type Op = KeyCache.Op<Digest, BridgeKey>

  /** What one event of a run does to the cache: a validation of a token of a kind asks for its hash, and puts the
      table's key when there was no answer. */
  function OpsOf(rows: seq<Row>, answered: bool, e: Timed): seq<Op> {
    if !e.event.Check? || Prefix(e.event.token).None? then []
    else
      var token := e.event.token;
      [KeyCache.Get(Sha256(token), e.now)]
      + if !answered && KeyIn(rows, token).Some? then [KeyCache.Op.Put(Sha256(token), KeyIn(rows, token).value, e.now)]
        else []
  }

  /** The cache operations of a run that starts with this table, after these. */
  function RunOps(ops: seq<Op>, rows: seq<Row>, events: seq<Timed>, max: nat, ttl: int): seq<Op>
    decreases |events|
  {
    if events == [] then ops
    else
      var e := events[0];
      var answered :=
        e.event.Check? && KeyCache.Answer(KeyCache.Run(ops, max, ttl), Sha256(e.event.token), e.now).Some?;
      RunOps(ops + OpsOf(rows, answered, e), RowsAfter(rows, e.event), events[1..], max, ttl)
  }

  lemma CheckIsOps(ops: seq<Op>, rows: seq<Row>, e: Timed, max: nat, ttl: int)
    requires e.event.Check?
    ensures var cache := KeyCache.Run(ops, max, ttl);
      var answered := KeyCache.Answer(cache, Sha256(e.event.token), e.now).Some?;
      CacheAfter(rows, cache, e.event.token, e.now, max, ttl)
      == KeyCache.Run(ops + OpsOf(rows, answered, e), max, ttl)
  {
    var token := e.event.token;
    if Prefix(token).None? {
      assert ops + [] == ops;
      return;
    }
    var get: Op := KeyCache.Get(Sha256(token), e.now);
    KeyCache.RunStep(ops, get, max, ttl);
    if KeyCache.Answer(KeyCache.Run(ops, max, ttl), Sha256(token), e.now).Some? {
      assert [get] + [] == [get];
      return;
    }
    FillIsPut(ops + [get], rows, token, e.now, max, ttl);
    MissOps(ops, get, KeyIn(rows, token), token, e.now);
  }

  lemma MissOps(ops: seq<Op>, get: Op, key: Option<BridgeKey>, token: string, now: int)
    ensures ops + ([get] + if key.Some? then [KeyCache.Op.Put(Sha256(token), key.value, now)] else [])
      == if key.None? then ops + [get] else (ops + [get]) + [KeyCache.Op.Put(Sha256(token), key.value, now)]
  {
  }

  lemma FillIsPut(ops: seq<Op>, rows: seq<Row>, token: string, now: int, max: nat, ttl: int)
    requires Prefix(token).Some?
    ensures var key := KeyIn(rows, token);
      Filled(KeyCache.Run(ops, max, ttl), token, FromTable(rows, token, Prefix(token).value), now, max, ttl)
      == if key.None? then KeyCache.Run(ops, max, ttl)
         else KeyCache.Run(ops + [KeyCache.Op.Put(Sha256(token), key.value, now)], max, ttl)
  {
    AnswerIsKeyIn(rows, token);
    if KeyIn(rows, token).Some? {
      KeyCache.RunStep(ops, KeyCache.Op.Put(Sha256(token), KeyIn(rows, token).value, now), max, ttl);
    }
  }

  /** The cache of a run is exactly what its operations leave. */
  lemma {:induction false} CacheIsRun(m: Machine, ops: seq<Op>, events: seq<Timed>, max: nat, ttl: int)
    requires m.cache == KeyCache.Run(ops, max, ttl)
    ensures After(m, events, max, ttl).cache == KeyCache.Run(RunOps(ops, m.rows, events, max, ttl), max, ttl)
    decreases |events|
  {
    if events == [] {
      return;
    }
    var e := events[0];
    var answered := e.event.Check? && KeyCache.Answer(m.cache, Sha256(e.event.token), e.now).Some?;
    if e.event.Check? {
      CheckIsOps(ops, m.rows, e, max, ttl);
    } else {
      assert ops + [] == ops;
    }
    CacheIsRun(Step(m, e.event, e.now, max, ttl), ops + OpsOf(m.rows, answered, e), events[1..], max, ttl);
  }

  /** Until it expires, a key that the run's operations retain is what its token gets, whatever has become of its
      row. */
  lemma RetainedIsAnswered(start: Machine, events: seq<Timed>, token: string, now: int, max: nat, ttl: int)
    requires Initial(start) && Monotone(start.now, events) && max > 0 && Prefix(token).Some?
    requires Retained(RunOps([], start.rows, events, max, ttl), max, ttl, Sha256(token))
    ensures var m, ops := After(start, events, max, ttl), RunOps([], start.rows, events, max, ttl);
      var p := KeyCache.LastPut(ops, Sha256(token));
      && 0 <= p < |ops| && ops[p].Put?
      && (now < ops[p].now + ttl ==> Validate(m.rows, m.cache, token, now) == Valid(ops[p].key))
  {
    CacheIsRun(start, [], events, max, ttl);
    RetainedAnswers(RunOps([], start.rows, events, max, ttl), max, ttl, Sha256(token), now);
    NeverWrongPrefix(start, events, token, now, max, ttl);
  }

  // ---------- The table ----------

  function ById(rows: seq<Row>, id: string): Option<Row> {
    if rows == [] then None else if rows[0].id == id then Some(rows[0]) else ById(rows[1..], id)
  }

  lemma {:induction false} ByIdAt(rows: seq<Row>, i: nat)
    requires UniqueRows(rows) && i < |rows|
    ensures ById(rows, rows[i].id) == Some(rows[i])
  {
    if i > 0 {
      assert rows[0].id != rows[i].id;
      ByIdAt(rows[1..], i - 1);
    }
  }

  lemma {:induction false} ByIdNone(rows: seq<Row>, id: string)
    requires forall r | r in rows :: r.id != id
    ensures ById(rows, id) == None
  {
    if rows != [] {
      assert rows[0] in rows;
      ByIdNone(rows[1..], id);
    }
  }

  lemma {:induction false} ByIdFound(rows: seq<Row>, id: string)
    ensures ById(rows, id).Some? ==> ById(rows, id).value in rows && ById(rows, id).value.id == id
    ensures ById(rows, id).None? ==> forall r | r in rows :: r.id != id
  {
    if rows != [] && rows[0].id != id {
      ByIdFound(rows[1..], id);
    }
  }

  /** A put is refused exactly when another row holds the hash. Otherwise the id's row is the one put, created when it
      first was, and every other row stays. */
  lemma PutExactly(rows: seq<Row>, row: Row, id: string)
    requires UniqueRows(rows)
    ensures var r := Put(rows, row);
      && (r.None? <==> exists i :: 0 <= i < |rows| && rows[i].hash == row.hash && rows[i].id != row.id)
      && (r.Some? && id != row.id ==> ById(r.value, id) == ById(rows, id))
      && (r.Some? && id == row.id ==>
            ById(r.value, id) == Some(
              if ById(rows, id).Some? then row.(createdAt := ById(rows, id).value.createdAt) else row))
  {
    var r := Put(rows, row);
    if r.None? {
      return;
    }
    ByIdFound(rows, id);
    if i: nat :| i < |rows| && rows[i].id == row.id && forall j | 0 <= j < i :: rows[j].id != row.id {
      PutReplaces(rows, row, i);
      ByIdAt(rows, i);
      if id == row.id {
        ByIdAt(rows[i := row.(createdAt := rows[i].createdAt)], i);
      } else {
        ByIdReplaced(rows, i, row.(createdAt := rows[i].createdAt), id);
      }
    } else {
      PutAppends(rows, row);
      ByIdAppended(rows, row, id);
    }
  }

  lemma PutReplaces(rows: seq<Row>, row: Row, i: nat)
    requires UniqueRows(rows) && Put(rows, row).Some? && i < |rows| && rows[i].id == row.id
    ensures Put(rows, row) == Some(rows[i := row.(createdAt := rows[i].createdAt)])
    ensures UniqueRows(rows[i := row.(createdAt := rows[i].createdAt)])
  {
    forall j | 0 <= j < i ensures rows[j].id != row.id {
      assert rows[j].id != rows[i].id;
    }
    assert Put(rows, row) == Some(rows[i := row.(createdAt := rows[i].createdAt)]);
  }

  lemma {:induction false} PutAppends(rows: seq<Row>, row: Row)
    requires Put(rows, row).Some?
    requires !exists i: nat :: i < |rows| && rows[i].id == row.id && forall j | 0 <= j < i :: rows[j].id != row.id
    ensures Put(rows, row) == Some(rows + [row]) && forall r | r in rows :: r.id != row.id
  {
    NoneFirst(rows, row.id, |rows|);
  }

  lemma {:induction false} NoneFirst(rows: seq<Row>, id: string, n: nat)
    requires n <= |rows|
    requires !exists i: nat :: i < |rows| && rows[i].id == id && forall j | 0 <= j < i :: rows[j].id != id
    ensures forall j | 0 <= j < n :: rows[j].id != id
  {
    if n > 0 {
      NoneFirst(rows, id, n - 1);
    }
  }

  lemma {:induction false} ByIdReplaced(rows: seq<Row>, i: nat, row: Row, id: string)
    requires i < |rows| && row.id == rows[i].id != id
    ensures ById(rows[i := row], id) == ById(rows, id)
  {
    var u := rows[i := row];
    if i > 0 {
      assert u[1..] == rows[1..][i - 1 := row];
      if rows[0].id != id {
        ByIdReplaced(rows[1..], i - 1, row, id);
      }
    } else {
      assert u[1..] == rows[1..];
    }
  }

  lemma {:induction false} ByIdAppended(rows: seq<Row>, row: Row, id: string)
    ensures ById(rows + [row], id)
      == if ById(rows, id).Some? then ById(rows, id) else if row.id == id then Some(row) else None
  {
    if rows == [] {
      assert rows + [row] == [row] && [row][1..] == [];
    } else {
      assert (rows + [row])[1..] == rows[1..] + [row];
      if rows[0].id != id {
        ByIdAppended(rows[1..], row, id);
      }
    }
  }
}
