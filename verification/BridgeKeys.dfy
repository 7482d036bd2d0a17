/** Bridge keys: the table of internal/storage/repos/bridge_keys.go and the cached validation of
    internal/auth/bridgekey.go. A digest stands for SHA-256 as an injective function. */
module BridgeKeys {
  import opened Wrappers
  import opened KeyCache

  datatype Digest = Sha256(token: string)

  /** A JSON column: a decodable value, or text json.Unmarshal refuses. */
  datatype Column<T> = Readable(value: T) | Unreadable

  datatype Scopes = Scopes(allowedPools: seq<string>, allowedModels: seq<string>, ipAllowlist: seq<string>)

  datatype Budgets = Budgets(dailyCents: int, monthlyCents: int, hardCap: bool)

  datatype RateLimits = RateLimits(rpm: int, tpm: int)

  datatype Row = Row(
    id: string,
    hash: Digest,
    name: string,
    createdAt: int,
    createdBy: string,
    lastUsedAt: Option<int>,
    revokedAt: Option<int>,
    scopes: Column<Scopes>,
    budgets: Column<Budgets>,
    rateLimits: Column<RateLimits>,
    metadata: Column<map<string, string>>)

  datatype BridgeKey = BridgeKey(
    id: string,
    hash: Digest,
    name: string,
    prefix: string,
    createdAt: int,
    createdBy: string,
    lastUsedAt: Option<int>,
    revokedAt: Option<int>,
    scopes: Scopes,
    budgets: Budgets,
    rateLimits: RateLimits,
    metadata: map<string, string>)

  // ---------- The table ----------

  /** The primary key is the id; the hash column is UNIQUE. */
  ghost predicate UniqueRows(rows: seq<Row>) {
    forall i, j | 0 <= i < j < |rows| :: rows[i].id != rows[j].id && rows[i].hash != rows[j].hash
  }

  function GetByHash(rows: seq<Row>, hash: Digest): (r: Option<Row>)
    ensures r.Some? ==> r.value in rows && r.value.hash == hash && r.value.revokedAt.None?
    ensures r.None? ==> forall row | row in rows && row.hash == hash :: row.revokedAt.Some?
  {
    if rows == [] then None
    else if rows[0].hash == hash && rows[0].revokedAt.None? then Some(rows[0])
    else GetByHash(rows[1..], hash)
  }

  /** INSERT ... ON CONFLICT(id) DO UPDATE: the creation time of an existing row stays; a hash another row
      holds is a constraint error. */
  function Put(rows: seq<Row>, row: Row): (r: Option<seq<Row>>)
    ensures r.Some? && UniqueRows(rows) ==> UniqueRows(r.value)
  {
    if exists i :: 0 <= i < |rows| && rows[i].hash == row.hash && rows[i].id != row.id then None
    else if i: nat :| i < |rows| && rows[i].id == row.id && forall j | 0 <= j < i :: rows[j].id != row.id then
      Some(rows[i := row.(createdAt := rows[i].createdAt)])
    else Some(rows + [row])
  }

  function Delete(rows: seq<Row>, id: string): (r: seq<Row>)
    ensures forall row | row in r :: row in rows && row.id != id
    ensures forall row | row in rows && row.id != id :: row in r
  {
    if rows == [] then [] else (if rows[0].id == id then [] else [rows[0]]) + Delete(rows[1..], id)
  }

  function MarkUsed(rows: seq<Row>, id: string, at: int): (r: seq<Row>)
    ensures |r| == |rows|
    ensures forall i | 0 <= i < |r| :: r[i] == if rows[i].id == id then rows[i].(lastUsedAt := Some(at)) else rows[i]
  {
    seq(|rows|, i requires 0 <= i < |rows| => if rows[i].id == id then rows[i].(lastUsedAt := Some(at)) else rows[i])
  }

  // ---------- Tokens and rows ----------

  predicate HexDigits(s: string) {
    forall c | c in s :: '0' <= c <= '9' || 'a' <= c <= 'f'
  }

  /** "live" or "test" for a token sb_live_ or sb_test_ followed by 32 lower-case hex digits. */
  function Prefix(token: string): Option<string> {
    if |token| == 40 && HexDigits(token[8..]) && token[..8] == "sb_live_" then Some("live")
    else if |token| == 40 && HexDigits(token[8..]) && token[..8] == "sb_test_" then Some("test")
    else None
  }

  function Decode(row: Row, prefix: string): Option<BridgeKey> {
    if row.scopes.Unreadable? || row.budgets.Unreadable? || row.rateLimits.Unreadable? || row.metadata.Unreadable?
    then None
    else Some(BridgeKey(row.id, row.hash, row.name, prefix, row.createdAt, row.createdBy, row.lastUsedAt, row.revokedAt,
                        row.scopes.value, row.budgets.value, row.rateLimits.value, row.metadata.value))
  }

  /** What the table alone says about a token. */
  function KeyIn(rows: seq<Row>, token: string): Option<BridgeKey> {
    var prefix, row := Prefix(token), GetByHash(rows, Sha256(token));
    if prefix.None? || row.None? then None else Decode(row.value, prefix.value)
  }

  datatype Validation = Valid(key: BridgeKey) | BadFormat | WrongPrefix | Revoked | BadRow

  type Cached = Entry<Digest, BridgeKey>

  /** The answer from the table, when the cache has none. */
  function FromTable(rows: seq<Row>, token: string, prefix: string): Validation {
    var row := GetByHash(rows, Sha256(token));
    if row.None? then Revoked
    else
      var key := Decode(row.value, prefix);
      if key.None? then BadRow else Valid(key.value)
  }

  function Validate(rows: seq<Row>, cache: seq<Cached>, token: string, now: int): Validation {
    var prefix := Prefix(token);
    if prefix.None? then BadFormat
    else
      var hit := Answer(cache, Sha256(token), now);
      if hit.Some? then (if hit.value.prefix != prefix.value then WrongPrefix else Valid(hit.value))
      else FromTable(rows, token, prefix.value)
  }

  function CacheAfter(rows: seq<Row>, cache: seq<Cached>, token: string, now: int, max: nat, ttl: int): seq<Cached> {
    var prefix := Prefix(token);
    if prefix.None? then cache
    else
      var looked := AfterGet(cache, Sha256(token), now);
      if Answer(cache, Sha256(token), now).Some? then looked
      else
        Filled(looked, token, FromTable(rows, token, prefix.value), now, max, ttl)
  }

  function Filled(cache: seq<Cached>, token: string, answer: Validation, now: int, max: nat, ttl: int): seq<Cached> {
    if answer.Valid? then AfterPut(cache, Entry(Sha256(token), answer.key, now + ttl), max) else cache
  }

  lemma FilledByPut(cache: seq<Cached>, token: string, answer: Validation, now: int, max: nat, ttl: int)
    requires answer.Valid?
    ensures Filled(cache, token, answer, now, max, ttl)
         == AfterPut(cache, Entry(Sha256(token), answer.key, now + ttl), max)
  {
  }

  class BridgeKeyStore {
    var rows: seq<Row>
    const cache: Cache<Digest, BridgeKey>

    constructor (rows: seq<Row>, cache: Cache<Digest, BridgeKey>)
      ensures this.rows == rows && this.cache == cache
    {
      this.rows := rows;
      this.cache := cache;
    }

    /** The cache is asked first; the table's answer, if it is a key, fills it. */
    method ValidateToken(token: string, now: int) returns (r: Validation)
      requires cache.Valid()
      modifies cache, cache.cells
      ensures cache.Valid() && r == Validate(rows, old(cache.contents), token, now)
      ensures cache.contents == CacheAfter(rows, old(cache.contents), token, now, cache.max, cache.ttl)
    {
      var prefix := Prefix(token);
      if prefix.None? {
        return BadFormat;
      }
      var cached := cache.Get(Sha256(token), now);
      if cached.Some? {
        r := if cached.value.prefix != prefix.value then WrongPrefix else Valid(cached.value);
      } else {
        r := Lookup(token, prefix.value, now);
      }
    }

    /** The table's answer, which fills the cache when it is a key. */
    method Lookup(token: string, prefix: string, now: int) returns (r: Validation)
      requires cache.Valid()
      modifies cache, cache.cells
      ensures cache.Valid() && r == FromTable(rows, token, prefix)
      ensures cache.contents == Filled(old(cache.contents), token, r, now, cache.max, cache.ttl)
    {
      r := FromTable(rows, token, prefix);
      Fill(token, r, now);
    }

    method Fill(token: string, answer: Validation, now: int)
      requires cache.Valid()
      modifies cache, cache.cells
      ensures cache.Valid()
      ensures cache.contents == Filled(old(cache.contents), token, answer, now, cache.max, cache.ttl)
    {
      if answer.Valid? {
        FilledByPut(cache.contents, token, answer, now, cache.max, cache.ttl);
        cache.Put(Sha256(token), answer.key, now);
      }
    }
  }

  // ---------- Runs on a monotone clock ----------

  datatype Event = PutRow(row: Row) | DeleteRow(id: string) | Touch(id: string, at: int) | Check(token: string)

  datatype Snapshot = Snapshot(at: int, rows: seq<Row>)

  /** The table, the cache, and the table as it stood at each past event. */
  datatype Machine = Machine(rows: seq<Row>, cache: seq<Cached>, history: seq<Snapshot>, now: int)

  function RowsAfter(rows: seq<Row>, e: Event): seq<Row> {
    match e
    case PutRow(row) => var r := Put(rows, row); if r.Some? then r.value else rows
    case DeleteRow(id) => Delete(rows, id)
    case Touch(id, at) => MarkUsed(rows, id, at)
    case Check(_) => rows
  }

  function Step(m: Machine, e: Event, now: int, max: nat, ttl: int): Machine {
    var rows := RowsAfter(m.rows, e);
    Machine(rows, if e.Check? then CacheAfter(m.rows, m.cache, e.token, now, max, ttl) else m.cache,
            m.history + [Snapshot(now, rows)], now)
  }

  /** What a cached entry remembers: what the table said about its token when the entry was put. */
  ghost predicate Remembers(h: seq<Snapshot>, e: Cached, ttl: int) {
    exists s :: s in h && s.at == e.expiresAt - ttl && KeyIn(s.rows, e.hash.token) == Some(e.key)
  }

  ghost predicate Inv(m: Machine, ttl: int) {
    Trusted(m.cache, m.history, ttl) && forall s | s in m.history :: s.at <= m.now
  }

  lemma RemembersMore(h: seq<Snapshot>, s: Snapshot, e: Cached, ttl: int)
    requires Remembers(h, e, ttl)
    ensures Remembers(h + [s], e, ttl)
  {
    var x :| x in h && x.at == e.expiresAt - ttl && KeyIn(x.rows, e.hash.token) == Some(e.key);
    assert x in h + [s];
  }

  lemma StepInv(m: Machine, e: Event, now: int, max: nat, ttl: int)
    requires Inv(m, ttl) && m.now <= now
    ensures Inv(Step(m, e, now, max, ttl), ttl)
  {
    var s := Snapshot(now, RowsAfter(m.rows, e));
    forall c | c in m.cache ensures Remembers(m.history + [s], c, ttl) {
      RemembersMore(m.history, s, c, ttl);
    }
    if e.Check? {
      CheckInv(m, s, e.token, max, ttl);
    }
  }

  /** A cache of distinct hashes whose entries are all remembered. */
  ghost predicate Trusted(cache: seq<Cached>, h: seq<Snapshot>, ttl: int) {
    DistinctHashes(cache) && forall c | c in cache :: Remembers(h, c, ttl)
  }

  lemma GetKeepsTrust(cache: seq<Cached>, h: seq<Snapshot>, hash: Digest, now: int, ttl: int)
    requires Trusted(cache, h, ttl)
    ensures Trusted(AfterGet(cache, hash, now), h, ttl)
  {
    DropKeepsDistinct(cache, hash);
  }

  lemma PutKeepsTrust(cache: seq<Cached>, h: seq<Snapshot>, e: Cached, max: nat, ttl: int)
    requires Trusted(cache, h, ttl) && Remembers(h, e, ttl)
    ensures Trusted(AfterPut(cache, e, max), h, ttl)
  {
    DropKeepsDistinct(cache, e.hash);
  }

  /** Entries kept by a validation are remembered already; the one it puts is what the table says now. */
  lemma CheckInv(m: Machine, s: Snapshot, token: string, max: nat, ttl: int)
    requires s.rows == m.rows && Trusted(m.cache, m.history + [s], ttl)
    ensures Trusted(CacheAfter(m.rows, m.cache, token, s.at, max, ttl), m.history + [s], ttl)
  {
    var hash, h := Sha256(token), m.history + [s];
    GetKeepsTrust(m.cache, h, hash, s.at, ttl);
    if Prefix(token).Some? && Answer(m.cache, hash, s.at).None? {
      FillKeepsTrust(AfterGet(m.cache, hash, s.at), h, s, token, max, ttl);
    }
  }

  /** The table's answer is a key exactly when the table says so, and then that key. */
  lemma AnswerIsKeyIn(rows: seq<Row>, token: string)
    requires Prefix(token).Some?
    ensures var a := FromTable(rows, token, Prefix(token).value);
      KeyIn(rows, token) == if a.Valid? then Some(a.key) else None
  {
  }

  lemma FilledIsRemembered(h: seq<Snapshot>, s: Snapshot, token: string, key: BridgeKey, ttl: int)
    requires s in h && KeyIn(s.rows, token) == Some(key)
    ensures Remembers(h, Entry(Sha256(token), key, s.at + ttl), ttl)
  {
  }

  lemma FillKeepsTrust(cache: seq<Cached>, h: seq<Snapshot>, s: Snapshot, token: string, max: nat, ttl: int)
    requires Trusted(cache, h, ttl) && s in h && Prefix(token).Some?
    ensures Trusted(Filled(cache, token, FromTable(s.rows, token, Prefix(token).value), s.at, max, ttl), h, ttl)
  {
    var a := FromTable(s.rows, token, Prefix(token).value);
    AnswerIsKeyIn(s.rows, token);
    if a.Valid? {
      FilledIsRemembered(h, s, token, a.key, ttl);
    }
    AnswerKeepsTrust(cache, h, token, a, s.at, max, ttl);
  }

  lemma AnswerKeepsTrust(cache: seq<Cached>, h: seq<Snapshot>, token: string, a: Validation, now: int,
                         max: nat, ttl: int)
    requires Trusted(cache, h, ttl)
    requires a.Valid? ==> Remembers(h, Entry(Sha256(token), a.key, now + ttl), ttl)
    ensures Trusted(Filled(cache, token, a, now, max, ttl), h, ttl)
  {
    if a.Valid? {
      PutKeepsTrust(cache, h, Entry(Sha256(token), a.key, now + ttl), max, ttl);
    }
  }

  datatype Timed = Timed(event: Event, now: int)

  ghost predicate Monotone(start: int, events: seq<Timed>)
    decreases |events|
  {
    events == [] || (start <= events[0].now && Monotone(events[0].now, events[1..]))
  }

  function After(m: Machine, events: seq<Timed>, max: nat, ttl: int): Machine
    decreases |events|
  {
    if events == [] then m else After(Step(m, events[0].event, events[0].now, max, ttl), events[1..], max, ttl)
  }

  lemma {:induction false} RunInv(m: Machine, events: seq<Timed>, max: nat, ttl: int)
    requires Inv(m, ttl) && Monotone(m.now, events)
    ensures Inv(After(m, events, max, ttl), ttl)
    decreases |events|
  {
    if events != [] {
      StepInv(m, events[0].event, events[0].now, max, ttl);
      RunInv(Step(m, events[0].event, events[0].now, max, ttl), events[1..], max, ttl);
    }
  }

  /** The start: any table, an empty cache, nothing seen yet. */
  ghost predicate Initial(m: Machine) {
    m.cache == [] && m.history == []
  }

  /** Every key a validation returns at time t is the one the table held at some instant in (t - ttl, t]. */
  lemma ValidKeyIsFresh(start: Machine, events: seq<Timed>, token: string, now: int, max: nat, ttl: int)
    returns (s: Snapshot)
    requires Initial(start) && Monotone(start.now, events) && ttl > 0
    requires var m := After(start, events, max, ttl); m.now <= now && Validate(m.rows, m.cache, token, now).Valid?
    ensures var m := After(start, events, max, ttl);
            && s in m.history + [Snapshot(now, m.rows)]
            && now - ttl < s.at <= now
            && KeyIn(s.rows, token) == Some(Validate(m.rows, m.cache, token, now).key)
  {
    RunInv(start, events, max, ttl);
    var m := After(start, events, max, ttl);
    var hit := Answer(m.cache, Sha256(token), now);
    if hit.Some? {
      var e := Find(m.cache, Sha256(token)).value;
      assert Remembers(m.history, e, ttl);
      s :| s in m.history && s.at == e.expiresAt - ttl && KeyIn(s.rows, token) == Some(e.key);
    } else {
      s := Snapshot(now, m.rows);
    }
  }

  /** The answer never names the wrong prefix: a cached key carries the prefix of the one token with its hash. */
  lemma NeverWrongPrefix(start: Machine, events: seq<Timed>, token: string, now: int, max: nat, ttl: int)
    requires Initial(start) && Monotone(start.now, events)
    ensures var m := After(start, events, max, ttl); !Validate(m.rows, m.cache, token, now).WrongPrefix?
  {
    RunInv(start, events, max, ttl);
    var m := After(start, events, max, ttl);
    if Answer(m.cache, Sha256(token), now).Some? {
      var e := Find(m.cache, Sha256(token)).value;
      assert Remembers(m.history, e, ttl);
      var s :| s in m.history && s.at == e.expiresAt - ttl && KeyIn(s.rows, token) == Some(e.key);
    }
  }

  /** A key gone from the table since `gone` is refused from gone + ttl on. */
  lemma RevokedIsRefused(start: Machine, events: seq<Timed>, token: string, gone: int, now: int, max: nat, ttl: int)
    requires Initial(start) && Monotone(start.now, events) && ttl > 0 && Prefix(token).Some?
    requires var m := After(start, events, max, ttl);
             && m.now <= now && gone + ttl <= now
             && GetByHash(m.rows, Sha256(token)).None?
             && forall s | s in m.history && s.at > gone :: GetByHash(s.rows, Sha256(token)).None?
    ensures var m := After(start, events, max, ttl); Validate(m.rows, m.cache, token, now) == Revoked
  {
    var m := After(start, events, max, ttl);
    NeverWrongPrefix(start, events, token, now, max, ttl);
    if Validate(m.rows, m.cache, token, now).Valid? {
      var s := ValidKeyIsFresh(start, events, token, now, max, ttl);
      assert false;
    }
  }

  /** DELETE, the constraint error and the upsert keep ids and hashes unique, so GetByHash has one row to find. */
  lemma StepKeepsUnique(rows: seq<Row>, e: Event)
    requires UniqueRows(rows)
    ensures UniqueRows(RowsAfter(rows, e))
  {
    if e.DeleteRow? {
      DeleteKeepsUnique(rows, e.id);
    }
  }

  lemma {:induction false} DeleteKeepsUnique(rows: seq<Row>, id: string)
    requires UniqueRows(rows)
    ensures UniqueRows(Delete(rows, id))
  {
    if rows != [] {
      var rest := Delete(rows[1..], id);
      DeleteKeepsUnique(rows[1..], id);
      forall i | 0 <= i < |rest| ensures rest[i].id != rows[0].id && rest[i].hash != rows[0].hash {
        assert rest[i] in rest && rest[i] in rows[1..];
      }
    }
  }
}
