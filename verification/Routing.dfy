/** Pools, selection and dispatch (internal/router/pool.go, router.go). A provider is an oracle: what a
    call to an upstream returns on each attempt. The clock and the random draws are inputs as well. */
module Routing {
  import opened Wrappers
  import Breaker
  import Health
  import opened Strategy

  datatype Upstream = Upstream(id: string, priority: int, weight: int)

  datatype Pool = Pool(id: string, modelAliases: seq<string>, strategy: string, upstreams: seq<Upstream>)

  const BREAKER_THRESHOLD := 2
  const BREAKER_RECOVERY := 50_000_000

  /** What a provider call returns; `fatal` marks an adapter error that must not be retried. */
  datatype Outcome = Answered(text: string) | Failed(error: string, fatal: bool)

  /** Everything outside the router that one attempt sees. */
  datatype Attempt = Attempt(selectAt: int, doneAt: int, draw: nat, provider: string -> Outcome)

  datatype DispatchError =
    | UnknownAlias
    | NoHealthyCandidate
    | BreakerOpen(id: string)
    | ProviderError(error: string)
    | NothingAttempted

  datatype Response = Response(text: string, upstreamID: string)

  // ---------- The shared state as a value ----------

  datatype Entry = Entry(health: Health.Value, breaker: Breaker.Value)

  type Table = map<string, Entry>

  ghost predicate Registered(p: Pool, t: Table) {
    forall u | u in p.upstreams :: u.id in t
  }

  function ToCandidate(u: Upstream, healthy: bool): Candidate {
    Candidate(u.id, u.weight, u.priority, healthy, 0, 0)
  }

  function Candidates(ups: seq<Upstream>, t: Table): seq<Candidate> {
    seq(|ups|, i requires 0 <= i < |ups| =>
      ToCandidate(ups[i], ups[i].id !in t || t[ups[i].id].health.Available()))
  }

  /** Whether a cooling upstream may be tried again. */
  predicate Recoverable(id: string, t: Table, now: int) {
    id in t && t[id].health.state == Health.CoolingOff && t[id].breaker.Allowed(now)
  }

  /** Asking Allow of a cooling upstream's breaker, as the sweep does. */
  function Asked(t: Table, id: string, now: int): Table {
    if id in t && t[id].health.state == Health.CoolingOff then
      t[id := t[id].(breaker := t[id].breaker.AfterAllow(now))]
    else t
  }

  /** The breakers after the recovery sweep asked these upstreams in order. */
  function Swept(ups: seq<Upstream>, t: Table, now: int): (t1: Table)
    ensures t1.Keys == t.Keys
  {
    if ups == [] then t
    else
      var last := |ups| - 1;
      Asked(Swept(ups[..last], t, now), ups[last].id, now)
  }

  /** The candidates the sweep finds; each answer depends on the breakers as moved so far. */
  function Recovered(ups: seq<Upstream>, t: Table, now: int): (cs: seq<Candidate>)
    ensures |cs| == |ups|
  {
    seq(|ups|, i requires 0 <= i < |ups| => RecoveredAt(ups, t, now, i))
  }

  function RecoveredAt(ups: seq<Upstream>, t: Table, now: int, i: nat): Candidate
    requires i < |ups|
  {
    ToCandidate(ups[i], Recoverable(ups[i].id, Swept(ups[..i], t, now), now))
  }

  /** Healthy upstreams first; only when there is none, the cooling ones that may recover. */
  function SelectIn(p: Pool, t: Table, now: int, draw: nat): (r: (Table, Option<string>))
    requires Registered(p, t)
    ensures r.0.Keys == t.Keys && (r.1.Some? ==> r.1.value in t)
  {
    var first := Select(New(p.strategy), Candidates(p.upstreams, t), draw);
    SelectedFromPool(p, Candidates(p.upstreams, t), draw);
    if first.Some? then (t, Some(first.value.id))
    else
      SelectedFromPool(p, Recovered(p.upstreams, t, now), draw);
      var second := Select(New(p.strategy), Recovered(p.upstreams, t, now), draw);
      (Swept(p.upstreams, t, now), if second.Some? then Some(second.value.id) else None)
  }

  /** One stretch before a provider call: selection, then the breaker's own question. */
  datatype Begun = NoneLeft(table: Table) | Skipped(table: Table, id: string) | Called(table: Table, id: string)

  function Begin(p: Pool, t: Table, now: int, draw: nat): (b: Begun)
    requires Registered(p, t)
    ensures b.table.Keys == t.Keys && (b.Called? ==> b.id in t)
  {
    var selected := SelectIn(p, t, now, draw);
    var t1 := selected.0;
    if selected.1.None? then NoneLeft(t1)
    else
      var id := selected.1.value;
      var b := t1[id].breaker;
      var t2 := t1[id := t1[id].(breaker := b.AfterAllow(now))];
      if b.Allowed(now) then Called(t2, id)
      else Skipped(t2[id := t2[id].(health := t2[id].health.AfterCooldown())], id)
  }

  /** The stretch after a provider call. */
  function End(t: Table, id: string, ok: bool, now: int): (t1: Table)
    requires id in t
    ensures t1.Keys == t.Keys
  {
    var e := t[id];
    if ok then t[id := Entry(e.health.AfterSuccess(), e.breaker.AfterSuccess())]
    else t[id := Entry(e.health.AfterFailure().AfterCooldown(), e.breaker.AfterFailure(now))]
  }

  /** What one attempt comes to: the upstream it called, if any, and either a result or the error so far. */
  datatype Tried =
    | Stop(table: Table, called: seq<string>, result: Result<Response, DispatchError>)
    | Again(table: Table, called: seq<string>, last: DispatchError)

  function TryOnce(p: Pool, t: Table, a: Attempt): (r: Tried)
    requires Registered(p, t)
    ensures r.table.Keys == t.Keys
  {
    match Begin(p, t, a.selectAt, a.draw)
    case NoneLeft(t1) => Stop(t1, [], Err(NoHealthyCandidate))
    case Skipped(t1, id) => Again(t1, [], BreakerOpen(id))
    case Called(t1, id) => Settle(t1, id, a.provider(id), a.doneAt)
  }

  /** What the outcome of a call comes to. */
  function Settle(t: Table, id: string, outcome: Outcome, now: int): (r: Tried)
    requires id in t
    ensures r.table.Keys == t.Keys
  {
    match outcome
    case Answered(text) => Stop(End(t, id, true, now), [id], Ok(Response(text, id)))
    case Failed(error, fatal) =>
      var t1 := End(t, id, false, now);
      if fatal then Stop(t1, [id], Err(ProviderError(error))) else Again(t1, [id], ProviderError(error))
  }

  datatype Dispatched = Dispatched(table: Table, calls: seq<string>, result: Result<Response, DispatchError>)

  /** The retry loop from attempt k on, after these calls: its final state, all its calls, its result. */
  function DispatchFrom(p: Pool, t: Table, env: seq<Attempt>, k: nat, calls: seq<string>, last: DispatchError)
    : Dispatched
    requires Registered(p, t) && |env| >= |p.upstreams|
    decreases |p.upstreams| - k
  {
    if k >= |p.upstreams| then Dispatched(t, calls, Err(last))
    else match TryOnce(p, t, env[k])
      case Stop(t1, called, result) => Dispatched(t1, calls + called, result)
      case Again(t1, called, error) => DispatchFrom(p, t1, env, k + 1, calls + called, error)
  }

  /** A dispatch ends with an attempt that stops, and goes on with the table and the calls of any other. */
  lemma DispatchStep(p: Pool, t: Table, env: seq<Attempt>, k: nat, calls: seq<string>, last: DispatchError, r: Tried)
    requires Registered(p, t) && k < |p.upstreams| <= |env| && r == TryOnce(p, t, env[k])
    ensures Registered(p, r.table)
    ensures DispatchFrom(p, t, env, k, calls, last)
         == if r.Stop? then Dispatched(r.table, calls + r.called, r.result)
            else DispatchFrom(p, r.table, env, k + 1, calls + r.called, r.last)
  {
  }

  function DispatchAll(p: Pool, t: Table, env: seq<Attempt>): Dispatched
    requires Registered(p, t) && |env| >= |p.upstreams|
  {
    DispatchFrom(p, t, env, 0, [], NothingAttempted)
  }

  // ---------- What every stretch keeps ----------

  /** The three machines of one upstream agree. */
  ghost predicate Coupled(e: Entry) {
    && e.breaker.threshold >= 1 && e.breaker.recoveryTimeout > 0
    && e.breaker.failures == e.health.consecutiveError >= 0
    && e.health.consecutiveOK >= 0
    && (e.breaker.state == Breaker.Closed <==> e.breaker.failures < e.breaker.threshold)
    && e.health.state in {Health.Healthy, Health.CoolingOff}
    && (e.health.state == Health.Healthy <==> e.breaker.failures == 0)
  }

  ghost predicate AllCoupled(t: Table) {
    forall id | id in t :: Coupled(t[id])
  }

  /** Nothing about an entry but its breaker's state has moved, and only from open to half-open in time. */
  ghost predicate OnlyHalfOpened(e: Entry, f: Entry, now: int) {
    f == e || (e.breaker.state == Breaker.Open && f == e.(breaker := e.breaker.(state := Breaker.HalfOpen))
               && now - e.breaker.openedAt >= e.breaker.recoveryTimeout)
  }

  lemma {:induction false} SweepMoves(ups: seq<Upstream>, t: Table, now: int)
    ensures forall id | id in t :: OnlyHalfOpened(t[id], Swept(ups, t, now)[id], now)
    ensures forall id | id in t && t[id].health.state == Health.CoolingOff && (exists u :: u in ups && u.id == id) ::
              Swept(ups, t, now)[id].breaker == t[id].breaker.AfterAllow(now)
  {
    if ups != [] {
      var last := |ups| - 1;
      SweepMoves(ups[..last], t, now);
      assert ups == ups[..last] + [ups[last]];
    }
  }

  /** An upstream the sweep lists as a candidate is cooling and its breaker is no longer open. */
  lemma RecoveredAreAllowed(ups: seq<Upstream>, t: Table, now: int, i: nat)
    requires i < |ups| && Recovered(ups, t, now)[i].healthy
    ensures ups[i].id in t && t[ups[i].id].health.state == Health.CoolingOff && t[ups[i].id].breaker.Allowed(now)
    ensures Swept(ups, t, now)[ups[i].id].breaker.state != Breaker.Open
  {
    SweepMoves(ups[..i], t, now);
    SweepMoves(ups, t, now);
    assert ups[i] in ups;
  }

  /** A selection made from candidates listed in pool order is an upstream of the pool, listed as healthy. */
  lemma SelectedFromPool(p: Pool, cs: seq<Candidate>, draw: nat)
    requires |cs| == |p.upstreams| && forall i | 0 <= i < |cs| :: cs[i].id == p.upstreams[i].id
    ensures var chosen := Select(New(p.strategy), cs, draw);
            chosen.Some? ==>
              exists i :: 0 <= i < |cs| && cs[i].healthy && p.upstreams[i] in p.upstreams &&
                          p.upstreams[i].id == chosen.value.id
  {
    SelectsHealthy(New(p.strategy), cs, draw);
    var chosen := Select(New(p.strategy), cs, draw);
    if chosen.Some? {
      var c :| c in cs && c.healthy && c.id == chosen.value.id;
      var i :| 0 <= i < |cs| && cs[i] == c;
      assert p.upstreams[i] in p.upstreams;
    }
  }

  ghost predicate InPool(p: Pool, id: string) {
    exists u :: u in p.upstreams && u.id == id
  }

  lemma HealthyChoice(p: Pool, t: Table, draw: nat)
    requires AllCoupled(t) && Registered(p, t)
    ensures var chosen := Select(New(p.strategy), Candidates(p.upstreams, t), draw);
            chosen.Some? ==>
              InPool(p, chosen.value.id) && chosen.value.id in t && t[chosen.value.id].health.state == Health.Healthy
  {
    var cs := Candidates(p.upstreams, t);
    SelectedFromPool(p, cs, draw);
    var chosen := Select(New(p.strategy), cs, draw);
    if chosen.Some? {
      var i :| 0 <= i < |cs| && cs[i].healthy && p.upstreams[i] in p.upstreams && p.upstreams[i].id == chosen.value.id;
      assert Coupled(t[p.upstreams[i].id]);
    }
  }

  lemma CoolingChoice(p: Pool, t: Table, now: int, draw: nat)
    ensures var chosen := Select(New(p.strategy), Recovered(p.upstreams, t, now), draw);
            chosen.Some? ==> InPool(p, chosen.value.id) && chosen.value.id in t
                             && t[chosen.value.id].health.state == Health.CoolingOff
                             && Swept(p.upstreams, t, now)[chosen.value.id].breaker.state != Breaker.Open
  {
    var cs := Recovered(p.upstreams, t, now);
    SelectedFromPool(p, cs, draw);
    var chosen := Select(New(p.strategy), cs, draw);
    if chosen.Some? {
      var i :| 0 <= i < |cs| && cs[i].healthy && p.upstreams[i] in p.upstreams && p.upstreams[i].id == chosen.value.id;
      RecoveredAreAllowed(p.upstreams, t, now, i);
    }
  }

  lemma SelectMoves(p: Pool, t: Table, now: int, draw: nat)
    requires AllCoupled(t) && Registered(p, t)
    ensures var r := SelectIn(p, t, now, draw);
            && (forall id | id in t :: OnlyHalfOpened(t[id], r.0[id], now))
            && (r.1.Some? ==> InPool(p, r.1.value) && r.0[r.1.value].breaker.state != Breaker.Open)
  {
    SweepMoves(p.upstreams, t, now);
    HealthyChoice(p, t, draw);
    CoolingChoice(p, t, now, draw);
    var first := Select(New(p.strategy), Candidates(p.upstreams, t), draw);
    if first.Some? {
      assert Coupled(t[first.value.id]);
    }
  }

  /** What Begin does to the table, and why the call it starts is allowed. */
  lemma BeginMoves(p: Pool, t: Table, now: int, draw: nat)
    requires AllCoupled(t) && Registered(p, t)
    ensures var b := Begin(p, t, now, draw);
            && !b.Skipped?
            && (forall id | id in t :: OnlyHalfOpened(t[id], b.table[id], now))
            && (b.Called? ==> InPool(p, b.id) && b.table[b.id].breaker.state != Breaker.Open)
  {
    SelectMoves(p, t, now, draw);
  }

  /** The coupling survives every stretch of a dispatch, and the skip branch of the loop is never taken. */
  lemma BeginKeepsCoupling(p: Pool, t: Table, now: int, draw: nat)
    requires AllCoupled(t) && Registered(p, t)
    ensures AllCoupled(Begin(p, t, now, draw).table) && !Begin(p, t, now, draw).Skipped?
  {
    BeginMoves(p, t, now, draw);
  }

  lemma EndKeepsCoupling(t: Table, id: string, ok: bool, now: int)
    requires AllCoupled(t) && id in t
    ensures AllCoupled(End(t, id, ok, now))
  {
  }

  // ---------- The router object ----------

  const NEW_ENTRY := Entry(Health.NEW, Breaker.New(BREAKER_THRESHOLD, BREAKER_RECOVERY))

  function Ids(ups: seq<Upstream>): set<string> {
    set u | u in ups :: u.id
  }

  function UpstreamIds(pools: seq<Pool>): set<string> {
    if pools == [] then {} else UpstreamIds(pools[..|pools| - 1]) + Ids(pools[|pools| - 1].upstreams)
  }

  /** Later pools win a shared alias. */
  function ByAlias(pools: seq<Pool>): map<string, Pool> {
    if pools == [] then map[]
    else
      var last := pools[|pools| - 1];
      ByAlias(pools[..|pools| - 1]) + map a | a in last.modelAliases :: last
  }

  /** An alias has a pool exactly when some pool lists it, and then the last one that does. */
  lemma {:induction false} ByAliasExactly(pools: seq<Pool>, alias: string)
    ensures alias in ByAlias(pools) <==> exists i :: 0 <= i < |pools| && alias in pools[i].modelAliases
    ensures alias in ByAlias(pools) ==>
      exists i :: 0 <= i < |pools| && alias in pools[i].modelAliases && ByAlias(pools)[alias] == pools[i]
                  && forall j | i < j < |pools| :: alias !in pools[j].modelAliases
  {
    if pools == [] {
      return;
    }
    var n := |pools| - 1;
    ByAliasExactly(pools[..n], alias);
    if alias in pools[n].modelAliases {
      assert ByAlias(pools)[alias] == pools[n];
    } else if alias in ByAlias(pools) {
      var i :| 0 <= i < n && alias in pools[..n][i].modelAliases && ByAlias(pools[..n])[alias] == pools[..n][i]
               && forall j | i < j < n :: alias !in pools[..n][j].modelAliases;
      assert ByAlias(pools)[alias] == pools[i];
      forall j | i < j < |pools| ensures alias !in pools[j].modelAliases {
        assert j < n ==> pools[..n][j] == pools[j];
      }
    }
  }

  lemma {:induction false} ByAliasRegisters(pools: seq<Pool>, alias: string)
    requires alias in ByAlias(pools)
    ensures var p := ByAlias(pools)[alias];
            p in pools && alias in p.modelAliases && Ids(p.upstreams) <= UpstreamIds(pools)
  {
    var n := |pools| - 1;
    if alias !in pools[n].modelAliases {
      ByAliasRegisters(pools[..n], alias);
    }
  }

  /** A new router's health and breakers. */
  function NewTable(all: seq<Pool>): (t: Table)
    ensures t.Keys == UpstreamIds(all) && forall id | id in t :: t[id] == NEW_ENTRY
  {
    map id | id in UpstreamIds(all) :: NEW_ENTRY
  }

  /** Every cell is its own upstream's and new. */
  ghost predicate AllNew(cells: map<string, Health.Cell>, switches: map<string, Breaker.Cell>)
    reads cells.Values, switches.Values
  {
    && (forall x | x in cells :: cells[x].owner == x && cells[x].Contents() == NEW_ENTRY.health)
    && (forall x | x in switches :: switches[x].owner == x && switches[x].Contents() == NEW_ENTRY.breaker)
  }

  /** The upstream's health cell if it has none yet, and a new breaker in any case. */
  method EnrollOne(id: string, cells0: map<string, Health.Cell>, switches0: map<string, Breaker.Cell>)
    returns (cells: map<string, Health.Cell>, switches: map<string, Breaker.Cell>)
    requires AllNew(cells0, switches0)
    ensures AllNew(cells, switches)
    ensures cells.Keys == cells0.Keys + {id} && switches.Keys == switches0.Keys + {id}
  {
    cells := cells0;
    if id !in cells {
      var h := new Health.Cell(id);
      cells := cells[id := h];
    }
    var b := new Breaker.Cell(BREAKER_THRESHOLD, BREAKER_RECOVERY, id);
    switches := switches0[id := b];
  }

  method Enroll(ups: seq<Upstream>, cells0: map<string, Health.Cell>, switches0: map<string, Breaker.Cell>)
    returns (cells: map<string, Health.Cell>, switches: map<string, Breaker.Cell>)
    requires AllNew(cells0, switches0)
    ensures AllNew(cells, switches)
    ensures cells.Keys == cells0.Keys + Ids(ups) && switches.Keys == switches0.Keys + Ids(ups)
  {
    cells, switches := cells0, switches0;
    for k := 0 to |ups|
      invariant AllNew(cells, switches)
      invariant cells.Keys == cells0.Keys + Ids(ups[..k]) && switches.Keys == switches0.Keys + Ids(ups[..k])
    {
      IdsStep(ups, k, cells0.Keys);
      IdsStep(ups, k, switches0.Keys);
      cells, switches := EnrollOne(ups[k].id, cells, switches);
    }
    assert ups[..|ups|] == ups;
  }

  lemma IdsStep(ups: seq<Upstream>, k: nat, keys: set<string>)
    requires k < |ups|
    ensures keys + Ids(ups[..k + 1]) == (keys + Ids(ups[..k])) + {ups[k].id}
  {
    assert ups[..k + 1] == ups[..k] + [ups[k]];
    assert Ids(ups[..k + 1]) == Ids(ups[..k]) + {ups[k].id};
  }

  method EnrollAll(all: seq<Pool>)
    returns (byAlias: map<string, Pool>, cells: map<string, Health.Cell>, switches: map<string, Breaker.Cell>)
    ensures byAlias == ByAlias(all) && AllNew(cells, switches)
    ensures cells.Keys == switches.Keys == UpstreamIds(all)
    ensures forall a | a in byAlias :: Ids(byAlias[a].upstreams) <= UpstreamIds(all)
  {
    byAlias, cells, switches := map[], map[], map[];
    for i := 0 to |all|
      invariant byAlias == ByAlias(all[..i]) && AllNew(cells, switches)
      invariant cells.Keys == switches.Keys == UpstreamIds(all[..i])
    {
      assert all[..i + 1][..i] == all[..i];
      byAlias := byAlias + map a | a in all[i].modelAliases :: all[i];
      cells, switches := Enroll(all[i].upstreams, cells, switches);
    }
    assert all[..|all|] == all;
    forall a | a in byAlias ensures Ids(byAlias[a].upstreams) <= UpstreamIds(all) {
      ByAliasRegisters(all, a);
    }
  }

  function WithHealth(t: Table, id: string, h: Health.Value): (t1: Table)
    requires id in t
    ensures t1.Keys == t.Keys
  {
    t[id := t[id].(health := h)]
  }

  function WithBreaker(t: Table, id: string, b: Breaker.Value): (t1: Table)
    requires id in t
    ensures t1.Keys == t.Keys
  {
    t[id := t[id].(breaker := b)]
  }

  /** Failure and cooldown of the health cell, then failure of the breaker: the same as one failed end. */
  lemma FailureSteps(t: Table, id: string, now: int)
    requires id in t
    ensures var t1 := WithHealth(t, id, t[id].health.AfterFailure());
            var t2 := WithHealth(t1, id, t1[id].health.AfterCooldown());
            WithBreaker(t2, id, t2[id].breaker.AfterFailure(now)) == End(t, id, false, now)
  {
  }

  lemma SuccessSteps(t: Table, id: string, now: int)
    requires id in t
    ensures var t1 := WithHealth(t, id, t[id].health.AfterSuccess());
            WithBreaker(t1, id, t1[id].breaker.AfterSuccess()) == End(t, id, true, now)
  {
  }

  class Router {
    const pools: map<string, Pool>
    const health: map<string, Health.Cell>
    const breakers: map<string, Breaker.Cell>
    ghost var table: Table  // what the cells hold
    ghost const repr: set<object>  // the cells

    /** Every pooled upstream has its own health cell and its own breaker. */
    ghost predicate Wired() {
      && health.Keys == breakers.Keys
      && (forall id | id in health :: health[id] in repr && health[id].owner == id)
      && (forall id | id in breakers :: breakers[id] in repr && breakers[id].owner == id)
      && this !in repr
      && forall a | a in pools :: Ids(pools[a].upstreams) <= health.Keys
    }

    /** The table says what the cells hold. */
    ghost predicate Valid()
      reads this, repr
    {
      && Wired() && table.Keys == health.Keys
      && forall id | id in health :: table[id] == Entry(health[id].Contents(), breakers[id].Contents())
    }

    constructor (all: seq<Pool>)
      ensures Valid()
      ensures pools == ByAlias(all)
      ensures table == NewTable(all)
    {
      var byAlias, cells, switches := EnrollAll(all);
      pools, health, breakers := byAlias, cells, switches;
      table := NewTable(all);
      repr := cells.Values + switches.Values;
      new;
      NewIsValid(all);
    }

    lemma NewIsValid(all: seq<Pool>)
      requires AllNew(health, breakers) && health.Keys == breakers.Keys == UpstreamIds(all)
      requires table == NewTable(all) && repr == health.Values + breakers.Values
      requires forall a | a in pools :: Ids(pools[a].upstreams) <= UpstreamIds(all)
      ensures Valid()
    {
    }

    /** A call that changes one health cell, with the table, leaves the router valid. */
    twostate lemma HealthFramed(id: string)
      requires old(Valid()) && id in health && unchanged(repr - {health[id]})
      requires table == WithHealth(old(table), id, health[id].Contents())
      ensures Valid()
    {
      forall x | x in health && x != id ensures health[x].Contents() == old(health[x].Contents()) {
        assert health[x].owner == x;
      }
    }

    /** And so does one that changes one breaker. */
    twostate lemma BreakerFramed(id: string)
      requires old(Valid()) && id in health && unchanged(repr - {breakers[id]})
      requires table == WithBreaker(old(table), id, breakers[id].Contents())
      ensures Valid()
    {
      forall x | x in breakers && x != id ensures breakers[x].Contents() == old(breakers[x].Contents()) {
        assert breakers[x].owner == x;
      }
    }

    method AskBreaker(id: string, now: int) returns (allowed: bool)
      requires Valid() && id in health
      modifies `table, breakers[id]
      ensures Valid() && allowed == old(table)[id].breaker.Allowed(now)
      ensures table == WithBreaker(old(table), id, old(table)[id].breaker.AfterAllow(now))
    {
      allowed := breakers[id].Allow(now);
      table := WithBreaker(table, id, table[id].breaker.AfterAllow(now));
      BreakerFramed(id);
    }

    method CoolDown(id: string)
      requires Valid() && id in health
      modifies `table, health[id]
      ensures Valid()
      ensures table == WithHealth(old(table), id, old(table)[id].health.AfterCooldown())
    {
      health[id].Cooldown();
      table := WithHealth(table, id, table[id].health.AfterCooldown());
      HealthFramed(id);
    }

    method MarkWell(id: string)
      requires Valid() && id in health
      modifies `table, health[id]
      ensures Valid()
      ensures table == WithHealth(old(table), id, old(table)[id].health.AfterSuccess())
    {
      health[id].Success();
      table := WithHealth(table, id, table[id].health.AfterSuccess());
      HealthFramed(id);
    }

    method CountSuccess(id: string)
      requires Valid() && id in health
      modifies `table, breakers[id]
      ensures Valid()
      ensures table == WithBreaker(old(table), id, old(table)[id].breaker.AfterSuccess())
    {
      breakers[id].Success();
      table := WithBreaker(table, id, table[id].breaker.AfterSuccess());
      BreakerFramed(id);
    }

    method Succeeded(id: string, now: int)
      requires Valid() && id in health
      modifies `table, health[id], breakers[id]
      ensures Valid() && table == End(old(table), id, true, now)
    {
      SuccessSteps(table, id, now);
      MarkWell(id);
      CountSuccess(id);
    }

    method FailedAt(id: string, now: int)
      requires Valid() && id in health
      modifies `table, health[id], breakers[id]
      ensures Valid() && table == End(old(table), id, false, now)
    {
      FailureSteps(table, id, now);
      MarkFailed(id);
      CoolDown(id);
      CountFailure(id, now);
    }

    method MarkFailed(id: string)
      requires Valid() && id in health
      modifies `table, health[id]
      ensures Valid()
      ensures table == WithHealth(old(table), id, old(table)[id].health.AfterFailure())
    {
      health[id].Failure();
      table := WithHealth(table, id, table[id].health.AfterFailure());
      HealthFramed(id);
    }

    method CountFailure(id: string, now: int)
      requires Valid() && id in health
      modifies `table, breakers[id]
      ensures Valid()
      ensures table == WithBreaker(old(table), id, old(table)[id].breaker.AfterFailure(now))
    {
      breakers[id].Failure(now);
      table := WithBreaker(table, id, table[id].breaker.AfterFailure(now));
      BreakerFramed(id);
    }

    method ReadCandidates(p: Pool) returns (cs: seq<Candidate>)
      requires Valid()
      ensures cs == Candidates(p.upstreams, table)
    {
      cs := [];
      for i := 0 to |p.upstreams|
        invariant |cs| == i
        invariant forall j | 0 <= j < i :: cs[j] == Candidates(p.upstreams, table)[j]
      {
        var u := p.upstreams[i];
        var available := true;
        if u.id in health {
          available := health[u.id].Available();
        }
        cs := cs + [ToCandidate(u, available)];
      }
    }

    method RecoveryCandidates(p: Pool, now: int) returns (cs: seq<Candidate>)
      requires Valid()
      modifies `table, repr
      ensures Valid() && table == Swept(p.upstreams, old(table), now) && cs == Recovered(p.upstreams, old(table), now)
    {
      cs := [];
      var ups := p.upstreams;
      for i := 0 to |ups|
        invariant Valid() && table == Swept(ups[..i], old(table), now)
        invariant |cs| == i && forall j | 0 <= j < i :: cs[j] == RecoveredAt(ups, old(table), now, j)
      {
        assert ups[..i + 1][..i] == ups[..i];
        var available := AskIfCooling(ups[i].id, now);
        cs := cs + [ToCandidate(ups[i], available)];
      }
      assert ups[..|ups|] == ups;
    }

    method AskIfCooling(id: string, now: int) returns (available: bool)
      requires Valid()
      modifies `table, repr
      ensures Valid() && table == Asked(old(table), id, now) && available == Recoverable(id, old(table), now)
    {
      available := false;
      if id in health && health[id].state == Health.CoolingOff {
        available := AskBreaker(id, now);
      }
    }

    /** Select: the id it settles on; the source then returns the pool's upstream of that id. */
    method Select(p: Pool, now: int, draw: nat) returns (id: Option<string>)
      requires Valid() && Registered(p, table)
      modifies `table, repr
      ensures Valid() && (table, id) == SelectIn(p, old(table), now, draw)
    {
      var cs := ReadCandidates(p);
      var selected := SelectOnce(New(p.strategy), cs, draw);
      if selected.None? {
        cs := RecoveryCandidates(p, now);
        selected := SelectOnce(New(p.strategy), cs, draw);
      }
      id := if selected.Some? then Some(selected.value.id) else None;
    }

    /** The stretch before a call: the id to call, or the reason there is no call. */
    method BeginAttempt(p: Pool, now: int, draw: nat) returns (id: Option<string>, skipped: bool)
      requires Valid() && Registered(p, table)
      modifies `table, repr
      ensures Valid()
      ensures Begin(p, old(table), now, draw) ==
              if id.None? then NoneLeft(table)
              else if skipped then Skipped(table, id.value)
              else Called(table, id.value)
    {
      id := Select(p, now, draw);
      skipped := false;
      if id.Some? {
        var allowed := AskBreaker(id.value, now);
        if !allowed {
          CoolDown(id.value);
          skipped := true;
        }
      }
    }

    method Try(p: Pool, a: Attempt)
      returns (called: seq<string>, done: Option<Result<Response, DispatchError>>, last: DispatchError)
      requires Valid() && Registered(p, table)
      modifies `table, repr
      ensures Valid()
      ensures TryOnce(p, old(table), a) ==
              if done.Some? then Stop(table, called, done.value) else Again(table, called, last)
    {
      called, done, last := [], None, NothingAttempted;
      var id, skipped := BeginAttempt(p, a.selectAt, a.draw);
      if id.None? {
        done := Some(Err(NoHealthyCandidate));
      } else if skipped {
        last := BreakerOpen(id.value);
      } else {
        var outcome := a.provider(id.value);
        done, last := Finish(id.value, outcome, a.doneAt);
        called := [id.value];
      }
    }

    method Finish(id: string, outcome: Outcome, now: int)
      returns (done: Option<Result<Response, DispatchError>>, last: DispatchError)
      requires Valid() && id in table
      modifies `table, repr
      ensures Valid()
      ensures Settle(old(table), id, outcome, now) ==
              if done.Some? then Stop(table, [id], done.value) else Again(table, [id], last)
    {
      done, last := None, NothingAttempted;
      if outcome.Answered? {
        Succeeded(id, now);
        done := Some(Ok(Response(outcome.text, id)));
      } else {
        FailedAt(id, now);
        last := ProviderError(outcome.error);
        if outcome.fatal {
          done := Some(Err(last));
        }
      }
    }

    method Dispatch(alias: string, env: seq<Attempt>)
      returns (result: Result<Response, DispatchError>, calls: seq<string>)
      requires Valid()
      requires alias in pools ==> |env| >= |pools[alias].upstreams|  // one for each attempt
      modifies `table, repr
      ensures Valid()
      ensures alias !in pools ==> result == Err(UnknownAlias) && calls == [] && table == old(table)
      ensures alias in pools ==>
                Registered(pools[alias], old(table)) &&
                Dispatched(table, calls, result) == DispatchAll(pools[alias], old(table), env)
    {
      calls := [];
      if alias !in pools {
        return Err(UnknownAlias), [];
      }
      var p := pools[alias];
      assert Registered(p, table) by {
        assert forall u | u in p.upstreams :: u.id in Ids(p.upstreams);
      }
      ghost var whole := DispatchAll(p, table, env);
      var last := NothingAttempted;
      for k := 0 to |p.upstreams|
        invariant Valid() && Registered(p, table)
        invariant whole == DispatchFrom(p, table, env, k, calls, last)
      {
        ghost var before := table;
        var called, done, error := Try(p, env[k]);
        DispatchStep(p, before, env, k, calls, last,
                     if done.Some? then Stop(table, called, done.value) else Again(table, called, error));
        calls := calls + called;
        if done.Some? {
          return done.value, calls;
        }
        last := error;
      }
      result := Err(last);
    }
  }
}
