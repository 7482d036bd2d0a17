/** What a dispatch tells its caller, and when an attempt finds an upstream to call. */
module DispatchOutcomes {
  import opened Wrappers
  import opened Strategy
  import opened Routing
  import opened Failover
  import opened RouterRuns
  import Health
  import Breaker

  // ---------- Who may be called ----------

  /** Healthy, or cooling with a breaker that is not open or whose recovery timeout is over. */
  predicate Ready(e: Entry, now: int) {
    || e.health.state == Health.Healthy
    || e.breaker.state != Breaker.Open
    || now - e.breaker.openedAt >= e.breaker.recoveryTimeout
  }

  ghost predicate SomeHealthy(p: Pool, t: Table) {
    exists u :: u in p.upstreams && u.id in t && t[u.id].health.state == Health.Healthy
  }

  ghost predicate SomeReady(p: Pool, t: Table, now: int) {
    exists u :: u in p.upstreams && u.id in t && Ready(t[u.id], now)
  }

  /** A candidate carries its upstream's id, weight and priority; a pool knows nothing of calls in flight or latency. An
      upstream counts as healthy unless it is known to be sick or cooling. */
  lemma CandidatesSay(p: Pool, t: Table, now: int, i: nat)
    requires i < |p.upstreams|
    ensures var u := p.upstreams[i];
      forall c | c in {Candidates(p.upstreams, t)[i], Recovered(p.upstreams, t, now)[i]} ::
        c.id == u.id && c.weight == u.weight && c.priority == u.priority && c.inFlight == 0 && c.latencyMs == 0
    ensures var u := p.upstreams[i];
      Candidates(p.upstreams, t)[i].healthy <==>
        !(u.id in t && t[u.id].health.state in {Health.Sick, Health.CoolingOff})
  {
  }

  lemma SweepKeepsReady(ups: seq<Upstream>, t: Table, now: int, id: string)
    requires id in t
    ensures var e, f := t[id], Swept(ups, t, now)[id];
      f.health == e.health && (f.breaker.Allowed(now) <==> e.breaker.Allowed(now))
  {
    SweepMoves(ups, t, now);
  }

  lemma HealthyListed(p: Pool, t: Table)
    requires AllCoupled(t) && Registered(p, t)
    ensures (exists c :: c in Candidates(p.upstreams, t) && c.healthy) <==> SomeHealthy(p, t)
  {
    var ups, cs := p.upstreams, Candidates(p.upstreams, t);
    if c :| c in cs && c.healthy {
      var i :| 0 <= i < |cs| && cs[i] == c;
      assert ups[i] in ups && Coupled(t[ups[i].id]);
    }
    if SomeHealthy(p, t) {
      var u :| u in ups && u.id in t && t[u.id].health.state == Health.Healthy;
      var i :| 0 <= i < |ups| && ups[i] == u;
      assert cs[i] in cs && cs[i].healthy;
    }
  }

  lemma RecoveredIsReady(p: Pool, t: Table, now: int, i: nat)
    requires AllCoupled(t) && Registered(p, t) && i < |p.upstreams|
    requires p.upstreams[i].id in t && t[p.upstreams[i].id].health.state != Health.Healthy
    ensures RecoveredAt(p.upstreams, t, now, i).healthy <==> Ready(t[p.upstreams[i].id], now)
  {
    assert Coupled(t[p.upstreams[i].id]);
    SweepKeepsReady(p.upstreams[..i], t, now, p.upstreams[i].id);
  }

  lemma RecoveredListed(p: Pool, t: Table, now: int)
    requires AllCoupled(t) && Registered(p, t) && !SomeHealthy(p, t)
    ensures (exists c :: c in Recovered(p.upstreams, t, now) && c.healthy) <==> SomeReady(p, t, now)
  {
    var ups, cs := p.upstreams, Recovered(p.upstreams, t, now);
    if c :| c in cs && c.healthy {
      var i :| 0 <= i < |cs| && cs[i] == c;
      assert ups[i] in ups;
      RecoveredIsReady(p, t, now, i);
    }
    if SomeReady(p, t, now) {
      var u :| u in ups && u.id in t && Ready(t[u.id], now);
      var i :| 0 <= i < |ups| && ups[i] == u;
      RecoveredIsReady(p, t, now, i);
      assert cs[i] in cs && cs[i].healthy;
    }
  }

  lemma SelectExactly(p: Pool, t: Table, now: int, draw: nat)
    requires AllCoupled(t) && Registered(p, t)
    ensures var r := SelectIn(p, t, now, draw);
      && (r.1.Some? <==> SomeReady(p, t, now))
      && (r.1.Some? && SomeHealthy(p, t) ==> t[r.1.value].health.state == Health.Healthy)
  {
    SelectsHealthy(New(p.strategy), Candidates(p.upstreams, t), draw);
    HealthyListed(p, t);
    if SomeHealthy(p, t) {
      HealthyChoice(p, t, draw);
    } else {
      SelectsHealthy(New(p.strategy), Recovered(p.upstreams, t, now), draw);
      RecoveredListed(p, t, now);
    }
  }

  /** From any coupled state an attempt calls someone exactly when some upstream is ready; a healthy one if there is
      one, and a ready one of the pool in any case. */
  lemma BeginExactly(p: Pool, t: Table, now: int, draw: nat)
    requires AllCoupled(t) && Registered(p, t)
    ensures var b := Begin(p, t, now, draw);
      && !b.Skipped?
      && (b.Called? <==> SomeReady(p, t, now))
      && (b.Called? ==> InPool(p, b.id) && Ready(t[b.id], now)
                        && (SomeHealthy(p, t) ==> t[b.id].health.state == Health.Healthy))
  {
    SelectExactly(p, t, now, draw);
    BeginMoves(p, t, now, draw);
    var b := Begin(p, t, now, draw);
    if b.Called? {
      assert OnlyHalfOpened(t[b.id], b.table[b.id], now);
    }
  }

  /** From any state at all, coupled or not, a call starts only once the breaker has been asked and is not open; one
      skipped because of its breaker is left cooling. */
  lemma NeverCallsOpen(p: Pool, t: Table, now: int, draw: nat)
    requires Registered(p, t)
    ensures var b := Begin(p, t, now, draw);
      && (b.Called? ==> b.table[b.id].breaker.state != Breaker.Open)
      && (b.Skipped? ==> b.id in b.table && b.table[b.id].health.state == Health.CoolingOff)
  {
  }

  lemma NobodyLeft(p: Pool, t: Table, now: int, draw: nat)
    requires AllCoupled(t) && Registered(p, t) && Begin(p, t, now, draw).NoneLeft?
    ensures !SomeReady(p, Begin(p, t, now, draw).table, now)
  {
    BeginExactly(p, t, now, draw);
    BeginMoves(p, t, now, draw);
    var t1 := Begin(p, t, now, draw).table;
    forall u | u in p.upstreams ensures u.id in t && t1[u.id] == t[u.id] {
      assert !Ready(t[u.id], now) && OnlyHalfOpened(t[u.id], t1[u.id], now);
    }
  }

  /** A success makes the upstream healthy and closes its breaker. A failure cools it, and opens the breaker then if
      it was half-open or the failures in a row have reached the threshold. */
  lemma CallEffects(t: Table, id: string, ok: bool, now: int)
    requires AllCoupled(t) && id in t
    ensures var e, f := t[id], End(t, id, ok, now)[id];
      && (forall x | x in t && x != id :: End(t, id, ok, now)[x] == t[x])
      && (ok ==> f.health.state == Health.Healthy && f.breaker.state == Breaker.Closed && f.breaker.failures == 0)
      && (!ok ==>
            && f.health.state == Health.CoolingOff && f.breaker.failures == e.breaker.failures + 1
            && (e.breaker.state == Breaker.HalfOpen || f.breaker.failures >= e.breaker.threshold ==>
                  f.breaker.state == Breaker.Open && f.breaker.openedAt == now)
            && (e.breaker.state == Breaker.Closed && f.breaker.failures < e.breaker.threshold ==>
                  f.breaker.state == Breaker.Closed))
  {
  }

  // ---------- What the caller is told ----------

  /** What one attempt tells: the answer of the upstream it called, under that upstream's id; that upstream's error;
      or that nobody is left. */
  lemma AttemptTells(p: Pool, t: Table, a: Attempt)
    requires AllCoupled(t) && Registered(p, t)
    ensures var r := TryOnce(p, t, a);
      && AllCoupled(r.table) && Registered(p, r.table)
      && (r.called == [] ==> r == Stop(r.table, [], Err(NoHealthyCandidate)) && !SomeReady(p, r.table, a.selectAt))
      && (r.called != [] ==>
            && |r.called| == 1
            && var id := r.called[0];
               match a.provider(id)
               case Answered(text) => r == Stop(r.table, [id], Ok(Response(text, id)))
               case Failed(error, fatal) =>
                 r == if fatal then Stop(r.table, [id], Err(ProviderError(error)))
                      else Again(r.table, [id], ProviderError(error)))
  {
    AttemptShape(p, t, a);
    var b := Begin(p, t, a.selectAt, a.draw);
    BeginExactly(p, t, a.selectAt, a.draw);
    if b.NoneLeft? {
      NobodyLeft(p, t, a.selectAt, a.draw);
    } else {
      CalledIsSettled(p, t, a, b.table, b.id);
    }
  }

  /** The outcome of the i-th call. */
  function OutcomeAt(d: Dispatched, env: seq<Attempt>, i: nat): Outcome
    requires i < |d.calls| <= |env|
  {
    env[i].provider(d.calls[i])
  }

  /** The result of a dispatch over n upstreams that had made k calls and met this error last. */
  ghost predicate Told(d: Dispatched, p: Pool, env: seq<Attempt>, k: nat, last: DispatchError) {
    var n, m := |p.upstreams|, |d.calls|;
    && k <= m <= n <= |env|
    && (forall i | k <= i < m - 1 :: OutcomeAt(d, env, i).Failed? && !OutcomeAt(d, env, i).fatal)
    && match d.result
       case Ok(r) => m > k && r.upstreamID == d.calls[m - 1] && OutcomeAt(d, env, m - 1) == Answered(r.text)
       case Err(e) =>
         if m > k && OutcomeAt(d, env, m - 1).Answered? then false
         else if m > k && (m == n || OutcomeAt(d, env, m - 1).fatal) then
           e == ProviderError(OutcomeAt(d, env, m - 1).error)
         else if m == n then e == last
         else e == NoHealthyCandidate && !SomeReady(p, d.table, env[m].selectAt)
  }

  lemma ToldEarlier(d: Dispatched, p: Pool, env: seq<Attempt>, k: nat, calls: seq<string>, id: string, error: string,
                    last: DispatchError)
    requires k == |calls| < |env| && env[k].provider(id) == Failed(error, false) && calls + [id] <= d.calls
    requires Told(d, p, env, k + 1, ProviderError(error))
    ensures Told(d, p, env, k, last)
  {
    assert d.calls[k] == (calls + [id])[k] == id;
    assert OutcomeAt(d, env, k) == Failed(error, false);
  }

  lemma ToldLast(d: Dispatched, p: Pool, env: seq<Attempt>, k: nat, calls: seq<string>, r: Tried, last: DispatchError)
    requires k == |calls| < |p.upstreams| <= |env| && r.Stop? && |r.called| <= 1
    requires d == Dispatched(r.table, calls + r.called, r.result)
    requires r.called == [] ==> r.result == Err(NoHealthyCandidate) && !SomeReady(p, r.table, env[k].selectAt)
    requires r.called != [] ==>
      match env[k].provider(r.called[0])
      case Answered(text) => r.result == Ok(Response(text, r.called[0]))
      case Failed(error, fatal) => fatal && r.result == Err(ProviderError(error))
    ensures Told(d, p, env, k, last)
  {
  }

  lemma {:induction false} ToldFrom(p: Pool, t: Table, env: seq<Attempt>, k: nat, calls: seq<string>,
                                    last: DispatchError)
    requires AllCoupled(t) && Registered(p, t) && k == |calls| <= |p.upstreams| <= |env|
    ensures Told(DispatchFrom(p, t, env, k, calls, last), p, env, k, last)
    ensures calls <= DispatchFrom(p, t, env, k, calls, last).calls
    decreases |p.upstreams| - k
  {
    if k < |p.upstreams| && TryOnce(p, t, env[k]).Again? {
      var r := TryOnce(p, t, env[k]);
      AttemptTells(p, t, env[k]);
      ToldFrom(p, r.table, env, k + 1, calls + r.called, r.last);
      DispatchStep(p, t, env, k, calls, last, r);
      ToldEarlier(DispatchFrom(p, t, env, k, calls, last), p, env, k, calls, r.called[0],
                  env[k].provider(r.called[0]).error, last);
    } else {
      ToldAtEnd(p, t, env, k, calls, last);
    }
  }

  lemma ToldAtEnd(p: Pool, t: Table, env: seq<Attempt>, k: nat, calls: seq<string>, last: DispatchError)
    requires AllCoupled(t) && Registered(p, t) && k == |calls| <= |p.upstreams| <= |env|
    requires k < |p.upstreams| ==> TryOnce(p, t, env[k]).Stop?
    ensures Told(DispatchFrom(p, t, env, k, calls, last), p, env, k, last)
    ensures calls <= DispatchFrom(p, t, env, k, calls, last).calls
  {
    if k < |p.upstreams| {
      var r := TryOnce(p, t, env[k]);
      AttemptTells(p, t, env[k]);
      DispatchStep(p, t, env, k, calls, last, r);
      ToldLast(DispatchFrom(p, t, env, k, calls, last), p, env, k, calls, r, last);
    }
  }

  /** A dispatch that succeeds returns the text its last call answered with, under the id of the upstream called. One
      that fails returns the error of its last call if that was final or the attempts ran out, and otherwise says that
      no upstream is ready, which is then so; all calls before the last one failed and were not final. */
  lemma DispatchTells(p: Pool, t: Table, env: seq<Attempt>)
    requires AllCoupled(t) && Registered(p, t) && |env| >= |p.upstreams|
    ensures Told(DispatchAll(p, t, env), p, env, 0, NothingAttempted)
  {
    ToldFrom(p, t, env, 0, [], NothingAttempted);
  }

  // ---------- What an observer of any run sees ----------

  /** The history of a run misses nothing: an attempt adds the start of a call exactly when some upstream is ready, and
      the return of a call adds its end. */
  lemma StepObserved(m: Machine, e: RouterRuns.Event)
    requires Enabled(m, e) && AllCoupled(m.table)
    ensures var after := Step(m, e).history;
      match e
      case BeginAttempt(p, now, draw) =>
        if SomeReady(p, m.table, now) then
          && |after| == |m.history| + 1 && m.history <= after
          && var seen := after[|m.history|];
             seen.Started? && seen.at == now && InPool(p, seen.id) && seen.id in m.table && Ready(m.table[seen.id], now)
        else after == m.history
      case EndCall(id, ok, now) => after == m.history + [Finished(id, ok, now)]
  {
    if e.BeginAttempt? {
      BeginExactly(e.pool, m.table, e.now, e.draw);
    }
  }
}
