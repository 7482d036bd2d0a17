/** What one Dispatch does when nothing else moves the router while it runs: which upstreams it calls, in
    what order, and when it must succeed. */
module Failover {
  import Health
  import opened Strategy
  import opened Routing

  ghost predicate DistinctIds(p: Pool) {
    forall i, j | 0 <= i < j < |p.upstreams| :: p.upstreams[i].id != p.upstreams[j].id
  }

  ghost predicate Distinct(s: seq<string>) {
    forall i, j | 0 <= i < j < |s| :: s[i] != s[j]
  }

  function HealthyIds(p: Pool, t: Table): set<string> {
    set u | u in p.upstreams && u.id in t && t[u.id].health.state == Health.Healthy :: u.id
  }

  /** None of the calls a dispatch made came back with an error that must not be retried. */
  ghost predicate NoFatal(calls: seq<string>, env: seq<Attempt>) {
    && |calls| <= |env|
    && forall i | 0 <= i < |calls| :: env[i].provider(calls[i]).Failed? ==> !env[i].provider(calls[i]).fatal
  }

  // ---------- Counting ----------

  function SetOf(s: seq<string>): set<string> {
    set x | x in s
  }

  lemma {:induction false} IdsAtMost(ups: seq<Upstream>)
    ensures |Ids(ups)| <= |ups|
  {
    if ups == [] {
      assert Ids(ups) == {};
    } else {
      var last := |ups| - 1;
      IdsAtMost(ups[..last]);
      IdsStep(ups, last, {});
      assert ups[..last + 1] == ups;
    }
  }

  lemma {:induction false} DistinctCount(s: seq<string>, all: set<string>)
    requires Distinct(s) && forall x | x in s :: x in all
    ensures |s| <= |all|
    ensures |s| == |all| ==> forall x | x in all :: x in s
    ensures |s| < |all| ==> exists x :: x in all && x !in s
  {
    if s == [] {
      if all != {} {
        var x :| x in all;
      }
    } else {
      var last := |s| - 1;
      var x := s[last];
      forall y | y in s[..last] ensures y in all - {x} {
        var i :| 0 <= i < last && s[i] == y;
      }
      DistinctCount(s[..last], all - {x});
      assert s == s[..last] + [x];
    }
  }

  // ---------- The calls of a dispatch ----------

  /** One attempt from a coupled table: at most one call, which failed if the loop goes on. */
  lemma AttemptShape(p: Pool, t: Table, a: Attempt)
    requires AllCoupled(t) && Registered(p, t)
    ensures var r := TryOnce(p, t, a);
            && AllCoupled(r.table) && |r.called| <= 1
            && (r.Again? ==> |r.called| == 1 && a.provider(r.called[0]).Failed? && !a.provider(r.called[0]).fatal)
            && (r.Stop? && |r.called| == 1 ==> (r.result.Ok? <==> a.provider(r.called[0]).Answered?))
            && (r.Stop? && |r.called| == 0 ==> r.result.Err?)
  {
    BeginKeepsCoupling(p, t, a.selectAt, a.draw);
    BeginMoves(p, t, a.selectAt, a.draw);
    var begun := Begin(p, t, a.selectAt, a.draw);
    if begun.Called? {
      SettleShape(begun.table, begun.id, a.provider(begun.id), a.doneAt);
    }
  }

  lemma SettleShape(t: Table, id: string, outcome: Outcome, now: int)
    requires AllCoupled(t) && id in t
    ensures var r := Settle(t, id, outcome, now);
            && AllCoupled(r.table) && r.called == [id]
            && (if r.Again? then outcome.Failed? && !outcome.fatal else r.result.Ok? <==> outcome.Answered?)
  {
    EndKeepsCoupling(t, id, outcome.Answered?, now);
  }

  /** The calls of a dispatch that had made k of them: the i-th attempt made the i-th call, every call but
      the last failed, and the result is the last one's. */
  ghost predicate Recorded(d: Dispatched, env: seq<Attempt>, k: nat, calls: seq<string>) {
    && k == |calls| && calls <= d.calls && |d.calls| <= |env|
    && (forall i | k <= i < |d.calls| - 1 :: env[i].provider(d.calls[i]).Failed?)
    && (|d.calls| == k ==> d.result.Err?)
    && (|d.calls| > k ==> (d.result.Ok? <==> env[|d.calls| - 1].provider(d.calls[|d.calls| - 1]).Answered?))
  }

  lemma {:induction false} CallsRecord(p: Pool, t: Table, env: seq<Attempt>, k: nat, calls: seq<string>,
      last: DispatchError)
    requires AllCoupled(t) && Registered(p, t) && k == |calls| <= |p.upstreams| <= |env|
    ensures Recorded(DispatchFrom(p, t, env, k, calls, last), env, k, calls)
    decreases |p.upstreams| - k
  {
    if k < |p.upstreams| && TryOnce(p, t, env[k]).Again? {
      var r := TryOnce(p, t, env[k]);
      AttemptShape(p, t, env[k]);
      CallsRecord(p, r.table, env, k + 1, calls + r.called, r.last);
      DispatchStep(p, t, env, k, calls, last, r);
      RecordedEarlier(DispatchFrom(p, t, env, k, calls, last), env, k, calls, r.called);
    } else {
      RecordedLast(p, t, env, k, calls, last);
    }
  }

  lemma RecordedEarlier(d: Dispatched, env: seq<Attempt>, k: nat, calls: seq<string>, called: seq<string>)
    requires k == |calls| < |env| && |called| == 1 && env[k].provider(called[0]).Failed?
    requires Recorded(d, env, k + 1, calls + called)
    ensures Recorded(d, env, k, calls)
  {
    assert d.calls[k] == (calls + called)[k];
  }

  lemma RecordedLast(p: Pool, t: Table, env: seq<Attempt>, k: nat, calls: seq<string>, last: DispatchError)
    requires AllCoupled(t) && Registered(p, t) && k == |calls| <= |p.upstreams| <= |env|
    requires k < |p.upstreams| ==> TryOnce(p, t, env[k]).Stop?
    ensures Recorded(DispatchFrom(p, t, env, k, calls, last), env, k, calls)
  {
    if k < |p.upstreams| {
      var r := TryOnce(p, t, env[k]);
      AttemptShape(p, t, env[k]);
      DispatchStep(p, t, env, k, calls, last, r);
      LastCallRecorded(DispatchFrom(p, t, env, k, calls, last), env, k, calls, r);
    }
  }

  lemma LastCallRecorded(d: Dispatched, env: seq<Attempt>, k: nat, calls: seq<string>, r: Tried)
    requires k == |calls| < |env| && r.Stop? && |r.called| <= 1
    requires if r.called == [] then r.result.Err?
             else r.result.Ok? <==> env[k].provider(r.called[0]).Answered?
    requires d.calls == calls + r.called && d.result == r.result
    ensures Recorded(d, env, k, calls)
  {
  }

  /** While a healthy upstream is left, an attempt calls one, and leaves the others as they are. */
  lemma HealthyAttempt(p: Pool, t: Table, a: Attempt)
    requires AllCoupled(t) && Registered(p, t)
    requires HealthyIds(p, t) != {}
    ensures var b := Begin(p, t, a.selectAt, a.draw);
            b.Called? && b.id in HealthyIds(p, t) && b.table == t
  {
    var cs := Candidates(p.upstreams, t);
    var id :| id in HealthyIds(p, t);
    var u :| u in p.upstreams && u.id == id && t[u.id].health.state == Health.Healthy;
    var i :| 0 <= i < |p.upstreams| && p.upstreams[i] == u;
    assert cs[i] in cs && cs[i].healthy;
    SelectsHealthy(New(p.strategy), cs, a.draw);
    HealthyChoice(p, t, a.draw);
    var chosen := Select(New(p.strategy), cs, a.draw).value.id;
    assert Coupled(t[chosen]);
    assert t[chosen := t[chosen].(breaker := t[chosen].breaker.AfterAllow(a.selectAt))] == t;
  }

  /** One failed attempt takes one upstream off the healthy list. */
  lemma HealthyAttemptFails(p: Pool, t: Table, a: Attempt)
    requires AllCoupled(t) && Registered(p, t) && HealthyIds(p, t) != {}
    ensures var r := TryOnce(p, t, a);
            && |r.called| == 1 && r.called[0] in HealthyIds(p, t)
            && (r.Again? ==> AllCoupled(r.table) && HealthyIds(p, r.table) == HealthyIds(p, t) - {r.called[0]})
            && (r.Stop? && r.result.Err? ==> a.provider(r.called[0]).Failed? && a.provider(r.called[0]).fatal)
  {
    HealthyAttempt(p, t, a);
    AttemptShape(p, t, a);
  }

  lemma SomeLeft(calls: seq<string>, all: set<string>)
    requires Distinct(calls) && (forall c | c in calls :: c in all) && |calls| < |all|
    ensures all - SetOf(calls) != {}
  {
    DistinctCount(calls, all);
    var x :| x in all && x !in calls;
    assert x in all - SetOf(calls);
  }

  ghost predicate HealthyPrefix(calls: seq<string>, all: set<string>) {
    && (forall i | 0 <= i < |calls| && i < |all| :: calls[i] in all)
    && (forall i, j | 0 <= i < j < |calls| && j < |all| :: calls[i] != calls[j])
  }

  lemma DistinctNext(calls: seq<string>, x: string, all: set<string>)
    requires Distinct(calls) && (forall c | c in calls :: c in all)
    requires x in all - SetOf(calls)
    ensures Distinct(calls + [x]) && (forall c | c in calls + [x] :: c in all)
    ensures (all - SetOf(calls)) - {x} == all - SetOf(calls + [x])
  {
    var left := SetOf(calls);
    var more := SetOf(calls + [x]);
    assert x !in left;
    assert forall i | 0 <= i < |calls| :: calls[i] in left;
    assert more == left + {x};
  }

  lemma DistinctIsPrefix(calls: seq<string>, whole: seq<string>, all: set<string>)
    requires Distinct(calls) && (forall c | c in calls :: c in all)
    requires |calls| <= |whole| && forall i | 0 <= i < |calls| :: whole[i] == calls[i]
    requires |calls| == |all| || |calls| == |whole|
    ensures HealthyPrefix(whole, all)
  {
    forall i | 0 <= i < |whole| && i < |all| ensures whole[i] in all {
      assert calls[i] in calls;
    }
  }

  /** The dispatch after some calls, all of them to distinct upstreams healthy at entry. */
  ghost predicate Underway(p: Pool, t: Table, calls: seq<string>, all: set<string>) {
    && AllCoupled(t) && Registered(p, t)
    && Distinct(calls) && (forall c | c in calls :: c in all)
    && HealthyIds(p, t) == all - SetOf(calls)
  }

  lemma OneMore(p: Pool, t: Table, a: Attempt, calls: seq<string>, all: set<string>)
    requires Underway(p, t, calls, all) && |calls| < |all|
    ensures var r := TryOnce(p, t, a);
            && |r.called| == 1
            && Distinct(calls + r.called) && (forall c | c in calls + r.called :: c in all)
            && (r.Again? ==> Underway(p, r.table, calls + r.called, all))
            && (r.Stop? && r.result.Err? ==> a.provider(r.called[0]).Failed? && a.provider(r.called[0]).fatal)
  {
    SomeLeft(calls, all);
    HealthyAttemptFails(p, t, a);
    var r := TryOnce(p, t, a);
    assert r.called == [r.called[0]];
    DistinctNext(calls, r.called[0], all);
  }

  /** The attempts that begin while healthy upstreams are left. */
  lemma {:induction false} HealthyFirst(
    p: Pool, t: Table, env: seq<Attempt>, k: nat, calls: seq<string>, last: DispatchError, all: set<string>)
    requires Underway(p, t, calls, all) && k == |calls| <= |all| && |all| <= |p.upstreams| <= |env|
    requires NoFatal(DispatchFrom(p, t, env, k, calls, last).calls, env)
    ensures var d := DispatchFrom(p, t, env, k, calls, last);
            HealthyPrefix(d.calls, all) && (d.result.Err? ==> |d.calls| >= |all|)
    decreases |all| - k
  {
    if k == |all| {
      AllCalled(p, t, env, k, calls, last, all);
    } else {
      OneMore(p, t, env[k], calls, all);
      var r := TryOnce(p, t, env[k]);
      if r.Again? {
        HealthyFirst(p, r.table, env, k + 1, calls + r.called, r.last, all);
      } else {
        LastCall(p, t, env, k, calls, last, all);
      }
    }
  }

  lemma AllCalled(p: Pool, t: Table, env: seq<Attempt>, k: nat, calls: seq<string>, last: DispatchError,
      all: set<string>)
    requires Underway(p, t, calls, all) && k == |calls| == |all| <= |p.upstreams| <= |env|
    ensures var d := DispatchFrom(p, t, env, k, calls, last);
            HealthyPrefix(d.calls, all) && |d.calls| >= |all|
  {
    CallsRecord(p, t, env, k, calls, last);
    DistinctIsPrefix(calls, DispatchFrom(p, t, env, k, calls, last).calls, all);
  }

  lemma LastCall(p: Pool, t: Table, env: seq<Attempt>, k: nat, calls: seq<string>, last: DispatchError,
      all: set<string>)
    requires Underway(p, t, calls, all) && k == |calls| < |all| && |all| <= |p.upstreams| <= |env|
    requires NoFatal(DispatchFrom(p, t, env, k, calls, last).calls, env) && TryOnce(p, t, env[k]).Stop?
    ensures var d := DispatchFrom(p, t, env, k, calls, last);
            HealthyPrefix(d.calls, all) && d.result.Ok?
  {
    OneMore(p, t, env[k], calls, all);
    var r := TryOnce(p, t, env[k]);
    var next := calls + r.called;
    DistinctIsPrefix(next, next, all);
    assert next[k] == r.called[0];
  }

  lemma CardinalityMonotone(a: set<string>, b: set<string>)
    requires a <= b
    ensures |a| <= |b|
  {
    assert b == a + (b - a);
  }

  /** Every upstream healthy at entry is called at most once before any other upstream. */
  lemma HealthyCalledFirst(p: Pool, t: Table, env: seq<Attempt>)
    requires AllCoupled(t) && Registered(p, t) && |env| >= |p.upstreams|
    requires NoFatal(DispatchAll(p, t, env).calls, env)
    ensures var d, healthy := DispatchAll(p, t, env), HealthyIds(p, t);
            HealthyPrefix(d.calls, healthy) && (d.result.Err? ==> |d.calls| >= |healthy|)
  {
    var healthy := HealthyIds(p, t);
    IdsAtMost(p.upstreams);
    CardinalityMonotone(healthy, Ids(p.upstreams));
    assert healthy - SetOf([]) == healthy;
    HealthyFirst(p, t, env, 0, [], NothingAttempted, healthy);
  }

  lemma PrefixCovers(calls: seq<string>, all: set<string>, id: string) returns (i: nat)
    requires HealthyPrefix(calls, all) && |calls| >= |all| && id in all
    ensures i < |all| && calls[i] == id
  {
    var first := calls[..|all|];
    forall c | c in first ensures c in all {
      var j :| 0 <= j < |first| && first[j] == c;
    }
    DistinctCount(first, all);
    i :| 0 <= i < |first| && first[i] == id;
  }

  /** When a dispatch fails, each upstream healthy at entry was called exactly once before the others, and failed. */
  lemma FailureMeansAllFailed(p: Pool, t: Table, env: seq<Attempt>, id: string) returns (i: nat)
    requires AllCoupled(t) && Registered(p, t) && |env| >= |p.upstreams|
    requires NoFatal(DispatchAll(p, t, env).calls, env)
    requires DispatchAll(p, t, env).result.Err? && id in HealthyIds(p, t)
    ensures var d := DispatchAll(p, t, env);
            i < |HealthyIds(p, t)| && i < |d.calls| <= |env| && d.calls[i] == id && env[i] in env
              && env[i].provider(id).Failed?
  {
    var calls, healthy := DispatchAll(p, t, env).calls, HealthyIds(p, t);
    HealthyCalledFirst(p, t, env);
    CallsRecord(p, t, env, 0, [], NothingAttempted);
    i := PrefixCovers(calls, healthy, id);
  }

  /** So a dispatch succeeds when some upstream healthy at entry answers whenever it is called. */
  lemma FailoverComplete(p: Pool, t: Table, env: seq<Attempt>, id: string)
    requires AllCoupled(t) && Registered(p, t) && |env| >= |p.upstreams|
    requires NoFatal(DispatchAll(p, t, env).calls, env)
    requires id in HealthyIds(p, t) && forall a | a in env :: a.provider(id).Answered?
    ensures DispatchAll(p, t, env).result.Ok?
  {
    if DispatchAll(p, t, env).result.Err? {
      var _ := FailureMeansAllFailed(p, t, env, id);
    }
  }

  // ---------- The order under the priority strategy ----------

  /** i comes before j when upstreams are sorted by priority and ties keep pool order. */
  predicate Before(ups: seq<Upstream>, i: nat, j: nat)
    requires i < |ups| && j < |ups|
  {
    ups[i].priority < ups[j].priority || (ups[i].priority == ups[j].priority && i < j)
  }

  /** The list holds the positions of the first n upstreams, sorted stably by priority. */
  ghost predicate StableOrder(ups: seq<Upstream>, n: nat, order: seq<nat>) {
    && n <= |ups| && |order| == n && Ordered(ups, order, n)
    && (forall j: nat | j < n :: j in order)
  }

  /** Insertion from the back: position n goes after everything its priority does not undercut. */
  function Inserted(ups: seq<Upstream>, order: seq<nat>, n: nat): (r: seq<nat>)
    requires n < |ups| && forall a | 0 <= a < |order| :: order[a] < |ups|
    ensures |r| == |order| + 1
  {
    if order == [] then [n]
    else
      var last := |order| - 1;
      if ups[order[last]].priority <= ups[n].priority then order + [n]
      else Inserted(ups, order[..last], n) + [order[last]]
  }

  lemma {:induction false} InsertedContains(ups: seq<Upstream>, order: seq<nat>, n: nat, x: nat)
    requires n < |ups| && forall a | 0 <= a < |order| :: order[a] < |ups|
    ensures x in Inserted(ups, order, n) <==> x == n || x in order
  {
    if order != [] {
      var last := |order| - 1;
      assert order == order[..last] + [order[last]];
      InsertedContains(ups, order[..last], n, x);
    }
  }

  ghost predicate Ordered(ups: seq<Upstream>, order: seq<nat>, n: nat)
    requires n <= |ups|
  {
    && (forall a | 0 <= a < |order| :: order[a] < n)
    && (forall a, b | 0 <= a < b < |order| :: Before(ups, order[a], order[b]))
  }

  lemma OrderedMore(ups: seq<Upstream>, order: seq<nat>, n: nat, m: nat, x: nat)
    requires n <= m <= |ups| && Ordered(ups, order, n) && x < m
    requires forall a | 0 <= a < |order| :: Before(ups, order[a], x)
    ensures Ordered(ups, order + [x], m)
  {
  }

  lemma EndsUnder(ups: seq<Upstream>, order: seq<nat>, n: nat)
    requires n < |ups| && Ordered(ups, order, n) && order != []
    requires ups[order[|order| - 1]].priority <= ups[n].priority
    ensures forall a | 0 <= a < |order| :: Before(ups, order[a], n)
  {
    var last := |order| - 1;
    forall a | 0 <= a < |order| ensures Before(ups, order[a], n) {
      assert a < last ==> Before(ups, order[a], order[last]);
    }
  }

  lemma InsertedUnder(ups: seq<Upstream>, order: seq<nat>, n: nat, x: nat, r: seq<nat>)
    requires n < |ups| && Ordered(ups, order, n) && x < |ups| && r == Inserted(ups, order, n)
    requires Before(ups, n, x) && forall a | 0 <= a < |order| :: Before(ups, order[a], x)
    ensures forall a | 0 <= a < |r| :: r[a] < |ups| && Before(ups, r[a], x)
  {
    forall a | 0 <= a < |r| ensures r[a] < |ups| && Before(ups, r[a], x) {
      InsertedContains(ups, order, n, r[a]);
    }
  }

  lemma {:induction false} InsertedSorts(ups: seq<Upstream>, order: seq<nat>, n: nat)
    requires n < |ups| && Ordered(ups, order, n)
    ensures Ordered(ups, Inserted(ups, order, n), n + 1)
  {
    if order == [] {
      return;
    }
    var init, x := order[..|order| - 1], order[|order| - 1];
    if ups[x].priority <= ups[n].priority {
      EndsUnder(ups, order, n);
      OrderedMore(ups, order, n, n + 1, n);
      return;
    }
    InsertedSorts(ups, init, n);
    var r := Inserted(ups, init, n);
    InsertedUnder(ups, init, n, x, r);
    OrderedMore(ups, r, n + 1, n + 1, x);
  }

  lemma InsertedIsOrder(ups: seq<Upstream>, before: seq<nat>, n: nat)
    requires n < |ups| && StableOrder(ups, n, before)
    ensures StableOrder(ups, n + 1, Inserted(ups, before, n))
  {
    InsertedSorts(ups, before, n);
    forall j: nat | j < n + 1 ensures j in Inserted(ups, before, n) {
      InsertedContains(ups, before, n, j);
    }
  }

  function Sorted(ups: seq<Upstream>, n: nat): (order: seq<nat>)
    requires n <= |ups|
    ensures StableOrder(ups, n, order)
  {
    if n == 0 then []
    else
      InsertedIsOrder(ups, Sorted(ups, n - 1), n - 1);
      Inserted(ups, Sorted(ups, n - 1), n - 1)
  }

  /** The healthy upstreams are exactly those from place k of the order on. */
  ghost predicate HealthyFrom(p: Pool, t: Table, order: seq<nat>, k: nat) {
    && StableOrder(p.upstreams, |p.upstreams|, order) && Registered(p, t)
    && forall a | 0 <= a < |order| :: p.upstreams[order[a]].id in t
         && (t[p.upstreams[order[a]].id].health.state == Health.Healthy <==> a >= k)
  }

  lemma NextInOrder(p: Pool, t: Table, a: Attempt, order: seq<nat>, k: nat)
    requires AllCoupled(t) && HealthyFrom(p, t, order, k) && k < |p.upstreams| && New(p.strategy) == Priority
    ensures var b := Begin(p, t, a.selectAt, a.draw);
            b.Called? && b.id == p.upstreams[order[k]].id && b.table == t
  {
    var ups, cs := p.upstreams, Candidates(p.upstreams, t);
    var next := order[k];
    assert forall b | k < b < |order| :: Before(ups, next, order[b]);
    assert Coupled(t[ups[next].id]);
    assert cs[next].healthy && cs[next] in cs;
    HealthyKeeps(cs, cs[next]);
    var j := FirstLeastHealthy(cs, ByPriority);
    assert ups[j] in ups;
    assert j in order;
    var place :| 0 <= place < |order| && order[place] == j;
    assert Coupled(t[ups[j].id]);
    assert j == next;
    assert t[ups[j].id := t[ups[j].id].(breaker := t[ups[j].id].breaker.AfterAllow(a.selectAt))] == t;
  }

  lemma CooledInOrder(p: Pool, t: Table, order: seq<nat>, k: nat, now: int)
    requires DistinctIds(p) && AllCoupled(t) && HealthyFrom(p, t, order, k) && k < |p.upstreams|
    ensures var id := p.upstreams[order[k]].id;
            AllCoupled(End(t, id, false, now)) && HealthyFrom(p, End(t, id, false, now), order, k + 1)
  {
    var id := p.upstreams[order[k]].id;
    EndKeepsCoupling(t, id, false, now);
    forall a | 0 <= a < |order| && a != k ensures p.upstreams[order[a]].id != id {
      assert a < k ==> Before(p.upstreams, order[a], order[k]);
      assert a > k ==> Before(p.upstreams, order[k], order[a]);
    }
  }

  ghost predicate CallsFollow(p: Pool, order: seq<nat>, calls: seq<string>) {
    && |calls| <= |order| == |p.upstreams|
    && (forall a | 0 <= a < |order| :: order[a] < |p.upstreams|)
    && forall i | 0 <= i < |calls| :: calls[i] == p.upstreams[order[i]].id
  }

  lemma {:induction false} PriorityOrderFrom(
    p: Pool, t: Table, env: seq<Attempt>, k: nat, calls: seq<string>, last: DispatchError, order: seq<nat>)
    requires DistinctIds(p) && AllCoupled(t) && HealthyFrom(p, t, order, k) && New(p.strategy) == Priority
    requires k == |calls| <= |p.upstreams| <= |env| && CallsFollow(p, order, calls)
    requires NoFatal(DispatchFrom(p, t, env, k, calls, last).calls, env)
    ensures var d := DispatchFrom(p, t, env, k, calls, last);
            CallsFollow(p, order, d.calls) && (d.result.Err? ==> |d.calls| == |p.upstreams|)
    decreases |p.upstreams| - k
  {
    if k == |p.upstreams| {
      return;
    }
    var id := p.upstreams[order[k]].id;
    var r := TryOnce(p, t, env[k]);
    AttemptInOrder(p, t, env[k], order, k);
    CallsFollowNext(p, order, calls);
    DispatchStep(p, t, env, k, calls, last, r);
    if r.Stop? {
      StopIsAnswer(p, t, env, k, calls, last, order);
      return;
    }
    PriorityOrderFrom(p, r.table, env, k + 1, calls + [id], r.last, order);
  }

  /** An attempt calls the next upstream in the order, and after a failure the healthy ones are those behind it. */
  lemma AttemptInOrder(p: Pool, t: Table, a: Attempt, order: seq<nat>, k: nat)
    requires DistinctIds(p) && AllCoupled(t) && HealthyFrom(p, t, order, k) && k < |p.upstreams|
    requires New(p.strategy) == Priority
    ensures var r := TryOnce(p, t, a);
            && r.called == [p.upstreams[order[k]].id]
            && (r.Again? ==> AllCoupled(r.table) && HealthyFrom(p, r.table, order, k + 1))
            && (r.Stop? && r.result.Err? ==> a.provider(r.called[0]).Failed? && a.provider(r.called[0]).fatal)
  {
    var id := p.upstreams[order[k]].id;
    NextInOrder(p, t, a, order, k);
    CalledIsSettled(p, t, a, t, id);
    SettledInOrder(p, t, order, k, a.provider(id), a.doneAt);
  }

  lemma CalledIsSettled(p: Pool, t: Table, a: Attempt, t1: Table, id: string)
    requires Registered(p, t) && Begin(p, t, a.selectAt, a.draw) == Called(t1, id)
    ensures id in t1 && TryOnce(p, t, a) == Settle(t1, id, a.provider(id), a.doneAt)
  {
  }

  lemma SettledInOrder(p: Pool, t: Table, order: seq<nat>, k: nat, outcome: Outcome, now: int)
    requires DistinctIds(p) && AllCoupled(t) && HealthyFrom(p, t, order, k) && k < |p.upstreams|
    ensures var id := p.upstreams[order[k]].id;
            var r := Settle(t, id, outcome, now);
            && r.called == [id]
            && (r.Again? ==> AllCoupled(r.table) && HealthyFrom(p, r.table, order, k + 1))
            && (r.Stop? && r.result.Err? ==> outcome.Failed? && outcome.fatal)
  {
    CooledInOrder(p, t, order, k, now);
  }

  lemma StopIsAnswer(p: Pool, t: Table, env: seq<Attempt>, k: nat, calls: seq<string>, last: DispatchError,
                     order: seq<nat>)
    requires DistinctIds(p) && AllCoupled(t) && HealthyFrom(p, t, order, k) && New(p.strategy) == Priority
    requires k == |calls| < |p.upstreams| <= |env| && TryOnce(p, t, env[k]).Stop?
    requires NoFatal(DispatchFrom(p, t, env, k, calls, last).calls, env)
    ensures DispatchFrom(p, t, env, k, calls, last).result.Ok?
  {
    AttemptInOrder(p, t, env[k], order, k);
    assert DispatchFrom(p, t, env, k, calls, last).calls[k] == TryOnce(p, t, env[k]).called[0];
  }

  lemma CallsFollowNext(p: Pool, order: seq<nat>, calls: seq<string>)
    requires CallsFollow(p, order, calls) && |calls| < |order|
    ensures CallsFollow(p, order, calls + [p.upstreams[order[|calls|]].id])
  {
  }

  /** From an all-healthy state the priority strategy calls a prefix of the pool stably sorted by priority,
      and the whole pool, each upstream once, when all of them fail. */
  lemma PriorityOrder(p: Pool, t: Table, env: seq<Attempt>)
    requires DistinctIds(p) && AllCoupled(t) && Registered(p, t) && |env| >= |p.upstreams|
    requires New(p.strategy) == Priority && HealthyIds(p, t) == Ids(p.upstreams)
    requires NoFatal(DispatchAll(p, t, env).calls, env)
    ensures var d := DispatchAll(p, t, env);
            && CallsFollow(p, Sorted(p.upstreams, |p.upstreams|), d.calls)
            && (d.result.Err? ==> |d.calls| == |p.upstreams|)
  {
    var order := Sorted(p.upstreams, |p.upstreams|);
    forall u | u in p.upstreams ensures t[u.id].health.state == Health.Healthy {
      assert u.id in Ids(p.upstreams);
    }
    forall a | 0 <= a < |order| ensures p.upstreams[order[a]] in p.upstreams {}
    PriorityOrderFrom(p, t, env, 0, [], NothingAttempted, order);
  }
}
