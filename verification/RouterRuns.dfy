/** Runs of one router under any number of concurrent dispatches. The router has no lock, so each stretch
    between provider calls is taken as one atomic step; the steps of different dispatches interleave freely
    and the clock never goes back. What is proved speaks of the history of calls, not of the breakers. */
module RouterRuns {
  import Breaker
  import opened Routing

  /** What an observer outside the router sees. */
  datatype Observation = Started(id: string, at: int) | Finished(id: string, ok: bool, at: int)

  datatype Machine = Machine(table: Table, history: seq<Observation>, now: int)

  /** A dispatch begins an attempt on its pool, or a call in flight returns. */
  datatype Event = BeginAttempt(pool: Pool, now: int, draw: nat) | EndCall(id: string, ok: bool, now: int)

  // ---------- Reading the history ----------

  function Starts(h: seq<Observation>, id: string): nat {
    if h == [] then 0
    else Starts(h[..|h| - 1], id) + (if h[|h| - 1].Started? && h[|h| - 1].id == id then 1 else 0)
  }

  function Finishes(h: seq<Observation>, id: string): nat {
    if h == [] then 0
    else Finishes(h[..|h| - 1], id) + (if h[|h| - 1].Finished? && h[|h| - 1].id == id then 1 else 0)
  }

  /** Failed calls since the last one that succeeded. */
  function Streak(h: seq<Observation>, id: string): nat {
    if h == [] then 0
    else
      var last := h[|h| - 1];
      if last.Finished? && last.id == id then (if last.ok then 0 else Streak(h[..|h| - 1], id) + 1)
      else Streak(h[..|h| - 1], id)
  }

  /** When the last failed call returned. */
  function LastFailure(h: seq<Observation>, id: string): int
    requires Streak(h, id) > 0
  {
    var last := h[|h| - 1];
    if last.Finished? && last.id == id then last.at else LastFailure(h[..|h| - 1], id)
  }

  // ---------- Steps ----------

  ghost predicate Enabled(m: Machine, e: Event) {
    && m.now <= e.now
    && match e
       case BeginAttempt(p, _, _) => Registered(p, m.table)
       case EndCall(id, _, _) => id in m.table && Finishes(m.history, id) < Starts(m.history, id)
  }

  function Step(m: Machine, e: Event): Machine
    requires Enabled(m, e)
  {
    match e
    case BeginAttempt(p, now, draw) =>
      var begun := Begin(p, m.table, now, draw);
      Machine(begun.table, if begun.Called? then m.history + [Started(begun.id, now)] else m.history, now)
    case EndCall(id, ok, now) => Machine(End(m.table, id, ok, now), m.history + [Finished(id, ok, now)], now)
  }

  ghost predicate ValidRun(m: Machine, events: seq<Event>)
    decreases |events|
  {
    events == [] || (Enabled(m, events[0]) && ValidRun(Step(m, events[0]), events[1..]))
  }

  function After(m: Machine, events: seq<Event>): Machine
    requires ValidRun(m, events)
    decreases |events|
  {
    if events == [] then m else After(Step(m, events[0]), events[1..])
  }

  /** The state New leaves. */
  ghost predicate Initial(m: Machine) {
    m.history == [] && forall id | id in m.table :: m.table[id] == NEW_ENTRY
  }

  // ---------- The invariant ----------

  /** One upstream's machines agree with each other and with what the history says about it. */
  ghost predicate Tracks(e: Entry, h: seq<Observation>, id: string, now: int) {
    && Coupled(e)
    && e.breaker.threshold == BREAKER_THRESHOLD && e.breaker.recoveryTimeout == BREAKER_RECOVERY
    && e.breaker.failures == Streak(h, id)
    && (e.breaker.state != Breaker.Closed ==> e.breaker.openedAt == LastFailure(h, id))
    && (e.breaker.state == Breaker.HalfOpen ==> now - e.breaker.openedAt >= BREAKER_RECOVERY)
  }

  /** A call started while the streak had reached the threshold started a full timeout after the last failure. */
  ghost predicate StartsInTime(h: seq<Observation>) {
    forall i | 0 <= i < |h| && h[i].Started? && Streak(h[..i], h[i].id) >= BREAKER_THRESHOLD ::
      h[i].at - LastFailure(h[..i], h[i].id) >= BREAKER_RECOVERY
  }

  ghost predicate Inv(m: Machine) {
    && (forall id | id in m.table :: Tracks(m.table[id], m.history, id, m.now))
    && (forall o | o in m.history :: o.id in m.table)
    && StartsInTime(m.history)
  }

  lemma InitialInv(m: Machine)
    requires Initial(m)
    ensures Inv(m)
  {
  }

  lemma StreakOfOther(h: seq<Observation>, o: Observation, id: string)
    ensures Streak(h + [o], id) ==
            if o.Finished? && o.id == id then (if o.ok then 0 else Streak(h, id) + 1) else Streak(h, id)
    ensures Streak(h + [o], id) > 0 ==>
              LastFailure(h + [o], id) == if o.Finished? && o.id == id then o.at else LastFailure(h, id)
  {
    assert (h + [o])[..|h|] == h;
  }

  lemma StartsInTimeGrows(h: seq<Observation>, o: Observation)
    requires StartsInTime(h)
    requires o.Started? && Streak(h, o.id) >= BREAKER_THRESHOLD ==> o.at - LastFailure(h, o.id) >= BREAKER_RECOVERY
    ensures StartsInTime(h + [o])
  {
    var h1 := h + [o];
    forall i | 0 <= i < |h1| && h1[i].Started? && Streak(h1[..i], h1[i].id) >= BREAKER_THRESHOLD
      ensures h1[i].at - LastFailure(h1[..i], h1[i].id) >= BREAKER_RECOVERY
    {
      assert h1[..i] == h[..i];
      assert h[..|h|] == h;
    }
  }

  lemma BeginInv(m: Machine, e: Event)
    requires Inv(m) && Enabled(m, e) && e.BeginAttempt?
    ensures Inv(Step(m, e))
  {
    BeginMoves(e.pool, m.table, e.now, e.draw);
    var begun := Begin(e.pool, m.table, e.now, e.draw);
    forall id | id in m.table ensures Tracks(begun.table[id], m.history, id, e.now) {
      TracksHalfOpened(m.table[id], begun.table[id], m.history, id, m.now, e.now);
    }
    if begun.Called? {
      var o := Started(begun.id, e.now);
      forall id { StreakOfOther(m.history, o, id); }
      StartsInTimeGrows(m.history, o);
    }
  }

  lemma TracksHalfOpened(e: Entry, f: Entry, h: seq<Observation>, id: string, before: int, now: int)
    requires Tracks(e, h, id, before) && OnlyHalfOpened(e, f, now) && before <= now
    ensures Tracks(f, h, id, now)
  {
  }

  lemma EndInv(m: Machine, e: Event)
    requires Inv(m) && Enabled(m, e) && e.EndCall?
    ensures Inv(Step(m, e))
  {
    var o := Finished(e.id, e.ok, e.now);
    forall id { StreakOfOther(m.history, o, id); }
    StartsInTimeGrows(m.history, o);
    EndKeepsCoupling(m.table, e.id, e.ok, e.now);
  }

  lemma {:induction false} RunInv(m: Machine, events: seq<Event>)
    requires Inv(m) && ValidRun(m, events)
    ensures Inv(After(m, events))
    decreases |events|
  {
    if events != [] {
      if events[0].BeginAttempt? {
        BeginInv(m, events[0]);
      } else {
        EndInv(m, events[0]);
      }
      RunInv(Step(m, events[0]), events[1..]);
    }
  }

  /** In every reachable state the three machines of each upstream are coupled, and no dispatch step can find
      its selected upstream's breaker open. */
  lemma ReachableCoupled(m: Machine, events: seq<Event>, p: Pool, now: int, draw: nat)
    requires Initial(m) && ValidRun(m, events) && Registered(p, After(m, events).table)
    ensures AllCoupled(After(m, events).table)
    ensures !Begin(p, After(m, events).table, now, draw).Skipped?
  {
    InitialInv(m);
    RunInv(m, events);
    BeginMoves(p, After(m, events).table, now, draw);
  }

  /** In every run, once an upstream has failed BREAKER_THRESHOLD times in a row, no call to it starts within
      BREAKER_RECOVERY of its last failure. */
  lemma NoCallDuringRecovery(m: Machine, events: seq<Event>, i: nat)
    requires Initial(m) && ValidRun(m, events)
    requires i < |After(m, events).history|
    ensures var h := After(m, events).history;
            h[i].Started? && Streak(h[..i], h[i].id) >= BREAKER_THRESHOLD ==>
              h[i].at - LastFailure(h[..i], h[i].id) >= BREAKER_RECOVERY
  {
    InitialInv(m);
    RunInv(m, events);
  }

  // ---------- How often a dead upstream is called ----------

  ghost predicate AlwaysFails(h: seq<Observation>, id: string) {
    forall o | o in h && o.Finished? && o.id == id :: !o.ok
  }

  /** Never more than k calls to the upstream in flight at once. */
  ghost predicate AtMostInFlight(h: seq<Observation>, id: string, k: nat) {
    forall i | 0 <= i <= |h| :: Starts(h[..i], id) - Finishes(h[..i], id) <= k
  }

  lemma CountsGrow(h: seq<Observation>, o: Observation, id: string)
    ensures Starts(h + [o], id) == Starts(h, id) + (if o.Started? && o.id == id then 1 else 0)
    ensures Finishes(h + [o], id) == Finishes(h, id) + (if o.Finished? && o.id == id then 1 else 0)
  {
    assert (h + [o])[..|h|] == h;
  }

  lemma {:induction false} HistoryGrows(m: Machine, events: seq<Event>)
    requires ValidRun(m, events)
    ensures m.history <= After(m, events).history && m.now <= After(m, events).now
    decreases |events|
  {
    if events != [] {
      HistoryGrows(Step(m, events[0]), events[1..]);
    }
  }

  lemma PrefixKeeps(g: seq<Observation>, h: seq<Observation>, id: string, k: nat)
    requires g <= h
    ensures AlwaysFails(h, id) ==> AlwaysFails(g, id)
    ensures AtMostInFlight(h, id, k) ==> AtMostInFlight(g, id, k)
  {
    forall o | o in g ensures o in h {
      var i :| 0 <= i < |g| && g[i] == o;
      assert h[i] == o;
    }
    assert forall i | 0 <= i <= |g| :: g[..i] == h[..i];
  }

  /** After w recovery windows: how many calls can have started, and how much time must have passed. */
  ghost predicate Budget(m: Machine, id: string, k: nat, t0: int, w: nat) {
    && id in m.table
    && var b, started := m.table[id].breaker, Starts(m.history, id);
       var inFlight := started - Finishes(m.history, id);
       && b.failures == Finishes(m.history, id) && 0 <= inFlight
       && match b.state
          case Closed => w == 0 && t0 <= m.now
          case Open =>
            && started <= BREAKER_THRESHOLD - 1 + k + k * w
            && w * BREAKER_RECOVERY <= b.openedAt - t0 && b.openedAt <= m.now
          case HalfOpen => started <= BREAKER_THRESHOLD - 1 + k * w + inFlight && w * BREAKER_RECOVERY <= m.now - t0
  }

  lemma BeginBudget(m: Machine, e: Event, id: string, k: nat, t0: int, w: nat) returns (w1: nat)
    requires Inv(m) && Enabled(m, e) && e.BeginAttempt? && Budget(m, id, k, t0, w)
    ensures Budget(Step(m, e), id, k, t0, w1)
  {
    BeginMoves(e.pool, m.table, e.now, e.draw);
    var begun := Begin(e.pool, m.table, e.now, e.draw);
    if begun.Called? {
      CountsGrow(m.history, Started(begun.id, e.now), id);
    }
    var before, after := m.table[id].breaker.state, begun.table[id].breaker.state;
    w1 := if before == Breaker.Open && after == Breaker.HalfOpen then w + 1 else w;
    assert k * (w + 1) == k + k * w;
    assert OnlyHalfOpened(m.table[id], begun.table[id], e.now);
  }

  lemma EndBudget(m: Machine, e: Event, id: string, k: nat, t0: int, w: nat)
    requires Inv(m) && Enabled(m, e) && e.EndCall? && Budget(m, id, k, t0, w)
    requires e.id == id ==> !e.ok
    requires Starts(m.history, id) - Finishes(m.history, id) <= k
    ensures Budget(Step(m, e), id, k, t0, w)
  {
    CountsGrow(m.history, Finished(e.id, e.ok, e.now), id);
    if e.id == id && m.table[id].breaker.state == Breaker.Closed {
      NoWindows(k, w);
    }
  }

  lemma NoWindows(k: nat, w: nat)
    requires w == 0
    ensures k * w == 0
  {
  }

  lemma {:induction false} RunBudget(m: Machine, events: seq<Event>, id: string, k: nat, t0: int, w: nat)
    returns (w1: nat)
    requires Inv(m) && ValidRun(m, events) && Budget(m, id, k, t0, w)
    requires AlwaysFails(After(m, events).history, id) && AtMostInFlight(After(m, events).history, id, k)
    ensures Budget(After(m, events), id, k, t0, w1)
    decreases |events|
  {
    w1 := w;
    if events != [] {
      var e := events[0];
      var next := Step(m, e);
      HistoryGrows(m, events);
      HistoryGrows(next, events[1..]);
      PrefixKeeps(m.history, After(m, events).history, id, k);
      PrefixKeeps(next.history, After(m, events).history, id, k);
      assert m.history[..|m.history|] == m.history;
      if e.BeginAttempt? {
        BeginInv(m, e);
        w1 := BeginBudget(m, e, id, k, t0, w);
      } else {
        EndInv(m, e);
        assert Finished(e.id, e.ok, e.now) in next.history;
        EndBudget(m, e, id, k, t0, w);
      }
      w1 := RunBudget(next, events[1..], id, k, t0, w1);
    }
  }

  lemma WindowsFit(k: nat, w: nat, elapsed: int)
    requires w * BREAKER_RECOVERY <= elapsed
    ensures k * w <= k * (elapsed / BREAKER_RECOVERY)
  {
    assert w <= elapsed / BREAKER_RECOVERY;
    assert k * (elapsed / BREAKER_RECOVERY - w) >= 0;
  }

  /** An upstream that always fails, with at most k calls to it in flight, is called at most
      threshold - 1 + k + k * (elapsed / timeout) times: with one dispatch at a time, threshold + elapsed / timeout. */
  lemma {:induction false} DeadUpstreamCalls(m: Machine, events: seq<Event>, id: string, k: nat)
    requires Initial(m) && ValidRun(m, events) && id in m.table
    requires AlwaysFails(After(m, events).history, id) && AtMostInFlight(After(m, events).history, id, k)
    ensures var m1 := After(m, events);
            Starts(m1.history, id) <= BREAKER_THRESHOLD - 1 + k + k * ((m1.now - m.now) / BREAKER_RECOVERY)
  {
    var w := RunEnds(m, events, id, k);
    BudgetBounds(After(m, events), id, k, m.now, w);
  }

  lemma {:induction false} RunEnds(m: Machine, events: seq<Event>, id: string, k: nat) returns (w: nat)
    requires Initial(m) && ValidRun(m, events) && id in m.table
    requires AlwaysFails(After(m, events).history, id) && AtMostInFlight(After(m, events).history, id, k)
    ensures var m1 := After(m, events);
            Inv(m1) && m.now <= m1.now && Budget(m1, id, k, m.now, w)
            && Starts(m1.history, id) - Finishes(m1.history, id) <= k
  {
    InitialInv(m);
    HistoryGrows(m, events);
    RunInv(m, events);
    w := RunBudget(m, events, id, k, m.now, 0);
    var h := After(m, events).history;
    assert h[..|h|] == h;
  }

  lemma BudgetBounds(m: Machine, id: string, k: nat, t0: int, w: nat)
    requires Inv(m) && t0 <= m.now && Budget(m, id, k, t0, w)
    requires Starts(m.history, id) - Finishes(m.history, id) <= k
    ensures Starts(m.history, id) <= BREAKER_THRESHOLD - 1 + k + k * ((m.now - t0) / BREAKER_RECOVERY)
  {
    assert id in m.table;
    WindowsFit(k, w, m.now - t0);
  }
}
