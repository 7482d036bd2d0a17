/** Daily and monthly spending counters with caps (internal/budget/tracker.go). */
module BudgetTracking {
  import opened Wrappers
  import Seqs

  datatype Period = Daily | Monthly

  /** A UTC date as the number yyyymmdd; its month is yyyymm. */
  type Day = nat

  function Bucket(p: Period, day: Day): nat {
    if p.Daily? then day else day / 100
  }

  lemma BucketMonotone(p: Period, a: Day, b: Day)
    requires a <= b
    ensures Bucket(p, a) <= Bucket(p, b)
  {
  }

  datatype Counter = Counter(key: string, period: Period, bucket: nat)

  type Table = map<Counter, int>

  datatype Budgets = Budgets(dailyCents: int, monthlyCents: int, hardCap: bool)

  /** A missing row counts as nothing used. */
  function Used(t: Table, c: Counter): int {
    if c in t then t[c] else 0
  }

  function Increment(t: Table, c: Counter, cents: int): Table {
    t[c := Used(t, c) + cents]
  }

  predicate Over(limit: int, used: int, estimated: int) {
    limit > 0 && used + estimated > limit
  }

  /** Err when a hard cap refuses; otherwise whether to warn. */
  function PreCheck(t: Table, key: string, b: Budgets, day: Day, estimated: int): Result<bool, ()> {
    var over := Over(b.dailyCents, Used(t, Counter(key, Daily, Bucket(Daily, day))), estimated)
                || Over(b.monthlyCents, Used(t, Counter(key, Monthly, Bucket(Monthly, day))), estimated);
    if over && b.hardCap then Err(()) else Ok(over)
  }

  function Commit(t: Table, key: string, day: Day, cents: int): Table {
    Increment(Increment(t, Counter(key, Daily, Bucket(Daily, day)), cents),
              Counter(key, Monthly, Bucket(Monthly, day)), cents)
  }

  class Tracker {
    var cents: Table

    constructor ()
      ensures cents == map[]
    {
      cents := map[];
    }

    method Add(c: Counter, delta: int)
      modifies this
      ensures cents == Increment(old(cents), c, delta)
    {
      if c in cents {
        cents := cents[c := cents[c] + delta];
      } else {
        cents := cents[c := delta];
      }
    }

    method Check(key: string, b: Budgets, day: Day, estimated: int) returns (warn: Result<bool, ()>)
      ensures warn == PreCheck(cents, key, b, day, estimated)
    {
      var dailyUsed := Used(cents, Counter(key, Daily, Bucket(Daily, day)));
      var monthlyUsed := Used(cents, Counter(key, Monthly, Bucket(Monthly, day)));
      var overDaily := b.dailyCents > 0 && dailyUsed + estimated > b.dailyCents;
      var overMonthly := b.monthlyCents > 0 && monthlyUsed + estimated > b.monthlyCents;
      if (overDaily || overMonthly) && b.hardCap {
        return Err(());
      }
      return Ok(overDaily || overMonthly);
    }

    method Spend(key: string, day: Day, actual: int)
      modifies this
      ensures cents == Commit(old(cents), key, day, actual)
    {
      Add(Counter(key, Daily, Bucket(Daily, day)), actual);
      Add(Counter(key, Monthly, Bucket(Monthly, day)), actual);
    }
  }

  // ---------- Concurrent requests: every clock reading and every SQL statement is its own step ----------

  /** Where a request stands. PreCheck reads the clock, then each counter; Commit reads the clock again, then
      adds to each counter. */
  datatype Pc =
    | Clocked(day: Day)
    | DailyRead(day: Day, used: int)
    | Admitted
    | Committing(on: Day)
    | HalfDone(on: Day)
    | Done
    | Refused
    | Dropped

  datatype Request = Request(key: string, budgets: Budgets, estimated: nat, cost: nat, pc: Pc) {
    function Limit(p: Period): int {
      if p.Daily? then budgets.dailyCents else budgets.monthlyCents
    }
  }

  datatype State = State(cents: Table, requests: seq<Request>, today: Day)

  /** Enter is a whole PreCheck at once; Arrive, ReadDaily and ReadMonthly are its three steps. */
  datatype Event =
    | Enter(day: Day, key: string, budgets: Budgets, estimated: nat, cost: nat)
    | Arrive(day: Day, key: string, budgets: Budgets, estimated: nat, cost: nat)
    | ReadDaily(i: nat)
    | ReadMonthly(i: nat)
    | StartCommit(i: nat, day: Day)
    | AddDaily(i: nat)
    | AddMonthly(i: nat)
    | Drop(i: nat)

  function To(s: State, i: nat, pc: Pc): seq<Request>
    requires i < |s.requests|
  {
    s.requests[i := s.requests[i].(pc := pc)]
  }

  function Newcomer(t: Table, e: Event): Request
    requires e.Enter? || e.Arrive?
  {
    var pc :=
      if e.Arrive? then Clocked(e.day)
      else if PreCheck(t, e.key, e.budgets, e.day, e.estimated).Ok? then Admitted
      else Refused;
    Request(e.key, e.budgets, e.estimated, e.cost, pc)
  }

  /** An event that does not fit leaves the state alone; clocks never run backwards. */
  function Apply(s: State, e: Event): State {
    if e.Enter? || e.Arrive? then
      if e.day < s.today then s
      else s.(requests := s.requests + [Newcomer(s.cents, e)], today := e.day)
    else if e.i >= |s.requests| then s
    else
      var r := s.requests[e.i];
      match e
      case ReadDaily(i) =>
        if !r.pc.Clocked? then s
        else
          var used := Used(s.cents, Counter(r.key, Daily, Bucket(Daily, r.pc.day)));
          s.(requests := To(s, i, DailyRead(r.pc.day, used)))
      case ReadMonthly(i) =>
        if !r.pc.DailyRead? then s
        else
          var used := Used(s.cents, Counter(r.key, Monthly, Bucket(Monthly, r.pc.day)));
          var over := Over(r.budgets.dailyCents, r.pc.used, r.estimated)
                      || Over(r.budgets.monthlyCents, used, r.estimated);
          s.(requests := To(s, i, if over && r.budgets.hardCap then Refused else Admitted))
      case StartCommit(i, day) =>
        if !r.pc.Admitted? || day < s.today then s
        else s.(requests := To(s, i, Committing(day)), today := day)
      case AddDaily(i) =>
        if !r.pc.Committing? then s
        else s.(cents := Increment(s.cents, Counter(r.key, Daily, Bucket(Daily, r.pc.on)), r.cost),
                requests := To(s, i, HalfDone(r.pc.on)))
      case AddMonthly(i) =>
        if !r.pc.HalfDone? then s
        else s.(cents := Increment(s.cents, Counter(r.key, Monthly, Bucket(Monthly, r.pc.on)), r.cost),
                requests := To(s, i, Done))
      case Drop(i) =>
        if r.pc.HalfDone? || r.pc.Done? || r.pc.Refused? then s else s.(requests := To(s, i, Dropped))
  }

  function Run(events: seq<Event>): State {
    if events == [] then State(map[], [], 0)
    else Apply(Run(events[..|events| - 1]), events[|events| - 1])
  }

  // ---------- Amounts of money on the way ----------

  /** From its first clock reading until its own increment of the period's counter. */
  predicate InFlight(r: Request, p: Period) {
    r.pc.Clocked? || r.pc.DailyRead? || r.pc.Admitted? || r.pc.Committing? || (r.pc.HalfDone? && p.Monthly?)
  }

  /** Whether the request may yet add to this bucket without the bucket being checked first. */
  predicate MayAdd(r: Request, p: Period, bucket: nat, today: Day) {
    match r.pc
    case Clocked(day) => Bucket(p, day) < bucket && Bucket(p, today) <= bucket
    case DailyRead(day, used) =>
      if p.Daily? then !Over(r.Limit(Daily), used, r.estimated) && Bucket(p, today) <= bucket
      else Bucket(p, day) < bucket && Bucket(p, today) <= bucket
    case Admitted => Bucket(p, today) <= bucket
    case Committing(on) => Bucket(p, on) == bucket
    case HalfDone(on) => p.Monthly? && Bucket(p, on) == bucket
    case _ => false
  }

  function Exposure(key: string, p: Period): Request -> nat {
    (r: Request) => if r.key == key && InFlight(r, p) then r.cost else 0
  }

  function Unchecked(key: string, p: Period, bucket: nat, today: Day): Request -> nat {
    (r: Request) => if r.key == key && MayAdd(r, p, bucket, today) then r.cost else 0
  }

  /** The key's requests all carry a hard cap within this limit. */
  predicate Capped(s: State, key: string, p: Period, limit: nat) {
    forall r | r in s.requests && r.key == key :: r.budgets.hardCap && 0 < r.Limit(p) <= limit
  }

  // ---------- The bound ----------

  predicate Clocks(s: State) {
    forall r | r in s.requests ::
      && (r.pc.Clocked? || r.pc.DailyRead? ==> r.pc.day <= s.today)
      && (r.pc.Committing? || r.pc.HalfDone? ==> r.pc.on <= s.today)
  }

  ghost predicate Bounded(s: State, key: string, p: Period, most: nat) {
    && (forall b: nat | b > Bucket(p, s.today) :: Used(s.cents, Counter(key, p, b)) == 0)
    && (forall b: nat | b <= Bucket(p, s.today) ::
          Used(s.cents, Counter(key, p, b)) + Seqs.Sum(s.requests, Unchecked(key, p, b, s.today)) <= most)
  }

  lemma {:induction false} ClocksKept(events: seq<Event>)
    ensures Clocks(Run(events))
  {
    if events != [] {
      ClocksKept(events[..|events| - 1]);
      ClocksStep(Run(events[..|events| - 1]), events[|events| - 1]);
    }
  }

  lemma ClocksStep(s: State, e: Event)
    requires Clocks(s)
    ensures Clocks(Apply(s, e))
  {
    var t := Apply(s, e);
    forall r | r in t.requests && r !in s.requests
      ensures r.pc.Clocked? || r.pc.DailyRead? ==> r.pc.day <= t.today
      ensures r.pc.Committing? || r.pc.HalfDone? ==> r.pc.on <= t.today
    {
      if !e.Enter? && !e.Arrive? {
        assert s.requests[e.i] in s.requests;
      }
    }
  }

  lemma UncheckedWithinExposure(s: State, key: string, p: Period, bucket: nat)
    ensures Seqs.Sum(s.requests, Unchecked(key, p, bucket, s.today)) <= Seqs.Sum(s.requests, Exposure(key, p))
  {
    Seqs.SumAtMost(s.requests, Unchecked(key, p, bucket, s.today), Exposure(key, p));
  }

  /** When the clock moves on, old buckets lose claimants and a new bucket starts empty. */
  lemma AdvanceKeeps(s: State, day: Day, key: string, p: Period, limit: nat, exposure: nat)
    requires Bounded(s, key, p, limit + exposure) && s.today <= day
    requires Seqs.Sum(s.requests, Exposure(key, p)) <= exposure
    ensures Bounded(s.(today := day), key, p, limit + exposure)
  {
    var t := s.(today := day);
    BucketMonotone(p, s.today, day);
    forall b: nat | b <= Bucket(p, day)
      ensures Used(t.cents, Counter(key, p, b)) + Seqs.Sum(t.requests, Unchecked(key, p, b, day)) <= limit + exposure
    {
      if b <= Bucket(p, s.today) {
        Seqs.SumAtMost(s.requests, Unchecked(key, p, b, day), Unchecked(key, p, b, s.today));
      } else {
        UncheckedWithinExposure(t, key, p, b);
      }
    }
  }

  /** A request may start to threaten a bucket only where that bucket is within the limit. */
  lemma RelabelKeeps(s: State, i: nat, pc: Pc, key: string, p: Period, limit: nat, exposure: nat)
    requires Bounded(s, key, p, limit + exposure) && i < |s.requests|
    requires Seqs.Sum(To(s, i, pc), Exposure(key, p)) <= exposure
    requires forall b: nat | b <= Bucket(p, s.today) && MayAdd(To(s, i, pc)[i], p, b, s.today) ::
      MayAdd(s.requests[i], p, b, s.today) || s.requests[i].key != key || Used(s.cents, Counter(key, p, b)) <= limit
    ensures Bounded(s.(requests := To(s, i, pc)), key, p, limit + exposure)
  {
    var t := s.(requests := To(s, i, pc));
    forall b: nat | b <= Bucket(p, s.today)
      ensures Used(t.cents, Counter(key, p, b)) + Seqs.Sum(t.requests, Unchecked(key, p, b, s.today))
              <= limit + exposure
    {
      Seqs.SumUpdate(s.requests, i, t.requests[i], Unchecked(key, p, b, s.today));
      UncheckedWithinExposure(t, key, p, b);
    }
  }

  /** Adding to a counter uses up the claim the request had on it. */
  lemma AddDailyKeeps(s: State, i: nat, key: string, p: Period, most: nat)
    requires Clocks(s) && Bounded(s, key, p, most) && i < |s.requests| && s.requests[i].pc.Committing?
    ensures Bounded(Apply(s, AddDaily(i)), key, p, most)
  {
    var r, t := s.requests[i], Apply(s, AddDaily(i));
    assert r in s.requests;
    forall b: nat | b <= Bucket(p, s.today)
      ensures Used(t.cents, Counter(key, p, b)) + Seqs.Sum(t.requests, Unchecked(key, p, b, s.today)) <= most
    {
      Seqs.SumUpdate(s.requests, i, r.(pc := HalfDone(r.pc.on)), Unchecked(key, p, b, s.today));
    }
  }

  lemma AddMonthlyKeeps(s: State, i: nat, key: string, p: Period, most: nat)
    requires Clocks(s) && Bounded(s, key, p, most) && i < |s.requests| && s.requests[i].pc.HalfDone?
    ensures Bounded(Apply(s, AddMonthly(i)), key, p, most)
  {
    var r, t := s.requests[i], Apply(s, AddMonthly(i));
    BucketMonotone(Monthly, r.pc.on, s.today);
    assert r in s.requests;
    forall b: nat | b <= Bucket(p, s.today)
      ensures Used(t.cents, Counter(key, p, b)) + Seqs.Sum(t.requests, Unchecked(key, p, b, s.today)) <= most
    {
      Seqs.SumUpdate(s.requests, i, r.(pc := Done), Unchecked(key, p, b, s.today));
    }
  }

  lemma NewcomerKeeps(s: State, e: Event, key: string, p: Period, limit: nat, exposure: nat)
    requires Bounded(s, key, p, limit + exposure) && (e.Enter? || e.Arrive?) && s.today <= e.day
    requires Capped(Apply(s, e), key, p, limit)
    requires Seqs.Sum(s.requests, Exposure(key, p)) <= exposure
    requires Seqs.Sum(Apply(s, e).requests, Exposure(key, p)) <= exposure
    ensures Bounded(Apply(s, e), key, p, limit + exposure)
  {
    AdvanceKeeps(s, e.day, key, p, limit, exposure);
    var t, r := Apply(s, e), Newcomer(s.cents, e);
    assert t.requests[|s.requests|] == r && r in t.requests;
    forall b: nat | b <= Bucket(p, e.day)
      ensures Used(t.cents, Counter(key, p, b)) + Seqs.Sum(t.requests, Unchecked(key, p, b, e.day)) <= limit + exposure
    {
      Seqs.SumAppend(s.requests, r, Unchecked(key, p, b, e.day));
      UncheckedWithinExposure(t, key, p, b);
    }
  }

  lemma StepKeeps(s: State, e: Event, key: string, p: Period, limit: nat, exposure: nat)
    requires Clocks(s) && Bounded(s, key, p, limit + exposure)
    requires Capped(s, key, p, limit) && Capped(Apply(s, e), key, p, limit)
    requires Seqs.Sum(s.requests, Exposure(key, p)) <= exposure
    requires Seqs.Sum(Apply(s, e).requests, Exposure(key, p)) <= exposure
    ensures Bounded(Apply(s, e), key, p, limit + exposure)
  {
    if e.Enter? || e.Arrive? {
      if e.day >= s.today {
        NewcomerKeeps(s, e, key, p, limit, exposure);
      }
    } else if Apply(s, e) != s {
      if e.AddDaily? {
        AddDailyKeeps(s, e.i, key, p, limit + exposure);
      } else if e.AddMonthly? {
        AddMonthlyKeeps(s, e.i, key, p, limit + exposure);
      } else if e.StartCommit? {
        CommitKeeps(s, e.i, e.day, key, p, limit, exposure);
      } else {
        MoveKeeps(s, e, key, p, limit, exposure);
      }
    }
  }

  lemma CommitKeeps(s: State, i: nat, day: Day, key: string, p: Period, limit: nat, exposure: nat)
    requires Bounded(s, key, p, limit + exposure) && Apply(s, StartCommit(i, day)) != s
    requires Seqs.Sum(s.requests, Exposure(key, p)) <= exposure
    requires Seqs.Sum(Apply(s, StartCommit(i, day)).requests, Exposure(key, p)) <= exposure
    ensures Bounded(Apply(s, StartCommit(i, day)), key, p, limit + exposure)
  {
    assert s.requests[i] in s.requests;
    AdvanceKeeps(s, day, key, p, limit, exposure);
    RelabelKeeps(s.(today := day), i, Committing(day), key, p, limit, exposure);
  }

  lemma MoveKeeps(s: State, e: Event, key: string, p: Period, limit: nat, exposure: nat)
    requires e.ReadDaily? || e.ReadMonthly? || e.Drop?
    requires Clocks(s) && Apply(s, e) != s && Bounded(s, key, p, limit + exposure) && Capped(s, key, p, limit)
    requires Seqs.Sum(Apply(s, e).requests, Exposure(key, p)) <= exposure
    ensures Bounded(Apply(s, e), key, p, limit + exposure)
  {
    assert s.requests[e.i] in s.requests;
    RelabelKeeps(s, e.i, Apply(s, e).requests[e.i].pc, key, p, limit, exposure);
  }

  /** At every moment the key's money in flight is at most this much. */
  ghost predicate ExposedAtMost(events: seq<Event>, key: string, p: Period, exposure: nat) {
    && Seqs.Sum(Run(events).requests, Exposure(key, p)) <= exposure
    && (events != [] ==> ExposedAtMost(events[..|events| - 1], key, p, exposure))
  }

  /** Whatever interleaves, and however days change, a hard cap is overshot by no more than the money in
      flight; that holds for the daily and for the monthly counters. */
  lemma {:induction false} CapOvershootBounded(events: seq<Event>, key: string, p: Period, limit: nat,
      exposure: nat, bucket: nat)
    requires Capped(Run(events), key, p, limit) && ExposedAtMost(events, key, p, exposure)
    ensures Used(Run(events).cents, Counter(key, p, bucket)) <= limit + exposure
  {
    BoundedAlways(events, key, p, limit, exposure);
  }

  lemma {:induction false} BoundedAlways(events: seq<Event>, key: string, p: Period, limit: nat, exposure: nat)
    requires Capped(Run(events), key, p, limit) && ExposedAtMost(events, key, p, exposure)
    ensures Bounded(Run(events), key, p, limit + exposure)
  {
    if events != [] {
      var n := |events| - 1;
      var before := events[..n];
      CappedBefore(Run(before), events[n], key, p, limit);
      BoundedAlways(before, key, p, limit, exposure);
      ClocksKept(before);
      StepKeeps(Run(before), events[n], key, p, limit, exposure);
    }
  }

  lemma StepKeepsTerms(s: State, e: Event, i: nat)
    requires i < |s.requests|
    ensures var t := Apply(s, e);
      i < |t.requests| && t.requests[i] == s.requests[i].(pc := t.requests[i].pc)
  {
  }

  lemma CappedBefore(s: State, e: Event, key: string, p: Period, limit: nat)
    requires Capped(Apply(s, e), key, p, limit)
    ensures Capped(s, key, p, limit)
  {
    var t := Apply(s, e);
    forall r | r in s.requests && r.key == key ensures r.budgets.hardCap && 0 < r.Limit(p) <= limit {
      var i :| 0 <= i < |s.requests| && s.requests[i] == r;
      StepKeepsTerms(s, e, i);
      assert t.requests[i] in t.requests;
    }
  }

  // ---------- At most K requests of at most C cents ----------

  function Flying(key: string, p: Period): Request -> nat {
    (r: Request) => if r.key == key && InFlight(r, p) then 1 else 0
  }

  predicate FewAndCheap(requests: seq<Request>, key: string, p: Period, k: nat, c: nat) {
    Seqs.Sum(requests, Flying(key, p)) <= k && forall r | r in requests && r.key == key :: r.cost <= c
  }

  lemma {:induction false} ExposureByCount(requests: seq<Request>, key: string, p: Period, k: nat, c: nat)
    requires FewAndCheap(requests, key, p, k, c)
    ensures Seqs.Sum(requests, Exposure(key, p)) <= k * c
  {
    if requests != [] {
      var flies := Flying(key, p)(requests[0]);
      assert requests[0] in requests;
      ExposureByCount(requests[1..], key, p, k - flies, c);
      assert flies == 1 ==> k * c == (k - 1) * c + c;
    }
  }

  /** At every moment at most k requests of the key in flight, each costing at most c. */
  ghost predicate AlwaysFewAndCheap(events: seq<Event>, key: string, p: Period, k: nat, c: nat) {
    && FewAndCheap(Run(events).requests, key, p, k, c)
    && (events != [] ==> AlwaysFewAndCheap(events[..|events| - 1], key, p, k, c))
  }

  lemma {:induction false} FewMeansExposed(events: seq<Event>, key: string, p: Period, k: nat, c: nat, most: nat)
    requires most == k * c && AlwaysFewAndCheap(events, key, p, k, c)
    ensures ExposedAtMost(events, key, p, most)
  {
    ExposureByCount(Run(events).requests, key, p, k, c);
    if events != [] {
      FewMeansExposed(events[..|events| - 1], key, p, k, c, most);
    }
  }

  /** At most K requests in flight at any moment, each costing at most C: the counter stays within limit + K·C. */
  lemma AtMostKInFlight(events: seq<Event>, key: string, p: Period, limit: nat, k: nat, c: nat, most: nat, bucket: nat)
    requires Capped(Run(events), key, p, limit) && AlwaysFewAndCheap(events, key, p, k, c) && most == k * c
    ensures Used(Run(events).cents, Counter(key, p, bucket)) <= limit + most
  {
    FewMeansExposed(events, key, p, k, c, most);
    CapOvershootBounded(events, key, p, limit, most, bucket);
  }

  // ---------- Months agree with their days ----------

  /** The first n days of a month, by day number. */
  function DaySum(t: Table, key: string, month: nat, n: nat): int {
    if n == 0 then 0 else DaySum(t, key, month, n - 1) + Used(t, Counter(key, Daily, month * 100 + n - 1))
  }

  function HalfDoneIn(key: string, month: nat): Request -> nat {
    (r: Request) => if r.key == key && r.pc.HalfDone? && Bucket(Monthly, r.pc.on) == month then r.cost else 0
  }

  lemma {:induction false} DaySumAdds(t: Table, c: Counter, cents: int, key: string, month: nat, n: nat)
    requires n <= 100
    ensures DaySum(Increment(t, c, cents), key, month, n) == DaySum(t, key, month, n) +
      if c.key == key && c.period.Daily? && month * 100 <= c.bucket < month * 100 + n then cents else 0
  {
    if n > 0 {
      DaySumAdds(t, c, cents, key, month, n - 1);
    }
  }

  ghost predicate MonthAgrees(s: State, key: string, month: nat) {
    Used(s.cents, Counter(key, Monthly, month)) + Seqs.Sum(s.requests, HalfDoneIn(key, month))
      == DaySum(s.cents, key, month, 100)
  }

  lemma {:induction false} DaySumEmpty(key: string, month: nat, n: nat)
    ensures DaySum(map[], key, month, n) == 0
  {
    if n > 0 {
      DaySumEmpty(key, month, n - 1);
    }
  }

  /** In every reachable state a month's counter plus its half-done commits is the sum of its days. */
  lemma {:induction false} MonthIsSumOfDays(events: seq<Event>, key: string, month: nat)
    ensures MonthAgrees(Run(events), key, month)
  {
    if events == [] {
      DaySumEmpty(key, month, 100);
    } else {
      MonthIsSumOfDays(events[..|events| - 1], key, month);
      MonthStep(Run(events[..|events| - 1]), events[|events| - 1], key, month);
    }
  }

  lemma MonthStep(s: State, e: Event, key: string, month: nat)
    requires MonthAgrees(s, key, month)
    ensures MonthAgrees(Apply(s, e), key, month)
  {
    var t := Apply(s, e);
    if t == s {
      return;
    }
    if e.Enter? || e.Arrive? {
      Seqs.SumAppend(s.requests, t.requests[|s.requests|], HalfDoneIn(key, month));
      return;
    }
    var r := s.requests[e.i];
    Seqs.SumUpdate(s.requests, e.i, t.requests[e.i], HalfDoneIn(key, month));
    if e.AddDaily? {
      DaySumAdds(s.cents, Counter(r.key, Daily, Bucket(Daily, r.pc.on)), r.cost, key, month, 100);
    } else if e.AddMonthly? {
      DaySumAdds(s.cents, Counter(r.key, Monthly, Bucket(Monthly, r.pc.on)), r.cost, key, month, 100);
    }
  }

  // ---------- The steps make up the calls ----------

  /** Three uninterrupted steps admit exactly whom PreCheck admits. */
  lemma StepsArePreCheck(s: State, e: Event)
    requires e.Arrive? && s.today <= e.day
    ensures var i := |s.requests|;
      Apply(Apply(Apply(s, e), ReadDaily(i)), ReadMonthly(i))
      == Apply(s, Enter(e.day, e.key, e.budgets, e.estimated, e.cost))
  {
    var i := |s.requests|;
    var t := Apply(Apply(s, e), ReadDaily(i));
    var r := Newcomer(s.cents, e);
    assert t.requests[i] == r.(pc := t.requests[i].pc);
    assert Apply(t, ReadMonthly(i)).requests[..i] == s.requests;
  }

  /** Three uninterrupted steps spend what Commit spends. */
  lemma StepsAreCommit(s: State, i: nat, day: Day)
    requires i < |s.requests| && s.requests[i].pc.Admitted? && s.today <= day
    ensures Apply(Apply(Apply(s, StartCommit(i, day)), AddDaily(i)), AddMonthly(i)).cents
      == Commit(s.cents, s.requests[i].key, day, s.requests[i].cost)
  {
    var t := Apply(s, StartCommit(i, day));
    assert t.requests[i] == s.requests[i].(pc := Committing(day));
    assert Apply(t, AddDaily(i)).requests[i] == s.requests[i].(pc := HalfDone(day));
  }
}
