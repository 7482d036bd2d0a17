/** Concurrent callers of the rate limiter: every SQL statement is a step of its own, and the steps of any
    number of calls, with any clock readings, interleave freely with prunes. */
module RateLimitRuns {
  import opened Wrappers
  import opened RateLimiting
  import Seqs

  /** Where a call stands: before its increment for a metric, between increment and sum, or done. */
  datatype Pc = Before(metric: Metric) | Counted(metric: Metric) | Passed | Refused(metric: Metric) | Failed

  /** `after` records, for each metric, what the cell held right after this call's increment. */
  datatype Call = Call(
    key: string, now: int, rpmLimit: int, tpmLimit: int, tokens: nat,
    pc: Pc, after: map<Metric, int>)
  {
    function Limit(m: Metric): int {
      if m.Rpm? then rpmLimit else tpmLimit
    }

    function Delta(m: Metric): nat {
      if m.Rpm? then 1 else tokens
    }

    function CellOf(m: Metric): Cell {
      Cell(key, m, Bucket(now))
    }
  }

  /** `cut` is the highest bucket boundary any prune has used. */
  datatype State = State(rows: seq<Row>, calls: seq<Call>, cut: Option<int>)

  datatype Event =
    | Arrive(key: string, now: int, rpmLimit: int, tpmLimit: int, tokens: nat)
    | Step(i: nat)
    | StepFails(i: nat)
    | Tidy(now: int)

  // ---------- The machine ----------

  function Next(m: Metric): Pc {
    if m.Rpm? then Before(Tpm) else Passed
  }

  /** One statement of one call. */
  function StepCall(s: State, i: nat): State
    requires i < |s.calls|
  {
    var c := s.calls[i];
    match c.pc
    case Before(m) =>
      if c.Limit(m) <= 0 then s.(calls := s.calls[i := c.(pc := Next(m))])
      else
        var rows := Upsert(s.rows, c.CellOf(m), c.Delta(m));
        State(rows, s.calls[i := c.(pc := Counted(m), after := c.after[m := Value(rows, c.CellOf(m))])], s.cut)
    case Counted(m) =>
      var pc := if Total(s.rows, c.CellOf(m)) > c.Limit(m) then Refused(m) else Next(m);
      s.(calls := s.calls[i := c.(pc := pc)])
    case _ => s
  }

  function Apply(s: State, e: Event): State {
    match e
    case Arrive(key, now, rpmLimit, tpmLimit, tokens) =>
      s.(calls := s.calls + [Call(key, now, rpmLimit, tpmLimit, tokens, Before(Rpm), map[])])
    case Step(i) => if i < |s.calls| then StepCall(s, i) else s
    case StepFails(i) =>
      if i < |s.calls| && (s.calls[i].pc.Before? || s.calls[i].pc.Counted?) then
        s.(calls := s.calls[i := s.calls[i].(pc := Failed)])
      else s
    case Tidy(now) =>
      var cut := Bucket(now) - 10;
      s.(rows := PruneBefore(s.rows, cut), cut := Some(if s.cut.Some? && s.cut.value > cut then s.cut.value else cut))
  }

  function Run(events: seq<Event>): State {
    if events == [] then State([], [], None)
    else Apply(Run(events[..|events| - 1]), events[|events| - 1])
  }

  // ---------- What is counted ----------

  datatype Query =
    | Incremented(cell: Cell)
    | Within(cell: Cell, v: int)
    | Let(cell: Cell, limit: int)
    | LetInSpan(key: string, metric: Metric, start: int, limit: int)

  predicate LetThrough(c: Call, m: Metric, limit: int) {
    c.pc.Passed? && 0 < c.Limit(m) <= limit
  }

  function Weight(c: Call, q: Query): nat {
    match q
    case Incremented(cell) =>
      if c.CellOf(cell.metric) == cell && cell.metric in c.after then c.Delta(cell.metric) else 0
    case Within(cell, v) =>
      if c.CellOf(cell.metric) == cell && cell.metric in c.after && c.after[cell.metric] <= v
      then c.Delta(cell.metric) else 0
    case Let(cell, limit) =>
      if c.CellOf(cell.metric) == cell && LetThrough(c, cell.metric, limit) then c.Delta(cell.metric) else 0
    case LetInSpan(key, metric, start, limit) =>
      if c.key == key && start <= c.now < start + 60 && LetThrough(c, metric, limit) then c.Delta(metric) else 0
  }

  function Weigh(q: Query): Call -> nat {
    c => Weight(c, q)
  }

  function Sum(calls: seq<Call>, q: Query): nat {
    Seqs.Sum(calls, Weigh(q))
  }

  // ---------- What every run keeps ----------

  predicate Kept(s: State, cell: Cell) {
    s.cut.Some? ==> s.cut.value <= cell.bucket
  }

  /** An unpruned cell holds what was added to it. */
  ghost predicate CellsAddUp(s: State) {
    forall cell: Cell | Kept(s, cell) :: Value(s.rows, cell) == Sum(s.calls, Incremented(cell))
  }

  /** The increments that saw at most v add up to at most v. */
  ghost predicate PrefixesBounded(s: State) {
    forall cell: Cell, v: nat | Kept(s, cell) :: Sum(s.calls, Within(cell, v)) <= v
  }

  /** A call past a metric's check saw no more than its limit. */
  predicate Past(c: Call, m: Metric) {
    match c.pc
    case Passed => true
    case Failed => false
    case Before(at) => at.Tpm? && m.Rpm?
    case Counted(at) => at.Tpm? && m.Rpm?
    case Refused(at) => at.Tpm? && m.Rpm?
  }

  predicate CallOk(s: State, c: Call) {
    forall m: Metric ::
      && (m in c.after && Kept(s, c.CellOf(m)) ==> c.after[m] <= Sum(s.calls, Incremented(c.CellOf(m))))
      && (c.pc == Counted(m) ==> m in c.after)
      && (Past(c, m) && c.Limit(m) > 0 && Kept(s, c.CellOf(m)) ==> m in c.after && c.after[m] <= c.Limit(m))
      && (c.pc == Before(m) || c.pc == Before(Rpm) || (c.pc == Counted(Rpm) && m.Tpm?) ==> m !in c.after)
  }

  predicate CallsOk(s: State) {
    forall c | c in s.calls :: CallOk(s, c)
  }

  ghost predicate Inv(s: State) {
    NoNegatives(s.rows) && CellsAddUp(s) && PrefixesBounded(s) && CallsOk(s)
  }

  // ---------- Steps that count nothing ----------

  predicate SameCounts(c: Call, d: Call) {
    d == c.(pc := d.pc)
  }

  lemma RelabelKeeps(s: State, i: nat, d: Call)
    requires Inv(s) && i < |s.calls| && SameCounts(s.calls[i], d) && CallOk(s, d)
    ensures Inv(s.(calls := s.calls[i := d]))
  {
    var t := s.(calls := s.calls[i := d]);
    forall cell: Cell ensures Sum(t.calls, Incremented(cell)) == Sum(s.calls, Incremented(cell)) {
      Seqs.SumUpdate(s.calls, i, d, Weigh(Incremented(cell)));
    }
    forall cell: Cell, v: nat ensures Sum(t.calls, Within(cell, v)) == Sum(s.calls, Within(cell, v)) {
      Seqs.SumUpdate(s.calls, i, d, Weigh(Within(cell, v)));
    }
    forall c | c in t.calls ensures CallOk(t, c) {
      assert c == d || c in s.calls;
      assert CallOk(s, c);
    }
  }

  lemma ArriveKeeps(s: State, c: Call)
    requires Inv(s) && c.after == map[] && c.pc == Before(Rpm)
    ensures Inv(s.(calls := s.calls + [c]))
  {
    var t := s.(calls := s.calls + [c]);
    forall cell: Cell ensures Sum(t.calls, Incremented(cell)) == Sum(s.calls, Incremented(cell)) {
      Seqs.SumAppend(s.calls, c, Weigh(Incremented(cell)));
    }
    forall cell: Cell, v: nat ensures Sum(t.calls, Within(cell, v)) == Sum(s.calls, Within(cell, v)) {
      Seqs.SumAppend(s.calls, c, Weigh(Within(cell, v)));
    }
    forall d | d in t.calls ensures CallOk(t, d) {
      if d != c {
        assert CallOk(s, d);
      }
    }
  }

  lemma TidyKeeps(s: State, now: int)
    requires Inv(s)
    ensures Inv(Apply(s, Event.Tidy(now)))
  {
    var t, cut := Apply(s, Event.Tidy(now)), Bucket(now) - 10;
    forall r | r in t.rows ensures r.value >= 0 {
      PruneSelects(s.rows, cut, r);
    }
    forall cell: Cell | Kept(t, cell) ensures Kept(s, cell) && Value(t.rows, cell) == Value(s.rows, cell) {
      PruneKeepsLater(s.rows, cut, cell);
    }
    forall c | c in t.calls ensures CallOk(t, c) {
      assert CallOk(s, c);
    }
  }

  // ---------- The increment ----------

  lemma IncrementCounts(s: State, i: nat, m: Metric, cell: Cell)
    requires Inv(s) && i < |s.calls| && s.calls[i].pc == Before(m) && s.calls[i].Limit(m) > 0
    ensures var t, c := StepCall(s, i), s.calls[i];
      && Sum(t.calls, Incremented(cell))
         == Sum(s.calls, Incremented(cell)) + (if cell == c.CellOf(m) then c.Delta(m) else 0)
      && Value(t.rows, cell) == Value(s.rows, cell) + (if cell == c.CellOf(m) then c.Delta(m) else 0)
  {
    var t, c := StepCall(s, i), s.calls[i];
    assert CallOk(s, c);
    UpsertAdds(s.rows, c.CellOf(m), c.Delta(m), cell);
    Seqs.SumUpdate(s.calls, i, t.calls[i], Weigh(Incremented(cell)));
  }

  lemma IncrementKeepsPrefixes(s: State, i: nat, m: Metric, cell: Cell, v: nat)
    requires Inv(s) && i < |s.calls| && s.calls[i].pc == Before(m) && s.calls[i].Limit(m) > 0 && Kept(s, cell)
    ensures Sum(StepCall(s, i).calls, Within(cell, v)) <= v
  {
    var t, c := StepCall(s, i), s.calls[i];
    assert CallOk(s, c);
    IncrementCounts(s, i, m, cell);
    if cell == c.CellOf(m) && Value(t.rows, cell) <= v {
      Seqs.SumAtMost(t.calls, Weigh(Within(cell, v)), Weigh(Incremented(cell)));
    } else {
      Seqs.SumUpdate(s.calls, i, t.calls[i], Weigh(Within(cell, v)));
    }
  }

  lemma IncrementKeeps(s: State, i: nat, m: Metric)
    requires Inv(s) && i < |s.calls| && s.calls[i].pc == Before(m) && s.calls[i].Limit(m) > 0
    ensures Inv(StepCall(s, i))
  {
    var t, c := StepCall(s, i), s.calls[i];
    UpsertKeepsSign(s.rows, c.CellOf(m), c.Delta(m));
    forall cell: Cell | Kept(s, cell)
      ensures Value(t.rows, cell) == Sum(t.calls, Incremented(cell)) >= Sum(s.calls, Incremented(cell))
    {
      IncrementCounts(s, i, m, cell);
    }
    forall cell: Cell, v: nat | Kept(s, cell) ensures Sum(t.calls, Within(cell, v)) <= v {
      IncrementKeepsPrefixes(s, i, m, cell, v);
    }
    forall d | d in t.calls ensures CallOk(t, d) {
      assert CallOk(s, c);
      if d != t.calls[i] {
        assert CallOk(s, d);
      }
    }
  }

  // ---------- Every run ----------

  lemma StepKeeps(s: State, i: nat)
    requires Inv(s) && i < |s.calls|
    ensures Inv(StepCall(s, i))
  {
    var c := s.calls[i];
    assert CallOk(s, c);
    match c.pc {
      case Before(m) =>
        if c.Limit(m) <= 0 {
          RelabelKeeps(s, i, c.(pc := Next(m)));
        } else {
          IncrementKeeps(s, i, m);
        }
      case Counted(m) => SumKeeps(s, i, m);
      case _ =>
    }
  }

  /** Whoever passes saw no more than the sum, and the sum is within the limit. */
  lemma SumKeeps(s: State, i: nat, m: Metric)
    requires Inv(s) && i < |s.calls| && s.calls[i].pc == Counted(m)
    ensures Inv(StepCall(s, i))
  {
    var c, d := s.calls[i], StepCall(s, i).calls[i];
    assert CallOk(s, c);
    SumIsOk(s, c, m, d);
    RelabelKeeps(s, i, d);
  }

  lemma SumIsOk(s: State, c: Call, m: Metric, d: Call)
    requires NoNegatives(s.rows) && CellsAddUp(s) && CallOk(s, c) && c.pc == Counted(m)
    requires d == c.(pc := if Total(s.rows, c.CellOf(m)) > c.Limit(m) then Refused(m) else Next(m))
    ensures CallOk(s, d)
  {
    TotalCoversValue(s.rows, c.CellOf(m));
    assert d.pc == Next(m) && Kept(s, c.CellOf(m)) ==> c.after[m] <= c.Limit(m);
  }

  lemma {:induction false} EveryRunKeeps(events: seq<Event>)
    ensures Inv(Run(events))
  {
    if events != [] {
      var s, e := Run(events[..|events| - 1]), events[|events| - 1];
      EveryRunKeeps(events[..|events| - 1]);
      match e {
        case Arrive(key, now, rpmLimit, tpmLimit, tokens) =>
          ArriveKeeps(s, Call(key, now, rpmLimit, tpmLimit, tokens, Before(Rpm), map[]));
        case Step(i) =>
          if i < |s.calls| {
            StepKeeps(s, i);
          }
        case StepFails(i) =>
          if i < |s.calls| && (s.calls[i].pc.Before? || s.calls[i].pc.Counted?) {
            assert CallOk(s, s.calls[i]);
            RelabelKeeps(s, i, s.calls[i].(pc := Failed));
          }
        case Tidy(now) => TidyKeeps(s, now);
      }
    }
  }

  /** However the statements interleave, one key's minute lets through at most `limit` requests, and at most
      `limit` tokens, among the calls whose own limit is no larger, as long as no prune reached that minute. */
  lemma MinuteBounded(events: seq<Event>, cell: Cell, limit: nat)
    requires Kept(Run(events), cell)
    ensures Sum(Run(events).calls, Let(cell, limit)) <= limit
  {
    var s := Run(events);
    EveryRunKeeps(events);
    forall c | c in s.calls ensures Weight(c, Let(cell, limit)) <= Weight(c, Within(cell, limit)) {
      assert CallOk(s, c);
    }
    Seqs.SumAtMost(s.calls, Weigh(Let(cell, limit)), Weigh(Within(cell, limit)));
  }

  /** Any sixty seconds let through at most twice the limit. */
  lemma SpanBounded(events: seq<Event>, key: string, metric: Metric, start: int, limit: nat)
    requires Kept(Run(events), Cell(key, metric, Bucket(start)))
    ensures Sum(Run(events).calls, LetInSpan(key, metric, start, limit)) <= 2 * limit
  {
    var s := Run(events);
    var p := Let(Cell(key, metric, Bucket(start)), limit);
    var r := Let(Cell(key, metric, Bucket(start) + 1), limit);
    MinuteBounded(events, p.cell, limit);
    MinuteBounded(events, r.cell, limit);
    var q := LetInSpan(key, metric, start, limit);
    forall c | c in s.calls ensures Weight(c, q) <= Weight(c, p) + Weight(c, r) {
      if start <= c.now < start + 60 {
        SpanMeetsTwoBuckets(start, c.now);
      }
    }
    Seqs.SumAtMostTwo(s.calls, Weigh(q), Weigh(p), Weigh(r));
  }

  /** A call whose statements nothing interrupts decides as the serial limiter does. */
  lemma AloneIsDecide(s: State, i: nat)
    requires i < |s.calls| && s.calls[i].pc == Before(Rpm)
    ensures var c := s.calls[i];
      var d := Decide(s.rows, c.now, c.key, c.rpmLimit, c.tpmLimit, c.tokens);
      var t := StepCall(StepCall(StepCall(StepCall(s, i), i), i), i);
      t.rows == d.0 && t.calls[i].pc == if d.1.Admitted? then Passed else Refused(d.1.metric)
  {
    var c := s.calls[i];
    var t := StepCall(s, i);
    if c.rpmLimit > 0 {
      t := StepCall(t, i);
      assert t.rows == Check(s.rows, c.CellOf(Rpm), c.rpmLimit, 1).0;
    }
    assert t.rows == Check(s.rows, c.CellOf(Rpm), c.rpmLimit, 1).0;
    if t.calls[i].pc == Before(Tpm) {
      assert StepCall(StepCall(t, i), i).rows == Check(t.rows, c.CellOf(Tpm), c.tpmLimit, c.tokens).0;
    }
  }
}
