/** The per-minute rate limiter (internal/budget/ratelimit.go) over its table of counters. */
module RateLimiting {

  datatype Metric = Rpm | Tpm

  datatype Cell = Cell(key: string, metric: Metric, bucket: int)

  datatype Row = Row(cell: Cell, value: int)

  // ---------- The clock ----------

  /** Go's integer division rounds toward zero. */
  function TruncDiv(n: int, d: nat): int
    requires d > 0
  {
    if n >= 0 then n / d else -(-n / d)
  }

  function TruncMod(n: int, d: nat): int
    requires d > 0
  {
    n - d * TruncDiv(n, d)
  }

  function Bucket(now: int): int {
    TruncDiv(now, 60)
  }

  function RetryAfter(now: int): int {
    var seconds := 60 - TruncMod(now, 60);
    if seconds <= 0 then 60 else seconds
  }

  /** Minutes are counted toward zero: a clock before the epoch reads the mirrored bucket. */
  lemma BucketExactly(now: int)
    ensures now >= 0 ==> 60 * Bucket(now) <= now < 60 * Bucket(now) + 60
    ensures Bucket(-now) == -Bucket(now)
  {
  }

  /** From the epoch on, the advised wait ends in the very second the next bucket opens. */
  lemma RetryOpensNextBucket(now: nat)
    ensures 1 <= RetryAfter(now) <= 60
    ensures Bucket(now + RetryAfter(now)) == Bucket(now) + 1
    ensures forall t | now <= t < now + RetryAfter(now) :: Bucket(t) == Bucket(now)
  {
    var q, m := now / 60, now % 60;
    assert now == 60 * q + m;
    assert RetryAfter(now) == 60 - m;
    forall t | now <= t < now + RetryAfter(now) ensures Bucket(t) == Bucket(now) {
      assert 60 * q <= t < 60 * q + 60;
    }
  }

  lemma BucketMonotone(s: int, t: int)
    requires s <= t
    ensures Bucket(s) <= Bucket(t)
  {
  }

  /** Sixty seconds meet at most two buckets. */
  lemma SpanMeetsTwoBuckets(start: int, t: int)
    requires start <= t < start + 60
    ensures Bucket(t) == Bucket(start) || Bucket(t) == Bucket(start) + 1
  {
  }

  // ---------- The table ----------

  /** INSERT ... ON CONFLICT DO UPDATE SET value = value + excluded.value. */
  function Upsert(rows: seq<Row>, cell: Cell, delta: int): seq<Row> {
    if rows == [] then [Row(cell, delta)]
    else if rows[0].cell == cell then [Row(cell, rows[0].value + delta)] + rows[1..]
    else [rows[0]] + Upsert(rows[1..], cell, delta)
  }

  /** The row of this cell changes where it stands, or a row is appended. */
  lemma {:induction false} UpsertAt(rows: seq<Row>, i: nat, cell: Cell, delta: int)
    requires i <= |rows| && forall k | 0 <= k < i :: rows[k].cell != cell
    requires i < |rows| ==> rows[i].cell == cell
    ensures Upsert(rows, cell, delta) ==
      if i < |rows| then rows[i := Row(cell, rows[i].value + delta)] else rows + [Row(cell, delta)]
  {
    if i == 0 {
      return;
    }
    var later := rows[1..];
    UpsertAt(later, i - 1, cell, delta);
    if i < |rows| {
      FrontStays(rows[0], later, i - 1, Row(cell, rows[i].value + delta));
      assert rows == [rows[0]] + later;
    } else {
      assert rows + [Row(cell, delta)] == [rows[0]] + (later + [Row(cell, delta)]);
    }
  }

  lemma FrontStays(first: Row, later: seq<Row>, i: nat, row: Row)
    requires i < |later|
    ensures ([first] + later)[i + 1 := row] == [first] + later[i := row]
  {
  }

  predicate Reads(from: Cell, c: Cell) {
    c.key == from.key && c.metric == from.metric && c.bucket >= from.bucket
  }

  /** SELECT SUM(value) over the key's and metric's buckets from this one on. */
  function Total(rows: seq<Row>, from: Cell): int {
    if rows == [] then 0
    else (if Reads(from, rows[0].cell) then rows[0].value else 0) + Total(rows[1..], from)
  }

  function PruneBefore(rows: seq<Row>, cut: int): seq<Row> {
    if rows == [] then []
    else (if rows[0].cell.bucket < cut then [] else [rows[0]]) + PruneBefore(rows[1..], cut)
  }

  predicate UniqueCells(rows: seq<Row>) {
    forall i, j | 0 <= i < j < |rows| :: rows[i].cell != rows[j].cell
  }

  /** What one cell holds. */
  function Value(rows: seq<Row>, cell: Cell): int {
    if rows == [] then 0
    else (if rows[0].cell == cell then rows[0].value else 0) + Value(rows[1..], cell)
  }

  lemma {:induction false} UpsertAdds(rows: seq<Row>, cell: Cell, delta: int, c: Cell)
    ensures Total(Upsert(rows, cell, delta), c) == Total(rows, c) + if Reads(c, cell) then delta else 0
    ensures Value(Upsert(rows, cell, delta), c) == Value(rows, c) + if c == cell then delta else 0
  {
    if rows != [] && rows[0].cell != cell {
      UpsertAdds(rows[1..], cell, delta, c);
    }
  }

  lemma {:induction false} UpsertKeepsKeys(rows: seq<Row>, cell: Cell, delta: int)
    requires UniqueCells(rows)
    ensures UniqueCells(Upsert(rows, cell, delta))
    ensures forall r | r in Upsert(rows, cell, delta) :: r.cell == cell || r in rows
  {
    if rows != [] && rows[0].cell != cell {
      UpsertKeepsKeys(rows[1..], cell, delta);
    }
  }

  lemma {:induction false} PruneKeepsLater(rows: seq<Row>, cut: int, c: Cell)
    requires cut <= c.bucket
    ensures Total(PruneBefore(rows, cut), c) == Total(rows, c)
    ensures Value(PruneBefore(rows, cut), c) == Value(rows, c)
  {
    if rows != [] {
      PruneKeepsLater(rows[1..], cut, c);
      var rest := PruneBefore(rows[1..], cut);
      assert PruneBefore(rows, cut) == if rows[0].cell.bucket < cut then rest else [rows[0]] + rest;
    }
  }

  /** A sum from a bucket on counts what is added to that bucket or a later one of the same key and metric, and nothing
      else. */
  lemma TotalCounts(rows: seq<Row>, from: Cell, to: Cell, delta: int)
    ensures Total(Upsert(rows, to, delta), from) == Total(rows, from)
      + if to.key == from.key && to.metric == from.metric && from.bucket <= to.bucket then delta else 0
  {
    UpsertAdds(rows, to, delta, from);
  }

  predicate NoNegatives(rows: seq<Row>) {
    forall r | r in rows :: r.value >= 0
  }

  lemma {:induction false} PruneSelects(rows: seq<Row>, cut: int, r: Row)
    ensures r in PruneBefore(rows, cut) <==> r in rows && r.cell.bucket >= cut
  {
    if rows != [] {
      PruneSelects(rows[1..], cut, r);
      assert r in rows <==> r == rows[0] || r in rows[1..];
    }
  }

  lemma {:induction false} UpsertKeepsSign(rows: seq<Row>, cell: Cell, delta: nat)
    requires NoNegatives(rows)
    ensures NoNegatives(Upsert(rows, cell, delta))
  {
    if rows != [] {
      assert rows[0] in rows;
      if rows[0].cell != cell {
        UpsertKeepsSign(rows[1..], cell, delta);
      }
    }
  }

  lemma {:induction false} TotalCoversValue(rows: seq<Row>, c: Cell)
    requires NoNegatives(rows)
    ensures 0 <= Value(rows, c) <= Total(rows, c)
  {
    if rows != [] {
      assert rows[0] in rows;
      TotalCoversValue(rows[1..], c);
    }
  }

  // ---------- One call at a time ----------

  datatype Decision = Admitted | Limited(metric: Metric, retryAfter: int)

  /** One metric's check: increment, then compare the sum with the limit. */
  function Check(rows: seq<Row>, cell: Cell, limit: int, delta: int): (seq<Row>, bool) {
    if limit <= 0 then (rows, true)
    else
      var after := Upsert(rows, cell, delta);
      (after, Total(after, cell) <= limit)
  }

  function Decide(rows: seq<Row>, now: int, key: string, rpmLimit: int, tpmLimit: int, tokens: int)
    : (seq<Row>, Decision)
  {
    var rpm := Check(rows, Cell(key, Rpm, Bucket(now)), rpmLimit, 1);
    if !rpm.1 then (rpm.0, Limited(Rpm, RetryAfter(now)))
    else
      var tpm := Check(rpm.0, Cell(key, Tpm, Bucket(now)), tpmLimit, tokens);
      (tpm.0, if tpm.1 then Admitted else Limited(Tpm, RetryAfter(now)))
  }

  class RateLimiter {
    var rows: seq<Row>

    constructor ()
      ensures rows == []
    {
      rows := [];
    }

    method Increment(cell: Cell, delta: int)
      modifies this
      ensures rows == Upsert(old(rows), cell, delta)
    {
      var i := 0;
      while i < |rows| && rows[i].cell != cell
        invariant i <= |rows| && forall k | 0 <= k < i :: rows[k].cell != cell
      {
        i := i + 1;
      }
      UpsertAt(rows, i, cell, delta);
      if i < |rows| {
        rows := rows[i := Row(cell, rows[i].value + delta)];
      } else {
        rows := rows + [Row(cell, delta)];
      }
    }

    method SumFrom(cell: Cell) returns (total: int)
      ensures total == Total(rows, cell)
    {
      total := 0;
      for i := 0 to |rows|
        invariant total + Total(rows[i..], cell) == Total(rows, cell)
      {
        assert rows[i..][1..] == rows[i + 1..];
        if Reads(cell, rows[i].cell) {
          total := total + rows[i].value;
        }
      }
    }

    method IncrementAndTotal(cell: Cell, delta: int) returns (total: int)
      modifies this
      ensures rows == Upsert(old(rows), cell, delta) && total == Total(rows, cell)
    {
      Increment(cell, delta);
      total := SumFrom(cell);
    }

    method Allow(now: int, key: string, rpmLimit: int, tpmLimit: int, tokens: int) returns (decision: Decision)
      modifies this
      ensures (rows, decision) == Decide(old(rows), now, key, rpmLimit, tpmLimit, tokens)
    {
      var bucket := Bucket(now);
      if rpmLimit > 0 {
        var total := IncrementAndTotal(Cell(key, Rpm, bucket), 1);
        if total > rpmLimit {
          return Limited(Rpm, RetryAfter(now));
        }
      }
      if tpmLimit > 0 {
        var total := IncrementAndTotal(Cell(key, Tpm, bucket), tokens);
        if total > tpmLimit {
          return Limited(Tpm, RetryAfter(now));
        }
      }
      return Admitted;
    }

    method Prune(now: int)
      modifies this
      ensures rows == PruneBefore(old(rows), Bucket(now) - 10)
    {
      var cut, kept := Bucket(now) - 10, [];
      for i := 0 to |rows|
        invariant rows == old(rows)
        invariant kept + PruneBefore(rows[i..], cut) == PruneBefore(rows, cut)
      {
        assert rows[i..][1..] == rows[i + 1..];
        if rows[i].cell.bucket >= cut {
          assert kept + ([rows[i]] + PruneBefore(rows[i + 1..], cut))
              == (kept + [rows[i]]) + PruneBefore(rows[i + 1..], cut);
          kept := kept + [rows[i]];
        }
      }
      rows := kept;
    }
  }

  // ---------- A whole serial run with only the request limit set ----------

  datatype Event = Ask(now: int, key: string, limit: int) | Tidy(now: int)

  predicate Monotone(events: seq<Event>) {
    forall i, j | 0 <= i < j < |events| :: events[i].now <= events[j].now
  }

  function RowsAfter(events: seq<Event>): seq<Row> {
    if events == [] then []
    else
      var rows, e := RowsAfter(events[..|events| - 1]), events[|events| - 1];
      match e
      case Ask(now, key, limit) => Decide(rows, now, key, limit, 0, 0).0
      case Tidy(now) => PruneBefore(rows, Bucket(now) - 10)
  }

  function DecisionOn(events: seq<Event>, ask: Event): Decision
    requires ask.Ask?
  {
    Decide(RowsAfter(events), ask.now, ask.key, ask.limit, 0, 0).1
  }

  /** The limited requests of this key from this bucket on. */
  function Asked(events: seq<Event>, from: Cell): nat {
    if events == [] then 0
    else
      var e := events[|events| - 1];
      Asked(events[..|events| - 1], from)
      + if e.Ask? && e.limit > 0 && Reads(from, Cell(e.key, Rpm, Bucket(e.now))) then 1 else 0
  }

  /** No matter what was pruned, the table still holds every count a later request can ask for. */
  lemma {:induction false} TableCounts(events: seq<Event>, from: Cell)
    requires Monotone(events) && forall e | e in events :: Bucket(e.now) - 10 <= from.bucket
    requires from.metric == Rpm
    ensures Total(RowsAfter(events), from) == Asked(events, from)
  {
    if events != [] {
      var n := |events| - 1;
      TableCounts(events[..n], from);
      assert events[n] in events;
      match events[n] {
        case Ask(now, key, limit) =>
          UpsertAdds(RowsAfter(events[..n]), Cell(key, Rpm, Bucket(now)), 1, from);
        case Tidy(now) =>
          PruneKeepsLater(RowsAfter(events[..n]), Bucket(now) - 10, from);
      }
    }
  }

  /** Requests of the same key in the same minute. */
  function AskedInMinute(events: seq<Event>, key: string, bucket: int): nat {
    if events == [] then 0
    else
      var e := events[|events| - 1];
      AskedInMinute(events[..|events| - 1], key, bucket)
      + if e.Ask? && e.limit > 0 && e.key == key && Bucket(e.now) == bucket then 1 else 0
  }

  lemma {:induction false} NothingLater(events: seq<Event>, key: string, bucket: int)
    requires forall e | e in events :: Bucket(e.now) <= bucket
    ensures Asked(events, Cell(key, Rpm, bucket)) == AskedInMinute(events, key, bucket)
  {
    if events != [] {
      NothingLater(events[..|events| - 1], key, bucket);
      assert events[|events| - 1] in events;
    }
  }

  /** Run serially on a monotone clock, a request passes exactly when fewer than its limit came before it in
      the minute: pruning, at any point, changes no decision. */
  lemma FirstOfTheMinute(events: seq<Event>, ask: Event)
    requires Monotone(events + [ask]) && ask.Ask?
    ensures DecisionOn(events, ask) ==
      if ask.limit <= 0 || AskedInMinute(events, ask.key, Bucket(ask.now)) < ask.limit then Admitted
      else Limited(Rpm, RetryAfter(ask.now))
  {
    var here := Cell(ask.key, Rpm, Bucket(ask.now));
    var all := events + [ask];
    forall e | e in events ensures Bucket(e.now) <= Bucket(ask.now) {
      var i :| 0 <= i < |events| && events[i] == e;
      assert all[i] == e && all[|events|] == ask;
      BucketMonotone(e.now, ask.now);
    }
    assert Monotone(events) by {
      forall i, j | 0 <= i < j < |events| ensures events[i].now <= events[j].now {
        assert all[i] == events[i] && all[j] == events[j];
      }
    }
    TableCounts(events, here);
    NothingLater(events, ask.key, Bucket(ask.now));
    UpsertAdds(RowsAfter(events), here, 1, here);
  }

  function WithoutTidying(events: seq<Event>): seq<Event> {
    if events == [] then []
    else
      var e := events[|events| - 1];
      WithoutTidying(events[..|events| - 1]) + if e.Ask? then [e] else []
  }

  lemma {:induction false} TidyingIsNotAsking(events: seq<Event>, key: string, bucket: int)
    ensures AskedInMinute(WithoutTidying(events), key, bucket) == AskedInMinute(events, key, bucket)
  {
    if events != [] {
      var n, w := |events| - 1, WithoutTidying(events);
      TidyingIsNotAsking(events[..n], key, bucket);
      if events[n].Ask? {
        assert w[..|w| - 1] == WithoutTidying(events[..n]);
      } else {
        assert w == WithoutTidying(events[..n]);
      }
    }
  }

  lemma {:induction false} TidyingLeavesOrder(events: seq<Event>)
    requires Monotone(events)
    ensures Monotone(WithoutTidying(events))
    ensures forall e | e in WithoutTidying(events) :: e in events
  {
    if events != [] {
      var n := |events| - 1;
      TidyingLeavesOrder(events[..n]);
      forall e | e in WithoutTidying(events[..n]) ensures e in events && e.now <= events[n].now {
        assert e in events[..n];
      }
    }
  }

  /** The same run without its prunes decides the same. */
  lemma PruningChangesNoDecision(events: seq<Event>, ask: Event)
    requires Monotone(events + [ask]) && ask.Ask?
    ensures DecisionOn(WithoutTidying(events), ask) == DecisionOn(events, ask)
  {
    var all := events + [ask];
    assert WithoutTidying(all) == WithoutTidying(events) + [ask] by {
      assert all[..|events|] == events;
    }
    TidyingLeavesOrder(all);
    TidyingIsNotAsking(events, ask.key, Bucket(ask.now));
    FirstOfTheMinute(events, ask);
    FirstOfTheMinute(WithoutTidying(events), ask);
  }
}
