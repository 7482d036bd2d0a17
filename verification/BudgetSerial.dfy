/** The budget tracker used one call at a time: what is admitted, by what was spent. */
module BudgetSerial {
  import opened Wrappers
  import opened BudgetTracking

  datatype Spending = Spending(key: string, day: Day, cents: int)

  /** What a key spent in a day or a month. */
  function Spent(done: seq<Spending>, key: string, p: Period, bucket: nat): int {
    if done == [] then 0
    else
      var s := done[|done| - 1];
      Spent(done[..|done| - 1], key, p, bucket) + if s.key == key && Bucket(p, s.day) == bucket then s.cents else 0
  }

  function TableAfter(done: seq<Spending>): Table {
    if done == [] then map[]
    else
      var s := done[|done| - 1];
      Commit(TableAfter(done[..|done| - 1]), s.key, s.day, s.cents)
  }

  /** The counters hold what was spent. */
  lemma {:induction false} TableHoldsSpent(done: seq<Spending>, key: string, p: Period, bucket: nat)
    ensures Used(TableAfter(done), Counter(key, p, bucket)) == Spent(done, key, p, bucket)
  {
    if done != [] {
      TableHoldsSpent(done[..|done| - 1], key, p, bucket);
    }
  }

  /** A budget that is set and does not hold the estimate beside what was spent. */
  predicate Exceeds(limit: int, spent: int, estimated: int) {
    limit > 0 && spent + estimated > limit
  }

  /** A check refuses exactly under a hard cap when today's or this month's spending leaves no room for the estimate;
      it admits in every other case, with a warning exactly when there is no room. */
  lemma CheckExactly(done: seq<Spending>, key: string, b: Budgets, day: Day, estimated: int)
    ensures var full := Exceeds(b.dailyCents, Spent(done, key, Daily, day), estimated)
                        || Exceeds(b.monthlyCents, Spent(done, key, Monthly, day / 100), estimated);
      PreCheck(TableAfter(done), key, b, day, estimated) == if full && b.hardCap then Err(()) else Ok(full)
  {
    TableHoldsSpent(done, key, Daily, day);
    TableHoldsSpent(done, key, Monthly, day / 100);
  }

  /** A hard cap admits whatever keeps the day and the month within their limits, and nothing else. */
  lemma HardCapExactly(done: seq<Spending>, key: string, b: Budgets, day: Day, estimated: int)
    requires b.hardCap && b.dailyCents > 0 && b.monthlyCents > 0
    ensures PreCheck(TableAfter(done), key, b, day, estimated).Ok? <==>
      && Spent(done, key, Daily, day) + estimated <= b.dailyCents
      && Spent(done, key, Monthly, day / 100) + estimated <= b.monthlyCents
  {
    CheckExactly(done, key, b, day, estimated);
  }
}
