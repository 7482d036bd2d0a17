/** The limiter asked one call at a time with both limits: who passes is decided by what came before in the minute. */
module RateLimitSerial {
  import opened RateLimiting

  datatype Event = Ask(now: int, key: string, rpmLimit: int, tpmLimit: int, tokens: int) | Tidy(now: int)

  predicate Monotone(events: seq<Event>) {
    forall i, j | 0 <= i < j < |events| :: events[i].now <= events[j].now
  }

  // ---------- About the events alone ----------

  /** The asks of this key in this minute that had a request limit. */
  function Requests(events: seq<Event>, key: string, minute: int): nat {
    if events == [] then 0
    else
      var before, e := events[..|events| - 1], events[|events| - 1];
      Requests(before, key, minute)
      + if e.Ask? && e.key == key && Bucket(e.now) == minute && e.rpmLimit > 0 then 1 else 0
  }

  /** The ask is among the first ones its request limit lets through in its minute. */
  predicate InTurn(before: seq<Event>, e: Event)
    requires e.Ask?
  {
    e.rpmLimit > 0 ==> Requests(before, e.key, Bucket(e.now)) < e.rpmLimit
  }

  /** The tokens of the asks of this key in this minute that had a token limit and were in turn. */
  function Tokens(events: seq<Event>, key: string, minute: int): int {
    if events == [] then 0
    else
      var before, e := events[..|events| - 1], events[|events| - 1];
      Tokens(before, key, minute)
      + if e.Ask? && e.key == key && Bucket(e.now) == minute && e.tpmLimit > 0 && InTurn(before, e) then e.tokens else 0
  }

  // ---------- The table ----------

  function RowsAfter(events: seq<Event>): seq<Row> {
    if events == [] then []
    else
      var rows, e := RowsAfter(events[..|events| - 1]), events[|events| - 1];
      match e
      case Ask(now, key, rpmLimit, tpmLimit, tokens) => Decide(rows, now, key, rpmLimit, tpmLimit, tokens).0
      case Tidy(now) => PruneBefore(rows, Bucket(now) - 10)
  }

  /** The counts of this minute of this key, and nothing later, are in the table. */
  ghost predicate Counts(rows: seq<Row>, events: seq<Event>, key: string, minute: int) {
    && Total(rows, Cell(key, Rpm, minute)) == Requests(events, key, minute)
    && Total(rows, Cell(key, Tpm, minute)) == Tokens(events, key, minute)
  }

  lemma MonotoneBefore(events: seq<Event>)
    requires events != [] && Monotone(events)
    ensures Monotone(events[..|events| - 1])
  {
  }

  /** Whatever was pruned, the table counts every minute from the last one asked in on. */
  lemma {:induction false} TableCounts(events: seq<Event>, key: string, minute: int)
    requires Monotone(events) && forall e | e in events :: Bucket(e.now) <= minute
    ensures Counts(RowsAfter(events), events, key, minute)
  {
    if events == [] {
      return;
    }
    var before, e := events[..|events| - 1], events[|events| - 1];
    assert e in events && events == before + [e];
    MonotoneBefore(events);
    TableCounts(before, key, minute);
    if e.Tidy? {
      TidyCounts(RowsAfter(before), before, e, key, minute);
      return;
    }
    forall x | x in before ensures Bucket(x.now) <= Bucket(e.now) {
      NotLater(events, x);
    }
    TableCounts(before, e.key, Bucket(e.now));
    AskCounts(RowsAfter(before), before, e, key, minute);
  }

  lemma TidyCounts(rows: seq<Row>, before: seq<Event>, e: Event, key: string, minute: int)
    requires e.Tidy? && Bucket(e.now) <= minute && Counts(rows, before, key, minute)
    ensures Counts(PruneBefore(rows, Bucket(e.now) - 10), before + [e], key, minute)
  {
    assert (before + [e])[..|before|] == before;
    PruneKeepsLater(rows, Bucket(e.now) - 10, Cell(key, Rpm, minute));
    PruneKeepsLater(rows, Bucket(e.now) - 10, Cell(key, Tpm, minute));
  }

  lemma NotLater(events: seq<Event>, x: Event)
    requires Monotone(events) && events != [] && x in events[..|events| - 1]
    ensures Bucket(x.now) <= Bucket(events[|events| - 1].now)
  {
    var i :| 0 <= i < |events| - 1 && events[i] == x;
    BucketMonotone(x.now, events[|events| - 1].now);
  }

  /** One decision on a table that counts its minute. */
  lemma AskDecides(rows: seq<Row>, before: seq<Event>, e: Event)
    requires e.Ask? && Counts(rows, before, e.key, Bucket(e.now))
    ensures Decide(rows, e.now, e.key, e.rpmLimit, e.tpmLimit, e.tokens).1
      == if !InTurn(before, e) then Limited(Rpm, RetryAfter(e.now))
         else if e.tpmLimit > 0 && Tokens(before, e.key, Bucket(e.now)) + e.tokens > e.tpmLimit then
           Limited(Tpm, RetryAfter(e.now))
         else Admitted
  {
    var minute := Bucket(e.now);
    var rpm, tpm := Cell(e.key, Rpm, minute), Cell(e.key, Tpm, minute);
    UpsertAdds(rows, rpm, 1, rpm);
    UpsertAdds(rows, rpm, 1, tpm);
    UpsertAdds(rows, tpm, e.tokens, tpm);
    UpsertAdds(Upsert(rows, rpm, 1), tpm, e.tokens, tpm);
  }

  lemma AskCounts(rows: seq<Row>, before: seq<Event>, e: Event, key: string, minute: int)
    requires e.Ask? && Bucket(e.now) <= minute
    requires Counts(rows, before, key, minute) && Counts(rows, before, e.key, Bucket(e.now))
    ensures Counts(Decide(rows, e.now, e.key, e.rpmLimit, e.tpmLimit, e.tokens).0, before + [e], key, minute)
  {
    var rpm, tpm := Cell(e.key, Rpm, Bucket(e.now)), Cell(e.key, Tpm, Bucket(e.now));
    var all := before + [e];
    assert all[..|all| - 1] == before;
    AskDecides(rows, before, e);
    UpsertAdds(rows, rpm, 1, rpm);
    RowsCount(rows, rpm, tpm, e.tokens, Cell(key, Rpm, minute));
    RowsCount(rows, rpm, tpm, e.tokens, Cell(key, Tpm, minute));
  }

  lemma RowsCount(rows: seq<Row>, rpm: Cell, tpm: Cell, tokens: int, c: Cell)
    ensures Total(Upsert(rows, rpm, 1), c) == Total(rows, c) + if Reads(c, rpm) then 1 else 0
    ensures Total(Upsert(rows, tpm, tokens), c) == Total(rows, c) + if Reads(c, tpm) then tokens else 0
    ensures Total(Upsert(Upsert(rows, rpm, 1), tpm, tokens), c)
      == Total(rows, c) + (if Reads(c, rpm) then 1 else 0) + if Reads(c, tpm) then tokens else 0
  {
    UpsertAdds(rows, rpm, 1, c);
    UpsertAdds(rows, tpm, tokens, c);
    UpsertAdds(Upsert(rows, rpm, 1), tpm, tokens, c);
  }

  /** On a monotone clock, and whatever is pruned, a call passes exactly when fewer requests than its limit came
      before it in the minute and its tokens fit beside those of the calls in turn; otherwise it is refused for the
      first limit it breaks, with the wait until the next minute. */
  lemma BothLimitsExactly(events: seq<Event>, e: Event)
    requires Monotone(events + [e]) && e.Ask?
    ensures Decide(RowsAfter(events), e.now, e.key, e.rpmLimit, e.tpmLimit, e.tokens).1
      == if e.rpmLimit > 0 && Requests(events, e.key, Bucket(e.now)) >= e.rpmLimit then
           Limited(Rpm, RetryAfter(e.now))
         else if e.tpmLimit > 0 && Tokens(events, e.key, Bucket(e.now)) + e.tokens > e.tpmLimit then
           Limited(Tpm, RetryAfter(e.now))
         else Admitted
  {
    var all := events + [e];
    assert all[..|all| - 1] == events;
    MonotoneBefore(all);
    forall x | x in events ensures Bucket(x.now) <= Bucket(e.now) {
      NotLater(all, x);
    }
    TableCounts(events, e.key, Bucket(e.now));
    AskDecides(RowsAfter(events), events, e);
  }
}
