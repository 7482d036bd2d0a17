/** What the audit log does when nothing goes wrong, and exactly when one append does not. */
module AuditSuccess {
  import opened Wrappers
  import opened Bytes
  import opened Timestamps
  import opened AuditIndexing
  import opened AuditLogging
  import opened AuditRuns
  import Seqs

  // ---------- One append ----------

  /** The record goes into the file that is open. */
  predicate Fits(log: Log, r: Record) {
    log.currentFile == Open && log.currentDay == DateText(r.ts)
  }

  /** A change of day goes well: an open file is synced and closed, and the new one opened. */
  predicate Switched(log: Log, io: Io) {
    io.openOk && (log.currentFile == Open ==> io.syncOk && io.closeOk)
  }

  /** The record encodes, and the write puts its whole line. */
  predicate WritesWhole(r: Record, io: Io) {
    io.seekOk && io.writeOk && r.json.Some? && |r.json.value| + 1 <= io.written
  }

  /** An append succeeds exactly when the handle is not a closed one, the day's file is open or gets opened, the
      record encodes and the whole line is written; then the day's file has grown by exactly the line. */
  lemma AppendExactly(log: Log, dir: Text, r: Record, io: Io)
    ensures var a := Append(log, dir, r, io);
      && (a.1.Ok? <==> log.currentFile != Closed && (Fits(log, r) || Switched(log, io)) && WritesWhole(r, io))
      && (a.1.Ok? ==>
            && a.0.currentFile == Open && a.0.currentDay == DateText(r.ts)
            && forall path :: Content(a.0.files, path) == Content(log.files, path)
                 + if path == Path(dir, DateText(r.ts)) then r.json.value + [LF] else [])
  {
    AppendSlices(log, dir, r, io);
  }

  /** What goes wrong first, if anything: the sync and the close of the file of another day, the opening of the day's
      file, the seek, the encoding, and the write. A closed handle fails with the first call made on it. */
  function Trouble(log: Log, r: Record, io: Io): Option<WriteError> {
    var sameDay := log.currentFile != Nil && log.currentDay == DateText(r.ts);
    if !sameDay && log.currentFile != Nil && (log.currentFile == Closed || !io.syncOk) then Some(SyncFailed)
    else if !sameDay && log.currentFile != Nil && !io.closeOk then Some(CloseFailed)
    else if !sameDay && !io.openOk then Some(OpenFailed)
    else if (sameDay && log.currentFile == Closed) || !io.seekOk then Some(SeekFailed)
    else if r.json.None? then Some(MarshalFailed)
    else if !io.writeOk then Some(WriteFailed)
    else if io.written < |r.json.value| + 1 then Some(ShortWrite)
    else None
  }

  /** The first trouble is the error. Only a write that fails or falls short leaves bytes behind: those of the line it
      wrote, at the end of the day's file. */
  lemma TroubleExactly(log: Log, dir: Text, r: Record, io: Io)
    ensures var a, trouble := Append(log, dir, r, io), Trouble(log, r, io);
      && trouble == (if a.1.Ok? then None else Some(a.1.error))
      && (trouble.Some? ==>
            forall path :: Content(a.0.files, path) == Content(log.files, path)
              + if path == Path(dir, DateText(r.ts)) && trouble.value in {WriteFailed, ShortWrite} then
                  AuditIndexing.Take(r.json.value + [LF], io.written)
                else [])
  {
  }

  /** After any append the handle is the day's, unless the day's file could not be opened; and then it is what the
      change of day left. */
  lemma HandleAfter(log: Log, dir: Text, r: Record, io: Io)
    ensures var a, trouble := Append(log, dir, r, io).0, Trouble(log, r, io);
      if trouble == Some(SyncFailed) then a == log
      else if trouble in {Some(CloseFailed), Some(OpenFailed)} then
        a.files == log.files && a.currentDay == log.currentDay
        && a.currentFile == if log.currentFile == Nil then Nil else Closed
      else if log.currentFile == Closed then a == log
      else a.currentDay == DateText(r.ts) && a.currentFile == Open
  {
  }

  /** Close returns the error there was before it, or else that of its sync or its close; a handle that was closed
      already fails both, and a log without a file has nothing to close. */
  lemma CloseExactly(log: Log, err: Option<WriteError>, io: Io)
    ensures var c := CloseLog(log, err, io);
      && c.0.files == log.files && c.0.currentFile == Nil
      && (err.Some? || log.currentFile == Nil ==> c.1 == err)
      && (err.None? && log.currentFile != Nil ==>
            && (c.1 == Some(SyncFailed) <==> log.currentFile == Closed || !io.syncOk)
            && (c.1 == Some(CloseFailed) <==> log.currentFile == Open && io.syncOk && !io.closeOk)
            && (c.1 == None <==> log.currentFile == Open && io.syncOk && io.closeOk))
  {
  }

  /** A record is accepted exactly before the shutdown and while the channel has room for it; one without a time gets
      the time it was accepted at. */
  lemma SubmitExactly(s: State, dir: Text, r: Record, now: Time)
    ensures var t := Apply(s, dir, Submit(r, now));
      if s.shut || |s.queue| >= 1024 then t == s
      else
        && |t.accepted| == |s.accepted| + 1 && s.accepted <= t.accepted
        && var last := t.accepted[|s.accepted|];
           && t.queue == s.queue + [last]
           && last.ts == (if r.ts == ZERO_TIME then now else r.ts)
           && last.(ts := ZERO_TIME) == r.(ts := ZERO_TIME)
  {
  }

  /** The writer's first error stays. */
  lemma FirstErrorStays(s: State, dir: Text, e: Event)
    requires s.writeErr.Some?
    ensures Apply(s, dir, e).writeErr == s.writeErr
  {
  }

  /** An appended item waits only while the indexer's channel is full, and reaches it as it is. */
  lemma HandOverExactly(s: State, dir: Text)
    ensures var t := Apply(s, dir, HandOver);
      if s.holding.Some? && |s.toIndex| < 1024 then
        t.holding == None && t.toIndex == s.toIndex + [s.holding.value] && t.log == s.log && t.index == s.index
      else t == s
  {
  }

  /** Each day has its own file. */
  lemma FileOfDay(dir: Text, t: Time, u: Time)
    ensures Path(dir, DateText(t)) == Path(dir, DateText(u)) <==>
      t.year == u.year && t.month == u.month && t.day == u.day
  {
    DateReads(t);
    DateReads(u);
    var a, b := Path(dir, DateText(t)), Path(dir, DateText(u));
    assert a[|dir| + 1..|dir| + 11] == DateText(t) && b[|dir| + 1..|dir| + 11] == DateText(u);
  }

  // ---------- The loops ----------

  /** How each job's append goes, one after the other. */
  function Outcomes(log: Log, dir: Text, jobs: seq<Job>): (r: seq<Result<Indexed, WriteError>>)
    ensures |r| == |jobs|
    decreases |jobs|
  {
    if jobs == [] then []
    else
      var a := Append(log, dir, jobs[0].record, jobs[0].io);
      [a.1] + Outcomes(a.0, dir, jobs[1..])
  }

  function Successes(outcomes: seq<Result<Indexed, WriteError>>): seq<Indexed> {
    if outcomes == [] then []
    else (if outcomes[0].Ok? then [outcomes[0].value] else []) + Successes(outcomes[1..])
  }

  function FirstFailure(outcomes: seq<Result<Indexed, WriteError>>): Option<WriteError> {
    if outcomes == [] then None
    else if outcomes[0].Err? then Some(outcomes[0].error)
    else FirstFailure(outcomes[1..])
  }

  /** The writer's loop hands on what was appended, in order, and keeps its first error. */
  lemma {:induction false} WriterRunExactly(w: Writing, dir: Text, jobs: seq<Job>)
    ensures var after, outcomes := RunWriter(w, dir, jobs), Outcomes(w.log, dir, jobs);
      && after.enqueued == w.enqueued + Successes(outcomes)
      && after.err == if w.err.Some? then w.err else FirstFailure(outcomes)
    decreases |jobs|
  {
    if jobs == [] {
      return;
    }
    var a := Append(w.log, dir, jobs[0].record, jobs[0].io);
    var next := match a.1
      case Ok(x) => Writing(a.0, w.err, w.enqueued + [x])
      case Err(e) => Writing(a.0, Sticky(w.err, Some(e)), w.enqueued);
    WriterRunExactly(next, dir, jobs[1..]);
    var later := Outcomes(a.0, dir, jobs[1..]);
    assert Outcomes(w.log, dir, jobs)[1..] == later;
    if a.1.Ok? {
      Seqs.Assoc(w.enqueued, [a.1.value], Successes(later));
    } else {
      assert [] + Successes(later) == Successes(later);
    }
  }

  function TakenIn(items: seq<Stored>): seq<Indexed> {
    if items == [] then []
    else TakenIn(items[..|items| - 1]) + if items[|items| - 1].dbOk then [items[|items| - 1].item] else []
  }

  /** The indexer's loop puts what the database takes, in order, and remembers whether it refused something. */
  lemma {:induction false} IndexerRunExactly(i: Indexing, items: seq<Stored>)
    ensures var after := RunIndexer(i, items);
      && after.rows == PutAll(i.rows, TakenIn(items))
      && (after.err.None? <==> i.err.None? && forall s | s in items :: s.dbOk)
  {
    if items == [] {
      return;
    }
    var before, last := items[..|items| - 1], items[|items| - 1];
    assert items == before + [last];
    IndexerRunExactly(i, before);
    IndexerStep(i, before, last);
    TakenMore(i.rows, before, last);
  }

  lemma TakenMore(rows: seq<Row>, before: seq<Stored>, last: Stored)
    ensures PutAll(rows, TakenIn(before + [last]))
      == if last.dbOk then Put(PutAll(rows, TakenIn(before)), EntryOf(last.item)) else PutAll(rows, TakenIn(before))
    ensures (forall s | s in before + [last] :: s.dbOk) <==> last.dbOk && forall s | s in before :: s.dbOk
  {
    assert (before + [last])[..|before|] == before;
    assert last in before + [last] && forall s | s in before :: s in before + [last];
    if last.dbOk {
      PutAllStep(rows, TakenIn(before), last.item);
    } else {
      assert TakenIn(before) + [] == TakenIn(before);
    }
  }

  lemma {:induction false} IndexerStep(i: Indexing, items: seq<Stored>, last: Stored)
    ensures RunIndexer(i, items + [last]) == IndexOne(RunIndexer(i, items), last)
    decreases |items|
  {
    var all := items + [last];
    if items == [] {
      assert all[1..] == [];
    } else {
      assert all[0] == items[0] && all[1..] == items[1..] + [last];
      IndexerStep(IndexOne(i, items[0]), items[1..], last);
    }
  }

  // ---------- A whole run ----------

  /** Every record encodes, and every system call and database statement works and writes whole lines. */
  predicate Flawless(events: seq<Event>) {
    && (forall e | e in events :: e.Submit? ==> e.record.json.Some?)
    && (forall e | e in events :: e.Take? ==>
          e.io.syncOk && e.io.closeOk && e.io.openOk && e.io.seekOk && e.io.writeOk)
    && (forall e, f | e in events && f in events :: e.Take? && f.Submit? && f.record.json.Some? ==>
          |f.record.json.value| + 1 <= e.io.written)
    && (forall e | e in events :: e.IndexNext? ==> e.dbOk)
    && (forall e | e in events :: e.CloseFile? ==> e.io.syncOk && e.io.closeOk)
  }

  /** The record was submitted by one of the events. */
  predicate Submitted(r: Record, events: seq<Event>) {
    exists e :: e in events && e.Submit? && r == Stamp(e.record, e.now)
  }

  /** No error so far, and every record taken was appended. */
  predicate Well(s: State, events: seq<Event>) {
    && s.writeErr.None? && s.index.err.None? && s.log.currentFile != Closed
    && |s.appended| + |s.queue| == |s.accepted|
    && forall r | r in s.queue :: Submitted(r, events)
  }

  lemma TakeWorks(s: State, dir: Text, io: Io, events: seq<Event>)
    requires Flawless(events) && Well(s, events) && Take(io) in events && s.queue != [] && s.holding.None?
    ensures TakeOne(s, dir, io).holding.Some? && Well(TakeOne(s, dir, io), events)
  {
    var r := s.queue[0];
    assert Submitted(r, events);
    var e :| e in events && e.Submit? && r == Stamp(e.record, e.now);
    assert Take(io).Take? && e.record.json.Some? && |e.record.json.value| + 1 <= io.written;
    AppendExactly(s.log, dir, r, io);
  }

  lemma StepStaysWell(s: State, dir: Text, e: Event, events: seq<Event>)
    requires Flawless(events) && Well(s, events) && e in events
    ensures Well(Apply(s, dir, e), events)
  {
    match e
    case Submit(record, now) =>
      assert Submitted(Stamp(record, now), events);
    case Take(io) =>
      if s.holding.None? && s.queue != [] {
        TakeWorks(s, dir, io, events);
      }
    case _ =>
  }

  lemma {:induction false} RunStaysWell(files: map<Text, Text>, rows: seq<Row>, dir: Text, events: seq<Event>,
                                        all: seq<Event>)
    requires Flawless(all) && events <= all
    ensures Well(Run(Start(files, rows), dir, events), all)
  {
    if events != [] {
      var last := |events| - 1;
      assert events[..last] <= all && events[last] == all[last];
      RunStaysWell(files, rows, dir, events[..last], all);
      StepStaysWell(Run(Start(files, rows), dir, events[..last]), dir, events[last], all);
    }
  }

  /** In a flawless run no error is ever recorded, and every record the writer took off its channel has been appended,
      in order. */
  lemma FlawlessRun(files: map<Text, Text>, rows: seq<Row>, dir: Text, events: seq<Event>)
    requires Flawless(events)
    ensures var s := Run(Start(files, rows), dir, events);
      && s.writeErr.None? && s.index.err.None?
      && |s.appended| + |s.queue| == |s.accepted|
      && forall i | 0 <= i < |s.appended| :: s.appended[i].record == s.accepted[i]
  {
    var s := Run(Start(files, rows), dir, events);
    RunStaysWell(files, rows, dir, events, events);
    EveryRunIsSound(files, rows, dir, events);
    RecordsInOrder(s.appended);
    assert s.accepted[..|s.appended|] == Seqs.FlatMap(s.appended, RecordOf());
  }

  // ---------- Draining ----------

  function Whole(r: Record): Io {
    Io(true, true, true, true, if r.json.Some? then |r.json.value| + 1 else 0, true)
  }

  predicate Encodes(records: seq<Record>) {
    forall r | r in records :: r.json.Some?
  }

  /** The next step of a writer and an indexer that still have work. */
  function NextStep(s: State): Event
    requires s.queue != [] || s.holding.Some? || s.toIndex != []
  {
    if s.toIndex != [] then IndexNext(true)
    else if s.holding.Some? then HandOver
    else Take(Whole(s.queue[0]))
  }

  function Work(s: State): nat {
    3 * |s.queue| + (if s.holding.Some? then 2 else 0) + |s.toIndex|
  }

  predicate Calm(s: State) {
    s.writeErr.None? && s.index.err.None? && s.log.currentFile != Closed && Encodes(s.queue)
  }

  lemma NextStepWorks(s: State, dir: Text)
    requires Calm(s) && (s.queue != [] || s.holding.Some? || s.toIndex != [])
    ensures var t := Apply(s, dir, NextStep(s));
      Calm(t) && Work(t) < Work(s) && t.accepted == s.accepted && t.shut == s.shut
  {
    if s.toIndex == [] && s.holding.None? {
      AppendExactly(s.log, dir, s.queue[0], Whole(s.queue[0]));
    }
  }

  /** From a state without errors whose records encode, a run of the writer and the indexer alone empties both. */
  lemma {:induction false} Drains(s: State, dir: Text) returns (steps: seq<Event>)
    requires Calm(s)
    ensures var t := Run(s, dir, steps);
      && Calm(t) && t.queue == [] && t.holding.None? && t.toIndex == []
      && t.accepted == s.accepted && t.shut == s.shut
    decreases Work(s)
  {
    if s.queue == [] && s.holding.None? && s.toIndex == [] {
      return [];
    }
    var e := NextStep(s);
    NextStepWorks(s, dir);
    var later := Drains(Apply(s, dir, e), dir);
    RunOn(s, dir, [e], later);
    RunStep(s, dir, [], e);
    assert [] + [e] == [e];
    steps := [e] + later;
  }

  /** After any flawless run the log can be drained and closed: Close returns no error, and then every record accepted
      is in its file and in the index. */
  lemma FlawlessCloses(files: map<Text, Text>, rows: seq<Row>, dir: Text, events: seq<Event>)
    returns (closing: seq<Event>)
    requires Flawless(events)
    ensures var s, t := Run(Start(files, rows), dir, events), Run(Start(files, rows), dir, events + closing);
      && ClosedCleanly(t) && t.log.currentFile == Nil && t.accepted == s.accepted && |t.appended| == |s.accepted|
      && (forall i: nat | i < |t.accepted| && LastWithID(t.accepted, i) :: Indexes(t, dir, i))
  {
    var start := Start(files, rows);
    var s := Run(start, dir, events);
    RunStaysWell(files, rows, dir, events, events);
    forall r | r in s.queue ensures r.json.Some? {
      assert Submitted(r, events);
    }
    var drain := Drains(s, dir);
    closing := Closes(s, dir, drain);
    RunOn(start, dir, events, closing);
    CleanShutdownIndexesAll(files, rows, dir, events + closing);
  }

  /** Once drained, the writer is shut and its file closed. */
  lemma Closes(s: State, dir: Text, drain: seq<Event>) returns (closing: seq<Event>)
    requires var t := Run(s, dir, drain); Calm(t) && t.queue == [] && t.holding.None? && t.toIndex == []
    ensures var t := Run(s, dir, closing);
      ClosedCleanly(t) && t.log.currentFile == Nil && t.accepted == Run(s, dir, drain).accepted
  {
    var io := Io(true, true, true, true, 0, true);
    RunStep(s, dir, drain, Shut);
    RunStep(s, dir, drain + [Shut], CloseFile(io));
    CloseWorks(Run(s, dir, drain), dir, io);
    closing := (drain + [Shut]) + [CloseFile(io)];
  }

  lemma CloseWorks(s: State, dir: Text, io: Io)
    requires Calm(s) && s.queue == [] && s.holding.None? && s.toIndex == [] && io.syncOk && io.closeOk
    ensures var t := Apply(Apply(s, dir, Shut), dir, CloseFile(io));
      ClosedCleanly(t) && t.log.currentFile == Nil && t.accepted == s.accepted
  {
    CloseExactly(s.log, s.writeErr, io);
  }
}
