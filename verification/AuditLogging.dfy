/** The audit log (internal/audit/writer.go and index.go): a writer that appends records to a file per day, and an
    indexer that stores where each line lies. How each system call goes is given with the record. */
module AuditLogging {
  import opened Wrappers
  import opened Bytes
  import opened Timestamps
  import opened AuditIndexing

  const WRITER_BUFFER := 1024

  // "/" and ".jsonl"
  const SLASH: byte := 47
  const SUFFIX: Text := [46, 106, 115, 111, 110, 108]

  /** `json` is the record's JSON text, unless encoding it fails. */
  datatype Record = Record(
    ts: Time, requestID: Text, bridgeKeyID: Text, modelAlias: Text, upstreamID: Text, status: Text,
    costCents: int, json: Option<Text>)

  datatype Indexed = Indexed(record: Record, filePath: Text, fileOffset: nat, fileLength: nat, line: Text)

  datatype WriteError = SyncFailed | CloseFailed | OpenFailed | SeekFailed | MarshalFailed | WriteFailed | ShortWrite

  /** The outcome of the system calls of one append; a write puts at most `written` bytes of the line. */
  datatype Io = Io(syncOk: bool, closeOk: bool, openOk: bool, seekOk: bool, written: nat, writeOk: bool)

  /** The current file: none yet, open, or a handle that was closed while a day switch failed. */
  datatype Handle = Nil | Open | Closed

  datatype Log = Log(files: map<Text, Text>, currentDay: Text, currentFile: Handle)

  function Stamp(r: Record, now: Time): Record {
    if r.ts == ZERO_TIME then r.(ts := now) else r
  }

  function Path(dir: Text, day: Text): Text {
    dir + [SLASH] + day + SUFFIX
  }

  function Content(files: map<Text, Text>, path: Text): Text {
    if path in files then files[path] else []
  }

  // ---------- The writer, on values ----------

  /** The current file fits, or is synced and closed and the day's file opened. */
  function OpenDay(log: Log, dir: Text, day: Text, io: Io): (Log, Option<WriteError>) {
    if log.currentFile != Nil && log.currentDay == day then (log, None)
    else if log.currentFile == Closed || (log.currentFile == Open && !io.syncOk) then (log, Some(SyncFailed))
    else if log.currentFile == Open && !io.closeOk then (log.(currentFile := Closed), Some(CloseFailed))
    else
      var closed := if log.currentFile == Open then log.(currentFile := Closed) else log;
      if !io.openOk then (closed, Some(OpenFailed))
      else
        var path := Path(dir, day);
        (Log(log.files[path := Content(log.files, path)], day, Open), None)
  }

  function Line(json: Text): Text {
    json + [LF]
  }

  /** Append the record's line to the open file of its day. */
  function WriteLine(log: Log, dir: Text, r: Record, io: Io): (Log, Result<Indexed, WriteError>) {
    var path := Path(dir, DateText(r.ts));
    var before := Content(log.files, path);
    if log.currentFile != Open || !io.seekOk then (log, Err(SeekFailed))
    else if r.json.None? then (log, Err(MarshalFailed))
    else
      var line := Line(r.json.value);
      var n := if io.written < |line| then io.written else |line|;
      var after := log.(files := log.files[path := before + line[..n]]);
      if !io.writeOk then (after, Err(WriteFailed))
      else if n != |line| then (after, Err(ShortWrite))
      else (after, Ok(Indexed(r, path, |before|, |line|, line)))
  }

  function Append(log: Log, dir: Text, r: Record, io: Io): (Log, Result<Indexed, WriteError>) {
    var opened_ := OpenDay(log, dir, DateText(r.ts), io);
    if opened_.1.Some? then (opened_.0, Err(opened_.1.value)) else WriteLine(opened_.0, dir, r, io)
  }

  /** The first error stays. */
  function Sticky<E>(err: Option<E>, e: Option<E>): Option<E> {
    if err.Some? then err else e
  }

  datatype Job = Job(record: Record, io: Io)

  datatype Writing = Writing(log: Log, err: Option<WriteError>, enqueued: seq<Indexed>)

  function RunWriter(w: Writing, dir: Text, jobs: seq<Job>): Writing
    decreases |jobs|
  {
    if jobs == [] then w
    else
      var a := Append(w.log, dir, jobs[0].record, jobs[0].io);
      var next := match a.1
        case Ok(x) => Writing(a.0, w.err, w.enqueued + [x])
        case Err(e) => Writing(a.0, Sticky(w.err, Some(e)), w.enqueued);
      RunWriter(next, dir, jobs[1..])
  }

  function CloseLog(log: Log, err: Option<WriteError>, io: Io): (Log, Option<WriteError>) {
    if log.currentFile == Nil then (log, err)
    else
      var open := log.currentFile == Open;
      var synced := Sticky(err, if open && io.syncOk then None else Some(SyncFailed));
      (log.(currentFile := Nil), Sticky(synced, if open && io.closeOk then None else Some(CloseFailed)))
  }

  // ---------- The indexer, on values ----------

  function EntryOf(x: Indexed): Entry {
    Entry(x.record.requestID, x.record.ts, x.record.bridgeKeyID, x.record.modelAlias, x.record.upstreamID,
          x.record.status, x.record.costCents, x.filePath, x.fileOffset, x.fileLength)
  }

  datatype Stored = Stored(item: Indexed, dbOk: bool)

  datatype Indexing = Indexing(rows: seq<Row>, err: Option<()>)

  function IndexOne(i: Indexing, s: Stored): Indexing {
    if s.dbOk then i.(rows := Put(i.rows, EntryOf(s.item))) else i.(err := Some(()))
  }

  function RunIndexer(i: Indexing, items: seq<Stored>): Indexing
    decreases |items|
  {
    if items == [] then i else RunIndexer(IndexOne(i, items[0]), items[1..])
  }

  // ---------- The objects ----------

  class Writer {
    const dir: Text
    var files: map<Text, Text>
    var currentDay: Text
    var currentFile: Handle
    var err: Option<WriteError>

    ghost function Contents(): Log
      reads this
    {
      Log(files, currentDay, currentFile)
    }

    constructor (dir: Text, files: map<Text, Text>)
      ensures this.dir == dir && Contents() == Log(files, [], Nil) && err == None
    {
      this.dir, this.files, currentDay, currentFile, err := dir, files, [], Nil, None;
    }

    method SwitchDay(day: Text, io: Io) returns (failure: Option<WriteError>)
      modifies this
      ensures (Contents(), failure) == OpenDay(old(Contents()), dir, day, io)
      ensures err == old(err)
    {
      if currentFile != Nil && currentDay == day {
        return None;
      }
      if currentFile != Nil {
        if currentFile == Closed || !io.syncOk {
          return Some(SyncFailed);
        }
        currentFile := Closed;
        if !io.closeOk {
          return Some(CloseFailed);
        }
      }
      if !io.openOk {
        return Some(OpenFailed);
      }
      var path := Path(dir, day);
      files := files[path := Content(files, path)];
      currentDay := day;
      currentFile := Open;
      return None;
    }

    method AppendRecord(r: Record, io: Io) returns (indexed: Result<Indexed, WriteError>)
      modifies this
      ensures (Contents(), indexed) == Append(old(Contents()), dir, r, io)
      ensures err == old(err)
    {
      var day := DateText(r.ts);
      var failure := SwitchDay(day, io);
      if failure.Some? {
        return Err(failure.value);
      }
      if currentFile != Open || !io.seekOk {
        return Err(SeekFailed);
      }
      var path := Path(dir, day);
      var offset := |Content(files, path)|;
      if r.json.None? {
        return Err(MarshalFailed);
      }
      var line := r.json.value + [LF];
      var n := if io.written < |line| then io.written else |line|;
      files := files[path := Content(files, path) + line[..n]];
      if !io.writeOk {
        return Err(WriteFailed);
      }
      if n != |line| {
        return Err(ShortWrite);
      }
      return Ok(Indexed(r, path, offset, |line|, line));
    }

    method SetErr(e: WriteError)
      modifies `err
      ensures err == Sticky(old(err), Some(e))
    {
      if err.None? {
        err := Some(e);
      }
    }

    /** The loop over the channel; what it returns went to the indexer, in order. */
    method Run(jobs: seq<Job>) returns (enqueued: seq<Indexed>)
      modifies this
      ensures Writing(Contents(), err, enqueued) == RunWriter(Writing(old(Contents()), old(err), []), dir, jobs)
    {
      enqueued := [];
      for k := 0 to |jobs|
        invariant RunWriter(Writing(Contents(), err, enqueued), dir, jobs[k..])
          == RunWriter(Writing(old(Contents()), old(err), []), dir, jobs)
      {
        assert jobs[k..][1..] == jobs[k + 1..];
        var indexed := AppendRecord(jobs[k].record, jobs[k].io);
        if indexed.Err? {
          SetErr(indexed.error);
        } else {
          enqueued := enqueued + [indexed.value];
        }
      }
    }

    method Close(io: Io) returns (e: Option<WriteError>)
      modifies this
      ensures (Contents(), err) == CloseLog(old(Contents()), old(err), io)
      ensures e == err
    {
      if currentFile != Nil {
        if err.None? && !(currentFile == Open && io.syncOk) {
          err := Some(SyncFailed);
        }
        if err.None? && !(currentFile == Open && io.closeOk) {
          err := Some(CloseFailed);
        }
        currentFile := Nil;
      }
      return err;
    }
  }

  class Indexer {
    const index: AuditIndex
    var err: Option<()>

    constructor (index: AuditIndex)
      ensures this.index == index && err == None
    {
      this.index, err := index, None;
    }

    method Run(items: seq<Stored>)
      modifies this, index
      ensures Indexing(index.rows, err) == RunIndexer(Indexing(old(index.rows), old(err)), items)
    {
      for k := 0 to |items|
        invariant RunIndexer(Indexing(index.rows, err), items[k..])
          == RunIndexer(Indexing(old(index.rows), old(err)), items)
      {
        assert items[k..][1..] == items[k + 1..];
        if items[k].dbOk {
          index.Upsert(EntryOf(items[k].item));
        } else {
          err := Some(());
        }
      }
    }
  }

  // ---------- A day switch that fails half-way ----------

  /** The day changes, the sync goes well, and then closing the old file or opening the new one fails. */
  predicate SwitchFails(log: Log, r: Record, io: Io) {
    log.currentFile == Open && log.currentDay != DateText(r.ts) && io.syncOk && !(io.closeOk && io.openOk)
  }

  /** An append leaves a dead handle exactly when it was dead before or its day switch fails half-way. */
  lemma DeadAfter(log: Log, dir: Text, r: Record, io: Io)
    ensures Append(log, dir, r, io).0.currentFile == Closed <==> log.currentFile == Closed || SwitchFails(log, r, io)
  {
  }

  /** From then on every append fails and nothing is written, whatever the system calls do. */
  lemma DeadStaysDead(log: Log, dir: Text, r: Record, io: Io)
    requires log.currentFile == Closed
    ensures Append(log, dir, r, io).0 == log && Append(log, dir, r, io).1.Err?
  {
  }

  lemma {:induction false} DeadRun(w: Writing, dir: Text, jobs: seq<Job>)
    requires w.log.currentFile == Closed
    ensures RunWriter(w, dir, jobs).log == w.log && RunWriter(w, dir, jobs).enqueued == w.enqueued
    decreases |jobs|
  {
    if jobs != [] {
      DeadStaysDead(w.log, dir, jobs[0].record, jobs[0].io);
      DeadRun(w.(err := Sticky(w.err, Some(Append(w.log, dir, jobs[0].record, jobs[0].io).1.error))), dir, jobs[1..]);
    }
  }
}
