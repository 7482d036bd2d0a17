/** The writer and the indexer running side by side: in every reachable state, whatever fails, each index row
    points at exactly its record's line; and a shutdown that reports no error has indexed everything. */
module AuditRuns {
  import opened Wrappers
  import opened Bytes
  import opened Timestamps
  import opened AuditIndexing
  import opened AuditLogging
  import Seqs

  /** `accepted` and `appended` are history: what Write took, and what was appended in full. */
  datatype State = State(
    log: Log, writeErr: Option<WriteError>, queue: seq<Record>, holding: Option<Indexed>,
    toIndex: seq<Indexed>, index: Indexing, accepted: seq<Record>, appended: seq<Indexed>, shut: bool)

  datatype Event =
    | Submit(record: Record, now: Time)
    | Take(io: Io)
    | HandOver
    | IndexNext(dbOk: bool)
    | Shut
    | CloseFile(io: Io)

  // ---------- The machine ----------

  /** The writer takes a record off its channel and appends it. */
  function TakeOne(s: State, dir: Text, io: Io): State
    requires s.queue != []
  {
    var a := Append(s.log, dir, s.queue[0], io);
    match a.1
    case Ok(x) => s.(log := a.0, queue := s.queue[1..], holding := Some(x), appended := s.appended + [x])
    case Err(e) => s.(log := a.0, queue := s.queue[1..], writeErr := Sticky(s.writeErr, Some(e)))
  }

  /** A step that is not enabled changes nothing: a full channel blocks its sender. */
  function Apply(s: State, dir: Text, e: Event): State {
    match e
    case Submit(record, now) =>
      if s.shut || |s.queue| >= WRITER_BUFFER then s
      else s.(queue := s.queue + [Stamp(record, now)], accepted := s.accepted + [Stamp(record, now)])
    case Take(io) => if s.holding.Some? || s.queue == [] then s else TakeOne(s, dir, io)
    case HandOver =>
      if s.holding.None? || |s.toIndex| >= WRITER_BUFFER then s
      else s.(toIndex := s.toIndex + [s.holding.value], holding := None)
    case IndexNext(dbOk) =>
      if s.toIndex == [] then s
      else s.(toIndex := s.toIndex[1..], index := IndexOne(s.index, Stored(s.toIndex[0], dbOk)))
    case Shut => s.(shut := true)
    case CloseFile(io) =>
      if !s.shut || s.queue != [] || s.holding.Some? then s
      else
        var c := CloseLog(s.log, s.writeErr, io);
        s.(log := c.0, writeErr := c.1)
  }

  function Start(files: map<Text, Text>, rows: seq<Row>): State {
    State(Log(files, [], Nil), None, [], None, [], Indexing(rows, None), [], [], false)
  }

  function Run(start: State, dir: Text, events: seq<Event>): State {
    if events == [] then start
    else Apply(Run(start, dir, events[..|events| - 1]), dir, events[|events| - 1])
  }

  // ---------- What points where ----------

  /** The item's path, offset and length cut exactly its record's line out of the file. */
  predicate Slices(files: map<Text, Text>, dir: Text, x: Indexed) {
    var file := Content(files, x.filePath);
    && x.filePath == Path(dir, DateText(x.record.ts))
    && x.record.json.Some? && x.line == Line(x.record.json.value)
    && x.fileOffset + x.fileLength <= |file|
    && file[x.fileOffset..x.fileOffset + x.fileLength] == x.line
  }

  /** The row scans to the record's fields, and its path, offset and length cut exactly the record's line out of
      the file. */
  predicate PointsAt(files: map<Text, Text>, dir: Text, row: Row, r: Record) {
    match Scan(row)
    case None => false
    case Some(e) =>
      var file := Content(files, e.filePath);
      && e.requestID == r.requestID && e.ts == r.ts && e.bridgeKeyID == r.bridgeKeyID && e.poolName == r.modelAlias
      && e.upstreamID == r.upstreamID && e.status == r.status && e.costCents == r.costCents
      && e.filePath == Path(dir, DateText(r.ts))
      && 0 <= e.fileOffset <= e.fileOffset + e.fileLength <= |file|
      && r.json.Some? && file[e.fileOffset..e.fileOffset + e.fileLength] == r.json.value + [LF]
  }

  lemma ItemPoints(files: map<Text, Text>, dir: Text, x: Indexed)
    requires Slices(files, dir, x)
    ensures PointsAt(files, dir, ToRow(EntryOf(x)), x.record)
  {
    ScanReadsBack(EntryOf(x));
  }

  predicate Grows(before: map<Text, Text>, after: map<Text, Text>) {
    forall path | path in before :: path in after && before[path] <= after[path]
  }

  lemma SlicesStay(before: map<Text, Text>, after: map<Text, Text>, dir: Text, x: Indexed)
    requires Grows(before, after) && Slices(before, dir, x)
    ensures Slices(after, dir, x)
  {
    var b, a := Content(before, x.filePath), Content(after, x.filePath);
    assert b <= a;
    assert a[x.fileOffset..x.fileOffset + x.fileLength] == b[x.fileOffset..x.fileOffset + x.fileLength];
  }

  /** The one place a file changes: its own end. */
  lemma AppendGrows(log: Log, dir: Text, r: Record, io: Io)
    ensures Grows(log.files, Append(log, dir, r, io).0.files)
  {
  }

  lemma AppendSlices(log: Log, dir: Text, r: Record, io: Io)
    ensures var a := Append(log, dir, r, io);
      a.1.Ok? ==>
        var x := a.1.value;
        x.record == r && Slices(a.0.files, dir, x)
        && x.fileOffset == |Content(log.files, x.filePath)|
        && (forall path ::
              Content(a.0.files, path) == Content(log.files, path) + if path == x.filePath then x.line else [])
  {
    var a := Append(log, dir, r, io);
    if a.1.Ok? {
      var x := a.1.value;
      var before := Content(log.files, x.filePath);
      assert x.line[..|x.line|] == x.line;
      assert (before + x.line)[|before|..|before| + |x.line|] == x.line;
    }
  }

  // ---------- What every run keeps ----------

  predicate Pointed(s: State, dir: Text) {
    forall x | x in s.appended :: Slices(s.log.files, dir, x) && x.record in s.accepted
  }

  /** Lines of one file do not overlap, and lie in the order they were appended. */
  predicate Apart(xs: seq<Indexed>) {
    forall i, j | 0 <= i < j < |xs| && xs[i].filePath == xs[j].filePath ::
      xs[i].fileOffset + xs[i].fileLength <= xs[j].fileOffset
  }

  function Pending(s: State): seq<Indexed> {
    s.toIndex + if s.holding.Some? then [s.holding.value] else []
  }

  /** Nothing appended is lost on the way to the table, and order is kept. */
  predicate Piped(s: State) {
    |Pending(s)| <= |s.appended| && s.appended[|s.appended| - |Pending(s)|..] == Pending(s)
  }

  function Done(s: State): seq<Indexed>
    requires Piped(s)
  {
    s.appended[..|s.appended| - |Pending(s)|]
  }

  /** A row was there at the start, or is the entry of an appended item. */
  predicate Rooted(s: State, rows: seq<Row>) {
    forall r | r in s.index.rows :: r in rows || exists x :: x in s.appended && r == ToRow(EntryOf(x))
  }

  predicate Queued(s: State) {
    |s.queue| <= |s.accepted| && s.accepted[|s.accepted| - |s.queue|..] == s.queue
  }

  predicate Inv(s: State, start: State, dir: Text) {
    Pointed(s, dir) && Apart(s.appended) && Piped(s) && Rooted(s, start.index.rows) && Queued(s)
    && Grows(start.log.files, s.log.files)
  }

  lemma {:induction false} PutRoots(rows: seq<Row>, e: Entry)
    ensures forall r | r in Put(rows, e) :: r in rows || r == ToRow(e)
  {
    if rows != [] && ID(rows[0]) != e.requestID {
      PutRoots(rows[1..], e);
    }
  }

  lemma TakeKeeps(s: State, start: State, dir: Text, io: Io)
    requires Inv(s, start, dir) && s.queue != [] && s.holding.None?
    ensures Inv(TakeOne(s, dir, io), start, dir)
  {
    var t, r := TakeOne(s, dir, io), s.queue[0];
    AppendGrows(s.log, dir, r, io);
    AppendSlices(s.log, dir, r, io);
    assert s.accepted[|s.accepted| - |s.queue|] == r;
    forall x | x in t.appended ensures Slices(t.log.files, dir, x) && x.record in t.accepted {
      if x in s.appended {
        SlicesStay(s.log.files, t.log.files, dir, x);
      }
    }
    TakeKeepsOrder(s, start, dir, io);
    assert t.accepted[|t.accepted| - |t.queue|..] == s.accepted[|s.accepted| - |s.queue|..][1..];
  }

  lemma AppendedApart(xs: seq<Indexed>, files: map<Text, Text>, dir: Text, x: Indexed)
    requires Apart(xs) && (forall y | y in xs :: Slices(files, dir, y)) && x.fileOffset == |Content(files, x.filePath)|
    ensures Apart(xs + [x])
  {
    forall i | 0 <= i < |xs| && xs[i].filePath == x.filePath
      ensures xs[i].fileOffset + xs[i].fileLength <= x.fileOffset
    {
      assert xs[i] in xs;
    }
  }

  lemma TailGrows<T>(s: seq<T>, n: nat, x: T)
    requires n <= |s|
    ensures (s + [x])[|s| - n..] == s[|s| - n..] + [x]
  {
  }

  lemma TakeKeepsOrder(s: State, start: State, dir: Text, io: Io)
    requires Inv(s, start, dir) && s.queue != [] && s.holding.None?
    ensures var t := TakeOne(s, dir, io);
      Apart(t.appended) && Piped(t) && Rooted(t, start.index.rows)
  {
    var t := TakeOne(s, dir, io);
    AppendSlices(s.log, dir, s.queue[0], io);
    if t.holding.Some? {
      var x := t.holding.value;
      AppendedApart(s.appended, s.log.files, dir, x);
      TailGrows(s.appended, |Pending(s)|, x);
      assert Pending(t) == Pending(s) + [x];
    }
  }

  lemma TailShrinks<T>(s: seq<T>, n: nat)
    requires 0 < n <= |s|
    ensures s[|s| - n..][1..] == s[|s| - (n - 1)..] && s[|s| - n..][0] == s[|s| - n]
  {
  }

  lemma IndexKeeps(s: State, start: State, dir: Text, dbOk: bool)
    requires Inv(s, start, dir) && s.toIndex != []
    ensures Inv(Apply(s, dir, IndexNext(dbOk)), start, dir)
  {
    IndexKeepsPipe(s, dir, dbOk);
    IndexKeepsRoots(s, start, dir, dbOk);
  }

  lemma IndexKeepsPipe(s: State, dir: Text, dbOk: bool)
    requires Piped(s) && s.toIndex != []
    ensures Piped(Apply(s, dir, IndexNext(dbOk)))
  {
    TailShrinks(s.appended, |Pending(s)|);
    assert Pending(s)[1..] == Pending(Apply(s, dir, IndexNext(dbOk)));
  }

  lemma IndexKeepsRoots(s: State, start: State, dir: Text, dbOk: bool)
    requires Piped(s) && Rooted(s, start.index.rows) && s.toIndex != []
    ensures Rooted(Apply(s, dir, IndexNext(dbOk)), start.index.rows)
  {
    PutRoots(s.index.rows, EntryOf(s.toIndex[0]));
    assert s.toIndex[0] == Pending(s)[0] == s.appended[|s.appended| - |Pending(s)|];
  }

  lemma StepKeeps(s: State, start: State, dir: Text, e: Event)
    requires Inv(s, start, dir)
    ensures Inv(Apply(s, dir, e), start, dir)
  {
    if Apply(s, dir, e) == s {
      return;
    }
    match e {
      case Submit(record, now) => SubmitKeeps(s, start, dir, record, now);
      case Take(io) => TakeKeeps(s, start, dir, io);
      case HandOver => HandOverKeeps(s, start, dir);
      case IndexNext(dbOk) => IndexKeeps(s, start, dir, dbOk);
      case _ => CloseKeeps(s, start, dir, e);
    }
  }

  lemma CloseKeeps(s: State, start: State, dir: Text, e: Event)
    requires Inv(s, start, dir) && (e.Shut? || e.CloseFile?)
    ensures Inv(Apply(s, dir, e), start, dir)
  {
    ClosingMovesNothing(s, dir, e);
    InvAsBefore(s, Apply(s, dir, e), start, dir);
  }

  lemma ClosingMovesNothing(s: State, dir: Text, e: Event)
    requires e.Shut? || e.CloseFile?
    ensures var t := Apply(s, dir, e);
      && t.log.files == s.log.files
      && t == s.(log := t.log, writeErr := t.writeErr, shut := t.shut)
  {
  }

  lemma InvAsBefore(s: State, t: State, start: State, dir: Text)
    requires Inv(s, start, dir) && t.log.files == s.log.files
    requires t == s.(log := t.log, writeErr := t.writeErr, shut := t.shut)
    ensures Inv(t, start, dir)
  {
  }

  lemma SubmitKeeps(s: State, start: State, dir: Text, record: Record, now: Time)
    requires Inv(s, start, dir)
    ensures Inv(Apply(s, dir, Submit(record, now)), start, dir)
  {
    var t := Apply(s, dir, Submit(record, now));
    if t != s {
      var r := Stamp(record, now);
      assert t.accepted[|t.accepted| - |t.queue|..] == s.accepted[|s.accepted| - |s.queue|..] + [r];
    }
  }

  lemma HandOverKeeps(s: State, start: State, dir: Text)
    requires Inv(s, start, dir)
    ensures Inv(Apply(s, dir, HandOver), start, dir)
  {
    assert Pending(Apply(s, dir, HandOver)) == Pending(s);
  }

  lemma {:induction false} EveryRunKeeps(files: map<Text, Text>, rows: seq<Row>, dir: Text, events: seq<Event>)
    ensures Inv(Run(Start(files, rows), dir, events), Start(files, rows), dir)
  {
    if events != [] {
      EveryRunKeeps(files, rows, dir, events[..|events| - 1]);
      StepKeeps(Run(Start(files, rows), dir, events[..|events| - 1]), Start(files, rows), dir, events[|events| - 1]);
    }
  }

  /** Every row of every reachable state that was not there at the start carries an accepted record's fields and
      points at exactly that record's line. */
  lemma RowsPointAtLines(files: map<Text, Text>, rows: seq<Row>, dir: Text, events: seq<Event>, row: Row)
    returns (r: Record)
    requires var s := Run(Start(files, rows), dir, events); row in s.index.rows && row !in rows
    ensures var s := Run(Start(files, rows), dir, events);
      r in s.accepted && PointsAt(s.log.files, dir, row, r)
  {
    var s := Run(Start(files, rows), dir, events);
    EveryRunKeeps(files, rows, dir, events);
    var x :| x in s.appended && row == ToRow(EntryOf(x));
    r := x.record;
    ItemPoints(s.log.files, dir, x);
  }

  lemma PointsStay(before: map<Text, Text>, after: map<Text, Text>, dir: Text, row: Row, r: Record)
    requires Grows(before, after) && PointsAt(before, dir, row, r)
    ensures PointsAt(after, dir, row, r)
  {
    var e := Scan(row).value;
    var b, a := Content(before, e.filePath), Content(after, e.filePath);
    assert b <= a;
    assert a[e.fileOffset..e.fileOffset + e.fileLength] == b[e.fileOffset..e.fileOffset + e.fileLength];
  }

  lemma StepKeepsRow(s: State, dir: Text, e: Event, row: Row, r: Record)
    requires PointsAt(s.log.files, dir, row, r)
    ensures PointsAt(Apply(s, dir, e).log.files, dir, row, r)
  {
    if e.Take? && s.queue != [] {
      AppendGrows(s.log, dir, s.queue[0], e.io);
    }
    PointsStay(s.log.files, Apply(s, dir, e).log.files, dir, row, r);
  }

  lemma PrefixStep(start: State, dir: Text, events: seq<Event>, n: nat)
    requires n < |events|
    ensures Run(start, dir, events[..n + 1]) == Apply(Run(start, dir, events[..n]), dir, events[n])
  {
    assert events[..n + 1] == events[..n] + [events[n]];
    RunStep(start, dir, events[..n], events[n]);
  }

  /** More events never invalidate what a row points at. */
  lemma {:induction false} LaterStepsKeepRows(start: State, dir: Text, events: seq<Event>, n: nat, row: Row, r: Record)
    requires n <= |events| && PointsAt(Run(start, dir, events[..n]).log.files, dir, row, r)
    ensures PointsAt(Run(start, dir, events).log.files, dir, row, r)
    decreases |events| - n
  {
    if n == |events| {
      assert events[..n] == events;
      return;
    }
    PrefixStep(start, dir, events, n);
    StepKeepsRow(Run(start, dir, events[..n]), dir, events[n], row, r);
    LaterStepsKeepRows(start, dir, events, n + 1, row, r);
  }

  // ---------- As long as no error is reported ----------

  function RecordOf(): Indexed -> seq<Record> {
    (x: Indexed) => [x.record]
  }

  function LineIn(path: Text): Indexed -> seq<byte> {
    (x: Indexed) => if x.filePath == path then x.line else []
  }

  function PutAll(rows: seq<Row>, items: seq<Indexed>): seq<Row> {
    if items == [] then rows
    else Put(PutAll(rows, items[..|items| - 1]), EntryOf(items[|items| - 1]))
  }

  /** Everything taken was appended in full, and nothing else is in the files. */
  ghost predicate Written(s: State, start: State)
    requires Queued(s)
  {
    s.writeErr.None? ==>
      && Seqs.FlatMap(s.appended, RecordOf()) == s.accepted[..|s.accepted| - |s.queue|]
      && forall path :: Content(s.log.files, path)
           == Content(start.log.files, path) + Seqs.FlatMap(s.appended, LineIn(path))
  }

  /** Everything handed on is in the table. */
  predicate Tabled(s: State, start: State)
    requires Piped(s)
  {
    s.index.err.None? ==> s.index.rows == PutAll(start.index.rows, Done(s))
  }

  lemma WrittenAsBefore(s: State, t: State, start: State)
    requires Queued(s) && Queued(t) && Written(s, start)
    requires t.appended == s.appended && t.log.files == s.log.files && (t.writeErr.None? ==> s.writeErr.None?)
    requires |t.accepted| - |t.queue| == |s.accepted| - |s.queue| && s.accepted <= t.accepted
    ensures Written(t, start)
  {
    var n := |s.accepted| - |s.queue|;
    assert t.accepted[..n] == s.accepted[..n];
  }

  lemma TakeAppends(s: State, dir: Text, io: Io)
    requires s.queue != [] && s.holding.None? && TakeOne(s, dir, io).holding.Some?
    ensures var t := TakeOne(s, dir, io);
      var x := t.holding.value;
      && t.appended == s.appended + [x] && x.record == s.queue[0]
      && forall path :: Content(t.log.files, path) == Content(s.log.files, path) + LineIn(path)(x)
  {
    AppendSlices(s.log, dir, s.queue[0], io);
  }

  lemma TakeKeepsWritten(s: State, start: State, dir: Text, io: Io)
    requires Queued(s) && Written(s, start) && s.queue != [] && s.holding.None?
    requires Queued(TakeOne(s, dir, io))
    ensures Written(TakeOne(s, dir, io), start)
  {
    var t := TakeOne(s, dir, io);
    if t.holding.Some? && s.writeErr.None? {
      TakeAppends(s, dir, io);
      TakeKeepsRecords(s, t, t.holding.value);
      TakeKeepsTiling(s, start, t, t.holding.value);
    }
  }

  lemma TakeKeepsRecords(s: State, t: State, x: Indexed)
    requires Queued(s) && s.queue != [] && x.record == s.queue[0]
    requires t.accepted == s.accepted && t.queue == s.queue[1..] && t.appended == s.appended + [x]
    requires Seqs.FlatMap(s.appended, RecordOf()) == s.accepted[..|s.accepted| - |s.queue|]
    ensures Seqs.FlatMap(t.appended, RecordOf()) == t.accepted[..|t.accepted| - |t.queue|]
  {
    Seqs.FlatMapAppend(s.appended, [x], RecordOf());
    Seqs.FlatMapOne(x, RecordOf());
    var n := |s.accepted| - |s.queue|;
    assert s.accepted[n] == s.accepted[n..][0];
    assert s.accepted[..n + 1] == s.accepted[..n] + [x.record];
  }

  lemma LinesGrow(before: seq<byte>, xs: seq<Indexed>, x: Indexed, path: Text)
    ensures before + Seqs.FlatMap(xs + [x], LineIn(path)) == (before + Seqs.FlatMap(xs, LineIn(path))) + LineIn(path)(x)
  {
    Seqs.FlatMapAppend(xs, [x], LineIn(path));
    Seqs.FlatMapOne(x, LineIn(path));
    Seqs.Assoc(before, Seqs.FlatMap(xs, LineIn(path)), LineIn(path)(x));
  }

  lemma TakeKeepsTiling(s: State, start: State, t: State, x: Indexed)
    requires t.appended == s.appended + [x]
    requires forall path :: Content(t.log.files, path) == Content(s.log.files, path) + LineIn(path)(x)
    requires forall path ::
      Content(s.log.files, path) == Content(start.log.files, path) + Seqs.FlatMap(s.appended, LineIn(path))
    ensures forall path ::
      Content(t.log.files, path) == Content(start.log.files, path) + Seqs.FlatMap(t.appended, LineIn(path))
  {
    forall path
      ensures Content(t.log.files, path) == Content(start.log.files, path) + Seqs.FlatMap(t.appended, LineIn(path))
    {
      LinesGrow(Content(start.log.files, path), s.appended, x, path);
    }
  }

  lemma IndexMovesOne(s: State, dir: Text, dbOk: bool)
    requires Piped(s) && s.toIndex != []
    requires Piped(Apply(s, dir, IndexNext(dbOk)))
    ensures Done(Apply(s, dir, IndexNext(dbOk))) == Done(s) + [s.toIndex[0]]
  {
    var n := |s.appended| - |Pending(s)|;
    TailShrinks(s.appended, |Pending(s)|);
    assert s.appended[n] == Pending(s)[0] == s.toIndex[0];
    assert s.appended[..n + 1] == s.appended[..n] + [s.appended[n]];
    assert |Pending(Apply(s, dir, IndexNext(dbOk)))| == |Pending(s)| - 1;
  }

  lemma PutAllStep(rows: seq<Row>, items: seq<Indexed>, x: Indexed)
    ensures PutAll(rows, items + [x]) == Put(PutAll(rows, items), EntryOf(x))
  {
    assert (items + [x])[..|items|] == items;
  }

  lemma IndexKeepsTabled(s: State, start: State, dir: Text, dbOk: bool)
    requires Piped(s) && Tabled(s, start) && s.toIndex != []
    requires Piped(Apply(s, dir, IndexNext(dbOk)))
    ensures Tabled(Apply(s, dir, IndexNext(dbOk)), start)
  {
    IndexMovesOne(s, dir, dbOk);
    PutAllStep(start.index.rows, Done(s), s.toIndex[0]);
  }

  lemma StepKeepsWritten(s: State, start: State, dir: Text, e: Event)
    requires Inv(s, start, dir) && Written(s, start) && Queued(Apply(s, dir, e))
    ensures Written(Apply(s, dir, e), start)
  {
    if e.Take? {
      if s.holding.None? && s.queue != [] {
        TakeKeepsWritten(s, start, dir, e.io);
      }
    } else {
      WrittenAsBefore(s, Apply(s, dir, e), start);
    }
  }

  lemma StepKeepsTabled(s: State, start: State, dir: Text, e: Event)
    requires Piped(s) && Tabled(s, start) && Piped(Apply(s, dir, e))
    ensures Tabled(Apply(s, dir, e), start)
  {
    if e.IndexNext? {
      if s.toIndex != [] {
        IndexKeepsTabled(s, start, dir, e.dbOk);
      }
    } else {
      OnlyIndexNextIndexes(s, dir, e);
      TabledAsBefore(s, Apply(s, dir, e), start);
    }
  }

  lemma OnlyIndexNextIndexes(s: State, dir: Text, e: Event)
    requires !e.IndexNext?
    ensures var t := Apply(s, dir, e);
      && t.index == s.index && s.appended <= t.appended
      && |t.appended| - |Pending(t)| == |s.appended| - |Pending(s)|
  {
  }

  lemma TabledAsBefore(s: State, t: State, start: State)
    requires Piped(s) && Tabled(s, start) && Piped(t)
    requires t.index == s.index && s.appended <= t.appended
    requires |t.appended| - |Pending(t)| == |s.appended| - |Pending(s)|
    ensures Tabled(t, start)
  {
    assert Done(t) == Done(s);
  }

  lemma {:induction false} EveryRunIsSound(files: map<Text, Text>, rows: seq<Row>, dir: Text, events: seq<Event>)
    ensures var s, start := Run(Start(files, rows), dir, events), Start(files, rows);
      Inv(s, start, dir) && Written(s, start) && Tabled(s, start)
  {
    var start := Start(files, rows);
    if events == [] {
      assert forall path :: Content(files, path) + [] == Content(files, path);
    } else {
      var s, e := Run(start, dir, events[..|events| - 1]), events[|events| - 1];
      EveryRunIsSound(files, rows, dir, events[..|events| - 1]);
      StepKeeps(s, start, dir, e);
      StepKeepsWritten(s, start, dir, e);
      StepKeepsTabled(s, start, dir, e);
    }
  }

  // ---------- Shutdown ----------

  /** Writer.Close and then Indexer.Close have returned, each without an error. */
  predicate ClosedCleanly(s: State) {
    s.shut && s.queue == [] && s.holding.None? && s.toIndex == [] && s.writeErr.None? && s.index.err.None?
  }

  predicate LastWithID(records: seq<Record>, i: nat)
    requires i < |records|
  {
    forall j | i < j < |records| :: records[j].requestID != records[i].requestID
  }

  lemma {:induction false} RecordsInOrder(xs: seq<Indexed>)
    ensures |Seqs.FlatMap(xs, RecordOf())| == |xs|
    ensures forall i | 0 <= i < |xs| :: Seqs.FlatMap(xs, RecordOf())[i] == xs[i].record
  {
    if xs != [] {
      RecordsInOrder(xs[1..]);
    }
  }

  lemma {:induction false} LastPutStays(rows: seq<Row>, xs: seq<Indexed>, i: nat)
    requires i < |xs| && forall j | i < j < |xs| :: xs[j].record.requestID != xs[i].record.requestID
    ensures Get(PutAll(rows, xs), xs[i].record.requestID) == Some(ToRow(EntryOf(xs[i])))
  {
    var n := |xs| - 1;
    GetAfterPut(PutAll(rows, xs[..n]), EntryOf(xs[n]), xs[i].record.requestID);
    if i < n {
      LastPutStays(rows, xs[..n], i);
    }
  }

  lemma NothingPending(s: State)
    requires Piped(s) && ClosedCleanly(s)
    ensures s.accepted[..|s.accepted| - |s.queue|] == s.accepted && Done(s) == s.appended
  {
  }

  lemma CleanRecords(s: State, start: State)
    requires Piped(s) && Queued(s) && Written(s, start) && ClosedCleanly(s)
    ensures |s.appended| == |s.accepted| && forall i | 0 <= i < |s.accepted| :: s.appended[i].record == s.accepted[i]
  {
    NothingPending(s);
    RecordsInOrder(s.appended);
  }

  /** The i-th accepted record has a row under its id, which points at its line. */
  predicate Indexes(s: State, dir: Text, i: nat)
    requires i < |s.accepted|
  {
    var row := Get(s.index.rows, s.accepted[i].requestID);
    row.Some? && PointsAt(s.log.files, dir, row.value, s.accepted[i])
  }

  lemma CleanRow(s: State, start: State, dir: Text, i: nat)
    requires Inv(s, start, dir) && Tabled(s, start) && ClosedCleanly(s)
    requires |s.appended| == |s.accepted| && forall k | 0 <= k < |s.accepted| :: s.appended[k].record == s.accepted[k]
    requires i < |s.accepted| && LastWithID(s.accepted, i)
    ensures Indexes(s, dir, i)
  {
    NothingPending(s);
    assert s.appended[i] in s.appended;
    forall j | i < j < |s.appended| ensures s.appended[j].record.requestID != s.appended[i].record.requestID {
      assert s.accepted[j].requestID != s.accepted[i].requestID;
    }
    LastPutStays(start.index.rows, s.appended, i);
    ItemPoints(s.log.files, dir, s.appended[i]);
  }

  /** A clean shutdown leaves, for every accepted record that no later one with its id replaces, a row that points
      at exactly its line; and each file holds what it held at the start and then its lines, end to end. */
  lemma CleanShutdownIndexesAll(files: map<Text, Text>, rows: seq<Row>, dir: Text, events: seq<Event>)
    requires ClosedCleanly(Run(Start(files, rows), dir, events))
    ensures var s := Run(Start(files, rows), dir, events);
      && |s.appended| == |s.accepted|
      && (forall i | 0 <= i < |s.accepted| :: s.appended[i].record == s.accepted[i])
      && (forall i: nat | i < |s.accepted| && LastWithID(s.accepted, i) :: Indexes(s, dir, i))
      && (forall path :: Content(s.log.files, path) == Content(files, path) + Seqs.FlatMap(s.appended, LineIn(path)))
  {
    var start := Start(files, rows);
    var s := Run(start, dir, events);
    EveryRunIsSound(files, rows, dir, events);
    CleanRecords(s, start);
    forall i: nat | i < |s.accepted| && LastWithID(s.accepted, i) ensures Indexes(s, dir, i) {
      CleanRow(s, start, dir, i);
    }
  }

  // ---------- A day switch that fails half-way ----------

  predicate NoCloseFile(events: seq<Event>) {
    forall e | e in events :: !e.CloseFile?
  }

  /** The n-th event makes the writer take a record whose day switch fails half-way. */
  predicate SwitchFailsAt(start: State, dir: Text, events: seq<Event>, n: nat)
    requires n < |events|
  {
    var s, e := Run(start, dir, events[..n]), events[n];
    e.Take? && s.holding.None? && s.queue != [] && SwitchFails(s.log, s.queue[0], e.io)
  }

  lemma DeadStep(s: State, dir: Text, e: Event)
    requires !e.CloseFile?
    ensures Apply(s, dir, e).log.currentFile == Closed <==>
      s.log.currentFile == Closed ||
      (e.Take? && s.holding.None? && s.queue != [] && SwitchFails(s.log, s.queue[0], e.io))
  {
    if e.Take? && s.queue != [] {
      DeadAfter(s.log, dir, s.queue[0], e.io);
    }
  }

  lemma DeadAtLast(start: State, dir: Text, events: seq<Event>)
    requires events != [] && NoCloseFile(events)
    ensures Run(start, dir, events).log.currentFile == Closed <==>
      Run(start, dir, events[..|events| - 1]).log.currentFile == Closed ||
      SwitchFailsAt(start, dir, events, |events| - 1)
  {
    var last := |events| - 1;
    assert events[last] in events;
    DeadStep(Run(start, dir, events[..last]), dir, events[last]);
  }

  lemma FailsAtEarlier(start: State, dir: Text, events: seq<Event>, m: nat, n: nat)
    requires n < m <= |events|
    ensures SwitchFailsAt(start, dir, events[..m], n) == SwitchFailsAt(start, dir, events, n)
  {
    assert events[..m][..n] == events[..n];
  }

  predicate SomeSwitchFails(start: State, dir: Text, events: seq<Event>) {
    exists n :: 0 <= n < |events| && SwitchFailsAt(start, dir, events, n)
  }

  lemma SomeSwitchFailsAtLast(start: State, dir: Text, events: seq<Event>)
    requires events != []
    ensures var last := |events| - 1;
      SomeSwitchFails(start, dir, events) <==>
        SomeSwitchFails(start, dir, events[..last]) || SwitchFailsAt(start, dir, events, last)
  {
    var last := |events| - 1;
    forall n | 0 <= n < last
      ensures SwitchFailsAt(start, dir, events[..last], n) == SwitchFailsAt(start, dir, events, n)
    {
      FailsAtEarlier(start, dir, events, last, n);
    }
  }

  /** Before the shutdown closes the file, the log holds a closed handle exactly when the day switch of some
      record taken has failed half-way. */
  lemma {:induction false} DeadExactly(files: map<Text, Text>, rows: seq<Row>, dir: Text, events: seq<Event>)
    requires NoCloseFile(events)
    ensures Run(Start(files, rows), dir, events).log.currentFile == Closed <==>
      SomeSwitchFails(Start(files, rows), dir, events)
  {
    if events == [] {
      return;
    }
    var start, last := Start(files, rows), |events| - 1;
    assert NoCloseFile(events[..last]) by {
      assert forall e | e in events[..last] :: e in events;
    }
    DeadExactly(files, rows, dir, events[..last]);
    DeadAtLast(start, dir, events);
    SomeSwitchFailsAtLast(start, dir, events);
  }

  /** Once a day switch has failed half-way, no run ever writes another byte before the shutdown: nothing more is
      appended, whatever is submitted and however the system calls go. */
  lemma {:induction false} DeadLogStaysDead(start: State, dir: Text, events: seq<Event>)
    requires start.log.currentFile == Closed && NoCloseFile(events)
    ensures Run(start, dir, events).log == start.log && Run(start, dir, events).appended == start.appended
  {
    if events != [] {
      var before, e := events[..|events| - 1], events[|events| - 1];
      assert forall x | x in before :: x in events;
      DeadLogStaysDead(start, dir, before);
      assert e in events;
      var s := Run(start, dir, before);
      if e.Take? && s.queue != [] {
        DeadStaysDead(s.log, dir, s.queue[0], e.io);
      }
    }
  }

  lemma RunStep(start: State, dir: Text, events: seq<Event>, e: Event)
    ensures Run(start, dir, events + [e]) == Apply(Run(start, dir, events), dir, e)
  {
    assert (events + [e])[..|events|] == events;
  }

  lemma {:induction false} RunOn(start: State, dir: Text, events: seq<Event>, later: seq<Event>)
    ensures Run(start, dir, events + later) == Run(Run(start, dir, events), dir, later)
  {
    if later == [] {
      assert events + later == events;
      return;
    }
    var before, e := later[..|later| - 1], later[|later| - 1];
    assert later == before + [e];
    RunOn(start, dir, events, before);
    Seqs.Assoc(events, before, [e]);
    RunStep(start, dir, events + before, e);
  }

  const WORKS := Io(true, true, true, true, 2, true)

  /** A record of some second of the given day of January 2024, whose JSON text is one byte. */
  function RecordOn(day: nat): Record
    requires 1 <= day <= 31
  {
    Record(DateTime(2024, 1, day, 0, 0, 1, 0), [day as byte], [], [], [], [], 0, Some([123]))
  }

  /** One record on the first of the month is written; the second's file cannot be opened. */
  function FailedSwitch(): seq<Event> {
    [Submit(RecordOn(1), ZERO_TIME), Take(WORKS), HandOver, Submit(RecordOn(2), ZERO_TIME),
     Take(WORKS.(openOk := false))]
  }

  lemma OtherDay()
    ensures DateText(RecordOn(1).ts) != DateText(RecordOn(2).ts)
  {
    DateReads(RecordOn(1).ts);
    DateReads(RecordOn(2).ts);
  }

  /** The log of a writer that has appended one record of the first of the month, and awaits its hand-over. */
  predicate FirstWritten(s: State) {
    && s.log.currentFile == Open && s.log.currentDay == DateText(RecordOn(1).ts)
    && s.queue == [] && s.holding.Some? && s.toIndex == [] && !s.shut
    && |s.appended| == 1 && s.appended[0].record == RecordOn(1)
  }

  lemma FirstDay(dir: Text)
    ensures FirstWritten(Apply(Apply(Start(map[], []), dir, Submit(RecordOn(1), ZERO_TIME)), dir, Take(WORKS)))
  {
    assert Stamp(RecordOn(1), ZERO_TIME) == RecordOn(1);
    assert |Line([123])| == 2;
  }

  lemma SecondDay(s: State, dir: Text)
    requires FirstWritten(s)
    ensures var t := Apply(Apply(Apply(s, dir, HandOver), dir, Submit(RecordOn(2), ZERO_TIME)), dir,
                           Take(WORKS.(openOk := false)));
      t.log.currentFile == Closed && t.appended == s.appended
  {
    OtherDay();
    assert Stamp(RecordOn(2), ZERO_TIME) == RecordOn(2);
    DeadAfter(s.log, dir, RecordOn(2), WORKS.(openOk := false));
  }

  lemma SwitchFailed(dir: Text)
    ensures var s := Run(Start(map[], []), dir, FailedSwitch());
      s.log.currentFile == Closed && |s.appended| == 1 && s.appended[0].record == RecordOn(1)
  {
    var start, events := Start(map[], []), FailedSwitch();
    FirstDay(dir);
    SecondDay(Apply(Apply(start, dir, events[0]), dir, events[1]), dir);
    RunFive(start, dir, events);
  }

  lemma RunFive(start: State, dir: Text, events: seq<Event>)
    requires |events| == 5
    ensures Run(start, dir, events) == Apply(Apply(Apply(Apply(Apply(start, dir, events[0]), dir, events[1]), dir,
      events[2]), dir, events[3]), dir, events[4])
  {
    assert events[..4][..3] == events[..3] && events[..3][..2] == events[..2] && events[..2][..1] == events[..1];
    assert Run(start, dir, events[..1][..0]) == start;
    assert Run(start, dir, events[..1]) == Apply(start, dir, events[0]);
    assert Run(start, dir, events[..2]) == Apply(Run(start, dir, events[..1]), dir, events[1]);
    assert Run(start, dir, events[..3]) == Apply(Run(start, dir, events[..2]), dir, events[2]);
    assert Run(start, dir, events[..4]) == Apply(Run(start, dir, events[..3]), dir, events[3]);
  }

  /** A fresh log after that run: whatever comes before the shutdown, only the first record is ever appended. */
  lemma LogStuckAfterFailedSwitch(dir: Text, later: seq<Event>)
    requires NoCloseFile(later)
    ensures var s := Run(Start(map[], []), dir, FailedSwitch() + later);
      |s.appended| == 1 && s.appended[0].record == RecordOn(1)
  {
    SwitchFailed(dir);
    RunOn(Start(map[], []), dir, FailedSwitch(), later);
    DeadLogStaysDead(Run(Start(map[], []), dir, FailedSwitch()), dir, later);
  }
}
