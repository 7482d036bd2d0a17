/** The audit index table (internal/storage/repos/audit_index.go): upserts, filters and keyset pages.
    Text columns are byte strings under SQLite's BINARY order; an empty text stands for NULL. */
module AuditIndexing {
  import opened Wrappers
  import opened Bytes
  import opened Timestamps
  import Base64
  import Seqs

  type Text = seq<byte>

  datatype Entry = Entry(
    requestID: Text, ts: Time, bridgeKeyID: Text, poolName: Text, upstreamID: Text, status: Text,
    costCents: int, filePath: Text, fileOffset: int, fileLength: int)

  /** A stored row: the instant is text. */
  datatype Row = Row(ts: Text, entry: Entry)

  function ToRow(e: Entry): Row {
    Row(Format(e.ts), e.(ts := ZERO_TIME))
  }

  function Scan(r: Row): Option<Entry> {
    match Parse(r.ts)
    case None => None
    case Some(t) => Some(r.entry.(ts := t))
  }

  lemma ScanReadsBack(e: Entry)
    ensures Scan(ToRow(e)) == Some(e)
  {
    FormatReads(e.ts);
  }

  // ---------- Upsert ----------

  function ID(r: Row): Text {
    r.entry.requestID
  }

  function Put(rows: seq<Row>, e: Entry): seq<Row> {
    if rows == [] then [ToRow(e)]
    else if ID(rows[0]) == e.requestID then [ToRow(e)] + rows[1..]
    else [rows[0]] + Put(rows[1..], e)
  }

  /** Put replaces the row with this id where it stands, or appends. */
  lemma {:induction false} PutAt(rows: seq<Row>, i: nat, e: Entry)
    requires i <= |rows| && forall k | 0 <= k < i :: ID(rows[k]) != e.requestID
    requires i < |rows| ==> ID(rows[i]) == e.requestID
    ensures Put(rows, e) == if i < |rows| then rows[i := ToRow(e)] else rows + [ToRow(e)]
  {
    if i > 0 {
      PutAt(rows[1..], i - 1, e);
    }
  }

  function Get(rows: seq<Row>, id: Text): Option<Row> {
    if rows == [] then None else if ID(rows[0]) == id then Some(rows[0]) else Get(rows[1..], id)
  }

  lemma {:induction false} GetAfterPut(rows: seq<Row>, e: Entry, id: Text)
    ensures Get(Put(rows, e), id) == if id == e.requestID then Some(ToRow(e)) else Get(rows, id)
  {
    if rows != [] && ID(rows[0]) != e.requestID {
      GetAfterPut(rows[1..], e, id);
    }
  }

  predicate Unique(rows: seq<Row>) {
    forall i, j | 0 <= i < j < |rows| :: ID(rows[i]) != ID(rows[j])
  }

  /** What Put stores: an id of its own, and a time text that scans back. */
  predicate Sane(rows: seq<Row>) {
    Unique(rows) && forall r | r in rows :: ID(r) != [] && Scan(r).Some? && ToRow(Scan(r).value) == r
  }

  lemma {:induction false} PutMembers(rows: seq<Row>, e: Entry)
    requires Unique(rows)
    ensures Unique(Put(rows, e))
    ensures forall r | r in Put(rows, e) :: r == ToRow(e) || (r in rows && ID(r) != e.requestID)
  {
    if rows != [] && ID(rows[0]) != e.requestID {
      PutMembers(rows[1..], e);
    }
  }

  lemma PutKeepsSane(rows: seq<Row>, e: Entry)
    requires Sane(rows) && e.requestID != []
    ensures Sane(Put(rows, e))
  {
    PutMembers(rows, e);
    ScanReadsBack(e);
  }

  // ---------- Order ----------

  predicate Less(a: Text, b: Text)
    decreases |a|
  {
    b != [] && (a == [] || a[0] < b[0] || (a[0] == b[0] && Less(a[1..], b[1..])))
  }

  lemma {:induction false} LessIsStrict(a: Text, b: Text)
    ensures !(Less(a, b) && Less(b, a))
    ensures Less(a, b) || Less(b, a) || a == b
    ensures !Less(a, a)
    decreases |a|
  {
    if a != [] {
      LessIsStrict(a[1..], a[1..]);
      if b != [] {
        LessIsStrict(a[1..], b[1..]);
        assert a == [a[0]] + a[1..] && b == [b[0]] + b[1..];
      }
    }
  }

  lemma {:induction false} LessIsTransitive(a: Text, b: Text, c: Text)
    requires Less(a, b) && Less(b, c)
    ensures Less(a, c)
    decreases |a|
  {
    if a != [] && a[0] == b[0] == c[0] {
      LessIsTransitive(a[1..], b[1..], c[1..]);
    }
  }

  /** The texts agree on their first k bytes, and then a ends or has the smaller byte. */
  predicate SmallerAt(a: Text, b: Text, k: nat) {
    k <= |a| && k < |b| && a[..k] == b[..k] && (k == |a| || a[k] < b[k])
  }

  lemma SmallerLater(a: Text, b: Text, k: nat)
    requires a != [] && b != [] && a[0] == b[0]
    ensures SmallerAt(a[1..], b[1..], k) <==> SmallerAt(a, b, k + 1)
  {
    if k < |a| && k < |b| {
      assert a[..k + 1] == [a[0]] + a[1..][..k] && b[..k + 1] == [b[0]] + b[1..][..k];
      assert a[..k + 1][1..] == a[1..][..k] && b[..k + 1][1..] == b[1..][..k];
    }
  }

  /** Byte order: at the first difference the smaller byte, or the end, comes first. */
  lemma {:induction false} LessIsByteOrder(a: Text, b: Text)
    ensures Less(a, b) <==> exists k: nat :: SmallerAt(a, b, k)
    decreases |a|
  {
    if a == [] || b == [] || a[0] != b[0] {
      assert a[..0] == b[..0];
      assert Less(a, b) ==> SmallerAt(a, b, 0);
      return;
    }
    LessIsByteOrder(a[1..], b[1..]);
    if Less(a, b) {
      var k: nat :| SmallerAt(a[1..], b[1..], k);
      SmallerLater(a, b, k);
    }
    if k: nat :| SmallerAt(a, b, k) {
      SmallerLater(a, b, k - 1);
    }
  }

  /** ORDER BY ts DESC, request_id DESC: whether r stands before (ts, id). */
  predicate Precedes(ts: Text, id: Text, r: Row) {
    Less(r.ts, ts) || (r.ts == ts && Less(ID(r), id))
  }

  predicate First(r: Row, s: Row) {
    Precedes(r.ts, ID(r), s)
  }

  lemma FirstIsOrder(r: Row, s: Row)
    ensures !(First(r, s) && First(s, r)) && !First(r, r)
    ensures First(r, s) || First(s, r) || ID(r) == ID(s)
  {
    LessIsStrict(r.ts, s.ts);
    LessIsStrict(ID(r), ID(s));
    LessIsStrict(ID(r), ID(r));
    LessIsStrict(r.ts, r.ts);
  }

  lemma FirstIsTransitive(r: Row, s: Row, t: Row)
    requires First(r, s) && First(s, t)
    ensures First(r, t)
  {
    if Less(s.ts, r.ts) && Less(t.ts, s.ts) {
      LessIsTransitive(t.ts, s.ts, r.ts);
    } else if s.ts == r.ts && t.ts == s.ts {
      LessIsTransitive(ID(t), ID(s), ID(r));
    }
  }

  predicate Descending(s: seq<Row>) {
    forall i, j | 0 <= i < j < |s| :: First(s[i], s[j])
  }

  function Insert(r: Row, s: seq<Row>): seq<Row> {
    if s == [] || First(r, s[0]) then [r] + s else [s[0]] + Insert(r, s[1..])
  }

  function Sort(rows: seq<Row>): seq<Row> {
    if rows == [] then [] else Insert(rows[0], Sort(rows[1..]))
  }

  lemma {:induction false} InsertMembers(r: Row, s: seq<Row>)
    ensures multiset(Insert(r, s)) == multiset(s) + multiset{r}
  {
    if s != [] && !First(r, s[0]) {
      InsertMembers(r, s[1..]);
      assert s == [s[0]] + s[1..];
    }
  }

  lemma {:induction false} SortMembers(rows: seq<Row>)
    ensures multiset(Sort(rows)) == multiset(rows)
  {
    if rows != [] {
      SortMembers(rows[1..]);
      InsertMembers(rows[0], Sort(rows[1..]));
      assert rows == [rows[0]] + rows[1..];
    }
  }

  lemma InSort(rows: seq<Row>, r: Row)
    ensures r in Sort(rows) <==> r in rows
  {
    SortMembers(rows);
    assert r in multiset(rows) <==> r in rows;
    assert r in multiset(Sort(rows)) <==> r in Sort(rows);
  }

  lemma {:induction false} InsertDescends(r: Row, s: seq<Row>)
    requires Descending(s) && forall x | x in s :: ID(x) != ID(r)
    ensures Descending(Insert(r, s))
    ensures forall x | x in Insert(r, s) :: x == r || x in s
  {
    if s != [] {
      var rest := s[1..];
      if First(r, s[0]) {
        forall j | 0 < j < |s| ensures First(r, s[j]) {
          FirstIsTransitive(r, s[0], s[j]);
        }
      } else {
        assert s[0] in s;
        FirstIsOrder(r, s[0]);
        InsertDescends(r, rest);
        forall x | x in Insert(r, rest) ensures First(s[0], x) {
          if x != r {
            var j :| 0 <= j < |rest| && rest[j] == x;
            assert s[j + 1] == x;
          }
        }
      }
    }
  }

  lemma {:induction false} SortDescends(rows: seq<Row>)
    requires Unique(rows)
    ensures Descending(Sort(rows))
  {
    if rows != [] {
      SortDescends(rows[1..]);
      forall x | x in Sort(rows[1..]) ensures ID(x) != ID(rows[0]) {
        InSort(rows[1..], x);
        var j :| 0 <= j < |rows[1..]| && rows[1..][j] == x;
        assert rows[j + 1] == x;
      }
      InsertDescends(rows[0], Sort(rows[1..]));
    }
  }

  // ---------- Filters ----------

  datatype Column = RequestID | BridgeKey | Pool | Upstream | Status

  function Value(c: Column, r: Row): Text {
    match c
    case RequestID => r.entry.requestID
    case BridgeKey => r.entry.bridgeKeyID
    case Pool => r.entry.poolName
    case Upstream => r.entry.upstreamID
    case Status => r.entry.status
  }

  datatype Condition =
    | AtLeast(ts: Text)
    | AtMost(ts: Text)
    | Equals(column: Column, value: Text)
    | After(ts: Text, id: Text)

  predicate Holds(c: Condition, r: Row) {
    match c
    case AtLeast(ts) => !Less(r.ts, ts)
    case AtMost(ts) => !Less(ts, r.ts)
    case Equals(column, value) => Value(column, r) == value
    case After(ts, id) => Precedes(ts, id, r)
  }

  predicate Meets(r: Row, where: seq<Condition>) {
    forall c | c in where :: Holds(c, r)
  }

  function Keep(rows: seq<Row>, where: seq<Condition>): seq<Row> {
    if rows == [] then []
    else if Meets(rows[0], where) then [rows[0]] + Keep(rows[1..], where)
    else Keep(rows[1..], where)
  }

  function Take<T>(s: seq<T>, n: nat): seq<T> {
    if |s| <= n then s else s[..n]
  }

  /** SELECT ... WHERE ... ORDER BY ts DESC, request_id DESC LIMIT n. */
  function Select(rows: seq<Row>, where: seq<Condition>, n: nat): seq<Row> {
    Take(Sort(Keep(rows, where)), n)
  }

  // ---------- Cursors ----------

  datatype QueryError = InvalidCursor | InvalidCursorTime | InvalidTime

  function CursorText(ts: Time, id: Text): Text {
    Format(ts) + [LF] + id
  }

  function EncodeCursor(e: Entry): string {
    Base64.Encode(Base64.RawURLEncoding, CursorText(e.ts, e.requestID))
  }

  function DecodeCursor(cursor: string): Result<(Time, Text), QueryError> {
    var raw := Base64.Decode(Base64.RawURLEncoding, cursor);
    if raw.None? then Err(InvalidCursor)
    else
      var n := LineLength(raw.value);
      if n == |raw.value| || raw.value[n + 1..] == [] then Err(InvalidCursor)
      else
        var ts := Parse(raw.value[..n]);
        if ts.None? then Err(InvalidCursorTime) else Ok((ts.value, raw.value[n + 1..]))
  }

  /** A cursor decodes to the position it was made from, exactly when the id is not empty. */
  lemma CursorReads(e: Entry)
    ensures DecodeCursor(EncodeCursor(e)) == if e.requestID == [] then Err(InvalidCursor) else Ok((e.ts, e.requestID))
    ensures EncodeCursor(e) != ""
  {
    var raw, text := CursorText(e.ts, e.requestID), Format(e.ts);
    Base64.RoundTrip(Base64.RawURLEncoding, raw);
    FormatIsOneLine(e.ts);
    LineLengthOf(text, e.requestID);
    assert raw[..|text|] == text && raw[|text| + 1..] == e.requestID;
    FormatReads(e.ts);
  }

  // ---------- Pages ----------

  datatype Query = Query(
    from: Time, to: Time, requestID: Text, bridgeKeyID: Text, poolName: Text, upstreamID: Text, status: Text,
    limit: int, cursor: string)

  datatype Page = Page(entries: seq<Entry>, nextCursor: string)

  function Limit(q: Query): (n: nat)
    ensures 1 <= n <= 500
  {
    if q.limit <= 0 then 100 else if q.limit > 500 then 500 else q.limit
  }

  function WhenSet(column: Column, value: Text): seq<Condition> {
    if value == [] then [] else [Equals(column, value)]
  }

  function Filters(q: Query): seq<Condition> {
    (if q.from == ZERO_TIME then [] else [AtLeast(Format(q.from))])
    + (if q.to == ZERO_TIME then [] else [AtMost(Format(q.to))])
    + WhenSet(RequestID, q.requestID) + WhenSet(BridgeKey, q.bridgeKeyID) + WhenSet(Pool, q.poolName)
    + WhenSet(Upstream, q.upstreamID) + WhenSet(Status, q.status)
  }

  function ScanAll(rows: seq<Row>): Option<seq<Entry>> {
    if rows == [] then Some([])
    else
      var first, rest := Scan(rows[0]), ScanAll(rows[1..]);
      if first.None? || rest.None? then None else Some([first.value] + rest.value)
  }

  /** The scan of a whole list whose rows so far gave these entries. */
  predicate ScansOn(whole: Option<seq<Entry>>, entries: seq<Entry>, rest: seq<Row>) {
    whole == if ScanAll(rest).None? then None else Some(entries + ScanAll(rest).value)
  }

  lemma ScanStarts(rows: seq<Row>)
    ensures ScansOn(ScanAll(rows), [], rows[0..])
  {
    assert rows[0..] == rows;
    assert ScanAll(rows).Some? ==> [] + ScanAll(rows).value == ScanAll(rows).value;
  }

  lemma ScanStep(whole: Option<seq<Entry>>, entries: seq<Entry>, rest: seq<Row>)
    requires rest != [] && ScansOn(whole, entries, rest)
    ensures var e := Scan(rest[0]);
      if e.None? then whole == None else ScansOn(whole, entries + [e.value], rest[1..])
  {
    if Scan(rest[0]).Some? && ScanAll(rest[1..]).Some? {
      Seqs.Assoc(entries, [Scan(rest[0]).value], ScanAll(rest[1..]).value);
    }
  }

  function MakePage(selected: seq<Row>, limit: nat): Result<Page, QueryError>
    requires limit > 0
  {
    var out := ScanAll(selected);
    if out.None? then Err(InvalidTime)
    else if |out.value| > limit then Ok(Page(out.value[..limit], EncodeCursor(out.value[limit - 1])))
    else Ok(Page(out.value, ""))
  }

  /** The filters, and after a cursor also its position. */
  function Where(q: Query): Result<seq<Condition>, QueryError> {
    if q.cursor == "" then Ok(Filters(q))
    else
      match DecodeCursor(q.cursor)
      case Err(e) => Err(e)
      case Ok(at) => Ok(Filters(q) + [After(Format(at.0), at.1)])
  }

  function QueryResult(rows: seq<Row>, q: Query): Result<Page, QueryError> {
    match Where(q)
    case Err(e) => Err(e)
    case Ok(where) => MakePage(Select(rows, where, Limit(q) + 1), Limit(q))
  }

  class AuditIndex {
    var rows: seq<Row>

    constructor (rows: seq<Row>)
      ensures this.rows == rows
    {
      this.rows := rows;
    }

    method Upsert(e: Entry)
      modifies this
      ensures rows == Put(old(rows), e)
    {
      var i := 0;
      while i < |rows| && ID(rows[i]) != e.requestID
        invariant i <= |rows| && forall k | 0 <= k < i :: ID(rows[k]) != e.requestID
      {
        i := i + 1;
      }
      PutAt(rows, i, e);
      if i < |rows| {
        rows := rows[i := ToRow(e)];
      } else {
        rows := rows + [ToRow(e)];
      }
    }

    method Conditions(q: Query) returns (where: seq<Condition>)
      ensures where == Filters(q)
    {
      where := [];
      if q.from != ZERO_TIME {
        where := where + [AtLeast(Format(q.from))];
      }
      if q.to != ZERO_TIME {
        where := where + [AtMost(Format(q.to))];
      }
      where := where + WhenSet(RequestID, q.requestID);
      where := where + WhenSet(BridgeKey, q.bridgeKeyID);
      where := where + WhenSet(Pool, q.poolName);
      where := where + WhenSet(Upstream, q.upstreamID);
      where := where + WhenSet(Status, q.status);
    }

    method ConditionsAfter(q: Query) returns (where: Result<seq<Condition>, QueryError>)
      ensures where == Where(q)
    {
      var conditions := Conditions(q);
      if q.cursor != "" {
        var at := DecodeCursor(q.cursor);
        if at.Err? {
          return Err(at.error);
        }
        conditions := conditions + [After(Format(at.value.0), at.value.1)];
      }
      return Ok(conditions);
    }

    method ScanRows(selected: seq<Row>) returns (out: Option<seq<Entry>>)
      ensures out == ScanAll(selected)
    {
      var entries: seq<Entry> := [];
      ScanStarts(selected);
      for i := 0 to |selected|
        invariant ScansOn(ScanAll(selected), entries, selected[i..])
      {
        ScanStep(ScanAll(selected), entries, selected[i..]);
        assert selected[i..][1..] == selected[i + 1..];
        var e := Scan(selected[i]);
        if e.None? {
          return None;
        }
        entries := entries + [e.value];
      }
      assert selected[|selected|..] == [] && entries + [] == entries;
      return Some(entries);
    }

    method Paginate(selected: seq<Row>, limit: nat) returns (page: Result<Page, QueryError>)
      requires limit > 0
      ensures page == MakePage(selected, limit)
    {
      var out := ScanRows(selected);
      if out.None? {
        return Err(InvalidTime);
      }
      if |out.value| > limit {
        return Ok(Page(out.value[..limit], EncodeCursor(out.value[limit - 1])));
      }
      return Ok(Page(out.value, ""));
    }

    method ClampLimit(asked: int) returns (limit: nat)
      ensures limit == if asked <= 0 then 100 else if asked > 500 then 500 else asked
    {
      var l := asked;
      if l <= 0 {
        l := 100;
      }
      if l > 500 {
        l := 500;
      }
      limit := l;
    }

    method RunQuery(q: Query) returns (page: Result<Page, QueryError>)
      ensures page == QueryResult(rows, q)
    {
      var limit := ClampLimit(q.limit);
      assert limit == Limit(q);
      var where := ConditionsAfter(q);
      if where.Err? {
        return Err(where.error);
      }
      page := Paginate(Select(rows, where.value, limit + 1), limit);
    }
  }
}
