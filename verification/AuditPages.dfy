/** Following the cursors of a query visits every matching row once, in order. */
module AuditPages {
  import opened Wrappers
  import opened Timestamps
  import opened AuditIndexing
  import opened Bytes
  import Base64

  // ---------- Filtering and sorting commute ----------

  lemma {:induction false} KeepMembers(rows: seq<Row>, where: seq<Condition>, r: Row)
    ensures r in Keep(rows, where) <==> r in rows && Meets(r, where)
  {
    if rows != [] {
      KeepMembers(rows[1..], where, r);
      assert r in rows <==> r == rows[0] || r in rows[1..];
    }
  }

  lemma {:induction false} KeepUnique(rows: seq<Row>, where: seq<Condition>)
    requires Unique(rows)
    ensures Unique(Keep(rows, where))
  {
    if rows != [] {
      KeepUnique(rows[1..], where);
      var rest := Keep(rows[1..], where);
      forall j | 0 <= j < |rest| ensures ID(rest[j]) != ID(rows[0]) {
        KeepMembers(rows[1..], where, rest[j]);
        var k :| 0 <= k < |rows[1..]| && rows[1..][k] == rest[j];
        assert rows[k + 1] == rest[j];
      }
    }
  }

  lemma {:induction false} KeepInserted(r: Row, s: seq<Row>, where: seq<Condition>)
    requires Descending(s) && forall x | x in s :: ID(x) != ID(r)
    ensures Keep(Insert(r, s), where) == if Meets(r, where) then Insert(r, Keep(s, where)) else Keep(s, where)
  {
    if s != [] {
      var rest := s[1..];
      assert s[0] in s;
      if First(r, s[0]) {
        assert Insert(r, s)[1..] == s;
        forall x | x in Keep(s, where) ensures First(r, x) {
          KeepMembers(s, where, x);
          var j :| 0 <= j < |s| && s[j] == x;
          if j > 0 {
            FirstIsTransitive(r, s[0], s[j]);
          }
        }
        var k := Keep(s, where);
        assert k != [] ==> k[0] in k;
      } else {
        KeepInserted(r, rest, where);
        assert Insert(r, s)[1..] == Insert(r, rest);
      }
    }
  }

  lemma {:induction false} KeepSorted(rows: seq<Row>, where: seq<Condition>)
    requires Unique(rows)
    ensures Keep(Sort(rows), where) == Sort(Keep(rows, where))
  {
    if rows != [] {
      var rest := rows[1..];
      KeepSorted(rest, where);
      SortDescends(rest);
      forall x | x in Sort(rest) ensures ID(x) != ID(rows[0]) {
        InSort(rest, x);
        var j :| 0 <= j < |rest| && rest[j] == x;
        assert rows[j + 1] == x;
      }
      KeepInserted(rows[0], Sort(rest), where);
    }
  }

  lemma {:induction false} KeepTwice(rows: seq<Row>, where: seq<Condition>, c: Condition)
    ensures Keep(rows, where + [c]) == Keep(Keep(rows, where), [c])
  {
    if rows != [] {
      KeepTwice(rows[1..], where, c);
      assert Meets(rows[0], where + [c]) <==> Meets(rows[0], where) && Meets(rows[0], [c]);
      var rest := Keep(rows[1..], where);
      assert Meets(rows[0], where) ==> ([rows[0]] + rest)[1..] == rest;
    }
  }

  lemma {:induction false} KeepAll(s: seq<Row>, where: seq<Condition>)
    requires forall r | r in s :: Meets(r, where)
    ensures Keep(s, where) == s
  {
    if s != [] {
      assert s[0] in s;
      KeepAll(s[1..], where);
    }
  }

  lemma {:induction false} KeepSkips(s: seq<Row>, n: nat, where: seq<Condition>)
    requires n <= |s| && forall i | 0 <= i < n :: !Meets(s[i], where)
    ensures Keep(s, where) == Keep(s[n..], where)
  {
    if n > 0 {
      KeepSkips(s[1..], n - 1, where);
      assert s[1..][n - 1..] == s[n..];
    }
  }

  lemma MeetsOne(r: Row, c: Condition)
    ensures Meets(r, [c]) <==> Holds(c, r)
  {
    assert c in [c];
  }

  /** The cursor condition made from the n-th row keeps exactly what follows it. */
  lemma KeepsWhatFollows(s: seq<Row>, n: nat)
    requires Descending(s) && 0 < n <= |s|
    ensures Keep(s, [After(s[n - 1].ts, ID(s[n - 1]))]) == s[n..]
  {
    var last := s[n - 1];
    var where := [After(last.ts, ID(last))];
    forall i | 0 <= i < n ensures !Meets(s[i], where) {
      FirstIsOrder(s[i], last);
      MeetsOne(s[i], where[0]);
    }
    forall r | r in s[n..] ensures Meets(r, where) {
      MeetsOne(r, where[0]);
    }
    KeepSkips(s, n, where);
    KeepAll(s[n..], where);
  }

  // ---------- One page ----------

  /** All rows a query asks for, in page order. */
  function Listing(rows: seq<Row>, q: Query): seq<Row> {
    Sort(Keep(rows, Filters(q)))
  }

  /** The row passes every filter the query sets: not before its start, not after its end, and with its values. */
  predicate Matches(r: Row, q: Query) {
    && (q.from != ZERO_TIME ==> !Less(r.ts, Format(q.from)))
    && (q.to != ZERO_TIME ==> !Less(Format(q.to), r.ts))
    && (q.requestID != [] ==> ID(r) == q.requestID)
    && (q.bridgeKeyID != [] ==> r.entry.bridgeKeyID == q.bridgeKeyID)
    && (q.poolName != [] ==> r.entry.poolName == q.poolName)
    && (q.upstreamID != [] ==> r.entry.upstreamID == q.upstreamID)
    && (q.status != [] ==> r.entry.status == q.status)
  }

  lemma WhenSetMeets(r: Row, column: Column, value: Text)
    ensures Meets(r, WhenSet(column, value)) <==> value == [] || Value(column, r) == value
  {
    if value != [] {
      MeetsOne(r, Equals(column, value));
    }
  }

  lemma MeetsBoth(r: Row, a: seq<Condition>, b: seq<Condition>)
    ensures Meets(r, a + b) <==> Meets(r, a) && Meets(r, b)
  {
    assert forall c | c in a + b :: c in a || c in b;
    assert forall c | c in a :: c in a + b;
    assert forall c | c in b :: c in a + b;
  }

  lemma FiltersMatch(r: Row, q: Query)
    ensures Meets(r, Filters(q)) <==> Matches(r, q)
  {
    var from := if q.from == ZERO_TIME then [] else [AtLeast(Format(q.from))];
    var to := if q.to == ZERO_TIME then [] else [AtMost(Format(q.to))];
    var id, key := WhenSet(RequestID, q.requestID), WhenSet(BridgeKey, q.bridgeKeyID);
    var pool, upstream, status :=
      WhenSet(Pool, q.poolName), WhenSet(Upstream, q.upstreamID), WhenSet(Status, q.status);
    MeetsBoth(r, from, to);
    MeetsBoth(r, from + to, id);
    MeetsBoth(r, from + to + id, key);
    MeetsBoth(r, from + to + id + key, pool);
    MeetsBoth(r, from + to + id + key + pool, upstream);
    MeetsBoth(r, from + to + id + key + pool + upstream, status);
    WhenSetMeets(r, RequestID, q.requestID);
    WhenSetMeets(r, BridgeKey, q.bridgeKeyID);
    WhenSetMeets(r, Pool, q.poolName);
    WhenSetMeets(r, Upstream, q.upstreamID);
    WhenSetMeets(r, Status, q.status);
    RangeMeets(r, q, from, to);
  }

  lemma RangeMeets(r: Row, q: Query, from: seq<Condition>, to: seq<Condition>)
    requires from == if q.from == ZERO_TIME then [] else [AtLeast(Format(q.from))]
    requires to == if q.to == ZERO_TIME then [] else [AtMost(Format(q.to))]
    ensures Meets(r, from) <==> q.from == ZERO_TIME || !Less(r.ts, Format(q.from))
    ensures Meets(r, to) <==> q.to == ZERO_TIME || !Less(Format(q.to), r.ts)
  {
    if from != [] {
      MeetsOne(r, from[0]);
    }
    if to != [] {
      MeetsOne(r, to[0]);
    }
  }

  /** The listing holds exactly the rows of the table that match the query. */
  lemma ListedExactly(rows: seq<Row>, q: Query, r: Row)
    ensures r in Listing(rows, q) <==> r in rows && Matches(r, q)
  {
    InSort(Keep(rows, Filters(q)), r);
    KeepMembers(rows, Filters(q), r);
    FiltersMatch(r, q);
  }

  /** The cursor that stands after the first n rows of the listing. */
  function CursorAt(rows: seq<Row>, q: Query, n: nat): string
    requires n <= |Listing(rows, q)|
  {
    if n == 0 then ""
    else match Scan(Listing(rows, q)[n - 1]) { case Some(e) => EncodeCursor(e) case None => "" }
  }

  lemma ListingIsSane(rows: seq<Row>, q: Query)
    requires Sane(rows)
    ensures var all := Listing(rows, q);
      Descending(all) && forall r | r in all :: ID(r) != [] && Scan(r).Some? && ToRow(Scan(r).value) == r
  {
    KeepUnique(rows, Filters(q));
    SortDescends(Keep(rows, Filters(q)));
    forall r | r in Listing(rows, q) ensures r in rows {
      InSort(Keep(rows, Filters(q)), r);
      KeepMembers(rows, Filters(q), r);
    }
  }

  lemma SelectedFromCursor(rows: seq<Row>, q: Query, n: nat)
    requires Sane(rows) && 0 < n <= |Listing(rows, q)|
    ensures var last := Listing(rows, q)[n - 1];
      Sort(Keep(rows, Filters(q) + [After(last.ts, ID(last))])) == Listing(rows, q)[n..]
  {
    var all := Listing(rows, q);
    var c := After(all[n - 1].ts, ID(all[n - 1]));
    ListingIsSane(rows, q);
    KeepTwice(rows, Filters(q), c);
    KeepUnique(rows, Filters(q));
    KeepSorted(Keep(rows, Filters(q)), [c]);
    KeepsWhatFollows(all, n);
  }

  // ---------- Entries ----------

  function EntryOf(r: Row): Entry {
    match Scan(r) { case Some(e) => e case None => r.entry }
  }

  function Entries(rows: seq<Row>): (out: seq<Entry>)
    ensures |out| == |rows|
  {
    seq(|rows|, i requires 0 <= i < |rows| => EntryOf(rows[i]))
  }

  lemma {:induction false} ScansToEntries(rows: seq<Row>)
    requires forall r | r in rows :: Scan(r).Some?
    ensures ScanAll(rows) == Some(Entries(rows))
  {
    if rows != [] {
      assert rows[0] in rows;
      ScansToEntries(rows[1..]);
      assert Entries(rows) == [EntryOf(rows[0])] + Entries(rows[1..]);
    }
  }

  lemma PageShape(all: seq<Row>, n: nat, limit: nat, next: string)
    requires limit > 0 && n <= |all| && forall r | r in all :: Scan(r).Some?
    requires |all| - n > limit ==> next == EncodeCursor(EntryOf(all[n + limit - 1]))
    ensures MakePage(Take(all[n..], limit + 1), limit) == Ok(
      if |all| - n <= limit then Page(Entries(all)[n..], "")
      else Page(Entries(all)[n..n + limit], next))
  {
    var selected := Take(all[n..], limit + 1);
    ScansToEntries(selected);
    EntriesTaken(all, n, limit);
  }

  lemma EntriesTaken(all: seq<Row>, n: nat, limit: nat)
    requires limit > 0 && n <= |all|
    ensures var es := Entries(Take(all[n..], limit + 1));
      if |all| - n <= limit then es == Entries(all)[n..]
      else
        && |es| == limit + 1 && es[..limit] == Entries(all)[n..n + limit]
        && es[limit - 1] == EntryOf(all[n + limit - 1])
  {
  }

  /** The filters, with the position of the n-th row once there is one. */
  function WhereFrom(rows: seq<Row>, q: Query, n: nat): seq<Condition>
    requires n <= |Listing(rows, q)|
  {
    if n == 0 then Filters(q)
    else
      var last := Listing(rows, q)[n - 1];
      Filters(q) + [After(last.ts, ID(last))]
  }

  lemma SelectsRest(rows: seq<Row>, q: Query, n: nat, limit: nat)
    requires Sane(rows) && n <= |Listing(rows, q)|
    ensures Select(rows, WhereFrom(rows, q, n), limit) == Take(Listing(rows, q)[n..], limit)
  {
    if n == 0 {
      assert Listing(rows, q)[0..] == Listing(rows, q);
    } else {
      SelectedFromCursor(rows, q, n);
    }
  }

  lemma CursorIs(rows: seq<Row>, q: Query, n: nat)
    requires Sane(rows) && 0 < n <= |Listing(rows, q)|
    ensures CursorAt(rows, q, n) == EncodeCursor(EntryOf(Listing(rows, q)[n - 1]))
  {
    ListingIsSane(rows, q);
    assert Listing(rows, q)[n - 1] in Listing(rows, q);
  }

  lemma CursorFinds(rows: seq<Row>, q: Query, n: nat)
    requires Sane(rows) && 0 < n <= |Listing(rows, q)|
    ensures var last := Listing(rows, q)[n - 1];
      CursorAt(rows, q, n) == EncodeCursor(EntryOf(last)) != "" &&
      DecodeCursor(CursorAt(rows, q, n)) == Ok((EntryOf(last).ts, ID(last))) &&
      Format(EntryOf(last).ts) == last.ts
  {
    var last := Listing(rows, q)[n - 1];
    ListingIsSane(rows, q);
    assert last in Listing(rows, q);
    assert ToRow(EntryOf(last)) == last;
    CursorReads(EntryOf(last));
  }

  lemma WhereAt(rows: seq<Row>, q: Query, n: nat)
    requires Sane(rows) && n <= |Listing(rows, q)|
    ensures Where(q.(cursor := CursorAt(rows, q, n))) == Ok(WhereFrom(rows, q, n))
  {
    assert Filters(q.(cursor := CursorAt(rows, q, n))) == Filters(q);
    if n > 0 {
      CursorFinds(rows, q, n);
    }
  }

  lemma QueryAt(rows: seq<Row>, q: Query, n: nat)
    requires Sane(rows) && n <= |Listing(rows, q)|
    ensures QueryResult(rows, q.(cursor := CursorAt(rows, q, n)))
      == MakePage(Take(Listing(rows, q)[n..], Limit(q) + 1), Limit(q))
  {
    var asked := q.(cursor := CursorAt(rows, q, n));
    WhereAt(rows, q, n);
    SelectsRest(rows, q, n, Limit(q) + 1);
    QueryWhere(rows, asked, WhereFrom(rows, q, n), Take(Listing(rows, q)[n..], Limit(q) + 1));
  }

  lemma QueryWhere(rows: seq<Row>, q: Query, where: seq<Condition>, selected: seq<Row>)
    requires Where(q) == Ok(where) && Select(rows, where, Limit(q) + 1) == selected
    ensures QueryResult(rows, q) == MakePage(selected, Limit(q))
  {
  }

  function Cursors(rows: seq<Row>, q: Query): (r: seq<string>)
    ensures |r| == |Listing(rows, q)| + 1
    ensures forall n | 0 <= n <= |Listing(rows, q)| :: r[n] == CursorAt(rows, q, n)
  {
    seq(|Listing(rows, q)| + 1, n requires 0 <= n <= |Listing(rows, q)| => CursorAt(rows, q, n))
  }

  /** The entries that follow the first n, a page of them, and the cursor after those. */
  function PageFrom(all: seq<Entry>, cursors: seq<string>, limit: nat, n: nat): Page
    requires |cursors| == |all| + 1 && n <= |all|
  {
    if |all| - n <= limit then Page(all[n..], "") else Page(all[n..n + limit], cursors[n + limit])
  }

  function PageAt(rows: seq<Row>, q: Query, n: nat): Page
    requires n <= |Listing(rows, q)|
  {
    PageFrom(Entries(Listing(rows, q)), Cursors(rows, q), Limit(q), n)
  }

  /** The query with the cursor that follows n rows answers with that page. */
  lemma PageFollows(rows: seq<Row>, q: Query, n: nat)
    requires Sane(rows) && n <= |Listing(rows, q)|
    ensures QueryResult(rows, q.(cursor := CursorAt(rows, q, n))) == Ok(PageAt(rows, q, n))
  {
    PageMade(rows, q, n, Listing(rows, q), Limit(q));
    QueryAt(rows, q, n);
  }

  lemma PageMade(rows: seq<Row>, q: Query, n: nat, all: seq<Row>, limit: nat)
    requires Sane(rows) && all == Listing(rows, q) && n <= |all| && limit == Limit(q)
    ensures MakePage(Take(all[n..], limit + 1), limit) == Ok(PageAt(rows, q, n))
  {
    var next := if |all| - n > limit then Cursors(rows, q)[n + limit] else "";
    ListingIsSane(rows, q);
    if |all| - n > limit {
      CursorIs(rows, q, n + limit);
    }
    PageShape(all, n, limit, next);
    PageFromShape(Entries(all), Cursors(rows, q), limit, n, next);
  }

  lemma PageFromShape(all: seq<Entry>, cursors: seq<string>, limit: nat, n: nat, next: string)
    requires |cursors| == |all| + 1 && n <= |all| && (|all| - n > limit ==> next == cursors[n + limit])
    ensures PageFrom(all, cursors, limit, n)
         == if |all| - n <= limit then Page(all[n..], "") else Page(all[n..n + limit], next)
  {
  }

  // ---------- All pages ----------

  /** What a client sees that follows NextCursor for at most so many pages; an error ends it. */
  function Follow(ask: string -> Result<Page, QueryError>, cursor: string, pages: nat): Result<seq<Entry>, QueryError>
    decreases pages
  {
    if pages == 0 then Ok([])
    else
      match ask(cursor)
      case Err(e) => Err(e)
      case Ok(page) =>
        if page.nextCursor == "" then Ok(page.entries)
        else
          match Follow(ask, page.nextCursor, pages - 1)
          case Err(e) => Err(e)
          case Ok(rest) => Ok(page.entries + rest)
  }

  /** Asked with the n-th cursor, the server answers with what follows the first n entries. */
  predicate ServedAt(ask: string -> Result<Page, QueryError>, cursors: seq<string>, all: seq<Entry>, limit: nat, n: nat)
    requires |cursors| == |all| + 1 && n <= |all|
  {
    && (n > 0 ==> cursors[n] != "")
    && ask(cursors[n]) == Ok(PageFrom(all, cursors, limit, n))
  }

  predicate Serves(ask: string -> Result<Page, QueryError>, cursors: seq<string>, all: seq<Entry>, limit: nat) {
    |cursors| == |all| + 1 && forall n | 0 <= n <= |all| :: ServedAt(ask, cursors, all, limit, n)
  }

  /** How many pages so many rows fill; an empty listing still takes one. */
  function PageCount(left: int, limit: nat): (n: nat)
    requires limit > 0
    ensures n > 0
    decreases left
  {
    if left <= limit then 1 else 1 + PageCount(left - limit, limit)
  }

  lemma {:induction false} FollowsFrom(ask: string -> Result<Page, QueryError>, cursors: seq<string>, all: seq<Entry>,
                                       limit: nat, n: nat, pages: nat)
    requires limit > 0 && Serves(ask, cursors, all, limit) && n <= |all| && pages >= PageCount(|all| - n, limit)
    ensures Follow(ask, cursors[n], pages) == Ok(all[n..])
    decreases pages
  {
    assert ServedAt(ask, cursors, all, limit, n);
    if |all| - n > limit {
      assert ServedAt(ask, cursors, all, limit, n + limit);
      FollowsFrom(ask, cursors, all, limit, n + limit, pages - 1);
      assert all[n..n + limit] + all[n + limit..] == all[n..];
    }
  }

  function Answers(rows: seq<Row>, q: Query): string -> Result<Page, QueryError> {
    (cursor: string) => QueryResult(rows, q.(cursor := cursor))
  }

  lemma PageServed(rows: seq<Row>, q: Query, n: nat)
    requires Sane(rows) && n <= |Listing(rows, q)|
    ensures ServedAt(Answers(rows, q), Cursors(rows, q), Entries(Listing(rows, q)), Limit(q), n)
  {
    if n > 0 {
      CursorFinds(rows, q, n);
    }
    AnswersWithPage(rows, q, n);
  }

  lemma AnswersWithPage(rows: seq<Row>, q: Query, n: nat)
    requires Sane(rows) && n <= |Listing(rows, q)|
    ensures Answers(rows, q)(CursorAt(rows, q, n)) == Ok(PageAt(rows, q, n))
  {
    PageFollows(rows, q, n);
  }

  lemma QueryServes(rows: seq<Row>, q: Query)
    requires Sane(rows)
    ensures Serves(Answers(rows, q), Cursors(rows, q), Entries(Listing(rows, q)), Limit(q))
  {
    forall n | 0 <= n <= |Listing(rows, q)|
      ensures ServedAt(Answers(rows, q), Cursors(rows, q), Entries(Listing(rows, q)), Limit(q), n)
    {
      PageServed(rows, q, n);
    }
  }

  lemma FollowGivesAll(ask: string -> Result<Page, QueryError>, cursors: seq<string>, all: seq<Entry>,
                       limit: nat, pages: nat)
    requires limit > 0 && Serves(ask, cursors, all, limit) && pages >= PageCount(|all|, limit)
    ensures Follow(ask, cursors[0], pages) == Ok(all)
  {
    FollowsFrom(ask, cursors, all, limit, 0, pages);
    assert all[0..] == all;
  }

  lemma ListingHoldsMatches(rows: seq<Row>, q: Query)
    requires Sane(rows)
    ensures Descending(Listing(rows, q)) && multiset(Listing(rows, q)) == multiset(Keep(rows, Filters(q)))
  {
    ListingIsSane(rows, q);
    SortMembers(Keep(rows, Filters(q)));
  }

  /** Of two rows listed, the one with the larger time text comes first, and on equal time texts the one with the
      larger id. */
  lemma ListedInOrder(rows: seq<Row>, q: Query, i: nat, j: nat)
    requires Sane(rows) && i < j < |Listing(rows, q)|
    ensures var r, s := Listing(rows, q)[i], Listing(rows, q)[j];
      Less(s.ts, r.ts) || (r.ts == s.ts && Less(ID(s), ID(r)))
  {
    ListingIsSane(rows, q);
  }

  /** Pages hold 100 entries unless the query says otherwise, and never more than 500. */
  lemma PageSize(q: Query)
    ensures Limit(q) == if q.limit <= 0 then 100 else if q.limit <= 500 then q.limit else 500
  {
  }

  /** What is wrong with a query or the rows it selects: a cursor that is not unpadded base64 of a time text, a line
      feed and an id, or a selected row whose time text cannot be read. */
  function Fault(rows: seq<Row>, q: Query): Option<QueryError> {
    var raw := Base64.Decode(Base64.RawURLEncoding, q.cursor);
    if q.cursor != "" && raw.None? then Some(InvalidCursor)
    else if q.cursor != "" && LF !in raw.value then Some(InvalidCursor)
    else if q.cursor != "" && raw.value[LineLength(raw.value) + 1..] == [] then Some(InvalidCursor)
    else if q.cursor != "" && Parse(raw.value[..LineLength(raw.value)]).None? then Some(InvalidCursorTime)
    else if exists r :: r in Select(rows, Where(q).value, Limit(q) + 1) && Parse(r.ts).None? then Some(InvalidTime)
    else None
  }

  lemma {:induction false} ScansExactly(rows: seq<Row>)
    ensures ScanAll(rows).Some? <==> forall r | r in rows :: Parse(r.ts).Some?
  {
    if rows != [] {
      ScansExactly(rows[1..]);
      assert rows[0] in rows && forall r | r in rows :: r == rows[0] || r in rows[1..];
      assert forall r | r in rows[1..] :: r in rows;
    }
  }

  /** A query is answered exactly when it has no fault, and otherwise the fault is the error. */
  lemma FaultExactly(rows: seq<Row>, q: Query)
    ensures Fault(rows, q) == match QueryResult(rows, q) { case Ok(_) => None case Err(e) => Some(e) }
  {
    if Where(q).Ok? {
      ScansExactly(Select(rows, Where(q).value, Limit(q) + 1));
    }
  }

  /** Starting without a cursor, as many pages as the rows fill, or more, give every matching row exactly once,
      by descending time text and then id, and end. */
  lemma FollowListsAll(rows: seq<Row>, q: Query, pages: nat)
    requires Sane(rows) && pages >= PageCount(|Listing(rows, q)|, Limit(q))
    ensures Follow(Answers(rows, q), "", pages) == Ok(Entries(Listing(rows, q)))
    ensures Descending(Listing(rows, q))
    ensures multiset(Listing(rows, q)) == multiset(Keep(rows, Filters(q)))
  {
    QueryServes(rows, q);
    FollowGivesAll(Answers(rows, q), Cursors(rows, q), Entries(Listing(rows, q)), Limit(q), pages);
    ListingHoldsMatches(rows, q);
  }
}
