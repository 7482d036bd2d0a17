/** The LRU and TTL cache of internal/auth/cache.go: a map beside a recency list, most recent first. */
module KeyCache {
  import opened Wrappers

  datatype Entry<H, K> = Entry(hash: H, key: K, expiresAt: int)

  // ---------- The cache as a sequence of entries ----------

  function Drop<H(==), K>(s: seq<Entry<H, K>>, hash: H): (r: seq<Entry<H, K>>)
    ensures |r| <= |s|
    ensures forall e | e in r :: e in s && e.hash != hash
    ensures forall e | e in s && e.hash != hash :: e in r
  {
    if s == [] then []
    else (if s[0].hash == hash then [] else [s[0]]) + Drop(s[1..], hash)
  }

  function Find<H(==), K>(s: seq<Entry<H, K>>, hash: H): (r: Option<Entry<H, K>>)
    ensures r.Some? ==> r.value in s && r.value.hash == hash
    ensures r.None? ==> forall e | e in s :: e.hash != hash
  {
    if s == [] then None else if s[0].hash == hash then Some(s[0]) else Find(s[1..], hash)
  }

  function Answer<H(==), K>(s: seq<Entry<H, K>>, hash: H, now: int): Option<K> {
    var found := Find(s, hash);
    if found.Some? && now < found.value.expiresAt then Some(found.value.key) else None
  }

  /** A hit moves its entry to the front; an expired entry goes. */
  function AfterGet<H(==), K>(s: seq<Entry<H, K>>, hash: H, now: int): seq<Entry<H, K>> {
    var found := Find(s, hash);
    if found.Some? && now < found.value.expiresAt then [found.value] + Drop(s, hash)
    else Drop(s, hash)
  }

  function AfterPut<H(==), K>(s: seq<Entry<H, K>>, e: Entry<H, K>, max: nat): seq<Entry<H, K>> {
    var all := [e] + Drop(s, e.hash);
    if |all| > max then all[..max] else all
  }

  ghost predicate DistinctHashes<H, K>(s: seq<Entry<H, K>>) {
    forall i, j | 0 <= i < j < |s| :: s[i].hash != s[j].hash
  }

  function RemoveAt<T>(s: seq<T>, i: nat): (r: seq<T>)
    requires i < |s|
    ensures |r| == |s| - 1
    ensures forall j | 0 <= j < i :: r[j] == s[j]
    ensures forall j | i <= j < |r| :: r[j] == s[j + 1]
  {
    s[..i] + s[i + 1..]
  }

  /** Where the a-th item stood before the i-th moved to the front, and where it stands after. */
  function Before(i: nat, a: nat): nat {
    if a == 0 then i else if a <= i then a - 1 else a
  }

  function After(i: nat, b: nat): nat {
    if b < i then b + 1 else if b == i then 0 else b
  }

  /** The list with its i-th item moved to the front. */
  function Fronted<T>(s: seq<T>, i: nat): (r: seq<T>)
    requires i < |s|
    ensures |r| == |s| && forall a: nat | a < |r| :: r[a] == s[Before(i, a)]
  {
    [s[i]] + RemoveAt(s, i)
  }

  lemma FrontedDistinct<H, K>(s: seq<Entry<H, K>>, i: nat)
    requires i < |s| && DistinctHashes(s)
    ensures DistinctHashes(Fronted(s, i))
  {
    var r := Fronted(s, i);
    forall a, b | 0 <= a < b < |r| ensures r[a].hash != r[b].hash {
      assert r[a] == s[Before(i, a)] && r[b] == s[Before(i, b)] && Before(i, a) != Before(i, b);
    }
  }

  lemma TailDistinct<H, K>(s: seq<Entry<H, K>>)
    requires s != [] && DistinctHashes(s)
    ensures DistinctHashes(s[1..]) && forall e | e in s[1..] :: e.hash != s[0].hash
  {
  }

  lemma RemoveLater<T>(s: seq<T>, i: nat)
    requires 0 < i < |s|
    ensures RemoveAt(s, i) == [s[0]] + RemoveAt(s[1..], i - 1)
  {
  }

  lemma {:induction false} DropAt<H, K>(s: seq<Entry<H, K>>, i: nat)
    requires i < |s| && DistinctHashes(s)
    ensures Drop(s, s[i].hash) == RemoveAt(s, i)
    ensures Find(s, s[i].hash) == Some(s[i])
  {
    var rest := s[1..];
    if i == 0 {
      DropAbsent(rest, s[0].hash);
      assert RemoveAt(s, 0) == rest;
    } else {
      assert rest[i - 1] == s[i] && s[0].hash != s[i].hash;
      TailDistinct(s);
      DropAt(rest, i - 1);
      RemoveLater(s, i);
    }
  }

  lemma {:induction false} DropAbsent<H, K>(s: seq<Entry<H, K>>, hash: H)
    requires forall e | e in s :: e.hash != hash
    ensures Drop(s, hash) == s
  {
    if s != [] {
      DropAbsent(s[1..], hash);
    }
  }

  lemma {:induction false} DropKeepsDistinct<H, K>(s: seq<Entry<H, K>>, hash: H)
    requires DistinctHashes(s)
    ensures DistinctHashes(Drop(s, hash))
  {
    if i :| 0 <= i < |s| && s[i].hash == hash {
      DropAt(s, i);
    } else {
      DropAbsent(s, hash);
    }
  }

  // ---------- The cache object ----------

  class Element<H, K> {
    var value: Entry<H, K>

    constructor (value: Entry<H, K>)
      ensures this.value == value
    {
      this.value := value;
    }
  }

  const DEFAULT_SIZE := 1000
  const DEFAULT_TTL := 300_000_000_000

  /** Map and list are in bijection: each hash leads to its element, and every hash of the map is in the list. */
  ghost predicate Linked<H, K>(items: map<H, Element<H, K>>, entries: seq<Element<H, K>>, contents: seq<Entry<H, K>>) {
    && |entries| == |contents| && DistinctHashes(contents)
    && (forall i | 0 <= i < |entries| :: contents[i].hash in items && items[contents[i].hash] == entries[i])
    && (forall h | h in items :: HasHash(contents, h))
  }

  ghost predicate HasHash<H, K>(contents: seq<Entry<H, K>>, h: H) {
    exists i :: 0 <= i < |contents| && contents[i].hash == h
  }

  lemma LinkedRemoved<H, K>(
    items: map<H, Element<H, K>>, entries: seq<Element<H, K>>, contents: seq<Entry<H, K>>, i: nat)
    requires Linked(items, entries, contents) && i < |entries|
    ensures Linked(items - {contents[i].hash}, RemoveAt(entries, i), RemoveAt(contents, i))
  {
    var rest := RemoveAt(contents, i);
    forall h | h in items && h != contents[i].hash ensures HasHash(rest, h) {
      var j :| 0 <= j < |contents| && contents[j].hash == h;
      assert rest[if j < i then j else j - 1].hash == h;
    }
  }

  lemma LinkedFronted<H, K>(
    items: map<H, Element<H, K>>, entries: seq<Element<H, K>>, contents: seq<Entry<H, K>>, i: nat)
    requires Linked(items, entries, contents) && i < |entries|
    ensures Linked(items, Fronted(entries, i), Fronted(contents, i))
  {
    var front, moved := Fronted(contents, i), Fronted(entries, i);
    FrontedDistinct(contents, i);
    forall a: nat | a < |front| ensures front[a].hash in items && items[front[a].hash] == moved[a] {
      assert front[a] == contents[Before(i, a)] && moved[a] == entries[Before(i, a)];
    }
    forall h | h in items ensures HasHash(front, h) {
      var b :| 0 <= b < |contents| && contents[b].hash == h;
      assert front[After(i, b)] == contents[Before(i, After(i, b))];
    }
  }

  /** Elements of different hashes are different objects, so overwriting one leaves the others' values alone. */
  lemma LinkedOverwritten<H, K>(
    items: map<H, Element<H, K>>, entries: seq<Element<H, K>>, contents: seq<Entry<H, K>>, i: nat, entry: Entry<H, K>)
    requires Linked(items, entries, contents) && i < |entries| && entry.hash == contents[i].hash
    requires forall j | 0 <= j < |entries| :: entries[j].value == contents[j]
    ensures Linked(items, entries, contents[i := entry])
    ensures forall j | 0 <= j < |entries| && j != i :: entries[j] != entries[i]
  {
    forall h | h in items ensures HasHash(contents[i := entry], h) {
      var j :| 0 <= j < |contents| && contents[j].hash == h;
      assert contents[i := entry][j].hash == h;
    }
  }

  lemma DropOverwritten<H, K>(contents: seq<Entry<H, K>>, i: nat, entry: Entry<H, K>)
    requires i < |contents| && DistinctHashes(contents) && entry.hash == contents[i].hash
    ensures Drop(contents[i := entry], entry.hash) == Drop(contents, entry.hash)
    ensures Find(contents[i := entry], entry.hash) == Some(entry)
  {
    var s := contents[i := entry];
    DropAt(contents, i);
    DropAt(s, i);
    assert RemoveAt(s, i) == RemoveAt(contents, i);
  }

  lemma LinkedPushed<H, K>(
    items: map<H, Element<H, K>>, entries: seq<Element<H, K>>, contents: seq<Entry<H, K>>,
    e: Element<H, K>, entry: Entry<H, K>)
    requires Linked(items, entries, contents) && entry.hash !in items
    ensures Linked(items[entry.hash := e], [e] + entries, [entry] + contents)
  {
    var more := [entry] + contents;
    forall h | h in items[entry.hash := e] ensures HasHash(more, h) {
      if h == entry.hash {
        assert more[0].hash == h;
      } else {
        var j :| 0 <= j < |contents| && contents[j].hash == h;
        assert more[j + 1].hash == h;
      }
    }
  }

  class Cache<H(==), K> {
    const max: int
    const ttl: int
    var items: map<H, Element<H, K>>
    var entries: seq<Element<H, K>>
    ghost var contents: seq<Entry<H, K>>  // what the list holds, front first
    ghost var cells: set<Element<H, K>>  // every element the list ever held

    /** Map and list are in bijection and hold the contents. */
    ghost predicate Held()
      reads this, cells
    {
      && max > 0 && ttl > 0 && Linked(items, entries, contents)
      && forall i | 0 <= i < |entries| :: entries[i] in cells && entries[i].value == contents[i]
    }

    ghost predicate Valid()
      reads this, cells
    {
      Held() && |contents| <= max
    }

    constructor (max: int, ttl: int)
      ensures Valid() && contents == []
      ensures this.max == (if max <= 0 then DEFAULT_SIZE else max)
          && this.ttl == (if ttl <= 0 then DEFAULT_TTL else ttl)
    {
      this.max := if max <= 0 then DEFAULT_SIZE else max;
      this.ttl := if ttl <= 0 then DEFAULT_TTL else ttl;
      items, entries, contents, cells := map[], [], [], {};
    }

    /** Where the list holds the element of a hash. */
    method Position(hash: H) returns (i: nat)
      requires Held() && hash in items
      ensures i < |entries| && entries[i] == items[hash] && contents[i].hash == hash
      ensures Drop(contents, hash) == RemoveAt(contents, i) && Find(contents, hash) == Some(contents[i])
    {
      ghost var k :| 0 <= k < |contents| && contents[k].hash == hash;
      i := 0;
      while entries[i] != items[hash]
        invariant i <= k
        decreases |entries| - i
      {
        i := i + 1;
      }
      assert contents[i].hash == hash;
      DropAt(contents, i);
    }

    lemma NotFound(hash: H)
      requires Held() && hash !in items
      ensures Find(contents, hash) == None && Drop(contents, hash) == contents
    {
      forall e | e in contents ensures e.hash != hash {
        var i :| 0 <= i < |contents| && contents[i] == e;
      }
      DropAbsent(contents, hash);
    }

    /** Take one element out of the list and the map. */
    method Remove(hash: H)
      requires Held() && hash in items
      modifies `items, `entries, `contents
      ensures Held() && contents == Drop(old(contents), hash) && |contents| < |old(contents)|
    {
      var i := Position(hash);
      LinkedRemoved(items, entries, contents, i);
      RemoveAtIndex(hash, i);
    }

    method RemoveAtIndex(hash: H, i: nat)
      requires Held() && i < |entries| && Linked(items - {hash}, RemoveAt(entries, i), RemoveAt(contents, i))
      modifies `items, `entries, `contents
      ensures Held() && contents == RemoveAt(old(contents), i)
    {
      items := items - {hash};
      entries := RemoveAt(entries, i);
      contents := RemoveAt(contents, i);
    }

    method MoveToFront(hash: H)
      requires Held() && hash in items
      modifies `items, `entries, `contents
      ensures Held() && contents == [Find(old(contents), hash).value] + Drop(old(contents), hash)
      ensures |contents| == |old(contents)|
    {
      var i := Position(hash);
      LinkedFronted(items, entries, contents, i);
      FrontIndex(i);
    }

    method FrontIndex(i: nat)
      requires Held() && i < |entries| && Linked(items, Fronted(entries, i), Fronted(contents, i))
      modifies `entries, `contents
      ensures Held() && contents == Fronted(old(contents), i)
    {
      entries := Fronted(entries, i);
      contents := Fronted(contents, i);
    }

    method Get(hash: H, now: int) returns (key: Option<K>)
      requires Valid()
      modifies `items, `entries, `contents
      ensures Valid() && key == Answer(old(contents), hash, now) && contents == AfterGet(old(contents), hash, now)
    {
      if hash !in items {
        NotFound(hash);
        return None;
      }
      var i := Position(hash);
      var entry := items[hash].value;
      if now >= entry.expiresAt {
        Remove(hash);
        return None;
      }
      MoveToFront(hash);
      key := Some(entry.key);
    }

    method Put(hash: H, key: K, now: int)
      requires Valid()
      modifies this, cells
      ensures fresh(cells - old(cells))
      ensures Valid() && contents == AfterPut(old(contents), Entry(hash, key, now + ttl), max)
    {
      if hash in items {
        Refresh(hash, Entry(hash, key, now + ttl));
        return;
      }
      NotFound(hash);
      PushFront(Entry(hash, key, now + ttl));
      EvictBeyond();
    }

    /** Drop entries at the back until the cache is within its size. */
    method EvictBeyond()
      requires Held()
      modifies `items, `entries, `contents
      ensures Valid() && contents == if |old(contents)| > max then old(contents)[..max] else old(contents)
    {
      ghost var all := contents;
      while |entries| > max
        invariant Held() && |contents| <= |all| && contents == all[..|contents|]
        invariant |contents| < |all| ==> max <= |contents|
      {
        Evict();
      }
    }

    method PushFront(entry: Entry<H, K>)
      requires Held() && entry.hash !in items
      modifies this
      ensures Held() && contents == [entry] + old(contents) && fresh(cells - old(cells))
    {
      var element := new Element(entry);
      LinkedPushed(items, entries, contents, element, entry);
      entries := [element] + entries;
      contents := [entry] + contents;
      items := items[entry.hash := element];
      cells := cells + {element};
    }

    /** Drop the entry at the back. */
    method Evict()
      requires Held() && |entries| > 0
      modifies `items, `entries, `contents
      ensures Held() && contents == old(contents)[..|old(contents)| - 1]
    {
      var last := |entries| - 1;
      LinkedRemoved(items, entries, contents, last);
      items := items - {entries[last].value.hash};
      entries := RemoveAt(entries, last);
      contents := RemoveAt(contents, last);
    }

    /** Overwrite an element in place and move it to the front. */
    method Refresh(hash: H, entry: Entry<H, K>)
      requires Valid() && hash in items && entry.hash == hash
      modifies `items, `entries, `contents, items[hash]
      ensures Valid() && contents == [entry] + Drop(old(contents), hash) && cells == old(cells)
    {
      var i := Position(hash);
      LinkedOverwritten(items, entries, contents, i, entry);
      DropOverwritten(contents, i, entry);
      items[hash].value := entry;
      contents := contents[i := entry];
      MoveToFront(hash);
    }

    method Invalidate(hash: H)
      requires Valid()
      modifies `items, `entries, `contents
      ensures Valid() && contents == Drop(old(contents), hash)
    {
      if hash !in items {
        NotFound(hash);
        return;
      }
      Remove(hash);
    }

    method Clear()
      requires Valid()
      modifies `items, `entries, `contents
      ensures Valid() && contents == []
    {
      items, entries, contents := map[], [], [];
    }
  }

  // ---------- What every run keeps ----------

  datatype Op<H, K> = Get(hash: H, now: int) | Put(hash: H, key: K, now: int) | Invalidate(hash: H) | Clear

  function Apply<H(==), K>(s: seq<Entry<H, K>>, op: Op<H, K>, max: nat, ttl: int): seq<Entry<H, K>> {
    match op
    case Get(hash, now) => AfterGet(s, hash, now)
    case Put(hash, key, now) => AfterPut(s, Entry(hash, key, now + ttl), max)
    case Invalidate(hash) => Drop(s, hash)
    case Clear => []
  }

  function Run<H(==), K>(ops: seq<Op<H, K>>, max: nat, ttl: int): seq<Entry<H, K>> {
    if ops == [] then [] else Apply(Run(ops[..|ops| - 1], max, ttl), ops[|ops| - 1], max, ttl)
  }

  /** The last operation that put this hash or found it. */
  function LastTouch<H(==), K>(ops: seq<Op<H, K>>, max: nat, ttl: int, hash: H): int {
    if ops == [] then -1
    else
      var before, op := ops[..|ops| - 1], ops[|ops| - 1];
      if (op.Put? && op.hash == hash) ||
         (op.Get? && op.hash == hash && Answer(Run(before, max, ttl), hash, op.now).Some?) then |ops| - 1
      else LastTouch(before, max, ttl, hash)
  }

  /** The last operation that put this hash. */
  function LastPut<H(==), K>(ops: seq<Op<H, K>>, hash: H): int {
    if ops == [] then -1
    else if ops[|ops| - 1].Put? && ops[|ops| - 1].hash == hash then |ops| - 1
    else LastPut(ops[..|ops| - 1], hash)
  }

  /** Most recently put or hit first, each with the key and the lifetime of its last put. */
  ghost predicate Recency<H, K>(s: seq<Entry<H, K>>, ops: seq<Op<H, K>>, max: nat, ttl: int) {
    && (forall i | 0 <= i < |s| :: LastTouch(ops, max, ttl, s[i].hash) < |ops|)
    && (forall i, j | 0 <= i < j < |s| :: LastTouch(ops, max, ttl, s[i].hash) > LastTouch(ops, max, ttl, s[j].hash))
    && (forall i | 0 <= i < |s| ::
          var p := LastPut(ops, s[i].hash);
          0 <= p < |ops| && ops[p] == Put(s[i].hash, s[i].key, s[i].expiresAt - ttl))
  }

  lemma RecencyDistinct<H, K>(s: seq<Entry<H, K>>, ops: seq<Op<H, K>>, max: nat, ttl: int)
    requires Recency(s, ops, max, ttl)
    ensures DistinctHashes(s)
  {
  }

  /** An operation that neither puts nor finds a hash leaves its last touch and last put alone. */
  lemma Untouched<H, K>(ops: seq<Op<H, K>>, op: Op<H, K>, max: nat, ttl: int, hash: H)
    requires op.Put? ==> op.hash != hash
    requires op.Get? && op.hash == hash ==> Answer(Run(ops, max, ttl), hash, op.now).None?
    ensures LastTouch(ops + [op], max, ttl, hash) == LastTouch(ops, max, ttl, hash)
    ensures LastPut(ops + [op], hash) == LastPut(ops, hash)
  {
    assert (ops + [op])[..|ops|] == ops;
  }

  /** Some items of s, in order, none of them touched by op. */
  lemma RecencySub<H, K>(
    s: seq<Entry<H, K>>, r: seq<Entry<H, K>>, from: seq<nat>, ops: seq<Op<H, K>>, op: Op<H, K>, max: nat, ttl: int)
    requires Recency(s, ops, max, ttl)
    requires |from| == |r| && forall a | 0 <= a < |r| :: from[a] < |s| && r[a] == s[from[a]]
    requires forall a, b | 0 <= a < b < |r| :: from[a] < from[b]
    requires forall a | 0 <= a < |r| ::
               LastTouch(ops + [op], max, ttl, r[a].hash) == LastTouch(ops, max, ttl, r[a].hash)
               && LastPut(ops + [op], r[a].hash) == LastPut(ops, r[a].hash)
    ensures Recency(r, ops + [op], max, ttl)
    ensures forall a | 0 <= a < |r| :: LastTouch(ops + [op], max, ttl, r[a].hash) < |ops|
  {
  }

  /** The rows of r come from s, at the increasing places listed. */
  ghost predicate IsSub<T>(s: seq<T>, r: seq<T>, from: seq<nat>) {
    && |from| == |r|
    && (forall a | 0 <= a < |r| :: from[a] < |s| && r[a] == s[from[a]])
    && (forall a, b | 0 <= a < b < |r| :: from[a] < from[b])
  }

  lemma SubLater<T>(s: seq<T>, r: seq<T>, from: seq<nat>, later: seq<nat>)
    requires s != [] && IsSub(s[1..], r, from)
    requires |later| == |from| && forall a | 0 <= a < |from| :: later[a] == from[a] + 1
    ensures IsSub(s, r, later) && IsSub(s, [s[0]] + r, [0] + later)
  {
    forall a | 0 <= a < |r| ensures r[a] == s[later[a]] {
      assert s[1..][from[a]] == s[later[a]];
    }
  }

  lemma {:induction false} DropFrom<H, K>(s: seq<Entry<H, K>>, hash: H) returns (from: seq<nat>)
    ensures IsSub(s, Drop(s, hash), from)
  {
    if s == [] {
      from := [];
    } else {
      var rest := DropFrom(s[1..], hash);
      var later := seq(|rest|, a requires 0 <= a < |rest| => rest[a] + 1);
      SubLater(s, Drop(s[1..], hash), rest, later);
      from := if s[0].hash == hash then later else [0] + later;
    }
  }

  lemma RecencyDropped<H, K>(s: seq<Entry<H, K>>, ops: seq<Op<H, K>>, op: Op<H, K>, max: nat, ttl: int, hash: H)
    requires Recency(s, ops, max, ttl) && !op.Clear? && op.hash == hash
    ensures Recency(Drop(s, hash), ops + [op], max, ttl)
    ensures forall e | e in Drop(s, hash) :: LastTouch(ops + [op], max, ttl, e.hash) < |ops|
  {
    var r := Drop(s, hash);
    var from := DropFrom(s, hash);
    forall a | 0 <= a < |r|
      ensures LastTouch(ops + [op], max, ttl, r[a].hash) == LastTouch(ops, max, ttl, r[a].hash)
      ensures LastPut(ops + [op], r[a].hash) == LastPut(ops, r[a].hash)
    {
      assert r[a] in r;
      Untouched(ops, op, max, ttl, r[a].hash);
    }
    RecencySub(s, r, from, ops, op, max, ttl);
  }

  /** Touching an entry puts it first. */
  lemma RecencyFronted<H, K>(e: Entry<H, K>, rest: seq<Entry<H, K>>, ops: seq<Op<H, K>>, max: nat, ttl: int)
    requires Recency(rest, ops, max, ttl) && ops != []
    requires LastTouch(ops, max, ttl, e.hash) == |ops| - 1
    requires forall x | x in rest :: LastTouch(ops, max, ttl, x.hash) < |ops| - 1
    requires var p := LastPut(ops, e.hash); 0 <= p < |ops| && ops[p] == Put(e.hash, e.key, e.expiresAt - ttl)
    ensures Recency([e] + rest, ops, max, ttl)
  {
    var s := [e] + rest;
    forall i | 0 < i < |s| ensures s[i] == rest[i - 1] && rest[i - 1] in rest {}
  }

  lemma RecencyTruncated<H, K>(s: seq<Entry<H, K>>, n: nat, ops: seq<Op<H, K>>, max: nat, ttl: int)
    requires Recency(s, ops, max, ttl) && n <= |s|
    ensures Recency(s[..n], ops, max, ttl)
  {
  }

  lemma RunStep<H, K>(ops: seq<Op<H, K>>, op: Op<H, K>, max: nat, ttl: int)
    ensures Run(ops + [op], max, ttl) == Apply(Run(ops, max, ttl), op, max, ttl)
  {
    assert (ops + [op])[..|ops|] == ops;
  }

  /** A put or a hit is its hash's last touch. */
  lemma TouchedNow<H, K>(ops: seq<Op<H, K>>, op: Op<H, K>, max: nat, ttl: int)
    requires op.Put? || (op.Get? && Answer(Run(ops, max, ttl), op.hash, op.now).Some?)
    ensures LastTouch(ops + [op], max, ttl, op.hash) == |ops|
  {
    assert (ops + [op])[..|ops|] == ops;
  }

  lemma RecencyStep<H, K>(ops: seq<Op<H, K>>, op: Op<H, K>, max: nat, ttl: int)
    requires Recency(Run(ops, max, ttl), ops, max, ttl)
    ensures Recency(Run(ops + [op], max, ttl), ops + [op], max, ttl)
  {
    RunStep(ops, op, max, ttl);
    RecencyApplied(Run(ops, max, ttl), ops, op, max, ttl);
  }

  lemma RecencyApplied<H, K>(s: seq<Entry<H, K>>, ops: seq<Op<H, K>>, op: Op<H, K>, max: nat, ttl: int)
    requires s == Run(ops, max, ttl) && Recency(s, ops, max, ttl)
    ensures Recency(Apply(s, op, max, ttl), ops + [op], max, ttl)
  {
    if !op.Clear? {
      RecencyDropped(s, ops, op, max, ttl, op.hash);
      if op.Put? {
        TouchedNow(ops, op, max, ttl);
        RecencyPut(s, ops, op, max, ttl);
      } else if op.Get? && Answer(s, op.hash, op.now).Some? {
        TouchedNow(ops, op, max, ttl);
        RecencyHit(s, ops, op, max, ttl);
      }
    }
  }

  lemma RecencyPut<H, K>(s: seq<Entry<H, K>>, ops: seq<Op<H, K>>, op: Op<H, K>, max: nat, ttl: int)
    requires op.Put? && Recency(Drop(s, op.hash), ops + [op], max, ttl)
    requires LastTouch(ops + [op], max, ttl, op.hash) == |ops|
    requires forall e | e in Drop(s, op.hash) :: LastTouch(ops + [op], max, ttl, e.hash) < |ops|
    ensures Recency(AfterPut(s, Entry(op.hash, op.key, op.now + ttl), max), ops + [op], max, ttl)
  {
    var all, rest, e := ops + [op], Drop(s, op.hash), Entry(op.hash, op.key, op.now + ttl);
    RecencyFronted(e, rest, all, max, ttl);
    RecencyTruncated([e] + rest, if |[e] + rest| > max then max else |[e] + rest|, all, max, ttl);
    assert ([e] + rest)[..|[e] + rest|] == [e] + rest;
  }

  lemma RecencyHit<H, K>(s: seq<Entry<H, K>>, ops: seq<Op<H, K>>, op: Op<H, K>, max: nat, ttl: int)
    requires op.Get? && Answer(s, op.hash, op.now).Some?
    requires Recency(s, ops, max, ttl) && Recency(Drop(s, op.hash), ops + [op], max, ttl)
    requires LastTouch(ops + [op], max, ttl, op.hash) == |ops|
    requires forall e | e in Drop(s, op.hash) :: LastTouch(ops + [op], max, ttl, e.hash) < |ops|
    ensures Recency([Find(s, op.hash).value] + Drop(s, op.hash), ops + [op], max, ttl)
  {
    var all, e := ops + [op], Find(s, op.hash).value;
    var i :| 0 <= i < |s| && s[i] == e;
    assert LastPut(all, e.hash) == LastPut(ops, e.hash);
    RecencyFronted(e, Drop(s, op.hash), all, max, ttl);
  }

  /** In every run the cache lists its entries most recently touched first, each as its last put left it. */
  lemma {:induction false} RunRecency<H, K>(ops: seq<Op<H, K>>, max: nat, ttl: int)
    ensures Recency(Run(ops, max, ttl), ops, max, ttl)
  {
    if ops != [] {
      var before, op := ops[..|ops| - 1], ops[|ops| - 1];
      assert ops == before + [op];
      RunRecency(before, max, ttl);
      RecencyStep(before, op, max, ttl);
    }
  }

  lemma {:induction false} RunBounded<H, K>(ops: seq<Op<H, K>>, max: nat, ttl: int)
    ensures |Run(ops, max, ttl)| <= max
  {
    if ops != [] {
      var before, op := ops[..|ops| - 1], ops[|ops| - 1];
      RunBounded(before, max, ttl);
      RunRecency(before, max, ttl);
      RecencyDistinct(Run(before, max, ttl), before, max, ttl);
      ApplyBounded(Run(before, max, ttl), op, max, ttl);
    }
  }

  lemma ApplyBounded<H, K>(s: seq<Entry<H, K>>, op: Op<H, K>, max: nat, ttl: int)
    requires DistinctHashes(s) && |s| <= max
    ensures |Apply(s, op, max, ttl)| <= max
  {
    if op.Get? && Find(s, op.hash).Some? {
      var i :| 0 <= i < |s| && s[i] == Find(s, op.hash).value;
      DropAt(s, i);
    }
  }

  /** A put that finds the cache full and its hash absent drops exactly the entry at the back. */
  lemma EvictsLast<H, K>(ops: seq<Op<H, K>>, op: Op<H, K>, max: nat, ttl: int)
    requires max > 0 && |Run(ops, max, ttl)| == max && op.Put? && Find(Run(ops, max, ttl), op.hash).None?
    ensures Run(ops + [op], max, ttl) == [Entry(op.hash, op.key, op.now + ttl)] + Run(ops, max, ttl)[..max - 1]
  {
    RunStep(ops, op, max, ttl);
    FullPut(Run(ops, max, ttl), op, max, ttl);
  }

  lemma FullPut<H, K>(s: seq<Entry<H, K>>, op: Op<H, K>, max: nat, ttl: int)
    requires max > 0 && |s| == max && op.Put? && Find(s, op.hash).None?
    ensures Apply(s, op, max, ttl) == [Entry(op.hash, op.key, op.now + ttl)] + s[..max - 1]
  {
    PutWhenFull(s, Entry(op.hash, op.key, op.now + ttl), max);
  }

  lemma PutWhenFull<H, K>(s: seq<Entry<H, K>>, e: Entry<H, K>, max: nat)
    requires max > 0 && |s| == max && Find(s, e.hash).None?
    ensures AfterPut(s, e, max) == [e] + s[..max - 1]
  {
    DropAbsent(s, e.hash);
    KeepFront(s, e);
  }

  lemma KeepFront<T>(s: seq<T>, x: T)
    requires s != []
    ensures ([x] + s)[..|s|] == [x] + s[..|s| - 1]
  {
  }

  /** The entry at the back is the least recently put or hit. */
  lemma LastIsLeastRecent<H, K>(ops: seq<Op<H, K>>, i: nat, max: nat, ttl: int)
    requires i + 1 < |Run(ops, max, ttl)|
    ensures var s := Run(ops, max, ttl);
            LastTouch(ops, max, ttl, s[|s| - 1].hash) < LastTouch(ops, max, ttl, s[i].hash)
  {
    RunRecency(ops, max, ttl);
  }
}
