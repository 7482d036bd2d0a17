/** What the cache has to remember: an entry stays until it expires, is taken out, or enough others come after it.
    When that is the case is said about the operations alone. */
module CacheRetention {
  import opened Wrappers
  import opened KeyCache

  // ---------- About the operations alone ----------

  /** When the hash's last put expires; it counts only where there was one. */
  function Expiry<H(==), K>(ops: seq<Op<H, K>>, ttl: int, hash: H): int {
    if ops == [] then 0
    else
      var before, op := ops[..|ops| - 1], ops[|ops| - 1];
      if op.Put? && op.hash == hash then op.now + ttl else Expiry(before, ttl, hash)
  }

  /** The hash was put, and since then not invalidated, not cleared, and not asked for at or after its expiry. */
  predicate Alive<H(==), K>(ops: seq<Op<H, K>>, ttl: int, hash: H) {
    if ops == [] then false
    else
      var before, op := ops[..|ops| - 1], ops[|ops| - 1];
      match op
      case Put(x, _, _) => x == hash || Alive(before, ttl, hash)
      case Get(x, now) => Alive(before, ttl, hash) && (x == hash ==> now < Expiry(before, ttl, hash))
      case Invalidate(x) => x != hash && Alive(before, ttl, hash)
      case Clear => false
  }

  /** The other hashes put, or asked for while alive, since this one was last put or asked for. */
  function Since<H(==), K>(ops: seq<Op<H, K>>, ttl: int, hash: H): (others: set<H>)
    ensures hash !in others
  {
    if ops == [] then {}
    else
      var before, op := ops[..|ops| - 1], ops[|ops| - 1];
      match op
      case Put(x, _, _) => if x == hash then {} else Since(before, ttl, hash) + {x}
      case Get(x, now) =>
        if x == hash then {}
        else if Alive(before, ttl, x) && now < Expiry(before, ttl, x) then Since(before, ttl, hash) + {x}
        else Since(before, ttl, hash)
      case _ => Since(before, ttl, hash)
  }

  /** The hash's last put is alive, and between its touches since then, and after the last, fewer than max others
      were ever put or found. */
  predicate Retained<H(==), K>(ops: seq<Op<H, K>>, max: nat, ttl: int, hash: H) {
    if ops == [] then false
    else
      var before, op := ops[..|ops| - 1], ops[|ops| - 1];
      if op.Put? && op.hash == hash then true
      else if op.Get? && op.hash == hash then
        Retained(before, max, ttl, hash) && op.now < Expiry(before, ttl, hash)
      else
        && Retained(before, max, ttl, hash) && !op.Clear? && (op.Invalidate? ==> op.hash != hash)
        && |Since(ops, ttl, hash)| < max
  }

  // ---------- Where the entry stands ----------

  /** The hash is in the list, behind entries of these others only. */
  ghost predicate Behind<H, K>(s: seq<Entry<H, K>>, hash: H, others: set<H>) {
    s != [] && (s[0].hash == hash || (s[0].hash in others && Behind(s[1..], hash, others)))
  }

  lemma {:induction false} BehindMore<H, K>(s: seq<Entry<H, K>>, hash: H, others: set<H>, more: set<H>)
    requires Behind(s, hash, others) && others <= more
    ensures Behind(s, hash, more)
  {
    if s[0].hash != hash {
      BehindMore(s[1..], hash, others, more);
    }
  }

  lemma {:induction false} BehindDropped<H, K>(s: seq<Entry<H, K>>, hash: H, others: set<H>, x: H)
    requires Behind(s, hash, others) && x != hash
    ensures Behind(Drop(s, x), hash, others)
  {
    if s[0].hash != hash {
      BehindDropped(s[1..], hash, others, x);
    }
    if s[0].hash == x {
      assert Drop(s, x) == Drop(s[1..], x);
    } else {
      assert Drop(s, x)[0] == s[0] && Drop(s, x)[1..] == Drop(s[1..], x);
    }
  }

  lemma BehindPushed<H, K>(s: seq<Entry<H, K>>, hash: H, others: set<H>, e: Entry<H, K>)
    requires Behind(s, hash, others) && e.hash != hash
    ensures Behind([e] + s, hash, others + {e.hash})
  {
    BehindMore(s, hash, others, others + {e.hash});
    assert ([e] + s)[1..] == s;
  }

  lemma {:induction false} BehindWithout<H, K>(s: seq<Entry<H, K>>, hash: H, others: set<H>, x: H)
    requires Behind(s, hash, others) && forall e | e in s :: e.hash != x
    ensures Behind(s, hash, others - {x})
  {
    assert s[0] in s;
    if s[0].hash != hash {
      BehindWithout(s[1..], hash, others, x);
    }
  }

  /** Fewer than max others in front leave room in the first max places. */
  lemma {:induction false} BehindTruncated<H, K>(s: seq<Entry<H, K>>, hash: H, others: set<H>, max: nat)
    requires Behind(s, hash, others) && DistinctHashes(s) && |others| < max <= |s|
    ensures Behind(s[..max], hash, others)
    decreases |s|
  {
    if s[0].hash == hash {
      return;
    }
    var x, later := s[0].hash, s[1..];
    forall e | e in later ensures e.hash != x {
      var i :| 0 <= i < |later| && later[i] == e;
      assert s[i + 1] == e;
    }
    BehindWithout(later, hash, others, x);
    assert |others - {x}| == |others| - 1;
    BehindTruncated(later, hash, others - {x}, max - 1);
    BehindMore(later[..max - 1], hash, others - {x}, others);
    assert s[..max][1..] == later[..max - 1];
  }

  lemma {:induction false} BehindIsFound<H, K>(s: seq<Entry<H, K>>, hash: H, others: set<H>)
    requires Behind(s, hash, others)
    ensures Find(s, hash).Some?
  {
    if s[0].hash != hash {
      BehindIsFound(s[1..], hash, others);
    }
  }

  // ---------- Whatever is held is alive ----------

  ghost predicate AllAlive<H, K>(s: seq<Entry<H, K>>, ops: seq<Op<H, K>>, ttl: int) {
    forall e | e in s :: Alive(ops, ttl, e.hash) && Expiry(ops, ttl, e.hash) == e.expiresAt
  }

  /** The cache never holds what was invalidated, cleared, or asked for too late since its last put. */
  lemma {:induction false} HeldIsAlive<H, K>(ops: seq<Op<H, K>>, max: nat, ttl: int)
    ensures AllAlive(Run(ops, max, ttl), ops, ttl)
  {
    if ops != [] {
      var before, op := ops[..|ops| - 1], ops[|ops| - 1];
      HeldIsAlive(before, max, ttl);
      StepKeepsAlive(Run(before, max, ttl), ops, op, max, ttl);
    }
  }

  lemma StepKeepsAlive<H, K>(s: seq<Entry<H, K>>, ops: seq<Op<H, K>>, op: Op<H, K>, max: nat, ttl: int)
    requires ops != [] && op == ops[|ops| - 1] && AllAlive(s, ops[..|ops| - 1], ttl)
    ensures AllAlive(Apply(s, op, max, ttl), ops, ttl)
  {
    forall e | e in Apply(s, op, max, ttl) ensures Alive(ops, ttl, e.hash) && Expiry(ops, ttl, e.hash) == e.expiresAt {
      if op.Put? {
        assert e in [Entry(op.hash, op.key, op.now + ttl)] + Drop(s, op.hash);
      }
    }
  }

  // ---------- Whatever is retained is held ----------

  lemma {:induction false} RetainedIsBehind<H, K>(ops: seq<Op<H, K>>, max: nat, ttl: int, hash: H)
    requires max > 0 && Retained(ops, max, ttl, hash)
    ensures Behind(Run(ops, max, ttl), hash, Since(ops, ttl, hash))
  {
    var before, op := ops[..|ops| - 1], ops[|ops| - 1];
    var s := Run(before, max, ttl);
    if op.Put? && op.hash == hash {
      return;
    }
    RetainedIsBehind(before, max, ttl, hash);
    RunRecency(before, max, ttl);
    RecencyDistinct(s, before, max, ttl);
    HeldIsAlive(before, max, ttl);
    BehindStep(s, ops, max, ttl, hash);
  }

  lemma BehindStep<H, K>(s: seq<Entry<H, K>>, ops: seq<Op<H, K>>, max: nat, ttl: int, hash: H)
    requires max > 0 && Retained(ops, max, ttl, hash) && DistinctHashes(s)
    requires !(ops[|ops| - 1].Put? && ops[|ops| - 1].hash == hash)
    requires AllAlive(s, ops[..|ops| - 1], ttl) && Behind(s, hash, Since(ops[..|ops| - 1], ttl, hash))
    ensures Behind(Apply(s, ops[|ops| - 1], max, ttl), hash, Since(ops, ttl, hash))
  {
    var op := ops[|ops| - 1];
    if op.Put? {
      PutStep(s, ops, max, ttl, hash);
    } else if op.Invalidate? {
      BehindDropped(s, hash, Since(ops[..|ops| - 1], ttl, hash), op.hash);
    } else if op.Get? && op.hash == hash {
      OwnGetStep(s, ops, max, ttl, hash);
    } else if op.Get? {
      OtherGetStep(s, ops, max, ttl, hash);
    }
  }

  lemma PutStep<H, K>(s: seq<Entry<H, K>>, ops: seq<Op<H, K>>, max: nat, ttl: int, hash: H)
    requires ops != [] && Retained(ops, max, ttl, hash) && ops[|ops| - 1].Put? && ops[|ops| - 1].hash != hash
    requires DistinctHashes(s) && Behind(s, hash, Since(ops[..|ops| - 1], ttl, hash))
    ensures Behind(Apply(s, ops[|ops| - 1], max, ttl), hash, Since(ops, ttl, hash))
  {
    var op := ops[|ops| - 1];
    BehindAfterPut(s, hash, Since(ops[..|ops| - 1], ttl, hash), Entry(op.hash, op.key, op.now + ttl), max);
  }

  lemma OwnGetStep<H, K>(s: seq<Entry<H, K>>, ops: seq<Op<H, K>>, max: nat, ttl: int, hash: H)
    requires ops != [] && Retained(ops, max, ttl, hash) && ops[|ops| - 1].Get? && ops[|ops| - 1].hash == hash
    requires AllAlive(s, ops[..|ops| - 1], ttl) && Behind(s, hash, Since(ops[..|ops| - 1], ttl, hash))
    ensures Behind(Apply(s, ops[|ops| - 1], max, ttl), hash, Since(ops, ttl, hash))
  {
    var before, now := ops[..|ops| - 1], ops[|ops| - 1].now;
    HitIsFirst(s, hash, Since(before, ttl, hash), now, Expiry(before, ttl, hash));
  }

  lemma OtherGetStep<H, K>(s: seq<Entry<H, K>>, ops: seq<Op<H, K>>, max: nat, ttl: int, hash: H)
    requires ops != [] && ops[|ops| - 1].Get? && ops[|ops| - 1].hash != hash
    requires AllAlive(s, ops[..|ops| - 1], ttl) && Behind(s, hash, Since(ops[..|ops| - 1], ttl, hash))
    ensures Behind(Apply(s, ops[|ops| - 1], max, ttl), hash, Since(ops, ttl, hash))
  {
    var before, x, now := ops[..|ops| - 1], ops[|ops| - 1].hash, ops[|ops| - 1].now;
    var others := Since(before, ttl, hash);
    BehindAfterGet(s, hash, others, x, now);
    FoundIsAlive(s, before, ttl, x, now);
    BehindMore(AfterGet(s, x, now), hash, FoundOthers(s, others, x, now), Since(ops, ttl, hash));
  }

  lemma FoundIsAlive<H, K>(s: seq<Entry<H, K>>, ops: seq<Op<H, K>>, ttl: int, x: H, now: int)
    requires AllAlive(s, ops, ttl)
    ensures Answer(s, x, now).Some? ==> Alive(ops, ttl, x) && now < Expiry(ops, ttl, x)
  {
  }

  lemma BehindAfterPut<H, K>(s: seq<Entry<H, K>>, hash: H, others: set<H>, e: Entry<H, K>, max: nat)
    requires Behind(s, hash, others) && DistinctHashes(s) && e.hash != hash && |others + {e.hash}| < max
    ensures Behind(AfterPut(s, e, max), hash, others + {e.hash})
  {
    var all := [e] + Drop(s, e.hash);
    BehindDropped(s, hash, others, e.hash);
    BehindPushed(Drop(s, e.hash), hash, others, e);
    if |all| > max {
      DropKeepsDistinct(s, e.hash);
      assert DistinctHashes(all);
      BehindTruncated(all, hash, others + {e.hash}, max);
    }
  }

  lemma HitIsFirst<H, K>(s: seq<Entry<H, K>>, hash: H, others: set<H>, now: int, expiry: int)
    requires Behind(s, hash, others) && now < expiry
    requires forall e | e in s && e.hash == hash :: e.expiresAt == expiry
    ensures Behind(AfterGet(s, hash, now), hash, {})
  {
    BehindIsFound(s, hash, others);
  }

  function FoundOthers<H, K>(s: seq<Entry<H, K>>, others: set<H>, x: H, now: int): set<H> {
    if Answer(s, x, now).Some? then others + {x} else others
  }

  lemma BehindAfterGet<H, K>(s: seq<Entry<H, K>>, hash: H, others: set<H>, x: H, now: int)
    requires Behind(s, hash, others) && x != hash
    ensures Behind(AfterGet(s, x, now), hash, FoundOthers(s, others, x, now))
  {
    BehindDropped(s, hash, others, x);
    if Answer(s, x, now).Some? {
      BehindPushed(Drop(s, x), hash, others, Find(s, x).value);
    }
  }

  /** What is found is as its last put left it. */
  lemma FoundAsPut<H, K>(s: seq<Entry<H, K>>, ops: seq<Op<H, K>>, max: nat, ttl: int, hash: H)
    requires Recency(s, ops, max, ttl) && Find(s, hash).Some?
    ensures var e, p := Find(s, hash).value, LastPut(ops, hash);
      e.hash == hash && 0 <= p < |ops| && ops[p] == Put(hash, e.key, e.expiresAt - ttl)
  {
    var i :| 0 <= i < |s| && s[i] == Find(s, hash).value;
    assert s[i].hash == hash;
  }

  /** A retained hash is in the cache, and a Get before its expiry answers the key of its last put. */
  lemma RetainedAnswers<H, K>(ops: seq<Op<H, K>>, max: nat, ttl: int, hash: H, now: int)
    requires max > 0 && Retained(ops, max, ttl, hash)
    ensures var p := LastPut(ops, hash);
      && 0 <= p < |ops| && ops[p].Put? && ops[p].hash == hash
      && Find(Run(ops, max, ttl), hash) == Some(Entry(hash, ops[p].key, ops[p].now + ttl))
      && (now < ops[p].now + ttl ==> Answer(Run(ops, max, ttl), hash, now) == Some(ops[p].key))
  {
    RetainedIsBehind(ops, max, ttl, hash);
    BehindIsFound(Run(ops, max, ttl), hash, Since(ops, ttl, hash));
    RunRecency(ops, max, ttl);
    FoundAsPut(Run(ops, max, ttl), ops, max, ttl, hash);
  }
}
