/** The selectors of internal/router/strategy/strategy.go. */
module Strategy {
  import opened Wrappers
  import opened Seqs

  datatype Candidate = Candidate(id: string, weight: int, priority: int, healthy: bool, inFlight: int, latencyMs: int)

  datatype Kind = Priority | Weighted | RoundRobin | Random | LeastInFlight | LowestLatency | FirstAvailable

  /** What the random source answers for a bound: any number below it. */
  function Below(draw: nat, bound: int): (r: nat)
    ensures bound > 0 ==> r < bound
  {
    if bound > 0 then draw % bound else 0
  }

  function New(name: string): Kind {
    if name in {"weighted", "weighted_random"} then Weighted
    else if name in {"round_robin", "weighted_round_robin"} then RoundRobin
    else if name == "random" then Random
    else if name in {"least_inflight", "least_used"} then LeastInFlight
    else if name == "lowest_latency" then LowestLatency
    else if name == "first_available" then FirstAvailable
    else Priority
  }

  /** The configured names of each kind; any other name means priority. */
  lemma NamedKinds(name: string)
    ensures New(name) == Weighted <==> name in {"weighted", "weighted_random"}
    ensures New(name) == RoundRobin <==> name in {"round_robin", "weighted_round_robin"}
    ensures New(name) == Random <==> name == "random"
    ensures New(name) == LeastInFlight <==> name in {"least_inflight", "least_used"}
    ensures New(name) == LowestLatency <==> name == "lowest_latency"
    ensures New(name) == FirstAvailable <==> name == "first_available"
  {
  }

  /** A healthy candidate with its weight defaulted to one. */
  function Keep(c: Candidate): seq<Candidate> {
    if c.healthy then [if c.weight <= 0 then c.(weight := 1) else c] else []
  }

  function Healthy(cs: seq<Candidate>): seq<Candidate> {
    FlatMap(cs, Keep)
  }

  method FilterHealthy(cs: seq<Candidate>) returns (out: seq<Candidate>)
    ensures out == Healthy(cs)
  {
    out := [];
    for i := 0 to |cs|
      invariant out == FlatMap(cs[..i], Keep)
    {
      FlatMapStep(cs, i, Keep);
      var c := cs[i];
      if c.healthy {
        if c.weight <= 0 {
          c := c.(weight := 1);
        }
        out := out + [c];
      }
    }
    assert cs[..|cs|] == cs;
  }

  lemma HealthyAreHealthy(cs: seq<Candidate>)
    ensures forall c | c in Healthy(cs) :: c.healthy && c.weight >= 1
  {
    forall c | c in Healthy(cs) ensures c.healthy && c.weight >= 1 {
      var x := FlatMapFrom(cs, Keep, c);
    }
  }

  function HealthyCount(cs: seq<Candidate>): nat {
    if cs == [] then 0 else (if cs[0].healthy then 1 else 0) + HealthyCount(cs[1..])
  }

  /** Filtering keeps each healthy candidate, in its place among them, and only defaults its weight. */
  lemma {:induction false} HealthyPlace(cs: seq<Candidate>, j: nat)
    requires j < |cs| && cs[j].healthy
    ensures |Healthy(cs)| == HealthyCount(cs)
    ensures var place, c := HealthyCount(cs[..j]), cs[j];
      place < |Healthy(cs)| && Healthy(cs)[place] == c.(weight := if c.weight > 0 then c.weight else 1)
  {
    HealthyLength(cs);
    if j > 0 {
      HealthyPlace(cs[1..], j - 1);
      assert cs[..j][1..] == cs[1..][..j - 1] && cs[..j][0] == cs[0];
    }
  }

  lemma {:induction false} HealthyLength(cs: seq<Candidate>)
    ensures |Healthy(cs)| == HealthyCount(cs)
  {
    if cs != [] {
      HealthyLength(cs[1..]);
    }
  }

  // ---------- The first least by a key ----------

  /** The index of the first element whose key no other element undercuts. */
  function FirstLeast(cs: seq<Candidate>, key: Candidate -> int): (i: nat)
    requires cs != []
    ensures i < |cs|
    ensures forall j | 0 <= j < |cs| :: key(cs[i]) <= key(cs[j])
    ensures forall j | 0 <= j < i :: key(cs[i]) < key(cs[j])
  {
    if |cs| == 1 then 0
    else
      var last := |cs| - 1;
      var best := FirstLeast(cs[..last], key);
      assert forall j | 0 <= j < last :: cs[..last][j] == cs[j];
      if key(cs[last]) < key(cs[best]) then last else best
  }

  function ByPriority(c: Candidate): int { c.priority }

  function ByInFlight(c: Candidate): int { c.inFlight }

  function ByLatency(c: Candidate): int { c.latencyMs }

  /** The first healthy candidate of least key in the unfiltered list. */
  predicate IsFirstLeastHealthy(cs: seq<Candidate>, key: Candidate -> int, j: nat) {
    && j < |cs| && cs[j].healthy
    && forall i | 0 <= i < |cs| && cs[i].healthy ::
         key(cs[j]) <= key(cs[i]) && (i < j ==> key(cs[j]) < key(cs[i]))
  }

  /** The key does not look at the weight, which filtering defaults. */
  ghost predicate IgnoresWeight(key: Candidate -> int) {
    forall c: Candidate, w: int :: key(c.(weight := w)) == key(c)
  }

  lemma OneMoreHealthy(init: seq<Candidate>, c: Candidate, key: Candidate -> int, j: nat)
    requires IsFirstLeastHealthy(init, key, j)
    ensures IsFirstLeastHealthy(init + [c], key, if c.healthy && key(c) < key(init[j]) then |init| else j)
  {
  }

  lemma LeastOfMore(front: seq<Candidate>, c: Candidate, key: Candidate -> int)
    requires front != []
    ensures var best := FirstLeast(front, key);
      FirstLeast(front + [c], key) == if key(c) < key(front[best]) then |front| else best
  {
    assert (front + [c])[..|front|] == front;
  }

  lemma HealthyGrows(init: seq<Candidate>, c: Candidate)
    ensures Healthy(init + [c]) == Healthy(init) + Keep(c)
  {
    FlatMapAppend(init, [c], Keep);
    FlatMapOne(c, Keep);
  }

  lemma OnlyLastHealthy(init: seq<Candidate>, c: Candidate, key: Candidate -> int)
    requires Healthy(init) == [] && c.healthy
    ensures IsFirstLeastHealthy(init + [c], key, |init|)
  {
    forall i | 0 <= i < |init| ensures !init[i].healthy {
      if init[i].healthy {
        HealthyKeeps(init, init[i]);
      }
    }
  }

  /** Seen from the unfiltered list, the least by a key is the first healthy one of least key. */
  lemma {:induction false} FirstLeastHealthy(cs: seq<Candidate>, key: Candidate -> int) returns (j: nat)
    requires Healthy(cs) != [] && IgnoresWeight(key)
    ensures IsFirstLeastHealthy(cs, key, j)
    ensures Keep(cs[j]) == [Healthy(cs)[FirstLeast(Healthy(cs), key)]]
  {
    assert cs != [] by {
      assert Healthy([]) == [];
    }
    var init, c := cs[..|cs| - 1], cs[|cs| - 1];
    var front := Healthy(init);
    assert init + [c] == cs;
    HealthyGrows(init, c);
    if front == [] {
      j := |init|;
      OnlyLastHealthy(init, c, key);
      assert [] + Keep(c) == Keep(c);
    } else {
      j := FirstLeastHealthy(init, key);
      OneMoreHealthy(init, c, key, j);
      if !c.healthy {
        assert front + [] == front;
      } else {
        LeastOfMore(front, Keep(c)[0], key);
        if key(c) < key(init[j]) {
          j := |init|;
        }
      }
    }
  }

  /** The loop shared by Priority, LeastInFlight and LowestLatency. */
  lemma LeastOfOneMore(cs: seq<Candidate>, i: nat, key: Candidate -> int)
    requires 0 < i < |cs|
    ensures var best := cs[..i][FirstLeast(cs[..i], key)];
            cs[..i + 1][FirstLeast(cs[..i + 1], key)] == if key(cs[i]) < key(best) then cs[i] else best
  {
    assert cs[..i + 1][..i] == cs[..i];
  }

  method SelectLeast(cs: seq<Candidate>, key: Candidate -> int) returns (r: Option<Candidate>)
    ensures r == Least(Healthy(cs), key)
  {
    var candidates := FilterHealthy(cs);
    if |candidates| == 0 {
      return None;
    }
    var best := candidates[0];
    assert candidates[..1] == [candidates[0]];
    for i := 1 to |candidates|
      invariant best == candidates[..i][FirstLeast(candidates[..i], key)]
    {
      LeastOfOneMore(candidates, i, key);
      if key(candidates[i]) < key(best) {
        best := candidates[i];
      }
    }
    assert candidates[..|candidates|] == candidates;
    r := Some(best);
  }

  function Least(healthy: seq<Candidate>, key: Candidate -> int): Option<Candidate> {
    if healthy == [] then None else Some(healthy[FirstLeast(healthy, key)])
  }

  // ---------- Weighted ----------

  function Total(cs: seq<Candidate>): int {
    if cs == [] then 0 else cs[0].weight + Total(cs[1..])
  }

  /** Where the subtracting walk stops; the last index when it runs off the end. */
  function WeightedIndex(cs: seq<Candidate>, rnd: int): (i: nat)
    requires cs != []
    ensures i < |cs|
  {
    if rnd < cs[0].weight || |cs| == 1 then 0 else 1 + WeightedIndex(cs[1..], rnd - cs[0].weight)
  }

  method SumWeights(candidates: seq<Candidate>) returns (total: int)
    ensures total == Total(candidates)
  {
    total := 0;
    assert candidates[0..] == candidates;
    for i := 0 to |candidates|
      invariant total + Total(candidates[i..]) == Total(candidates)
    {
      assert candidates[i..][1..] == candidates[i + 1..];
      total := total + candidates[i].weight;
    }
  }

  /** The loop that draws down the weights; past the last one the last candidate is returned. */
  method SeekWeight(candidates: seq<Candidate>, draw: int) returns (r: Candidate)
    requires candidates != []
    ensures r == candidates[WeightedIndex(candidates, draw)]
  {
    var rnd := draw;
    for i := 0 to |candidates|
      invariant i < |candidates| ==> i + WeightedIndex(candidates[i..], rnd) == WeightedIndex(candidates, draw)
      invariant i == |candidates| ==> WeightedIndex(candidates, draw) == |candidates| - 1
    {
      assert candidates[i..][0] == candidates[i] && candidates[i..][1..] == candidates[i + 1..];
      if rnd < candidates[i].weight {
        return candidates[i];
      }
      rnd := rnd - candidates[i].weight;
    }
    r := candidates[|candidates| - 1];
  }

  method SelectWeighted(cs: seq<Candidate>, draw: nat) returns (r: Option<Candidate>)
    ensures var healthy := Healthy(cs);
            r == if healthy == [] then None else Some(healthy[WeightedIndex(healthy, Below(draw, Total(healthy)))])
  {
    var candidates := FilterHealthy(cs);
    if |candidates| == 0 {
      return None;
    }
    HealthyAreHealthy(cs);
    TotalPositive(candidates);
    var total := SumWeights(candidates);
    var chosen := SeekWeight(candidates, Below(draw, total));
    r := Some(chosen);
  }

  lemma {:induction false} TotalPositive(cs: seq<Candidate>)
    requires forall c | c in cs :: c.weight >= 1
    ensures Total(cs) >= |cs|
  {
    if cs != [] {
      TotalPositive(cs[1..]);
    }
  }

  /** The draws that reach index i are the interval between two partial sums. */
  lemma {:induction false} WeightedInterval(cs: seq<Candidate>, rnd: int, i: nat)
    requires forall c | c in cs :: c.weight >= 1
    requires 0 <= rnd < Total(cs) && i < |cs|
    ensures WeightedIndex(cs, rnd) == i <==> Total(cs[..i]) <= rnd < Total(cs[..i]) + cs[i].weight
  {
    if i == 0 {
      assert cs[..0] == [];
      assert |cs| == 1 ==> cs[1..] == [];
    } else {
      assert cs[..i][1..] == cs[1..][..i - 1] && cs[..i][0] == cs[0];
      TotalPositive(cs[1..][..i - 1]);
      if rnd >= cs[0].weight {
        WeightedInterval(cs[1..], rnd - cs[0].weight, i - 1);
      }
    }
  }

  lemma {:induction false} TotalPrefix(cs: seq<Candidate>, i: nat)
    requires i < |cs| && forall c | c in cs :: c.weight >= 1
    ensures 0 <= Total(cs[..i]) && Total(cs[..i]) + cs[i].weight <= Total(cs)
  {
    if i == 0 {
      TotalPositive(cs[1..]);
    } else {
      TotalPrefix(cs[1..], i - 1);
      assert cs[..i][1..] == cs[1..][..i - 1];
    }
  }

  /** How many of the draws 0 .. bound-1 reach index i. */
  function DrawsReaching(cs: seq<Candidate>, i: nat, bound: int): nat
    requires cs != []
    decreases bound
  {
    if bound <= 0 then 0
    else DrawsReaching(cs, i, bound - 1) + (if WeightedIndex(cs, bound - 1) == i then 1 else 0)
  }

  lemma {:induction false} DrawsReachingCount(cs: seq<Candidate>, i: nat, bound: int)
    requires forall c | c in cs :: c.weight >= 1
    requires i < |cs| && 0 <= bound <= Total(cs)
    ensures var lo, hi := Total(cs[..i]), Total(cs[..i]) + cs[i].weight;
            DrawsReaching(cs, i, bound) == if bound <= lo then 0 else if bound <= hi then bound - lo else cs[i].weight
  {
    TotalPrefix(cs, i);
    if bound != 0 {
      WeightedInterval(cs, bound - 1, i);
      DrawsReachingCount(cs, i, bound - 1);
    }
  }

  /** Each healthy candidate is picked by exactly as many of the equally likely draws as its weight. */
  lemma WeightedFair(cs: seq<Candidate>, i: nat)
    requires i < |Healthy(cs)|
    ensures var healthy := Healthy(cs);
            healthy[i].healthy && DrawsReaching(healthy, i, Total(healthy)) == healthy[i].weight
  {
    var healthy := Healthy(cs);
    HealthyAreHealthy(cs);
    TotalPrefix(healthy, i);
    TotalPositive(healthy);
    DrawsReachingCount(healthy, i, Total(healthy));
  }

  /** So each healthy candidate of the unfiltered list is picked by as many draws as its own weight, or one. */
  lemma WeightedShare(cs: seq<Candidate>, j: nat)
    requires j < |cs| && cs[j].healthy
    ensures var place, healthy := HealthyCount(cs[..j]), Healthy(cs);
      place < |healthy|
      && DrawsReaching(healthy, place, Total(healthy)) == if cs[j].weight > 0 then cs[j].weight else 1
  {
    HealthyPlace(cs, j);
    WeightedFair(cs, HealthyCount(cs[..j]));
  }

  /** The walk always stops inside the list: the return after the loop is never reached. */
  lemma {:induction false} WeightedNeverFallsThrough(cs: seq<Candidate>, rnd: int)
    requires forall c | c in cs :: c.weight >= 1
    requires 0 <= rnd < Total(cs)
    ensures var i := WeightedIndex(cs, rnd); rnd - Total(cs[..i]) < cs[i].weight
  {
    WeightedInterval(cs, rnd, WeightedIndex(cs, rnd));
  }

  // ---------- Round robin ----------

  class RoundRobinSelector {
    var next: nat

    constructor ()
      ensures next == 0
    {
      next := 0;
    }

    method Select(cs: seq<Candidate>) returns (r: Option<Candidate>)
      modifies this
      ensures var healthy := Healthy(cs);
              if healthy == [] then r == None && next == old(next)
              else r == Some(healthy[old(next) % |healthy|]) && next == (old(next) + 1) % |healthy|
    {
      var candidates := FilterHealthy(cs);
      if |candidates| == 0 {
        return None;
      }
      var idx := next % |candidates|;
      next := (next + 1) % |candidates|;
      r := Some(candidates[idx]);
    }

    /** One select of several, whose indices over the healthy candidates are these. */
    method SelectInOrder(cs: seq<Candidate>, ghost order: seq<nat>, ghost i: nat) returns (pick: Candidate)
      requires Healthy(cs) != [] && i < |order| && order[i..] == RoundRobinPicks(next, |Healthy(cs)|, |order| - i)
      modifies this
      ensures order[i] < |Healthy(cs)| && pick == Healthy(cs)[order[i]]
      ensures order[i + 1..] == RoundRobinPicks(next, |Healthy(cs)|, |order| - (i + 1))
    {
      PicksGoOn(order, i, next, |Healthy(cs)|, |order| - i);
      var selected := Select(cs);
      pick := selected.value;
    }

    method SelectMany(cs: seq<Candidate>, k: nat) returns (picks: seq<Candidate>)
      requires Healthy(cs) != []
      modifies this
      ensures |picks| == k
      ensures forall j | 0 <= j < k :: picks[j] == Healthy(cs)[RoundRobinPicks(old(next), |Healthy(cs)|, k)[j]]
    {
      ghost var order := RoundRobinPicks(next, |Healthy(cs)|, k);
      picks := [];
      for i := 0 to k
        invariant |picks| == i && order[i..] == RoundRobinPicks(next, |Healthy(cs)|, k - i)
        invariant forall j | 0 <= j < i :: picks[j] == Healthy(cs)[order[j]]
      {
        var pick := SelectInOrder(cs, order, i);
        picks := picks + [pick];
      }
    }

    /** Consecutive selects over a list that stays the same; as many as are healthy pick each exactly once. */
    method SelectTimes(cs: seq<Candidate>, k: nat) returns (picks: seq<Candidate>)
      requires Healthy(cs) != []
      modifies this
      ensures |picks| == k
      ensures forall j | 0 <= j < k :: picks[j] == Healthy(cs)[RoundRobinPicks(old(next), |Healthy(cs)|, k)[j]]
      ensures k == |Healthy(cs)| ==> multiset(picks) == multiset(Healthy(cs))
    {
      picks := SelectMany(cs, k);
      if k == |Healthy(cs)| {
        RoundRobinRound(Healthy(cs), old(next), RoundRobinPicks(old(next), k, k), picks);
      }
    }
  }

  /** The indices k selects on one selector return, over a list of n healthy candidates. */
  function RoundRobinPicks(next: nat, n: nat, k: nat): (picks: seq<nat>)
    requires n > 0
    ensures |picks| == k && forall j | 0 <= j < k :: picks[j] < n
    decreases k
  {
    if k == 0 then [] else [next % n] + RoundRobinPicks((next + 1) % n, n, k - 1)
  }

  lemma PicksGoOn(order: seq<nat>, i: nat, next: nat, n: nat, k: nat)
    requires n > 0 && k > 0 && i < |order| && order[i..] == RoundRobinPicks(next, n, k)
    ensures order[i] == next % n && order[i + 1..] == RoundRobinPicks((next + 1) % n, n, k - 1)
  {
    assert order[i] == order[i..][0] && order[i + 1..] == order[i..][1..];
  }

  lemma MulGrows(d: int, n: nat)
    requires n > 0
    ensures d >= 1 ==> d * n >= n
    ensures d <= -1 ==> d * n + n <= 0
  {
    assert d >= 1 ==> (d - 1) * n >= 0;
    assert d <= -1 ==> (-d - 1) * n >= 0;
  }

  lemma ModIs(x: nat, q: nat, r: nat, n: nat)
    requires n > 0 && r < n && x == q * n + r
    ensures x % n == r
  {
    var d: int := q - x / n;
    var p: int := x / n;
    assert d * n == q * n - p * n;
    MulGrows(d, n);
  }

  lemma SuccessorMod(x: nat, n: nat)
    requires n > 0
    ensures (x + 1) % n == if x % n + 1 < n then x % n + 1 else 0
  {
    var q, r := x / n, x % n;
    if r + 1 < n {
      ModIs(x + 1, q, r + 1, n);
    } else {
      assert (q + 1) * n == q * n + n;
      ModIs(x + 1, q + 1, 0, n);
    }
  }

  function Wrapped(x: int, n: nat): int {
    if x < n then x else x - n
  }

  lemma {:induction false} RoundRobinPick(start: nat, n: nat, k: nat, j: nat)
    requires start < n && j < k <= n
    ensures RoundRobinPicks(start, n, k)[j] == Wrapped(start + j, n)
    decreases j
  {
    ModIs(start, 0, start, n);
    if j > 0 {
      SuccessorMod(start, n);
      RoundRobinPick((start + 1) % n, n, k - 1, j - 1);
    }
  }

  lemma RoundRobinStart(next: nat, n: nat, k: nat)
    requires n > 0
    ensures RoundRobinPicks(next, n, k) == RoundRobinPicks(next % n, n, k)
  {
    SuccessorMod(next, n);
    ModIs(next % n, 0, next % n, n);
    SuccessorMod(next % n, n);
  }

  lemma RoundRobinOrder(next: nat, n: nat)
    requires n > 0
    ensures forall j | 0 <= j < n :: RoundRobinPicks(next, n, n)[j] == Wrapped(next % n + j, n)
  {
    RoundRobinStart(next, n, n);
    forall j | 0 <= j < n ensures RoundRobinPicks(next, n, n)[j] == Wrapped(next % n + j, n) {
      RoundRobinPick(next % n, n, n, j);
    }
  }

  /** Any n consecutive selects over n healthy candidates return each exactly once, from any start. */
  lemma RoundRobinFair(next: nat, n: nat, i: nat)
    requires i < n
    ensures var picks := RoundRobinPicks(next, n, n);
            exists j :: 0 <= j < n && picks[j] == i && forall k | 0 <= k < n && picks[k] == i :: k == j
  {
    var start := next % n;
    var j := if start <= i then i - start else i + n - start;
    RoundRobinOrder(next, n);
    assert RoundRobinPicks(next, n, n)[j] == i;
  }

  lemma Rotated<T>(s: seq<T>, start: nat, r: seq<T>)
    requires start <= |s| == |r| && forall j | 0 <= j < |s| :: r[j] == s[Wrapped(start + j, |s|)]
    ensures multiset(r) == multiset(s)
  {
    assert r == s[start..] + s[..start];
    assert s == s[..start] + s[start..];
  }

  /** So the candidates picked are the healthy ones, each as often as it is listed. */
  lemma RoundRobinPermutes(healthy: seq<Candidate>, start: nat, order: seq<nat>, picks: seq<Candidate>)
    requires |order| == |picks| == |healthy| && start < |healthy|
    requires forall j | 0 <= j < |order| :: order[j] == Wrapped(start + j, |healthy|)
    requires forall j | 0 <= j < |order| :: order[j] < |healthy| && picks[j] == healthy[order[j]]
    ensures multiset(picks) == multiset(healthy)
  {
    Rotated(healthy, start, picks);
  }

  lemma RoundRobinRound(healthy: seq<Candidate>, next: nat, order: seq<nat>, picks: seq<Candidate>)
    requires |picks| == |healthy| > 0 && order == RoundRobinPicks(next, |healthy|, |healthy|)
    requires forall j | 0 <= j < |order| :: picks[j] == healthy[order[j]]
    ensures multiset(picks) == multiset(healthy)
  {
    RoundRobinOrder(next, |healthy|);
    RoundRobinPermutes(healthy, next % |healthy|, order, picks);
  }

  // ---------- One selection by a fresh selector ----------

  function Select(kind: Kind, cs: seq<Candidate>, draw: nat): Option<Candidate> {
    var healthy := Healthy(cs);
    if healthy == [] then None
    else match kind
      case Priority => Least(healthy, ByPriority)
      case LeastInFlight => Least(healthy, ByInFlight)
      case LowestLatency => Least(healthy, ByLatency)
      case Weighted => Some(healthy[WeightedIndex(healthy, Below(draw, Total(healthy)))])
      case Random => Some(healthy[Below(draw, |healthy|)])
      case RoundRobin => Some(healthy[0])
      case FirstAvailable => Some(healthy[0])
  }

  lemma HealthyKeeps(cs: seq<Candidate>, c: Candidate)
    requires c in cs && c.healthy
    ensures Healthy(cs) != []
  {
    var i :| 0 <= i < |cs| && cs[i] == c;
    FlatMapAppend(cs[..i], cs[i..], Keep);
    assert cs[..i] + cs[i..] == cs;
    assert Keep(c) != [] && FlatMap(cs[i..], Keep) != [];
  }

  /** Every strategy answers exactly when someone is healthy, with a healthy candidate. */
  lemma SelectsHealthy(kind: Kind, cs: seq<Candidate>, draw: nat)
    ensures Select(kind, cs, draw).Some? <==> exists c :: c in cs && c.healthy
    ensures Select(kind, cs, draw).Some? ==>
              exists c :: c in cs && c.healthy && c.id == Select(kind, cs, draw).value.id
  {
    var healthy := Healthy(cs);
    if exists c :: c in cs && c.healthy {
      var c :| c in cs && c.healthy;
      HealthyKeeps(cs, c);
    }
    if healthy != [] {
      var chosen := Select(kind, cs, draw).value;
      assert chosen in healthy;
      var c := FlatMapFrom(cs, Keep, chosen);
      assert c in cs && c.healthy && c.id == chosen.id;
    }
  }

  /** What each kind of fresh selector chooses, seen from the unfiltered list: for the three kinds that compare, the
      first healthy candidate of least priority, calls in flight, or latency; for two, simply the first healthy one. */
  lemma ChoosesFirst(kind: Kind, cs: seq<Candidate>, draw: nat) returns (j: nat)
    requires Healthy(cs) != [] && !kind.Weighted? && !kind.Random?
    ensures j < |cs| && cs[j].healthy && Keep(cs[j]) == [Select(kind, cs, draw).value]
    ensures forall i | 0 <= i < |cs| && cs[i].healthy ::
      match kind
      case Priority => cs[j].priority < cs[i].priority || (cs[j].priority == cs[i].priority && j <= i)
      case LeastInFlight => cs[j].inFlight < cs[i].inFlight || (cs[j].inFlight == cs[i].inFlight && j <= i)
      case LowestLatency => cs[j].latencyMs < cs[i].latencyMs || (cs[j].latencyMs == cs[i].latencyMs && j <= i)
      case _ => j <= i
  {
    match kind
    case Priority => j := FirstLeastHealthy(cs, ByPriority);
    case LeastInFlight => j := FirstLeastHealthy(cs, ByInFlight);
    case LowestLatency => j := FirstLeastHealthy(cs, ByLatency);
    case _ => j := FirstHealthy(cs);
  }

  lemma {:induction false} FirstHealthy(cs: seq<Candidate>) returns (j: nat)
    requires Healthy(cs) != []
    ensures j < |cs| && cs[j].healthy && Keep(cs[j]) == [Healthy(cs)[0]]
    ensures forall i | 0 <= i < j :: !cs[i].healthy
  {
    if cs[0].healthy {
      j := 0;
    } else {
      j := FirstHealthy(cs[1..]);
      j := j + 1;
    }
  }

  lemma BelowItself(draw: nat, bound: int)
    requires draw < bound
    ensures Below(draw, bound) == draw
  {
    ModIs(draw, 0, draw, bound);
  }

  /** Random chooses the healthy candidate the draw numbers. */
  lemma RandomChooses(cs: seq<Candidate>, draw: nat)
    requires draw < |Healthy(cs)|
    ensures Select(Random, cs, draw) == Some(Healthy(cs)[draw])
  {
    BelowItself(draw, |Healthy(cs)|);
  }

  /** Weighted chooses the healthy candidate whose interval of partial weights holds the draw. */
  lemma WeightedChooses(cs: seq<Candidate>, draw: nat, i: nat)
    requires i < |Healthy(cs)| && draw < Total(Healthy(cs))
    requires Total(Healthy(cs)[..i]) <= draw < Total(Healthy(cs)[..i]) + Healthy(cs)[i].weight
    ensures Select(Weighted, cs, draw) == Some(Healthy(cs)[i])
  {
    BelowItself(draw, Total(Healthy(cs)));
    HealthyAreHealthy(cs);
    WeightedInterval(Healthy(cs), draw, i);
  }

  method SelectOnce(kind: Kind, cs: seq<Candidate>, draw: nat) returns (r: Option<Candidate>)
    ensures r == Select(kind, cs, draw)
  {
    match kind
    case Priority => r := SelectLeast(cs, ByPriority);
    case LeastInFlight => r := SelectLeast(cs, ByInFlight);
    case LowestLatency => r := SelectLeast(cs, ByLatency);
    case Weighted => r := SelectWeighted(cs, draw);
    case RoundRobin =>
      var selector := new RoundRobinSelector();
      r := selector.Select(cs);
    case Random =>
      var candidates := FilterHealthy(cs);
      r := if |candidates| == 0 then None else Some(candidates[Below(draw, |candidates|)]);
    case FirstAvailable =>
      var candidates := FilterHealthy(cs);
      r := if |candidates| == 0 then None else Some(candidates[0]);
  }
}
