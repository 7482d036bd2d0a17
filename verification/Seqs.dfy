/** Sequences built piece by piece: what a Go loop that appends zero or more items per element computes. */
module Seqs {
  function FlatMap<S, T>(s: seq<S>, f: S -> seq<T>): seq<T> {
    if s == [] then [] else f(s[0]) + FlatMap(s[1..], f)
  }

  lemma FlatMapOne<S, T>(x: S, f: S -> seq<T>)
    ensures FlatMap([x], f) == f(x)
  {
  }

  lemma {:induction false} FlatMapAppend<S, T>(a: seq<S>, b: seq<S>, f: S -> seq<T>)
    ensures FlatMap(a + b, f) == FlatMap(a, f) + FlatMap(b, f)
  {
    if a == [] {
      assert a + b == b;
      return;
    }
    assert (a + b)[1..] == a[1..] + b;
    FlatMapAppend(a[1..], b, f);
    Assoc(f(a[0]), FlatMap(a[1..], f), FlatMap(b, f));
  }

  /** Two passes are one pass, when h does to each element what the two passes do. */
  lemma {:induction false} FlatMapFuse<S, T, U>(s: seq<S>, f: S -> seq<T>, g: T -> seq<U>, h: S -> seq<U>)
    requires forall x | x in s :: FlatMap(f(x), g) == h(x)
    ensures FlatMap(FlatMap(s, f), g) == FlatMap(s, h)
  {
    if s != [] {
      FlatMapFuse(s[1..], f, g, h);
      FlatMapAppend(f(s[0]), FlatMap(s[1..], f), g);
    }
  }

  lemma {:induction false} FlatMapNone<S, T>(s: seq<S>, f: S -> seq<T>)
    requires forall x | x in s :: f(x) == []
    ensures FlatMap(s, f) == []
  {
    if s != [] {
      FlatMapNone(s[1..], f);
    }
  }

  lemma {:induction false} FlatMapAll<S>(s: seq<S>, f: S -> seq<S>)
    requires forall x | x in s :: f(x) == [x]
    ensures FlatMap(s, f) == s
  {
    if s != [] {
      FlatMapAll(s[1..], f);
    }
  }

  /** Every item comes from some element. */
  lemma {:induction false} FlatMapFrom<S, T>(s: seq<S>, f: S -> seq<T>, y: T) returns (x: S)
    requires y in FlatMap(s, f)
    ensures x in s && y in f(x)
  {
    if y in f(s[0]) {
      x := s[0];
    } else {
      x := FlatMapFrom(s[1..], f, y);
    }
  }

  /** One loop step: the prefix done so far grows by what the next element gives. */
  lemma FlatMapStep<S, T>(s: seq<S>, i: nat, f: S -> seq<T>)
    requires i < |s|
    ensures FlatMap(s[..i + 1], f) == FlatMap(s[..i], f) + f(s[i])
  {
    FlatMapAppend(s[..i], [s[i]], f);
    assert s[..i + 1] == s[..i] + [s[i]];
    FlatMapOne(s[i], f);
  }

  lemma Assoc<T>(a: seq<T>, b: seq<T>, c: seq<T>)
    ensures (a + b) + c == a + (b + c)
  {
  }

  // ---------- Sums ----------

  function Sum<T>(s: seq<T>, w: T -> nat): nat {
    if s == [] then 0 else w(s[0]) + Sum(s[1..], w)
  }

  lemma {:induction false} SumUpdate<T>(s: seq<T>, i: nat, x: T, w: T -> nat)
    requires i < |s|
    ensures Sum(s[i := x], w) == Sum(s, w) - w(s[i]) + w(x)
  {
    var u := s[i := x];
    if i > 0 {
      assert u[1..] == s[1..][i - 1 := x];
      SumUpdate(s[1..], i - 1, x, w);
    } else {
      assert u[1..] == s[1..];
    }
  }

  lemma {:induction false} SumAppend<T>(s: seq<T>, x: T, w: T -> nat)
    ensures Sum(s + [x], w) == Sum(s, w) + w(x)
  {
    var u := s + [x];
    if s == [] {
      assert u == [x] && u[1..] == [];
    } else {
      assert u[1..] == s[1..] + [x];
      SumAppend(s[1..], x, w);
    }
  }

  lemma {:induction false} SumAtMost<T>(s: seq<T>, v: T -> nat, w: T -> nat)
    requires forall x | x in s :: v(x) <= w(x)
    ensures Sum(s, v) <= Sum(s, w)
  {
    if s != [] {
      assert s[0] in s;
      SumAtMost(s[1..], v, w);
    }
  }

  lemma {:induction false} SumAtMostTwo<T>(s: seq<T>, v: T -> nat, w: T -> nat, u: T -> nat)
    requires forall x | x in s :: v(x) <= w(x) + u(x)
    ensures Sum(s, v) <= Sum(s, w) + Sum(s, u)
  {
    if s != [] {
      assert s[0] in s;
      SumAtMostTwo(s[1..], v, w, u);
    }
  }
}
