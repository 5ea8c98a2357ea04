/** Collecting, from each element of a sequence in order, a short sequence. */
module Sequences {
  function Collect<T, U>(f: T -> seq<U>, xs: seq<T>): (r: seq<U>)
  {
    if xs == [] then [] else Collect(f, xs[..|xs| - 1]) + f(xs[|xs| - 1])
  }

  lemma {:induction false} CollectConcat<T, U>(f: T -> seq<U>, a: seq<T>, b: seq<T>)
    ensures Collect(f, a + b) == Collect(f, a) + Collect(f, b)
    decreases |b|
  {
    if b == [] {
      assert a + b == a;
    } else {
      var init, last := b[..|b| - 1], f(b[|b| - 1]);
      assert (a + b)[..|a + b| - 1] == a + init;
      CollectConcat(f, a, init);
      assert Collect(f, a) + Collect(f, init) + last == Collect(f, a) + (Collect(f, init) + last);
    }
  }

  lemma CollectOne<T, U>(f: T -> seq<U>, x: T)
    ensures Collect(f, [x]) == f(x)
  {
    assert [x][..0] == [];
    assert [] + f(x) == f(x);
  }

  lemma CollectAppend<T, U>(f: T -> seq<U>, xs: seq<T>, x: T)
    ensures Collect(f, xs + [x]) == Collect(f, xs) + f(x)
  {
    assert (xs + [x])[..|xs|] == xs;
  }

  /** Prefixes of a sequence give prefixes of what is collected, one element at a time. */
  lemma CollectStep<T, U>(f: T -> seq<U>, xs: seq<T>, k: nat)
    requires k < |xs|
    ensures Collect(f, xs[..k + 1]) == Collect(f, xs[..k]) + f(xs[k])
  {
    assert xs[..k + 1] == xs[..k] + [xs[k]];
    CollectAppend(f, xs[..k], xs[k]);
  }

  lemma {:induction false} CollectAgree<S, T, U>(f: S -> seq<U>, g: T -> seq<U>, xs: seq<S>, ys: seq<T>)
    requires |xs| == |ys| && forall k :: 0 <= k < |xs| ==> f(xs[k]) == g(ys[k])
    ensures Collect(f, xs) == Collect(g, ys)
    decreases |xs|
  {
    if xs == [] {
    } else {
      var n := |xs| - 1;
      CollectAgree(f, g, xs[..n], ys[..n]);
      assert f(xs[n]) == g(ys[n]);
    }
  }

  lemma {:induction false} CollectNothing<T, U>(f: T -> seq<U>, xs: seq<T>)
    requires forall k :: 0 <= k < |xs| ==> f(xs[k]) == []
    ensures Collect(f, xs) == []
    decreases |xs|
  {
    if xs == [] {
    } else {
      CollectNothing(f, xs[..|xs| - 1]);
      assert f(xs[|xs| - 1]) == [];
    }
  }

  /** One element from each. */
  lemma {:induction false} CollectSingles<T, U>(f: T -> seq<U>, xs: seq<T>, ys: seq<U>)
    requires |xs| == |ys| && forall k :: 0 <= k < |xs| ==> f(xs[k]) == [ys[k]]
    ensures Collect(f, xs) == ys
    decreases |xs|
  {
    if xs == [] {
    } else {
      var n := |xs| - 1;
      CollectSingles(f, xs[..n], ys[..n]);
      assert f(xs[n]) == [ys[n]];
      assert ys == ys[..n] + [ys[n]];
    }
  }

  lemma Associate<T>(a: seq<T>, b: seq<T>, c: seq<T>)
    ensures a + b + c == a + (b + c)
  {
  }

  /** Regrouping four summands. */
  lemma Regroup<T>(a: seq<T>, b: seq<T>, c: seq<T>, d: seq<T>, e: seq<T>)
    requires b + c == d + e
    ensures a + b + c == a + d + e
  {
    assert a + b + c == a + (b + c);
    assert a + (d + e) == a + d + e;
  }
}
