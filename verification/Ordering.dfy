/** Total orders, and the elements of a finite set in ascending order. */
module Ordering {
  ghost predicate TotalOrder<T(!new)>(leq: (T, T) -> bool)
  {
    && (forall a, b :: leq(a, b) || leq(b, a))
    && (forall a, b :: leq(a, b) && leq(b, a) ==> a == b)
    && (forall a, b, c :: leq(a, b) && leq(b, c) ==> leq(a, c))
  }

  predicate IsLeast<T(==)>(leq: (T, T) -> bool, s: set<T>, x: T)
  {
    x in s && forall y :: y in s ==> leq(x, y)
  }

  lemma {:induction false} LeastExists<T(!new)>(leq: (T, T) -> bool, s: set<T>)
    requires TotalOrder(leq) && s != {}
    ensures exists x :: IsLeast(leq, s, x)
    decreases |s|
  {
    var x :| x in s;
    var rest := s - {x};
    if rest == {} {
      assert s == {x} && IsLeast(leq, s, x);
    } else {
      LeastExists(leq, rest);
      var y :| IsLeast(leq, rest, y);
      assert IsLeast(leq, s, if leq(x, y) then x else y);
    }
  }

  function Least<T(!new, ==)>(leq: (T, T) -> bool, s: set<T>): (x: T)
    requires TotalOrder(leq) && s != {}
    ensures IsLeast(leq, s, x)
  {
    LeastExists(leq, s);
    var x :| x in s && IsLeast(leq, s, x);
    x
  }

  predicate Ascends<T(==)>(leq: (T, T) -> bool, xs: seq<T>)
  {
    forall j, k :: 0 <= j < k < |xs| ==> leq(xs[j], xs[k]) && xs[j] != xs[k]
  }

  /** The elements of a set in ascending order. */
  function Sorted<T(!new, ==)>(leq: (T, T) -> bool, s: set<T>): (xs: seq<T>)
    requires TotalOrder(leq)
    ensures Ascends(leq, xs)
    ensures forall x :: x in xs <==> x in s
    decreases |s|
  {
    if s == {} then []
    else
      var x := Least(leq, s);
      [x] + Sorted(leq, s - {x})
  }

  lemma {:induction false} SortedSize<T(!new)>(leq: (T, T) -> bool, s: set<T>)
    requires TotalOrder(leq)
    ensures |Sorted(leq, s)| == |s|
    decreases |s|
  {
    if s == {} {
    } else {
      SortedSize(leq, s - {Least(leq, s)});
    }
  }

  /** Order of texts by their first differing character: Rust and Python order texts alike. */
  predicate AtMost(a: string, b: string)
  {
    a == [] || (b != [] && (a[0] < b[0] || (a[0] == b[0] && AtMost(a[1..], b[1..]))))
  }

  lemma {:induction false} AtMostTotal(a: string, b: string)
    ensures AtMost(a, b) || AtMost(b, a)
  {
    if a == [] || b == [] {
    } else {
      AtMostTotal(a[1..], b[1..]);
    }
  }

  lemma {:induction false} AtMostAntisymmetric(a: string, b: string)
    requires AtMost(a, b) && AtMost(b, a)
    ensures a == b
  {
    if a == [] || b == [] {
    } else {
      AtMostAntisymmetric(a[1..], b[1..]);
      assert a == [a[0]] + a[1..] && b == [b[0]] + b[1..];
    }
  }

  lemma {:induction false} AtMostTransitive(a: string, b: string, c: string)
    requires AtMost(a, b) && AtMost(b, c)
    ensures AtMost(a, c)
  {
    if a == [] {
    } else if a[0] == b[0] == c[0] {
      AtMostTransitive(a[1..], b[1..], c[1..]);
    }
  }

  lemma TextOrder()
    ensures TotalOrder(AtMost)
  {
    forall a, b ensures AtMost(a, b) || AtMost(b, a) {
      AtMostTotal(a, b);
    }
    forall a, b | AtMost(a, b) && AtMost(b, a) ensures a == b {
      AtMostAntisymmetric(a, b);
    }
    forall a, b, c | AtMost(a, b) && AtMost(b, c) ensures AtMost(a, c) {
      AtMostTransitive(a, b, c);
    }
  }

  /** Order of triples of texts by their first differing component. */
  predicate TripleAtMost(a: (string, string, string), b: (string, string, string))
  {
    if a.0 != b.0 then AtMost(a.0, b.0) else if a.1 != b.1 then AtMost(a.1, b.1) else AtMost(a.2, b.2)
  }

  lemma TripleOrder()
    ensures TotalOrder(TripleAtMost)
  {
    TextOrder();
    forall a, b ensures TripleAtMost(a, b) || TripleAtMost(b, a) {
      assert (AtMost(a.0, b.0) || AtMost(b.0, a.0)) && (AtMost(a.1, b.1) || AtMost(b.1, a.1)) && (AtMost(a.2, b.2) || AtMost(b.2, a.2));
    }
  }
}
