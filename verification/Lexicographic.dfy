/** Lexicographic order of byte sequences. */
module Lexicographic {
  import opened Common

  /** Strict lexicographic order of byte sequences: Swift's `lexicographicallyPrecedes`, and `<` on Rust strings. */
  predicate Precedes(a: seq<byte>, b: seq<byte>)
  {
    b != [] && (a == [] || a[0] < b[0] || (a[0] == b[0] && Precedes(a[1..], b[1..])))
  }

  lemma {:induction false} PrecedesTransitive(a: seq<byte>, b: seq<byte>, c: seq<byte>)
    requires Precedes(a, b) && Precedes(b, c)
    ensures Precedes(a, c)
    decreases |a|
  {
    if a == [] || a[0] != b[0] || b[0] != c[0] {
    } else {
      PrecedesTransitive(a[1..], b[1..], c[1..]);
    }
  }

  lemma {:induction false} PrecedesIrreflexive(a: seq<byte>)
    ensures !Precedes(a, a)
  {
    if a == [] {
    } else {
      PrecedesIrreflexive(a[1..]);
    }
  }
}
