/** Datatypes shared by the models. */
module Common {
  datatype Option<+T> = None | Some(value: T)

  datatype Result<+T, +E> = Ok(value: T) | Err(error: E)

  newtype byte = x: int | 0 <= x < 256

  /** Failure classes of the two streaming adapters; reason texts are not modelled. */
  datatype AdapterError = InvalidSse | InvalidJson | InvalidLifecycle | TruncatedStream

  const U64_MAX: nat := 0xFFFF_FFFF_FFFF_FFFF

  type u64 = n: nat | n <= U64_MAX

  /** Flattens a sequence of sequences, in order. */
  function Concat<T>(parts: seq<seq<T>>): (whole: seq<T>)
  {
    if parts == [] then [] else parts[0] + Concat(parts[1..])
  }

  function Last<T>(s: seq<T>): (r: Option<T>)
  {
    if s == [] then None else Some(s[|s| - 1])
  }

  lemma {:induction false} SubsetSize<T>(a: set<T>, b: set<T>)
    requires a <= b
    ensures |a| <= |b|
    decreases |a|
  {
    if a == {} {
    } else {
      var x :| x in a;
      SubsetSize(a - {x}, b - {x});
    }
  }
}
