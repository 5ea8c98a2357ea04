/**
 Canonical byte encoding fed to the process digests: big-endian numbers, length-prefixed fields and single bytes.
 Source: DigestInput in Sources/GariveProcessProtocol/ProcessDigest.swift.
 */
module DigestEncoding {
  import opened Common
  import Sequences

  type Bytes = seq<byte>

  /** Bytes whose count fits a 64-bit prefix. */
  type Short = b: Bytes | |b| <= U64_MAX

  type i32 = n: int | -0x8000_0000 <= n < 0x8000_0000

  function Pow256(width: nat): (n: nat)
    ensures n > 0
  {
    if width == 0 then 1 else 256 * Pow256(width - 1)
  }

  /** The number a big-endian byte sequence stands for. */
  function Value(bytes: Bytes): (n: nat)
  {
    if bytes == [] then 0 else 256 * Value(bytes[..|bytes| - 1]) + bytes[|bytes| - 1] as nat
  }

  function BigEndian(n: nat, width: nat): (bytes: Bytes)
    requires n < Pow256(width)
    ensures |bytes| == width
    ensures Value(bytes) == n
  {
    if width == 0 then []
    else
      var high := BigEndian(n / 256, width - 1);
      var bytes := high + [(n % 256) as byte];
      assert bytes[..|bytes| - 1] == high;
      bytes
  }

  lemma Widths()
    ensures Pow256(4) == 0x1_0000_0000
    ensures Pow256(8) == U64_MAX + 1
  {
    assert Pow256(1) == 256;
    assert Pow256(2) == 65536;
    assert Pow256(3) == 0x100_0000;
    assert Pow256(4) == 0x1_0000_0000;
    assert Pow256(5) == 0x100_0000_0000;
    assert Pow256(6) == 0x1_0000_0000_0000;
    assert Pow256(7) == 0x100_0000_0000_0000;
  }

  /** One append to a digest input. */
  datatype Piece = Field(bytes: Short) | Number(n: u64) | Signed(value: i32) | Single(b: byte)

  predicate SameShape(p: Piece, q: Piece)
  {
    p.Field? == q.Field? && p.Number? == q.Number? && p.Signed? == q.Signed?
  }

  /** Two's complement of a 32-bit integer. */
  function Unsigned32(n: i32): (u: nat)
    ensures u < 0x1_0000_0000
    ensures u == if n < 0 then n + 0x1_0000_0000 else n
  {
    if n < 0 then n + 0x1_0000_0000 else n
  }

  function Number8(n: u64): (bytes: Bytes)
    ensures |bytes| == 8 && Value(bytes) == n
  {
    Widths();
    BigEndian(n, 8)
  }

  function Encode(p: Piece): (bytes: Bytes)
  {
    match p
    case Field(v) => Number8(|v|) + v
    case Number(n) => Number8(n)
    case Signed(n) =>
      Widths();
      BigEndian(Unsigned32(n), 4)
    case Single(b) => [b]
  }

  function EncodeAll(ps: seq<Piece>): (bytes: Bytes)
  {
    Sequences.Collect(Encode, ps)
  }

  /** Elements related by `shape` can be told apart from the front of longer encodings. */
  ghost predicate ReadsBack<T(!new)>(f: T -> Bytes, shape: (T, T) -> bool)
  {
    forall p, q, x, y :: shape(p, q) && f(p) + x == f(q) + y ==> p == q && x == y
  }

  predicate SameShapes<T>(shape: (T, T) -> bool, ps: seq<T>, qs: seq<T>)
  {
    |ps| == |qs| && forall k :: 0 <= k < |ps| ==> shape(ps[k], qs[k])
  }

  /** Such an encoding extends to sequences: they can be read back given only the shapes. */
  lemma {:induction false} CollectInjective<T(!new)>(f: T -> Bytes, shape: (T, T) -> bool, ps: seq<T>, qs: seq<T>, x: Bytes, y: Bytes)
    requires ReadsBack(f, shape) && SameShapes(shape, ps, qs)
    requires Sequences.Collect(f, ps) + x == Sequences.Collect(f, qs) + y
    ensures ps == qs && x == y
    decreases |ps|
  {
    if ps == [] {
      assert [] + x == x && [] + y == y;
    } else {
      var n := |ps| - 1;
      assert Sequences.Collect(f, ps) + x == Sequences.Collect(f, ps[..n]) + (f(ps[n]) + x);
      assert Sequences.Collect(f, qs) + y == Sequences.Collect(f, qs[..n]) + (f(qs[n]) + y);
      CollectInjective(f, shape, ps[..n], qs[..n], f(ps[n]) + x, f(qs[n]) + y);
      assert ps == ps[..n] + [ps[n]] && qs == qs[..n] + [qs[n]];
    }
  }

  lemma PrefixSplit(a: Bytes, x: Bytes, b: Bytes, y: Bytes)
    requires a + x == b + y && |a| == |b|
    ensures a == b && x == y
  {
    assert a == (a + x)[..|a|] && b == (b + y)[..|b|];
    assert x == (a + x)[|a|..] && y == (b + y)[|b|..];
  }

  lemma FieldInjective(a: Short, b: Short, x: Bytes, y: Bytes)
    requires Number8(|a|) + a + x == Number8(|b|) + b + y
    ensures a == b && x == y
  {
    Sequences.Associate(Number8(|a|), a, x);
    Sequences.Associate(Number8(|b|), b, y);
    PrefixSplit(Number8(|a|), a + x, Number8(|b|), b + y);
    assert Value(Number8(|a|)) == Value(Number8(|b|));
    PrefixSplit(a, x, b, y);
  }

  lemma SignedInjective(m: i32, n: i32)
    requires Encode(Signed(m)) == Encode(Signed(n))
    ensures m == n
  {
    Widths();
    assert Value(Encode(Signed(m))) == Unsigned32(m) && Value(Encode(Signed(n))) == Unsigned32(n);
  }

  /** A piece can be read back from the front of a longer encoding, given only its shape. */
  lemma PieceInjective(p: Piece, q: Piece, x: Bytes, y: Bytes)
    requires SameShape(p, q) && Encode(p) + x == Encode(q) + y
    ensures p == q && x == y
  {
    match p
    case Field(v) => FieldInjective(v, q.bytes, x, y);
    case Number(n) =>
      PrefixSplit(Number8(n), x, Number8(q.n), y);
      assert Value(Number8(n)) == Value(Number8(q.n));
    case Signed(n) =>
      Widths();
      PrefixSplit(Encode(p), x, Encode(q), y);
      SignedInjective(n, q.value);
    case Single(b) =>
      PrefixSplit([b], x, [q.b], y);
      assert [b][0] == [q.b][0];
  }

  lemma EncodeReadsBack()
    ensures ReadsBack(Encode, SameShape)
  {
    forall p: Piece, q: Piece, x: Bytes, y: Bytes | SameShape(p, q) && Encode(p) + x == Encode(q) + y
      ensures p == q && x == y
    {
      PieceInjective(p, q, x, y);
    }
  }

  /** The mutable digest input. The digest function itself is a parameter of `Finish`. */
  class DigestInput {
    var data: Bytes
    ghost const prefix: Bytes
    ghost var written: seq<Piece>

    ghost predicate Valid()
      reads this
    {
      data == prefix + EncodeAll(written)
    }

    constructor (prefix: Bytes)
      ensures Valid() && this.prefix == prefix && written == []
    {
      data, this.prefix, written := prefix, prefix, [];
    }

    method Append(p: Piece)
      requires Valid()
      modifies this
      ensures Valid() && written == old(written) + [p]
    {
      data := data + Encode(p);
      written := written + [p];
      assert written[..|written| - 1] == old(written);
      assert prefix + (EncodeAll(old(written)) + Encode(p)) == prefix + EncodeAll(old(written)) + Encode(p);
    }

    method AppendAll(ps: seq<Piece>)
      requires Valid()
      modifies this
      ensures Valid() && written == old(written) + ps
    {
      for k := 0 to |ps|
        invariant Valid() && written == old(written) + ps[..k]
      {
        Append(ps[k]);
        assert ps[..k + 1] == ps[..k] + [ps[k]];
      }
      assert ps[..|ps|] == ps;
    }

    method Finish(sha256: Bytes -> Bytes) returns (digest: Bytes)
      requires Valid()
      ensures digest == sha256(prefix + EncodeAll(written))
    {
      digest := sha256(data);
    }
  }
}
