/**
 Draining delimited frames from a growing buffer, for any way of cutting the first frame off it.
 Source: the push loop of adapters/openai-responses/src/sse.rs.
 */
module Framing {
  import opened Common

  /** Splits a buffer into its first frame and what follows the delimiter; the remainder is shorter. */
  type Cutter = cut: seq<byte> -> Option<(seq<byte>, seq<byte>)> |
    forall s :: cut(s).Some? ==> |cut(s).value.1| < |s|
    witness s => None

  type Parser<+F> = seq<byte> -> Result<Option<F>, AdapterError>

  /** The first frame of a buffer is not affected by bytes that arrive later. */
  ghost predicate Stable(cut: Cutter)
  {
    forall a, b :: cut(a).Some? ==> cut(a + b) == Some((cut(a).value.0, cut(a).value.1 + b))
  }

  function AsSeq<T>(o: Option<T>): (s: seq<T>)
  {
    if o.Some? then [o.value] else []
  }

  /** Frames parsed before the first bad frame, the bytes left, and whether a bad frame was met. */
  datatype Drained<F> = Drained(frames: seq<F>, rest: seq<byte>, failed: bool)

  function Drain<F>(cut: Cutter, parse: Parser<F>, buffer: seq<byte>): (d: Drained<F>)
    decreases |buffer|
  {
    var first := cut(buffer);
    if first.None? then Drained([], buffer, false)
    else
      var frame := parse(first.value.0);
      if frame.Err? then Drained([], first.value.1, true)
      else Prepend(AsSeq(frame.value), Drain(cut, parse, first.value.1))
  }

  function Prepend<F>(frames: seq<F>, d: Drained<F>): (r: Drained<F>)
  {
    d.(frames := frames + d.frames)
  }

  lemma PrependNothing<F>(d: Drained<F>)
    ensures Prepend([], d) == d
  {
    assert [] + d.frames == d.frames;
  }

  /** One round of the push loop. */
  lemma DrainStep<F>(cut: Cutter, parse: Parser<F>, buffer: seq<byte>, earlier: seq<F>)
    requires cut(buffer).Some?
    ensures var (bytes, rest) := cut(buffer).value;
            Prepend(earlier, Drain(cut, parse, buffer)) ==
            if parse(bytes).Err? then Drained(earlier, rest, true)
            else Prepend(earlier + AsSeq(parse(bytes).value), Drain(cut, parse, rest))
  {
    var (bytes, rest) := cut(buffer).value;
    if parse(bytes).Err? {
      assert earlier + [] == earlier;
    } else {
      var frame, d := AsSeq(parse(bytes).value), Drain(cut, parse, rest);
      assert earlier + (frame + d.frames) == earlier + frame + d.frames;
    }
  }

  /** Draining a longer stream continues from what draining its prefix left behind. */
  lemma {:induction false} DrainConcat<F>(cut: Cutter, parse: Parser<F>, a: seq<byte>, b: seq<byte>)
    requires Stable(cut)
    ensures var d := Drain(cut, parse, a);
            if d.failed then Drain(cut, parse, a + b).failed && Drain(cut, parse, a + b).frames == d.frames
            else Drain(cut, parse, a + b) == Prepend(d.frames, Drain(cut, parse, d.rest + b))
    decreases |a|
  {
    if cut(a).None? {
    } else {
      var (bytes, rest) := cut(a).value;
      assert cut(a + b) == Some((bytes, rest + b));
      if parse(bytes).Ok? {
        DrainConcat(cut, parse, rest, b);
        var frame, d := AsSeq(parse(bytes).value), Drain(cut, parse, rest);
        if !d.failed {
          var tail := Drain(cut, parse, d.rest + b);
          assert frame + (d.frames + tail.frames) == frame + d.frames + tail.frames;
        }
      }
    }
  }

  /** What a caller sees over successive pushes: frames of the pushes before the first error. */
  function PushAll<F>(cut: Cutter, parse: Parser<F>, buffer: seq<byte>, chunks: seq<seq<byte>>): (d: Drained<F>)
    decreases |chunks|
  {
    if chunks == [] then Drained([], buffer, false)
    else
      var d := Drain(cut, parse, buffer + chunks[0]);
      if d.failed then d.(frames := [])
      else Prepend(d.frames, PushAll(cut, parse, d.rest, chunks[1..]))
  }

  /** An error-free drain leaves no complete frame behind. */
  lemma {:induction false} DrainLeavesNoFrame<F>(cut: Cutter, parse: Parser<F>, buffer: seq<byte>)
    ensures var d := Drain(cut, parse, buffer); !d.failed ==> cut(d.rest).None?
    decreases |buffer|
  {
    if cut(buffer).None? {
    } else {
      DrainLeavesNoFrame(cut, parse, cut(buffer).value.1);
    }
  }

  /**
   Framing does not depend on how the transport cuts the stream: some push fails exactly when one push of
   the whole stream fails, otherwise the frames and the final buffer agree, and on failure the caller has
   seen a prefix of the frames that precede the bad one.
   */
  lemma {:induction false} ChunkInvariance<F>(cut: Cutter, parse: Parser<F>, buffer: seq<byte>, chunks: seq<seq<byte>>)
    requires Stable(cut)
    requires cut(buffer).None?
    ensures var pieces, whole := PushAll(cut, parse, buffer, chunks), Drain(cut, parse, buffer + Concat(chunks));
            && pieces.failed == whole.failed
            && (!whole.failed ==> pieces == whole)
            && pieces.frames <= whole.frames
    decreases |chunks|
  {
    if chunks == [] {
      assert buffer + Concat(chunks) == buffer;
    } else {
      var first, tail := buffer + chunks[0], Concat(chunks[1..]);
      assert buffer + Concat(chunks) == first + tail;
      DrainConcat(cut, parse, first, tail);
      var d := Drain(cut, parse, first);
      if !d.failed {
        DrainLeavesNoFrame(cut, parse, first);
        ChunkInvariance(cut, parse, d.rest, chunks[1..]);
      }
    }
  }
}
