/**
 The shape both streaming decoders share: drain complete frames, then feed each to a lifecycle handler.
 Sources: push in adapters/openai-responses/src/stream.rs and adapters/anthropic-messages/src/stream.rs.
 */
module StreamPush {
  import opened Common
  import opened Framing

  /** State after a handler ran, and the events it emitted or its error. */
  datatype Stepped<+S, +E> = Stepped(state: S, result: Result<seq<E>, AdapterError>)

  type Handler<!S, !F, +E> = (S, F) -> Stepped<S, E>

  /** Handles frames in order up to the first error. */
  function Fold<S, F, E>(step: Handler<S, F, E>, s: S, frames: seq<F>): (r: Stepped<S, E>)
    decreases |frames|
  {
    if frames == [] then Stepped(s, Ok([]))
    else
      var first := step(s, frames[0]);
      if first.result.Err? then first
      else Emit(first.result.value, Fold(step, first.state, frames[1..]))
  }

  /** Puts earlier events in front of a successful result. */
  function Emit<S, E>(earlier: seq<E>, later: Stepped<S, E>): (r: Stepped<S, E>)
  {
    if later.result.Err? then later else later.(result := Ok(earlier + later.result.value))
  }

  lemma EmitNothing<S, E>(later: Stepped<S, E>)
    ensures Emit([], later) == later
  {
    if later.result.Ok? {
      assert [] + later.result.value == later.result.value;
    }
  }

  /** One round of a push's loop over its frames. */
  lemma FoldStep<S, F, E>(step: Handler<S, F, E>, s: S, frames: seq<F>, earlier: seq<E>)
    requires frames != []
    ensures var first := step(s, frames[0]);
            Emit(earlier, Fold(step, s, frames)) ==
            if first.result.Err? then first
            else Emit(earlier + first.result.value, Fold(step, first.state, frames[1..]))
  {
    var first := step(s, frames[0]);
    if first.result.Ok? {
      var later := Fold(step, first.state, frames[1..]);
      if later.result.Ok? {
        assert earlier + (first.result.value + later.result.value) == earlier + first.result.value + later.result.value;
      }
    }
  }

  lemma {:induction false} FoldConcat<S, F, E>(step: Handler<S, F, E>, s: S, a: seq<F>, b: seq<F>)
    ensures var first := Fold(step, s, a);
            Fold(step, s, a + b) ==
            if first.result.Err? then first else Emit(first.result.value, Fold(step, first.state, b))
    decreases |a|
  {
    if a == [] {
      assert a + b == b;
      EmitNothing(Fold(step, s, b));
    } else {
      assert (a + b)[1..] == a[1..] + b;
      var head := step(s, a[0]);
      if head.result.Ok? {
        FoldConcat(step, head.state, a[1..], b);
        var mid := Fold(step, head.state, a[1..]);
        if mid.result.Ok? && Fold(step, mid.state, b).result.Ok? {
          var last := Fold(step, mid.state, b).result.value;
          assert head.result.value + (mid.result.value + last) == head.result.value + mid.result.value + last;
        }
      }
    }
  }

  /** Handling one frame more. */
  lemma FoldLast<S, F, E>(step: Handler<S, F, E>, s: S, frames: seq<F>)
    requires frames != []
    ensures var init := Fold(step, s, frames[..|frames| - 1]);
            Fold(step, s, frames) ==
            if init.result.Err? then init else Emit(init.result.value, step(init.state, frames[|frames| - 1]))
  {
    var init, last := frames[..|frames| - 1], frames[|frames| - 1];
    assert frames == init + [last];
    FoldConcat(step, s, init, [last]);
    var before := Fold(step, s, init);
    if before.result.Ok? {
      var one := step(before.state, last);
      assert [last][1..] == [];
      if one.result.Ok? {
        assert one.result.value + [] == one.result.value;
      }
    }
  }

  /** A decoder: unframed bytes and lifecycle state. */
  datatype Decoder<+S> = Decoder(buffer: seq<byte>, state: S)

  /** One push. A framing failure leaves the lifecycle untouched and loses the push's earlier frames. */
  function Push<S, F, E>(cut: Cutter, parse: Parser<F>, step: Handler<S, F, E>, d: Decoder<S>, bytes: seq<byte>): (r: Stepped<Decoder<S>, E>)
  {
    var drained := Drain(cut, parse, d.buffer + bytes);
    if drained.failed then Stepped(Decoder(drained.rest, d.state), Err(InvalidSse))
    else
      var folded := Fold(step, d.state, drained.frames);
      Stepped(Decoder(drained.rest, folded.state), folded.result)
  }

  /** Successive pushes up to the first error. */
  function Pushes<S, F, E>(cut: Cutter, parse: Parser<F>, step: Handler<S, F, E>, d: Decoder<S>, chunks: seq<seq<byte>>): (r: Stepped<Decoder<S>, E>)
    decreases |chunks|
  {
    if chunks == [] then Stepped(d, Ok([]))
    else
      var first := Push(cut, parse, step, d, chunks[0]);
      if first.result.Err? then first
      else Emit(first.result.value, Pushes(cut, parse, step, first.state, chunks[1..]))
  }

  /** One push of a concatenation is a push of each part, as far as success and its outcome go. */
  lemma PushConcat<S, F, E>(cut: Cutter, parse: Parser<F>, step: Handler<S, F, E>, d: Decoder<S>, a: seq<byte>, b: seq<byte>)
    requires Stable(cut)
    ensures var first, whole := Push(cut, parse, step, d, a), Push(cut, parse, step, d, a + b);
            if first.result.Err? then whole.result.Err?
            else
              var later := Emit(first.result.value, Push(cut, parse, step, first.state, b));
              whole.result.Ok? == later.result.Ok? && (whole.result.Ok? ==> whole == later)
  {
    assert d.buffer + (a + b) == d.buffer + a + b;
    DrainConcat(cut, parse, d.buffer + a, b);
    var drained := Drain(cut, parse, d.buffer + a);
    if !drained.failed {
      FoldConcat(step, d.state, drained.frames, Drain(cut, parse, drained.rest + b).frames);
    }
  }

  /**
   Chunk invariance of a whole decoder: every cut of a byte stream succeeds exactly when one push of it
   does, and then yields the same events, the same lifecycle state and the same pending bytes.
   */
  lemma {:induction false} PushInvariance<S, F, E>(cut: Cutter, parse: Parser<F>, step: Handler<S, F, E>, d: Decoder<S>, chunks: seq<seq<byte>>)
    requires Stable(cut) && cut(d.buffer).None?
    ensures var pieces, whole := Pushes(cut, parse, step, d, chunks), Push(cut, parse, step, d, Concat(chunks));
            pieces.result.Ok? == whole.result.Ok? && (whole.result.Ok? ==> pieces == whole)
    decreases |chunks|
  {
    if chunks == [] {
      assert d.buffer + Concat(chunks) == d.buffer;
    } else {
      PushConcat(cut, parse, step, d, chunks[0], Concat(chunks[1..]));
      var first := Push(cut, parse, step, d, chunks[0]);
      if first.result.Ok? {
        DrainLeavesNoFrame(cut, parse, d.buffer + chunks[0]);
        PushInvariance(cut, parse, step, first.state, chunks[1..]);
      }
    }
  }
}
