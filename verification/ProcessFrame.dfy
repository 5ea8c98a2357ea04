/**
 Length-prefixed process-protocol frames.
 Source: Sources/GariveProcessProtocol/ProcessFrame.swift. Protobuf serialisation is a parameter.
 */
module ProcessFrame {
  import opened Common
  import opened DigestEncoding

  const MAX_PAYLOAD: nat := 1_114_112

  datatype FrameFailure = Malformed | BoundsExceeded | SerializationFailed

  /** Protobuf's two directions and the body check of the expected message. */
  datatype Codec<!M> = Codec(serialize: M -> Option<Bytes>, parse: Bytes -> Option<M>, admits: M -> bool)

  function EncodeFrame<M>(codec: Codec<M>, message: M): (r: Result<Bytes, FrameFailure>)
  {
    var payload := codec.serialize(message);
    if payload.None? then Err(SerializationFailed)
    else if |payload.value| > MAX_PAYLOAD then Err(BoundsExceeded)
    else
      Widths();
      Ok(BigEndian(|payload.value|, 4) + payload.value)
  }

  /** The declared length, read by shifting in four bytes. */
  method DeclaredLength(frame: Bytes) returns (n: nat)
    requires |frame| >= 4
    ensures n == Value(frame[..4])
  {
    n := 0;
    for k := 0 to 4
      invariant n == Value(frame[..k])
    {
      assert frame[..k + 1][..k] == frame[..k];
      n := 256 * n + frame[k] as nat;
    }
  }

  function DecodeFrame<M(==)>(codec: Codec<M>, frame: Bytes): (r: Result<M, FrameFailure>)
  {
    if |frame| < 4 then Err(Malformed)
    else if Value(frame[..4]) > MAX_PAYLOAD then Err(BoundsExceeded)
    else
      var payload := frame[4..];
      if |payload| != Value(frame[..4]) then Err(Malformed)
      else
        var message := codec.parse(payload);
        if message.None? || !codec.admits(message.value) || codec.serialize(message.value) != Some(payload) then Err(Malformed)
        else Ok(message.value)
  }

  /** Reads one frame: its declared length first, then the payload, which must be the canonical encoding of what it parses to. */
  method ReadFrame<M(==)>(codec: Codec<M>, frame: Bytes) returns (r: Result<M, FrameFailure>)
    ensures r == DecodeFrame(codec, frame)
  {
    if |frame| < 4 {
      return Err(Malformed);
    }
    var length := DeclaredLength(frame);
    if length > MAX_PAYLOAD {
      return Err(BoundsExceeded);
    }
    var payload := frame[4..];
    if |payload| != length {
      return Err(Malformed);
    }
    var message := codec.parse(payload);
    if message.None? || !codec.admits(message.value) || codec.serialize(message.value) != Some(payload) {
      return Err(Malformed);
    }
    return Ok(message.value);
  }

  lemma {:induction false} ValueDeterminesBytes(a: Bytes, b: Bytes)
    requires |a| == |b| && Value(a) == Value(b)
    ensures a == b
  {
    if a == [] {
    } else {
      var n := |a| - 1;
      ValueDeterminesBytes(a[..n], b[..n]);
      assert a == a[..n] + [a[n]] && b == b[..n] + [b[n]];
    }
  }

  /**
   Decoding is the exact inverse of encoding: a frame decodes to a message precisely when it is that
   message's one encoding, the message is admitted, and protobuf parses it back.
   */
  lemma DecodeExact<M>(codec: Codec<M>, frame: Bytes, message: M)
    ensures DecodeFrame(codec, frame) == Ok(message) <==>
            && EncodeFrame(codec, message) == Ok(frame)
            && codec.admits(message)
            && codec.parse(codec.serialize(message).value) == Some(message)
  {
    Widths();
    if DecodeFrame(codec, frame) == Ok(message) {
      ValueDeterminesBytes(BigEndian(|frame| - 4, 4), frame[..4]);
      assert frame == frame[..4] + frame[4..];
    }
    if EncodeFrame(codec, message) == Ok(frame) {
      var payload := codec.serialize(message).value;
      assert frame[..4] == BigEndian(|payload|, 4) && frame[4..] == payload;
    }
  }

  /** At most one frame decodes to a message. */
  lemma CanonicalFrame<M>(codec: Codec<M>, a: Bytes, b: Bytes)
    requires DecodeFrame(codec, a).Ok? && DecodeFrame(codec, a) == DecodeFrame(codec, b)
    ensures a == b
  {
    DecodeExact(codec, a, DecodeFrame(codec, a).value);
    DecodeExact(codec, b, DecodeFrame(codec, b).value);
  }

  /** Encoding fails exactly when the message cannot be serialised or its payload is too long. */
  lemma EncodeRefused<M>(codec: Codec<M>, message: M)
    ensures EncodeFrame(codec, message).Err? ==>
              EncodeFrame(codec, message).error == if codec.serialize(message) == None then SerializationFailed else BoundsExceeded
    ensures EncodeFrame(codec, message).Ok? <==> codec.serialize(message).Some? && |codec.serialize(message).value| <= 1_114_112
  {
  }

  /** A frame that does not decode is out of bounds exactly when it declares too long a payload, and malformed otherwise. */
  lemma DecodeRefused<M>(codec: Codec<M>, frame: Bytes)
    requires DecodeFrame(codec, frame).Err?
    ensures DecodeFrame(codec, frame).error == if |frame| >= 4 && Value(frame[..4]) > 1_114_112 then BoundsExceeded else Malformed
  {
  }
}
