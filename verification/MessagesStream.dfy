/**
 What a Messages stream decodes to, said over its frames: which streams decode without error, and to exactly which events.
 Source: adapters/anthropic-messages/src/stream.rs.
 */
module MessagesStream {
  import opened Common
  import Framing
  import opened Messages
  import opened MessagesHistory
  import Sse
  import SseFields
  import SseWire
  import opened StreamPush

  // ---- Frames ----

  /** A frame whose data is an object with this event, under the object's own type or no name. */
  predicate Carries(json: Json, frame: SseFields.Frame, e: Event)
  {
    match json(frame.data)
    case None => false
    case Some(read) => read.event == Some(e) && (frame.event == None || frame.event == Some(read.discriminator))
  }

  predicate CarriesAll(json: Json, frames: seq<SseFields.Frame>, es: History)
  {
    |frames| == |es| && forall k :: 0 <= k < |es| ==> Carries(json, frames[k], es[k])
  }

  /** A legal history's events in order, each in a frame of its own. */
  ghost predicate Decodes(json: Json, parses: Parses, frames: seq<SseFields.Frame>, es: History)
  {
    Legal(parses, es) && CarriesAll(json, frames, es)
  }

  /** One frame: an event is emitted exactly when the frame carries it and it is legal, and nothing else is. */
  lemma HandleExactly(json: Json, parses: Parses, s: Lifecycle, h: History, frame: SseFields.Frame, e: Event)
    requires Summarises(s, h)
    ensures var r := HandleFrame(json, parses, s, frame);
            && (r.result == Ok([e]) <==> Carries(json, frame, e) && LegalNext(parses, h, e))
            && (r.result.Ok? ==> |r.result.value| == 1 && Summarises(r.state, h + r.result.value))
  {
    if json(frame.data).Some? && json(frame.data).value.event.Some? {
      AcceptedIsLegal(parses, s, h, json(frame.data).value.event.value);
    }
  }

  lemma CarriesLast(json: Json, frames: seq<SseFields.Frame>, es: History)
    requires frames != [] && es != []
    ensures CarriesAll(json, frames, es) <==>
            CarriesAll(json, frames[..|frames| - 1], es[..|es| - 1]) && Carries(json, frames[|frames| - 1], es[|es| - 1])
  {
    var init, past := frames[..|frames| - 1], es[..|es| - 1];
    if CarriesAll(json, init, past) && Carries(json, frames[|frames| - 1], es[|es| - 1]) {
      forall k | 0 <= k < |es| ensures Carries(json, frames[k], es[k]) {
        assert k < |past| ==> init[k] == frames[k] && past[k] == es[k];
      }
    }
    if CarriesAll(json, frames, es) {
      forall k | 0 <= k < |past| ensures Carries(json, init[k], past[k]) {
        assert Carries(json, frames[k], es[k]);
      }
    }
  }

  lemma HandledLast(json: Json, parses: Parses, frames: seq<SseFields.Frame>, s: Lifecycle, h: History)
    requires frames != [] && Decodes(json, parses, frames[..|frames| - 1], h) && Summarises(s, h)
    requires HandleFrame(json, parses, s, frames[|frames| - 1]).result.Ok?
    ensures var r := HandleFrame(json, parses, s, frames[|frames| - 1]);
            Decodes(json, parses, frames, h + r.result.value) && Summarises(r.state, h + r.result.value)
  {
    var r := HandleFrame(json, parses, s, frames[|frames| - 1]);
    var e := r.result.value[0];
    HandleExactly(json, parses, s, h, frames[|frames| - 1], e);
    LegalExtends(parses, h, e);
    assert r.result.value == [e] && (h + [e])[..|h|] == h;
    CarriesLast(json, frames, h + [e]);
  }

  /** Frames that were handled without error decode to what was emitted. */
  lemma {:induction false} HandledDecodes(json: Json, parses: Parses, frames: seq<SseFields.Frame>)
    requires Fold(Handling(json, parses), FRESH, frames).result.Ok?
    ensures var r := Fold(Handling(json, parses), FRESH, frames);
            Decodes(json, parses, frames, r.result.value) && Summarises(r.state, r.result.value)
    decreases |frames|
  {
    if frames == [] {
    } else {
      FoldLast(Handling(json, parses), FRESH, frames);
      HandledDecodes(json, parses, frames[..|frames| - 1]);
      var before := Fold(Handling(json, parses), FRESH, frames[..|frames| - 1]);
      HandledLast(json, parses, frames, before.state, before.result.value);
    }
  }

  /** Frames that decode to some events are handled without error and emit exactly those. */
  lemma {:induction false} DecodesHandled(json: Json, parses: Parses, frames: seq<SseFields.Frame>, es: History)
    requires Decodes(json, parses, frames, es)
    ensures Fold(Handling(json, parses), FRESH, frames).result == Ok(es)
    decreases |frames|
  {
    if frames == [] {
    } else {
      var init, h, e := frames[..|frames| - 1], es[..|es| - 1], es[|es| - 1];
      FoldLast(Handling(json, parses), FRESH, frames);
      assert h + [e] == es;
      LegalExtends(parses, h, e);
      CarriesLast(json, frames, es);
      DecodesHandled(json, parses, init, h);
      HandledDecodes(json, parses, init);
      HandleExactly(json, parses, Fold(Handling(json, parses), FRESH, init).state, h, frames[|frames| - 1], e);
    }
  }

  /** A new decoder handles frames without error and emits `es` exactly when the frames decode to `es`. */
  lemma FramesDecode(json: Json, parses: Parses, frames: seq<SseFields.Frame>, es: History)
    ensures Fold(Handling(json, parses), FRESH, frames).result == Ok(es) <==> Decodes(json, parses, frames, es)
  {
    if Fold(Handling(json, parses), FRESH, frames).result == Ok(es) {
      HandledDecodes(json, parses, frames);
    }
    if Decodes(json, parses, frames, es) {
      DecodesHandled(json, parses, frames, es);
    }
  }

  // ---- Which error ----

  /** Why a frame is refused after these events. */
  ghost function FrameReason(json: Json, h: History, frame: SseFields.Frame): (error: AdapterError)
  {
    match json(frame.data)
    case None => InvalidJson
    case Some(read) =>
      if frame.event != None && frame.event != Some(read.discriminator) then InvalidSse
      else if read.event == None then InvalidJson
      else Reason(h, read.event.value)
  }

  lemma FrameRefused(json: Json, parses: Parses, s: Lifecycle, h: History, frame: SseFields.Frame)
    requires Summarises(s, h) && HandleFrame(json, parses, s, frame).result.Err?
    ensures HandleFrame(json, parses, s, frame).result == Err(FrameReason(json, h, frame))
  {
    var read := json(frame.data);
    if read.Some? && read.value.event.Some? && Validate(parses, s, read.value.event.value).result.Err? {
      RefusedFor(parses, s, h, read.value.event.value);
    }
  }

  /** Frames that are not handled have a first one that is refused, after frames that decode, and its reason is the error. */
  lemma {:induction false} FirstRefused(json: Json, parses: Parses, frames: seq<SseFields.Frame>) returns (k: nat, h: History)
    requires Fold(Handling(json, parses), FRESH, frames).result.Err?
    ensures k < |frames| && Decodes(json, parses, frames[..k], h)
    ensures Fold(Handling(json, parses), FRESH, frames).result == Err(FrameReason(json, h, frames[k]))
    decreases |frames|
  {
    var init, last := frames[..|frames| - 1], frames[|frames| - 1];
    FoldLast(Handling(json, parses), FRESH, frames);
    var before := Fold(Handling(json, parses), FRESH, init);
    if before.result.Err? {
      k, h := FirstRefused(json, parses, init);
      assert init[..k] == frames[..k];
    } else {
      k, h := |init|, before.result.value;
      HandledDecodes(json, parses, init);
      FrameRefused(json, parses, before.state, h, last);
    }
  }

  // ---- Bytes ----

  /** One push of a whole stream reports a bad frame before anything the lifecycle has against the frames ahead of it. */
  lemma PushRefused(utf8: Sse.Decoding, json: Json, parses: Parses, bytes: seq<byte>)
    ensures var d := Framing.Drain(Sse.Cut, Sse.FrameParser(utf8), bytes);
            var r := Push(Sse.Cut, Sse.FrameParser(utf8), Handling(json, parses), Decoder([], FRESH), bytes);
            r.result.Err? ==> r.result == if d.failed then Err(InvalidSse) else Fold(Handling(json, parses), FRESH, d.frames).result
  {
    assert [] + bytes == bytes;
  }

  /** However its bytes arrive, a stream is decoded to `es` exactly when its bytes are frames that decode to `es`. */
  lemma StreamDecodes(utf8: Sse.Decoding, json: Json, parses: Parses, chunks: seq<seq<byte>>, es: History)
    ensures var d := Framing.Drain(Sse.Cut, Sse.FrameParser(utf8), Concat(chunks));
            Pushes(Sse.Cut, Sse.FrameParser(utf8), Handling(json, parses), Decoder([], FRESH), chunks).result == Ok(es) <==>
              !d.failed && Decodes(json, parses, d.frames, es)
  {
    MessagesChunkInvariance(utf8, json, parses, chunks);
    assert [] + Concat(chunks) == Concat(chunks);
    FramesDecode(json, parses, Framing.Drain(Sse.Cut, Sse.FrameParser(utf8), Concat(chunks)).frames, es);
  }

  /** What a producer sends is decoded to `es` exactly when its frames decode to `es`, whatever line endings it uses and however the bytes are cut. */
  lemma SentDecodes(encode: SseWire.Encoding, decode: Sse.Decoding, json: Json, parses: Parses, sent: seq<SseWire.Outgoing>,
                    chunks: seq<seq<byte>>, es: History)
    requires SseWire.AllSendable(sent) && SseWire.Utf8Codec(encode, decode) && Concat(chunks) == SseWire.Wire(encode, sent)
    ensures Pushes(Sse.Cut, Sse.FrameParser(decode), Handling(json, parses), Decoder([], FRESH), chunks).result == Ok(es) <==>
            Decodes(json, parses, SseWire.AllReceived(sent), es)
  {
    SseWire.WireDrains(encode, decode, sent);
    StreamDecodes(decode, json, parses, chunks, es);
  }

  // ---- A producer ----

  /** How a producer writes an event: its type, and one line of data that reads back as the event under that type. */
  datatype Rendering = Rendering(name: Event -> string, data: Event -> string)

  ghost predicate Renders(json: Json, render: Rendering, e: Event)
  {
    && SseFields.Clean(render.name(e)) && SseFields.Clean(render.data(e))
    && json(render.data(e)) == Some(Object(render.name(e), Some(e)))
  }

  /** One named frame for each event. */
  function Announced(render: Rendering, es: History): (sent: seq<SseWire.Outgoing>)
  {
    if es == [] then [] else [SseWire.PlainFrame(Some(render.name(es[0])), render.data(es[0]))] + Announced(render, es[1..])
  }

  lemma {:induction false} AnnouncedReceived(json: Json, render: Rendering, es: History)
    requires forall k :: 0 <= k < |es| ==> Renders(json, render, es[k])
    ensures SseWire.AllSendable(Announced(render, es))
    ensures CarriesAll(json, SseWire.AllReceived(Announced(render, es)), es)
    decreases |es|
  {
    if es == [] {
    } else {
      var e, first, later := es[0], SseWire.PlainFrame(Some(render.name(es[0])), render.data(es[0])), Announced(render, es[1..]);
      assert Renders(json, render, e);
      SseWire.PlainSends(Some(render.name(e)), render.data(e));
      AnnouncedReceived(json, render, es[1..]);
      SseWire.ReceivedMore(first, later);
      CarriesMore(json, first.Received()[0], e, SseWire.AllReceived(later), es[1..]);
      assert [e] + es[1..] == es;
    }
  }

  lemma CarriesMore(json: Json, frame: SseFields.Frame, e: Event, frames: seq<SseFields.Frame>, es: History)
    requires Carries(json, frame, e) && CarriesAll(json, frames, es)
    ensures CarriesAll(json, [frame] + frames, [e] + es)
  {
  }

  /** The bytes of the announcement. */
  ghost function AnnouncedBytes(encode: SseWire.Encoding, json: Json, render: Rendering, es: History): (bytes: seq<byte>)
    requires forall k :: 0 <= k < |es| ==> Renders(json, render, es[k])
  {
    AnnouncedReceived(json, render, es);
    SseWire.Wire(encode, Announced(render, es))
  }

  /** Round trip: a legal history sent as named frames, in any chunks, is emitted exactly. */
  lemma AnnouncedStream(encode: SseWire.Encoding, decode: Sse.Decoding, json: Json, parses: Parses, render: Rendering, es: History,
                        chunks: seq<seq<byte>>)
    requires SseWire.Utf8Codec(encode, decode) && Legal(parses, es)
    requires forall k :: 0 <= k < |es| ==> Renders(json, render, es[k])
    requires Concat(chunks) == AnnouncedBytes(encode, json, render, es)
    ensures Pushes(Sse.Cut, Sse.FrameParser(decode), Handling(json, parses), Decoder([], FRESH), chunks).result == Ok(es)
  {
    AnnouncedReceived(json, render, es);
    SentDecodes(encode, decode, json, parses, Announced(render, es), chunks, es);
  }
}
