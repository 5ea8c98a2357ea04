/**
 What a Responses stream decodes to, said over its frames: which streams decode without error, and to exactly which events.
 Source: adapters/openai-responses/src/stream.rs; wire names from adapters/openai-responses/src/events.rs.
 */
module ResponsesStream {
  import opened Common
  import Framing
  import opened Responses
  import opened ResponsesHistory
  import Sse
  import SseFields
  import SseWire
  import opened StreamPush

  // ---- Wire names ----

  /** The portable kind a wire name stands for. */
  function KindNamed(name: string): (k: Option<EventKind>)
  {
    if name == "response.created" then Some(Created)
    else if name == "response.queued" then Some(Queued)
    else if name == "response.in_progress" then Some(InProgress)
    else if name == "response.completed" then Some(Completed)
    else if name == "response.failed" then Some(Failed)
    else if name == "response.incomplete" then Some(Incomplete)
    else if name == "error" then Some(ErrorEvent)
    else if name == "response.output_item.added" then Some(OutputItemAdded)
    else if name == "response.output_item.done" then Some(OutputItemDone)
    else if name == "response.content_part.added" then Some(ContentPartAdded)
    else if name == "response.content_part.done" then Some(ContentPartDone)
    else if name == "response.output_text.delta" then Some(OutputTextDelta)
    else if name == "response.output_text.done" then Some(OutputTextDone)
    else if name == "response.refusal.delta" then Some(RefusalDelta)
    else if name == "response.refusal.done" then Some(RefusalDone)
    else if name == "response.function_call_arguments.delta" then Some(FunctionArgumentsDelta)
    else if name == "response.function_call_arguments.done" then Some(FunctionArgumentsDone)
    else if name == "response.reasoning_summary_part.added" then Some(ReasoningSummaryPartAdded)
    else if name == "response.reasoning_summary_part.done" then Some(ReasoningSummaryPartDone)
    else if name == "response.reasoning_summary_text.delta" then Some(ReasoningSummaryTextDelta)
    else if name == "response.reasoning_summary_text.done" then Some(ReasoningSummaryTextDone)
    else if name == "response.reasoning_text.delta" then Some(ReasoningTextDelta)
    else if name == "response.reasoning_text.done" then Some(ReasoningTextDone)
    else if name == "response.output_text.annotation.added" then Some(OutputTextAnnotationAdded)
    else None
  }

  /** A kind's wire name stands for that kind and no other. */
  lemma NameHasKind(k: EventKind)
    ensures KindNamed(WireName(k)) == Some(k)
  {
    match k
    case Created => assert KindNamed("response.created") == Some(Created);
    case Queued => assert KindNamed("response.queued") == Some(Queued);
    case InProgress => assert KindNamed("response.in_progress") == Some(InProgress);
    case Completed => assert KindNamed("response.completed") == Some(Completed);
    case Failed => assert KindNamed("response.failed") == Some(Failed);
    case Incomplete => assert KindNamed("response.incomplete") == Some(Incomplete);
    case ErrorEvent => assert KindNamed("error") == Some(ErrorEvent);
    case OutputItemAdded => assert KindNamed("response.output_item.added") == Some(OutputItemAdded);
    case OutputItemDone => assert KindNamed("response.output_item.done") == Some(OutputItemDone);
    case ContentPartAdded => assert KindNamed("response.content_part.added") == Some(ContentPartAdded);
    case ContentPartDone => assert KindNamed("response.content_part.done") == Some(ContentPartDone);
    case OutputTextDelta => assert KindNamed("response.output_text.delta") == Some(OutputTextDelta);
    case OutputTextDone => assert KindNamed("response.output_text.done") == Some(OutputTextDone);
    case RefusalDelta => assert KindNamed("response.refusal.delta") == Some(RefusalDelta);
    case RefusalDone => assert KindNamed("response.refusal.done") == Some(RefusalDone);
    case FunctionArgumentsDelta => assert KindNamed("response.function_call_arguments.delta") == Some(FunctionArgumentsDelta);
    case FunctionArgumentsDone => assert KindNamed("response.function_call_arguments.done") == Some(FunctionArgumentsDone);
    case ReasoningSummaryPartAdded => assert KindNamed("response.reasoning_summary_part.added") == Some(ReasoningSummaryPartAdded);
    case ReasoningSummaryPartDone => assert KindNamed("response.reasoning_summary_part.done") == Some(ReasoningSummaryPartDone);
    case ReasoningSummaryTextDelta => assert KindNamed("response.reasoning_summary_text.delta") == Some(ReasoningSummaryTextDelta);
    case ReasoningSummaryTextDone => assert KindNamed("response.reasoning_summary_text.done") == Some(ReasoningSummaryTextDone);
    case ReasoningTextDelta => assert KindNamed("response.reasoning_text.delta") == Some(ReasoningTextDelta);
    case ReasoningTextDone => assert KindNamed("response.reasoning_text.done") == Some(ReasoningTextDone);
    case OutputTextAnnotationAdded => assert KindNamed("response.output_text.annotation.added") == Some(OutputTextAnnotationAdded);
  }

  /** No two kinds share a wire name. */
  lemma NamesDiffer(a: EventKind, b: EventKind)
    requires WireName(a) == WireName(b)
    ensures a == b
  {
    NameHasKind(a);
    NameHasKind(b);
  }

  /** The name is the event's own. */
  predicate NamedAfter(name: string, e: Event)
  {
    match e
    case Portable(kind, _, _) => name == WireName(kind)
    case Extension(own, _) => name == own
  }

  // ---- Frames ----

  /** A frame whose data is this event, under the event's own name or none. */
  predicate Carries(json: Json, frame: SseFields.Frame, e: Event)
  {
    && frame.data != "[DONE]" && json(frame.data) == Some(e)
    && (frame.event.Some? ==> NamedAfter(frame.event.value, e))
  }

  predicate CarriesAll(json: Json, frames: seq<SseFields.Frame>, es: History)
  {
    |frames| == |es| && forall k :: 0 <= k < |es| ==> Carries(json, frames[k], es[k])
  }

  /** The unnamed end mark. */
  predicate Done(frame: SseFields.Frame) { frame.data == "[DONE]" && frame.event.None? }

  predicate Concludes(es: History) { es != [] && IsTerminal(es[|es| - 1]) }

  /** A legal history's events in order, each in a frame of its own, and after a terminal possibly one end mark. */
  ghost predicate Decodes(json: Json, frames: seq<SseFields.Frame>, es: History)
  {
    && Legal(es)
    && (CarriesAll(json, frames, es)
        || (frames != [] && Done(frames[|frames| - 1]) && CarriesAll(json, frames[..|frames| - 1], es) && Concludes(es)))
  }

  predicate Marked(frames: seq<SseFields.Frame>) { frames != [] && frames[|frames| - 1].data == "[DONE]" }

  /** The state after these frames, which gave these events. */
  ghost predicate Reached(s: Lifecycle, frames: seq<SseFields.Frame>, es: History)
  {
    Summarises(s, es) && LastIsOwn(s, es) && s.sentinel == Marked(frames)
  }

  /** One frame: an event is emitted exactly when the frame carries it and it is legal, the end mark passes exactly after a terminal. */
  lemma HandleExactly(json: Json, s: Lifecycle, h: History, frame: SseFields.Frame, e: Event)
    requires Summarises(s, h) && LastIsOwn(s, h)
    ensures var r := HandleFrame(json, s, frame);
            && (r.result == Ok([e]) <==> !s.sentinel && Carries(json, frame, e) && LegalNext(h, e))
            && (r.result == Ok([]) <==> !s.sentinel && Done(frame) && HasTerminal(h))
  {
    if json(frame.data) == Some(e) {
      AcceptsExactly(s, h, e);
    }
  }

  lemma HandleShape(json: Json, s: Lifecycle, h: History, frame: SseFields.Frame)
    requires Summarises(s, h) && LastIsOwn(s, h) && HandleFrame(json, s, frame).result.Ok?
    ensures var r := HandleFrame(json, s, frame); var es := r.result.value;
            && |es| <= 1 && (es == [] <==> frame.data == "[DONE]") && r.state.sentinel == (es == [])
            && Summarises(r.state, h + es) && LastIsOwn(r.state, h + es)
  {
    var r := HandleFrame(json, s, frame);
    if r.result.value == [] {
      assert h + [] == h;
    } else {
      var e := r.result.value[0];
      AcceptedIsLegal(s, h, e);
      assert e in h + [e];
    }
  }

  lemma CarriesLast(json: Json, frames: seq<SseFields.Frame>, es: History)
    requires frames != [] && es != []
    ensures CarriesAll(json, frames, es) <==>
            CarriesAll(json, frames[..|frames| - 1], es[..|es| - 1]) && Carries(json, frames[|frames| - 1], es[|es| - 1])
  {
    if CarriesAll(json, frames[..|frames| - 1], es[..|es| - 1]) && Carries(json, frames[|frames| - 1], es[|es| - 1]) {
      forall k | 0 <= k < |es| ensures Carries(json, frames[k], es[k]) {
        assert k < |es| - 1 ==> frames[..|frames| - 1][k] == frames[k] && es[..|es| - 1][k] == es[k];
      }
    }
    if CarriesAll(json, frames, es) {
      var init, past := frames[..|frames| - 1], es[..|es| - 1];
      forall k | 0 <= k < |past| ensures Carries(json, init[k], past[k]) {
        assert Carries(json, frames[k], es[k]);
      }
    }
  }

  lemma TerminalConcludes(es: History)
    requires Legal(es)
    ensures HasTerminal(es) <==> Concludes(es)
  {
    if HasTerminal(es) {
      var k :| 0 <= k < |es| && IsTerminal(es[k]);
      if k < |es| - 1 {
        TerminalIsLast(es, k, |es| - 1);
      }
    }
  }

  /** Frames that were handled without error decode to what was emitted. */
  lemma {:induction false} HandledDecodes(json: Json, frames: seq<SseFields.Frame>)
    requires Fold(Handling(json), FRESH, frames).result.Ok?
    ensures var r := Fold(Handling(json), FRESH, frames);
            Decodes(json, frames, r.result.value) && Reached(r.state, frames, r.result.value)
    decreases |frames|
  {
    if frames == [] {
    } else {
      var init, last := frames[..|frames| - 1], frames[|frames| - 1];
      FoldLast(Handling(json), FRESH, frames);
      HandledDecodes(json, init);
      var before := Fold(Handling(json), FRESH, init);
      HandledLast(json, frames, before.state, before.result.value);
    }
  }

  lemma MarkLast(json: Json, frames: seq<SseFields.Frame>, h: History)
    requires frames != [] && CarriesAll(json, frames[..|frames| - 1], h) && Legal(h) && Done(frames[|frames| - 1]) && HasTerminal(h)
    ensures Decodes(json, frames, h)
  {
    TerminalConcludes(h);
  }

  lemma EventLast(json: Json, frames: seq<SseFields.Frame>, h: History, e: Event)
    requires frames != [] && CarriesAll(json, frames[..|frames| - 1], h) && Legal(h) && Carries(json, frames[|frames| - 1], e) && LegalNext(h, e)
    ensures Decodes(json, frames, h + [e])
  {
    LegalExtends(h, e);
    assert (h + [e])[..|h|] == h;
    CarriesLast(json, frames, h + [e]);
  }

  lemma HandledLast(json: Json, frames: seq<SseFields.Frame>, s: Lifecycle, h: History)
    requires frames != [] && Decodes(json, frames[..|frames| - 1], h) && Reached(s, frames[..|frames| - 1], h)
    requires HandleFrame(json, s, frames[|frames| - 1]).result.Ok?
    ensures var r := HandleFrame(json, s, frames[|frames| - 1]);
            Decodes(json, frames, h + r.result.value) && Reached(r.state, frames, h + r.result.value)
  {
    var last := frames[|frames| - 1];
    var r := HandleFrame(json, s, last);
    HandleShape(json, s, h, last);
    if r.result.value == [] {
      assert h + [] == h;
      HandleExactly(json, s, h, last, Extension("", None));
      MarkLast(json, frames, h);
    } else {
      HandleExactly(json, s, h, last, r.result.value[0]);
      EventLast(json, frames, h, r.result.value[0]);
    }
  }

  /** Frames that decode to some events are handled without error and emit exactly those. */
  lemma {:induction false} DecodesHandled(json: Json, frames: seq<SseFields.Frame>, es: History)
    requires Decodes(json, frames, es)
    ensures Fold(Handling(json), FRESH, frames).result == Ok(es)
    decreases |frames|
  {
    if frames == [] {
    } else {
      var init, last := frames[..|frames| - 1], frames[|frames| - 1];
      FoldLast(Handling(json), FRESH, frames);
      var mark := last.data == "[DONE]";
      if !mark {
        assert es[..|es| - 1] + [es[|es| - 1]] == es;
        LegalExtends(es[..|es| - 1], es[|es| - 1]);
        CarriesLast(json, frames, es);
      }
      var h := if mark then es else es[..|es| - 1];
      DecodesHandled(json, init, h);
      HandledDecodes(json, init);
      var s := Fold(Handling(json), FRESH, init).state;
      HandleExactly(json, s, h, last, if mark then Extension("", None) else es[|es| - 1]);
      if mark {
        TerminalConcludes(es);
        assert es + [] == es;
      }
    }
  }

  /** A new decoder handles frames without error and emits `es` exactly when the frames decode to `es`. */
  lemma FramesDecode(json: Json, frames: seq<SseFields.Frame>, es: History)
    ensures Fold(Handling(json), FRESH, frames).result == Ok(es) <==> Decodes(json, frames, es)
  {
    if Fold(Handling(json), FRESH, frames).result == Ok(es) {
      HandledDecodes(json, frames);
    }
    if Decodes(json, frames, es) {
      DecodesHandled(json, frames, es);
    }
  }

  // ---- Which error ----

  /** Why a frame is refused after these events. */
  ghost function FrameReason(json: Json, marked: bool, h: History, frame: SseFields.Frame): (error: AdapterError)
  {
    if frame.data == "[DONE]" || marked then InvalidLifecycle
    else if json(frame.data) == None then InvalidJson
    else if frame.event.Some? && !NamedAfter(frame.event.value, json(frame.data).value) then InvalidSse
    else Reason(h, json(frame.data).value)
  }

  lemma FrameRefused(json: Json, s: Lifecycle, h: History, frame: SseFields.Frame)
    requires Summarises(s, h) && LastIsOwn(s, h) && HandleFrame(json, s, frame).result.Err?
    ensures HandleFrame(json, s, frame).result == Err(FrameReason(json, s.sentinel, h, frame))
  {
    if json(frame.data).Some? && Accept(s, json(frame.data).value).result.Err? {
      RefusedFor(s, h, json(frame.data).value);
    }
  }

  /** Frames that are not handled have a first one that is refused, after frames that decode, and its reason is the error. */
  lemma {:induction false} FirstRefused(json: Json, frames: seq<SseFields.Frame>) returns (k: nat, h: History)
    requires Fold(Handling(json), FRESH, frames).result.Err?
    ensures k < |frames| && Decodes(json, frames[..k], h)
    ensures Fold(Handling(json), FRESH, frames).result == Err(FrameReason(json, Marked(frames[..k]), h, frames[k]))
    decreases |frames|
  {
    var init, last := frames[..|frames| - 1], frames[|frames| - 1];
    FoldLast(Handling(json), FRESH, frames);
    var before := Fold(Handling(json), FRESH, init);
    if before.result.Err? {
      k, h := FirstRefused(json, init);
      assert init[..k] == frames[..k];
    } else {
      k, h := |init|, before.result.value;
      HandledDecodes(json, init);
      FrameRefused(json, before.state, h, last);
    }
  }

  // ---- Bytes ----

  /** One push of a whole stream reports a bad frame before anything the lifecycle has against the frames ahead of it. */
  lemma PushRefused(utf8: Sse.Decoding, json: Json, bytes: seq<byte>)
    ensures var d := Framing.Drain(Sse.Cut, Sse.FrameParser(utf8), bytes);
            var r := Push(Sse.Cut, Sse.FrameParser(utf8), Handling(json), Decoder([], FRESH), bytes);
            r.result.Err? ==> r.result == if d.failed then Err(InvalidSse) else Fold(Handling(json), FRESH, d.frames).result
  {
    assert [] + bytes == bytes;
  }

  /** However its bytes arrive, a stream is decoded to `es` exactly when its bytes are frames that decode to `es`. */
  lemma StreamDecodes(utf8: Sse.Decoding, json: Json, chunks: seq<seq<byte>>, es: History)
    ensures var d := Framing.Drain(Sse.Cut, Sse.FrameParser(utf8), Concat(chunks));
            Pushes(Sse.Cut, Sse.FrameParser(utf8), Handling(json), Decoder([], FRESH), chunks).result == Ok(es) <==>
              !d.failed && Decodes(json, d.frames, es)
  {
    ResponsesChunkInvariance(utf8, json, chunks);
    assert [] + Concat(chunks) == Concat(chunks);
    FramesDecode(json, Framing.Drain(Sse.Cut, Sse.FrameParser(utf8), Concat(chunks)).frames, es);
  }

  /** What a producer sends is decoded to `es` exactly when its frames decode to `es`, whatever line endings it uses and however the bytes are cut. */
  lemma SentDecodes(encode: SseWire.Encoding, decode: Sse.Decoding, json: Json, sent: seq<SseWire.Outgoing>, chunks: seq<seq<byte>>, es: History)
    requires SseWire.AllSendable(sent) && SseWire.Utf8Codec(encode, decode) && Concat(chunks) == SseWire.Wire(encode, sent)
    ensures Pushes(Sse.Cut, Sse.FrameParser(decode), Handling(json), Decoder([], FRESH), chunks).result == Ok(es) <==>
            Decodes(json, SseWire.AllReceived(sent), es)
  {
    SseWire.WireDrains(encode, decode, sent);
    StreamDecodes(decode, json, chunks, es);
  }

  // ---- A producer ----

  /** How a producer writes an event's data: one line that reads back as the event. */
  type Rendering = Event -> string

  ghost predicate Renders(json: Json, render: Rendering, e: Event)
  {
    SseFields.Clean(render(e)) && render(e) != "[DONE]" && json(render(e)) == Some(e) && (e.Extension? ==> SseFields.Clean(e.name))
  }

  /** One named frame for each event, and the end mark when it is asked for. */
  function Announced(render: Rendering, es: History, mark: bool): (sent: seq<SseWire.Outgoing>)
  {
    if es == [] then if mark then [SseWire.PlainFrame(None, "[DONE]")] else []
    else [SseWire.PlainFrame(Some(es[0].Discriminator()), render(es[0]))] + Announced(render, es[1..], mark)
  }

  predicate CleanName(k: EventKind) { SseFields.Clean(WireName(k)) }

  lemma LifecycleNamesClean()
    ensures CleanName(Created) && CleanName(Queued) && CleanName(InProgress) && CleanName(Completed)
    ensures CleanName(Failed) && CleanName(Incomplete) && CleanName(ErrorEvent) && CleanName(OutputItemAdded)
  {
  }

  lemma ContentNamesClean()
    ensures CleanName(OutputItemDone) && CleanName(ContentPartAdded) && CleanName(ContentPartDone) && CleanName(OutputTextDelta)
    ensures CleanName(OutputTextDone) && CleanName(RefusalDelta) && CleanName(RefusalDone)
  {
  }

  lemma CallNamesClean()
    ensures CleanName(FunctionArgumentsDelta) && CleanName(FunctionArgumentsDone) && CleanName(ReasoningSummaryPartAdded)
  {
  }

  lemma SummaryNamesClean()
    ensures CleanName(ReasoningSummaryPartDone) && CleanName(ReasoningSummaryTextDelta) && CleanName(ReasoningSummaryTextDone)
  {
  }

  lemma ReasoningNamesClean()
    ensures CleanName(ReasoningTextDelta) && CleanName(ReasoningTextDone) && CleanName(OutputTextAnnotationAdded)
  {
  }

  lemma NamesAreClean(k: EventKind)
    ensures CleanName(k)
  {
    LifecycleNamesClean();
    ContentNamesClean();
    CallNamesClean();
    SummaryNamesClean();
    ReasoningNamesClean();
  }

  /** Frames that carry these events, and the end mark when there is one. */
  ghost predicate Delivered(json: Json, frames: seq<SseFields.Frame>, es: History, mark: bool)
  {
    && |frames| == |es| + (if mark then 1 else 0)
    && CarriesAll(json, frames[..|es|], es) && (mark ==> Done(frames[|es|]))
  }

  lemma DeliveredMore(json: Json, frame: SseFields.Frame, e: Event, frames: seq<SseFields.Frame>, es: History, mark: bool)
    requires Carries(json, frame, e) && Delivered(json, frames, es, mark)
    ensures Delivered(json, [frame] + frames, [e] + es, mark)
  {
    var longer, all := ([frame] + frames)[..|es| + 1], [e] + es;
    forall k | 0 <= k < |all| ensures Carries(json, longer[k], all[k]) {
      assert k > 0 ==> longer[k] == frames[..|es|][k - 1] && all[k] == es[k - 1];
    }
  }

  lemma DeliveredDecodes(json: Json, frames: seq<SseFields.Frame>, es: History, mark: bool)
    requires Delivered(json, frames, es, mark) && Legal(es) && (mark ==> Concludes(es))
    ensures Decodes(json, frames, es)
  {
    assert !mark ==> frames[..|es|] == frames;
  }

  lemma {:induction false} AnnouncedReceived(json: Json, render: Rendering, es: History, mark: bool)
    requires forall k :: 0 <= k < |es| ==> Renders(json, render, es[k])
    ensures SseWire.AllSendable(Announced(render, es, mark))
    ensures Delivered(json, SseWire.AllReceived(Announced(render, es, mark)), es, mark)
    decreases |es|
  {
    if es == [] {
      SseWire.PlainSends(None, "[DONE]");
    } else {
      var e, first, later := es[0], SseWire.PlainFrame(Some(es[0].Discriminator()), render(es[0])), Announced(render, es[1..], mark);
      if e.Portable? {
        NamesAreClean(e.kind);
      }
      SseWire.PlainSends(Some(e.Discriminator()), render(e));
      AnnouncedReceived(json, render, es[1..], mark);
      SseWire.ReceivedMore(first, later);
      DeliveredMore(json, first.Received()[0], e, SseWire.AllReceived(later), es[1..], mark);
      assert [e] + es[1..] == es;
    }
  }

  /** The bytes of the announcement. */
  ghost function AnnouncedBytes(encode: SseWire.Encoding, json: Json, render: Rendering, es: History, mark: bool): (bytes: seq<byte>)
    requires forall k :: 0 <= k < |es| ==> Renders(json, render, es[k])
  {
    AnnouncedReceived(json, render, es, mark);
    SseWire.Wire(encode, Announced(render, es, mark))
  }

  /** Round trip: a legal history sent as named frames, in any chunks, is emitted exactly; so it is with an end mark after a terminal. */
  lemma AnnouncedStream(encode: SseWire.Encoding, decode: Sse.Decoding, json: Json, render: Rendering, es: History, mark: bool,
                        chunks: seq<seq<byte>>)
    requires SseWire.Utf8Codec(encode, decode) && Legal(es) && (mark ==> Concludes(es))
    requires forall k :: 0 <= k < |es| ==> Renders(json, render, es[k])
    requires Concat(chunks) == AnnouncedBytes(encode, json, render, es, mark)
    ensures Pushes(Sse.Cut, Sse.FrameParser(decode), Handling(json), Decoder([], FRESH), chunks).result == Ok(es)
  {
    AnnouncedReceived(json, render, es, mark);
    var sent := Announced(render, es, mark);
    DeliveredDecodes(json, SseWire.AllReceived(sent), es, mark);
    SentDecodes(encode, decode, json, sent, chunks, es);
  }
}
