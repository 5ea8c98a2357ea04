/**
 Lifecycle validation of a Responses event stream.
 Source: adapters/openai-responses/src/stream.rs; event vocabulary from adapters/openai-responses/src/events.rs.
 JSON parsing is a parameter: it maps a frame's data to a typed event whose object fields are read lazily.
 */
module Responses {
  import opened Common
  import opened Sse
  import opened StreamPush
  import SseFields

  datatype EventKind =
    | Created | Queued | InProgress | Completed | Failed | Incomplete | ErrorEvent
    | OutputItemAdded | OutputItemDone | ContentPartAdded | ContentPartDone
    | OutputTextDelta | OutputTextDone | RefusalDelta | RefusalDone
    | FunctionArgumentsDelta | FunctionArgumentsDone
    | ReasoningSummaryPartAdded | ReasoningSummaryPartDone
    | ReasoningSummaryTextDelta | ReasoningSummaryTextDone
    | ReasoningTextDelta | ReasoningTextDone
    | OutputTextAnnotationAdded

  /** The fields of an `item` object the lifecycle reads; None when absent or of the wrong type. */
  datatype Item = Item(id: Option<string>, kind: Option<string>)

  datatype Payload = Payload(outputIndex: Option<nat>, contentIndex: Option<nat>, itemId: Option<string>, item: Option<Item>)

  datatype Event =
    | Portable(kind: EventKind, number: nat, payload: Payload)
    | Extension(name: string, optionalNumber: Option<nat>)
  {
    function Sequence(): (s: Option<nat>)
    {
      if Portable? then Some(number) else optionalNumber
    }

    function Discriminator(): (s: string)
    {
      if Extension? then name else WireName(kind)
    }
  }

  function WireName(kind: EventKind): (s: string)
  {
    match kind
    case Created => "response.created"
    case Queued => "response.queued"
    case InProgress => "response.in_progress"
    case Completed => "response.completed"
    case Failed => "response.failed"
    case Incomplete => "response.incomplete"
    case ErrorEvent => "error"
    case OutputItemAdded => "response.output_item.added"
    case OutputItemDone => "response.output_item.done"
    case ContentPartAdded => "response.content_part.added"
    case ContentPartDone => "response.content_part.done"
    case OutputTextDelta => "response.output_text.delta"
    case OutputTextDone => "response.output_text.done"
    case RefusalDelta => "response.refusal.delta"
    case RefusalDone => "response.refusal.done"
    case FunctionArgumentsDelta => "response.function_call_arguments.delta"
    case FunctionArgumentsDone => "response.function_call_arguments.done"
    case ReasoningSummaryPartAdded => "response.reasoning_summary_part.added"
    case ReasoningSummaryPartDone => "response.reasoning_summary_part.done"
    case ReasoningSummaryTextDelta => "response.reasoning_summary_text.delta"
    case ReasoningSummaryTextDone => "response.reasoning_summary_text.done"
    case ReasoningTextDelta => "response.reasoning_text.delta"
    case ReasoningTextDone => "response.reasoning_text.done"
    case OutputTextAnnotationAdded => "response.output_text.annotation.added"
  }

  const MESSAGE := "message"
  const FUNCTION_CALL := "function_call"
  const REASONING := "reasoning"

  datatype ItemState = ItemState(id: string, kind: string, done: bool, content: set<nat>, contentDone: set<nat>)

  type Items = map<nat, ItemState>

  // ---- Field readers ----

  /** A text field must be present and not empty. */
  function Text(field: Option<string>): (r: Option<string>)
  {
    if field.Some? && field.value != "" then field else None
  }

  function ItemId(p: Payload): (r: Option<string>)
  {
    if p.item.None? then None else Text(p.item.value.id)
  }

  function ItemKind(p: Payload): (r: Option<string>)
  {
    if p.item.None? then None else Text(p.item.value.kind)
  }

  // ---- Specification of the item operations ----

  function AddItem(items: Items, p: Payload): (r: Result<Items, AdapterError>)
  {
    if p.outputIndex.None? || ItemId(p).None? || ItemKind(p).None? then Err(InvalidJson)
    else if p.outputIndex.value in items || exists i :: i in items && items[i].id == ItemId(p).value then Err(InvalidLifecycle)
    else Ok(items[p.outputIndex.value := ItemState(ItemId(p).value, ItemKind(p).value, false, {}, {})])
  }

  function FinishItem(items: Items, p: Payload): (r: Result<Items, AdapterError>)
  {
    if p.outputIndex.None? || ItemId(p).None? || ItemKind(p).None? then Err(InvalidJson)
    else if p.outputIndex.value !in items then Err(InvalidLifecycle)
    else
      var state := items[p.outputIndex.value];
      if state.done || state.id != ItemId(p).value || state.kind != ItemKind(p).value || state.content != state.contentDone
      then Err(InvalidLifecycle)
      else Ok(items[p.outputIndex.value := state.(done := true)])
  }

  /** The item an event targets by index, provided its id agrees. */
  function ItemFor(items: Items, p: Payload): (r: Result<ItemState, AdapterError>)
    ensures r.Ok? ==> p.outputIndex.Some? && p.outputIndex.value in items && r.value == items[p.outputIndex.value]
  {
    if p.outputIndex.None? || Text(p.itemId).None? then Err(InvalidJson)
    else if p.outputIndex.value !in items || items[p.outputIndex.value].id != Text(p.itemId).value then Err(InvalidLifecycle)
    else Ok(items[p.outputIndex.value])
  }

  function AddContent(items: Items, p: Payload): (r: Result<Items, AdapterError>)
  {
    var target := ItemFor(items, p);
    if target.Err? then Err(target.error)
    else if p.contentIndex.None? then Err(InvalidJson)
    else
      var state, c := target.value, p.contentIndex.value;
      if state.kind != MESSAGE || state.done || c in state.content then Err(InvalidLifecycle)
      else Ok(items[p.outputIndex.value := state.(content := state.content + {c})])
  }

  function FinishContent(items: Items, p: Payload): (r: Result<Items, AdapterError>)
  {
    if p.contentIndex.None? then Err(InvalidJson)
    else
      var target := ItemFor(items, p);
      if target.Err? then Err(target.error)
      else
        var state, c := target.value, p.contentIndex.value;
        if c !in state.content || c in state.contentDone then Err(InvalidLifecycle)
        else Ok(items[p.outputIndex.value := state.(contentDone := state.contentDone + {c})])
  }

  function RequireContent(items: Items, p: Payload): (r: Result<Items, AdapterError>)
  {
    var target := ItemFor(items, p);
    if target.Err? then Err(target.error)
    else if p.contentIndex.None? then Err(InvalidJson)
    else
      var state, c := target.value, p.contentIndex.value;
      if state.done || c !in state.content || c in state.contentDone then Err(InvalidLifecycle) else Ok(items)
  }

  function RequireItemKind(items: Items, p: Payload, kind: string): (r: Result<Items, AdapterError>)
  {
    var target := ItemFor(items, p);
    if target.Err? then Err(target.error)
    else if target.value.done || target.value.kind != kind then Err(InvalidLifecycle) else Ok(items)
  }

  // ---- Specification of accept ----

  datatype Lifecycle = Lifecycle(last: Option<nat>, created: bool, terminal: bool, sentinel: bool, items: Items)

  const FRESH := Lifecycle(None, false, false, false, map[])

  datatype Verdict = Verdict(state: Lifecycle, result: Result<(), AdapterError>)

  function Rejected(s: Lifecycle): (v: Verdict)
  {
    Verdict(s, Err(InvalidLifecycle))
  }

  predicate TerminalKind(k: EventKind)
  {
    k.Completed? || k.Failed? || k.Incomplete? || k.ErrorEvent?
  }

  predicate ContentKind(k: EventKind)
  {
    k.OutputTextDelta? || k.OutputTextDone? || k.RefusalDelta? || k.RefusalDone? || k.OutputTextAnnotationAdded?
  }

  predicate FunctionKind(k: EventKind)
  {
    k.FunctionArgumentsDelta? || k.FunctionArgumentsDone?
  }

  predicate ReasoningKind(k: EventKind)
  {
    || k.ReasoningSummaryPartAdded? || k.ReasoningSummaryPartDone? || k.ReasoningSummaryTextDelta?
    || k.ReasoningSummaryTextDone? || k.ReasoningTextDelta? || k.ReasoningTextDone?
  }

  /** The item table after one event, or why the event is refused. */
  function NextItems(items: Items, k: EventKind, p: Payload): (r: Result<Items, AdapterError>)
  {
    if k.OutputItemAdded? then AddItem(items, p)
    else if k.OutputItemDone? then FinishItem(items, p)
    else if k.ContentPartAdded? then AddContent(items, p)
    else if k.ContentPartDone? then FinishContent(items, p)
    else if ContentKind(k) then RequireContent(items, p)
    else if FunctionKind(k) then RequireItemKind(items, p, FUNCTION_CALL)
    else if ReasoningKind(k) then RequireItemKind(items, p, REASONING)
    else if k.Completed? && exists i :: i in items && !items[i].done then Err(InvalidLifecycle)
    else Ok(items)
  }

  /** A portable event other than `response.created`, once the response exists. */
  function Dispatch(s: Lifecycle, k: EventKind, p: Payload): (v: Verdict)
    requires !k.Created?
  {
    var next := NextItems(s.items, k, p);
    if next.Err? then Verdict(s, Err(next.error))
    else Verdict(s.(items := next.value, terminal := s.terminal || TerminalKind(k)), Ok(()))
  }

  /** Sequence numbers, when present, must increase; the number is recorded even if the event is then rejected. */
  function Accept(s: Lifecycle, e: Event): (v: Verdict)
  {
    var number := e.Sequence();
    if s.terminal || (number.Some? && s.last.Some? && number.value <= s.last.value) then Rejected(s)
    else
      var s1 := if number.Some? then s.(last := number) else s;
      if e.Portable? && e.kind.Created? then
        if s1.created || s1.last != number then Rejected(s1) else Verdict(s1.(created := true), Ok(()))
      else if !s1.created then Rejected(s1)
      else if e.Extension? then Verdict(s1, Ok(()))
      else Dispatch(s1, e.kind, e.payload)
  }

  type Json = string -> Option<Event>

  /** One frame of a push: the `[DONE]` sentinel or one event. */
  function HandleFrame(json: Json, s: Lifecycle, frame: SseFields.Frame): (r: Stepped<Lifecycle, Event>)
  {
    if frame.data == "[DONE]" then
      if !s.terminal || s.sentinel || frame.event.Some? then Stepped(s, Err(InvalidLifecycle))
      else Stepped(s.(sentinel := true), Ok([]))
    else if s.sentinel then Stepped(s, Err(InvalidLifecycle))
    else
      var event := json(frame.data);
      if event.None? then Stepped(s, Err(InvalidJson))
      else if frame.event.Some? && frame.event.value != event.value.Discriminator() then Stepped(s, Err(InvalidSse))
      else
        var v := Accept(s, event.value);
        Stepped(v.state, if v.result.Err? then Err(v.result.error) else Ok([event.value]))
  }

  function Handling(json: Json): (step: Handler<Lifecycle, SseFields.Frame, Event>)
  {
    (s, frame) => HandleFrame(json, s, frame)
  }

  /** A new decoder yields the same events and state for every cut of its byte stream, or fails for all of them. */
  lemma ResponsesChunkInvariance(utf8: Decoding, json: Json, chunks: seq<seq<byte>>)
    ensures var d := Decoder([], FRESH);
            var pieces := Pushes(Cut, FrameParser(utf8), Handling(json), d, chunks);
            var whole := Push(Cut, FrameParser(utf8), Handling(json), d, Concat(chunks));
            pieces.result.Ok? == whole.result.Ok? && (whole.result.Ok? ==> pieces == whole)
  {
    CutIsStable();
    PushInvariance(Cut, FrameParser(utf8), Handling(json), Decoder([], FRESH), chunks);
  }

  // ---- The decoder ----

  class ResponsesStreamDecoder {
    const json: Json
    const sse: SseDecoder
    var lastSequence: Option<nat>
    var created: bool
    var terminal: bool
    var sentinel: bool
    var items: Items

    ghost function View(): (s: Lifecycle)
      reads this
    {
      Lifecycle(lastSequence, created, terminal, sentinel, items)
    }

    constructor (utf8: Decoding, json: Json)
      ensures fresh(sse) && sse.utf8 == utf8 && sse.buffer == [] && this.json == json
      ensures View() == FRESH
    {
      this.json := json;
      sse := new SseDecoder(utf8);
      lastSequence, created, terminal, sentinel, items := None, false, false, false, map[];
    }

    method Push(bytes: seq<byte>) returns (r: Result<seq<Event>, AdapterError>)
      modifies this, sse
      ensures Stepped(Decoder(sse.buffer, View()), r)
              == StreamPush.Push(Cut, FrameParser(sse.utf8), Handling(json), Decoder(old(sse.buffer), old(View())), bytes)
    {
      var framed := sse.Push(bytes);
      if framed.Err? {
        return Err(InvalidSse);
      }
      r := HandleFrames(framed.value);
    }

    method HandleFrames(frames: seq<SseFields.Frame>) returns (r: Result<seq<Event>, AdapterError>)
      modifies this
      ensures Stepped(View(), r) == Fold(Handling(json), old(View()), frames)
    {
      ghost var step := Handling(json);
      var events: seq<Event> := [];
      assert frames[0..] == frames;
      EmitNothing(Fold(step, View(), frames));
      for k := 0 to |frames|
        invariant Fold(step, old(View()), frames) == Emit(events, Fold(step, View(), frames[k..]))
      {
        ghost var before := View();
        FoldStep(step, before, frames[k..], events);
        assert frames[k..][1..] == frames[k + 1..];
        var more := OneFrame(frames[k]);
        assert step(before, frames[k]) == Stepped(View(), more);
        if more.Err? {
          return Err(more.error);
        }
        events := events + more.value;
      }
      assert events + [] == events;
      return Ok(events);
    }

    method OneFrame(frame: SseFields.Frame) returns (r: Result<seq<Event>, AdapterError>)
      modifies this
      ensures Stepped(View(), r) == HandleFrame(json, old(View()), frame)
    {
      if frame.data == "[DONE]" {
        if !terminal || sentinel || frame.event.Some? {
          return Err(InvalidLifecycle);
        }
        sentinel := true;
        return Ok([]);
      }
      if sentinel {
        return Err(InvalidLifecycle);
      }
      var event := json(frame.data);
      if event.None? {
        return Err(InvalidJson);
      }
      if frame.event.Some? && frame.event.value != event.value.Discriminator() {
        return Err(InvalidSse);
      }
      var verdict := AcceptEvent(event.value);
      if verdict.Err? {
        return Err(verdict.error);
      }
      return Ok([event.value]);
    }

    /** End of stream: trailing bytes may only be comments and a protocol terminal must have been seen. */
    method Finish() returns (r: Result<(), AdapterError>)
      modifies sse
      ensures r.Ok? <==> OnlyComments(sse.utf8, old(sse.buffer)) && terminal
      ensures sse.buffer == if OnlyComments(sse.utf8, old(sse.buffer)) then [] else old(sse.buffer)
      ensures r.Err? ==> r.error == TruncatedStream
    {
      var framed := sse.Finish();
      if framed.Err? || !terminal {
        return Err(TruncatedStream);
      }
      return Ok(());
    }

    method AcceptEvent(e: Event) returns (r: Result<(), AdapterError>)
      modifies this
      ensures Verdict(View(), r) == Accept(old(View()), e)
    {
      if terminal {
        return Err(InvalidLifecycle);
      }
      var number := e.Sequence();
      if number.Some? {
        if lastSequence.Some? && number.value <= lastSequence.value {
          return Err(InvalidLifecycle);
        }
        lastSequence := number;
      }
      if e.Extension? {
        return if created then Ok(()) else Err(InvalidLifecycle);
      }
      if e.kind == Created {
        if created || lastSequence != e.Sequence() {
          return Err(InvalidLifecycle);
        }
        created := true;
        return Ok(());
      }
      if !created {
        return Err(InvalidLifecycle);
      }
      r := DispatchEvent(e.kind, e.payload);
    }

    method DispatchEvent(k: EventKind, p: Payload) returns (r: Result<(), AdapterError>)
      requires !k.Created?
      modifies this
      ensures Verdict(View(), r) == Dispatch(old(View()), k, p)
    {
      var next := NextItems(items, k, p);
      if next.Err? {
        return Err(next.error);
      }
      items := next.value;
      if TerminalKind(k) {
        terminal := true;
      }
      return Ok(());
    }
  }
}
