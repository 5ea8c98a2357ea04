/**
 Lifecycle validation of a Messages event stream.
 Source: adapters/anthropic-messages/src/stream.rs. JSON parsing is a parameter: `Json` maps a frame's
 data to a typed object and `Parses` says whether a text is JSON.
 */
module Messages {
  import opened Common
  import opened Sse
  import SseFields
  import opened StreamPush

  datatype DeltaKind = TextDelta | InputJson | ThinkingDelta | SignatureDelta | CitationDelta | ExtensionDelta(name: string)

  datatype EventKind =
    | MessageStart | BlockStart | BlockDelta(delta: DeltaKind) | BlockStop | MessageDelta | MessageStop
    | Ping | ErrorEvent | Extension(name: string)

  datatype BlockKind = TextBlock | ThinkingBlock | RedactedThinking | ToolUse | OtherBlock(name: string)

  /** Fields of a `content_block` object; None when absent or of the wrong type. */
  datatype Block = Block(kind: Option<BlockKind>, text: Option<string>, thinking: Option<string>, signature: Option<string>,
                         data: Option<string>, id: Option<string>, name: Option<string>, inputIsObject: bool)

  /** An event with the fields its kind reads; `message` is the outcome of validating the message snapshot. */
  datatype Event = Event(kind: EventKind, index: Option<nat>, block: Option<Block>, fragment: Option<string>,
                         message: Result<(), AdapterError>, errorShape: bool, deltaIsObject: bool, outputTokens: Option<nat>)

  /** A JSON object with its `type`; the event is None when a content delta is malformed. */
  datatype Object = Object(discriminator: string, event: Option<Event>)

  type Json = string -> Option<Object>

  type Parses = string -> bool

  datatype OpenBlock = OpenBlock(kind: BlockKind, partial: string)

  datatype Lifecycle = Lifecycle(started: bool, terminal: bool, messageDelta: bool, blocks: map<nat, OpenBlock>)

  const FRESH := Lifecycle(false, false, false, map[])

  datatype Verdict = Verdict(state: Lifecycle, result: Result<(), AdapterError>)

  predicate NotEmpty(text: Option<string>) { text.Some? && text.value != "" }

  predicate ValidStart(block: Block)
    requires block.kind.Some?
  {
    match block.kind.value
    case TextBlock => block.text.Some?
    case ThinkingBlock => block.thinking.Some? && block.signature.Some?
    case RedactedThinking => NotEmpty(block.data)
    case ToolUse => NotEmpty(block.id) && NotEmpty(block.name) && block.inputIsObject
    case OtherBlock(_) => true
  }

  predicate Compatible(kind: BlockKind, delta: DeltaKind)
  {
    match kind
    case TextBlock => delta.TextDelta? || delta.CitationDelta?
    case ToolUse => delta.InputJson?
    case ThinkingBlock => delta.ThinkingDelta? || delta.SignatureDelta?
    case _ => false
  }

  // ---- Specification ----

  function Reject(s: Lifecycle, error: AdapterError): (v: Verdict) { Verdict(s, Err(error)) }

  /** A duplicate start overwrites the open block before it is refused. */
  function StartBlock(s: Lifecycle, e: Event): (v: Verdict)
  {
    if e.index.None? || e.block.None? || e.block.value.kind.None? || !ValidStart(e.block.value) then Reject(s, InvalidJson)
    else
      var next := s.(blocks := s.blocks[e.index.value := OpenBlock(e.block.value.kind.value, "")]);
      if e.index.value in s.blocks then Reject(next, InvalidLifecycle) else Verdict(next, Ok(()))
  }

  function DeltaBlock(s: Lifecycle, e: Event, delta: DeltaKind): (v: Verdict)
  {
    if e.index.None? then Reject(s, InvalidJson)
    else if e.index.value !in s.blocks then Reject(s, InvalidLifecycle)
    else
      var block := s.blocks[e.index.value];
      if !Compatible(block.kind, delta) && !delta.ExtensionDelta? then Reject(s, InvalidLifecycle)
      else if !delta.InputJson? then Verdict(s, Ok(()))
      else if e.fragment.None? then Reject(s, InvalidJson)
      else Verdict(s.(blocks := s.blocks[e.index.value := block.(partial := block.partial + e.fragment.value)]), Ok(()))
  }

  /** A tool block whose text is not JSON is closed and refused. */
  function StopBlock(parses: Parses, s: Lifecycle, e: Event): (v: Verdict)
  {
    if e.index.None? then Reject(s, InvalidJson)
    else if e.index.value !in s.blocks then Reject(s, InvalidLifecycle)
    else
      var block, next := s.blocks[e.index.value], s.(blocks := s.blocks - {e.index.value});
      if block.kind.ToolUse? && !parses(block.partial) then Reject(next, InvalidJson) else Verdict(next, Ok(()))
  }

  function Validate(parses: Parses, s: Lifecycle, e: Event): (v: Verdict)
  {
    if s.terminal then Reject(s, InvalidLifecycle)
    else if e.kind.Ping? then Verdict(s, Ok(()))
    else if e.kind.MessageStart? then
      if s.started then Reject(s, InvalidLifecycle)
      else if e.message.Err? then Reject(s, e.message.error)
      else Verdict(s.(started := true), Ok(()))
    else if e.kind.ErrorEvent? then
      if e.errorShape then Verdict(s.(terminal := true), Ok(())) else Reject(s, InvalidJson)
    else if !s.started then Reject(s, InvalidLifecycle)
    else
      match e.kind
      case BlockStart => StartBlock(s, e)
      case BlockDelta(delta) => DeltaBlock(s, e, delta)
      case BlockStop => StopBlock(parses, s, e)
      case MessageDelta =>
        if s.messageDelta || s.blocks != map[] then Reject(s, InvalidLifecycle)
        else if !e.deltaIsObject || e.outputTokens.None? then Reject(s, InvalidJson)
        else Verdict(s.(messageDelta := true), Ok(()))
      case MessageStop =>
        if !s.messageDelta || s.blocks != map[] then Reject(s, InvalidLifecycle) else Verdict(s.(terminal := true), Ok(()))
      case _ => Verdict(s, Ok(()))
  }

  function HandleFrame(json: Json, parses: Parses, s: Lifecycle, frame: SseFields.Frame): (r: Stepped<Lifecycle, Event>)
  {
    var parsed := json(frame.data);
    if parsed.None? then Stepped(s, Err(InvalidJson))
    else if frame.event.Some? && frame.event.value != parsed.value.discriminator then Stepped(s, Err(InvalidSse))
    else if parsed.value.event.None? then Stepped(s, Err(InvalidJson))
    else
      var v := Validate(parses, s, parsed.value.event.value);
      Stepped(v.state, if v.result.Err? then Err(v.result.error) else Ok([parsed.value.event.value]))
  }

  function Handling(json: Json, parses: Parses): (step: Handler<Lifecycle, SseFields.Frame, Event>)
  {
    (s, frame) => HandleFrame(json, parses, s, frame)
  }

  /** A new decoder yields the same events and state for every cut of its byte stream, or fails for all of them. */
  lemma MessagesChunkInvariance(utf8: Decoding, json: Json, parses: Parses, chunks: seq<seq<byte>>)
    ensures var d := Decoder([], FRESH);
            var pieces := Pushes(Cut, FrameParser(utf8), Handling(json, parses), d, chunks);
            var whole := Push(Cut, FrameParser(utf8), Handling(json, parses), d, Concat(chunks));
            pieces.result.Ok? == whole.result.Ok? && (whole.result.Ok? ==> pieces == whole)
  {
    CutIsStable();
    PushInvariance(Cut, FrameParser(utf8), Handling(json, parses), Decoder([], FRESH), chunks);
  }

  // ---- The decoder ----

  class MessagesStreamDecoder {
    const json: Json
    const parses: Parses
    const sse: SseDecoder
    var started: bool
    var terminal: bool
    var messageDelta: bool
    var blocks: map<nat, OpenBlock>

    ghost function View(): (s: Lifecycle)
      reads this
    {
      Lifecycle(started, terminal, messageDelta, blocks)
    }

    constructor (utf8: Decoding, json: Json, parses: Parses)
      ensures fresh(sse) && sse.utf8 == utf8 && sse.buffer == [] && this.json == json && this.parses == parses
      ensures View() == FRESH
    {
      this.json, this.parses := json, parses;
      sse := new SseDecoder(utf8);
      started, terminal, messageDelta, blocks := false, false, false, map[];
    }

    method Push(bytes: seq<byte>) returns (r: Result<seq<Event>, AdapterError>)
      modifies this, sse
      ensures Stepped(Decoder(sse.buffer, View()), r)
              == StreamPush.Push(Cut, FrameParser(sse.utf8), Handling(json, parses), Decoder(old(sse.buffer), old(View())), bytes)
    {
      var framed := sse.Push(bytes);
      if framed.Err? {
        return Err(InvalidSse);
      }
      r := HandleFrames(framed.value);
    }

    method HandleFrames(frames: seq<SseFields.Frame>) returns (r: Result<seq<Event>, AdapterError>)
      modifies this
      ensures Stepped(View(), r) == Fold(Handling(json, parses), old(View()), frames)
    {
      ghost var step := Handling(json, parses);
      var events: seq<Event> := [];
      assert frames[0..] == frames;
      EmitNothing(Fold(step, View(), frames));
      for k := 0 to |frames|
        invariant Fold(step, old(View()), frames) == Emit(events, Fold(step, View(), frames[k..]))
      {
        ghost var before := View();
        FoldStep(step, before, frames[k..], events);
        assert frames[k..][1..] == frames[k + 1..];
        var more := AcceptFrame(frames[k]);
        assert step(before, frames[k]) == Stepped(View(), more);
        if more.Err? {
          return Err(more.error);
        }
        events := events + more.value;
      }
      assert events + [] == events;
      return Ok(events);
    }

    method AcceptFrame(frame: SseFields.Frame) returns (r: Result<seq<Event>, AdapterError>)
      modifies this
      ensures Stepped(View(), r) == HandleFrame(json, parses, old(View()), frame)
    {
      var parsed := json(frame.data);
      if parsed.None? {
        return Err(InvalidJson);
      }
      if frame.event.Some? && frame.event.value != parsed.value.discriminator {
        return Err(InvalidSse);
      }
      if parsed.value.event.None? {
        return Err(InvalidJson);
      }
      var verdict := ValidateLifecycle(parsed.value.event.value);
      if verdict.Err? {
        return Err(verdict.error);
      }
      return Ok([parsed.value.event.value]);
    }

    /** Requires a terminal and no open block at the end of the stream. */
    method Finish() returns (r: Result<(), AdapterError>)
      modifies sse
      ensures r.Ok? <==> OnlyComments(sse.utf8, old(sse.buffer)) && terminal && blocks == map[]
      ensures sse.buffer == if OnlyComments(sse.utf8, old(sse.buffer)) then [] else old(sse.buffer)
      ensures r.Err? ==> r.error == TruncatedStream
    {
      var framed := sse.Finish();
      if framed.Ok? && terminal && blocks == map[] {
        return Ok(());
      }
      return Err(TruncatedStream);
    }

    method ValidateLifecycle(e: Event) returns (r: Result<(), AdapterError>)
      modifies this
      ensures Verdict(View(), r) == Validate(parses, old(View()), e)
    {
      if terminal {
        return Err(InvalidLifecycle);
      }
      match e.kind {
        case Ping => return Ok(());
        case MessageStart =>
          if started {
            return Err(InvalidLifecycle);
          }
          if e.message.Err? {
            return Err(e.message.error);
          }
          started := true;
          return Ok(());
        case ErrorEvent =>
          if !e.errorShape {
            return Err(InvalidJson);
          }
          terminal := true;
          return Ok(());
        case _ =>
      }
      if !started {
        return Err(InvalidLifecycle);
      }
      r := Ok(());
      match e.kind {
        case BlockStart => r := OpenNew(e);
        case BlockDelta(delta) => r := Extend(e, delta);
        case BlockStop => r := Close(e);
        case MessageDelta =>
          if messageDelta || blocks != map[] {
            return Err(InvalidLifecycle);
          }
          if !e.deltaIsObject || e.outputTokens.None? {
            return Err(InvalidJson);
          }
          messageDelta := true;
        case MessageStop =>
          if !messageDelta || blocks != map[] {
            return Err(InvalidLifecycle);
          }
          terminal := true;
        case _ =>
      }
    }

    method OpenNew(e: Event) returns (r: Result<(), AdapterError>)
      modifies this
      ensures Verdict(View(), r) == StartBlock(old(View()), e)
    {
      if e.index.None? || e.block.None? || e.block.value.kind.None? || !ValidStart(e.block.value) {
        return Err(InvalidJson);
      }
      var duplicate := e.index.value in blocks;
      blocks := blocks[e.index.value := OpenBlock(e.block.value.kind.value, "")];
      return if duplicate then Err(InvalidLifecycle) else Ok(());
    }

    method Extend(e: Event, delta: DeltaKind) returns (r: Result<(), AdapterError>)
      modifies this
      ensures Verdict(View(), r) == DeltaBlock(old(View()), e, delta)
    {
      if e.index.None? {
        return Err(InvalidJson);
      }
      if e.index.value !in blocks {
        return Err(InvalidLifecycle);
      }
      var block := blocks[e.index.value];
      if !Compatible(block.kind, delta) && !delta.ExtensionDelta? {
        return Err(InvalidLifecycle);
      }
      if delta.InputJson? {
        if e.fragment.None? {
          return Err(InvalidJson);
        }
        blocks := blocks[e.index.value := block.(partial := block.partial + e.fragment.value)];
      }
      return Ok(());
    }

    method Close(e: Event) returns (r: Result<(), AdapterError>)
      modifies this
      ensures Verdict(View(), r) == StopBlock(parses, old(View()), e)
    {
      if e.index.None? {
        return Err(InvalidJson);
      }
      if e.index.value !in blocks {
        return Err(InvalidLifecycle);
      }
      var block := blocks[e.index.value];
      blocks := blocks - {e.index.value};
      if block.kind.ToolUse? && !parses(block.partial) {
        return Err(InvalidJson);
      }
      return Ok(());
    }
  }
}
