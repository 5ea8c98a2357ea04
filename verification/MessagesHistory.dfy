/**
 What the Messages lifecycle accepts, said over event histories alone.
 Source: adapters/anthropic-messages/src/stream.rs.
 */
module MessagesHistory {
  import opened Common
  import Framing
  import opened Messages
  import Sse
  import SseFields
  import StreamPush

  type History = seq<Event>

  // ---- What single events do ----

  predicate Starts(e: Event, i: nat) { e.kind.BlockStart? && e.index == Some(i) }

  predicate Stops(e: Event, i: nat) { e.kind.BlockStop? && e.index == Some(i) }

  predicate DeltaOn(e: Event, i: nat) { e.kind.BlockDelta? && e.index == Some(i) }

  predicate EndsStream(e: Event) { e.kind.ErrorEvent? || e.kind.MessageStop? }

  /** The JSON text a delta contributes to block `i`. */
  function Fragment(e: Event, i: nat): (text: string)
  {
    if DeltaOn(e, i) && e.kind.delta.InputJson? && e.fragment.Some? then e.fragment.value else ""
  }

  // ---- What a history holds ----

  ghost predicate HasStart(h: History) { exists e :: e in h && e.kind.MessageStart? }

  ghost predicate HasMessageDelta(h: History) { exists e :: e in h && e.kind.MessageDelta? }

  ghost predicate HasEnd(h: History) { exists e :: e in h && EndsStream(e) }

  /** Block `i` is open at the end of `h` since position `p`: a start there and no start or stop after it. */
  ghost predicate OpenSince(h: History, i: nat, p: nat)
  {
    p < |h| && Starts(h[p], i) && forall q :: p < q < |h| ==> !Starts(h[q], i) && !Stops(h[q], i)
  }

  ghost predicate Open(h: History, i: nat) { exists p: nat :: OpenSince(h, i, p) }

  /** Concatenated JSON fragments for block `i` from position `from` on. */
  function Fragments(h: History, i: nat, from: nat): (text: string)
  {
    if |h| <= from then "" else Fragments(h[..|h| - 1], i, from) + Fragment(h[|h| - 1], i)
  }

  // ---- Legal histories ----

  predicate WellFormedStart(e: Event)
  {
    && e.index.Some? && e.block.Some? && e.block.value.kind.Some?
    && var b := e.block.value;
       && (b.kind == Some(TextBlock) ==> b.text.Some?)
       && (b.kind == Some(ThinkingBlock) ==> b.thinking.Some? && b.signature.Some?)
       && (b.kind == Some(RedactedThinking) ==> b.data.Some? && b.data != Some(""))
       && (b.kind == Some(ToolUse) ==> b.id.Some? && b.id != Some("") && b.name.Some? && b.name != Some("") && b.inputIsObject)
  }

  /** Which blocks a delta extends. */
  predicate Extends(delta: DeltaKind, kind: BlockKind)
  {
    match delta
    case TextDelta | CitationDelta => kind == TextBlock
    case InputJson => kind == ToolUse
    case ThinkingDelta | SignatureDelta => kind == ThinkingBlock
    case ExtensionDelta(_) => true
  }

  predicate StartOfKind(e: Event, kind: BlockKind)
  {
    e.block.Some? && e.block.value.kind == Some(kind)
  }

  ghost predicate LegalDelta(past: History, e: Event, delta: DeltaKind)
  {
    && e.index.Some?
    && (delta.InputJson? ==> e.fragment.Some?)
    && exists p: nat :: OpenSince(past, e.index.value, p)
                   && (delta.ExtensionDelta? || exists kind :: StartOfKind(past[p], kind) && Extends(delta, kind))
  }

  ghost predicate LegalStop(parses: Parses, past: History, e: Event)
  {
    && e.index.Some?
    && exists p: nat :: OpenSince(past, e.index.value, p)
                   && (StartOfKind(past[p], ToolUse) ==> parses(Fragments(past, e.index.value, p + 1)))
  }

  ghost predicate NoneOpen(past: History) { forall i :: !Open(past, i) }

  /** Whether `e` may follow `past`. */
  ghost predicate LegalNext(parses: Parses, past: History, e: Event)
  {
    && !HasEnd(past)
    && match e.kind
       case Ping => true
       case MessageStart => !HasStart(past) && e.message.Ok?
       case ErrorEvent => e.errorShape
       case BlockStart => HasStart(past) && WellFormedStart(e) && !Open(past, e.index.value)
       case BlockDelta(delta) => HasStart(past) && LegalDelta(past, e, delta)
       case BlockStop => HasStart(past) && LegalStop(parses, past, e)
       case MessageDelta => HasStart(past) && !HasMessageDelta(past) && NoneOpen(past) && e.deltaIsObject && e.outputTokens.Some?
       case MessageStop => HasStart(past) && HasMessageDelta(past) && NoneOpen(past)
       case Extension(_) => HasStart(past)
  }

  ghost predicate LegalAt(parses: Parses, h: History, k: nat)
    requires k < |h|
  {
    LegalNext(parses, h[..k], h[k])
  }

  ghost predicate Legal(parses: Parses, h: History)
  {
    forall k :: 0 <= k < |h| ==> LegalAt(parses, h, k)
  }

  // ---- The state is a summary of the accepted history ----

  ghost predicate SummarisesBlock(b: OpenBlock, h: History, i: nat, p: nat)
  {
    OpenSince(h, i, p) && StartOfKind(h[p], b.kind) && b.partial == Fragments(h, i, p + 1)
  }

  ghost predicate SummarisesBlocks(blocks: map<nat, OpenBlock>, h: History)
  {
    forall i :: if i in blocks then exists p: nat :: SummarisesBlock(blocks[i], h, i, p) else !Open(h, i)
  }

  ghost predicate Summarises(s: Lifecycle, h: History)
  {
    && s.started == HasStart(h)
    && s.terminal == HasEnd(h)
    && s.messageDelta == HasMessageDelta(h)
    && SummarisesBlocks(s.blocks, h)
  }

  /** The open position is unique. */
  lemma OpenUnique(h: History, i: nat, p: nat, q: nat)
    requires OpenSince(h, i, p) && OpenSince(h, i, q)
    ensures p == q
  {
  }

  /** The history determines the state. */
  lemma SummaryUnique(s: Lifecycle, t: Lifecycle, h: History)
    requires Summarises(s, h) && Summarises(t, h)
    ensures s == t
  {
    forall i
      ensures i in s.blocks <==> i in t.blocks
      ensures i in s.blocks && i in t.blocks ==> s.blocks[i] == t.blocks[i]
    {
      if i in s.blocks {
        var p: nat :| SummarisesBlock(s.blocks[i], h, i, p);
        assert Open(h, i);
      }
      if i in t.blocks {
        var q: nat :| SummarisesBlock(t.blocks[i], h, i, q);
        assert Open(h, i);
      }
    }
    assert s.blocks == t.blocks;
  }

  // ---- One event more ----

  lemma GrowFlags(h: History, e: Event)
    ensures HasStart(h + [e]) <==> HasStart(h) || e.kind.MessageStart?
    ensures HasMessageDelta(h + [e]) <==> HasMessageDelta(h) || e.kind.MessageDelta?
    ensures HasEnd(h + [e]) <==> HasEnd(h) || EndsStream(e)
  {
    assert forall x :: x in h ==> x in h + [e];
    assert e in h + [e];
  }

  /** A new event leaves a block open, closes it, or opens it at the new position. */
  lemma GrowOpen(h: History, e: Event, i: nat, p: nat)
    ensures OpenSince(h + [e], i, p) <==>
            (Starts(e, i) && p == |h|) || (OpenSince(h, i, p) && !Starts(e, i) && !Stops(e, i))
  {
    var longer := h + [e];
    assert longer[|h|] == e;
    assert forall q :: 0 <= q < |h| ==> longer[q] == h[q];
    if OpenSince(longer, i, p) && p < |h| {
      assert !Starts(longer[|h|], i) && !Stops(longer[|h|], i);
      assert forall q :: p < q < |h| ==> !Starts(longer[q], i) && !Stops(longer[q], i);
    }
  }

  lemma GrowFragments(h: History, e: Event, i: nat, from: nat)
    requires from <= |h|
    ensures Fragments(h + [e], i, from) == Fragments(h, i, from) + Fragment(e, i)
  {
    assert (h + [e])[..|h|] == h;
  }

  /** A block that `e` neither starts nor stops keeps its summary, extended by the fragment `e` carries. */
  lemma KeepBlock(b: OpenBlock, h: History, e: Event, i: nat)
    requires exists p: nat :: SummarisesBlock(b, h, i, p)
    requires !Starts(e, i) && !Stops(e, i)
    ensures exists p: nat :: SummarisesBlock(b.(partial := b.partial + Fragment(e, i)), h + [e], i, p)
  {
    var p: nat :| SummarisesBlock(b, h, i, p);
    GrowOpen(h, e, i, p);
    GrowFragments(h, e, i, p + 1);
    assert SummarisesBlock(b.(partial := b.partial + Fragment(e, i)), h + [e], i, p);
  }

  lemma KeepClosed(h: History, e: Event, i: nat)
    requires !Open(h, i) && !Starts(e, i)
    ensures !Open(h + [e], i)
  {
    if p: nat :| OpenSince(h + [e], i, p) {
      GrowOpen(h, e, i, p);
    }
  }

  /** The block table after an accepted event, as a function of the event. */
  function NextBlocks(blocks: map<nat, OpenBlock>, e: Event): (r: map<nat, OpenBlock>)
    requires e.kind.BlockStart? ==> WellFormedStart(e)
  {
    if e.index.None? then blocks
    else if e.kind.BlockStart? then blocks[e.index.value := OpenBlock(e.block.value.kind.value, "")]
    else if e.kind.BlockStop? then blocks - {e.index.value}
    else if e.index.value in blocks then
      blocks[e.index.value := blocks[e.index.value].(partial := blocks[e.index.value].partial + Fragment(e, e.index.value))]
    else blocks
  }

  lemma BlocksStep(blocks: map<nat, OpenBlock>, h: History, e: Event)
    requires SummarisesBlocks(blocks, h)
    requires e.kind.BlockStart? ==> WellFormedStart(e)
    ensures SummarisesBlocks(NextBlocks(blocks, e), h + [e])
  {
    var next := NextBlocks(blocks, e);
    forall i
      ensures if i in next then exists p: nat :: SummarisesBlock(next[i], h + [e], i, p) else !Open(h + [e], i)
    {
      if Starts(e, i) {
        GrowOpen(h, e, i, |h|);
        assert SummarisesBlock(next[i], h + [e], i, |h|);
      } else if Stops(e, i) {
        if p: nat :| OpenSince(h + [e], i, p) {
          GrowOpen(h, e, i, p);
        }
      } else if i in blocks {
        KeepBlock(blocks[i], h, e, i);
        assert blocks[i].(partial := blocks[i].partial + "") == blocks[i];
      } else {
        KeepClosed(h, e, i);
      }
    }
  }

  /** An accepted event changes the block table exactly so. */
  lemma AcceptedBlocks(parses: Parses, s: Lifecycle, e: Event)
    requires Validate(parses, s, e).result.Ok?
    ensures e.kind.BlockStart? ==> WellFormedStart(e)
    ensures Validate(parses, s, e).state.blocks == NextBlocks(s.blocks, e)
  {
    if e.index.Some? && e.index.value in s.blocks && !e.kind.BlockStop? {
      var b := s.blocks[e.index.value];
      if Fragment(e, e.index.value) == "" {
        assert b.(partial := b.partial + "") == b;
        assert s.blocks[e.index.value := b] == s.blocks;
      }
    }
  }

  /** The table holds exactly the open blocks. */
  lemma TableIsOpen(blocks: map<nat, OpenBlock>, h: History, i: nat)
    requires SummarisesBlocks(blocks, h)
    ensures i in blocks <==> Open(h, i)
  {
    if i in blocks {
      var p: nat :| SummarisesBlock(blocks[i], h, i, p);
      assert OpenSince(h, i, p);
    }
  }

  lemma EmptyTable(blocks: map<nat, OpenBlock>, h: History)
    requires SummarisesBlocks(blocks, h)
    ensures blocks == map[] <==> NoneOpen(h)
  {
    forall i ensures i in blocks <==> Open(h, i) {
      TableIsOpen(blocks, h, i);
    }
    assert blocks == map[] <==> forall i :: i !in blocks;
  }

  /** A delta is accepted exactly when its block is open, was started with a compatible kind, and carries its fragment. */
  lemma DeltaLegality(s: Lifecycle, h: History, e: Event, delta: DeltaKind)
    requires SummarisesBlocks(s.blocks, h)
    ensures DeltaBlock(s, e, delta).result.Ok? <==> LegalDelta(h, e, delta)
  {
    if e.index.Some? {
      var i := e.index.value;
      TableIsOpen(s.blocks, h, i);
      if i in s.blocks {
        var p: nat :| SummarisesBlock(s.blocks[i], h, i, p);
        forall q: nat | OpenSince(h, i, q) ensures q == p {
          OpenUnique(h, i, p, q);
        }
        assert StartOfKind(h[p], s.blocks[i].kind);
      }
    }
  }

  /** A stop is accepted exactly when its block is open and a tool block's collected text parses. */
  lemma StopLegality(parses: Parses, s: Lifecycle, h: History, e: Event)
    requires SummarisesBlocks(s.blocks, h)
    ensures StopBlock(parses, s, e).result.Ok? <==> LegalStop(parses, h, e)
  {
    if e.index.Some? {
      var i := e.index.value;
      TableIsOpen(s.blocks, h, i);
      if i in s.blocks {
        var p: nat :| SummarisesBlock(s.blocks[i], h, i, p);
        forall q: nat | OpenSince(h, i, q) ensures q == p {
          OpenUnique(h, i, p, q);
        }
        assert OpenSince(h, i, p);
      }
    }
  }

  lemma StartLegality(s: Lifecycle, h: History, e: Event)
    requires SummarisesBlocks(s.blocks, h)
    ensures StartBlock(s, e).result.Ok? <==> WellFormedStart(e) && !Open(h, e.index.value)
  {
    if e.index.Some? {
      TableIsOpen(s.blocks, h, e.index.value);
    }
  }

  /** From a state that summarises the history, exactly the legal events are accepted. */
  lemma LegalityStep(parses: Parses, s: Lifecycle, h: History, e: Event)
    requires Summarises(s, h)
    ensures Validate(parses, s, e).result.Ok? <==> LegalNext(parses, h, e)
  {
    EmptyTable(s.blocks, h);
    match e.kind {
      case BlockStart => StartLegality(s, h, e);
      case BlockDelta(delta) => DeltaLegality(s, h, e, delta);
      case BlockStop => StopLegality(parses, s, h, e);
      case _ =>
    }
  }

  lemma AcceptedFlags(parses: Parses, s: Lifecycle, e: Event)
    requires Validate(parses, s, e).result.Ok?
    ensures var t := Validate(parses, s, e).state;
            && t.started == (s.started || e.kind.MessageStart?)
            && t.terminal == (s.terminal || EndsStream(e))
            && t.messageDelta == (s.messageDelta || e.kind.MessageDelta?)
  {
  }

  /** From a state that summarises the history, exactly the legal events are accepted, and the new state summarises the longer history. */
  lemma AcceptedIsLegal(parses: Parses, s: Lifecycle, h: History, e: Event)
    requires Summarises(s, h)
    ensures Validate(parses, s, e).result.Ok? <==> LegalNext(parses, h, e)
    ensures Validate(parses, s, e).result.Ok? ==> Summarises(Validate(parses, s, e).state, h + [e])
  {
    LegalityStep(parses, s, h, e);
    if Validate(parses, s, e).result.Ok? {
      GrowFlags(h, e);
      AcceptedFlags(parses, s, e);
      AcceptedBlocks(parses, s, e);
      BlocksStep(s.blocks, h, e);
    }
  }

  /** A rejected event changes nothing, except that a duplicate start replaces the open block and a tool block that is not JSON is dropped. */
  lemma RejectionEffect(parses: Parses, s: Lifecycle, e: Event)
    requires Validate(parses, s, e).result.Err?
    ensures var t := Validate(parses, s, e).state;
            t == s.(blocks := t.blocks) &&
            if s.terminal || !s.started || e.index.None? || e.index.value !in s.blocks then t == s
            else if e.kind.BlockStart? && WellFormedStart(e) then
              t.blocks == s.blocks[e.index.value := OpenBlock(e.block.value.kind.value, "")]
            else if e.kind.BlockStop? then
              s.blocks[e.index.value].kind.ToolUse? && !parses(s.blocks[e.index.value].partial)
              && t.blocks == s.blocks - {e.index.value}
            else t == s
  {
  }

  // ---- Why an event is refused ----

  /**
   A refused event is malformed: it has no index, a start is not well formed, a fragment is missing where it would fit, a tool's text
   is no JSON, or a message delta in its place lacks a field.
   */
  ghost predicate Malformed(past: History, e: Event)
  {
    match e.kind
    case BlockStart => !WellFormedStart(e)
    case BlockDelta(delta) => e.index.None? || (delta.InputJson? && LegalDelta(past, e.(fragment := Some("")), delta))
    case BlockStop => e.index.None? || Open(past, e.index.value)
    case MessageDelta => !HasMessageDelta(past) && NoneOpen(past)
    case _ => false
  }

  ghost function Reason(past: History, e: Event): (error: AdapterError)
  {
    if HasEnd(past) then InvalidLifecycle
    else
      match e.kind
      case MessageStart => if HasStart(past) || e.message.Ok? then InvalidLifecycle else e.message.error
      case ErrorEvent => InvalidJson
      case _ => if HasStart(past) && Malformed(past, e) then InvalidJson else InvalidLifecycle
  }

  lemma DeltaReason(s: Lifecycle, h: History, e: Event, delta: DeltaKind)
    requires SummarisesBlocks(s.blocks, h) && DeltaBlock(s, e, delta).result.Err?
    ensures DeltaBlock(s, e, delta).result ==
            Err(if e.index.None? || (delta.InputJson? && LegalDelta(h, e.(fragment := Some("")), delta)) then InvalidJson else InvalidLifecycle)
  {
    DeltaLegality(s, h, e.(fragment := Some("")), delta);
  }

  /** A refused event is refused for its own reason. */
  lemma RefusedFor(parses: Parses, s: Lifecycle, h: History, e: Event)
    requires Summarises(s, h) && Validate(parses, s, e).result.Err?
    ensures Validate(parses, s, e).result == Err(Reason(h, e))
  {
    EmptyTable(s.blocks, h);
    if e.index.Some? {
      TableIsOpen(s.blocks, h, e.index.value);
    }
    if e.kind.BlockDelta? && !s.terminal && s.started {
      DeltaReason(s, h, e, e.kind.delta);
    }
  }

  // ---- Whole runs ----

  /** State after a run in which every event was accepted, or None at the first rejection. */
  function Run(parses: Parses, h: History): (s: Option<Lifecycle>)
  {
    if h == [] then Some(FRESH)
    else
      var earlier := Run(parses, h[..|h| - 1]);
      if earlier.None? then None
      else
        var v := Validate(parses, earlier.value, h[|h| - 1]);
        if v.result.Ok? then Some(v.state) else None
  }

  lemma LegalExtends(parses: Parses, h: History, e: Event)
    ensures Legal(parses, h + [e]) <==> Legal(parses, h) && LegalNext(parses, h, e)
  {
    var longer := h + [e];
    assert longer[..|h|] == h && longer[|h|] == e;
    forall k | 0 <= k < |h|
      ensures LegalAt(parses, longer, k) <==> LegalAt(parses, h, k)
    {
      assert longer[..k] == h[..k] && longer[k] == h[k];
    }
    if Legal(parses, longer) {
      assert forall k :: 0 <= k < |h| ==> LegalAt(parses, longer, k);
      assert LegalAt(parses, longer, |h|);
    }
  }

  /** A new decoder accepts every event of a sequence exactly when it is a legal history, and its state is then the history's summary. */
  lemma {:induction false} AcceptedIffLegal(parses: Parses, h: History)
    ensures Run(parses, h).Some? <==> Legal(parses, h)
    ensures Run(parses, h).Some? ==> Summarises(Run(parses, h).value, h)
    decreases |h|
  {
    if h == [] {
    } else {
      var init, e := h[..|h| - 1], h[|h| - 1];
      assert init + [e] == h;
      AcceptedIffLegal(parses, init);
      LegalExtends(parses, init, e);
      if Run(parses, init).Some? {
        AcceptedIsLegal(parses, Run(parses, init).value, init, e);
      }
    }
  }

  // ---- Runs that go on after a rejection ----

  /**
   Whether an event leaves its mark on its block even when it is rejected: a well-formed start of an open block replaces it, and
   a stop removes it although its text does not parse.
   */
  ghost predicate Marks(past: History, e: Event)
  {
    && !HasEnd(past) && HasStart(past) && e.index.Some? && Open(past, e.index.value)
    && (e.kind.BlockStop? || (e.kind.BlockStart? && WellFormedStart(e)))
  }

  /** The offered events that count: the legal ones and those that leave their mark, each judged by those before it. */
  ghost function Recorded(parses: Parses, offered: History): (h: History)
  {
    if offered == [] then []
    else
      var past, e := Recorded(parses, offered[..|offered| - 1]), offered[|offered| - 1];
      if LegalNext(parses, past, e) || Marks(past, e) then past + [e] else past
  }

  /** State after all the offered events, accepted or not. */
  function Final(parses: Parses, offered: History): (s: Lifecycle)
  {
    if offered == [] then FRESH else Validate(parses, Final(parses, offered[..|offered| - 1]), offered[|offered| - 1]).state
  }

  lemma RejectedStep(parses: Parses, s: Lifecycle, h: History, e: Event)
    requires Summarises(s, h) && Validate(parses, s, e).result.Err?
    ensures var t := Validate(parses, s, e).state;
            if Marks(h, e) then Summarises(t, h + [e]) else t == s
  {
    RejectionEffect(parses, s, e);
    if e.index.Some? {
      TableIsOpen(s.blocks, h, e.index.value);
    }
    if Marks(h, e) {
      GrowFlags(h, e);
      BlocksStep(s.blocks, h, e);
    }
  }

  /** Every run, with any rejections in it: the state summarises the recorded events, and exactly what is legal after them is accepted. */
  lemma {:induction false} RunRefinesRecord(parses: Parses, offered: History)
    ensures Summarises(Final(parses, offered), Recorded(parses, offered))
    ensures forall e :: Validate(parses, Final(parses, offered), e).result.Ok? <==> LegalNext(parses, Recorded(parses, offered), e)
    decreases |offered|
  {
    if offered == [] {
    } else {
      var init, last := offered[..|offered| - 1], offered[|offered| - 1];
      RunRefinesRecord(parses, init);
      var s, h := Final(parses, init), Recorded(parses, init);
      AcceptedIsLegal(parses, s, h, last);
      if Validate(parses, s, last).result.Err? {
        RejectedStep(parses, s, h, last);
      }
    }
    forall e ensures Validate(parses, Final(parses, offered), e).result.Ok? <==> LegalNext(parses, Recorded(parses, offered), e) {
      LegalityStep(parses, Final(parses, offered), Recorded(parses, offered), e);
    }
  }

  // ---- From bytes to histories ----

  lemma {:induction false} FoldIsLegal(json: Json, parses: Parses, s: Lifecycle, h: History, frames: seq<SseFields.Frame>)
    requires Summarises(s, h) && Legal(parses, h)
    ensures var r := StreamPush.Fold(Handling(json, parses), s, frames);
            r.result.Ok? ==> Legal(parses, h + r.result.value) && Summarises(r.state, h + r.result.value)
    decreases |frames|
  {
    assert h + [] == h;
    if frames == [] || HandleFrame(json, parses, s, frames[0]).result.Err? {
    } else {
      var first := HandleFrame(json, parses, s, frames[0]);
      assert Handling(json, parses)(s, frames[0]) == first;
      var e := first.result.value[0];
      AcceptedIsLegal(parses, s, h, e);
      LegalExtends(parses, h, e);
      FoldIsLegal(json, parses, first.state, h + [e], frames[1..]);
      var rest := StreamPush.Fold(Handling(json, parses), first.state, frames[1..]);
      if rest.result.Ok? {
        assert h + [e] + rest.result.value == h + (first.result.value + rest.result.value);
      }
    }
  }

  lemma PushIsLegal(cut: Framing.Cutter, parse: Framing.Parser<SseFields.Frame>, json: Json, parses: Parses, bytes: seq<byte>)
    ensures var r := StreamPush.Push(cut, parse, Handling(json, parses), StreamPush.Decoder([], FRESH), bytes);
            r.result.Ok? ==> Legal(parses, r.result.value) && Summarises(r.state.state, r.result.value)
  {
    var r := StreamPush.Push(cut, parse, Handling(json, parses), StreamPush.Decoder([], FRESH), bytes);
    if r.result.Ok? {
      FoldIsLegal(json, parses, FRESH, [], Framing.Drain(cut, parse, [] + bytes).frames);
      assert [] + r.result.value == r.result.value;
    }
  }

  /** However its bytes arrive, a stream decoded without error emits a legal history and ends in its summary. */
  lemma DecodedStreamIsLegal(utf8: Sse.Decoding, json: Json, parses: Parses, chunks: seq<seq<byte>>)
    ensures var r := StreamPush.Pushes(Sse.Cut, Sse.FrameParser(utf8), Handling(json, parses), StreamPush.Decoder([], FRESH), chunks);
            r.result.Ok? ==> Legal(parses, r.result.value) && Summarises(r.state.state, r.result.value)
  {
    MessagesChunkInvariance(utf8, json, parses, chunks);
    PushIsLegal(Sse.Cut, Sse.FrameParser(utf8), json, parses, Concat(chunks));
  }

  // ---- What legality means for positions in a history ----

  lemma Earlier(h: History, j: nat, k: nat)
    requires j < k <= |h|
    ensures h[j] in h[..k]
  {
    assert h[..k][j] == h[j];
  }

  /** Each delta and each stop of a block follows a start of it, with no other start or stop of it in between. */
  lemma InsideBlock(parses: Parses, h: History, k: nat, i: nat) returns (p: nat)
    requires Legal(parses, h) && k < |h| && (DeltaOn(h[k], i) || Stops(h[k], i))
    ensures p < k && Starts(h[p], i)
    ensures forall q :: p < q < k ==> !Starts(h[q], i) && !Stops(h[q], i)
    ensures DeltaOn(h[k], i) && !h[k].kind.delta.ExtensionDelta? ==>
              exists kind :: StartOfKind(h[p], kind) && Extends(h[k].kind.delta, kind)
    ensures Stops(h[k], i) && StartOfKind(h[p], ToolUse) ==> parses(Fragments(h[..k], i, p + 1))
  {
    assert LegalAt(parses, h, k);
    var past := h[..k];
    if DeltaOn(h[k], i) {
      p :| OpenSince(past, i, p)
           && (h[k].kind.delta.ExtensionDelta? || exists kind :: StartOfKind(past[p], kind) && Extends(h[k].kind.delta, kind));
    } else {
      p :| OpenSince(past, i, p) && (StartOfKind(past[p], ToolUse) ==> parses(Fragments(past, i, p + 1)));
    }
    assert forall q :: 0 <= q < k ==> past[q] == h[q];
  }

  /** Between two starts of a block index there is a stop of it. */
  lemma StartsAreSeparated(parses: Parses, h: History, a: nat, b: nat, i: nat)
    requires Legal(parses, h) && a < b < |h| && Starts(h[a], i) && Starts(h[b], i)
    ensures exists q :: a < q < b && Stops(h[q], i)
  {
    assert LegalAt(parses, h, b);
    assert !Open(h[..b], i);
    if !exists q :: a < q < b && Stops(h[q], i) {
      var p := LastStart(h, a, b, i);
      assert OpenSince(h[..b], i, p);
    }
  }

  lemma LastStart(h: History, a: nat, b: nat, i: nat) returns (p: nat)
    requires a < b <= |h| && Starts(h[a], i)
    ensures a <= p < b && Starts(h[p], i) && forall q :: p < q < b ==> !Starts(h[q], i)
    decreases b - a
  {
    if forall q :: a < q < b ==> !Starts(h[q], i) {
      p := a;
    } else {
      var q: nat :| a < q < b && Starts(h[q], i);
      p := LastStart(h, q, b, i);
    }
  }

  /** A block that was started and not stopped is open at the end. */
  lemma UnstoppedIsOpen(h: History, a: nat, i: nat)
    requires a < |h| && Starts(h[a], i) && forall q :: a < q < |h| ==> !Stops(h[q], i)
    ensures Open(h, i)
  {
    var p := LastStart(h, a, |h|, i);
    assert OpenSince(h, i, p);
  }

  lemma EveryStartStopped(h: History)
    requires NoneOpen(h)
    ensures forall a, i :: 0 <= a < |h| && Starts(h[a], i) ==> exists q :: a < q < |h| && Stops(h[q], i)
  {
    forall a: nat, i: nat | a < |h| && Starts(h[a], i)
      ensures exists q :: a < q < |h| && Stops(h[q], i)
    {
      if forall q :: a < q < |h| ==> !Stops(h[q], i) {
        UnstoppedIsOpen(h, a, i);
        assert false;
      }
    }
  }

  lemma DeltaBeforeStop(parses: Parses, h: History, k: nat)
    requires Legal(parses, h) && k < |h| && h[k].kind.MessageStop?
    ensures exists d :: 0 <= d < k && h[d].kind.MessageDelta?
  {
    assert LegalAt(parses, h, k);
    var x :| x in h[..k] && x.kind.MessageDelta?;
    var d :| 0 <= d < k && h[..k][d] == x;
    assert h[d].kind.MessageDelta?;
  }

  /** When the decoder finishes, the stream ended, every started block was stopped, and a message stop follows the one message delta. */
  lemma FinishedStream(parses: Parses, h: History)
    requires Run(parses, h).Some? && Run(parses, h).value.terminal && Run(parses, h).value.blocks == map[]
    ensures h != [] && EndsStream(h[|h| - 1])
    ensures forall a, i :: 0 <= a < |h| && Starts(h[a], i) ==> exists q :: a < q < |h| && Stops(h[q], i)
    ensures h[|h| - 1].kind.MessageStop? ==> exists d :: 0 <= d < |h| - 1 && h[d].kind.MessageDelta?
    ensures forall d, e :: 0 <= d < |h| && 0 <= e < |h| && h[d].kind.MessageDelta? && h[e].kind.MessageDelta? ==> d == e
  {
    AcceptedIffLegal(parses, h);
    EmptyTable(map[], h);
    EveryStartStopped(h);
    var end :| end in h && EndsStream(end);
    var k :| 0 <= k < |h| && h[k] == end;
    EndIsLast(parses, h, k);
    if end.kind.MessageStop? {
      DeltaBeforeStop(parses, h, k);
    }
    forall d: nat, e: nat | d < |h| && e < |h| && h[d].kind.MessageDelta? && h[e].kind.MessageDelta?
      ensures d == e
    {
      OneMessageDelta(parses, h, d, e);
      OneMessageDelta(parses, h, e, d);
    }
  }

  lemma EndIsLast(parses: Parses, h: History, k: nat)
    requires Legal(parses, h) && k < |h| && EndsStream(h[k])
    ensures k == |h| - 1
  {
    var last: nat := |h| - 1;
    assert LegalAt(parses, h, last);
    if k < last {
      Earlier(h, k, last);
      assert false;
    }
  }

  lemma OneMessageDelta(parses: Parses, h: History, d: nat, e: nat)
    requires Legal(parses, h) && d < |h| && e < |h| && h[d].kind.MessageDelta? && h[e].kind.MessageDelta?
    ensures d >= e
  {
    assert LegalAt(parses, h, e);
    if d < e {
      Earlier(h, d, e);
      assert false;
    }
  }
}
