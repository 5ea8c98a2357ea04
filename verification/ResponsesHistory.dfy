/**
 What the Responses lifecycle accepts, said over event histories alone: an event is legal after a
 history when the history's earlier events admit it. Source: adapters/openai-responses/src/stream.rs.
 */
module ResponsesHistory {
  import opened Common
  import Framing
  import opened Responses
  import Sequences
  import Sse
  import SseFields
  import StreamPush

  type History = seq<Event>

  // ---- What single events say ----

  predicate Is(e: Event, kind: EventKind) { e.Portable? && e.kind == kind }

  function NumberOf(e: Event): (number: Option<nat>)
  {
    match e
    case Portable(_, number, _) => Some(number)
    case Extension(_, number) => number
  }

  function NonEmpty(text: Option<string>): (r: Option<string>) { if text == None || text == Some("") then None else text }

  function GivenId(p: Payload): (id: Option<string>)
  {
    match p.item
    case None => None
    case Some(item) => NonEmpty(item.id)
  }

  function GivenKind(p: Payload): (kind: Option<string>)
  {
    match p.item
    case None => None
    case Some(item) => NonEmpty(item.kind)
  }

  predicate EndsResponse(k: EventKind)
  {
    match k
    case Completed | Failed | Incomplete | ErrorEvent => true
    case _ => false
  }

  predicate SpeaksOfPart(k: EventKind)
  {
    match k
    case OutputTextDelta | OutputTextDone | RefusalDelta | RefusalDone | OutputTextAnnotationAdded => true
    case _ => false
  }

  /** The kind of item an event about a function call or a reasoning item needs. */
  function NeededKind(k: EventKind): (kind: Option<string>)
  {
    match k
    case FunctionArgumentsDelta | FunctionArgumentsDone => Some("function_call")
    case ReasoningSummaryPartAdded | ReasoningSummaryPartDone | ReasoningSummaryTextDelta | ReasoningSummaryTextDone => Some("reasoning")
    case ReasoningTextDelta | ReasoningTextDone => Some("reasoning")
    case _ => None
  }

  // ---- What single events do ----

  predicate Adds(e: Event, i: nat) { Is(e, OutputItemAdded) && e.payload.outputIndex == Some(i) }

  predicate Ends(e: Event, i: nat) { Is(e, OutputItemDone) && e.payload.outputIndex == Some(i) }

  predicate AddsPart(e: Event, i: nat, c: nat)
  {
    Is(e, ContentPartAdded) && e.payload.outputIndex == Some(i) && e.payload.contentIndex == Some(c)
  }

  predicate EndsPart(e: Event, i: nat, c: nat)
  {
    Is(e, ContentPartDone) && e.payload.outputIndex == Some(i) && e.payload.contentIndex == Some(c)
  }

  /** A text or refusal delta, text or refusal done, or annotation for one content part. */
  predicate Touches(e: Event, i: nat, c: nat)
  {
    e.Portable? && SpeaksOfPart(e.kind) && e.payload.outputIndex == Some(i) && e.payload.contentIndex == Some(c)
  }

  predicate IsTerminal(e: Event) { e.Portable? && EndsResponse(e.kind) }

  // ---- What a history holds ----

  ghost predicate HasCreated(h: History) { exists e :: e in h && Is(e, Created) }

  ghost predicate HasTerminal(h: History) { exists e :: e in h && IsTerminal(e) }

  ghost predicate Added(h: History, i: nat) { exists e :: e in h && Adds(e, i) }

  ghost predicate Ended(h: History, i: nat) { exists e :: e in h && Ends(e, i) }

  ghost predicate PartAdded(h: History, i: nat, c: nat) { exists e :: e in h && AddsPart(e, i, c) }

  ghost predicate PartEnded(h: History, i: nat, c: nat) { exists e :: e in h && EndsPart(e, i, c) }

  /** Some event added the item at `i` under this id. */
  ghost predicate AddedAs(h: History, i: nat, id: string)
  {
    exists e :: e in h && Adds(e, i) && GivenId(e.payload) == Some(id)
  }

  ghost predicate AddedWithKind(h: History, i: nat, kind: string)
  {
    exists e :: e in h && Adds(e, i) && GivenKind(e.payload) == Some(kind)
  }

  ghost predicate IdUsed(h: History, id: string)
  {
    exists e, i :: e in h && Adds(e, i) && GivenId(e.payload) == Some(id)
  }

  // ---- Legal histories ----

  /** The payload names an item added earlier, by index and by id. */
  ghost predicate Targets(past: History, p: Payload)
  {
    p.outputIndex.Some? && NonEmpty(p.itemId).Some? && AddedAs(past, p.outputIndex.value, NonEmpty(p.itemId).value)
  }

  ghost predicate OpenOfKind(past: History, p: Payload, kind: string)
  {
    Targets(past, p) && !Ended(past, p.outputIndex.value) && AddedWithKind(past, p.outputIndex.value, kind)
  }

  ghost predicate NamesItem(p: Payload)
  {
    p.outputIndex.Some? && GivenId(p).Some? && GivenKind(p).Some?
  }

  ghost predicate LegalAdd(past: History, p: Payload)
  {
    NamesItem(p) && !Added(past, p.outputIndex.value) && !IdUsed(past, GivenId(p).value)
  }

  /** The item was added under this id and kind, is not done, and every part added to it is done. */
  ghost predicate LegalDone(past: History, p: Payload)
  {
    && NamesItem(p)
    && AddedAs(past, p.outputIndex.value, GivenId(p).value)
    && AddedWithKind(past, p.outputIndex.value, GivenKind(p).value)
    && !Ended(past, p.outputIndex.value)
    && PartsEnded(past, p.outputIndex.value)
  }

  ghost predicate PartsEnded(past: History, i: nat) { forall c :: PartAdded(past, i, c) ==> PartEnded(past, i, c) }

  ghost predicate ItemsEnded(past: History) { forall i :: Added(past, i) ==> Ended(past, i) }

  ghost predicate LegalPartAdd(past: History, p: Payload, message: string)
  {
    OpenOfKind(past, p, message) && p.contentIndex.Some? && !PartAdded(past, p.outputIndex.value, p.contentIndex.value)
  }

  /** The payload names a part that was added and is not done. */
  ghost predicate NamesOpenPart(past: History, p: Payload)
  {
    && Targets(past, p) && p.contentIndex.Some?
    && PartAdded(past, p.outputIndex.value, p.contentIndex.value)
    && !PartEnded(past, p.outputIndex.value, p.contentIndex.value)
  }

  ghost predicate LegalContent(past: History, p: Payload)
  {
    NamesOpenPart(past, p) && !Ended(past, p.outputIndex.value)
  }

  ghost predicate LegalPayload(past: History, k: EventKind, p: Payload)
  {
    if k.Completed? then ItemsEnded(past)
    else if k.OutputItemAdded? then LegalAdd(past, p)
    else if k.OutputItemDone? then LegalDone(past, p)
    else if k.ContentPartAdded? then LegalPartAdd(past, p, "message")
    else if k.ContentPartDone? then NamesOpenPart(past, p)
    else if SpeaksOfPart(k) then LegalContent(past, p)
    else if NeededKind(k).Some? then OpenOfKind(past, p, NeededKind(k).value)
    else true
  }

  ghost predicate SequenceGrows(past: History, e: Event)
  {
    NumberOf(e).Some? ==>
      forall x :: x in past && NumberOf(x).Some? ==> NumberOf(x).value < NumberOf(e).value
  }

  /** Whether `e` may follow `past`. */
  ghost predicate LegalNext(past: History, e: Event)
  {
    && !HasTerminal(past)
    && SequenceGrows(past, e)
    && (Is(e, Created) <==> !HasCreated(past))
    && (e.Portable? ==> LegalPayload(past, e.kind, e.payload))
  }

  ghost predicate Legal(h: History)
  {
    forall k :: 0 <= k < |h| ==> LegalAt(h, k)
  }

  ghost predicate LegalAt(h: History, k: nat)
    requires k < |h|
  {
    LegalNext(h[..k], h[k])
  }

  // ---- The state is a summary of the accepted history ----

  ghost predicate SummarisesItem(state: ItemState, h: History, i: nat)
  {
    && (forall id :: AddedAs(h, i, id) <==> id == state.id)
    && (forall kind :: AddedWithKind(h, i, kind) <==> kind == state.kind)
    && (state.done <==> Ended(h, i))
    && (forall c :: c in state.content <==> PartAdded(h, i, c))
    && (forall c :: c in state.contentDone <==> PartEnded(h, i, c))
    && state.contentDone <= state.content
    && (state.done ==> state.content == state.contentDone)
  }

  ghost predicate SummarisesItems(items: Items, h: History)
  {
    && (forall i :: i in items <==> Added(h, i))
    && (forall i :: i in items ==> SummarisesItem(items[i], h, i))
    && (forall i, j :: i in items && j in items && i != j ==> items[i].id != items[j].id)
    && (forall i :: Ended(h, i) ==> i in items)
    && (forall i, c :: PartAdded(h, i, c) || PartEnded(h, i, c) ==> i in items)
  }

  /** Flags and items say exactly what the history holds, and no accepted number exceeds the last one recorded. */
  ghost predicate Summarises(s: Lifecycle, h: History)
  {
    && s.created == HasCreated(h)
    && s.terminal == HasTerminal(h)
    && SummarisesItems(s.items, h)
    && (forall e :: e in h && NumberOf(e).Some? ==> s.last.Some? && NumberOf(e).value <= s.last.value)
  }

  /** Without rejections in between, the last number recorded is one of the history's. */
  ghost predicate LastIsOwn(s: Lifecycle, h: History)
  {
    s.last.Some? ==> exists e :: e in h && NumberOf(e) == s.last
  }

  lemma ItemUnique(a: ItemState, b: ItemState, h: History, i: nat)
    requires SummarisesItem(a, h, i) && SummarisesItem(b, h, i)
    ensures a == b
  {
    assert AddedAs(h, i, a.id) && AddedWithKind(h, i, a.kind);
    assert a.content == b.content && a.contentDone == b.contentDone;
  }

  lemma ItemsUnique(a: Items, b: Items, h: History)
    requires SummarisesItems(a, h) && SummarisesItems(b, h)
    ensures a == b
  {
    forall i ensures i in a <==> i in b {
      assert i in a <==> Added(h, i);
    }
    assert a.Keys == b.Keys;
    forall i | i in a ensures a[i] == b[i] {
      ItemUnique(a[i], b[i], h, i);
    }
  }

  /** The history determines the summarised state. */
  lemma SummaryUnique(s: Lifecycle, t: Lifecycle, h: History)
    requires Summarises(s, h) && Summarises(t, h)
    ensures s.created == t.created && s.terminal == t.terminal && s.items == t.items
  {
    ItemsUnique(s.items, t.items, h);
  }

  // ---- One event more ----

  lemma GrowFlags(h: History, e: Event)
    ensures HasCreated(h + [e]) <==> HasCreated(h) || Is(e, Created)
    ensures HasTerminal(h + [e]) <==> HasTerminal(h) || IsTerminal(e)
  {
    assert forall x :: x in h ==> x in h + [e];
    assert e in h + [e];
  }

  lemma GrowItems(h: History, e: Event)
    ensures forall i :: Added(h + [e], i) <==> Added(h, i) || Adds(e, i)
    ensures forall i :: Ended(h + [e], i) <==> Ended(h, i) || Ends(e, i)
    ensures forall i, id :: AddedAs(h + [e], i, id) <==> AddedAs(h, i, id) || (Adds(e, i) && GivenId(e.payload) == Some(id))
    ensures forall i, kind :: AddedWithKind(h + [e], i, kind) <==> AddedWithKind(h, i, kind) || (Adds(e, i) && GivenKind(e.payload) == Some(kind))
  {
    assert forall x :: x in h ==> x in h + [e];
    assert e in h + [e];
  }

  lemma GrowParts(h: History, e: Event)
    ensures forall i, c :: PartAdded(h + [e], i, c) <==> PartAdded(h, i, c) || AddsPart(e, i, c)
    ensures forall i, c :: PartEnded(h + [e], i, c) <==> PartEnded(h, i, c) || EndsPart(e, i, c)
  {
    assert forall x :: x in h ==> x in h + [e];
    assert e in h + [e];
  }

  predicate ChangesItems(e: Event)
  {
    Is(e, OutputItemAdded) || Is(e, OutputItemDone) || Is(e, ContentPartAdded) || Is(e, ContentPartDone)
  }

  /** What a history says of an item changes only with an event about that item. */
  lemma OtherItemsKeep(state: ItemState, h: History, e: Event, j: nat)
    requires SummarisesItem(state, h, j) && (ChangesItems(e) ==> e.payload.outputIndex != Some(j))
    ensures SummarisesItem(state, h + [e], j)
  {
    GrowItems(h, e);
    GrowParts(h, e);
  }

  lemma OtherEventsKeepItems(items: Items, h: History, e: Event)
    requires SummarisesItems(items, h) && !ChangesItems(e)
    ensures SummarisesItems(items, h + [e])
  {
    forall j | j in items ensures SummarisesItem(items[j], h + [e], j) {
      OtherItemsKeep(items[j], h, e, j);
    }
    GrowItems(h, e);
    GrowParts(h, e);
  }

  lemma AddItemLegal(items: Items, h: History, p: Payload)
    requires SummarisesItems(items, h)
    ensures AddItem(items, p).Ok? <==> LegalAdd(h, p)
  {
    if NamesItem(p) {
      var id := GivenId(p).value;
      if IdUsed(h, id) {
        var x, i :| x in h && Adds(x, i) && GivenId(x.payload) == Some(id);
        assert Added(h, i) && AddedAs(h, i, id);
      }
      if i :| i in items && items[i].id == id {
        assert AddedAs(h, i, id);
      }
    }
  }

  lemma FreshItem(h: History, e: Event, i: nat)
    requires Adds(e, i) && GivenId(e.payload).Some? && GivenKind(e.payload).Some?
    requires !Added(h, i) && !Ended(h, i) && forall c :: !PartAdded(h, i, c) && !PartEnded(h, i, c)
    ensures SummarisesItem(ItemState(GivenId(e.payload).value, GivenKind(e.payload).value, false, {}, {}), h + [e], i)
  {
    GrowItems(h, e);
    GrowParts(h, e);
    assert forall x :: x in h ==> !Adds(x, i);
  }

  lemma NewItem(items: Items, h: History, e: Event)
    requires SummarisesItems(items, h) && Is(e, OutputItemAdded) && AddItem(items, e.payload).Ok?
    ensures SummarisesItems(AddItem(items, e.payload).value, h + [e])
  {
    FreshItem(h, e, e.payload.outputIndex.value);
    forall j | j in items ensures SummarisesItem(items[j], h + [e], j) {
      OtherItemsKeep(items[j], h, e, j);
    }
    GrowItems(h, e);
    GrowParts(h, e);
  }

  /** Replacing one known item by an updated summary keeps the whole table a summary. */
  lemma UpdateItem(items: Items, h: History, e: Event, i: nat, state: ItemState)
    requires SummarisesItems(items, h) && i in items
    requires e.Portable? && !e.kind.OutputItemAdded? && e.payload.outputIndex == Some(i)
    requires state.id == items[i].id && SummarisesItem(state, h + [e], i)
    ensures SummarisesItems(items[i := state], h + [e])
  {
    GrowItems(h, e);
    GrowParts(h, e);
    forall j | j in items && j != i
      ensures SummarisesItem(items[j], h + [e], j)
    {
      OtherItemsKeep(items[j], h, e, j);
    }
  }

  lemma FinishItemLegal(items: Items, h: History, p: Payload)
    requires SummarisesItems(items, h)
    ensures FinishItem(items, p).Ok? <==> LegalDone(h, p)
  {
    if NamesItem(p) {
      var i := p.outputIndex.value;
      assert AddedAs(h, i, GivenId(p).value) ==> Added(h, i);
      if i in items {
        ItemPartsEnded(items[i], h, i);
      }
    }
  }

  lemma ItemPartsEnded(state: ItemState, h: History, i: nat)
    requires SummarisesItem(state, h, i)
    ensures state.content == state.contentDone <==> PartsEnded(h, i)
  {
    if PartsEnded(h, i) {
      forall c ensures c in state.content <==> c in state.contentDone {
        assert PartAdded(h, i, c) <==> c in state.content;
      }
    }
  }

  lemma FinishItemStep(items: Items, h: History, e: Event)
    requires SummarisesItems(items, h) && Is(e, OutputItemDone) && FinishItem(items, e.payload).Ok?
    ensures SummarisesItems(FinishItem(items, e.payload).value, h + [e])
  {
    var i := e.payload.outputIndex.value;
    var state := items[i].(done := true);
    assert SummarisesItem(items[i], h, i);
    assert SummarisesItem(state, h + [e], i) by { GrowItems(h, e); GrowParts(h, e); }
    UpdateItem(items, h, e, i, state);
  }

  /** Reading the target item agrees with naming an item added earlier. */
  lemma TargetStep(items: Items, h: History, p: Payload)
    requires SummarisesItems(items, h)
    ensures ItemFor(items, p).Ok? <==> Targets(h, p)
    ensures ItemFor(items, p).Ok? ==> SummarisesItem(ItemFor(items, p).value, h, p.outputIndex.value)
  {
    if Targets(h, p) {
      assert Added(h, p.outputIndex.value);
    }
  }

  lemma MorePart(state: ItemState, h: History, e: Event, i: nat, c: nat)
    requires SummarisesItem(state, h, i) && AddsPart(e, i, c) && !state.done
    ensures SummarisesItem(state.(content := state.content + {c}), h + [e], i)
  {
    GrowItems(h, e);
    GrowParts(h, e);
  }

  lemma DonePart(state: ItemState, h: History, e: Event, i: nat, c: nat)
    requires SummarisesItem(state, h, i) && EndsPart(e, i, c) && c in state.content && !state.done
    ensures SummarisesItem(state.(contentDone := state.contentDone + {c}), h + [e], i)
  {
    GrowItems(h, e);
    GrowParts(h, e);
  }

  lemma AddContentStep(items: Items, h: History, e: Event)
    requires SummarisesItems(items, h) && Is(e, ContentPartAdded) && AddContent(items, e.payload).Ok?
    ensures SummarisesItems(AddContent(items, e.payload).value, h + [e])
  {
    var i, c := e.payload.outputIndex.value, e.payload.contentIndex.value;
    MorePart(items[i], h, e, i, c);
    UpdateItem(items, h, e, i, items[i].(content := items[i].content + {c}));
  }

  /** A part of a done item cannot be done again, because all its parts already are. */
  lemma FinishContentStep(items: Items, h: History, e: Event)
    requires SummarisesItems(items, h) && Is(e, ContentPartDone) && FinishContent(items, e.payload).Ok?
    ensures !items[e.payload.outputIndex.value].done
    ensures SummarisesItems(FinishContent(items, e.payload).value, h + [e])
  {
    var i, c := e.payload.outputIndex.value, e.payload.contentIndex.value;
    assert SummarisesItem(items[i], h, i);
    DonePart(items[i], h, e, i, c);
    UpdateItem(items, h, e, i, items[i].(contentDone := items[i].contentDone + {c}));
  }

  lemma PartEventsLegal(items: Items, h: History, p: Payload)
    requires SummarisesItems(items, h)
    ensures AddContent(items, p).Ok? <==> LegalPartAdd(h, p, "message")
    ensures FinishContent(items, p).Ok? <==> NamesOpenPart(h, p)
  {
    TargetStep(items, h, p);
  }

  lemma ContentEventsLegal(items: Items, h: History, p: Payload)
    requires SummarisesItems(items, h)
    ensures RequireContent(items, p).Ok? <==> LegalContent(h, p)
  {
    TargetStep(items, h, p);
  }

  lemma KindEventsLegal(items: Items, h: History, p: Payload, kind: string)
    requires SummarisesItems(items, h)
    ensures RequireItemKind(items, p, kind).Ok? <==> OpenOfKind(h, p, kind)
  {
    TargetStep(items, h, p);
  }

  lemma CompletedStep(items: Items, h: History)
    requires SummarisesItems(items, h)
    ensures (exists i :: i in items && !items[i].done) <==> !ItemsEnded(h)
  {
    if i :| i in items && !items[i].done {
      assert SummarisesItem(items[i], h, i);
    }
    if i: nat :| Added(h, i) && !Ended(h, i) {
      assert SummarisesItem(items[i], h, i);
    }
  }

  /** Which operation on the item table an event asks for. */
  lemma NextItemsCases(items: Items, k: EventKind, p: Payload)
    ensures SpeaksOfPart(k) ==> NextItems(items, k, p) == RequireContent(items, p)
    ensures NeededKind(k).Some? ==> NextItems(items, k, p) == RequireItemKind(items, p, NeededKind(k).value)
  {
  }

  lemma ContentOrKindLegal(items: Items, h: History, k: EventKind, p: Payload)
    requires SummarisesItems(items, h) && (SpeaksOfPart(k) || NeededKind(k).Some?)
    ensures NextItems(items, k, p).Ok? <==> LegalPayload(h, k, p)
  {
    NextItemsCases(items, k, p);
    if SpeaksOfPart(k) {
      ContentEventsLegal(items, h, p);
    } else {
      KindEventsLegal(items, h, p, NeededKind(k).value);
    }
  }

  /** The item table admits exactly the legal payloads. */
  lemma NextItemsLegal(items: Items, h: History, k: EventKind, p: Payload)
    requires SummarisesItems(items, h)
    ensures NextItems(items, k, p).Ok? <==> LegalPayload(h, k, p)
  {
    if k.OutputItemAdded? {
      AddItemLegal(items, h, p);
    } else if k.OutputItemDone? {
      FinishItemLegal(items, h, p);
    } else if k.ContentPartAdded? || k.ContentPartDone? {
      PartEventsLegal(items, h, p);
    } else if SpeaksOfPart(k) || NeededKind(k).Some? {
      ContentOrKindLegal(items, h, k, p);
    } else {
      CompletedStep(items, h);
    }
  }

  lemma NextItemsSummarise(items: Items, h: History, e: Event)
    requires SummarisesItems(items, h) && e.Portable? && NextItems(items, e.kind, e.payload).Ok?
    ensures SummarisesItems(NextItems(items, e.kind, e.payload).value, h + [e])
  {
    if Is(e, OutputItemAdded) {
      NewItem(items, h, e);
    } else if Is(e, OutputItemDone) {
      FinishItemStep(items, h, e);
    } else if Is(e, ContentPartAdded) {
      AddContentStep(items, h, e);
    } else if Is(e, ContentPartDone) {
      FinishContentStep(items, h, e);
    } else {
      OtherEventsKeepItems(items, h, e);
    }
  }

  /** From a state that summarises the history, an accepted event is legal and the new state summarises the longer history. */
  lemma AcceptedIsLegal(s: Lifecycle, h: History, e: Event)
    requires Summarises(s, h) && Accept(s, e).result.Ok?
    ensures LegalNext(h, e)
    ensures Summarises(Accept(s, e).state, h + [e])
    ensures LastIsOwn(s, h) ==> LastIsOwn(Accept(s, e).state, h + [e])
  {
    GrowFlags(h, e);
    if e.Portable? && !Is(e, Created) {
      NextItemsLegal(s.items, h, e.kind, e.payload);
      NextItemsSummarise(s.items, h, e);
    } else {
      OtherEventsKeepItems(s.items, h, e);
    }
    assert e in h + [e];
  }

  /** The event's number, if it has one, exceeds the last one recorded, be it from an accepted or a rejected event. */
  predicate NumberFollows(last: Option<nat>, e: Event)
  {
    NumberOf(e).Some? && last.Some? ==> last.value < NumberOf(e).value
  }

  /** In every summarising state, also after rejections, exactly the legal events whose number follows are accepted. */
  lemma AcceptsExactly(s: Lifecycle, h: History, e: Event)
    requires Summarises(s, h)
    ensures Accept(s, e).result.Ok? <==> LegalNext(h, e) && NumberFollows(s.last, e)
  {
    if Accept(s, e).result.Ok? {
      AcceptedIsLegal(s, h, e);
    } else if e.Portable? && !Is(e, Created) {
      NextItemsLegal(s.items, h, e.kind, e.payload);
    }
  }

  /** Without rejections in between, a legal event is accepted. */
  lemma LegalIsAccepted(s: Lifecycle, h: History, e: Event)
    requires Summarises(s, h) && LastIsOwn(s, h) && LegalNext(h, e)
    ensures Accept(s, e).result.Ok?
  {
    AcceptsExactly(s, h, e);
  }

  /** A rejected event leaves everything but the recorded sequence number, which never goes back. */
  lemma RejectionKeepsState(s: Lifecycle, e: Event)
    requires Accept(s, e).result.Err?
    ensures Accept(s, e).state == s.(last := Accept(s, e).state.last)
    ensures s.last.Some? ==> Accept(s, e).state.last.Some? && s.last.value <= Accept(s, e).state.last.value
  {
  }

  // ---- Why an event is refused ----

  /** The payload lacks the index or the id of the item it speaks of. */
  predicate NamesNoTarget(p: Payload) { p.outputIndex.None? || NonEmpty(p.itemId).None? }

  /** The payload of a refused event is malformed: a field is missing, looked for before anything else is checked against the history. */
  ghost predicate Malformed(past: History, k: EventKind, p: Payload)
  {
    if k.OutputItemAdded? || k.OutputItemDone? then !NamesItem(p)
    else if k.ContentPartDone? then p.contentIndex.None? || NamesNoTarget(p)
    else if k.ContentPartAdded? || SpeaksOfPart(k) then NamesNoTarget(p) || (Targets(past, p) && p.contentIndex.None?)
    else NeededKind(k).Some? && NamesNoTarget(p)
  }

  ghost function Reason(past: History, e: Event): (error: AdapterError)
  {
    if !HasTerminal(past) && SequenceGrows(past, e) && e.Portable? && !Is(e, Created) && HasCreated(past) && Malformed(past, e.kind, e.payload)
    then InvalidJson else InvalidLifecycle
  }

  function Blame(malformed: bool): (error: AdapterError) { if malformed then InvalidJson else InvalidLifecycle }

  lemma ItemReason(items: Items, p: Payload)
    ensures AddItem(items, p).Err? ==> AddItem(items, p).error == Blame(!NamesItem(p))
    ensures FinishItem(items, p).Err? ==> FinishItem(items, p).error == Blame(!NamesItem(p))
  {
  }

  lemma PartReason(items: Items, h: History, p: Payload)
    requires SummarisesItems(items, h)
    ensures FinishContent(items, p).Err? ==> FinishContent(items, p).error == Blame(p.contentIndex.None? || NamesNoTarget(p))
    ensures AddContent(items, p).Err? ==> AddContent(items, p).error == Blame(NamesNoTarget(p) || (Targets(h, p) && p.contentIndex.None?))
    ensures RequireContent(items, p).Err? ==> RequireContent(items, p).error == Blame(NamesNoTarget(p) || (Targets(h, p) && p.contentIndex.None?))
  {
    TargetStep(items, h, p);
  }

  lemma KindReason(items: Items, p: Payload, kind: string)
    ensures RequireItemKind(items, p, kind).Err? ==> RequireItemKind(items, p, kind).error == Blame(NamesNoTarget(p))
  {
  }

  /** Events that speak of no content part: the history has no say in whether they are malformed. */
  lemma OtherReason(items: Items, h: History, k: EventKind, p: Payload)
    requires NextItems(items, k, p).Err? && !SpeaksOfPart(k) && !k.ContentPartAdded? && !k.ContentPartDone?
    ensures NextItems(items, k, p).error == Blame(Malformed(h, k, p))
  {
    ItemReason(items, p);
    if NeededKind(k).Some? {
      NextItemsCases(items, k, p);
      KindReason(items, p, NeededKind(k).value);
    }
  }

  lemma ItemsReason(items: Items, h: History, k: EventKind, p: Payload)
    requires SummarisesItems(items, h) && NextItems(items, k, p).Err?
    ensures NextItems(items, k, p).error == Blame(Malformed(h, k, p))
  {
    if SpeaksOfPart(k) {
      NextItemsCases(items, k, p);
      PartReason(items, h, p);
    } else if k.ContentPartAdded? || k.ContentPartDone? {
      PartReason(items, h, p);
    } else {
      OtherReason(items, h, k, p);
    }
  }

  /** An event that is refused without rejections before it is refused for its own reason. */
  lemma RefusedFor(s: Lifecycle, h: History, e: Event)
    requires Summarises(s, h) && LastIsOwn(s, h) && Accept(s, e).result.Err?
    ensures Accept(s, e).result == Err(Reason(h, e))
  {
    if e.Portable? && NextItems(s.items, e.kind, e.payload).Err? {
      ItemsReason(s.items, h, e.kind, e.payload);
    }
    if e.Portable? && !Is(e, Created) {
      NextItemsLegal(s.items, h, e.kind, e.payload);
    }
  }

  // ---- Whole runs ----

  /** State after offering events one by one, whether or not each is accepted. */
  function Final(s: Lifecycle, offered: History): (t: Lifecycle)
  {
    if offered == [] then s
    else Accept(Final(s, offered[..|offered| - 1]), offered[|offered| - 1]).state
  }

  /** The offered events that were accepted, in order. */
  function Accepted(s: Lifecycle, offered: History): (h: History)
    ensures |h| <= |offered|
  {
    if offered == [] then []
    else
      var earlier := Accepted(s, offered[..|offered| - 1]);
      var last := offered[|offered| - 1];
      if Accept(Final(s, offered[..|offered| - 1]), last).result.Ok? then earlier + [last] else earlier
  }

  lemma LegalExtends(h: History, e: Event)
    ensures Legal(h + [e]) <==> Legal(h) && LegalNext(h, e)
  {
    var longer := h + [e];
    assert longer[..|h|] == h && longer[|h|] == e;
    forall k | 0 <= k < |h|
      ensures LegalAt(longer, k) <==> LegalAt(h, k)
    {
      assert longer[..k] == h[..k] && longer[k] == h[k];
    }
    if Legal(longer) {
      assert forall k :: 0 <= k < |h| ==> LegalAt(longer, k);
      assert LegalAt(longer, |h|);
    }
  }

  /** Every run of a new decoder, with any rejections in it: the accepted events form a legal history and the state is its summary. */
  lemma {:induction false} RunRefinesHistory(offered: History)
    ensures Legal(Accepted(FRESH, offered))
    ensures Summarises(Final(FRESH, offered), Accepted(FRESH, offered))
    ensures Accepted(FRESH, offered) == offered ==> LastIsOwn(Final(FRESH, offered), offered)
    decreases |offered|
  {
    if offered == [] {
    } else {
      var init, e := offered[..|offered| - 1], offered[|offered| - 1];
      RunRefinesHistory(init);
      var s, h := Final(FRESH, init), Accepted(FRESH, init);
      if Accept(s, e).result.Ok? {
        AcceptedIsLegal(s, h, e);
        LegalExtends(h, e);
        assert init + [e] == offered;
        assert h + [e] == offered ==> h == (h + [e])[..|offered| - 1] == init;
      } else {
        RejectionKeepsState(s, e);
      }
    }
  }

  /** A new decoder accepts every event of a sequence exactly when the sequence is a legal history. */
  lemma {:induction false} AcceptedIffLegal(offered: History)
    ensures Accepted(FRESH, offered) == offered <==> Legal(offered)
    decreases |offered|
  {
    RunRefinesHistory(offered);
    if !Legal(offered) || offered == [] {
    } else {
      var init, e := offered[..|offered| - 1], offered[|offered| - 1];
      assert init + [e] == offered;
      LegalExtends(init, e);
      AcceptedIffLegal(init);
      RunRefinesHistory(init);
      LegalIsAccepted(Final(FRESH, init), init, e);
    }
  }

  // ---- From bytes to histories ----

  lemma FrameIsLegal(json: Json, s: Lifecycle, h: History, frame: SseFields.Frame)
    requires Summarises(s, h) && Legal(h)
    ensures var r := HandleFrame(json, s, frame);
            r.result.Ok? ==> Legal(h + r.result.value) && Summarises(r.state, h + r.result.value)
  {
    var r := HandleFrame(json, s, frame);
    assert h + [] == h;
    if r.result.Ok? && r.result.value != [] {
      var e := r.result.value[0];
      AcceptedIsLegal(s, h, e);
      LegalExtends(h, e);
    }
  }

  lemma {:induction false} FoldIsLegal(json: Json, s: Lifecycle, h: History, frames: seq<SseFields.Frame>)
    requires Summarises(s, h) && Legal(h)
    ensures var r := StreamPush.Fold(Handling(json), s, frames);
            r.result.Ok? ==> Legal(h + r.result.value) && Summarises(r.state, h + r.result.value)
    decreases |frames|
  {
    if frames == [] {
      assert h + [] == h;
    } else {
      var first := HandleFrame(json, s, frames[0]);
      assert Handling(json)(s, frames[0]) == first;
      FrameIsLegal(json, s, h, frames[0]);
      if first.result.Ok? {
        FoldIsLegal(json, first.state, h + first.result.value, frames[1..]);
        var rest := StreamPush.Fold(Handling(json), first.state, frames[1..]);
        if rest.result.Ok? {
          Sequences.Associate(h, first.result.value, rest.result.value);
        }
      }
    }
  }

  lemma PushIsLegal(cut: Framing.Cutter, parse: Framing.Parser<SseFields.Frame>, json: Json, bytes: seq<byte>)
    ensures var r := StreamPush.Push(cut, parse, Handling(json), StreamPush.Decoder([], FRESH), bytes);
            r.result.Ok? ==> Legal(r.result.value) && Summarises(r.state.state, r.result.value)
  {
    var r := StreamPush.Push(cut, parse, Handling(json), StreamPush.Decoder([], FRESH), bytes);
    if r.result.Ok? {
      FoldIsLegal(json, FRESH, [], Framing.Drain(cut, parse, [] + bytes).frames);
      assert [] + r.result.value == r.result.value;
    }
  }

  /** However its bytes arrive, a stream decoded without error emits a legal history and ends in its summary. */
  lemma DecodedStreamIsLegal(utf8: Sse.Decoding, json: Json, chunks: seq<seq<byte>>)
    ensures var r := StreamPush.Pushes(Sse.Cut, Sse.FrameParser(utf8), Handling(json), StreamPush.Decoder([], FRESH), chunks);
            r.result.Ok? ==> Legal(r.result.value) && Summarises(r.state.state, r.result.value)
  {
    ResponsesChunkInvariance(utf8, json, chunks);
    PushIsLegal(Sse.Cut, Sse.FrameParser(utf8), json, Concat(chunks));
  }

  // ---- What legality means for positions in a history ----

  lemma Earlier(h: History, j: nat, k: nat)
    requires j < k <= |h|
    ensures h[j] in h[..k]
  {
    assert h[..k][j] == h[j];
  }

  lemma PositionOf(h: History, k: nat, e: Event) returns (j: nat)
    requires k <= |h| && e in h[..k]
    ensures j < k && h[j] == e
  {
    j :| 0 <= j < k && h[..k][j] == e;
  }

  lemma FindItem(h: History, k: nat, i: nat) returns (j: nat)
    requires k <= |h| && Added(h[..k], i)
    ensures j < k && Adds(h[j], i)
  {
    var e :| e in h[..k] && Adds(e, i);
    j := PositionOf(h, k, e);
  }

  lemma FindPart(h: History, k: nat, i: nat, c: nat) returns (j: nat)
    requires k <= |h| && PartAdded(h[..k], i, c)
    ensures j < k && AddsPart(h[j], i, c)
  {
    var e :| e in h[..k] && AddsPart(e, i, c);
    j := PositionOf(h, k, e);
  }

  lemma FindPartEnd(h: History, k: nat, i: nat, c: nat) returns (j: nat)
    requires k <= |h| && PartEnded(h[..k], i, c)
    ensures j < k && EndsPart(h[j], i, c)
  {
    var e :| e in h[..k] && EndsPart(e, i, c);
    j := PositionOf(h, k, e);
  }

  /** What legality says at the position of an item or part event. */
  lemma AtItemAdd(h: History, a: nat, i: nat)
    requires Legal(h) && a < |h| && Adds(h[a], i)
    ensures !Added(h[..a], i) && GivenId(h[a].payload).Some? && !IdUsed(h[..a], GivenId(h[a].payload).value)
  {
    assert LegalAt(h, a);
  }

  lemma AtItemEnd(h: History, f: nat, i: nat)
    requires Legal(h) && f < |h| && Ends(h[f], i)
    ensures !Ended(h[..f], i) && NamesItem(h[f].payload)
    ensures AddedAs(h[..f], i, GivenId(h[f].payload).value) && AddedWithKind(h[..f], i, GivenKind(h[f].payload).value)
    ensures forall c :: PartAdded(h[..f], i, c) ==> PartEnded(h[..f], i, c)
  {
    assert LegalAt(h, f);
  }

  lemma AtPartAdd(h: History, a: nat, i: nat, c: nat)
    requires Legal(h) && a < |h| && AddsPart(h[a], i, c)
    ensures Added(h[..a], i) && !Ended(h[..a], i) && !PartAdded(h[..a], i, c)
  {
    assert LegalAt(h, a);
  }

  lemma AtPartEnd(h: History, d: nat, i: nat, c: nat)
    requires Legal(h) && d < |h| && EndsPart(h[d], i, c)
    ensures PartAdded(h[..d], i, c) && !PartEnded(h[..d], i, c)
  {
    assert LegalAt(h, d);
  }

  lemma AtContent(h: History, k: nat, i: nat, c: nat)
    requires Legal(h) && k < |h| && Touches(h[k], i, c)
    ensures NonEmpty(h[k].payload.itemId).Some? && AddedAs(h[..k], i, NonEmpty(h[k].payload.itemId).value)
    ensures !Ended(h[..k], i) && PartAdded(h[..k], i, c) && !PartEnded(h[..k], i, c)
  {
    assert LegalAt(h, k);
  }

  /** `response.created` opens the history and occurs once. */
  lemma CreatedFirst(h: History, k: nat)
    requires Legal(h) && k < |h|
    ensures Is(h[k], Created) <==> k == 0
  {
    assert LegalAt(h, k);
    assert LegalAt(h, 0);
    if k > 0 {
      Earlier(h, 0, k);
    }
  }

  /** Nothing follows a terminal event. */
  lemma TerminalIsLast(h: History, k: nat, j: nat)
    requires Legal(h) && k < |h| && IsTerminal(h[k]) && j < |h|
    ensures j <= k
  {
    assert LegalAt(h, j);
    if k < j {
      Earlier(h, k, j);
      assert false;
    }
  }

  /** At most one add per item and one per content part. */
  lemma AddedOnce(h: History, a: nat, b: nat, i: nat, c: nat)
    requires Legal(h) && a < |h| && b < |h|
    ensures Adds(h[a], i) && Adds(h[b], i) ==> a == b
    ensures AddsPart(h[a], i, c) && AddsPart(h[b], i, c) ==> a == b
  {
    var lo, hi := if a < b then a else b, if a < b then b else a;
    if Adds(h[hi], i) { AtItemAdd(h, hi, i); }
    if AddsPart(h[hi], i, c) { AtPartAdd(h, hi, i, c); }
    if lo < hi { Earlier(h, lo, hi); }
  }

  /** At most one done per item and one per content part. */
  lemma EndedOnce(h: History, a: nat, b: nat, i: nat, c: nat)
    requires Legal(h) && a < |h| && b < |h|
    ensures Ends(h[a], i) && Ends(h[b], i) ==> a == b
    ensures EndsPart(h[a], i, c) && EndsPart(h[b], i, c) ==> a == b
  {
    var lo, hi := if a < b then a else b, if a < b then b else a;
    if Ends(h[hi], i) { AtItemEnd(h, hi, i); }
    if EndsPart(h[hi], i, c) { AtPartEnd(h, hi, i, c); }
    if lo < hi { Earlier(h, lo, hi); }
  }

  /** Two items never share an id. */
  lemma IdsDistinct(h: History, a: nat, b: nat, i: nat, j: nat)
    requires Legal(h) && a < |h| && b < |h|
    requires Adds(h[a], i) && Adds(h[b], j) && i != j
    ensures GivenId(h[a].payload) != GivenId(h[b].payload)
  {
    if a < b {
      AtItemAdd(h, b, j);
      Earlier(h, a, b);
    } else {
      AtItemAdd(h, a, i);
      Earlier(h, b, a);
    }
  }

  /** A content event lies strictly inside its part: after its one add, before any done, in an open item of the same id. */
  lemma ContentInsidePart(h: History, k: nat, i: nat, c: nat) returns (item: nat, part: nat)
    requires Legal(h) && k < |h| && Touches(h[k], i, c)
    ensures item < part < k
    ensures Adds(h[item], i) && GivenId(h[item].payload) == NonEmpty(h[k].payload.itemId)
    ensures AddsPart(h[part], i, c)
    ensures forall b :: 0 <= b < |h| && AddsPart(h[b], i, c) ==> b == part
    ensures forall d :: 0 <= d < |h| && EndsPart(h[d], i, c) ==> k < d
    ensures forall f :: 0 <= f < |h| && Ends(h[f], i) ==> k < f
  {
    AtContent(h, k, i, c);
    var x :| x in h[..k] && Adds(x, i) && GivenId(x.payload) == NonEmpty(h[k].payload.itemId);
    item := PositionOf(h, k, x);
    part := FindPart(h, k, i, c);
    PartInsideItem(h, item, part, i, c);
    forall b | 0 <= b < |h|
      ensures AddsPart(h[b], i, c) ==> b == part
      ensures EndsPart(h[b], i, c) || Ends(h[b], i) ==> k < b
    {
      AddedOnce(h, b, part, i, c);
      if b < k { Earlier(h, b, k); }
    }
  }

  /** A part is added only after its item. */
  lemma PartInsideItem(h: History, item: nat, part: nat, i: nat, c: nat)
    requires Legal(h) && item < |h| && part < |h|
    requires Adds(h[item], i) && AddsPart(h[part], i, c)
    ensures item < part
  {
    AtPartAdd(h, part, i, c);
    var a := FindItem(h, part, i);
    AddedOnce(h, a, item, i, c);
  }

  lemma PartAddPrecedesItemDone(h: History, a: nat, f: nat, i: nat, c: nat)
    requires Legal(h) && a < |h| && f < |h| && Ends(h[f], i) && AddsPart(h[a], i, c)
    ensures a < f
  {
    AtPartAdd(h, a, i, c);
    if f < a { Earlier(h, f, a); }
  }

  /** A part's done precedes its item's done, although part completion does not test the item: the item's done required it. */
  lemma PartDonePrecedesItemDone(h: History, d: nat, f: nat, i: nat, c: nat)
    requires Legal(h) && d < |h| && f < |h| && Ends(h[f], i) && EndsPart(h[d], i, c)
    ensures d < f
  {
    AtPartEnd(h, d, i, c);
    var a := FindPart(h, d, i, c);
    PartAddPrecedesItemDone(h, a, f, i, c);
    Earlier(h, a, f);
    AtItemEnd(h, f, i);
    assert PartAdded(h[..f], i, c);
    var b := FindPartEnd(h, f, i, c);
    EndedOnce(h, b, d, i, c);
  }

  /** When the response completes, every added item has exactly one done of the same id and kind. */
  lemma BalancedItems(h: History, k: nat, a: nat, i: nat) returns (f: nat)
    requires Legal(h) && k < |h| && Is(h[k], Completed)
    requires a < |h| && Adds(h[a], i)
    ensures a < f < k && Ends(h[f], i)
    ensures GivenId(h[f].payload) == GivenId(h[a].payload) && GivenKind(h[f].payload) == GivenKind(h[a].payload)
    ensures forall g :: 0 <= g < |h| && Ends(h[g], i) ==> g == f
  {
    TerminalIsLast(h, k, a);
    assert LegalAt(h, k);
    Earlier(h, a, k);
    assert Added(h[..k], i);
    var x :| x in h[..k] && Ends(x, i);
    f := PositionOf(h, k, x);
    ItemDoneMatches(h, a, f, i);
    forall g | 0 <= g < |h| && Ends(h[g], i)
      ensures g == f
    {
      EndedOnce(h, g, f, i, 0);
    }
  }

  lemma ItemDoneMatches(h: History, a: nat, f: nat, i: nat)
    requires Legal(h) && a < |h| && f < |h| && Adds(h[a], i) && Ends(h[f], i)
    ensures a < f && GivenId(h[f].payload) == GivenId(h[a].payload) && GivenKind(h[f].payload) == GivenKind(h[a].payload)
  {
    AtItemEnd(h, f, i);
    var p := h[f].payload;
    var x :| x in h[..f] && Adds(x, i) && GivenId(x.payload) == Some(GivenId(p).value);
    var y :| y in h[..f] && Adds(y, i) && GivenKind(y.payload) == Some(GivenKind(p).value);
    var j := PositionOf(h, f, x);
    var l := PositionOf(h, f, y);
    AddedOnce(h, a, j, i, 0);
    AddedOnce(h, a, l, i, 0);
  }

  /** When the response completes, every added part has exactly one done, inside its item. */
  lemma BalancedParts(h: History, k: nat, a: nat, i: nat, c: nat) returns (d: nat)
    requires Legal(h) && k < |h| && Is(h[k], Completed)
    requires a < |h| && AddsPart(h[a], i, c)
    ensures a < d < k && EndsPart(h[d], i, c)
    ensures forall g :: 0 <= g < |h| && EndsPart(h[g], i, c) ==> g == d
    ensures forall f :: 0 <= f < |h| && Ends(h[f], i) ==> d < f
  {
    AtPartAdd(h, a, i, c);
    var item := FindItem(h, a, i);
    var f := BalancedItems(h, k, item, i);
    PartAddPrecedesItemDone(h, a, f, i, c);
    Earlier(h, a, f);
    AtItemEnd(h, f, i);
    assert PartAdded(h[..f], i, c);
    d := FindPartEnd(h, f, i, c);
    AtPartEnd(h, d, i, c);
    var b := FindPart(h, d, i, c);
    AddedOnce(h, a, b, i, c);
    forall g | 0 <= g < |h| && EndsPart(h[g], i, c)
      ensures g == d
    {
      EndedOnce(h, g, d, i, c);
    }
  }
}
