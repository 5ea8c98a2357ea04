/**
 Sequential, correlated browser transport with a bounded queue of unsolicited events.
 Source: adapters/browser-cdp/src/transport.rs. The WebSocket is the sequence of messages that will arrive;
 a deadline is the number of messages an operation may still receive.
 */
module CdpTransport {
  import opened Common
  import opened Sequences

  type Json = string

  datatype ProtocolError = FrameBoundExceeded | InvalidJsonFrame | InvalidMessage

  datatype Event = Event(name: string, params: Json, session: Option<string>)

  datatype Incoming =
    | Reply(id: nat, result: Json, session: Option<string>)
    | Failure(id: nat, error: Json, session: Option<string>)
    | Unsolicited(event: Event)

  /** One WebSocket message: parsed text, a ping whose answer was or was not sent, or an ending. */
  datatype Arrival = Text(parsed: Result<Incoming, ProtocolError>) | Ping(answered: bool) | Pong | Close | Binary | Broken

  datatype Error =
    | ConnectionLost | Timeout | Protocol(protocol: ProtocolError) | EncodeFailed | Remote(error: Json) | CorrelationMismatch
    | CorrelationExhausted | EventQueueExceeded | UnsupportedFrame

  const MAX_JS_UINT: nat := 9_007_199_254_740_991

  /** Queue order matters per event name and session. */
  datatype Key = Key(name: string, session: Option<string>)

  function KeyOf(e: Event): (k: Key) { Key(e.name, e.session) }

  /** The events of one key, in order. */
  function Of(events: seq<Event>, k: Key): (r: seq<Event>)
    ensures forall j :: 0 <= j < |r| ==> KeyOf(r[j]) == k
  {
    if events == [] then []
    else Of(events[..|events| - 1], k) + if KeyOf(events[|events| - 1]) == k then [events[|events| - 1]] else []
  }

  // ---- Specification ----

  datatype World = World(inbox: seq<Arrival>, nextId: nat, queue: seq<Event>)

  /** What one operation did: the world after it, its result, the events it received and kept or dropped, and those it handed out or discarded. */
  datatype Effect = Effect(world: World, result: Result<Option<Json>, Error>, kept: seq<Event>, dropped: seq<Event>, consumed: seq<Event>)

  function Done(w: World, result: Result<Option<Json>, Error>): (f: Effect)
  {
    Effect(w, result, [], [], [])
  }

  /** Accounts for an event queued before the rest of an operation. */
  function Queued(e: Event, rest: Effect): (f: Effect)
  {
    rest.(kept := [e] + rest.kept)
  }

  /** Messages both receive loops treat alike; None means go on, with the message skipped. */
  function Interruption(a: Arrival): (r: Option<Error>)
    requires !(a.Text? && a.parsed.Ok?)
  {
    match a
    case Text(parsed) => Some(Protocol(parsed.error))
    case Ping(answered) => if answered then None else Some(ConnectionLost)
    case Pong => None
    case Close => Some(ConnectionLost)
    case Binary => Some(UnsupportedFrame)
    case Broken => Some(ConnectionLost)
  }

  /** Receives until the reply with this id and session, queueing events meanwhile. */
  function CallLoop(limit: nat, id: nat, session: Option<string>, patience: nat, w: World): (f: Effect)
    decreases |w.inbox|
  {
    if patience == 0 then Done(w, Err(Timeout))
    else if w.inbox == [] then Done(w, Err(ConnectionLost))
    else
      var a, next := w.inbox[0], w.(inbox := w.inbox[1..]);
      if !(a.Text? && a.parsed.Ok?) then
        var stop := Interruption(a);
        if stop.Some? then Done(next, Err(stop.value)) else CallLoop(limit, id, session, patience - 1, next)
      else
        match a.parsed.value
        case Reply(rid, result, rsession) =>
          if rid == id && rsession == session then Done(next, Ok(Some(result))) else Done(next, Err(CorrelationMismatch))
        case Failure(rid, error, rsession) =>
          if rid == id && rsession == session then Done(next, Err(Remote(error))) else Done(next, Err(CorrelationMismatch))
        case Unsolicited(e) =>
          if |w.queue| >= limit then Effect(next, Err(EventQueueExceeded), [], [e], [])
          else Queued(e, CallLoop(limit, id, session, patience - 1, next.(queue := w.queue + [e])))
  }

  /** Receives until an event of this key that satisfies the predicate, queueing other events meanwhile. */
  function WaitLoop(limit: nat, k: Key, matching: Json -> bool, patience: nat, w: World): (f: Effect)
    decreases |w.inbox|
  {
    if patience == 0 then Done(w, Err(Timeout))
    else if w.inbox == [] then Done(w, Err(ConnectionLost))
    else
      var a, next := w.inbox[0], w.(inbox := w.inbox[1..]);
      if !(a.Text? && a.parsed.Ok?) then
        var stop := Interruption(a);
        if stop.Some? then Done(next, Err(stop.value)) else WaitLoop(limit, k, matching, patience - 1, next)
      else if !a.parsed.value.Unsolicited? then Done(next, Err(CorrelationMismatch))
      else
        var e := a.parsed.value.event;
        if KeyOf(e) == k && matching(e.params) then Effect(next, Ok(Some(e.params)), [e], [], [e])
        else if |w.queue| >= limit then Effect(next, Err(EventQueueExceeded), [], [e], [])
        else Queued(e, WaitLoop(limit, k, matching, patience - 1, next.(queue := w.queue + [e])))
  }

  /** Index of the first queued event of this key that satisfies the predicate. */
  function Find(queue: seq<Event>, k: Key, matching: Json -> bool, from: nat): (i: nat)
    requires from <= |queue|
    ensures from <= i <= |queue|
    ensures i < |queue| ==> KeyOf(queue[i]) == k && matching(queue[i].params)
    ensures forall j :: from <= j < i ==> !(KeyOf(queue[j]) == k && matching(queue[j].params))
    decreases |queue| - from
  {
    if from == |queue| || (KeyOf(queue[from]) == k && matching(queue[from].params)) then from
    else Find(queue, k, matching, from + 1)
  }

  function RemoveAt(queue: seq<Event>, i: nat): (r: seq<Event>)
    requires i < |queue|
  {
    queue[..i] + queue[i + 1..]
  }

  function Without(queue: seq<Event>, k: Key): (r: seq<Event>)
    ensures forall j :: 0 <= j < |r| ==> KeyOf(r[j]) != k
  {
    if queue == [] then []
    else Without(queue[..|queue| - 1], k) + if KeyOf(queue[|queue| - 1]) == k then [] else [queue[|queue| - 1]]
  }

  /** The operations. A call's `fault` is what stops it after its id is granted and before it waits, if anything does. */
  datatype Op =
    | Call(session: Option<string>, fault: Option<Error>, patience: nat)
    | PopEvent
    | TakeEvent(key: Key)
    | DiscardEvents(key: Key)
    | WaitForEvent(key: Key, patience: nat)
    | WaitForEventMatching(key: Key, matching: Json -> bool, patience: nat)

  predicate Exhausted(nextId: nat) { nextId == 0 || nextId > MAX_JS_UINT }

  function TakeAt(w: World, i: nat): (f: Effect)
    requires i < |w.queue|
  {
    Effect(w.(queue := RemoveAt(w.queue, i)), Ok(Some(w.queue[i].params)), [], [], [w.queue[i]])
  }

  function Any(params: Json): (b: bool) { true }

  function WaitFor(limit: nat, k: Key, matching: Json -> bool, patience: nat, w: World): (f: Effect)
  {
    if k.name == "" || k.session == Some("") then Done(w, Err(Protocol(InvalidMessage)))
    else
      var i := Find(w.queue, k, matching, 0);
      if i < |w.queue| then TakeAt(w, i) else WaitLoop(limit, k, matching, patience, w)
  }

  function Do(limit: nat, w: World, op: Op): (f: Effect)
  {
    match op
    case Call(session, fault, patience) =>
      if Exhausted(w.nextId) then Done(w, Err(CorrelationExhausted))
      else
        var next := w.(nextId := if w.nextId == U64_MAX then U64_MAX else w.nextId + 1);
        if fault.Some? then Done(next, Err(fault.value)) else CallLoop(limit, w.nextId, session, patience, next)
    case PopEvent => if w.queue == [] then Done(w, Ok(None)) else TakeAt(w, 0)
    case TakeEvent(k) =>
      var i := Find(w.queue, k, Any, 0);
      if i < |w.queue| then TakeAt(w, i) else Done(w, Ok(None))
    case DiscardEvents(k) => Effect(w.(queue := Without(w.queue, k)), Ok(None), [], [], Of(w.queue, k))
    case WaitForEvent(k, patience) => WaitFor(limit, k, Any, patience, w)
    case WaitForEventMatching(k, matching, patience) => WaitFor(limit, k, matching, patience, w)
  }

  // ---- Each operation conserves events ----

  lemma {:induction false} OfConcat(a: seq<Event>, b: seq<Event>, k: Key)
    ensures Of(a + b, k) == Of(a, k) + Of(b, k)
    decreases |b|
  {
    if b == [] {
      assert a + b == a;
    } else {
      assert (a + b)[..|a + b| - 1] == a + b[..|b| - 1];
      OfConcat(a, b[..|b| - 1], k);
    }
  }

  lemma OfOne(e: Event, k: Key)
    ensures Of([e], k) == if KeyOf(e) == k then [e] else []
  {
    assert [e][..0] == [];
  }

  lemma {:induction false} OfNone(events: seq<Event>, k: Key)
    requires forall j :: 0 <= j < |events| ==> KeyOf(events[j]) != k
    ensures Of(events, k) == []
    decreases |events|
  {
    if events == [] {
    } else {
      OfNone(events[..|events| - 1], k);
    }
  }

  /** What an operation handed out, then what is queued, is what was queued, then what it kept, for one key. */
  ghost predicate Balanced(before: World, f: Effect, k: Key)
  {
    Of(f.consumed, k) + Of(f.world.queue, k) == Of(before.queue, k) + Of(f.kept, k)
  }

  lemma {:induction false} CallBalanced(limit: nat, id: nat, session: Option<string>, patience: nat, w: World)
    ensures var f := CallLoop(limit, id, session, patience, w); f.consumed == [] && f.world.queue == w.queue + f.kept
    decreases |w.inbox|
  {
    if patience == 0 || w.inbox == [] {
    } else {
      var a, next := w.inbox[0], w.(inbox := w.inbox[1..]);
      if a.Text? && a.parsed.Ok? && a.parsed.value.Unsolicited? {
        var e := a.parsed.value.event;
        CallBalanced(limit, id, session, patience - 1, next.(queue := w.queue + [e]));
        var rest := CallLoop(limit, id, session, patience - 1, next.(queue := w.queue + [e]));
        Prepended(w.queue, e, rest.kept, []);
      } else {
        CallBalanced(limit, id, session, patience - 1, next);
      }
    }
  }

  /** A wait queues what it skips and hands out at most the event it ends on. */
  lemma {:induction false} WaitShape(limit: nat, k: Key, matching: Json -> bool, patience: nat, w: World) returns (skipped: seq<Event>)
    ensures var f := WaitLoop(limit, k, matching, patience, w);
            && |f.consumed| <= 1 && (f.consumed != [] ==> KeyOf(f.consumed[0]) == k && matching(f.consumed[0].params))
            && f.world.queue == w.queue + skipped && f.kept == skipped + f.consumed
            && forall e :: e in skipped ==> !(KeyOf(e) == k && matching(e.params))
    decreases |w.inbox|
  {
    skipped := [];
    if patience == 0 || w.inbox == [] {
    } else {
      var a, next := w.inbox[0], w.(inbox := w.inbox[1..]);
      if EventsOf(a) != [] {
        var e := a.parsed.value.event;
        if !(KeyOf(e) == k && matching(e.params)) && |w.queue| < limit {
          var later := WaitShape(limit, k, matching, patience - 1, next.(queue := w.queue + [e]));
          skipped := [e] + later;
          Prepended(w.queue, e, later, WaitLoop(limit, k, matching, patience - 1, next.(queue := w.queue + [e])).consumed);
        }
      } else if !(a.Text? && a.parsed.Ok?) && Interruption(a).None? {
        skipped := WaitShape(limit, k, matching, patience - 1, next);
      }
    }
  }

  lemma Prepended(queue: seq<Event>, e: Event, later: seq<Event>, consumed: seq<Event>)
    ensures queue + [e] + later == queue + ([e] + later)
    ensures [e] + (later + consumed) == [e] + later + consumed
  {
  }

  lemma SplitAt(q: seq<Event>, i: nat, k: Key)
    requires i < |q|
    ensures Of(q, k) == Of(q[..i], k) + (Of([q[i]], k) + Of(q[i + 1..], k))
    ensures Of(RemoveAt(q, i), k) == Of(q[..i], k) + Of(q[i + 1..], k)
  {
    assert q == q[..i] + ([q[i]] + q[i + 1..]);
    OfConcat(q[..i], [q[i]] + q[i + 1..], k);
    OfConcat([q[i]], q[i + 1..], k);
    OfConcat(q[..i], q[i + 1..], k);
  }

  lemma Swap(one: seq<Event>, front: seq<Event>, rest: seq<Event>)
    requires one == [] || front == []
    ensures one + (front + rest) == front + (one + rest)
  {
  }

  lemma TakenFirst(q: seq<Event>, i: nat, k: Key)
    requires i < |q| && (KeyOf(q[i]) == k ==> forall j :: 0 <= j < i ==> KeyOf(q[j]) != k)
    ensures Of([q[i]], k) + Of(RemoveAt(q, i), k) == Of(q, k)
  {
    SplitAt(q, i, k);
    OfOne(q[i], k);
    if KeyOf(q[i]) == k {
      OfNone(q[..i], k);
    }
    Swap(Of([q[i]], k), Of(q[..i], k), Of(q[i + 1..], k));
  }

  lemma EmptyKept(w: World, f: Effect, k: Key)
    requires f.kept == [] && Of(f.consumed, k) + Of(f.world.queue, k) == Of(w.queue, k)
    ensures Balanced(w, f, k)
  {
    assert Of(w.queue, k) + [] == Of(w.queue, k);
  }

  /** Taking out an event keeps every other key in order, and its own key when it was the first of it. */
  lemma TakeBalanced(w: World, i: nat, k: Key)
    requires i < |w.queue|
    requires KeyOf(w.queue[i]) == k ==> forall j :: 0 <= j < i ==> KeyOf(w.queue[j]) != k
    ensures Balanced(w, TakeAt(w, i), k)
  {
    TakenFirst(w.queue, i, k);
    EmptyKept(w, TakeAt(w, i), k);
  }

  lemma {:induction false} OfAll(events: seq<Event>, k: Key)
    requires forall j :: 0 <= j < |events| ==> KeyOf(events[j]) == k
    ensures Of(events, k) == events
    decreases |events|
  {
    if events == [] {
    } else {
      OfAll(events[..|events| - 1], k);
    }
  }

  lemma {:induction false} WithoutKeepsOthers(queue: seq<Event>, gone: Key, k: Key)
    requires gone != k
    ensures Of(Without(queue, gone), k) == Of(queue, k)
    decreases |queue|
  {
    if queue == [] {
    } else {
      var init, last := queue[..|queue| - 1], queue[|queue| - 1];
      WithoutKeepsOthers(init, gone, k);
      if KeyOf(last) == gone {
        assert Without(queue, gone) == Without(init, gone);
      } else {
        OfConcat(Without(init, gone), [last], k);
        OfOne(last, k);
      }
    }
  }

  lemma DiscardBalanced(w: World, gone: Key, k: Key)
    ensures Of(Of(w.queue, gone), k) + Of(Without(w.queue, gone), k) == Of(w.queue, k)
  {
    if gone == k {
      OfAll(Of(w.queue, k), k);
      OfNone(Without(w.queue, k), k);
    } else {
      OfNone(Of(w.queue, gone), k);
      WithoutKeepsOthers(w.queue, gone, k);
    }
  }

  lemma SkippedBalanced(queue: seq<Event>, skipped: seq<Event>, consumed: seq<Event>, k: Key)
    requires Of(consumed, k) == [] || (Of(queue, k) == [] && Of(skipped, k) == [])
    ensures Of(consumed, k) + Of(queue + skipped, k) == Of(queue, k) + Of(skipped + consumed, k)
  {
    OfConcat(queue, skipped, k);
    OfConcat(skipped, consumed, k);
    Swap(Of(consumed, k), Of(queue, k) + Of(skipped, k), []);
    Regroup([], Of(queue, k) + Of(skipped, k), Of(consumed, k), Of(queue, k), Of(skipped, k) + Of(consumed, k));
  }

  /** A wait balances every key except the awaited one when an unwanted event of that key was skipped. */
  lemma WaitBalanced(limit: nat, k: Key, matching: Json -> bool, patience: nat, w: World, other: Key)
    requires other != k || (matching == Any && Of(w.queue, k) == [])
    ensures Balanced(w, WaitLoop(limit, k, matching, patience, w), other)
  {
    var f := WaitLoop(limit, k, matching, patience, w);
    var skipped := WaitShape(limit, k, matching, patience, w);
    if other != k {
      OfNone(f.consumed, other);
    } else {
      OfNone(skipped, k);
    }
    SkippedBalanced(w.queue, skipped, f.consumed, other);
  }

  lemma DoneBalanced(w: World, f: Effect, k: Key)
    requires f.world.queue == w.queue && f.kept == [] && f.consumed == []
    ensures Balanced(w, f, k)
  {
  }

  lemma KeptBalanced(w: World, f: Effect, k: Key)
    requires f.world.queue == w.queue + f.kept && f.consumed == []
    ensures Balanced(w, f, k)
  {
    OfConcat(w.queue, f.kept, k);
  }

  lemma WaitForBalanced(limit: nat, k: Key, matching: Json -> bool, patience: nat, w: World, other: Key)
    requires other != k || matching == Any
    ensures Balanced(w, WaitFor(limit, k, matching, patience, w), other)
  {
    var i := Find(w.queue, k, matching, 0);
    if k.name == "" || k.session == Some("") {
      DoneBalanced(w, WaitFor(limit, k, matching, patience, w), other);
    } else if i < |w.queue| {
      TakeBalanced(w, i, other);
    } else {
      if other == k {
        OfNone(w.queue, k);
      }
      WaitBalanced(limit, k, matching, patience, w, other);
    }
  }

  /** Every operation, matching waits included, conserves the events as a bag. */
  lemma OperationConserves(limit: nat, w: World, op: Op)
    ensures var f := Do(limit, w, op);
            multiset(f.consumed) + multiset(f.world.queue) == multiset(w.queue) + multiset(f.kept)
  {
    match op
    case Call(session, fault, patience) =>
      if !Exhausted(w.nextId) && fault.None? {
        CallBalanced(limit, w.nextId, session, patience, w.(nextId := if w.nextId == U64_MAX then U64_MAX else w.nextId + 1));
      }
    case PopEvent => if w.queue != [] { TakeConserves(w, 0); }
    case TakeEvent(key) =>
      var i := Find(w.queue, key, Any, 0);
      if i < |w.queue| { TakeConserves(w, i); }
    case DiscardEvents(key) => DiscardConserves(w.queue, key);
    case WaitForEvent(key, patience) => WaitConserves(limit, key, Any, patience, w);
    case WaitForEventMatching(key, matching, patience) => WaitConserves(limit, key, matching, patience, w);
  }

  lemma TakeConserves(w: World, i: nat)
    requires i < |w.queue|
    ensures multiset([w.queue[i]]) + multiset(RemoveAt(w.queue, i)) == multiset(w.queue)
  {
    assert w.queue == w.queue[..i] + [w.queue[i]] + w.queue[i + 1..];
  }

  lemma {:induction false} DiscardConserves(queue: seq<Event>, k: Key)
    ensures multiset(Of(queue, k)) + multiset(Without(queue, k)) == multiset(queue)
    decreases |queue|
  {
    if queue == [] {
    } else {
      DiscardConserves(queue[..|queue| - 1], k);
      assert queue == queue[..|queue| - 1] + [queue[|queue| - 1]];
    }
  }

  lemma WaitConserves(limit: nat, k: Key, matching: Json -> bool, patience: nat, w: World)
    ensures var f := WaitFor(limit, k, matching, patience, w);
            multiset(f.consumed) + multiset(f.world.queue) == multiset(w.queue) + multiset(f.kept)
  {
    var i := Find(w.queue, k, matching, 0);
    if i < |w.queue| {
      TakeConserves(w, i);
    } else {
      var skipped := WaitShape(limit, k, matching, patience, w);
    }
  }

  // ---- Bounds, correlation and what was received ----

  /** Unsolicited events among received messages, in arrival order. */
  function EventsIn(arrivals: seq<Arrival>): (events: seq<Event>) { Collect(EventsOf, arrivals) }

  function EventsOf(a: Arrival): (events: seq<Event>)
  {
    if a.Text? && a.parsed.Ok? && a.parsed.value.Unsolicited? then [a.parsed.value.event] else []
  }

  /** The messages an operation received. */
  function Received(before: seq<Arrival>, after: seq<Arrival>): (r: seq<Arrival>)
    requires |after| <= |before|
  {
    before[..|before| - |after|]
  }

  /** An operation receives a prefix of the inbox, keeps or drops exactly the events in it, and drops only when it reports overflow. */
  ghost predicate Accounted(limit: nat, w: World, f: Effect)
  {
    && |f.world.inbox| <= |w.inbox|
    && w.inbox == Received(w.inbox, f.world.inbox) + f.world.inbox
    && EventsIn(Received(w.inbox, f.world.inbox)) == f.kept + f.dropped
    && (f.dropped != [] <==> f.result == Err(EventQueueExceeded))
    && (|w.queue| <= limit ==> |f.world.queue| <= limit)
  }

  lemma AccountedNothing(limit: nat, w: World, f: Effect)
    requires f.world.inbox == w.inbox && f.kept == [] && f.dropped == [] && f.result != Err(EventQueueExceeded)
    requires |f.world.queue| <= |w.queue|
    ensures Accounted(limit, w, f)
  {
    assert w.inbox[..0] == [] && w.inbox == [] + w.inbox;
  }

  /** Receiving one message before the rest of an operation. */
  lemma AccountedStep(limit: nat, w: World, mid: World, rest: Effect, f: Effect)
    requires w.inbox != [] && mid.inbox == w.inbox[1..] && Accounted(limit, mid, rest)
    requires f.world == rest.world && f.result == rest.result && f.dropped == rest.dropped
    requires f.kept == EventsOf(w.inbox[0]) + rest.kept
    requires |w.queue| <= limit ==> |mid.queue| <= limit
    ensures Accounted(limit, w, f)
  {
    ReceivedStep(w.inbox, f.world.inbox);
    assert EventsOf(w.inbox[0]) + (rest.kept + rest.dropped) == f.kept + f.dropped;
  }

  lemma ReceivedStep(inbox: seq<Arrival>, after: seq<Arrival>)
    requires |after| < |inbox| && inbox[1..] == Received(inbox[1..], after) + after
    ensures inbox == Received(inbox, after) + after
    ensures EventsIn(Received(inbox, after)) == EventsOf(inbox[0]) + EventsIn(Received(inbox[1..], after))
  {
    var a, got := inbox[0], Received(inbox[1..], after);
    assert inbox == [a] + (got + after);
    assert Received(inbox, after) == [a] + got;
    CollectConcat(EventsOf, [a], got);
    CollectOne(EventsOf, a);
  }

  /** Receiving one last message. */
  lemma AccountedLast(limit: nat, w: World, f: Effect)
    requires w.inbox != [] && f.world.inbox == w.inbox[1..] && f.kept + f.dropped == EventsOf(w.inbox[0])
    requires f.dropped != [] <==> f.result == Err(EventQueueExceeded)
    requires |f.world.queue| <= |w.queue|
    ensures Accounted(limit, w, f)
  {
    assert Received(w.inbox, f.world.inbox) == [w.inbox[0]];
    CollectOne(EventsOf, w.inbox[0]);
  }

  lemma {:induction false} CallAccounted(limit: nat, id: nat, session: Option<string>, patience: nat, w: World)
    ensures Accounted(limit, w, CallLoop(limit, id, session, patience, w))
    decreases |w.inbox|
  {
    var f := CallLoop(limit, id, session, patience, w);
    if patience == 0 || w.inbox == [] {
      AccountedNothing(limit, w, f);
    } else {
      var a, next := w.inbox[0], w.(inbox := w.inbox[1..]);
      if EventsOf(a) != [] && |w.queue| < limit {
        var mid := next.(queue := w.queue + EventsOf(a));
        CallAccounted(limit, id, session, patience - 1, mid);
        AccountedStep(limit, w, mid, CallLoop(limit, id, session, patience - 1, mid), f);
      } else if !(a.Text? && a.parsed.Ok?) && Interruption(a).None? {
        CallAccounted(limit, id, session, patience - 1, next);
        AccountedStep(limit, w, next, CallLoop(limit, id, session, patience - 1, next), f);
      } else {
        AccountedLast(limit, w, f);
      }
    }
  }

  lemma {:induction false} WaitAccounted(limit: nat, k: Key, matching: Json -> bool, patience: nat, w: World)
    ensures Accounted(limit, w, WaitLoop(limit, k, matching, patience, w))
    decreases |w.inbox|
  {
    var f := WaitLoop(limit, k, matching, patience, w);
    if patience == 0 || w.inbox == [] {
      AccountedNothing(limit, w, f);
    } else {
      var a, next := w.inbox[0], w.(inbox := w.inbox[1..]);
      if EventsOf(a) != [] && !(KeyOf(EventsOf(a)[0]) == k && matching(EventsOf(a)[0].params)) && |w.queue| < limit {
        var mid := next.(queue := w.queue + EventsOf(a));
        WaitAccounted(limit, k, matching, patience - 1, mid);
        AccountedStep(limit, w, mid, WaitLoop(limit, k, matching, patience - 1, mid), f);
      } else if !(a.Text? && a.parsed.Ok?) && Interruption(a).None? {
        WaitAccounted(limit, k, matching, patience - 1, next);
        AccountedStep(limit, w, next, WaitLoop(limit, k, matching, patience - 1, next), f);
      } else {
        AccountedLast(limit, w, f);
      }
    }
  }

  /** A call's fault is not the overflow of its own receive loop. */
  predicate Proper(op: Op) { op.Call? ==> op.fault != Some(EventQueueExceeded) }

  lemma OperationAccounted(limit: nat, w: World, op: Op)
    requires Proper(op)
    ensures Accounted(limit, w, Do(limit, w, op))
  {
    var f := Do(limit, w, op);
    match op
    case Call(session, fault, patience) =>
      if Exhausted(w.nextId) || fault.Some? {
        AccountedNothing(limit, w, f);
      } else {
        CallAccounted(limit, w.nextId, session, patience, w.(nextId := if w.nextId == U64_MAX then U64_MAX else w.nextId + 1));
      }
    case WaitForEvent(key, patience) => WaitForAccounted(limit, key, Any, patience, w);
    case WaitForEventMatching(key, matching, patience) => WaitForAccounted(limit, key, matching, patience, w);
    case DiscardEvents(key) =>
      DiscardConserves(w.queue, key);
      assert |multiset(Of(w.queue, key))| + |multiset(Without(w.queue, key))| == |multiset(w.queue)|;
      AccountedNothing(limit, w, f);
    case _ => AccountedNothing(limit, w, f);
  }

  lemma WaitForAccounted(limit: nat, k: Key, matching: Json -> bool, patience: nat, w: World)
    ensures Accounted(limit, w, WaitFor(limit, k, matching, patience, w))
  {
    if k.name == "" || k.session == Some("") || Find(w.queue, k, matching, 0) < |w.queue| {
      AccountedNothing(limit, w, WaitFor(limit, k, matching, patience, w));
    } else {
      WaitAccounted(limit, k, matching, patience, w);
    }
  }

  type Verdict = Option<Result<Option<Json>, Error>>

  /** How a message that is no parsed text ends an operation; an answered ping and a pong do not. */
  function Ending(a: Arrival): (v: Verdict)
  {
    if a.Close? || a.Broken? || a == Ping(false) then Some(Err(ConnectionLost))
    else if a.Binary? then Some(Err(UnsupportedFrame))
    else if a.Text? && a.parsed.Err? then Some(Err(Protocol(a.parsed.error)))
    else None
  }

  /** What a message decides for a call: its own reply or failure, a foreign one, an ending, or nothing. */
  function CallVerdict(id: nat, session: Option<string>, a: Arrival): (v: Verdict)
  {
    if EventsOf(a) != [] then None
    else if !(a.Text? && a.parsed.Ok?) then Ending(a)
    else if a.parsed.value.id != id || a.parsed.value.session != session then Some(Err(CorrelationMismatch))
    else if a.parsed.value.Reply? then Some(Ok(Some(a.parsed.value.result)))
    else Some(Err(Remote(a.parsed.value.error)))
  }

  /** What a message decides for a wait: a wanted event, any reply or failure, an ending, or nothing. */
  function WaitVerdict(k: Key, matching: Json -> bool, a: Arrival): (v: Verdict)
  {
    if EventsOf(a) != [] then
      var e := EventsOf(a)[0];
      if e.name == k.name && e.session == k.session && matching(e.params) then Some(Ok(Some(e.params))) else None
    else if !(a.Text? && a.parsed.Ok?) then Ending(a)
    else Some(Err(CorrelationMismatch))
  }

  predicate Overflows(limit: nat, queue: seq<Event>, events: seq<Event>)
  {
    events != [] && |queue| + |events| > limit
  }

  /**
   A receive loop ends at the first message that decides, at the first event the queue has no room for, when its deadline
   passes, or when nothing more arrives, with the result each of these means.
   */
  ghost predicate Outcome(limit: nat, w: World, f: Effect, patience: nat, verdict: Arrival -> Verdict)
  {
    |f.world.inbox| <= |w.inbox| &&
    var n := |w.inbox| - |f.world.inbox|;
    var overflow := Overflows(limit, w.queue, EventsIn(Received(w.inbox, f.world.inbox)));
    && n <= patience && f.world.inbox == w.inbox[n..]
    && (forall j :: 0 <= j < n - 1 ==> verdict(w.inbox[j]).None?)
    && if n > 0 && verdict(w.inbox[n - 1]).Some? then f.result == verdict(w.inbox[n - 1]).value
       else if overflow then f.result == Err(EventQueueExceeded)
       else if n == patience then f.result == Err(Timeout)
       else n == |w.inbox| && f.result == Err(ConnectionLost)
  }

  lemma OutcomeNow(limit: nat, w: World, f: Effect, patience: nat, verdict: Arrival -> Verdict)
    requires patience == 0 || w.inbox == []
    requires f == Done(w, Err(if patience == 0 then Timeout else ConnectionLost))
    ensures Outcome(limit, w, f, patience, verdict)
  {
    assert Received(w.inbox, w.inbox) == [];
  }

  lemma OutcomeLast(limit: nat, w: World, f: Effect, patience: nat, verdict: Arrival -> Verdict)
    requires patience > 0 && w.inbox != [] && f.world.inbox == w.inbox[1..]
    requires if verdict(w.inbox[0]).Some? then f.result == verdict(w.inbox[0]).value
             else EventsOf(w.inbox[0]) != [] && |w.queue| >= limit && f.result == Err(EventQueueExceeded)
    ensures Outcome(limit, w, f, patience, verdict)
  {
    assert Received(w.inbox, f.world.inbox) == [w.inbox[0]];
    CollectOne(EventsOf, w.inbox[0]);
  }

  lemma OverflowStep(limit: nat, queue: seq<Event>, first: seq<Event>, rest: seq<Event>)
    requires first != [] ==> |queue| + |first| <= limit
    ensures Overflows(limit, queue + first, rest) <==> Overflows(limit, queue, first + rest)
  {
  }

  lemma OutcomeStep(limit: nat, w: World, mid: World, rest: Effect, f: Effect, patience: nat, verdict: Arrival -> Verdict)
    requires patience > 0 && w.inbox != [] && verdict(w.inbox[0]).None?
    requires mid.inbox == w.inbox[1..] && mid.queue == w.queue + EventsOf(w.inbox[0])
    requires EventsOf(w.inbox[0]) != [] ==> |w.queue| < limit
    requires Outcome(limit, mid, rest, patience - 1, verdict)
    requires f.world == rest.world && f.result == rest.result
    ensures Outcome(limit, w, f, patience, verdict)
  {
    var after := f.world.inbox;
    assert mid.inbox == Received(mid.inbox, after) + after;
    ReceivedStep(w.inbox, after);
    OverflowStep(limit, w.queue, EventsOf(w.inbox[0]), EventsIn(Received(mid.inbox, after)));
    var n := |w.inbox| - |after|;
    assert forall j :: 0 < j < n ==> w.inbox[j] == mid.inbox[j - 1];
    if n == 1 {
      assert Received(mid.inbox, after) == [];
    }
  }

  function ForCall(id: nat, session: Option<string>): (f: Arrival -> Verdict) { a => CallVerdict(id, session, a) }

  function ForWait(k: Key, matching: Json -> bool): (f: Arrival -> Verdict) { a => WaitVerdict(k, matching, a) }

  /** The world after receiving a message that decides nothing. */
  function Advanced(w: World): (mid: World)
    requires w.inbox != []
    ensures EventsOf(w.inbox[0]) == [] ==> mid == w.(inbox := w.inbox[1..])
  {
    World(w.inbox[1..], w.nextId, w.queue + EventsOf(w.inbox[0]))
  }

  predicate GoesOn(limit: nat, w: World, v: Verdict)
    requires w.inbox != []
  {
    v.None? && (EventsOf(w.inbox[0]) == [] || |w.queue| < limit)
  }

  /** One turn of a receive loop, given what the rest of it does. */
  ghost predicate Turn(limit: nat, w: World, f: Effect, rest: Effect, patience: nat, verdict: Arrival -> Verdict)
  {
    if patience == 0 then f == Done(w, Err(Timeout))
    else if w.inbox == [] then f == Done(w, Err(ConnectionLost))
    else if GoesOn(limit, w, verdict(w.inbox[0])) then f.world == rest.world && f.result == rest.result
    else
      f.world.inbox == w.inbox[1..]
      && f.result == if verdict(w.inbox[0]).Some? then verdict(w.inbox[0]).value else Err(EventQueueExceeded)
  }

  lemma OutcomeOfTurn(limit: nat, w: World, f: Effect, rest: Effect, patience: nat, verdict: Arrival -> Verdict)
    requires Turn(limit, w, f, rest, patience, verdict)
    requires patience > 0 && w.inbox != [] ==> Outcome(limit, Advanced(w), rest, patience - 1, verdict)
    ensures Outcome(limit, w, f, patience, verdict)
  {
    if patience == 0 || w.inbox == [] {
      OutcomeNow(limit, w, f, patience, verdict);
    } else if GoesOn(limit, w, verdict(w.inbox[0])) {
      OutcomeStep(limit, w, Advanced(w), rest, f, patience, verdict);
    } else {
      OutcomeLast(limit, w, f, patience, verdict);
    }
  }

  function CallRest(limit: nat, id: nat, session: Option<string>, patience: nat, w: World): (rest: Effect)
  {
    if patience == 0 || w.inbox == [] then Done(w, Err(Timeout)) else CallLoop(limit, id, session, patience - 1, Advanced(w))
  }

  function WaitRest(limit: nat, k: Key, matching: Json -> bool, patience: nat, w: World): (rest: Effect)
  {
    if patience == 0 || w.inbox == [] then Done(w, Err(Timeout)) else WaitLoop(limit, k, matching, patience - 1, Advanced(w))
  }

  lemma CallTurn(limit: nat, id: nat, session: Option<string>, patience: nat, w: World)
    ensures Turn(limit, w, CallLoop(limit, id, session, patience, w), CallRest(limit, id, session, patience, w), patience, ForCall(id, session))
  {
  }

  lemma WaitTurn(limit: nat, k: Key, matching: Json -> bool, patience: nat, w: World)
    ensures Turn(limit, w, WaitLoop(limit, k, matching, patience, w), WaitRest(limit, k, matching, patience, w), patience, ForWait(k, matching))
  {
  }

  /** A call's result is what its own reply or failure says, and only that counts as success. */
  lemma {:induction false} CallOutcome(limit: nat, id: nat, session: Option<string>, patience: nat, w: World)
    ensures Outcome(limit, w, CallLoop(limit, id, session, patience, w), patience, ForCall(id, session))
    decreases |w.inbox|
  {
    if patience == 0 || w.inbox == [] {
    } else {
      CallOutcome(limit, id, session, patience - 1, Advanced(w));
    }
    CallTurn(limit, id, session, patience, w);
    OutcomeOfTurn(limit, w, CallLoop(limit, id, session, patience, w), CallRest(limit, id, session, patience, w), patience, ForCall(id, session));
  }

  /** A wait's result is the first wanted event that arrives, unless something else ends the wait before. */
  lemma {:induction false} WaitOutcome(limit: nat, k: Key, matching: Json -> bool, patience: nat, w: World)
    ensures Outcome(limit, w, WaitLoop(limit, k, matching, patience, w), patience, ForWait(k, matching))
    decreases |w.inbox|
  {
    if patience == 0 || w.inbox == [] {
    } else {
      WaitOutcome(limit, k, matching, patience - 1, Advanced(w));
    }
    WaitTurn(limit, k, matching, patience, w);
    OutcomeOfTurn(limit, w, WaitLoop(limit, k, matching, patience, w), WaitRest(limit, k, matching, patience, w), patience, ForWait(k, matching));
  }

  // ---- When a matching wait keeps the order of its own key ----

  /** Among the messages to come, the one at `n` is an event the wait hands out: nothing before it ends the wait. */
  predicate HandsOut(limit: nat, k: Key, matching: Json -> bool, patience: nat, w: World, n: nat)
  {
    && n < patience && n < |w.inbox|
    && (forall j :: 0 <= j < n ==> WaitVerdict(k, matching, w.inbox[j]).None?)
    && (var v := WaitVerdict(k, matching, w.inbox[n]); v.Some? && v.value.Ok?)
    && !Overflows(limit, w.queue, EventsIn(w.inbox[..n]))
  }

  /**
   What a caller can tell from the queue and the messages to come: the wait takes the first event of its key. If the queue holds
   a wanted event, the first queued event of the key is wanted; otherwise, when an arriving event is handed out, no event of the
   key is queued or arrives before it.
   */
  predicate TakesFirst(limit: nat, k: Key, matching: Json -> bool, patience: nat, w: World)
  {
    if k.name == "" || k.session == Some("") then true
    else if Find(w.queue, k, matching, 0) < |w.queue| then Of(w.queue, k) != [] && matching(Of(w.queue, k)[0].params)
    else forall n | 0 <= n < |w.inbox| && HandsOut(limit, k, matching, patience, w, n) ::
           Of(w.queue, k) == [] && Of(EventsIn(w.inbox[..n]), k) == []
  }

  /** What one turn of a wait hands out and keeps, given the rest of it. */
  ghost predicate Takes(limit: nat, w: World, f: Effect, rest: Effect, v: Verdict)
    requires w.inbox != []
  {
    if GoesOn(limit, w, v) then f.consumed == rest.consumed && f.kept == EventsOf(w.inbox[0]) + rest.kept
    else (f.consumed != [] <==> v.Some? && v.value.Ok?) && (f.consumed != [] ==> f.kept == f.consumed)
  }

  /** A receive loop as a function of its deadline and world. */
  type Loop = (nat, World) -> Effect

  function Waiting(limit: nat, k: Key, matching: Json -> bool): (loop: Loop)
  {
    (patience: nat, w: World) => WaitLoop(limit, k, matching, patience, w)
  }

  ghost predicate TurnTakes(loop: Loop, limit: nat, k: Key, matching: Json -> bool, patience: nat, w: World)
  {
    if patience == 0 || w.inbox == [] then loop(patience, w).consumed == []
    else Takes(limit, w, loop(patience, w), loop(patience - 1, Advanced(w)), WaitVerdict(k, matching, w.inbox[0]))
  }

  ghost predicate LoopTakes(loop: Loop, limit: nat, k: Key, matching: Json -> bool)
  {
    forall patience, w :: TurnTakes(loop, limit, k, matching, patience, w)
  }

  lemma WaitTakes(limit: nat, k: Key, matching: Json -> bool)
    ensures LoopTakes(Waiting(limit, k, matching), limit, k, matching)
  {
    forall patience: nat, w ensures TurnTakes(Waiting(limit, k, matching), limit, k, matching, patience, w) {
      if patience == 0 || w.inbox == [] {
      } else {
        var rest := WaitLoop(limit, k, matching, patience - 1, Advanced(w));
        assert [] + rest.kept == rest.kept;
      }
    }
  }

  lemma EventsLater(w: World, n: nat)
    requires w.inbox != [] && 0 < n <= |w.inbox|
    ensures EventsIn(w.inbox[..n]) == EventsOf(w.inbox[0]) + EventsIn(Advanced(w).inbox[..n - 1])
  {
    assert w.inbox[..n] == [w.inbox[0]] + Advanced(w).inbox[..n - 1];
    CollectConcat(EventsOf, [w.inbox[0]], Advanced(w).inbox[..n - 1]);
    CollectOne(EventsOf, w.inbox[0]);
  }

  lemma NoneLater(k: Key, matching: Json -> bool, inbox: seq<Arrival>, n: nat)
    requires 0 < n <= |inbox|
    ensures (forall j :: 0 <= j < n ==> WaitVerdict(k, matching, inbox[j]).None?) <==>
            WaitVerdict(k, matching, inbox[0]).None? && forall j :: 0 <= j < n - 1 ==> WaitVerdict(k, matching, inbox[1..][j]).None?
  {
    if forall j :: 0 <= j < n - 1 ==> WaitVerdict(k, matching, inbox[1..][j]).None? {
      forall j | 0 < j < n ensures WaitVerdict(k, matching, inbox[j]).None? {
        assert inbox[j] == inbox[1..][j - 1];
      }
    }
  }

  lemma HandsOutLater(limit: nat, k: Key, matching: Json -> bool, patience: nat, w: World, n: nat)
    requires patience > 0 && 0 < n < |w.inbox|
    ensures HandsOut(limit, k, matching, patience, w, n) <==>
            && GoesOn(limit, w, WaitVerdict(k, matching, w.inbox[0]))
            && HandsOut(limit, k, matching, patience - 1, Advanced(w), n - 1)
  {
    var first, later := EventsOf(w.inbox[0]), EventsIn(Advanced(w).inbox[..n - 1]);
    EventsLater(w, n);
    NoneLater(k, matching, w.inbox, n);
    if first == [] || |w.queue| < limit {
      OverflowStep(limit, w.queue, first, later);
    }
  }

  /** The wait handed something out after keeping the events of the first `n` messages. */
  ghost predicate Handed(f: Effect, inbox: seq<Arrival>, n: nat)
  {
    n < |inbox| && f.consumed != [] && f.kept == EventsIn(inbox[..n]) + f.consumed
  }

  lemma HandedStep(limit: nat, w: World, f: Effect, rest: Effect, v: Verdict, n: nat)
    requires n < |w.inbox| && Takes(limit, w, f, rest, v)
    requires n == 0 ==> v.Some? && v.value.Ok?
    requires n > 0 ==> GoesOn(limit, w, v) && Handed(rest, Advanced(w).inbox, n - 1)
    ensures Handed(f, w.inbox, n)
  {
    if n == 0 {
      assert EventsIn(w.inbox[..0]) + f.consumed == f.consumed;
    } else {
      EventsLater(w, n);
      Associate(EventsOf(w.inbox[0]), EventsIn(Advanced(w).inbox[..n - 1]), f.consumed);
    }
  }

  /** A message that hands out is what the wait hands out, after keeping the events before it. */
  lemma {:induction false} HandedOut(loop: Loop, limit: nat, k: Key, matching: Json -> bool, patience: nat, w: World, n: nat)
    requires LoopTakes(loop, limit, k, matching) && HandsOut(limit, k, matching, patience, w, n)
    ensures Handed(loop(patience, w), w.inbox, n)
    decreases n
  {
    assert TurnTakes(loop, limit, k, matching, patience, w);
    var f, rest, v := loop(patience, w), loop(patience - 1, Advanced(w)), WaitVerdict(k, matching, w.inbox[0]);
    if n == 0 {
      HandedStep(limit, w, f, rest, v, 0);
    } else {
      HandsOutLater(limit, k, matching, patience, w, n);
      HandedOut(loop, limit, k, matching, patience - 1, Advanced(w), n - 1);
      HandedStep(limit, w, f, rest, v, n);
    }
  }

  /** What a wait hands out is the event of a message that hands out. */
  lemma {:induction false} WhatWasHandedOut(loop: Loop, limit: nat, k: Key, matching: Json -> bool, patience: nat, w: World) returns (n: nat)
    requires LoopTakes(loop, limit, k, matching) && loop(patience, w).consumed != []
    ensures HandsOut(limit, k, matching, patience, w, n)
    decreases |w.inbox|
  {
    assert TurnTakes(loop, limit, k, matching, patience, w);
    if GoesOn(limit, w, WaitVerdict(k, matching, w.inbox[0])) {
      var m := WhatWasHandedOut(loop, limit, k, matching, patience - 1, Advanced(w));
      n := m + 1;
      HandsOutLater(limit, k, matching, patience, w, n);
    } else {
      n := 0;
    }
  }

  lemma {:induction false} OfMembers(events: seq<Event>, k: Key)
    ensures forall e :: e in Of(events, k) ==> e in events
    decreases |events|
  {
    if events == [] {
    } else {
      OfMembers(events[..|events| - 1], k);
    }
  }

  /** Moving a wanted event in front of unwanted ones changes nothing exactly when there are none. */
  lemma WantedMoves(unwanted: seq<Event>, x: Event, rest: seq<Event>, matching: Json -> bool)
    requires matching(x.params) && forall e :: e in unwanted ==> !matching(e.params)
    ensures [x] + (unwanted + rest) == unwanted + ([x] + rest) <==> unwanted == []
    ensures (unwanted + ([x] + rest)) != [] && (matching((unwanted + ([x] + rest))[0].params) <==> unwanted == [])
  {
    if unwanted != [] {
      assert ([x] + (unwanted + rest))[0] == x && (unwanted + ([x] + rest))[0] == unwanted[0];
    }
  }

  /** The first event of this key that an operation handed out is not the first that was there: queued, or else kept. */
  ghost predicate Misorders(before: World, f: Effect, k: Key)
  {
    var out, there := Of(f.consumed, k), Of(before.queue, k) + Of(f.kept, k);
    out != [] && there != [] && out[0] != there[0]
  }

  lemma QueuedWaitOrder(w: World, i: nat, k: Key, matching: Json -> bool)
    requires i < |w.queue| && KeyOf(w.queue[i]) == k && matching(w.queue[i].params)
    requires forall j :: 0 <= j < i ==> !(KeyOf(w.queue[j]) == k && matching(w.queue[j].params))
    ensures Of(w.queue, k) != [] && (Balanced(w, TakeAt(w, i), k) <==> matching(Of(w.queue, k)[0].params))
    ensures Balanced(w, TakeAt(w, i), k) || Misorders(w, TakeAt(w, i), k)
  {
    var q := w.queue;
    var front := Of(q[..i], k);
    SplitAt(q, i, k);
    OfOne(q[i], k);
    OfMembers(q[..i], k);
    forall e | e in front ensures !matching(e.params) {
      var j :| 0 <= j < |front| && front[j] == e;
      assert e in q[..i] && KeyOf(e) == k;
    }
    WantedMoves(front, q[i], Of(q[i + 1..], k), matching);
    assert Of(q, k) + [] == Of(q, k);
  }

  lemma ReceivedWaitOrder(w: World, f: Effect, skipped: seq<Event>, x: Event, k: Key, matching: Json -> bool)
    requires f.consumed == [x] && f.world.queue == w.queue + skipped && f.kept == skipped + [x]
    requires KeyOf(x) == k && matching(x.params)
    requires forall e :: e in w.queue + skipped ==> !(KeyOf(e) == k && matching(e.params))
    ensures Balanced(w, f, k) <==> Of(w.queue, k) == [] && Of(skipped, k) == []
    ensures Balanced(w, f, k) || Misorders(w, f, k)
  {
    var front := Of(w.queue + skipped, k);
    OfMembers(w.queue + skipped, k);
    forall e | e in front ensures !matching(e.params) {
      var j :| 0 <= j < |front| && front[j] == e;
      assert e in w.queue + skipped && KeyOf(e) == k;
    }
    WantedMoves(front, x, [], matching);
    OfOne(x, k);
    OfConcat(w.queue + skipped, [x], k);
    OfConcat(skipped, [x], k);
    OfConcat(w.queue, skipped, k);
    Associate(w.queue, skipped, [x]);
    Associate(Of(w.queue, k), Of(skipped, k), [x]);
    assert [x] + [] == [x] && front + [] == front;
  }

  lemma SameSuffix(a: seq<Event>, b: seq<Event>, c: seq<Event>)
    requires a + c == b + c
    ensures a == b
  {
    assert |a| == |b|;
    forall j | 0 <= j < |a| ensures a[j] == b[j] {
      assert (a + c)[j] == (b + c)[j];
    }
  }

  lemma LoopOrder(limit: nat, k: Key, matching: Json -> bool, patience: nat, w: World)
    requires Find(w.queue, k, matching, 0) == |w.queue|
    ensures Balanced(w, WaitLoop(limit, k, matching, patience, w), k) <==>
            forall n | 0 <= n < |w.inbox| && HandsOut(limit, k, matching, patience, w, n) ::
              Of(w.queue, k) == [] && Of(EventsIn(w.inbox[..n]), k) == []
    ensures var f := WaitLoop(limit, k, matching, patience, w); Balanced(w, f, k) || Misorders(w, f, k)
  {
    var loop := Waiting(limit, k, matching);
    WaitTakes(limit, k, matching);
    var f := WaitLoop(limit, k, matching, patience, w);
    assert f == loop(patience, w);
    var skipped := WaitShape(limit, k, matching, patience, w);
    if f.consumed == [] {
      assert skipped + [] == skipped;
      KeptBalanced(w, f, k);
      forall n | 0 <= n < |w.inbox| ensures !HandsOut(limit, k, matching, patience, w, n) {
        if HandsOut(limit, k, matching, patience, w, n) {
          HandedOut(loop, limit, k, matching, patience, w, n);
          assert false;
        }
      }
    } else {
      ReceivedWaitOrder(w, f, skipped, f.consumed[0], k, matching);
      forall n | 0 <= n < |w.inbox| && HandsOut(limit, k, matching, patience, w, n) ensures EventsIn(w.inbox[..n]) == skipped {
        HandedOut(loop, limit, k, matching, patience, w, n);
        SameSuffix(EventsIn(w.inbox[..n]), skipped, f.consumed);
      }
      var n := WhatWasHandedOut(loop, limit, k, matching, patience, w);
    }
  }

  /** A matching wait keeps the order of its own key if and only if it takes the first event of that key. */
  lemma MatchingWaitOrder(limit: nat, k: Key, matching: Json -> bool, patience: nat, w: World)
    ensures Balanced(w, WaitFor(limit, k, matching, patience, w), k) <==> TakesFirst(limit, k, matching, patience, w)
    ensures var f := WaitFor(limit, k, matching, patience, w); Balanced(w, f, k) || Misorders(w, f, k)
  {
    var i := Find(w.queue, k, matching, 0);
    if k.name == "" || k.session == Some("") {
      DoneBalanced(w, WaitFor(limit, k, matching, patience, w), k);
    } else if i < |w.queue| {
      QueuedWaitOrder(w, i, k, matching);
    } else {
      LoopOrder(limit, k, matching, patience, w);
    }
  }

  lemma TakingSecond(w: World, k: Key, matching: Json -> bool)
    requires |w.queue| == 2 && KeyOf(w.queue[0]) == k && KeyOf(w.queue[1]) == k
    requires !matching(w.queue[0].params) && matching(w.queue[1].params)
    ensures !Balanced(w, TakeAt(w, 1), k)
  {
    QueuedWaitOrder(w, 1, k, matching);
    OfConcat([w.queue[0]], [w.queue[1]], k);
    OfOne(w.queue[0], k);
    OfOne(w.queue[1], k);
    assert w.queue == [w.queue[0]] + [w.queue[1]];
  }

  lemma WaitingForQueued(limit: nat, k: Key, matching: Json -> bool, patience: nat, w: World, i: nat)
    requires k.name != "" && k.session != Some("") && i < |w.queue| && Find(w.queue, k, matching, 0) == i
    ensures WaitFor(limit, k, matching, patience, w) == TakeAt(w, i)
  {
  }

  function Second(params: Json): (b: bool) { params == "2" }

  const TWO_QUEUED := World([], 1, [Event("n", "1", None), Event("n", "2", None)])

  /** With two events of one key queued, waiting for the second hands it out before the first. */
  lemma MatchingWaitReorders()
    ensures WaitFor(2, Key("n", None), Second, 1, TWO_QUEUED).consumed == [Event("n", "2", None)]
    ensures !Balanced(TWO_QUEUED, WaitFor(2, Key("n", None), Second, 1, TWO_QUEUED), Key("n", None))
  {
    WaitingForQueued(2, Key("n", None), Second, 1, TWO_QUEUED, 1);
    TakingSecond(TWO_QUEUED, Key("n", None), Second);
  }

  /** Every operation keeps the order of every key, except a matching wait on that key that does not take its first event. */
  predicate KeepsOrder(limit: nat, w: World, op: Op, k: Key)
  {
    op.WaitForEventMatching? && op.key == k ==> TakesFirst(limit, k, op.matching, op.patience, w)
  }

  /** An operation balances a key if and only if it keeps that key's order; otherwise it hands out a later event first. */
  lemma OperationBalanced(limit: nat, w: World, op: Op, k: Key)
    ensures Balanced(w, Do(limit, w, op), k) <==> KeepsOrder(limit, w, op, k)
    ensures Balanced(w, Do(limit, w, op), k) || Misorders(w, Do(limit, w, op), k)
  {
    var f := Do(limit, w, op);
    match op
    case Call(session, fault, patience) =>
      if Exhausted(w.nextId) || fault.Some? {
        DoneBalanced(w, f, k);
      } else {
        CallBalanced(limit, w.nextId, session, patience, w.(nextId := if w.nextId == U64_MAX then U64_MAX else w.nextId + 1));
        KeptBalanced(w, f, k);
      }
    case PopEvent =>
      if w.queue != [] { TakeBalanced(w, 0, k); }
    case TakeEvent(key) =>
      var i := Find(w.queue, key, Any, 0);
      if i < |w.queue| { TakeBalanced(w, i, k); } else { DoneBalanced(w, f, k); }
    case DiscardEvents(key) => DiscardBalanced(w, key, k);
    case WaitForEvent(key, patience) => WaitForBalanced(limit, key, Any, patience, w, k);
    case WaitForEventMatching(key, matching, patience) =>
      if key == k {
        MatchingWaitOrder(limit, key, matching, patience, w);
      } else {
        WaitForBalanced(limit, key, matching, patience, w, k);
      }
  }

  // ---- Whole runs ----

  /** The world and the events kept and handed out after a run's operations. */
  datatype Ledger = Ledger(world: World, kept: seq<Event>, consumed: seq<Event>)

  function Run(limit: nat, inbox: seq<Arrival>, ops: seq<Op>): (l: Ledger)
  {
    if ops == [] then Ledger(World(inbox, 1, []), [], [])
    else
      var before := Run(limit, inbox, ops[..|ops| - 1]);
      Record(before, Do(limit, before.world, ops[|ops| - 1]))
  }

  function Record(before: Ledger, f: Effect): (l: Ledger)
  {
    Ledger(f.world, before.kept + f.kept, before.consumed + f.consumed)
  }

  /** For one key: what was handed out, then what is queued, is what was kept. */
  ghost predicate InOrder(l: Ledger, k: Key)
  {
    Of(l.consumed, k) + Of(l.world.queue, k) == Of(l.kept, k)
  }

  /** The event of this key handed out at this place is not the one kept there. */
  ghost predicate OutOfOrder(l: Ledger, k: Key, p: nat)
  {
    p < |Of(l.consumed, k)| && p < |Of(l.kept, k)| && Of(l.consumed, k)[p] != Of(l.kept, k)[p]
  }

  lemma RecordOf(before: Ledger, f: Effect, k: Key)
    ensures Of(Record(before, f).consumed, k) == Of(before.consumed, k) + Of(f.consumed, k)
    ensures Of(Record(before, f).kept, k) == Of(before.kept, k) + Of(f.kept, k)
  {
    OfConcat(before.consumed, f.consumed, k);
    OfConcat(before.kept, f.kept, k);
  }

  lemma RecordKeepsOrder(before: Ledger, f: Effect, k: Key)
    requires InOrder(before, k) && Balanced(before.world, f, k)
    ensures InOrder(Record(before, f), k)
  {
    RecordOf(before, f, k);
    Regroup(Of(before.consumed, k), Of(f.consumed, k), Of(f.world.queue, k), Of(before.world.queue, k), Of(f.kept, k));
  }

  lemma RecordMisorders(before: Ledger, f: Effect, k: Key)
    requires InOrder(before, k) && Misorders(before.world, f, k)
    ensures OutOfOrder(Record(before, f), k, |Of(before.consumed, k)|)
  {
    RecordOf(before, f, k);
    Associate(Of(before.consumed, k), Of(before.world.queue, k), Of(f.kept, k));
  }

  lemma RecordStaysOut(before: Ledger, f: Effect, k: Key, p: nat)
    requires OutOfOrder(before, k, p)
    ensures OutOfOrder(Record(before, f), k, p)
  {
    RecordOf(before, f, k);
  }

  lemma NotBoth(l: Ledger, k: Key, p: nat)
    requires OutOfOrder(l, k, p)
    ensures !InOrder(l, k)
  {
    assert (Of(l.consumed, k) + Of(l.world.queue, k))[p] == Of(l.consumed, k)[p];
  }

  lemma RecordKeepsBag(before: Ledger, f: Effect)
    requires multiset(before.consumed) + multiset(before.world.queue) == multiset(before.kept)
    requires multiset(f.consumed) + multiset(f.world.queue) == multiset(before.world.queue) + multiset(f.kept)
    ensures var l := Record(before, f); multiset(l.consumed) + multiset(l.world.queue) == multiset(l.kept)
  {
    assert multiset(before.consumed + f.consumed) == multiset(before.consumed) + multiset(f.consumed);
    assert multiset(before.kept + f.kept) == multiset(before.kept) + multiset(f.kept);
    var a, b, c := multiset(before.consumed), multiset(f.consumed), multiset(f.world.queue);
    var d, e := multiset(before.world.queue), multiset(f.kept);
    assert a + b + c == a + (b + c);
    assert a + (d + e) == a + d + e;
  }

  /** What an operation of a run did. */
  function At(limit: nat, inbox: seq<Arrival>, ops: seq<Op>, n: nat): (f: Effect)
    requires n < |ops|
  {
    Do(limit, Run(limit, inbox, ops[..n]).world, ops[n])
  }

  /** What an operation may be asked to satisfy in the world it begins in. */
  type Test = (World, Op) -> bool

  /** Each operation passes the test in the world it begins in. */
  ghost predicate AllPass(test: Test, after: seq<Op> -> World, ops: seq<Op>)
  {
    forall n :: 0 <= n < |ops| ==> test(after(ops[..n]), ops[n])
  }

  function WorldAfter(limit: nat, inbox: seq<Arrival>): (after: seq<Op> -> World) { ops => Run(limit, inbox, ops).world }

  function KeepingOrder(limit: nat, k: Key): (test: Test) { (w, op) => KeepsOrder(limit, w, op, k) }

  /** Every operation of the run keeps the order of this key; so it is for a key no matching wait asks for. */
  ghost predicate RunKeepsOrder(limit: nat, inbox: seq<Arrival>, ops: seq<Op>, k: Key)
  {
    AllPass(KeepingOrder(limit, k), WorldAfter(limit, inbox), ops)
  }

  lemma AllPassStep(test: Test, after: seq<Op> -> World, ops: seq<Op>)
    requires ops != []
    ensures var init := ops[..|ops| - 1];
            AllPass(test, after, ops) <==> AllPass(test, after, init) && test(after(init), ops[|ops| - 1])
  {
    var init := ops[..|ops| - 1];
    forall n | 0 <= n < |init| ensures init[..n] == ops[..n] && init[n] == ops[n] {
    }
  }

  /** Operations that pass the test keep a key's order, and those that fail it misorder it. */
  ghost predicate Decides(test: Test, limit: nat, w: World, op: Op, k: Key)
  {
    if test(w, op) then Balanced(w, Do(limit, w, op), k) else Misorders(w, Do(limit, w, op), k)
  }

  lemma KeepingOrderDecides(limit: nat, k: Key)
    ensures forall w, op :: Decides(KeepingOrder(limit, k), limit, w, op, k)
  {
    forall w, op ensures Decides(KeepingOrder(limit, k), limit, w, op, k) {
      OperationBalanced(limit, w, op, k);
    }
  }

  /** Either the ledger is in order, or some place of it is not. */
  ghost predicate Judged(l: Ledger, k: Key, ordered: bool)
  {
    if ordered then InOrder(l, k) else exists p: nat :: OutOfOrder(l, k, p)
  }

  lemma RecordJudged(before: Ledger, f: Effect, k: Key, ordered: bool, balanced: bool)
    requires Judged(before, k, ordered) && if balanced then Balanced(before.world, f, k) else Misorders(before.world, f, k)
    ensures Judged(Record(before, f), k, ordered && balanced)
  {
    if !ordered {
      var p: nat :| OutOfOrder(before, k, p);
      RecordStaysOut(before, f, k, p);
    } else if balanced {
      RecordKeepsOrder(before, f, k);
    } else {
      RecordMisorders(before, f, k);
    }
  }

  /** A run whose operations all pass is in order; after one that fails, some place is out of order for good. */
  lemma {:induction false} OrderOrMismatch(test: Test, limit: nat, inbox: seq<Arrival>, ops: seq<Op>, k: Key)
    requires forall w, op :: Decides(test, limit, w, op, k)
    ensures Judged(Run(limit, inbox, ops), k, AllPass(test, WorldAfter(limit, inbox), ops))
    decreases |ops|
  {
    if ops == [] {
    } else {
      var init, last := ops[..|ops| - 1], ops[|ops| - 1];
      var before := Run(limit, inbox, init);
      OrderOrMismatch(test, limit, inbox, init, k);
      AllPassStep(test, WorldAfter(limit, inbox), ops);
      assert Decides(test, limit, before.world, last, k);
      RecordJudged(before, Do(limit, before.world, last), k, AllPass(test, WorldAfter(limit, inbox), init), test(before.world, last));
    }
  }

  /** In every run: what was handed out, then what is queued, is what was kept, if and only if every operation kept the key's order. */
  lemma OrderPerKey(limit: nat, inbox: seq<Arrival>, ops: seq<Op>, k: Key)
    ensures InOrder(Run(limit, inbox, ops), k) <==> RunKeepsOrder(limit, inbox, ops, k)
  {
    KeepingOrderDecides(limit, k);
    OrderOrMismatch(KeepingOrder(limit, k), limit, inbox, ops, k);
    if p: nat :| OutOfOrder(Run(limit, inbox, ops), k, p) {
      NotBoth(Run(limit, inbox, ops), k, p);
    }
  }

  /** In every run, matching waits included, no kept event is lost or duplicated. */
  lemma {:induction false} NothingLost(limit: nat, inbox: seq<Arrival>, ops: seq<Op>)
    ensures var l := Run(limit, inbox, ops); multiset(l.consumed) + multiset(l.world.queue) == multiset(l.kept)
    decreases |ops|
  {
    if ops == [] {
    } else {
      NothingLost(limit, inbox, ops[..|ops| - 1]);
      var before := Run(limit, inbox, ops[..|ops| - 1]);
      OperationConserves(limit, before.world, ops[|ops| - 1]);
      RecordKeepsBag(before, Do(limit, before.world, ops[|ops| - 1]));
    }
  }

  predicate NoOverflow(limit: nat, inbox: seq<Arrival>, ops: seq<Op>)
  {
    forall n :: 0 <= n < |ops| ==> At(limit, inbox, ops, n).result != Err(EventQueueExceeded)
  }

  /** The queue stays within its bound, and without overflow the kept events are exactly those that arrived. */
  lemma {:induction false} KeptIsArrived(limit: nat, inbox: seq<Arrival>, ops: seq<Op>)
    requires forall op :: op in ops ==> Proper(op)
    ensures var l := Run(limit, inbox, ops);
            && |l.world.queue| <= limit
            && |l.world.inbox| <= |inbox| && inbox == Received(inbox, l.world.inbox) + l.world.inbox
            && (NoOverflow(limit, inbox, ops) ==> l.kept == EventsIn(Received(inbox, l.world.inbox)))
    decreases |ops|
  {
    if ops == [] {
      assert inbox[..0] == [] && inbox == [] + inbox;
    } else {
      var init, last := ops[..|ops| - 1], ops[|ops| - 1];
      assert ops == init + [last];
      KeptIsArrived(limit, inbox, init);
      var before := Run(limit, inbox, init);
      assert last in ops;
      OperationAccounted(limit, before.world, last);
      var f := Do(limit, before.world, last);
      ReceivedConcat(inbox, before.world.inbox, f.world.inbox);
      if NoOverflow(limit, inbox, ops) {
        NoOverflowPrefix(limit, inbox, ops);
        assert f.kept + [] == f.kept;
      }
    }
  }

  lemma NoOverflowPrefix(limit: nat, inbox: seq<Arrival>, ops: seq<Op>)
    requires ops != [] && NoOverflow(limit, inbox, ops)
    ensures NoOverflow(limit, inbox, ops[..|ops| - 1])
    ensures Do(limit, Run(limit, inbox, ops[..|ops| - 1]).world, ops[|ops| - 1]).result != Err(EventQueueExceeded)
  {
    var init := ops[..|ops| - 1];
    forall n | 0 <= n < |init|
      ensures At(limit, inbox, init, n) == At(limit, inbox, ops, n)
    {
      assert init[..n] == ops[..n];
    }
    assert At(limit, inbox, ops, |ops| - 1).result != Err(EventQueueExceeded);
  }

  lemma ReceivedConcat(first: seq<Arrival>, mid: seq<Arrival>, after: seq<Arrival>)
    requires |mid| <= |first| && first == Received(first, mid) + mid
    requires |after| <= |mid| && mid == Received(mid, after) + after
    ensures first == Received(first, after) + after
    ensures EventsIn(Received(first, after)) == EventsIn(Received(first, mid)) + EventsIn(Received(mid, after))
  {
    assert first == (Received(first, mid) + Received(mid, after)) + after;
    assert Received(first, after) == Received(first, mid) + Received(mid, after);
    CollectConcat(EventsOf, Received(first, mid), Received(mid, after));
  }

  /**
   In every run without overflow the events handed out followed by those still queued are exactly the events that arrived, in
   arrival order, if and only if every operation kept the key's order.
   */
  lemma ArrivalOrder(limit: nat, inbox: seq<Arrival>, ops: seq<Op>, k: Key)
    requires (forall op :: op in ops ==> Proper(op)) && NoOverflow(limit, inbox, ops)
    ensures var l := Run(limit, inbox, ops);
            && |l.world.inbox| <= |inbox|
            && (Of(l.consumed, k) + Of(l.world.queue, k) == Of(EventsIn(Received(inbox, l.world.inbox)), k) <==>
                RunKeepsOrder(limit, inbox, ops, k))
  {
    KeptIsArrived(limit, inbox, ops);
    OrderPerKey(limit, inbox, ops, k);
  }

  // ---- What callers see ----

  /** A pop, take or wait returns the one event it hands out, and nothing when it hands out none; calls and discards return no event. */
  ghost predicate ReturnsHanded(op: Op, f: Effect)
  {
    if op.Call? then f.consumed == []
    else if op.DiscardEvents? then f.result == Ok(None)
    else if f.result.Ok? && f.result.value.Some? then |f.consumed| == 1 && f.consumed[0].params == f.result.value.value
    else f.consumed == []
  }

  lemma {:induction false} WaitLoopReturns(limit: nat, k: Key, matching: Json -> bool, patience: nat, w: World)
    ensures var f := WaitLoop(limit, k, matching, patience, w);
            if f.result.Ok? then f.result.value.Some? && |f.consumed| == 1 && f.consumed[0].params == f.result.value.value else f.consumed == []
    decreases |w.inbox|
  {
    if patience == 0 || w.inbox == [] {
    } else {
      var next := w.(inbox := w.inbox[1..]);
      WaitLoopReturns(limit, k, matching, patience - 1, next);
      WaitLoopReturns(limit, k, matching, patience - 1, next.(queue := w.queue + EventsOf(w.inbox[0])));
    }
  }

  lemma OperationReturns(limit: nat, w: World, op: Op)
    ensures ReturnsHanded(op, Do(limit, w, op))
  {
    match op
    case Call(session, fault, patience) =>
      if !Exhausted(w.nextId) && fault.None? {
        CallBalanced(limit, w.nextId, session, patience, w.(nextId := if w.nextId == U64_MAX then U64_MAX else w.nextId + 1));
      }
    case WaitForEvent(key, patience) => WaitLoopReturns(limit, key, Any, patience, w);
    case WaitForEventMatching(key, matching, patience) => WaitLoopReturns(limit, key, matching, patience, w);
    case _ =>
  }

  /** An event that left the queue or was received for a caller, and whether it was discarded. */
  datatype Leaving = Leaving(event: Event, discarded: bool)

  function LeavingBy(op: Op, f: Effect): (r: seq<Leaving>)
    ensures |r| == |f.consumed| && forall j :: 0 <= j < |r| ==> r[j] == Leaving(f.consumed[j], op.DiscardEvents?)
  {
    seq(|f.consumed|, j requires 0 <= j < |f.consumed| => Leaving(f.consumed[j], op.DiscardEvents?))
  }

  /** The events of the run's ledger that were handed out or discarded, each with its mark. */
  function Left(limit: nat, inbox: seq<Arrival>, ops: seq<Op>): (r: seq<Leaving>)
  {
    if ops == [] then []
    else Left(limit, inbox, ops[..|ops| - 1]) + LeavingBy(ops[|ops| - 1], At(limit, inbox, ops, |ops| - 1))
  }

  /** The values a run's pops, takes and waits returned, in order. */
  function Returned(limit: nat, inbox: seq<Arrival>, ops: seq<Op>): (values: seq<Json>)
  {
    if ops == [] then []
    else Returned(limit, inbox, ops[..|ops| - 1]) + ReturnedBy(ops[|ops| - 1], At(limit, inbox, ops, |ops| - 1).result)
  }

  function ReturnedBy(op: Op, result: Result<Option<Json>, Error>): (values: seq<Json>)
  {
    if !op.Call? && result.Ok? && result.value.Some? then [result.value.value] else []
  }

  function EventIn(l: Leaving): (events: seq<Event>) { [l.event] }

  function ParamsGiven(l: Leaving): (values: seq<Json>) { if l.discarded then [] else [l.event.params] }

  lemma LeavingSeen(op: Op, f: Effect)
    requires ReturnsHanded(op, f)
    ensures Collect(EventIn, LeavingBy(op, f)) == f.consumed
    ensures Collect(ParamsGiven, LeavingBy(op, f)) == ReturnedBy(op, f.result)
  {
    var r := LeavingBy(op, f);
    CollectSingles(EventIn, r, f.consumed);
    if op.DiscardEvents? {
      CollectNothing(ParamsGiven, r);
    } else if f.consumed != [] {
      CollectSingles(ParamsGiven, r, [f.consumed[0].params]);
    }
  }

  /** Callers see exactly the events of the ledger that were not discarded, in order. */
  lemma {:induction false} CallersSee(limit: nat, inbox: seq<Arrival>, ops: seq<Op>)
    ensures Collect(EventIn, Left(limit, inbox, ops)) == Run(limit, inbox, ops).consumed
    ensures Collect(ParamsGiven, Left(limit, inbox, ops)) == Returned(limit, inbox, ops)
    decreases |ops|
  {
    if ops == [] {
    } else {
      var init, last, f := ops[..|ops| - 1], ops[|ops| - 1], At(limit, inbox, ops, |ops| - 1);
      CallersSee(limit, inbox, init);
      OperationReturns(limit, Run(limit, inbox, init).world, last);
      LeavingSeen(last, f);
      CollectConcat(EventIn, Left(limit, inbox, init), LeavingBy(last, f));
      CollectConcat(ParamsGiven, Left(limit, inbox, init), LeavingBy(last, f));
    }
  }

  // ---- Command identities ----

  /** The id a call of a run granted, if it got one. */
  function IdAt(limit: nat, inbox: seq<Arrival>, ops: seq<Op>, n: nat): (id: Option<nat>)
    requires n < |ops|
  {
    var next := Run(limit, inbox, ops[..n]).world.nextId;
    if ops[n].Call? && !Exhausted(next) then Some(next) else None
  }

  lemma {:induction false} LoopsKeepId(limit: nat, id: nat, session: Option<string>, k: Key, matching: Json -> bool, patience: nat, w: World)
    ensures CallLoop(limit, id, session, patience, w).world.nextId == w.nextId
    ensures WaitLoop(limit, k, matching, patience, w).world.nextId == w.nextId
    decreases |w.inbox|
  {
    if patience == 0 || w.inbox == [] {
    } else {
      var next := w.(inbox := w.inbox[1..]);
      LoopsKeepId(limit, id, session, k, matching, patience - 1, next);
      LoopsKeepId(limit, id, session, k, matching, patience - 1, next.(queue := w.queue + EventsOf(w.inbox[0])));
    }
  }

  lemma NextIdStep(limit: nat, w: World, op: Op)
    ensures Do(limit, w, op).world.nextId == if op.Call? && !Exhausted(w.nextId) then w.nextId + 1 else w.nextId
  {
    match op
    case Call(session, fault, patience) =>
      if !Exhausted(w.nextId) {
        LoopsKeepId(limit, w.nextId, session, Key("", None), Any, patience, w.(nextId := w.nextId + 1));
      }
    case WaitForEvent(key, patience) => LoopsKeepId(limit, 0, None, key, Any, patience, w);
    case WaitForEventMatching(key, matching, patience) => LoopsKeepId(limit, 0, None, key, matching, patience, w);
    case _ =>
  }

  lemma NextIdMoves(limit: nat, w: World, op: Op)
    requires 1 <= w.nextId <= 9_007_199_254_740_992
    ensures Do(limit, w, op).world.nextId == if op.Call? && w.nextId <= 9_007_199_254_740_991 then w.nextId + 1 else w.nextId
  {
    NextIdStep(limit, w, op);
  }

  lemma NextIdRunStep(limit: nat, inbox: seq<Arrival>, ops: seq<Op>)
    requires ops != []
    ensures Run(limit, inbox, ops[..|ops| - 1]).world.nextId <= Run(limit, inbox, ops).world.nextId
  {
    NextIdStep(limit, Run(limit, inbox, ops[..|ops| - 1]).world, ops[|ops| - 1]);
  }

  lemma {:induction false} NextIdGrows(limit: nat, inbox: seq<Arrival>, ops: seq<Op>, n: nat)
    requires n <= |ops|
    ensures Run(limit, inbox, ops[..n]).world.nextId <= Run(limit, inbox, ops).world.nextId
    decreases |ops|
  {
    if n == |ops| {
      assert ops[..n] == ops;
    } else {
      var init := ops[..|ops| - 1];
      NextIdGrows(limit, inbox, init, n);
      assert init[..n] == ops[..n];
      NextIdRunStep(limit, inbox, ops);
    }
  }

  lemma NextIdPositive(limit: nat, inbox: seq<Arrival>, ops: seq<Op>)
    ensures 1 <= Run(limit, inbox, ops).world.nextId
  {
    assert ops[..0] == [];
    NextIdGrows(limit, inbox, ops, 0);
  }

  /** How many of these operations are calls. */
  function Calls(ops: seq<Op>): (n: nat)
  {
    if ops == [] then 0 else Calls(ops[..|ops| - 1]) + if ops[|ops| - 1].Call? then 1 else 0
  }

  lemma {:induction false} NextIdCounts(limit: nat, inbox: seq<Arrival>, ops: seq<Op>)
    ensures Run(limit, inbox, ops).world.nextId == if Calls(ops) < 9_007_199_254_740_991 then Calls(ops) + 1 else 9_007_199_254_740_992
    decreases |ops|
  {
    if ops == [] {
    } else {
      NextIdCounts(limit, inbox, ops[..|ops| - 1]);
      NextIdMoves(limit, Run(limit, inbox, ops[..|ops| - 1]).world, ops[|ops| - 1]);
    }
  }

  /** The ids of a run count its calls from one; beyond 2^53-1 calls are refused. */
  lemma IdsCountCalls(limit: nat, inbox: seq<Arrival>, ops: seq<Op>, n: nat)
    requires n < |ops| && ops[n].Call?
    ensures var number := Calls(ops[..n]) + 1;
            if number <= 9_007_199_254_740_991 then IdAt(limit, inbox, ops, n) == Some(number)
            else IdAt(limit, inbox, ops, n) == None && At(limit, inbox, ops, n).result == Err(CorrelationExhausted)
  {
    NextIdCounts(limit, inbox, ops[..n]);
  }

  /** Command ids of a run are strictly increasing and safe JavaScript integers. */
  lemma IdsIncrease(limit: nat, inbox: seq<Arrival>, ops: seq<Op>, m: nat, n: nat)
    requires m < n < |ops| && IdAt(limit, inbox, ops, m).Some? && IdAt(limit, inbox, ops, n).Some?
    ensures 1 <= IdAt(limit, inbox, ops, m).value < IdAt(limit, inbox, ops, n).value <= MAX_JS_UINT
  {
    NextIdPositive(limit, inbox, ops[..m]);
    NextIdGrows(limit, inbox, ops[..n], m + 1);
    assert ops[..n][..m + 1] == ops[..m + 1];
    assert ops[..m + 1][..m] == ops[..m];
    NextIdStep(limit, Run(limit, inbox, ops[..m]).world, ops[m]);
  }

  /** A successful call of a run was answered by a reply to its own id, so never by a late reply to an earlier call. */
  lemma RepliesAreOwn(limit: nat, inbox: seq<Arrival>, ops: seq<Op>, n: nat)
    requires n < |ops| && ops[n].Call? && At(limit, inbox, ops, n).result.Ok?
    ensures IdAt(limit, inbox, ops, n).Some?
    ensures var w, f := Run(limit, inbox, ops[..n]).world, At(limit, inbox, ops, n);
            && |f.world.inbox| < |w.inbox| && f.result.value.Some?
            && w.inbox[|w.inbox| - |f.world.inbox| - 1]
               == Text(Ok(Reply(IdAt(limit, inbox, ops, n).value, f.result.value.value, ops[n].session)))
    ensures forall m :: 0 <= m < n && IdAt(limit, inbox, ops, m).Some? ==>
                          IdAt(limit, inbox, ops, m).value != IdAt(limit, inbox, ops, n).value
  {
    var w := Run(limit, inbox, ops[..n]).world;
    CallOutcome(limit, w.nextId, ops[n].session, ops[n].patience, w.(nextId := w.nextId + 1));
    forall m | 0 <= m < n && IdAt(limit, inbox, ops, m).Some?
      ensures IdAt(limit, inbox, ops, m).value != IdAt(limit, inbox, ops, n).value
    {
      IdsIncrease(limit, inbox, ops, m, n);
    }
  }

  // ---- The transport ----

  class Transport {
    const limit: nat
    var inbox: seq<Arrival>
    var nextId: nat
    var events: seq<Event>

    ghost function View(): (w: World)
      reads this
    {
      World(inbox, nextId, events)
    }

    constructor (limit: nat, inbox: seq<Arrival>)
      ensures this.limit == limit && View() == World(inbox, 1, [])
    {
      this.limit, this.inbox, nextId, events := limit, inbox, 1, [];
    }

    method AllocateId() returns (r: Result<nat, Error>)
      modifies this`nextId
      ensures r == if 1 <= old(nextId) <= 9_007_199_254_740_991 then Ok(old(nextId)) else Err(CorrelationExhausted)
      ensures nextId == if r.Ok? then old(nextId) + 1 else old(nextId)
    {
      if nextId == 0 || nextId > MAX_JS_UINT {
        return Err(CorrelationExhausted);
      }
      r := Ok(nextId);
      nextId := nextId + 1;
    }

    method CallCommand(session: Option<string>, fault: Option<Error>, patience: nat) returns (r: Result<Option<Json>, Error>)
      modifies this
      ensures var f := Do(limit, old(View()), Call(session, fault, patience)); View() == f.world && r == f.result
    {
      var granted := AllocateId();
      if granted.Err? {
        return Err(granted.error);
      }
      if fault.Some? {
        return Err(fault.value);
      }
      var id, left := granted.value, patience;
      ghost var start := View();
      while left > 0 && inbox != []
        invariant CallLoop(limit, id, session, patience, start).world == CallLoop(limit, id, session, left, View()).world
        invariant CallLoop(limit, id, session, patience, start).result == CallLoop(limit, id, session, left, View()).result
        decreases |inbox|
      {
        var a := inbox[0];
        inbox := inbox[1..];
        left := left - 1;
        if !(a.Text? && a.parsed.Ok?) {
          var stop := Interruption(a);
          if stop.Some? {
            return Err(stop.value);
          }
          continue;
        }
        match a.parsed.value {
          case Reply(rid, result, rsession) =>
            return if rid == id && rsession == session then Ok(Some(result)) else Err(CorrelationMismatch);
          case Failure(rid, error, rsession) =>
            return if rid == id && rsession == session then Err(Remote(error)) else Err(CorrelationMismatch);
          case Unsolicited(e) =>
            if |events| >= limit {
              return Err(EventQueueExceeded);
            }
            events := events + [e];
        }
      }
      return if left == 0 then Err(Timeout) else Err(ConnectionLost);
    }

    method Pop() returns (r: Option<Event>)
      modifies this`events
      ensures View() == Do(limit, old(View()), PopEvent).world
      ensures r == if old(events) == [] then None else Some(old(events)[0])
    {
      if events == [] {
        return None;
      }
      r := Some(events[0]);
      events := RemoveAt(events, 0);
    }

    method Take(k: Key) returns (r: Option<Json>)
      modifies this`events
      ensures var f := Do(limit, old(View()), TakeEvent(k)); View() == f.world && f.result == Ok(r)
    {
      var i := Position(k, Any);
      if i == |events| {
        return None;
      }
      r := Some(events[i].params);
      events := RemoveAt(events, i);
    }

    /** The queue scan of `take_event` and `wait_for_event_matching`. */
    method Position(k: Key, matching: Json -> bool) returns (i: nat)
      ensures i == Find(events, k, matching, 0)
    {
      i := 0;
      while i < |events|
        invariant i <= |events| && Find(events, k, matching, 0) == Find(events, k, matching, i)
      {
        if KeyOf(events[i]) == k && matching(events[i].params) {
          return;
        }
        i := i + 1;
      }
    }

    method Discard(k: Key)
      modifies this`events
      ensures View() == Do(limit, old(View()), DiscardEvents(k)).world
    {
      var kept: seq<Event> := [];
      for i := 0 to |events|
        invariant events == old(events) && kept == Without(events[..i], k)
      {
        assert events[..i + 1][..i] == events[..i];
        if KeyOf(events[i]) != k {
          kept := kept + [events[i]];
        }
      }
      assert events[..|events|] == events;
      events := kept;
    }

    method WaitMatching(k: Key, matching: Json -> bool, patience: nat) returns (r: Result<Option<Json>, Error>)
      modifies this
      ensures var f := WaitFor(limit, k, matching, patience, old(View())); View() == f.world && r == f.result
    {
      if k.name == "" || k.session == Some("") {
        return Err(Protocol(InvalidMessage));
      }
      var i := Position(k, matching);
      if i < |events| {
        r := Ok(Some(events[i].params));
        events := RemoveAt(events, i);
        return;
      }
      var left := patience;
      while left > 0 && inbox != []
        invariant WaitLoop(limit, k, matching, patience, old(View())).world == WaitLoop(limit, k, matching, left, View()).world
        invariant WaitLoop(limit, k, matching, patience, old(View())).result == WaitLoop(limit, k, matching, left, View()).result
        decreases |inbox|
      {
        var a := inbox[0];
        inbox := inbox[1..];
        left := left - 1;
        if !(a.Text? && a.parsed.Ok?) {
          var stop := Interruption(a);
          if stop.Some? {
            return Err(stop.value);
          }
          continue;
        }
        if !a.parsed.value.Unsolicited? {
          return Err(CorrelationMismatch);
        }
        var e := a.parsed.value.event;
        if KeyOf(e) == k && matching(e.params) {
          return Ok(Some(e.params));
        }
        if |events| >= limit {
          return Err(EventQueueExceeded);
        }
        events := events + [e];
      }
      return if left == 0 then Err(Timeout) else Err(ConnectionLost);
    }
  }
}
