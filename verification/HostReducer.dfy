/**
 Reduction of durable Host events into a view.
 Source: clients/host-rs/src/reducer.rs; records from clients/host-rs/src/values.rs.
 Event names and activity states are strings in the source; here each listed string is a constructor and every other one is carried.
 */
module HostReducer {
  import opened Common
  import Sequences

  datatype ActivityState =
    | Prepared | WaitingForInput | InputReceived | Authorized | Running | Completed | Denied | Failed | Cancelled
    | AttentionRequired | OtherState(name: string)

  /** What follows `agent.activity.` in an event name. */
  datatype ActivityName =
    | RejectedActivity | FailedActivity | PreparedActivity | InputRequested | InputReceivedActivity | CancelledActivity
    | AuthorizedActivity | DeniedActivity | StartedActivity | CompletedActivity | AttentionActivity | Reconciled
    | OtherActivity(name: string)

  datatype EventName =
    | SessionCreated | TurnStarted | TurnCompleted | TurnSuspended | TurnStopped | TurnFailed
    | AgentActivity(activity: ActivityName) | OtherName(name: string)

  datatype Activity = Activity(apiVersion: string, id: string, kind: string, labelKey: string, state: ActivityState,
                               sourcePosition: nat, terminal: bool, safeCode: Option<string>)

  datatype Event = Event(apiVersion: string, sessionId: string, position: nat, name: EventName, turnId: string,
                         executionId: string, text: string, activity: Option<Activity>)

  datatype Terminal = TerminalCompleted | TerminalSuspended | TerminalStopped | TerminalFailed

  datatype View = View(cursor: nat, terminal: Option<Terminal>, text: string, unknown: seq<string>,
                       activities: map<string, Activity>, seen: map<nat, Event>)

  datatype Error = InvalidConfiguration | EventLimitExceeded | InvalidEvent | EventOrderViolation

  const V1 := "v1"

  // ---- Activities ----

  predicate Known(s: ActivityState) { !s.OtherState? }

  predicate TerminalState(s: ActivityState)
  {
    s.InputReceived? || s.Completed? || s.Denied? || s.Failed? || s.Cancelled?
  }

  predicate ValidActivity(a: Activity, position: nat)
  {
    && a.apiVersion == V1 && a.id != "" && a.kind != "" && a.labelKey != ""
    && 0 < a.sourcePosition <= position
    && a.terminal == (Known(a.state) && TerminalState(a.state))
    && a.safeCode != Some("")
  }

  function ExpectedState(name: ActivityName): (s: Option<ActivityState>)
  {
    match name
    case RejectedActivity => Some(Failed)
    case FailedActivity => Some(Failed)
    case PreparedActivity => Some(Prepared)
    case InputRequested => Some(WaitingForInput)
    case InputReceivedActivity => Some(InputReceived)
    case CancelledActivity => Some(Cancelled)
    case AuthorizedActivity => Some(Authorized)
    case DeniedActivity => Some(Denied)
    case StartedActivity => Some(Running)
    case CompletedActivity => Some(Completed)
    case AttentionActivity => Some(AttentionRequired)
    case _ => None
  }

  predicate ValidTransition(from: ActivityState, to: ActivityState)
  {
    match from
    case Prepared => to.Authorized? || to.Running? || to.Denied?
    case Authorized => to.Running? || to.Denied? || to.Failed?
    case Running => to.Completed? || to.Failed? || to.AttentionRequired?
    case AttentionRequired => to.Completed? || to.Failed?
    case WaitingForInput => to.InputReceived? || to.Cancelled?
    case _ => false
  }

  predicate FirstState(s: ActivityState) { s.Prepared? || s.WaitingForInput? || s.Failed? }

  function ReduceActivity(activities: map<string, Activity>, name: ActivityName, position: nat, a: Activity): (r: Result<map<string, Activity>, Error>)
  {
    if !ValidActivity(a, position) then Err(InvalidEvent)
    else if ExpectedState(name).Some? && a.state != ExpectedState(name).value then Err(InvalidEvent)
    else if name.Reconciled? && !a.state.Completed? && !a.state.Failed? then Err(InvalidEvent)
    else if a.id in activities &&
            (activities[a.id].kind != a.kind || activities[a.id].labelKey != a.labelKey
             || !ValidTransition(activities[a.id].state, a.state)) then Err(EventOrderViolation)
    else if a.id !in activities && !FirstState(a.state) then Err(EventOrderViolation)
    else Ok(activities[a.id := a])
  }

  // ---- One event ----

  /** The event's activity, when its name calls for one; Err when only one of the two is there. */
  function ActivityEffect(view: View, e: Event): (r: Result<map<string, Activity>, Error>)
  {
    if e.activity.Some? && e.name.AgentActivity? then ReduceActivity(view.activities, e.name.activity, e.position, e.activity.value)
    else if e.activity.None? && !e.name.AgentActivity? then Ok(view.activities)
    else Err(InvalidEvent)
  }

  function TerminalOf(name: EventName): (t: Option<Terminal>)
  {
    match name
    case TurnCompleted => Some(TerminalCompleted)
    case TurnSuspended => Some(TerminalSuspended)
    case TurnStopped => Some(TerminalStopped)
    case TurnFailed => Some(TerminalFailed)
    case _ => None
  }

  /** Applies an event at a new position. */
  function Apply(view: View, e: Event): (r: Result<View, Error>)
  {
    var effect := ActivityEffect(view, e);
    if effect.Err? then Err(effect.error)
    else Ok(View(
      e.position,
      if TerminalOf(e.name).Some? then TerminalOf(e.name) else view.terminal,
      if e.name.TurnCompleted? then e.text else view.text,
      if e.name.OtherName? && e.name.name !in view.unknown then view.unknown + [e.name.name] else view.unknown,
      effect.value,
      view.seen[e.position := e]))
  }

  predicate ValidHeader(session: string, e: Event)
  {
    e.apiVersion == V1 && e.sessionId == session && e.position > 0
  }

  /** Whether an event is new: neither applied before nor at or below the cursor saved when the call began. */
  predicate Fresh(saved: nat, view: View, e: Event)
  {
    e.position !in view.seen && e.position > saved
  }

  function StepEvent(session: string, saved: nat, view: View, e: Event): (r: Result<View, Error>)
  {
    if !ValidHeader(session, e) then Err(InvalidEvent)
    else if e.position in view.seen then if view.seen[e.position] == e then Ok(view) else Err(EventOrderViolation)
    else if e.position <= saved then Ok(view)
    else if e.position <= view.cursor || view.terminal.Some? then Err(EventOrderViolation)
    else Apply(view, e)
  }

  /** The events in order, up to the first error. */
  function Fold(session: string, saved: nat, view: View, events: seq<Event>): (r: Result<View, Error>)
  {
    if events == [] then Ok(view)
    else
      var earlier := Fold(session, saved, view, events[..|events| - 1]);
      if earlier.Err? then earlier else StepEvent(session, saved, earlier.value, events[|events| - 1])
  }

  function Reduce(session: string, events: seq<Event>, view: View, max: nat): (r: Result<View, Error>)
  {
    if session == "" || max == 0 then Err(InvalidConfiguration)
    else if |events| > max then Err(EventLimitExceeded)
    else Fold(session, view.cursor, view, events)
  }

  lemma {:induction false} FoldConcat(session: string, saved: nat, view: View, a: seq<Event>, b: seq<Event>)
    ensures Fold(session, saved, view, a + b) ==
            var first := Fold(session, saved, view, a); if first.Err? then first else Fold(session, saved, first.value, b)
    decreases |b|
  {
    if b == [] {
      assert a + b == a;
    } else {
      assert (a + b)[..|a + b| - 1] == a + b[..|b| - 1];
      FoldConcat(session, saved, view, a, b[..|b| - 1]);
    }
  }

  /** One more event of a batch; an error there is the batch's result. */
  lemma FoldStep(session: string, saved: nat, view: View, events: seq<Event>, k: nat)
    requires k < |events| && Fold(session, saved, view, events[..k]).Ok?
    ensures var r := StepEvent(session, saved, Fold(session, saved, view, events[..k]).value, events[k]);
            Fold(session, saved, view, events[..k + 1]) == r && (r.Err? ==> Fold(session, saved, view, events) == r)
  {
    assert events[..k + 1][..k] == events[..k];
    assert events == events[..k + 1] + events[k + 1..];
    FoldConcat(session, saved, view, events[..k + 1], events[k + 1..]);
  }

  /** The reducer's loop over a view it owns. */
  method ReduceHostEvents(session: string, events: seq<Event>, initial: View, max: nat) returns (r: Result<View, Error>)
    ensures r == Reduce(session, events, initial, max)
  {
    if session == "" || max == 0 {
      return Err(InvalidConfiguration);
    }
    if |events| > max {
      return Err(EventLimitExceeded);
    }
    var view, saved := initial, initial.cursor;
    for k := 0 to |events|
      invariant Fold(session, saved, initial, events[..k]) == Ok(view)
    {
      var e := events[k];
      FoldStep(session, saved, initial, events, k);
      if !ValidHeader(session, e) {
        return Err(InvalidEvent);
      }
      if e.position in view.seen {
        if view.seen[e.position] != e {
          return Err(EventOrderViolation);
        }
        continue;
      }
      if e.position <= saved {
        continue;
      }
      if e.position <= view.cursor || view.terminal.Some? {
        return Err(EventOrderViolation);
      }
      var effect := ActivityEffect(view, e);
      if effect.Err? {
        return Err(effect.error);
      }
      view := view.(cursor := e.position, seen := view.seen[e.position := e], activities := effect.value);
      if TerminalOf(e.name).Some? {
        view := view.(terminal := TerminalOf(e.name));
        if e.name.TurnCompleted? {
          view := view.(text := e.text);
        }
      } else if e.name.OtherName? && e.name.name !in view.unknown {
        view := view.(unknown := view.unknown + [e.name.name]);
      }
    }
    assert events[..|events|] == events;
    return Ok(view);
  }

  // ---- Replay ----

  /** The view already accounts for the event: it was applied, or lies at or below the cursor without having been applied. */
  ghost predicate Absorbed(session: string, saved: nat, view: View, e: Event)
  {
    && ValidHeader(session, e)
    && if e.position in view.seen then view.seen[e.position] == e else e.position <= saved
  }

  ghost predicate Extends(v: View, w: View)
  {
    v.cursor <= w.cursor && forall p :: p in v.seen ==> p in w.seen && w.seen[p] == v.seen[p]
  }

  /** A step keeps what was seen, adds only a position above both cursors, and absorbs its event. */
  lemma StepAbsorbs(session: string, saved: nat, view: View, e: Event)
    requires StepEvent(session, saved, view, e).Ok?
    ensures var w := StepEvent(session, saved, view, e).value;
            && Extends(view, w) && Absorbed(session, saved, w, e)
            && forall p :: p in w.seen && p !in view.seen ==> p > saved
  {
  }

  lemma {:induction false} FoldAbsorbs(session: string, saved: nat, view: View, events: seq<Event>)
    requires Fold(session, saved, view, events).Ok?
    ensures var w := Fold(session, saved, view, events).value;
            && Extends(view, w)
            && (forall p :: p in w.seen && p !in view.seen ==> p > saved)
            && forall e :: e in events ==> Absorbed(session, saved, w, e)
    decreases |events|
  {
    if events == [] {
    } else {
      var init, last := events[..|events| - 1], events[|events| - 1];
      FoldAbsorbs(session, saved, view, init);
      var v := Fold(session, saved, view, init).value;
      StepAbsorbs(session, saved, v, last);
      assert events == init + [last];
    }
  }

  lemma {:induction false} AbsorbedIsNoOp(session: string, saved: nat, view: View, events: seq<Event>)
    requires forall e :: e in events ==> Absorbed(session, saved, view, e)
    ensures Fold(session, saved, view, events) == Ok(view)
    decreases |events|
  {
    if events == [] {
    } else {
      var init, last := events[..|events| - 1], events[|events| - 1];
      assert events == init + [last];
      AbsorbedIsNoOp(session, saved, view, init);
      assert Absorbed(session, saved, view, last);
    }
  }

  /** Events drawn from a reduced batch, in any order and with repeats, leave its view unchanged, even after a terminal. */
  lemma ReplayIsNoOp(session: string, events: seq<Event>, view: View, max: nat, replay: seq<Event>, replayMax: nat)
    requires Reduce(session, events, view, max).Ok?
    requires forall e :: e in replay ==> e in events
    requires |replay| <= replayMax && replayMax > 0
    ensures Reduce(session, replay, Reduce(session, events, view, max).value, replayMax) == Reduce(session, events, view, max)
  {
    FoldAbsorbs(session, view.cursor, view, events);
    var w := Reduce(session, events, view, max).value;
    assert forall e :: e in replay ==> Absorbed(session, w.cursor, w, e);
    AbsorbedIsNoOp(session, w.cursor, w, replay);
  }

  // ---- Splitting and joining batches ----

  /** A later saved cursor turns no success into a failure and changes no view. */
  lemma {:induction false} LaterCursor(session: string, saved: nat, later: nat, view: View, events: seq<Event>)
    requires saved <= later <= view.cursor && Fold(session, saved, view, events).Ok?
    ensures Fold(session, later, view, events) == Fold(session, saved, view, events)
    decreases |events|
  {
    if events == [] {
    } else {
      var init := events[..|events| - 1];
      LaterCursor(session, saved, later, view, init);
      FoldAbsorbs(session, saved, view, init);
    }
  }

  /** A batch that succeeds can be split anywhere, with the same view in the end. */
  lemma SplitBatch(session: string, a: seq<Event>, b: seq<Event>, view: View, max: nat)
    requires Reduce(session, a + b, view, max).Ok?
    ensures Reduce(session, a, view, max).Ok?
    ensures Reduce(session, b, Reduce(session, a, view, max).value, max) == Reduce(session, a + b, view, max)
  {
    FoldConcat(session, view.cursor, view, a, b);
    FoldAbsorbs(session, view.cursor, view, a);
    var mid := Fold(session, view.cursor, view, a).value;
    LaterCursor(session, view.cursor, mid.cursor, mid, b);
  }

  /** The second batch holds no event in a gap the first one left behind its cursor. */
  ghost predicate NoGapEvents(saved: nat, mid: View, b: seq<Event>)
  {
    forall e :: e in b ==> !(saved < e.position <= mid.cursor && e.position !in mid.seen)
  }

  /** Over a batch without gap events the earlier saved cursor does as well as the later one. */
  lemma {:induction false} EarlierCursor(session: string, saved: nat, mid: View, b: seq<Event>)
    requires saved <= mid.cursor && Fold(session, mid.cursor, mid, b).Ok? && NoGapEvents(saved, mid, b)
    ensures Fold(session, saved, mid, b) == Fold(session, mid.cursor, mid, b)
    decreases |b|
  {
    if b == [] {
    } else {
      var init, last := b[..|b| - 1], b[|b| - 1];
      assert b == init + [last];
      EarlierCursor(session, saved, mid, init);
      FoldAbsorbs(session, mid.cursor, mid, init);
      assert last in b;
    }
  }

  lemma StepRefusesGap(session: string, saved: nat, mid: View, w: View, e: Event)
    requires Extends(mid, w) && (forall p :: p in w.seen && p !in mid.seen ==> p > mid.cursor)
    requires StepEvent(session, saved, w, e).Ok?
    ensures !(saved < e.position <= mid.cursor && e.position !in mid.seen)
  {
  }

  /** A gap event is refused by the earlier saved cursor. */
  lemma {:induction false} GapEventFails(session: string, saved: nat, mid: View, b: seq<Event>)
    requires saved <= mid.cursor && Fold(session, saved, mid, b).Ok?
    ensures NoGapEvents(saved, mid, b)
    decreases |b|
  {
    if b == [] {
    } else {
      var init, last := b[..|b| - 1], b[|b| - 1];
      assert b == init + [last];
      GapEventFails(session, saved, mid, init);
      LaterCursor(session, saved, mid.cursor, mid, init);
      FoldAbsorbs(session, mid.cursor, mid, init);
      StepRefusesGap(session, saved, mid, Fold(session, saved, mid, init).value, last);
    }
  }

  /**
   Two batches that succeed one after the other succeed as one batch exactly when they fit the limit
   together and the second holds no event in a gap behind the first one's cursor.
   */
  lemma JoinBatches(session: string, a: seq<Event>, b: seq<Event>, view: View, max: nat)
    requires Reduce(session, a, view, max).Ok?
    requires Reduce(session, b, Reduce(session, a, view, max).value, max).Ok?
    ensures var mid := Reduce(session, a, view, max).value;
            Reduce(session, a + b, view, max).Ok? <==> |a| + |b| <= max && NoGapEvents(view.cursor, mid, b)
    ensures Reduce(session, a + b, view, max).Ok? ==>
              Reduce(session, a + b, view, max) == Reduce(session, b, Reduce(session, a, view, max).value, max)
  {
    var mid := Reduce(session, a, view, max).value;
    FoldConcat(session, view.cursor, view, a, b);
    FoldAbsorbs(session, view.cursor, view, a);
    if NoGapEvents(view.cursor, mid, b) {
      EarlierCursor(session, view.cursor, mid, b);
    }
    if Fold(session, view.cursor, mid, b).Ok? {
      GapEventFails(session, view.cursor, mid, b);
    }
  }

  function Plain(session: string, position: nat): (e: Event)
  {
    Event(V1, session, position, TurnStarted, "", "", "", None)
  }

  const EMPTY := View(0, None, "", [], map[], map[])

  /** Joining can fail: position 1 after position 2 is skipped in a second call and refused in one. */
  lemma JoinCanFail()
    ensures var a, b := [Plain("s", 2)], [Plain("s", 1)];
            && Reduce("s", a, EMPTY, 4).Ok?
            && Reduce("s", b, Reduce("s", a, EMPTY, 4).value, 4).Ok?
            && Reduce("s", a + b, EMPTY, 4) == Err(EventOrderViolation)
  {
    var x, y := Plain("s", 2), Plain("s", 1);
    FoldOne("s", 0, EMPTY, x);
    var mid := StepEvent("s", 0, EMPTY, x).value;
    FoldOne("s", 2, mid, y);
    FoldOne("s", 0, mid, y);
    FoldConcat("s", 0, EMPTY, [x], [y]);
  }

  lemma FoldOne(session: string, saved: nat, view: View, e: Event)
    ensures Fold(session, saved, view, [e]) == StepEvent(session, saved, view, e)
  {
    assert [e][..0] == [];
  }

  // ---- Applied events ----

  /** The events a batch applied, in order. */
  function Applied(session: string, saved: nat, view: View, events: seq<Event>): (applied: seq<Event>)
    requires Fold(session, saved, view, events).Ok?
  {
    if events == [] then []
    else
      var init, last := events[..|events| - 1], events[|events| - 1];
      var before := Fold(session, saved, view, init).value;
      Applied(session, saved, view, init) + if Fresh(saved, before, last) then [last] else []
  }

  /** Applied positions ascend above the starting cursor, which follows them. */
  lemma {:induction false} AppliedAscend(session: string, saved: nat, view: View, events: seq<Event>)
    requires Fold(session, saved, view, events).Ok?
    ensures var applied, w := Applied(session, saved, view, events), Fold(session, saved, view, events).value;
            && w.cursor == (if applied == [] then view.cursor else applied[|applied| - 1].position)
            && (forall k :: 0 <= k < |applied| ==> view.cursor < applied[k].position <= w.cursor)
            && (forall j, k :: 0 <= j < k < |applied| ==> applied[j].position < applied[k].position)
    decreases |events|
  {
    if events == [] {
    } else {
      AppliedStep(session, saved, view, events);
      AppliedAscend(session, saved, view, events[..|events| - 1]);
    }
  }

  /** At most one terminal is applied, and as the last applied event; none is applied to a view that has one. */
  lemma {:induction false} OneTerminal(session: string, saved: nat, view: View, events: seq<Event>)
    requires Fold(session, saved, view, events).Ok?
    ensures var applied, w := Applied(session, saved, view, events), Fold(session, saved, view, events).value;
            && (view.terminal.Some? ==> applied == [] && w == view)
            && (forall k :: 0 <= k < |applied| && TerminalOf(applied[k].name).Some? ==> k == |applied| - 1)
            && (view.terminal.None? ==>
                  w.terminal == if applied == [] then None else TerminalOf(applied[|applied| - 1].name))
    decreases |events|
  {
    if events == [] {
    } else {
      AppliedStep(session, saved, view, events);
      OneTerminal(session, saved, view, events[..|events| - 1]);
    }
  }

  function OtherName(e: Event): (names: seq<string>) { if e.name.OtherName? then [e.name.name] else [] }

  predicate NoRepeats(names: seq<string>) { forall j, k :: 0 <= j < k < |names| ==> names[j] != names[k] }

  /** What was seen since an earlier view: every applied event at its position, and nothing else. */
  ghost predicate RecallsSeen(before: map<nat, Event>, seen: map<nat, Event>, applied: seq<Event>)
  {
    && (forall e :: e in applied ==> e.position in seen && seen[e.position] == e)
    && (forall p :: p in seen ==> (p in before && seen[p] == before[p]) || seen[p] in applied)
  }

  /** The unknown names recorded since an earlier view, each once. */
  ghost predicate RecallsNames(before: seq<string>, unknown: seq<string>, names: seq<string>)
  {
    && before <= unknown && (NoRepeats(before) ==> NoRepeats(unknown))
    && (forall n :: n in unknown <==> n in before || n in names)
  }

  /** What a view recalls of the events applied since an earlier one. */
  ghost predicate Recalls(view: View, w: View, applied: seq<Event>)
  {
    && RecallsSeen(view.seen, w.seen, applied) && RecallsNames(view.unknown, w.unknown, Sequences.Collect(OtherName, applied))
    && w.text == if applied != [] && applied[|applied| - 1].name.TurnCompleted? then applied[|applied| - 1].text else view.text
  }

  lemma SeenGrows(before: map<nat, Event>, seen: map<nat, Event>, applied: seq<Event>, e: Event)
    requires RecallsSeen(before, seen, applied) && e.position !in seen
    ensures RecallsSeen(before, seen[e.position := e], applied + [e])
  {
    assert forall x :: x in applied + [e] <==> x in applied || x == e;
  }

  lemma NamesGrow(before: seq<string>, unknown: seq<string>, names: seq<string>, n: string)
    requires RecallsNames(before, unknown, names)
    ensures RecallsNames(before, if n in unknown then unknown else unknown + [n], names + [n])
  {
    assert forall x :: x in names + [n] <==> x in names || x == n;
    assert forall x :: x in unknown + [n] <==> x in unknown || x == n;
  }

  lemma ApplyRecalls(view: View, v: View, applied: seq<Event>, e: Event)
    requires Recalls(view, v, applied) && Apply(v, e).Ok? && e.position !in v.seen
    requires applied != [] ==> TerminalOf(applied[|applied| - 1].name).None?
    ensures Recalls(view, Apply(v, e).value, applied + [e])
  {
    Sequences.CollectAppend(OtherName, applied, e);
    SeenGrows(view.seen, v.seen, applied, e);
    if e.name.OtherName? {
      NamesGrow(view.unknown, v.unknown, Sequences.Collect(OtherName, applied), e.name.name);
    } else {
      assert Sequences.Collect(OtherName, applied) + [] == Sequences.Collect(OtherName, applied);
    }
  }

  /** A new event is applied only while no terminal has been. */
  lemma AppliedWhileOpen(session: string, saved: nat, view: View, init: seq<Event>, e: Event)
    requires Fold(session, saved, view, init).Ok?
    requires var v := Fold(session, saved, view, init).value; Fresh(saved, v, e) && StepEvent(session, saved, v, e).Ok?
    ensures var applied := Applied(session, saved, view, init); applied != [] ==> TerminalOf(applied[|applied| - 1].name).None?
  {
    OneTerminal(session, saved, view, init);
  }

  lemma AppliedStep(session: string, saved: nat, view: View, events: seq<Event>)
    requires events != [] && Fold(session, saved, view, events).Ok?
    ensures var init, last := events[..|events| - 1], events[|events| - 1];
            && Fold(session, saved, view, init).Ok?
            && var v, earlier := Fold(session, saved, view, init).value, Applied(session, saved, view, init);
            && StepEvent(session, saved, v, last) == Fold(session, saved, view, events)
            && if Fresh(saved, v, last) then Apply(v, last).Ok? && Fold(session, saved, view, events) == Apply(v, last)
                 && Applied(session, saved, view, events) == earlier + [last]
               else Fold(session, saved, view, events) == Ok(v) && Applied(session, saved, view, events) == earlier
  {
  }

  /** The view's text, unknown names and seen events are exactly those of the events applied. */
  lemma {:induction false} ViewRecalls(session: string, saved: nat, view: View, events: seq<Event>)
    requires Fold(session, saved, view, events).Ok?
    ensures Recalls(view, Fold(session, saved, view, events).value, Applied(session, saved, view, events))
    decreases |events|
  {
    if events == [] {
    } else {
      var init, last := events[..|events| - 1], events[|events| - 1];
      AppliedStep(session, saved, view, events);
      ViewRecalls(session, saved, view, init);
      var v := Fold(session, saved, view, init).value;
      if Fresh(saved, v, last) {
        AppliedWhileOpen(session, saved, view, init, last);
        ApplyRecalls(view, v, Applied(session, saved, view, init), last);
      }
    }
  }

  // ---- Activities over whole runs ----

  /** The activities a sequence of events leaves, each as its latest event has it. */
  function Latest(activities: map<string, Activity>, applied: seq<Event>): (r: map<string, Activity>)
  {
    if applied == [] then activities
    else
      var earlier, last := Latest(activities, applied[..|applied| - 1]), applied[|applied| - 1].activity;
      if last.Some? then earlier[last.value.id := last.value] else earlier
  }

  lemma {:induction false} ActivitiesAreLatest(session: string, saved: nat, view: View, events: seq<Event>)
    requires Fold(session, saved, view, events).Ok?
    ensures Fold(session, saved, view, events).value.activities == Latest(view.activities, Applied(session, saved, view, events))
    decreases |events|
  {
    if events == [] {
    } else {
      var init, last := events[..|events| - 1], events[|events| - 1];
      AppliedStep(session, saved, view, events);
      ActivitiesAreLatest(session, saved, view, init);
      var earlier := Applied(session, saved, view, init);
      assert (earlier + [last])[..|earlier|] == earlier;
    }
  }

  /** Every stored activity is filed under its id, has a known state and carries the matching terminal flag. */
  ghost predicate ActivitiesSound(activities: map<string, Activity>)
  {
    forall id :: id in activities ==>
                   activities[id].id == id && Known(activities[id].state) && activities[id].terminal == TerminalState(activities[id].state)
  }

  /** How far along a state can be: the most updates an activity can have had when it is stored. */
  function Rank(s: ActivityState): (n: nat)
    ensures n <= 5
  {
    match s
    case Prepared => 1
    case WaitingForInput => 1
    case Authorized => 2
    case Running => 3
    case AttentionRequired => 4
    case _ => 5
  }

  /** Ids of the activities a sequence of events updates, in order. */
  function ActivityIds(events: seq<Event>): (ids: seq<string>) { Sequences.Collect(ActivityId, events) }

  function ActivityId(e: Event): (ids: seq<string>) { if e.activity.Some? then [e.activity.value.id] else [] }

  ghost function Updated(events: seq<Event>, id: string): (n: nat)
  {
    multiset(ActivityIds(events))[id]
  }

  /** The rank an id has reached; an id without an activity has none. */
  function RankOf(activities: map<string, Activity>, id: string): (n: nat)
    ensures n <= 5
  {
    if id in activities then Rank(activities[id].state) else 0
  }

  /** Between two tables every id has risen by at least one rank per update. */
  ghost predicate Counted(base: map<string, Activity>, activities: map<string, Activity>, applied: seq<Event>)
  {
    forall id :: RankOf(base, id) + Updated(applied, id) <= RankOf(activities, id)
  }

  /** Kind and label of every known activity stay, and a terminal activity stays as it is. */
  ghost predicate Preserves(a: map<string, Activity>, b: map<string, Activity>)
  {
    forall id :: id in a ==>
                   && id in b && a[id].kind == b[id].kind && a[id].labelKey == b[id].labelKey
                   && (a[id].terminal ==> b[id] == a[id])
  }

  lemma PreservesTransitive(a: map<string, Activity>, b: map<string, Activity>, c: map<string, Activity>)
    requires Preserves(a, b) && Preserves(b, c)
    ensures Preserves(a, c)
  {
  }

  lemma UpdatedStep(applied: seq<Event>, e: Event, id: string)
    ensures Updated(applied + [e], id) == Updated(applied, id) + if e.activity.Some? && e.activity.value.id == id then 1 else 0
  {
    Sequences.CollectAppend(ActivityId, applied, e);
  }

  lemma ApplyKeepsSound(view: View, e: Event)
    requires ActivitiesSound(view.activities) && Apply(view, e).Ok?
    ensures ActivitiesSound(Apply(view, e).value.activities)
    ensures Preserves(view.activities, Apply(view, e).value.activities)
  {
  }

  /** Every update of an activity raises its rank. */
  lemma RankGrows(activities: map<string, Activity>, name: ActivityName, position: nat, a: Activity)
    requires ReduceActivity(activities, name, position, a).Ok?
    ensures RankOf(activities, a.id) < Rank(a.state)
  {
  }

  lemma ApplyCounts(base: map<string, Activity>, view: View, e: Event, applied: seq<Event>)
    requires Counted(base, view.activities, applied) && Apply(view, e).Ok?
    ensures Counted(base, Apply(view, e).value.activities, applied + [e])
  {
    var next := Apply(view, e).value.activities;
    if e.activity.Some? {
      RankGrows(view.activities, e.name.activity, e.position, e.activity.value);
    }
    forall id
      ensures RankOf(base, id) + Updated(applied + [e], id) <= RankOf(next, id)
    {
      UpdatedStep(applied, e, id);
      assert RankOf(base, id) + Updated(applied, id) <= RankOf(view.activities, id);
    }
  }

  lemma {:induction false} FoldActivities(session: string, saved: nat, view: View, events: seq<Event>, base: map<string, Activity>, earlier: seq<Event>)
    requires Fold(session, saved, view, events).Ok?
    requires ActivitiesSound(view.activities) && Counted(base, view.activities, earlier)
    ensures var next := Fold(session, saved, view, events).value.activities;
            ActivitiesSound(next) && Counted(base, next, earlier + Applied(session, saved, view, events)) && Preserves(view.activities, next)
    decreases |events|
  {
    if events == [] {
      assert earlier + [] == earlier;
    } else {
      var init, last := events[..|events| - 1], events[|events| - 1];
      AppliedStep(session, saved, view, events);
      FoldActivities(session, saved, view, init, base, earlier);
      var mid, applied := Fold(session, saved, view, init).value, Applied(session, saved, view, init);
      if Fresh(saved, mid, last) {
        ApplyKeepsSound(mid, last);
        ApplyCounts(base, mid, last, earlier + applied);
        Sequences.Associate(earlier, applied, [last]);
        PreservesTransitive(view.activities, mid.activities, Apply(mid, last).value.activities);
      }
    }
  }

  /** Successive reductions, each from the view the previous one returned. */
  function Batches(session: string, view: View, batches: seq<seq<Event>>, max: nat): (r: Result<View, Error>)
  {
    if batches == [] then Ok(view)
    else
      var earlier := Batches(session, view, batches[..|batches| - 1], max);
      if earlier.Err? then earlier else Reduce(session, batches[|batches| - 1], earlier.value, max)
  }

  function AllApplied(session: string, view: View, batches: seq<seq<Event>>, max: nat): (applied: seq<Event>)
    requires Batches(session, view, batches, max).Ok?
  {
    if batches == [] then []
    else
      var before := Batches(session, view, batches[..|batches| - 1], max).value;
      AllApplied(session, view, batches[..|batches| - 1], max)
      + Applied(session, before.cursor, before, batches[|batches| - 1])
  }

  /**
   Over any successful reductions from a sound view: states stay known and flags right, kinds, labels and terminal activities
   stay, and every update raises a rank.
   */
  lemma {:induction false} ActivityRuns(session: string, view: View, batches: seq<seq<Event>>, max: nat)
    requires ActivitiesSound(view.activities) && Batches(session, view, batches, max).Ok?
    ensures var w := Batches(session, view, batches, max).value;
            && ActivitiesSound(w.activities) && Preserves(view.activities, w.activities)
            && Counted(view.activities, w.activities, AllApplied(session, view, batches, max))
    decreases |batches|
  {
    if batches == [] {
    } else {
      var init, last := batches[..|batches| - 1], batches[|batches| - 1];
      ActivityRuns(session, view, init, max);
      var before := Batches(session, view, init, max).value;
      FoldActivities(session, before.cursor, before, last, view.activities, AllApplied(session, view, init, max));
      PreservesTransitive(view.activities, before.activities, Batches(session, view, batches, max).value.activities);
    }
  }

  // ---- The total number of updates ----

  lemma {:induction false} BoundedSize(m: multiset<string>, keys: set<string>)
    requires forall x :: m[x] <= if x in keys then 5 else 0
    ensures |m| <= 5 * |keys|
    decreases |keys|
  {
    if keys == {} {
      assert m == multiset{};
    } else {
      var x :| x in keys;
      var rest := m[x := 0];
      assert |m| == |rest| + m[x];
      BoundedSize(rest, keys - {x});
    }
  }

  /** Over any successful reductions from a sound view, applied activity events number at most five per activity. */
  lemma UpdatesPerActivity(session: string, view: View, batches: seq<seq<Event>>, max: nat)
    requires ActivitiesSound(view.activities) && Batches(session, view, batches, max).Ok?
    ensures |ActivityIds(AllApplied(session, view, batches, max))| <= 5 * |Batches(session, view, batches, max).value.activities.Keys|
  {
    ActivityRuns(session, view, batches, max);
    var activities, applied := Batches(session, view, batches, max).value.activities, AllApplied(session, view, batches, max);
    forall id
      ensures multiset(ActivityIds(applied))[id] <= if id in activities.Keys then 5 else 0
    {
      assert RankOf(view.activities, id) + Updated(applied, id) <= RankOf(activities, id);
    }
    BoundedSize(multiset(ActivityIds(applied)), activities.Keys);
  }
}
