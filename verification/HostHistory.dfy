/**
 What the Host reducer accepts, said over the events applied so far: an event is legal after them when they admit it.
 Source: clients/host-rs/src/reducer.rs.
 */
module HostHistory {
  import opened Common
  import opened HostReducer

  type History = seq<Event>

  // ---- What a history says ----

  predicate EndsTurn(e: Event)
  {
    e.name == TurnCompleted || e.name == TurnSuspended || e.name == TurnStopped || e.name == TurnFailed
  }

  ghost predicate Ended(h: History) { exists e :: e in h && EndsTurn(e) }

  function LastPosition(h: History): (p: nat) { if h == [] then 0 else h[|h| - 1].position }

  predicate About(e: Event, id: string) { e.activity.Some? && e.activity.value.id == id }

  /** The activity as the last event about it has it. */
  function LastAbout(h: History, id: string): (a: Option<Activity>)
  {
    if h == [] then None
    else if About(h[|h| - 1], id) then h[|h| - 1].activity
    else LastAbout(h[..|h| - 1], id)
  }

  // ---- Legal histories ----

  const FIRST_STATES := {Prepared, WaitingForInput, Failed}

  /** Every pair of states an activity may go through one after the other. */
  const STEPS: set<(ActivityState, ActivityState)> :=
    {(Prepared, Authorized), (Prepared, Running), (Prepared, Denied),
     (Authorized, Running), (Authorized, Denied), (Authorized, Failed),
     (Running, Completed), (Running, Failed), (Running, AttentionRequired),
     (AttentionRequired, Completed), (AttentionRequired, Failed),
     (WaitingForInput, InputReceived), (WaitingForInput, Cancelled)}

  const FINAL_STATES := {InputReceived, Completed, Denied, Failed, Cancelled}

  predicate WellFormed(a: Activity, position: nat)
  {
    && a.apiVersion == "v1" && a.id != "" && a.kind != "" && a.labelKey != "" && a.safeCode != Some("")
    && 1 <= a.sourcePosition && a.sourcePosition <= position && (a.terminal <==> a.state in FINAL_STATES)
  }

  /** The state an event's name announces; a reconciliation is to one of two, and an unlisted name says nothing. */
  predicate Announces(name: ActivityName, state: ActivityState)
  {
    match name
    case PreparedActivity => state == Prepared
    case AuthorizedActivity => state == Authorized
    case StartedActivity => state == Running
    case CompletedActivity => state == Completed
    case FailedActivity | RejectedActivity => state == Failed
    case DeniedActivity => state == Denied
    case CancelledActivity => state == Cancelled
    case InputRequested => state == WaitingForInput
    case InputReceivedActivity => state == InputReceived
    case AttentionActivity => state == AttentionRequired
    case Reconciled => state == Completed || state == Failed
    case OtherActivity(_) => true
  }

  /** An activity event has an activity that says what its name announces, and no other event has one. */
  predicate Coherent(e: Event)
  {
    if e.name.AgentActivity? then
      e.activity.Some? && WellFormed(e.activity.value, e.position) && Announces(e.name.activity, e.activity.value.state)
    else e.activity.None?
  }

  /** A new activity begins in a first state, and a known one keeps its kind and label and takes a listed step. */
  predicate Continues(past: History, a: Activity)
  {
    match LastAbout(past, a.id)
    case None => a.state in FIRST_STATES
    case Some(b) => a.kind == b.kind && a.labelKey == b.labelKey && (b.state, a.state) in STEPS
  }

  predicate Header(session: string, e: Event) { e.apiVersion == "v1" && e.sessionId == session && e.position != 0 }

  /** Whether `e` may be applied after `past`. */
  ghost predicate LegalNext(session: string, past: History, e: Event)
  {
    && Header(session, e) && LastPosition(past) < e.position && !Ended(past) && Coherent(e)
    && (e.activity.Some? ==> Continues(past, e.activity.value))
  }

  ghost predicate LegalAt(session: string, h: History, k: nat)
    requires k < |h|
  {
    LegalNext(session, h[..k], h[k])
  }

  ghost predicate Legal(session: string, h: History) { forall k :: 0 <= k < |h| ==> LegalAt(session, h, k) }

  // ---- The view is a summary of the applied events ----

  ghost predicate SeenIs(seen: map<nat, Event>, h: History)
  {
    && (forall e :: e in h ==> e.position in seen && seen[e.position] == e)
    && (forall p :: p in seen ==> seen[p] in h && seen[p].position == p)
  }

  ghost predicate ActivitiesAre(activities: map<string, Activity>, h: History)
  {
    forall id :: LastAbout(h, id) == if id in activities then Some(activities[id]) else None
  }

  /** The terminal and text are those of an event that ended the turn. */
  ghost predicate OutcomeIs(view: View, h: History)
  {
    && (view.terminal.Some? <==> Ended(h))
    && (h != [] && EndsTurn(h[|h| - 1]) ==>
          match h[|h| - 1].name
          case TurnCompleted => view.terminal == Some(TerminalCompleted) && view.text == h[|h| - 1].text
          case TurnSuspended => view.terminal == Some(TerminalSuspended)
          case TurnStopped => view.terminal == Some(TerminalStopped)
          case TurnFailed => view.terminal == Some(TerminalFailed)
          case _ => true)
  }

  ghost predicate Summarises(view: View, h: History)
  {
    && view.cursor == LastPosition(h) && SeenIs(view.seen, h) && ActivitiesAre(view.activities, h) && OutcomeIs(view, h)
    && forall e :: e in h ==> e.position <= view.cursor
  }

  lemma EmptySummary()
    ensures Summarises(EMPTY, [])
  {
  }

  // ---- One event ----

  lemma CoherentIsValid(activities: map<string, Activity>, e: Event)
    requires e.activity.Some? && e.name.AgentActivity?
    ensures var a, r := e.activity.value, ReduceActivity(activities, e.name.activity, e.position, e.activity.value);
            && (!Coherent(e) ==> r == Err(InvalidEvent))
            && (Coherent(e) ==>
                  r == if a.id in activities then
                         if activities[a.id].kind == a.kind && activities[a.id].labelKey == a.labelKey && (activities[a.id].state, a.state) in STEPS
                         then Ok(activities[a.id := a]) else Err(EventOrderViolation)
                       else if a.state in FIRST_STATES then Ok(activities[a.id := a]) else Err(EventOrderViolation))
  {
  }

  /** Why an event that is not legal is refused: the first reason against it. */
  ghost function Reason(session: string, past: History, e: Event): (error: Error)
  {
    if !Header(session, e) then InvalidEvent
    else if e.position <= LastPosition(past) || Ended(past) then EventOrderViolation
    else if !Coherent(e) then InvalidEvent
    else EventOrderViolation
  }

  lemma ActivityJudged(view: View, past: History, e: Event)
    requires ActivitiesAre(view.activities, past)
    ensures var r := ActivityEffect(view, e);
            if !Coherent(e) then r == Err(InvalidEvent)
            else if e.activity.Some? && !Continues(past, e.activity.value) then r == Err(EventOrderViolation)
            else r == Ok(if e.activity.Some? then view.activities[e.activity.value.id := e.activity.value] else view.activities)
  {
    if e.activity.Some? && e.name.AgentActivity? {
      CoherentIsValid(view.activities, e);
      assert LastAbout(past, e.activity.value.id)
          == if e.activity.value.id in view.activities then Some(view.activities[e.activity.value.id]) else None;
    }
  }

  /** A new event is applied exactly when it is legal after the events applied so far, and otherwise refused for the first reason against it. */
  lemma NewEventJudged(session: string, saved: nat, view: View, past: History, e: Event)
    requires Summarises(view, past) && e.position !in view.seen && (e.position > saved || e.position == 0)
    ensures StepEvent(session, saved, view, e).Ok? <==> LegalNext(session, past, e)
    ensures !LegalNext(session, past, e) ==> StepEvent(session, saved, view, e) == Err(Reason(session, past, e))
  {
    ActivityJudged(view, past, e);
  }

  lemma SeenGrown(seen: map<nat, Event>, past: History, e: Event)
    requires SeenIs(seen, past) && forall x :: x in past ==> x.position < e.position
    ensures SeenIs(seen[e.position := e], past + [e])
  {
    assert forall x :: x in past + [e] <==> x in past || x == e;
  }

  lemma ActivitiesGrown(activities: map<string, Activity>, past: History, e: Event)
    requires ActivitiesAre(activities, past)
    ensures ActivitiesAre(if e.activity.Some? then activities[e.activity.value.id := e.activity.value] else activities, past + [e])
  {
    var h := past + [e];
    assert h[..|past|] == past && h[|past|] == e;
    forall id
      ensures LastAbout(h, id) == if About(e, id) then e.activity else if id in activities then Some(activities[id]) else None
    {
      assert LastAbout(past, id) == if id in activities then Some(activities[id]) else None;
    }
  }

  lemma EndedGrown(past: History, e: Event)
    ensures Ended(past + [e]) <==> Ended(past) || EndsTurn(e)
  {
    assert forall x :: x in past + [e] <==> x in past || x == e;
  }

  lemma AppliedSummary(session: string, view: View, past: History, e: Event)
    requires Summarises(view, past) && LegalNext(session, past, e) && Apply(view, e).Ok?
    ensures Summarises(Apply(view, e).value, past + [e])
  {
    ActivityJudged(view, past, e);
    SeenGrown(view.seen, past, e);
    ActivitiesGrown(view.activities, past, e);
    EndedGrown(past, e);
    assert (past + [e])[|past|] == e;
    assert forall x :: x in past + [e] <==> x in past || x == e;
  }

  // ---- Batches ----

  /** The event is passed over: it was applied before, or lies behind the batch's start without having been. */
  ghost predicate PassedOver(session: string, saved: nat, past: History, e: Event)
  {
    Header(session, e) && (e in past || (e.position <= saved && forall x :: x in past ==> x.position != e.position))
  }

  /** The applied events after a batch, or the reason against its first event that is neither passed over nor legal. */
  ghost function Grown(session: string, saved: nat, past: History, events: seq<Event>): (h: Result<History, Error>)
  {
    if events == [] then Ok(past)
    else
      var earlier, e := Grown(session, saved, past, events[..|events| - 1]), events[|events| - 1];
      if earlier.Err? || PassedOver(session, saved, earlier.value, e) then earlier
      else if LegalNext(session, earlier.value, e) then Ok(earlier.value + [e])
      else Err(Reason(session, earlier.value, e))
  }

  lemma StepGrows(session: string, saved: nat, view: View, h: History, e: Event)
    requires Summarises(view, h) && saved <= view.cursor
    ensures var r := StepEvent(session, saved, view, e);
            if PassedOver(session, saved, h, e) then r == Ok(view)
            else if LegalNext(session, h, e) then r.Ok? && Summarises(r.value, h + [e]) && saved <= r.value.cursor
            else r == Err(Reason(session, h, e))
  {
    if e.position in view.seen {
      assert view.seen[e.position] in h;
      assert LegalNext(session, h, e) ==> false;
    } else if e.position > saved || e.position == 0 {
      NewEventJudged(session, saved, view, h, e);
      if LegalNext(session, h, e) {
        AppliedSummary(session, view, h, e);
      }
    } else {
      assert !(e in h) && forall x :: x in h ==> x.position != e.position;
    }
  }

  /** From a view of the events applied so far, a batch reduces exactly when its events are legal in turn. */
  lemma {:induction false} FoldExactly(session: string, saved: nat, view: View, past: History, events: seq<Event>)
    requires Summarises(view, past) && saved <= view.cursor
    ensures var r, h := Fold(session, saved, view, events), Grown(session, saved, past, events);
            if h.Ok? then r.Ok? && Summarises(r.value, h.value) && saved <= r.value.cursor else r == Err(h.error)
    decreases |events|
  {
    if events == [] {
    } else {
      var init, last := events[..|events| - 1], events[|events| - 1];
      FoldExactly(session, saved, view, past, init);
      if Fold(session, saved, view, init).Ok? {
        StepGrows(session, saved, Fold(session, saved, view, init).value, Grown(session, saved, past, init).value, last);
      }
    }
  }

  /** The applied events after several batches, each from where the one before it ended. */
  ghost function GrownBatches(session: string, batches: seq<seq<Event>>, max: nat): (h: Result<History, Error>)
  {
    if batches == [] then Ok([])
    else
      var earlier, last := GrownBatches(session, batches[..|batches| - 1], max), batches[|batches| - 1];
      if earlier.Err? then earlier
      else if session == "" || max == 0 then Err(InvalidConfiguration)
      else if |last| > max then Err(EventLimitExceeded)
      else Grown(session, LastPosition(earlier.value), earlier.value, last)
  }

  /** Any batches reduce from an empty view exactly when all their events are legal in turn. */
  lemma {:induction false} BatchesExactly(session: string, batches: seq<seq<Event>>, max: nat)
    ensures var r, h := Batches(session, EMPTY, batches, max), GrownBatches(session, batches, max);
            if h.Ok? then r.Ok? && Summarises(r.value, h.value) else r == Err(h.error)
    decreases |batches|
  {
    if batches == [] {
      EmptySummary();
    } else {
      var init, last := batches[..|batches| - 1], batches[|batches| - 1];
      BatchesExactly(session, init, max);
      if Batches(session, EMPTY, init, max).Ok? {
        var before, past := Batches(session, EMPTY, init, max).value, GrownBatches(session, init, max).value;
        FoldExactly(session, before.cursor, before, past, last);
      }
    }
  }

  // ---- Legal histories are accepted ----

  lemma LegalPrefix(session: string, h: History)
    requires h != [] && Legal(session, h)
    ensures Legal(session, h[..|h| - 1]) && LegalNext(session, h[..|h| - 1], h[|h| - 1])
  {
    var init := h[..|h| - 1];
    forall k | 0 <= k < |init| ensures LegalAt(session, init, k) {
      assert LegalAt(session, h, k) && init[..k] == h[..k];
    }
    assert LegalAt(session, h, |h| - 1);
  }

  lemma {:induction false} LegalAscends(session: string, h: History)
    requires Legal(session, h)
    ensures forall e :: e in h ==> e.position <= LastPosition(h)
    decreases |h|
  {
    if h == [] {
    } else {
      LegalPrefix(session, h);
      LegalAscends(session, h[..|h| - 1]);
      assert h == h[..|h| - 1] + [h[|h| - 1]];
    }
  }

  lemma {:induction false} LegalGrows(session: string, h: History)
    requires Legal(session, h)
    ensures Grown(session, 0, [], h) == Ok(h)
    decreases |h|
  {
    if h == [] {
    } else {
      var init, last := h[..|h| - 1], h[|h| - 1];
      LegalPrefix(session, h);
      LegalGrows(session, init);
      LegalAscends(session, init);
      assert init + [last] == h && last !in init;
    }
  }

  /** Every legal history reduces from an empty view in one batch, to the view of exactly that history. */
  lemma LegalReduces(session: string, h: History, max: nat)
    requires Legal(session, h) && session != "" && 0 < max && |h| <= max
    ensures Reduce(session, h, EMPTY, max).Ok? && Summarises(Reduce(session, h, EMPTY, max).value, h)
  {
    EmptySummary();
    LegalGrows(session, h);
    FoldExactly(session, 0, EMPTY, [], h);
  }

  /** The events of one activity, at ascending positions and coherent, whose states begin in a first state and take listed steps. */
  ghost predicate ActivityPath(session: string, h: History, id: string, kind: string, labelKey: string)
  {
    && (forall k :: 0 <= k < |h| ==>
                      && Header(session, h[k]) && Coherent(h[k]) && About(h[k], id)
                      && h[k].activity.value.kind == kind && h[k].activity.value.labelKey == labelKey)
    && (h != [] ==> h[0].activity.value.state in FIRST_STATES)
    && forall k :: 1 <= k < |h| ==>
                     h[k - 1].position < h[k].position && (h[k - 1].activity.value.state, h[k].activity.value.state) in STEPS
  }

  /** Every path of the activity machine is accepted from an empty view, and the view ends with its last state. */
  lemma PathsReduce(session: string, h: History, id: string, kind: string, labelKey: string, max: nat)
    requires ActivityPath(session, h, id, kind, labelKey) && h != [] && session != "" && |h| <= max
    ensures var r := Reduce(session, h, EMPTY, max);
            r.Ok? && id in r.value.activities && Some(r.value.activities[id]) == h[|h| - 1].activity
  {
    forall k: nat | k < |h| ensures LegalAt(session, h, k) {
      PathIsLegal(session, h, id, kind, labelKey, k);
    }
    LegalReduces(session, h, max);
    assert LastAbout(h, id) == h[|h| - 1].activity;
  }

  lemma PathIsLegal(session: string, h: History, id: string, kind: string, labelKey: string, k: nat)
    requires ActivityPath(session, h, id, kind, labelKey) && k < |h|
    ensures LegalAt(session, h, k)
  {
    var past := h[..k];
    forall e | e in past ensures !EndsTurn(e) {
      var j :| 0 <= j < k && h[j] == e;
      assert Coherent(h[j]) && About(h[j], id);
    }
    if k == 0 {
      assert LastAbout(past, id) == None;
    } else {
      assert past[|past| - 1] == h[k - 1] && About(h[k - 1], id);
      assert LastAbout(past, id) == h[k - 1].activity;
    }
  }
}
