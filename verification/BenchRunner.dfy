/**
 The benchmark driver: validation, the per-case path with its lease, bounded concurrency, and reordering.
 Source: bench/src/runner.rs. Ports are the responses they give.
 */
module BenchRunner {
  import opened Common
  import opened Evaluation
  import opened ResultSink

  datatype Mode = Development | OfficialPublished

  datatype Case = Case(id: string, repository: string, baseCommit: string)

  datatype Lease = Lease(handle: string, caseId: string, baseCommit: string)

  datatype AgentInput = AgentInput(payload: string, repository: string, baseCommit: string, workspaceHandle: string)

  datatype Usage = Usage(durationMs: nat, inputTokens: Option<nat>, outputTokens: Option<nat>)

  datatype Verdict = VerdictPassed | VerdictFailed

  datatype RunError = InvalidLimits | DuplicateCase | SinkFailed

  const MAX_JOBS := 64

  // ---- Run validation ----

  predicate DistinctCases(cases: seq<Case>)
  {
    forall j, k :: 0 <= j < k < |cases| ==> cases[j].id != cases[k].id
  }

  predicate ValidRun(cases: seq<Case>, jobs: nat, mode: Mode, warmCapacity: nat)
  {
    && cases != [] && 1 <= jobs <= MAX_JOBS && DistinctCases(cases)
    && (mode.OfficialPublished? ==> jobs != 1 && jobs <= warmCapacity)
  }

  method ValidateRun(cases: seq<Case>, jobs: nat, mode: Mode, warmCapacity: nat) returns (r: Result<(), RunError>)
    ensures r.Ok? <==> ValidRun(cases, jobs, mode, warmCapacity)
    ensures r.Ok? <==>
            && 1 <= |cases| && 1 <= jobs <= 64 && (forall j, k :: 0 <= j < k < |cases| ==> cases[j].id != cases[k].id)
            && (mode == OfficialPublished ==> 2 <= jobs <= warmCapacity)
    ensures r.Err? ==> r.error != SinkFailed
    ensures r == Err(RunError.DuplicateCase) <==> cases != [] && 1 <= jobs <= MAX_JOBS && !DistinctCases(cases)
  {
    if cases == [] || !(1 <= jobs <= MAX_JOBS) {
      return Err(RunError.InvalidLimits);
    }
    var identities: set<string> := {};
    for k := 0 to |cases|
      invariant forall id :: id in identities <==> exists j :: 0 <= j < k && cases[j].id == id
      invariant forall i, j :: 0 <= i < j < k ==> cases[i].id != cases[j].id
    {
      if cases[k].id in identities {
        return Err(RunError.DuplicateCase);
      }
      identities := identities + {cases[k].id};
    }
    if mode.OfficialPublished? && (jobs == 1 || warmCapacity < jobs) {
      return Err(RunError.InvalidLimits);
    }
    return Ok(());
  }

  // ---- One case ----

  predicate ValidLease(c: Case, l: Lease)
  {
    l.handle != "" && l.caseId == c.id && l.baseCommit == c.baseCommit
  }

  predicate ValidInput(c: Case, l: Lease, i: AgentInput)
  {
    i.payload != "" && i.repository == c.repository && i.baseCommit == c.baseCommit && i.workspaceHandle == l.handle
  }

  function ResultOf(c: Case, outcome: CaseOutcome, usage: Option<Usage>): (r: CaseResult)
  {
    if usage.None? then CaseResult(c.id, outcome, 0, None, None)
    else CaseResult(c.id, outcome, usage.value.durationMs, usage.value.inputTokens, usage.value.outputTokens)
  }

  /** Where a case waits: for each port in turn, with its accepted lease from the second on. */
  datatype Phase =
    | Acquiring
    | Translating(lease: Lease)
    | RunningAgent(lease: Lease)
    | Patching(lease: Lease, used: Usage)
    | Evaluating(lease: Lease, used: Usage)
    | Releasing(lease: Lease, usage: Option<Usage>, verdict: Option<Verdict>)
    | Done(result: CaseResult)

  /** Answers of the ports; None and false are errors. */
  datatype Response =
    | Acquired(lease: Option<Lease>)
    | Translated(input: Option<AgentInput>)
    | Ran(usage: Option<Usage>)
    | Patched(ok: bool)
    | Evaluated(verdict: Option<Verdict>)
    | Released(ok: bool)

  predicate Awaits(p: Phase, r: Response)
  {
    match p
    case Acquiring => r.Acquired?
    case Translating(_) => r.Translated?
    case RunningAgent(_) => r.Ran?
    case Patching(_, _) => r.Patched?
    case Evaluating(_, _) => r.Evaluated?
    case Releasing(_, _, _) => r.Released?
    case Done(_) => false
  }

  function Advance(c: Case, p: Phase, r: Response): (q: Phase)
    requires Awaits(p, r)
  {
    match p
    case Acquiring =>
      if r.lease.Some? && ValidLease(c, r.lease.value) then Translating(r.lease.value) else Done(ResultOf(c, InfrastructureFailure, None))
    case Translating(l) =>
      if r.input.Some? && ValidInput(c, l, r.input.value) then RunningAgent(l) else Releasing(l, None, None)
    case RunningAgent(l) => if r.usage.Some? then Patching(l, r.usage.value) else Releasing(l, None, None)
    case Patching(l, used) => if r.ok then Evaluating(l, used) else Releasing(l, Some(used), None)
    case Evaluating(l, used) => Releasing(l, Some(used), r.verdict)
    case Releasing(l, usage, verdict) =>
      if !r.ok || verdict.None? then Done(ResultOf(c, InfrastructureFailure, usage))
      else Done(ResultOf(c, if verdict.value.VerdictPassed? then Passed else Failed, usage))
  }

  /** What the ports would answer a case, whichever of them it asks. */
  datatype Script = Script(lease: Option<Lease>, input: Option<AgentInput>, usage: Option<Usage>, patched: bool, verdict: Option<Verdict>, released: bool)

  function Answer(s: Script, p: Phase): (r: Response)
    requires !p.Done?
    ensures Awaits(p, r)
  {
    match p
    case Acquiring => Acquired(s.lease)
    case Translating(_) => Translated(s.input)
    case RunningAgent(_) => Ran(s.usage)
    case Patching(_, _) => Patched(s.patched)
    case Evaluating(_, _) => Evaluated(s.verdict)
    case Releasing(_, _, _) => Released(s.released)
  }

  function Rank(p: Phase): (n: nat)
  {
    match p
    case Acquiring => 6
    case Translating(_) => 5
    case RunningAgent(_) => 4
    case Patching(_, _) => 3
    case Evaluating(_, _) => 2
    case Releasing(_, _, _) => 1
    case Done(_) => 0
  }

  function Drive(c: Case, p: Phase, s: Script): (r: CaseResult)
    decreases Rank(p)
  {
    if p.Done? then p.result else Drive(c, Advance(c, p, Answer(s, p)), s)
  }

  /** Whether a case gets as far as the agent. */
  predicate AsksAgent(c: Case, s: Script)
  {
    s.lease.Some? && ValidLease(c, s.lease.value) && s.input.Some? && ValidInput(c, s.lease.value, s.input.value)
  }

  /** The case's lease as the pool must give it: named, for this case and its commit. */
  function LeaseFor(c: Case, handle: string): (l: Lease) { Lease(handle, c.id, c.baseCommit) }

  ghost predicate Leased(c: Case, s: Script) { s.lease.Some? && s.lease.value.handle != "" && s.lease == Some(LeaseFor(c, s.lease.value.handle)) }

  /** The agent is run on a payload for this case's repository and commit, in the leased workspace. */
  ghost predicate Instructed(c: Case, s: Script)
  {
    && Leased(c, s) && s.input.Some? && s.input.value.payload != ""
    && s.input == Some(AgentInput(s.input.value.payload, c.repository, c.baseCommit, s.lease.value.handle))
  }

  /** Ports that all answer and agree to release. */
  ghost predicate Judged(c: Case, s: Script, verdict: Verdict)
  {
    Instructed(c, s) && s.usage.Some? && s.patched && s.verdict == Some(verdict) && s.released
  }

  lemma InstructedAsks(c: Case, s: Script)
    ensures Leased(c, s) <==> s.lease.Some? && ValidLease(c, s.lease.value)
    ensures Instructed(c, s) <==> AsksAgent(c, s)
  {
  }

  /** The straight-line path of a case agrees with driving its phases; its accepted lease, if any, is released once. */
  method RunCase(c: Case, s: Script) returns (r: CaseResult, released: seq<Lease>)
    ensures r == Drive(c, Acquiring, s)
    ensures released == if Leased(c, s) then [s.lease.value] else []
    ensures r.caseId == c.id
    ensures if Instructed(c, s) && s.usage.Some? then
              r.durationMs == s.usage.value.durationMs && r.inputTokens == s.usage.value.inputTokens && r.outputTokens == s.usage.value.outputTokens
            else r.durationMs == 0 && r.inputTokens == None && r.outputTokens == None
    ensures r.outcome == if Judged(c, s, VerdictPassed) then Passed else if Judged(c, s, VerdictFailed) then Failed else InfrastructureFailure
  {
    InstructedAsks(c, s);
    released := [];
    if s.lease.None? || !ValidLease(c, s.lease.value) {
      return ResultOf(c, InfrastructureFailure, None), released;
    }
    var lease := s.lease.value;
    var usage: Option<Usage> := None;
    var verdict: Option<Verdict> := None;
    if s.input.Some? && ValidInput(c, lease, s.input.value) {
      usage := s.usage;
      if usage.Some? && s.patched {
        verdict := s.verdict;
      }
    }
    released := [lease];
    assert Drive(c, Acquiring, s) == Drive(c, Releasing(lease, usage, verdict), s) by {
      PathToRelease(c, s, lease);
    }
    assert Drive(c, Releasing(lease, usage, verdict), s) == Advance(c, Releasing(lease, usage, verdict), Released(s.released)).result;
    if !s.released || verdict.None? {
      return ResultOf(c, InfrastructureFailure, usage), released;
    }
    return ResultOf(c, if verdict.value.VerdictPassed? then Passed else Failed, usage), released;
  }

  lemma PathToRelease(c: Case, s: Script, l: Lease)
    requires s.lease == Some(l) && ValidLease(c, l)
    ensures var reached := s.input.Some? && ValidInput(c, l, s.input.value);
            var usage := if reached then s.usage else None;
            var verdict := if usage.Some? && s.patched then s.verdict else None;
            Drive(c, Acquiring, s) == Drive(c, Releasing(l, usage, verdict), s)
  {
    assert Drive(c, Acquiring, s) == Drive(c, Translating(l), s);
    if s.input.Some? && ValidInput(c, l, s.input.value) {
      assert Drive(c, Translating(l), s) == Drive(c, RunningAgent(l), s);
      if s.usage.Some? {
        assert Drive(c, RunningAgent(l), s) == Drive(c, Patching(l, s.usage.value), s);
        if s.patched {
          assert Drive(c, Patching(l, s.usage.value), s) == Drive(c, Evaluating(l, s.usage.value), s);
        }
      }
    }
  }

  // ---- All cases, interleaved ----

  datatype LeaseEvent = Accept(index: nat, lease: Lease) | Release(index: nat, lease: Lease)

  /** Cases in progress, the next case to start, the completions in order, and every accepted and released lease. */
  datatype State = State(active: map<nat, Phase>, next: nat, completions: seq<(nat, CaseResult)>, leases: seq<LeaseEvent>)

  datatype Step = StartNext | Respond(index: nat, response: Response) | Complete(index: nat)

  const IDLE := State(map[], 0, [], [])

  predicate Enabled(cases: seq<Case>, jobs: nat, s: State, step: Step)
  {
    match step
    case StartNext => s.next < |cases| && |s.active| < jobs
    case Respond(i, r) => i in s.active && i < |cases| && Awaits(s.active[i], r)
    case Complete(i) => i in s.active && s.active[i].Done?
  }

  function LeaseEvents(i: nat, p: Phase, q: Phase): (events: seq<LeaseEvent>)
  {
    if p.Acquiring? && q.Translating? then [Accept(i, q.lease)]
    else if !p.Releasing? && q.Releasing? then [Release(i, q.lease)]
    else []
  }

  function Next(cases: seq<Case>, jobs: nat, s: State, step: Step): (t: State)
    requires Enabled(cases, jobs, s, step)
  {
    match step
    case StartNext => s.(active := s.active[s.next := Acquiring], next := s.next + 1)
    case Respond(i, r) =>
      var q := Advance(cases[i], s.active[i], r);
      s.(active := s.active[i := q], leases := s.leases + LeaseEvents(i, s.active[i], q))
    case Complete(i) => s.(active := s.active - {i}, completions := s.completions + [(i, s.active[i].result)])
  }

  /** State after an interleaving, or None when some step was not enabled. */
  function After(cases: seq<Case>, jobs: nat, steps: seq<Step>): (r: Option<State>)
  {
    if steps == [] then Some(IDLE)
    else
      var before := After(cases, jobs, steps[..|steps| - 1]);
      if before.Some? && Enabled(cases, jobs, before.value, steps[|steps| - 1])
      then Some(Next(cases, jobs, before.value, steps[|steps| - 1])) else None
  }

  predicate Runs(cases: seq<Case>, jobs: nat, steps: seq<Step>, s: State)
  {
    After(cases, jobs, steps) == Some(s)
  }

  /** The lease events of one case, in order. */
  function Own(events: seq<LeaseEvent>, i: nat): (r: seq<LeaseEvent>)
  {
    if events == [] then []
    else Own(events[..|events| - 1], i) + if events[|events| - 1].index == i then [events[|events| - 1]] else []
  }

  /** Nothing, or one accepted lease of the case released exactly once. */
  ghost predicate Settled(c: Case, events: seq<LeaseEvent>, i: nat)
  {
    events == [] || exists l :: ValidLease(c, l) && events == [Accept(i, l), Release(i, l)]
  }

  /** A result of this case, which was attempted. */
  predicate Reports(c: Case, r: CaseResult)
  {
    r.caseId == c.id && !r.outcome.NotAttempted?
  }

  /** What a case's lease events must be in each phase. */
  ghost predicate Matches(c: Case, p: Phase, events: seq<LeaseEvent>, i: nat)
  {
    match p
    case Acquiring => events == []
    case Releasing(l, _, _) => ValidLease(c, l) && events == [Accept(i, l), Release(i, l)]
    case Done(r) => Settled(c, events, i) && Reports(c, r)
    case Translating(l) => ValidLease(c, l) && events == [Accept(i, l)]
    case RunningAgent(l) => ValidLease(c, l) && events == [Accept(i, l)]
    case Patching(l, _) => ValidLease(c, l) && events == [Accept(i, l)]
    case Evaluating(l, _) => ValidLease(c, l) && events == [Accept(i, l)]
  }

  predicate Completed(completions: seq<(nat, CaseResult)>, i: nat)
  {
    exists k :: 0 <= k < |completions| && completions[k].0 == i
  }

  /** A running case is in the phase its lease events say. */
  ghost predicate ActiveCase(cases: seq<Case>, s: State, i: nat)
    requires i in s.active && s.next <= |cases|
  {
    i < s.next && Matches(cases[i], s.active[i], Own(s.leases, i), i)
  }

  /** A completion names a case that no longer runs, whose lease is settled. */
  ghost predicate CompletedCase(cases: seq<Case>, s: State, k: nat)
    requires k < |s.completions| && s.next <= |cases|
  {
    var i := s.completions[k].0;
    i < s.next && i !in s.active && Settled(cases[i], Own(s.leases, i), i) && Reports(cases[i], s.completions[k].1)
  }

  ghost predicate DistinctCompletions(completions: seq<(nat, CaseResult)>)
  {
    forall j, k :: 0 <= j < k < |completions| ==> completions[j].0 != completions[k].0
  }

  ghost predicate ActiveCases(cases: seq<Case>, s: State)
    requires s.next <= |cases|
  {
    forall i :: i in s.active ==> ActiveCase(cases, s, i)
  }

  ghost predicate CompletedCases(cases: seq<Case>, s: State)
    requires s.next <= |cases|
  {
    forall k :: 0 <= k < |s.completions| ==> CompletedCase(cases, s, k)
  }

  /** Every started case runs or has completed. */
  ghost predicate Accounted(s: State) { forall i: nat :: i < s.next ==> i in s.active || Completed(s.completions, i) }

  /** A case that has not started has no lease events. */
  ghost predicate Untouched(s: State) { forall i: nat :: s.next <= i ==> Own(s.leases, i) == [] }

  /** What every interleaving keeps. */
  ghost predicate Invariant(cases: seq<Case>, jobs: nat, s: State)
  {
    && s.next <= |cases| && |s.active| <= jobs && ActiveCases(cases, s) && CompletedCases(cases, s)
    && DistinctCompletions(s.completions) && Accounted(s) && Untouched(s)
  }

  lemma OwnAppend(events: seq<LeaseEvent>, more: seq<LeaseEvent>, i: nat)
    requires |more| <= 1
    ensures Own(events + more, i) == Own(events, i) + if more != [] && more[0].index == i then more else []
  {
    if more == [] {
      assert events + more == events;
    } else {
      assert (events + more)[..|events|] == events;
    }
  }

  lemma OwnOthers(events: seq<LeaseEvent>, more: seq<LeaseEvent>, i: nat)
    requires |more| <= 1 && forall e :: e in more ==> e.index == i
    ensures Own(events + more, i) == Own(events, i) + more
    ensures forall j: nat :: j != i ==> Own(events + more, j) == Own(events, j)
  {
    forall j: nat
      ensures Own(events + more, j) == if j == i then Own(events, i) + more else Own(events, j)
    {
      OwnAppend(events, more, j);
    }
  }

  /** The state with one case moved to another phase, and more lease events of it. */
  function Moved(s: State, i: nat, q: Phase, more: seq<LeaseEvent>): (t: State)
  {
    s.(active := s.active[i := q], leases := s.leases + more)
  }

  lemma MovedActive(cases: seq<Case>, s: State, i: nat, q: Phase, more: seq<LeaseEvent>)
    requires s.next <= |cases| && ActiveCases(cases, s) && i in s.active && i < |cases|
    requires |more| <= 1 && forall e :: e in more ==> e.index == i
    requires Matches(cases[i], q, Own(s.leases, i) + more, i)
    ensures ActiveCases(cases, Moved(s, i, q, more))
  {
    var t := Moved(s, i, q, more);
    forall j | j in t.active ensures ActiveCase(cases, t, j) {
      assert ActiveCase(cases, s, j);
      OwnOthers(s.leases, more, i);
    }
  }

  lemma MovedCompleted(cases: seq<Case>, s: State, i: nat, q: Phase, more: seq<LeaseEvent>)
    requires s.next <= |cases| && CompletedCases(cases, s) && i in s.active
    requires |more| <= 1 && forall e :: e in more ==> e.index == i
    ensures CompletedCases(cases, Moved(s, i, q, more))
  {
    var t := Moved(s, i, q, more);
    forall k: nat | k < |t.completions| ensures CompletedCase(cases, t, k) {
      assert CompletedCase(cases, s, k);
      OwnOthers(s.leases, more, i);
    }
  }

  /** Moving one case to a phase its lease events allow leaves every other case alone. */
  lemma PhaseKeeps(cases: seq<Case>, jobs: nat, s: State, i: nat, q: Phase, more: seq<LeaseEvent>)
    requires Invariant(cases, jobs, s) && i in s.active && i < |cases|
    requires |more| <= 1 && forall e :: e in more ==> e.index == i
    requires Matches(cases[i], q, Own(s.leases, i) + more, i)
    ensures Invariant(cases, jobs, Moved(s, i, q, more))
  {
    assert Moved(s, i, q, more).active.Keys == s.active.Keys;
    assert ActiveCase(cases, s, i);
    MovedActive(cases, s, i, q, more);
    MovedCompleted(cases, s, i, q, more);
    OwnOthers(s.leases, more, i);
  }

  lemma RespondKeeps(cases: seq<Case>, jobs: nat, s: State, i: nat, r: Response)
    requires Invariant(cases, jobs, s) && Enabled(cases, jobs, s, Respond(i, r))
    ensures Invariant(cases, jobs, Next(cases, jobs, s, Respond(i, r)))
  {
    var p := s.active[i];
    var q := Advance(cases[i], p, r);
    assert ActiveCase(cases, s, i);
    AdvanceMatches(cases[i], p, r, Own(s.leases, i), i);
    PhaseKeeps(cases, jobs, s, i, q, LeaseEvents(i, p, q));
  }

  lemma AdvanceMatches(c: Case, p: Phase, r: Response, events: seq<LeaseEvent>, i: nat)
    requires Awaits(p, r) && Matches(c, p, events, i)
    ensures Matches(c, Advance(c, p, r), events + LeaseEvents(i, p, Advance(c, p, r)), i)
  {
    var q := Advance(c, p, r);
    if p.Releasing? {
      assert Settled(c, events, i);
      assert events + [] == events;
    } else if p.Acquiring? {
      assert [] + LeaseEvents(i, p, q) == LeaseEvents(i, p, q);
    }
  }

  /** The state with the next case started. */
  function StartedNext(s: State): (t: State)
  {
    s.(active := s.active[s.next := Acquiring], next := s.next + 1)
  }

  lemma StartedActive(cases: seq<Case>, s: State)
    requires s.next < |cases| && ActiveCases(cases, s) && Untouched(s)
    ensures ActiveCases(cases, StartedNext(s))
  {
    var t := StartedNext(s);
    forall j | j in t.active ensures ActiveCase(cases, t, j) {
      if j == s.next {
        assert Own(s.leases, j) == [];
      } else {
        assert ActiveCase(cases, s, j);
      }
    }
  }

  lemma StartedCompleted(cases: seq<Case>, s: State)
    requires s.next < |cases| && CompletedCases(cases, s)
    ensures CompletedCases(cases, StartedNext(s))
  {
    var t := StartedNext(s);
    forall k: nat | k < |t.completions| ensures CompletedCase(cases, t, k) {
      assert CompletedCase(cases, s, k);
    }
  }

  lemma StartedAccounted(s: State)
    requires Accounted(s) && Untouched(s)
    ensures Accounted(StartedNext(s)) && Untouched(StartedNext(s))
  {
  }

  lemma NotActiveYet(cases: seq<Case>, s: State)
    requires s.next <= |cases| && ActiveCases(cases, s)
    ensures s.next !in s.active
  {
    assert s.next in s.active ==> ActiveCase(cases, s, s.next);
  }

  lemma StartKeeps(cases: seq<Case>, jobs: nat, s: State)
    requires Invariant(cases, jobs, s) && Enabled(cases, jobs, s, StartNext)
    ensures Invariant(cases, jobs, Next(cases, jobs, s, StartNext))
  {
    StartedActive(cases, s);
    StartedCompleted(cases, s);
    StartedAccounted(s);
    NotActiveYet(cases, s);
    assert Next(cases, jobs, s, StartNext) == StartedNext(s);
    assert StartedNext(s).active.Keys == s.active.Keys + {s.next};
  }

  lemma CompleteKeeps(cases: seq<Case>, jobs: nat, s: State, i: nat)
    requires Invariant(cases, jobs, s) && Enabled(cases, jobs, s, Complete(i))
    ensures Invariant(cases, jobs, Next(cases, jobs, s, Complete(i)))
  {
    var t := Next(cases, jobs, s, Complete(i));
    assert t.active.Keys == s.active.Keys - {i};
    assert ActiveCase(cases, s, i);
    forall j | j in t.active ensures ActiveCase(cases, t, j) {
      assert ActiveCase(cases, s, j);
    }
    forall k: nat | k < |t.completions| ensures CompletedCase(cases, t, k) {
      assert k < |s.completions| ==> CompletedCase(cases, s, k);
    }
    forall j: nat, k: nat | j < k < |t.completions| ensures t.completions[j].0 != t.completions[k].0 {
      assert CompletedCase(cases, s, j);
    }
    CompletedGrows(s.completions, (i, s.active[i].result));
  }

  lemma CompletedGrows(completions: seq<(nat, CaseResult)>, last: (nat, CaseResult))
    ensures forall j: nat :: Completed(completions + [last], j) <==> Completed(completions, j) || j == last.0
  {
    var longer := completions + [last];
    assert longer[|completions|] == last;
    forall j: nat | Completed(completions, j) ensures Completed(longer, j) {
      var k :| 0 <= k < |completions| && completions[k].0 == j;
      assert longer[k].0 == j;
    }
    forall j: nat | Completed(longer, j) && j != last.0 ensures Completed(completions, j) {
      var k :| 0 <= k < |longer| && longer[k].0 == j;
      assert completions[k].0 == j;
    }
  }

  /** Every interleaving keeps the invariant. */
  lemma {:induction false} RunsKeepInvariant(cases: seq<Case>, jobs: nat, steps: seq<Step>, s: State)
    requires Runs(cases, jobs, steps, s)
    ensures Invariant(cases, jobs, s)
    decreases |steps|
  {
    if steps == [] {
    } else {
      var init, last := steps[..|steps| - 1], steps[|steps| - 1];
      var before := After(cases, jobs, init).value;
      RunsKeepInvariant(cases, jobs, init, before);
      match last
      case StartNext => StartKeeps(cases, jobs, before);
      case Respond(i, r) => RespondKeeps(cases, jobs, before, i, r);
      case Complete(i) => CompleteKeeps(cases, jobs, before, i);
    }
  }

  predicate Holds(p: Phase) { !p.Acquiring? && !p.Done? }

  /** Cases that hold an accepted lease whose release has not returned. */
  function Holders(s: State): (r: set<nat>)
  {
    set i | i in s.active && Holds(s.active[i])
  }

  /** At every moment of a validated run the accepted leases held number at most `jobs`, so in published mode at most the warm capacity. */
  lemma LeasesAreBounded(cases: seq<Case>, jobs: nat, mode: Mode, warmCapacity: nat, steps: seq<Step>, s: State)
    requires mode.OfficialPublished? ==> jobs <= warmCapacity
    requires Runs(cases, jobs, steps, s)
    ensures |Holders(s)| <= jobs
    ensures mode.OfficialPublished? ==> |Holders(s)| <= warmCapacity
  {
    RunsKeepInvariant(cases, jobs, steps, s);
    SubsetSize(Holders(s), s.active.Keys);
  }

  /** When a case has completed, its accepted lease, if it got one, was released exactly once. */
  lemma LeasesAreReleased(cases: seq<Case>, jobs: nat, steps: seq<Step>, s: State, k: nat)
    requires Runs(cases, jobs, steps, s) && k < |s.completions|
    ensures s.completions[k].0 < |cases|
    ensures Settled(cases[s.completions[k].0], Own(s.leases, s.completions[k].0), s.completions[k].0)
  {
    RunsKeepInvariant(cases, jobs, steps, s);
    assert CompletedCase(cases, s, k);
  }

  /** Each index below `n` occurs exactly once. */
  ghost predicate Permutes(completions: seq<(nat, CaseResult)>, n: nat)
  {
    && |completions| == n
    && (forall k :: 0 <= k < |completions| ==> completions[k].0 < n)
    && DistinctCompletions(completions)
    && forall i: nat :: i < n ==> Completed(completions, i)
  }

  /** Every case started and completed. */
  ghost predicate FinishedRun(cases: seq<Case>, jobs: nat, steps: seq<Step>, s: State)
  {
    Runs(cases, jobs, steps, s) && s.next == |cases| && s.active == map[]
  }

  /** The completions of a finished run are a permutation of the cases. */
  lemma FinishedRunPermutes(cases: seq<Case>, jobs: nat, steps: seq<Step>, s: State)
    requires FinishedRun(cases, jobs, steps, s)
    ensures Permutes(s.completions, |cases|)
  {
    RunsKeepInvariant(cases, jobs, steps, s);
    forall k: nat | k < |s.completions| ensures s.completions[k].0 < |cases| {
      assert CompletedCase(cases, s, k);
    }
    forall i: nat | i < |cases| ensures Completed(s.completions, i) {
      assert i !in s.active;
    }
    PermutationCount(s.completions, |cases|);
  }

  function Indices(completions: seq<(nat, CaseResult)>): (r: set<nat>)
    ensures forall i :: i in r <==> Completed(completions, i)
  {
    set k | 0 <= k < |completions| :: completions[k].0
  }

  function Range(n: nat): (r: set<nat>)
    ensures |r| == n && forall i: nat :: i in r <==> i < n
  {
    if n == 0 then {} else Range(n - 1) + {n - 1}
  }

  lemma IndicesGrow(completions: seq<(nat, CaseResult)>, last: (nat, CaseResult))
    ensures Indices(completions + [last]) == Indices(completions) + {last.0}
  {
    CompletedGrows(completions, last);
  }

  lemma {:induction false} IndexCount(completions: seq<(nat, CaseResult)>)
    requires DistinctCompletions(completions)
    ensures |Indices(completions)| == |completions|
    decreases |completions|
  {
    if completions == [] {
    } else {
      var init, last := completions[..|completions| - 1], completions[|completions| - 1];
      assert completions == init + [last];
      IndexCount(init);
      IndicesGrow(init, last);
      assert !Completed(init, last.0);
    }
  }

  lemma PermutationCount(completions: seq<(nat, CaseResult)>, n: nat)
    requires DistinctCompletions(completions)
    requires forall i: nat :: i < n <==> Completed(completions, i)
    ensures |completions| == n
  {
    IndexCount(completions);
    assert Indices(completions) == Range(n);
  }

  // ---- Reordering ----

  /** The results in source order. */
  ghost predicate Arranges(completions: seq<(nat, CaseResult)>, results: seq<CaseResult>)
  {
    |results| == |completions|
    && forall k :: 0 <= k < |completions| ==> completions[k].0 < |results| && results[completions[k].0] == completions[k].1
  }

  lemma ArrangementExists(completions: seq<(nat, CaseResult)>) returns (results: seq<CaseResult>)
    requires Permutes(completions, |completions|)
    ensures Arranges(completions, results)
  {
    results := seq(|completions|, i requires 0 <= i < |completions| => completions[WhereIs(completions, i)].1);
    forall k | 0 <= k < |completions|
      ensures results[completions[k].0] == completions[k].1
    {
      var i := completions[k].0;
      assert completions[WhereIs(completions, i)].0 == i;
    }
  }

  ghost function WhereIs(completions: seq<(nat, CaseResult)>, i: nat): (k: nat)
    requires Permutes(completions, |completions|) && i < |completions|
    ensures k < |completions| && completions[k].0 == i
  {
    assert Completed(completions, i);
    var k :| 0 <= k < |completions| && completions[k].0 == i;
    k
  }

  // ---- Runs end ----

  /** Steps a case has still to take. */
  function Left(s: State, i: nat): (n: nat)
    ensures n <= 8
  {
    if s.next <= i then 8 else if i in s.active then Rank(s.active[i]) + 1 else 0
  }

  function Work(s: State, n: nat): (total: nat)
    ensures total <= 8 * n
  {
    if n == 0 then 0 else Work(s, n - 1) + Left(s, n - 1)
  }

  lemma {:induction false} WorkDrops(s: State, t: State, n: nat, i: nat)
    requires Left(t, i) < Left(s, i) && forall j: nat :: j != i ==> Left(t, j) == Left(s, j)
    ensures if i < n then Work(t, n) < Work(s, n) else Work(t, n) == Work(s, n)
  {
    if n == 0 {
    } else {
      WorkDrops(s, t, n - 1, i);
    }
  }

  lemma AdvanceRanks(c: Case, p: Phase, r: Response)
    requires Awaits(p, r)
    ensures Rank(Advance(c, p, r)) < Rank(p)
  {
  }

  lemma StepWorks(cases: seq<Case>, jobs: nat, s: State, step: Step)
    requires Invariant(cases, jobs, s) && Enabled(cases, jobs, s, step)
    ensures Work(Next(cases, jobs, s, step), |cases|) < Work(s, |cases|)
  {
    var t := Next(cases, jobs, s, step);
    match step
    case StartNext =>
      WorkDrops(s, t, |cases|, s.next);
    case Respond(i, r) =>
      assert ActiveCase(cases, s, i);
      AdvanceRanks(cases[i], s.active[i], r);
      WorkDrops(s, t, |cases|, i);
    case Complete(i) =>
      assert ActiveCase(cases, s, i);
      WorkDrops(s, t, |cases|, i);
  }

  /** A run takes at most eight steps a case. */
  lemma {:induction false} RunsAreShort(cases: seq<Case>, jobs: nat, steps: seq<Step>, s: State)
    requires Runs(cases, jobs, steps, s)
    ensures |steps| + Work(s, |cases|) <= 8 * |cases|
    decreases |steps|
  {
    if steps == [] {
    } else {
      var before := After(cases, jobs, steps[..|steps| - 1]).value;
      RunsAreShort(cases, jobs, steps[..|steps| - 1], before);
      RunsKeepInvariant(cases, jobs, steps[..|steps| - 1], before);
      StepWorks(cases, jobs, before, steps[|steps| - 1]);
    }
  }

  /** A run that is not finished has a next step, with whatever answer the ports give. */
  lemma SomeStep(cases: seq<Case>, jobs: nat, scripts: seq<Script>, steps: seq<Step>, s: State) returns (step: Step)
    requires 1 <= jobs && |scripts| == |cases| && Runs(cases, jobs, steps, s) && !FinishedRun(cases, jobs, steps, s)
    ensures Enabled(cases, jobs, s, step)
    ensures step.Respond? ==> step.response == Answer(scripts[step.index], s.active[step.index])
  {
    RunsKeepInvariant(cases, jobs, steps, s);
    if s.active == map[] {
      step := StartNext;
    } else {
      var i :| i in s.active;
      assert ActiveCase(cases, s, i);
      step := if s.active[i].Done? then Complete(i) else Respond(i, Answer(scripts[i], s.active[i]));
    }
  }

  // ---- Results do not depend on the schedule ----

  /** Every port answers each case from its script. */
  ghost predicate Follows(cases: seq<Case>, jobs: nat, scripts: seq<Script>, steps: seq<Step>)
  {
    forall k :: 0 <= k < |steps| ==> AnswersFromScript(cases, jobs, scripts, steps, k)
  }

  ghost predicate AnswersFromScript(cases: seq<Case>, jobs: nat, scripts: seq<Script>, steps: seq<Step>, k: nat)
    requires k < |steps|
  {
    var s := After(cases, jobs, steps[..k]);
    steps[k].Respond? && s.Some? && Enabled(cases, jobs, s.value, steps[k]) && steps[k].index < |scripts|
    ==> steps[k].response == Answer(scripts[steps[k].index], s.value.active[steps[k].index])
  }

  lemma FollowsOne(cases: seq<Case>, jobs: nat, scripts: seq<Script>, steps: seq<Step>, s: State, step: Step)
    requires |scripts| == |cases| && Runs(cases, jobs, steps, s) && Follows(cases, jobs, scripts, steps)
    requires Enabled(cases, jobs, s, step)
    requires step.Respond? ==> step.response == Answer(scripts[step.index], s.active[step.index])
    ensures Runs(cases, jobs, steps + [step], Next(cases, jobs, s, step)) && Follows(cases, jobs, scripts, steps + [step])
  {
    var longer := steps + [step];
    assert longer[..|steps|] == steps;
    forall k: nat | k < |longer| ensures AnswersFromScript(cases, jobs, scripts, longer, k) {
      if k < |steps| {
        assert longer[..k] == steps[..k];
        assert AnswersFromScript(cases, jobs, scripts, steps, k);
      }
    }
  }

  /** Every run can be finished, and by `RunsAreShort` every way of going on finishes it. */
  lemma {:induction false} CanFinish(cases: seq<Case>, jobs: nat, scripts: seq<Script>, steps: seq<Step>, s: State)
    returns (more: seq<Step>, t: State)
    requires 1 <= jobs && |scripts| == |cases| && Runs(cases, jobs, steps, s) && Follows(cases, jobs, scripts, steps)
    ensures steps <= more && FinishedRun(cases, jobs, more, t) && Follows(cases, jobs, scripts, more)
    decreases Work(s, |cases|)
  {
    if FinishedRun(cases, jobs, steps, s) {
      more, t := steps, s;
    } else {
      var step := SomeStep(cases, jobs, scripts, steps, s);
      RunsKeepInvariant(cases, jobs, steps, s);
      StepWorks(cases, jobs, s, step);
      FollowsOne(cases, jobs, scripts, steps, s, step);
      more, t := CanFinish(cases, jobs, scripts, steps + [step], Next(cases, jobs, s, step));
    }
  }

  /** Every case in progress is on the way to its script's result, and every completed one has it. */
  ghost predicate OnScript(cases: seq<Case>, scripts: seq<Script>, s: State)
    requires |scripts| == |cases|
  {
    && (forall i :: i in s.active && i < |cases| ==> Drive(cases[i], s.active[i], scripts[i]) == Drive(cases[i], Acquiring, scripts[i]))
    && forall k :: 0 <= k < |s.completions| && s.completions[k].0 < |cases| ==>
                     s.completions[k].1 == Drive(cases[s.completions[k].0], Acquiring, scripts[s.completions[k].0])
  }

  lemma {:induction false} RunsStayOnScript(cases: seq<Case>, jobs: nat, scripts: seq<Script>, steps: seq<Step>, s: State)
    requires |scripts| == |cases| && Runs(cases, jobs, steps, s) && Follows(cases, jobs, scripts, steps)
    ensures OnScript(cases, scripts, s)
    decreases |steps|
  {
    if steps == [] {
    } else {
      var init, last := steps[..|steps| - 1], steps[|steps| - 1];
      var before := After(cases, jobs, init).value;
      forall k | 0 <= k < |init|
        ensures AnswersFromScript(cases, jobs, scripts, init, k)
      {
        assert AnswersFromScript(cases, jobs, scripts, steps, k);
        assert init[..k] == steps[..k];
      }
      RunsStayOnScript(cases, jobs, scripts, init, before);
      assert AnswersFromScript(cases, jobs, scripts, steps, |steps| - 1);
    }
  }

  /** Whatever the concurrency and the interleaving, a finished run arranges into each case's own scripted result. */
  lemma ScheduleIndependence(cases: seq<Case>, jobs: nat, scripts: seq<Script>, steps: seq<Step>, s: State)
    requires |scripts| == |cases| && FinishedRun(cases, jobs, steps, s) && Follows(cases, jobs, scripts, steps)
    ensures Permutes(s.completions, |cases|)
    ensures Arranges(s.completions, seq(|cases|, i requires 0 <= i < |cases| => Drive(cases[i], Acquiring, scripts[i])))
  {
    FinishedRunPermutes(cases, jobs, steps, s);
    RunsStayOnScript(cases, jobs, scripts, steps, s);
  }

  /** Completions seen so far split into those flushed in order and those still pending. */
  ghost predicate Buffered(completions: seq<(nat, CaseResult)>, k: nat, results: seq<CaseResult>, pending: map<nat, CaseResult>, next: nat)
    requires k <= |completions|
  {
    && next <= |results|
    && (forall i :: i in pending ==> next <= i < |results| && pending[i] == results[i] && Completed(completions[..k], i))
    && (forall j :: 0 <= j < k ==> completions[j].0 < next || completions[j].0 in pending)
    && (forall i: nat :: i < next ==> Completed(completions[..k], i))
  }

  /** A new completion is neither flushed nor pending, and joins the pending ones. */
  lemma BufferOne(completions: seq<(nat, CaseResult)>, k: nat, results: seq<CaseResult>, pending: map<nat, CaseResult>, next: nat)
    requires k < |completions| && Scheduled(completions, results)
    requires Buffered(completions, k, results, pending, next)
    ensures completions[k].0 !in pending
    ensures Buffered(completions, k + 1, results, pending[completions[k].0 := completions[k].1], next)
  {
    var index := completions[k].0;
    var a, b := completions[..k], completions[..k + 1];
    assert !Completed(a, index);
    assert b[k].0 == index;
    forall i | Completed(a, i)
      ensures Completed(b, i)
    {
      var j :| 0 <= j < k && a[j].0 == i;
      assert b[j].0 == i;
    }
  }

  /** Once every case has completed, nothing is left pending. */
  lemma AllFlushed(completions: seq<(nat, CaseResult)>, results: seq<CaseResult>, pending: map<nat, CaseResult>, ordered: seq<CaseResult>)
    requires Scheduled(completions, results) && ordered <= results
    requires Buffered(completions, |completions|, results, pending, |ordered|) && |ordered| !in pending
    ensures ordered == results
  {
    var next := |ordered|;
    assert next < |results| ==> Completed(completions, next);
    assert next == |results|;
  }

  lemma NothingBuffered(completions: seq<(nat, CaseResult)>, results: seq<CaseResult>)
    ensures Buffered(completions, 0, results, map[], 0)
  {
  }

  /** Flushes the longest run of consecutive results. */
  method Flush(sink: JsonlResultSink, ghost completions: seq<(nat, CaseResult)>, ghost k: nat, ghost results: seq<CaseResult>,
               pending0: map<nat, CaseResult>, ordered0: seq<CaseResult>)
    returns (pending: map<nat, CaseResult>, ordered: seq<CaseResult>, ok: bool)
    requires sink.Valid() && !sink.finished && k <= |completions|
    requires Buffered(completions, k, results, pending0, |ordered0|) && sink.appended == ordered0 <= results
    modifies sink
    ensures sink.Valid() && !sink.finished && sink.appended == ordered <= results
    ensures ok ==> Buffered(completions, k, results, pending, |ordered|) && |ordered| !in pending
    ensures (forall n :: sink.writes(n)) ==> ok
  {
    pending, ordered, ok := pending0, ordered0, true;
    var next := |ordered0|;
    while next in pending
      invariant sink.Valid() && !sink.finished && next == |ordered|
      invariant Buffered(completions, k, results, pending, next) && sink.appended == ordered <= results
      decreases |results| - next
    {
      var result := pending[next];
      pending := pending - {next};
      var r := sink.Append(next, result);
      if r.Err? {
        ok := false;
        return;
      }
      ordered := ordered + [result];
      next := next + 1;
    }
  }

  /** One completion arrives: it joins the pending results, and what is next in order is flushed. */
  method Arrive(sink: JsonlResultSink, completions: seq<(nat, CaseResult)>, k: nat, ghost results: seq<CaseResult>,
                pending0: map<nat, CaseResult>, ordered0: seq<CaseResult>)
    returns (pending: map<nat, CaseResult>, ordered: seq<CaseResult>, ok: bool)
    requires sink.Valid() && !sink.finished && k < |completions| && Scheduled(completions, results)
    requires Buffered(completions, k, results, pending0, |ordered0|) && sink.appended == ordered0 <= results
    modifies sink
    ensures sink.Valid() && !sink.finished && sink.appended == ordered <= results
    ensures ok ==> Buffered(completions, k + 1, results, pending, |ordered|) && |ordered| !in pending
    ensures (forall n :: sink.writes(n)) ==> ok
  {
    BufferOne(completions, k, results, pending0, |ordered0|);
    pending, ordered, ok := Flush(sink, completions, k + 1, results, pending0[completions[k].0 := completions[k].1], ordered0);
  }

  /** The completions are a permutation of the cases and arrange into these results. */
  ghost predicate Scheduled(completions: seq<(nat, CaseResult)>, results: seq<CaseResult>)
  {
    Permutes(completions, |completions|) && Arranges(completions, results)
  }

  /**
   For every order in which the cases complete, the results come back in source order and so does the log. It fails only
   when a write fails, and then what was appended is still a prefix of the results in order.
   */
  method Reorder(sink: JsonlResultSink, completions: seq<(nat, CaseResult)>, ghost results: seq<CaseResult>)
    returns (r: Result<seq<CaseResult>, RunError>)
    requires sink.Valid() && !sink.finished && sink.appended == [] && Scheduled(completions, results)
    modifies sink
    ensures sink.Valid() && !sink.finished && sink.appended <= results
    ensures r.Ok? ==> r.value == results && sink.appended == results
    ensures (forall n :: sink.writes(n)) ==> r.Ok?
  {
    var pending: map<nat, CaseResult> := map[];
    var ordered: seq<CaseResult> := [];
    NothingBuffered(completions, results);
    for k := 0 to |completions|
      invariant sink.Valid() && !sink.finished
      invariant Buffered(completions, k, results, pending, |ordered|) && |ordered| !in pending
      invariant sink.appended == ordered <= results
    {
      var ok;
      pending, ordered, ok := Arrive(sink, completions, k, results, pending, ordered);
      if !ok {
        return Err(SinkFailed);
      }
    }
    AllFlushed(completions, results, pending, ordered);
    return Ok(ordered);
  }

  // ---- The whole run ----

  /** Each case's own result at the case's place. */
  ghost predicate InCaseOrder(cases: seq<Case>, s: State, results: seq<CaseResult>)
  {
    && |results| == |cases| && Arranges(s.completions, results)
    && forall i :: 0 <= i < |cases| ==> Reports(cases[i], results[i])
  }

  lemma CaseOrder(cases: seq<Case>, jobs: nat, steps: seq<Step>, s: State) returns (results: seq<CaseResult>)
    requires FinishedRun(cases, jobs, steps, s)
    ensures Permutes(s.completions, |cases|) && InCaseOrder(cases, s, results)
  {
    FinishedRunPermutes(cases, jobs, steps, s);
    results := ArrangementExists(s.completions);
    RunsKeepInvariant(cases, jobs, steps, s);
    forall i: nat | i < |cases| ensures Reports(cases[i], results[i]) {
      var k := WhereIs(s.completions, i);
      assert CompletedCase(cases, s, k);
    }
  }

  lemma ArrangementUnique(completions: seq<(nat, CaseResult)>, a: seq<CaseResult>, b: seq<CaseResult>)
    requires Permutes(completions, |completions|) && Arranges(completions, a) && Arranges(completions, b)
    ensures a == b
  {
    forall i: nat | i < |completions| ensures a[i] == b[i] {
      assert completions[WhereIs(completions, i)].0 == i;
    }
  }

  /** When the ports answer from their scripts, the results in case order are the scripted ones, whatever the schedule. */
  lemma ResultsAreScripted(cases: seq<Case>, jobs: nat, scripts: seq<Script>, steps: seq<Step>, s: State, results: seq<CaseResult>)
    requires |scripts| == |cases| && FinishedRun(cases, jobs, steps, s) && Follows(cases, jobs, scripts, steps)
    requires InCaseOrder(cases, s, results)
    ensures forall i :: 0 <= i < |cases| ==> results[i] == Drive(cases[i], Acquiring, scripts[i])
  {
    ScheduleIndependence(cases, jobs, scripts, steps, s);
    ArrangementUnique(s.completions, results, seq(|cases|, i requires 0 <= i < |cases| => Drive(cases[i], Acquiring, scripts[i])));
  }

  /**
   The driver over any finished interleaving of a valid configuration: it returns and logs each case's own result in case
   order, or fails with a write, and then the log is a prefix of that one. An invalid configuration touches nothing.
   */
  method RunBenchmark(sink: JsonlResultSink, cases: seq<Case>, jobs: nat, mode: Mode, warmCapacity: nat, ghost steps: seq<Step>, s: State)
    returns (r: Result<seq<CaseResult>, RunError>, ghost results: seq<CaseResult>)
    requires sink.Valid() && !sink.finished && sink.appended == []
    requires ValidRun(cases, jobs, mode, warmCapacity) ==> FinishedRun(cases, jobs, steps, s)
    modifies sink
    ensures sink.Valid() && !sink.finished
    ensures !ValidRun(cases, jobs, mode, warmCapacity) ==> r.Err? && sink.log == old(sink.log)
    ensures ValidRun(cases, jobs, mode, warmCapacity) ==> InCaseOrder(cases, s, results) && Whole(sink.log) <= CaseLog(sink.descriptor, results)
    ensures r.Ok? ==> ValidRun(cases, jobs, mode, warmCapacity) && r.value == results && sink.appended == results
    ensures ValidRun(cases, jobs, mode, warmCapacity) && (forall n :: sink.writes(n)) ==> r.Ok?
  {
    results := [];
    var valid := ValidateRun(cases, jobs, mode, warmCapacity);
    if valid.Err? {
      return Err(valid.error), results;
    }
    results := CaseOrder(cases, jobs, steps, s);
    r := Reorder(sink, s.completions, results);
    LogIsPrefix(sink, results, 0);
  }

  predicate WithinDuration(results: seq<CaseResult>, maxCaseDurationMs: u64)
  {
    0 < maxCaseDurationMs && forall i :: 0 <= i < |results| ==> results[i].durationMs <= maxCaseDurationMs
  }

  /** A run's results summarise exactly when every agent kept to the duration limit: ids are distinct and no case is unattempted. */
  lemma RunSummarises(cases: seq<Case>, s: State, results: seq<CaseResult>, limits: Limits)
    requires cases != [] && DistinctCases(cases) && InCaseOrder(cases, s, results) && limits.maxCases == |cases|
    ensures Summarises(results, limits) <==> WithinDuration(results, limits.maxCaseDurationMs)
  {
    forall k: nat | k < |results|
      ensures FaultAt(results, limits, k) == if results[k].durationMs > limits.maxCaseDurationMs then Some(DurationExceeded) else None
    {
      assert Reports(cases[k], results[k]);
      if j :| 0 <= j < k && results[j].caseId == results[k].caseId {
        assert false;
      }
    }
  }

  /** Whether no agent that a script has run takes longer than the limit. */
  predicate AgentsInTime(cases: seq<Case>, scripts: seq<Script>, maxCaseDurationMs: u64)
    requires |scripts| == |cases|
  {
    && 0 < maxCaseDurationMs
    && forall i :: 0 <= i < |cases| && AsksAgent(cases[i], scripts[i]) && scripts[i].usage.Some? ==>
                     scripts[i].usage.value.durationMs <= maxCaseDurationMs
  }

  lemma ScriptedDuration(c: Case, s: Script)
    ensures Drive(c, Acquiring, s).durationMs == if AsksAgent(c, s) && s.usage.Some? then s.usage.value.durationMs else 0
  {
    if s.lease.Some? && ValidLease(c, s.lease.value) {
      PathToRelease(c, s, s.lease.value);
    }
  }

  /** Whether a run will be ended is decided by the agents' durations alone, before the run and whatever its schedule. */
  lemma EndsWhenAgentsInTime(cases: seq<Case>, jobs: nat, scripts: seq<Script>, steps: seq<Step>, s: State, results: seq<CaseResult>,
                             maxCaseDurationMs: u64)
    requires |scripts| == |cases| && FinishedRun(cases, jobs, steps, s) && Follows(cases, jobs, scripts, steps)
    requires InCaseOrder(cases, s, results)
    ensures WithinDuration(results, maxCaseDurationMs) <==> AgentsInTime(cases, scripts, maxCaseDurationMs)
  {
    ResultsAreScripted(cases, jobs, scripts, steps, s, results);
    forall i: nat | i < |cases|
      ensures results[i].durationMs == if AsksAgent(cases[i], scripts[i]) && scripts[i].usage.Some? then scripts[i].usage.value.durationMs else 0
    {
      ScriptedDuration(cases[i], scripts[i]);
    }
  }

  /** One agent that takes too long is enough: the cases have a finished run, and its results are not within the limit. */
  lemma LateRun(cases: seq<Case>, jobs: nat, scripts: seq<Script>, late: nat, maxCaseDurationMs: u64)
    returns (steps: seq<Step>, s: State, results: seq<CaseResult>)
    requires 1 <= jobs && |scripts| == |cases| && late < |cases|
    requires AsksAgent(cases[late], scripts[late]) && scripts[late].usage.Some? && scripts[late].usage.value.durationMs > maxCaseDurationMs
    ensures FinishedRun(cases, jobs, steps, s) && Follows(cases, jobs, scripts, steps) && InCaseOrder(cases, s, results)
    ensures !WithinDuration(results, maxCaseDurationMs)
  {
    steps, s := CanFinish(cases, jobs, scripts, [], IDLE);
    results := CaseOrder(cases, jobs, steps, s);
    EndsWhenAgentsInTime(cases, jobs, scripts, steps, s, results, maxCaseDurationMs);
  }

  /**
   With a writer that does not fail, the run of a valid configuration succeeds and logs every result. It ends with the summary
   of its results, and with a baseline when it is publishable, exactly when every case kept to the duration limit.
   */
  method RunAndFinish(sink: JsonlResultSink, cases: seq<Case>, jobs: nat, mode: Mode, warmCapacity: nat, ghost steps: seq<Step>, s: State,
                      durationMs: nat, maxCaseDurationMs: u64)
    returns (results: seq<CaseResult>, finished: Result<Completion, SinkError>)
    requires sink.Valid() && !sink.finished && sink.appended == [] && sink.descriptor.caseCount == |cases| && forall n :: sink.writes(n)
    requires ValidRun(cases, jobs, mode, warmCapacity) && FinishedRun(cases, jobs, steps, s)
    modifies sink
    ensures InCaseOrder(cases, s, results)
    ensures finished.Ok? <==> WithinDuration(results, maxCaseDurationMs)
    ensures finished.Ok? ==> finished == CompletionOf(sink.descriptor, SummaryOf(results))
    ensures Whole(sink.log) == if finished.Ok? then FullLog(sink.descriptor, results, durationMs) else CaseLog(sink.descriptor, results)
  {
    var r;
    ghost var expected;
    r, expected := RunBenchmark(sink, cases, jobs, mode, warmCapacity, steps, s);
    results := r.value;
    var limits := Limits(|cases|, maxCaseDurationMs);
    RunSummarises(cases, s, results, limits);
    finished := sink.Finish(results, durationMs, limits);
    LogIsPrefix(sink, results, durationMs);
  }
}
