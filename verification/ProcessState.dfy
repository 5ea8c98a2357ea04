/**
 One-shot lifecycle of a process dispatch attempt.
 Sources: Sources/GariveProcessProtocol/ProcessState.swift; status shape from Sources/GariveProcessProtocol/ProcessFrame.swift.
 */
module ProcessState {
  import opened Common
  import DigestEncoding
  import opened ProcessDigest

  datatype StateFailure = IdentityMismatch | StateConflict | InvalidTerminal

  datatype Owned = Absent | Starting | Running | TerminalRetained(receipt: Receipt)

  datatype ServiceState = UnspecifiedState | AbsentState | StartingState | RunningState | TerminalRetainedState | UnrecognizedState(raw: int)

  datatype Status = Status(identity: Option<Identity>, state: ServiceState, terminal: Option<Receipt>)

  /** What the frame layer admits as a terminal receipt and as a status. */
  predicate ValidTerminalShape(r: Receipt)
  {
    r.identity.Some? && r.exit.Some? && r.exit.value.classification.Some?
  }

  predicate ValidStatus(s: Status)
  {
    && s.identity.Some?
    && match s.state
       case AbsentState => s.terminal.None?
       case StartingState => s.terminal.None?
       case RunningState => s.terminal.None?
       case TerminalRetainedState => s.terminal.Some? && ValidTerminalShape(s.terminal.value)
       case _ => false
  }

  // ---- Specification ----

  datatype Command =
    | Start(identity: Identity)
    | MarkRunning(identity: Identity)
    | RetainTerminal(value: Receipt)
    | Query(identity: Identity)
    | Terminate(identity: Identity)
    | Acknowledge(identity: Identity, digest: DigestEncoding.Bytes)

  datatype State = State(owned: Owned, startConsumed: bool)

  const INITIAL := State(Absent, false)

  datatype Outcome = Outcome(state: State, result: Result<(), StateFailure>)

  function Refuse(s: State, f: StateFailure): (o: Outcome) { Outcome(s, Err(f)) }

  function Step(sha256: Sha256, own: Identity, s: State, c: Command): (o: Outcome)
  {
    match c
    case Start(id) =>
      if id != own then Refuse(s, IdentityMismatch)
      else if s.startConsumed || !s.owned.Absent? then Refuse(s, StateConflict)
      else Outcome(State(Starting, true), Ok(()))
    case MarkRunning(id) =>
      if id != own then Refuse(s, IdentityMismatch)
      else if !s.owned.Starting? then Refuse(s, StateConflict)
      else Outcome(s.(owned := Running), Ok(()))
    case RetainTerminal(r) =>
      if r.identity.None? then Refuse(s, InvalidTerminal)
      else if r.identity.value != own then Refuse(s, IdentityMismatch)
      else if !s.owned.Running? then Refuse(s, StateConflict)
      else
        var digest := ReceiptDigestOf(sha256, r);
        if digest.Err? then Refuse(s, InvalidTerminal)
        else Outcome(s.(owned := TerminalRetained(r.(receiptDigest := digest.value))), Ok(()))
    case Query(id) => if id != own then Refuse(s, IdentityMismatch) else Outcome(s, Ok(()))
    case Terminate(id) =>
      if id != own then Refuse(s, IdentityMismatch)
      else if s.owned.TerminalRetained? then Refuse(s, StateConflict)
      else Outcome(s.(owned := Absent), Ok(()))
    case Acknowledge(id, digest) =>
      if id != own then Refuse(s, IdentityMismatch)
      else if !s.owned.TerminalRetained? then Refuse(s, StateConflict)
      else if |digest| == 32 && s.owned.receipt.receiptDigest == digest then Outcome(s.(owned := Absent), Ok(()))
      else Refuse(s, IdentityMismatch)
  }

  function StatusOf(own: Identity, s: State): (status: Status)
  {
    match s.owned
    case Absent => Status(Some(own), AbsentState, None)
    case Starting => Status(Some(own), StartingState, None)
    case Running => Status(Some(own), RunningState, None)
    case TerminalRetained(r) => Status(Some(own), TerminalRetainedState, Some(r))
  }

  // ---- The reducer ----

  class ProcessStateReducer {
    const sha256: Sha256
    const identity: Identity
    var owned: Owned
    var startConsumed: bool

    ghost function View(): (s: State)
      reads this
    {
      State(owned, startConsumed)
    }

    /** Callers check the identity first, with `CreateReducer`. */
    constructor (sha256: Sha256, identity: Identity)
      ensures this.sha256 == sha256 && this.identity == identity && View() == INITIAL
    {
      this.sha256, this.identity := sha256, identity;
      owned, startConsumed := Absent, false;
    }

    method StartProcess(id: Identity) returns (r: Result<(), StateFailure>)
      modifies this
      ensures Outcome(View(), r) == Step(sha256, identity, old(View()), Start(id))
    {
      if id != identity {
        return Err(IdentityMismatch);
      }
      if startConsumed || !owned.Absent? {
        return Err(StateConflict);
      }
      startConsumed := true;
      owned := Starting;
      return Ok(());
    }

    method MarkProcessRunning(id: Identity) returns (r: Result<(), StateFailure>)
      modifies this
      ensures Outcome(View(), r) == Step(sha256, identity, old(View()), MarkRunning(id))
    {
      if id != identity {
        return Err(IdentityMismatch);
      }
      if !owned.Starting? {
        return Err(StateConflict);
      }
      owned := Running;
      return Ok(());
    }

    method Retain(value: Receipt) returns (r: Result<(), StateFailure>)
      modifies this
      ensures Outcome(View(), r) == Step(sha256, identity, old(View()), RetainTerminal(value))
    {
      if value.identity.None? {
        return Err(InvalidTerminal);
      }
      if value.identity.value != identity {
        return Err(IdentityMismatch);
      }
      if !owned.Running? {
        return Err(StateConflict);
      }
      var digest := ReceiptDigest(sha256, value);
      if digest.Err? {
        return Err(InvalidTerminal);
      }
      owned := TerminalRetained(value.(receiptDigest := digest.value));
      return Ok(());
    }

    method QueryStatus(id: Identity) returns (r: Result<Status, StateFailure>)
      ensures r == if id == identity then Ok(StatusOf(identity, View())) else Err(IdentityMismatch)
    {
      if id != identity {
        return Err(IdentityMismatch);
      }
      match owned {
        case Absent => return Ok(Status(Some(identity), AbsentState, None));
        case Starting => return Ok(Status(Some(identity), StartingState, None));
        case Running => return Ok(Status(Some(identity), RunningState, None));
        case TerminalRetained(receipt) => return Ok(Status(Some(identity), TerminalRetainedState, Some(receipt)));
      }
    }

    method TerminateProcess(id: Identity) returns (r: Result<(), StateFailure>)
      modifies this
      ensures Outcome(View(), r) == Step(sha256, identity, old(View()), Terminate(id))
    {
      if id != identity {
        return Err(IdentityMismatch);
      }
      if owned.TerminalRetained? {
        return Err(StateConflict);
      }
      owned := Absent;
      return Ok(());
    }

    method AcknowledgeReceipt(id: Identity, digest: DigestEncoding.Bytes) returns (r: Result<(), StateFailure>)
      modifies this
      ensures Outcome(View(), r) == Step(sha256, identity, old(View()), Acknowledge(id, digest))
    {
      if id != identity {
        return Err(IdentityMismatch);
      }
      if !owned.TerminalRetained? {
        return Err(StateConflict);
      }
      if |digest| != 32 || owned.receipt.receiptDigest != digest {
        return Err(IdentityMismatch);
      }
      owned := Absent;
      return Ok(());
    }
  }

  /** Initialisation fails unless the identity is valid and carries a workload digest. */
  method CreateReducer(sha256: Sha256, identity: Identity) returns (r: Result<ProcessStateReducer, StateFailure>)
    ensures r.Ok? <==> ValidIdentity(identity) && |identity.workloadDigest| == 32
    ensures r.Err? ==> r.error == IdentityMismatch
    ensures r.Ok? ==> r.value.identity == identity && r.value.sha256 == sha256 && r.value.View() == INITIAL
  {
    if !ValidIdentity(identity) || |identity.workloadDigest| != 32 {
      return Err(IdentityMismatch);
    }
    var reducer := new ProcessStateReducer(sha256, identity);
    return Ok(reducer);
  }

  // ---- Runs ----

  type Run = seq<Command>

  /** State before command `k` of a run. */
  function Before(sha256: Sha256, own: Identity, run: Run, k: nat): (s: State)
    requires k <= |run|
  {
    if k == 0 then INITIAL else Step(sha256, own, Before(sha256, own, run, k - 1), run[k - 1]).state
  }

  predicate Succeeds(sha256: Sha256, own: Identity, run: Run, k: nat)
    requires k < |run|
  {
    Step(sha256, own, Before(sha256, own, run, k), run[k]).result.Ok?
  }

  /** Progress of the one attempt: not started, starting, running, retained, over. */
  function Phase(s: State): (n: nat)
  {
    match s.owned
    case Absent => if s.startConsumed then 4 else 0
    case Starting => 1
    case Running => 2
    case TerminalRetained(_) => 3
  }

  /** The phase a one-shot command leaves; queries and terminations have none. */
  function Slot(c: Command): (n: Option<nat>)
  {
    match c
    case Start(_) => Some(0)
    case MarkRunning(_) => Some(1)
    case RetainTerminal(_) => Some(2)
    case Acknowledge(_, _) => Some(3)
    case _ => None
  }

  /** What holds of every reachable state. */
  ghost predicate Sound(sha256: Sha256, own: Identity, s: State)
  {
    && (s.startConsumed || s.owned.Absent?)
    && (s.owned.TerminalRetained? ==>
          && ValidReceipt(s.owned.receipt)
          && s.owned.receipt.identity == Some(own)
          && ReceiptDigestOf(sha256, s.owned.receipt) == Ok(s.owned.receipt.receiptDigest))
  }

  lemma StepKeepsSound(sha256: Sha256, own: Identity, s: State, c: Command)
    requires Sound(sha256, own, s)
    ensures Sound(sha256, own, Step(sha256, own, s, c).state)
  {
    var t := Step(sha256, own, s, c).state;
    if c.RetainTerminal? && t != s {
      assert BoundReceipt(t.owned.receipt) == BoundReceipt(c.value);
    }
  }

  lemma {:induction false} RunsAreSound(sha256: Sha256, own: Identity, run: Run, k: nat)
    requires k <= |run|
    ensures Sound(sha256, own, Before(sha256, own, run, k))
  {
    if k == 0 {
    } else {
      RunsAreSound(sha256, own, run, k - 1);
      StepKeepsSound(sha256, own, Before(sha256, own, run, k - 1), run[k - 1]);
    }
  }

  /** A one-shot command succeeds only in its slot and moves past it; every other command never moves back. */
  lemma StepAdvances(sha256: Sha256, own: Identity, s: State, c: Command)
    requires Sound(sha256, own, s)
    ensures var o := Step(sha256, own, s, c);
            && Phase(s) <= Phase(o.state)
            && (o.result.Ok? && Slot(c).Some? ==> Phase(s) == Slot(c).value && Phase(o.state) == Slot(c).value + 1)
            && (o.result.Err? ==> o.state == s)
  {
  }

  lemma {:induction false} PhaseGrows(sha256: Sha256, own: Identity, run: Run, j: nat, k: nat)
    requires j <= k <= |run|
    ensures Phase(Before(sha256, own, run, j)) <= Phase(Before(sha256, own, run, k))
    decreases k
  {
    if j == k {
    } else {
      PhaseGrows(sha256, own, run, j, k - 1);
      RunsAreSound(sha256, own, run, k - 1);
      StepAdvances(sha256, own, Before(sha256, own, run, k - 1), run[k - 1]);
    }
  }

  /** In every run the successful start, mark, retain and acknowledge are in that order, each at most once. */
  lemma OneShot(sha256: Sha256, own: Identity, run: Run, j: nat, k: nat)
    requires j < k < |run| && Succeeds(sha256, own, run, j) && Succeeds(sha256, own, run, k)
    requires Slot(run[j]).Some? && Slot(run[k]).Some?
    ensures Slot(run[j]).value < Slot(run[k]).value
  {
    RunsAreSound(sha256, own, run, j);
    RunsAreSound(sha256, own, run, k);
    StepAdvances(sha256, own, Before(sha256, own, run, j), run[j]);
    StepAdvances(sha256, own, Before(sha256, own, run, k), run[k]);
    PhaseGrows(sha256, own, run, j + 1, k);
  }

  /** Each later command of the attempt needs the earlier ones, and no termination in between. */
  lemma {:induction false} NeedsPredecessor(sha256: Sha256, own: Identity, run: Run, k: nat) returns (j: nat)
    requires k < |run| && Succeeds(sha256, own, run, k) && Slot(run[k]).Some? && Slot(run[k]).value > 0
    ensures j < k && Succeeds(sha256, own, run, j) && Slot(run[j]) == Some(Slot(run[k]).value - 1)
    ensures forall i :: j < i < k && Succeeds(sha256, own, run, i) ==> run[i].Query?
  {
    RunsAreSound(sha256, own, run, k);
    StepAdvances(sha256, own, Before(sha256, own, run, k), run[k]);
    j := EnteredBy(sha256, own, run, k);
  }

  /** A live phase was entered by its one-shot command, and only queries succeeded since. */
  lemma {:induction false} EnteredBy(sha256: Sha256, own: Identity, run: Run, k: nat) returns (j: nat)
    requires k <= |run| && 1 <= Phase(Before(sha256, own, run, k)) <= 3
    ensures j < k && Succeeds(sha256, own, run, j) && Slot(run[j]) == Some(Phase(Before(sha256, own, run, k)) - 1)
    ensures Before(sha256, own, run, j + 1) == Before(sha256, own, run, k)
    ensures forall i :: j < i < k && Succeeds(sha256, own, run, i) ==> run[i].Query?
  {
    var s := Before(sha256, own, run, k - 1);
    RunsAreSound(sha256, own, run, k - 1);
    StepAdvances(sha256, own, s, run[k - 1]);
    if Succeeds(sha256, own, run, k - 1) && !run[k - 1].Query? {
      j := k - 1;
    } else {
      j := EnteredBy(sha256, own, run, k - 1);
    }
  }

  /** The receipt a run retains is the one it was given, with its own digest, until it is acknowledged with exactly that digest. */
  lemma RetainedUntilAcknowledged(sha256: Sha256, own: Identity, run: Run, k: nat) returns (j: nat)
    requires k < |run| && Succeeds(sha256, own, run, k) && run[k].Acknowledge?
    ensures j < k && run[j].RetainTerminal? && Succeeds(sha256, own, run, j)
    ensures forall i :: j < i <= k ==> Before(sha256, own, run, i).owned == TerminalRetained(run[j].value.(receiptDigest := run[k].digest))
    ensures ReceiptDigestOf(sha256, run[j].value) == Ok(run[k].digest)
  {
    RunsAreSound(sha256, own, run, k);
    j := NeedsPredecessor(sha256, own, run, k);
    assert run[j].RetainTerminal?;
    forall i | j < i <= k
      ensures Before(sha256, own, run, i) == Before(sha256, own, run, j + 1)
    {
      OnlyQueries(sha256, own, run, j + 1, i);
    }
  }

  lemma {:induction false} OnlyQueries(sha256: Sha256, own: Identity, run: Run, a: nat, b: nat)
    requires a <= b <= |run|
    requires forall i :: a <= i < b && Succeeds(sha256, own, run, i) ==> run[i].Query?
    ensures Before(sha256, own, run, b) == Before(sha256, own, run, a)
    decreases b
  {
    if a == b {
    } else {
      OnlyQueries(sha256, own, run, a, b - 1);
      if Succeeds(sha256, own, run, b - 1) {
        assert run[b - 1].Query?;
      }
    }
  }

  /** Once a start has succeeded, no later command re-enables it. */
  lemma StartNeverReturns(sha256: Sha256, own: Identity, run: Run, j: nat, k: nat)
    requires j < k < |run| && run[j].Start? && Succeeds(sha256, own, run, j) && run[k].Start?
    ensures !Succeeds(sha256, own, run, k)
  {
    if Succeeds(sha256, own, run, k) {
      OneShot(sha256, own, run, j, k);
    }
  }

  /** Every status a query of any run returns is one the frame layer admits. */
  lemma {:induction false} QueriedStatusIsValid(sha256: Sha256, own: Identity, run: Run, k: nat)
    requires k <= |run|
    ensures ValidStatus(StatusOf(own, Before(sha256, own, run, k)))
  {
    RunsAreSound(sha256, own, run, k);
  }

  // ---- Which commands succeed, from the history alone ----

  /** The last successful command before `k` that was not a query. */
  function LastDone(sha256: Sha256, own: Identity, run: Run, k: nat): (c: Option<Command>)
    requires k <= |run|
  {
    if k == 0 then None
    else if Succeeds(sha256, own, run, k - 1) && !run[k - 1].Query? then Some(run[k - 1])
    else LastDone(sha256, own, run, k - 1)
  }

  ghost predicate Started(sha256: Sha256, own: Identity, run: Run, k: nat)
    requires k <= |run|
  {
    exists j :: 0 <= j < k && Succeeds(sha256, own, run, j) && run[j].Start?
  }

  /** What the last successful command leaves owned. */
  function OwnedAfter(sha256: Sha256, last: Option<Command>): (o: Owned)
  {
    if last.None? then Absent
    else
      match last.value
      case Start(_) => Starting
      case MarkRunning(_) => Running
      case RetainTerminal(r) =>
        var digest := ReceiptDigestOf(sha256, r);
        if digest.Ok? then TerminalRetained(r.(receiptDigest := digest.value)) else Absent
      case _ => Absent
  }

  /** Whether a command may succeed, given the last successful one and whether a start ever did. */
  predicate May(sha256: Sha256, own: Identity, last: Option<Command>, started: bool, c: Command)
  {
    match c
    case Start(id) => id == own && !started
    case MarkRunning(id) => id == own && last.Some? && last.value.Start?
    case RetainTerminal(r) =>
      r.identity == Some(own) && last.Some? && last.value.MarkRunning? && ReceiptDigestOf(sha256, r).Ok?
    case Query(id) => id == own
    case Terminate(id) => id == own && !(last.Some? && last.value.RetainTerminal?)
    case Acknowledge(id, digest) =>
      id == own && |digest| == 32 && last.Some? && last.value.RetainTerminal? && ReceiptDigestOf(sha256, last.value.value) == Ok(digest)
  }

  /** Why a command that may not succeed fails. */
  function WhyNot(own: Identity, last: Option<Command>, c: Command): (f: StateFailure)
  {
    match c
    case RetainTerminal(r) =>
      if r.identity == None then InvalidTerminal
      else if r.identity != Some(own) then IdentityMismatch
      else if last.Some? && last.value.MarkRunning? then InvalidTerminal
      else StateConflict
    case Acknowledge(id, _) =>
      if id == own && !(last.Some? && last.value.RetainTerminal?) then StateConflict else IdentityMismatch
    case _ => if c.identity == own then StateConflict else IdentityMismatch
  }

  /** The last successful command had a digest to retain, and nothing is owned before a start. */
  predicate Consistent(sha256: Sha256, last: Option<Command>, started: bool)
  {
    && (started || OwnedAfter(sha256, last).Absent?)
    && (last.Some? && last.value.RetainTerminal? ==> ReceiptDigestOf(sha256, last.value.value).Ok?)
  }

  lemma StepIsHistory(sha256: Sha256, own: Identity, last: Option<Command>, started: bool, c: Command)
    requires Consistent(sha256, last, started)
    ensures var o := Step(sha256, own, State(OwnedAfter(sha256, last), started), c);
            var next := if o.result.Ok? && !c.Query? then Some(c) else last;
            && (o.result.Ok? <==> May(sha256, own, last, started, c))
            && (o.result.Err? ==> o.result.error == WhyNot(own, last, c))
            && o.state == State(OwnedAfter(sha256, next), started || (o.result.Ok? && c.Start?))
            && Consistent(sha256, next, o.state.startConsumed)
  {
  }

  lemma StartedStep(sha256: Sha256, own: Identity, run: Run, k: nat)
    requires k < |run|
    ensures Started(sha256, own, run, k + 1) <==> Started(sha256, own, run, k) || (Succeeds(sha256, own, run, k) && run[k].Start?)
  {
  }

  /** In every run the state is a summary of the successful commands. */
  lemma {:induction false} StateIsHistory(sha256: Sha256, own: Identity, run: Run, k: nat)
    requires k <= |run|
    ensures var last, started := LastDone(sha256, own, run, k), Started(sha256, own, run, k);
            Before(sha256, own, run, k) == State(OwnedAfter(sha256, last), started) && Consistent(sha256, last, started)
  {
    if k == 0 {
    } else {
      StateIsHistory(sha256, own, run, k - 1);
      StartedStep(sha256, own, run, k - 1);
      StepIsHistory(sha256, own, LastDone(sha256, own, run, k - 1), Started(sha256, own, run, k - 1), run[k - 1]);
    }
  }

  /** In every run a command succeeds if and only if the successful commands before it allow it. */
  lemma SucceedsIffAllowed(sha256: Sha256, own: Identity, run: Run, k: nat)
    requires k < |run|
    ensures Succeeds(sha256, own, run, k) <==>
            May(sha256, own, LastDone(sha256, own, run, k), Started(sha256, own, run, k), run[k])
    ensures !Succeeds(sha256, own, run, k) ==>
              Step(sha256, own, Before(sha256, own, run, k), run[k]).result == Err(WhyNot(own, LastDone(sha256, own, run, k), run[k]))
  {
    StateIsHistory(sha256, own, run, k);
    StepIsHistory(sha256, own, LastDone(sha256, own, run, k), Started(sha256, own, run, k), run[k]);
  }

  /** What a query must answer after the last successful command: the state it left, and the receipt it retained under its own digest. */
  ghost predicate Answers(sha256: Sha256, own: Identity, last: Option<Command>, status: Status)
  {
    && status.identity == Some(own)
    && if last.Some? && last.value.Start? then status.state == StartingState && status.terminal == None
       else if last.Some? && last.value.MarkRunning? then status.state == RunningState && status.terminal == None
       else if last.Some? && last.value.RetainTerminal? then
         && status.state == TerminalRetainedState && status.terminal.Some?
         && status.terminal.value == last.value.value.(receiptDigest := status.terminal.value.receiptDigest)
         && ReceiptDigestOf(sha256, last.value.value) == Ok(status.terminal.value.receiptDigest)
       else status.state == AbsentState && status.terminal == None
  }

  /** In every run a query answers with the state the last successful command left. */
  lemma QueryAnswers(sha256: Sha256, own: Identity, run: Run, k: nat)
    requires k <= |run|
    ensures Answers(sha256, own, LastDone(sha256, own, run, k), StatusOf(own, Before(sha256, own, run, k)))
  {
    StateIsHistory(sha256, own, run, k);
  }
}
