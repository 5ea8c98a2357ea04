/**
 Whole lives of the export service: operations one after the other, stops at any durable state, and restarts.
 Source: desktop/backend/src/artifact_export.rs.
 */
module ExportLives {
  import opened ArtifactExport
  import opened Common
  import opened ExportJournal
  import opened ExportSteps

  // ---- Lives ----

  datatype Op = Admission(a: Selection) | Exporting(req: Request, now: nat, f: Faults)

  /** An operation runs to its end, or the process stops after that many of its durable writes and restarts. */
  datatype Action = Run(op: Op) | Stop(op: Op, point: nat)

  function Perform(sha256: Sha256, s: State, op: Op): (t: Step)
  {
    match op
    case Admission(a) => Admit(s, a)
    case Exporting(req, now, f) => Export(sha256, s, req, now, f)
  }

  function Restarted(s: State, passed: seq<Disk>): (t: Step)
  {
    var d := End(s.disk, passed);
    var r := Reopened(d);
    if r.Ok? then Step(r.value, Ok(()), passed) else Step(State(d, {}, map[]), Err(r.error), passed)
  }

  function Truncated(passed: seq<Disk>, n: nat): (r: seq<Disk>) { if n <= |passed| then passed[..n] else passed }

  function Act(sha256: Sha256, s: State, action: Action): (t: Step)
  {
    var whole := Perform(sha256, s, action.op);
    if action.Run? then whole
    else Restarted(s, Truncated(whole.passed, action.point))
  }

  /** What an action does in a state. */
  type Behaviour = (State, Action) -> Step

  function Service(sha256: Sha256): (act: Behaviour) { (s, action) => Act(sha256, s, action) }

  /** This is how the service behaves. */
  ghost predicate Serves(act: Behaviour, sha256: Sha256) { forall s, action :: ActsAs(act, sha256, s, action) }

  ghost predicate ActsAs(act: Behaviour, sha256: Sha256, s: State, action: Action) { act(s, action) == Act(sha256, s, action) }

  lemma ServiceServes(sha256: Sha256)
    ensures Serves(Service(sha256), sha256)
  {
    forall s, action ensures ActsAs(Service(sha256), sha256, s, action) {
    }
  }

  /** The state before action `k` of a life that began on this disk. */
  function At(act: Behaviour, first: Disk, actions: seq<Action>, k: nat): (s: State)
    requires k <= |actions|
  {
    if k == 0 then State(first, first.journal, map[]) else act(At(act, first, actions, k - 1), actions[k - 1]).state
  }

  /** What action `k` of a life did: its result, the state after it, and the durable states it passed. */
  function Done(act: Behaviour, first: Disk, actions: seq<Action>, k: nat): (t: Step)
    requires k < |actions|
  {
    act(At(act, first, actions, k), actions[k])
  }

  /** Every durable state of a life before action `k`, in order. */
  function DurableStates(act: Behaviour, first: Disk, actions: seq<Action>, k: nat): (disks: seq<Disk>)
    requires k <= |actions|
  {
    if k == 0 then [first] else DurableStates(act, first, actions, k - 1) + Done(act, first, actions, k - 1).passed
  }

  /** The ids whose temporary file an export created, could not unlink, and yet struck from the journal. */
  function Lost(act: Behaviour, sha256: Sha256, first: Disk, actions: seq<Action>, k: nat): (ids: set<Id>)
    requires k <= |actions|
  {
    if k == 0 then {}
    else Lost(act, sha256, first, actions, k - 1) + LostBy(sha256, At(act, first, actions, k - 1), actions[k - 1])
  }

  /** An export that is stopped before its last durable write has not struck anything. */
  function LostBy(sha256: Sha256, s: State, action: Action): (ids: set<Id>)
  {
    if action.op.Exporting? && (action.Stop? ==> |Perform(sha256, s, action.op).passed| <= action.point)
    then LostByExport(sha256, s, action.op.req, action.op.now, action.op.f) else {}
  }

  /** A disk on which a life may begin: the service can start from it and no temporary file is unknown to the journal. */
  ghost predicate Beginning(first: Disk) { Safe(first, {}) }

  // ---- Every durable state can be restarted from and knows its temporary files ----

  lemma PerformSafe(sha256: Sha256, s: State, op: Op, lost: set<Id>)
    requires Sound(s, lost)
    ensures StepSafe(Perform(sha256, s, op), lost + LostBy(sha256, s, Run(op)))
    ensures LostBy(sha256, s, Run(op)) != {} ==> SafeUntilLast(Perform(sha256, s, op).passed, lost)
  {
    match op
    case Admission(a) =>
      AdmitSafe(s, a, lost);
      assert lost + LostBy(sha256, s, Run(op)) == lost;
    case Exporting(req, now, f) => ExportSafe(sha256, s, req, now, f, lost);
  }

  lemma RestartedSafe(s: State, passed: seq<Disk>, lost: set<Id>)
    requires Safe(s.disk, lost) && AllSafe(passed, lost)
    ensures StepSafe(Restarted(s, passed), lost) && Restarted(s, passed).result.Ok?
  {
  }

  lemma TruncatedSafe(disks: seq<Disk>, n: nat, lost: set<Id>)
    requires AllSafe(disks, lost) || (n < |disks| && SafeUntilLast(disks, lost))
    ensures AllSafe(Truncated(disks, n), lost)
  {
    if n < |disks| && SafeUntilLast(disks, lost) {
      forall k | 0 <= k < n ensures Safe(disks[k], lost) {
        assert disks[k] == disks[..|disks| - 1][k];
      }
    }
  }

  lemma ActSafe(sha256: Sha256, s: State, action: Action, lost: set<Id>)
    requires Sound(s, lost)
    ensures StepSafe(Act(sha256, s, action), lost + LostBy(sha256, s, action))
    ensures action.Stop? ==> Act(sha256, s, action).result.Ok?
  {
    PerformSafe(sha256, s, action.op, lost);
    if action.Stop? {
      var whole, all := Perform(sha256, s, action.op).passed, lost + LostBy(sha256, s, action);
      CoveredMore(s.disk.files, s.disk.journal + lost, s.disk.journal + all);
      if LostBy(sha256, s, action) != LostBy(sha256, s, Run(action.op)) {
        assert all == lost;
      }
      TruncatedSafe(whole, action.point, all);
      RestartedSafe(s, Truncated(whole, action.point), all);
    }
  }

  ghost predicate SafeBehaviour(act: Behaviour, sha256: Sha256)
  {
    forall s, action, lost :: ActsSafely(act, sha256, s, action, lost)
  }

  ghost predicate ActsSafely(act: Behaviour, sha256: Sha256, s: State, action: Action, lost: set<Id>)
  {
    Sound(s, lost) ==> StepSafe(act(s, action), lost + LostBy(sha256, s, action))
  }

  lemma ServiceSafe(act: Behaviour, sha256: Sha256)
    requires Serves(act, sha256)
    ensures SafeBehaviour(act, sha256)
  {
    forall s, action, lost ensures ActsSafely(act, sha256, s, action, lost) {
      assert ActsAs(act, sha256, s, action);
      if Sound(s, lost) {
        ActSafe(sha256, s, action, lost);
      }
    }
  }

  lemma BeginningSafe(first: Disk)
    requires Beginning(first)
    ensures Sound(State(first, first.journal, map[]), {}) && AllSafe([first], {})
  {
  }

  lemma {:induction false} SafeLife(act: Behaviour, sha256: Sha256, first: Disk, actions: seq<Action>, k: nat)
    requires SafeBehaviour(act, sha256) && Beginning(first) && k <= |actions|
    ensures AllSafe(DurableStates(act, first, actions, k), Lost(act, sha256, first, actions, k))
    ensures Sound(At(act, first, actions, k), Lost(act, sha256, first, actions, k))
  {
    if k == 0 {
      BeginningSafe(first);
    } else {
      var s, disks := At(act, first, actions, k - 1), DurableStates(act, first, actions, k - 1);
      var lost := Lost(act, sha256, first, actions, k - 1);
      SafeLife(act, sha256, first, actions, k - 1);
      assert ActsSafely(act, sha256, s, actions[k - 1], lost);
      SafeMore(s, disks, lost, Lost(act, sha256, first, actions, k));
      SafeConcat(disks, act(s, actions[k - 1]).passed, Lost(act, sha256, first, actions, k));
    }
  }

  /**
   In every life, with stops at any durable state: the service can restart from every durable state ever passed, and each of its
   temporary files belongs to its journal or to an export that could not unlink it and struck its own journal entry.
   */
  lemma LivesAreSafe(act: Behaviour, sha256: Sha256, first: Disk, actions: seq<Action>)
    requires Serves(act, sha256)
    requires Beginning(first)
    ensures forall d :: d in DurableStates(act, first, actions, |actions|) ==> Reopened(d).Ok?
    ensures forall d, id :: d in DurableStates(act, first, actions, |actions|) && Temp(id) in d.files ==>
                              id in d.journal || id in Lost(act, sha256, first, actions, |actions|)
  {
    ServiceSafe(act, sha256);
    SafeLife(act, sha256, first, actions, |actions|);
    forall d | d in DurableStates(act, first, actions, |actions|) ensures Safe(d, Lost(act, sha256, first, actions, |actions|)) {
    }
  }

  lemma {:induction false} NothingLost(act: Behaviour, sha256: Sha256, first: Disk, actions: seq<Action>, k: nat)
    requires k <= |actions|
    requires forall j :: 0 <= j < k && actions[j].op.Exporting? ==> !actions[j].op.f.unlinkFails
    ensures Lost(act, sha256, first, actions, k) == {}
  {
    if k == 0 {
    } else {
      NothingLost(act, sha256, first, actions, k - 1);
    }
  }

  /** As long as exports can unlink their temporary files, the journal of every durable state covers every temporary file. */
  lemma JournalCovers(act: Behaviour, sha256: Sha256, first: Disk, actions: seq<Action>)
    requires Serves(act, sha256)
    requires Beginning(first)
    requires forall j :: 0 <= j < |actions| && actions[j].op.Exporting? ==> !actions[j].op.f.unlinkFails
    ensures forall d :: d in DurableStates(act, first, actions, |actions|) ==> Covered(d.files, d.journal)
  {
    NothingLost(act, sha256, first, actions, |actions|);
    LivesAreSafe(act, sha256, first, actions);
  }

  /** In every life every restart succeeds. */
  lemma RestartsSucceed(act: Behaviour, sha256: Sha256, first: Disk, actions: seq<Action>, k: nat)
    requires Serves(act, sha256)
    requires Beginning(first) && k < |actions| && actions[k].Stop?
    ensures Done(act, first, actions, k).result.Ok?
  {
    ServiceSafe(act, sha256);
    SafeLife(act, sha256, first, actions, k);
    assert ActsAs(act, sha256, At(act, first, actions, k), actions[k]);
    ActSafe(sha256, At(act, first, actions, k), actions[k], Lost(act, sha256, first, actions, k));
  }

  // ---- Cleaning up after a stop ----

  lemma AdmitLeavesLost(s: State, a: Selection, lost: set<Id>)
    requires Sound(s, lost) && forall id :: !a.unlinkFails(id)
    ensures Admit(s, a).result.Ok? ==> Covered(Admit(s, a).state.disk.files, lost)
  {
    forall id ensures Admit(s, a).result.Ok? && Temp(id) in Admit(s, a).state.disk.files ==> id in lost {
      AdmitCleans(s, a, lost, id);
    }
  }

  /** In every life a successful admission that can unlink leaves no temporary file but the lost ones. */
  lemma AdmissionCleans(act: Behaviour, sha256: Sha256, first: Disk, actions: seq<Action>, k: nat, a: Selection)
    requires Serves(act, sha256)
    requires Beginning(first) && k < |actions| && actions[k] == Run(Admission(a)) && forall id :: !a.unlinkFails(id)
    ensures var t := Done(act, first, actions, k); t.result.Ok? ==> Covered(t.state.disk.files, Lost(act, sha256, first, actions, k))
  {
    ServiceSafe(act, sha256);
    SafeLife(act, sha256, first, actions, k);
    assert ActsAs(act, sha256, At(act, first, actions, k), actions[k]);
    AdmitLeavesLost(At(act, first, actions, k), a, Lost(act, sha256, first, actions, k));
  }

  lemma RestartDropsTargets(sha256: Sha256, s: State, action: Action)
    requires action.Stop?
    ensures Act(sha256, s, action).state.targets == map[]
  {
  }

  lemma FirstAdmissionSucceeds(s: State, a: Selection)
    requires ValidJournal(s.pending) && s.targets == map[] && Checked(s.disk.files, a).Ok? && a.how == Written && !a.timestampFails
    ensures Admit(s, a).result.Ok?
  {
    AdmitSucceeds(s, a);
    FirstAnswer(s, a);
  }

  /** Stop anywhere, restart, and admit a free name: the admission succeeds and no temporary file is left but the lost ones. */
  lemma CleanAfterRestart(act: Behaviour, sha256: Sha256, first: Disk, actions: seq<Action>, k: nat, a: Selection)
    requires Serves(act, sha256)
    requires Beginning(first) && 0 < k < |actions| && actions[k - 1].Stop? && actions[k] == Run(Admission(a))
    requires a.how == Written && !a.timestampFails && forall id :: !a.unlinkFails(id)
    ensures var s, t := At(act, first, actions, k), Done(act, first, actions, k);
            Checked(s.disk.files, a).Ok? ==> t.result.Ok? && Covered(t.state.disk.files, Lost(act, sha256, first, actions, k))
  {
    var s := At(act, first, actions, k);
    ServiceSafe(act, sha256);
    SafeLife(act, sha256, first, actions, k);
    assert ActsAs(act, sha256, At(act, first, actions, k - 1), actions[k - 1]) && ActsAs(act, sha256, s, actions[k]);
    RestartDropsTargets(sha256, At(act, first, actions, k - 1), actions[k - 1]);
    if Checked(s.disk.files, a).Ok? {
      FirstAdmissionSucceeds(s, a);
    }
    AdmissionCleans(act, sha256, first, actions, k, a);
  }

  // ---- Nothing is ever overwritten ----

  lemma PerformChain(sha256: Sha256, s: State, op: Op)
    ensures StepChain(s, Perform(sha256, s, op))
  {
    match op {
      case Admission(a) =>
        if Checked(s.disk.files, a).Ok? {
          CleanupChain(s, a.unlinkFails, a.how);
        }
      case Exporting(req, now, f) => ExportChain(sha256, s, req, now, f);
    }
  }

  lemma RestartedChain(s: State, passed: seq<Disk>, n: nat)
    requires Chain(s.disk, passed)
    ensures StepChain(s, Restarted(s, Truncated(passed, n)))
  {
    forall k | 0 <= k < |Truncated(passed, n)| ensures KeepsAt(s.disk, Truncated(passed, n), k) {
      assert KeepsAt(s.disk, passed, k);
    }
  }

  ghost predicate ActsInChain(act: Behaviour, s: State, action: Action) { StepChain(s, act(s, action)) }

  ghost predicate ChainBehaviour(act: Behaviour) { forall s, action :: ActsInChain(act, s, action) }

  lemma ServiceChain(act: Behaviour, sha256: Sha256)
    requires Serves(act, sha256)
    ensures ChainBehaviour(act)
  {
    forall s, action ensures ActsInChain(act, s, action) {
      assert ActsAs(act, sha256, s, action);
      PerformChain(sha256, s, action.op);
      if action.Stop? {
        RestartedChain(s, Perform(sha256, s, action.op).passed, action.point);
      }
    }
  }

  lemma {:induction false} LifeChain(act: Behaviour, first: Disk, actions: seq<Action>, k: nat)
    requires ChainBehaviour(act) && k <= |actions|
    ensures Chain(first, DurableStates(act, first, actions, k))
    ensures At(act, first, actions, k).disk == End(first, DurableStates(act, first, actions, k))
  {
    if k == 0 {
    } else {
      LifeChain(act, first, actions, k - 1);
      assert ActsInChain(act, At(act, first, actions, k - 1), actions[k - 1]);
      ChainConcat(first, DurableStates(act, first, actions, k - 1), Done(act, first, actions, k - 1).passed);
    }
  }

  lemma {:induction false} StatesGrow(act: Behaviour, first: Disk, actions: seq<Action>, j: nat, k: nat)
    requires j <= k <= |actions|
    ensures DurableStates(act, first, actions, j) <= DurableStates(act, first, actions, k)
    ensures DurableStates(act, first, actions, j) != []
    decreases k
  {
    if j == k {
      if k == 0 {
      } else {
        StatesGrow(act, first, actions, k - 1, k - 1);
      }
    } else {
      StatesGrow(act, first, actions, j, k - 1);
    }
  }

  /** A file that is not a temporary one stays as it is from the first durable state that has it on. */
  lemma KeptInLife(act: Behaviour, first: Disk, actions: seq<Action>, i: nat, j: nat, name: string)
    requires ChainBehaviour(act) && i <= j < |DurableStates(act, first, actions, |actions|)|
    requires name in DurableStates(act, first, actions, |actions|)[i].files && !IsTemp(name)
    ensures var disks := DurableStates(act, first, actions, |actions|);
            name in disks[j].files && disks[j].files[name] == disks[i].files[name]
  {
    LifeChain(act, first, actions, |actions|);
    ChainKeeps(first, DurableStates(act, first, actions, |actions|), i, j);
  }

  lemma KeptSince(act: Behaviour, first: Disk, actions: seq<Action>, k: nat, j: nat, name: string)
    requires ChainBehaviour(act) && k <= |actions|
    requires |DurableStates(act, first, actions, k)| <= j + 1 <= |DurableStates(act, first, actions, |actions|)|
    requires name in At(act, first, actions, k).disk.files && !IsTemp(name)
    ensures var d := DurableStates(act, first, actions, |actions|)[j];
            name in d.files && d.files[name] == At(act, first, actions, k).disk.files[name]
  {
    LifeChain(act, first, actions, k);
    StatesGrow(act, first, actions, k, |actions|);
    KeptInLife(act, first, actions, |DurableStates(act, first, actions, k)| - 1, j, name);
  }

  /** In every life no file but temporary ones is ever changed or removed, across stops and restarts. */
  lemma NothingOverwritten(act: Behaviour, sha256: Sha256, first: Disk, actions: seq<Action>, i: nat, j: nat, name: string)
    requires Serves(act, sha256)
    ensures var disks := DurableStates(act, first, actions, |actions|);
            i <= j < |disks| && name in disks[i].files && !IsTemp(name) ==> name in disks[j].files && disks[j].files[name] == disks[i].files[name]
  {
    var disks := DurableStates(act, first, actions, |actions|);
    ServiceChain(act, sha256);
    if i <= j < |disks| && name in disks[i].files && !IsTemp(name) {
      KeptInLife(act, first, actions, i, j, name);
    }
  }

  lemma ExportedThere(sha256: Sha256, s: State, lost: set<Id>, req: Request, now: nat, f: Faults)
    requires Sound(s, lost) && Export(sha256, s, req, now, f).result.Ok?
    ensures req.id in s.targets && !IsTemp(s.targets[req.id].displayName)
    ensures var files := Export(sha256, s, req, now, f).state.disk.files;
            s.targets[req.id].displayName in files && files[s.targets[req.id].displayName] == req.bytes
  {
    ExportExactly(sha256, s, req, now, f);
    forall id ensures s.targets[req.id].displayName != Temp(id) {
      NameIsNotTemp(s.targets[req.id].displayName, id);
    }
  }

  /** A successful export leaves its bytes under its target's name, which is no temporary name. */
  ghost predicate Delivers(act: Behaviour, s: State, lost: set<Id>, action: Action)
  {
    Sound(s, lost) && action.Run? && action.op.Exporting? && act(s, action).result.Ok? ==>
      && action.op.req.id in s.targets && !IsTemp(s.targets[action.op.req.id].displayName)
      && var destination, files := s.targets[action.op.req.id].displayName, act(s, action).state.disk.files;
         destination in files && files[destination] == action.op.req.bytes
  }

  ghost predicate DeliveringBehaviour(act: Behaviour) { forall s, lost, action :: Delivers(act, s, lost, action) }

  lemma ServiceDelivers(act: Behaviour, sha256: Sha256)
    requires Serves(act, sha256)
    ensures DeliveringBehaviour(act)
  {
    forall s, lost, action ensures Delivers(act, s, lost, action) {
      assert ActsAs(act, sha256, s, action);
      if Sound(s, lost) && action.Run? && action.op.Exporting? && Act(sha256, s, action).result.Ok? {
        ExportedThere(sha256, s, lost, action.op.req, action.op.now, action.op.f);
      }
    }
  }

  lemma DeliveredAt(act: Behaviour, sha256: Sha256, first: Disk, actions: seq<Action>, k: nat)
    requires SafeBehaviour(act, sha256) && DeliveringBehaviour(act)
    requires Beginning(first) && k < |actions| && actions[k].Run? && actions[k].op.Exporting? && Done(act, first, actions, k).result.Ok?
    ensures var s, req, files := At(act, first, actions, k), actions[k].op.req, At(act, first, actions, k + 1).disk.files;
            && req.id in s.targets && !IsTemp(s.targets[req.id].displayName)
            && s.targets[req.id].displayName in files && files[s.targets[req.id].displayName] == req.bytes
  {
    SafeLife(act, sha256, first, actions, k);
    assert Delivers(act, At(act, first, actions, k), Lost(act, sha256, first, actions, k), actions[k]);
  }

  lemma DeliveredStays(act: Behaviour, sha256: Sha256, first: Disk, actions: seq<Action>, k: nat, j: nat)
    requires SafeBehaviour(act, sha256) && ChainBehaviour(act) && DeliveringBehaviour(act)
    requires Beginning(first) && k < |actions| && actions[k].Run? && actions[k].op.Exporting? && Done(act, first, actions, k).result.Ok?
    requires |DurableStates(act, first, actions, k + 1)| <= j + 1 <= |DurableStates(act, first, actions, |actions|)|
    ensures var s, req := At(act, first, actions, k), actions[k].op.req;
            && req.id in s.targets
            && var destination, d := s.targets[req.id].displayName, DurableStates(act, first, actions, |actions|)[j];
               destination in d.files && d.files[destination] == req.bytes
  {
    DeliveredAt(act, sha256, first, actions, k);
    KeptSince(act, first, actions, k + 1, j, At(act, first, actions, k).targets[actions[k].op.req.id].displayName);
  }

  /** In every life what an export created holds exactly its bytes in every later durable state, across stops and restarts. */
  lemma ExportedStays(act: Behaviour, sha256: Sha256, first: Disk, actions: seq<Action>, k: nat, j: nat)
    requires Serves(act, sha256)
    requires Beginning(first) && k < |actions| && actions[k].Run? && actions[k].op.Exporting?
    ensures var req := actions[k].op.req;
            var s, disks := At(act, first, actions, k), DurableStates(act, first, actions, |actions|);
            Done(act, first, actions, k).result.Ok? && |DurableStates(act, first, actions, k + 1)| <= j + 1 <= |disks| ==>
              && req.id in s.targets
              && var destination := s.targets[req.id].displayName;
                 destination in disks[j].files && disks[j].files[destination] == req.bytes
  {
    if Done(act, first, actions, k).result.Ok?
       && |DurableStates(act, first, actions, k + 1)| <= j + 1 <= |DurableStates(act, first, actions, |actions|)| {
      ServiceSafe(act, sha256);
      ServiceChain(act, sha256);
      ServiceDelivers(act, sha256);
      DeliveredStays(act, sha256, first, actions, k, j);
    }
  }

  // ---- Each target yields at most one export ----

  predicate AdmitsId(action: Action, id: Id) { action.op.Admission? && action.op.a.id == id }

  /** No id is given to two selections; in the source an id is a new random one each time. */
  ghost predicate FreshIds(actions: seq<Action>)
  {
    forall i, j, id :: 0 <= i < j < |actions| && AdmitsId(actions[i], id) ==> !AdmitsId(actions[j], id)
  }

  /** A target that is there was there before or is admitted by the action. */
  lemma TargetsCome(sha256: Sha256, s: State, action: Action, id: Id)
    requires id in Act(sha256, s, action).state.targets
    ensures id in s.targets || AdmitsId(action, id)
  {
  }

  /** Targets come only from admissions, and an export that runs to its end consumes its target. */
  ghost predicate OneShot(act: Behaviour, s: State, action: Action)
  {
    var t := act(s, action);
    && (forall id :: id in t.state.targets ==> id in s.targets || AdmitsId(action, id))
    && (action.Run? && action.op.Exporting? ==>
          action.op.req.id !in t.state.targets && (t.result.Ok? ==> action.op.req.id in s.targets))
  }

  ghost predicate OneShotBehaviour(act: Behaviour) { forall s, action :: OneShot(act, s, action) }

  lemma ServiceOneShot(act: Behaviour, sha256: Sha256)
    requires Serves(act, sha256)
    ensures OneShotBehaviour(act)
  {
    forall s, action ensures OneShot(act, s, action) {
      assert ActsAs(act, sha256, s, action);
      forall id | id in Act(sha256, s, action).state.targets ensures id in s.targets || AdmitsId(action, id) {
        TargetsCome(sha256, s, action, id);
      }
      if action.op.Exporting? {
        ExportConsumes(sha256, s, action.op.req, action.op.now, action.op.f);
      }
    }
  }

  lemma {:induction false} AdmittedBetween(act: Behaviour, first: Disk, actions: seq<Action>, j: nat, k: nat, id: Id) returns (i: nat)
    requires OneShotBehaviour(act) && j <= k <= |actions|
    requires id !in At(act, first, actions, j).targets && id in At(act, first, actions, k).targets
    ensures j <= i < k && AdmitsId(actions[i], id)
    decreases k
  {
    assert OneShot(act, At(act, first, actions, k - 1), actions[k - 1]);
    if AdmitsId(actions[k - 1], id) {
      i := k - 1;
    } else {
      i := AdmittedBetween(act, first, actions, j, k - 1, id);
    }
  }

  lemma OneSuccess(act: Behaviour, first: Disk, actions: seq<Action>, j: nat, k: nat, id: Id)
    requires OneShotBehaviour(act) && FreshIds(actions) && j < k < |actions|
    requires actions[j].Run? && actions[j].op.Exporting? && actions[j].op.req.id == id
    requires actions[k].Run? && actions[k].op.Exporting? && actions[k].op.req.id == id
    ensures !(Done(act, first, actions, j).result.Ok? && Done(act, first, actions, k).result.Ok?)
  {
    assert OneShot(act, At(act, first, actions, j), actions[j]) && OneShot(act, At(act, first, actions, k), actions[k]);
    if Done(act, first, actions, j).result.Ok? && Done(act, first, actions, k).result.Ok? {
      var a := AdmittedBetween(act, first, actions, 0, j, id);
      var b := AdmittedBetween(act, first, actions, j + 1, k, id);
      assert false;
    }
  }

  /** In every life, across stops and restarts, at most one export of an id succeeds. */
  lemma OneExport(act: Behaviour, sha256: Sha256, first: Disk, actions: seq<Action>, j: nat, k: nat, id: Id)
    requires Serves(act, sha256)
    requires FreshIds(actions) && j < k < |actions|
    requires actions[j].Run? && actions[j].op.Exporting? && actions[j].op.req.id == id
    requires actions[k].Run? && actions[k].op.Exporting? && actions[k].op.req.id == id
    ensures !(Done(act, first, actions, j).result.Ok? && Done(act, first, actions, k).result.Ok?)
  {
    ServiceOneShot(act, sha256);
    OneSuccess(act, first, actions, j, k, id);
  }

  // ---- Only verified bytes of an admitted target are exported ----

  predicate ExportsId(action: Action, id: Id) { action.op.Exporting? && action.op.req.id == id }

  /** The target a selection becomes: its name and owner, for three hundred seconds. */
  ghost predicate TargetOf(target: Target, a: Selection)
  {
    && target.displayName == a.name && target.owner == a.owner && target.expiresAt <= a.now + 300
    && (a.now + 300 <= U64_MAX ==> target.expiresAt == a.now + 300)
  }

  /** A target after an action: the one it admits, or one that was there, was not exported and survived because nothing stopped. */
  ghost predicate Comes(s: State, action: Action, id: Id, target: Target)
  {
    && action.Run?
    && ((AdmitsId(action, id) && TargetOf(target, action.op.a)) || (id in s.targets && s.targets[id] == target && !ExportsId(action, id)))
  }

  ghost predicate Sources(act: Behaviour, s: State, action: Action)
  {
    var targets := act(s, action).state.targets;
    forall id :: id in targets ==> Comes(s, action, id, targets[id])
  }

  ghost predicate SourcingBehaviour(act: Behaviour) { forall s, action :: Sources(act, s, action) }

  lemma ActSources(sha256: Sha256, s: State, action: Action, id: Id)
    requires id in Act(sha256, s, action).state.targets
    ensures Comes(s, action, id, Act(sha256, s, action).state.targets[id])
  {
    TargetsCome(sha256, s, action, id);
    if action.op.Exporting? {
      ExportConsumes(sha256, s, action.op.req, action.op.now, action.op.f);
    }
  }

  lemma ServiceSources(act: Behaviour, sha256: Sha256)
    requires Serves(act, sha256)
    ensures SourcingBehaviour(act)
  {
    forall s, action ensures Sources(act, s, action) {
      assert ActsAs(act, sha256, s, action);
      forall id | id in Act(sha256, s, action).state.targets ensures Comes(s, action, id, Act(sha256, s, action).state.targets[id]) {
        ActSources(sha256, s, action, id);
      }
    }
  }

  /** Action `j` admitted the target; since then nothing stopped and nothing exported it. */
  ghost predicate Origin(actions: seq<Action>, j: nat, k: nat, id: Id, target: Target)
    requires k <= |actions|
  {
    && j < k && actions[j].Run? && AdmitsId(actions[j], id) && TargetOf(target, actions[j].op.a)
    && forall i :: j < i < k ==> actions[i].Run? && !ExportsId(actions[i], id)
  }

  lemma {:induction false} TargetsHaveOrigins(act: Behaviour, first: Disk, actions: seq<Action>, k: nat, id: Id) returns (j: nat)
    requires SourcingBehaviour(act) && k <= |actions| && id in At(act, first, actions, k).targets
    ensures Origin(actions, j, k, id, At(act, first, actions, k).targets[id])
  {
    var s := At(act, first, actions, k - 1);
    assert Sources(act, s, actions[k - 1]);
    if AdmitsId(actions[k - 1], id) && TargetOf(At(act, first, actions, k).targets[id], actions[k - 1].op.a) {
      j := k - 1;
    } else {
      j := TargetsHaveOrigins(act, first, actions, k - 1, id);
    }
  }

  /** The request's id was admitted by the same owner less than three hundred seconds ago, and not exported or cut off since. */
  ghost predicate AdmittedFor(actions: seq<Action>, j: nat, k: nat, req: Request, now: nat)
    requires k <= |actions|
  {
    && j < k && actions[j].Run? && AdmitsId(actions[j], req.id) && actions[j].op.a.owner == req.owner && now < actions[j].op.a.now + 300
    && forall i :: j < i < k ==> actions[i].Run? && !ExportsId(actions[i], req.id)
  }

  lemma PermittedIsAdmitted(act: Behaviour, sha256: Sha256, first: Disk, actions: seq<Action>, k: nat, req: Request, now: nat) returns (j: nat)
    requires SourcingBehaviour(act) && k <= |actions| && Permitted(sha256, At(act, first, actions, k), req, now)
    ensures AdmittedFor(actions, j, k, req, now) && At(act, first, actions, k).targets[req.id].displayName == actions[j].op.a.name
  {
    j := TargetsHaveOrigins(act, first, actions, k, req.id);
  }

  /** Refused before anything is written. */
  ghost predicate RefusedUnwritten(s: State, t: Step)
  {
    t.result == Err(Invalid) && t.passed == [] && t.state.disk == s.disk
  }

  lemma UnlessPermitted(act: Behaviour, sha256: Sha256, s: State, req: Request, now: nat, f: Faults)
    requires Serves(act, sha256)
    ensures var t := act(s, Run(Exporting(req, now, f)));
            (t.result.Ok? ==> Permitted(sha256, s, req, now)) && (!Permitted(sha256, s, req, now) ==> RefusedUnwritten(s, t))
  {
    assert ActsAs(act, sha256, s, Run(Exporting(req, now, f)));
    if !Permitted(sha256, s, req, now) {
      ExportRefused(sha256, s, req, now, f);
    }
  }

  /**
   In every life an export that succeeds wrote, under the name its own owner selected less than three hundred seconds before, bytes
   that have the requested digest; any other request is refused before anything is written.
   */
  lemma ExportsAreVerified(act: Behaviour, sha256: Sha256, first: Disk, actions: seq<Action>, k: nat, req: Request, now: nat, f: Faults)
    requires Serves(act, sha256) && Beginning(first) && k < |actions| && actions[k] == Run(Exporting(req, now, f))
    ensures var s, t := At(act, first, actions, k), Done(act, first, actions, k);
            && (t.result.Ok? ==>
                  && Verified(sha256, req)
                  && exists j: nat :: AdmittedFor(actions, j, k, req, now)
                                 && var name, files := actions[j].op.a.name, t.state.disk.files; name in files && files[name] == req.bytes)
            && (!Verified(sha256, req) || (forall j: nat :: !AdmittedFor(actions, j, k, req, now)) ==> RefusedUnwritten(s, t))
  {
    var s := At(act, first, actions, k);
    UnlessPermitted(act, sha256, s, req, now, f);
    ServiceSources(act, sha256);
    if Permitted(sha256, s, req, now) {
      var j := PermittedIsAdmitted(act, sha256, first, actions, k, req, now);
      ServiceSafe(act, sha256);
      ServiceDelivers(act, sha256);
      if Done(act, first, actions, k).result.Ok? {
        DeliveredAt(act, sha256, first, actions, k);
      }
    }
  }

  // ---- What is lost stays lost ----

  lemma ActForgets(sha256: Sha256, s: State, action: Action, id: Id)
    requires Forgotten(s, id) && !AdmitsId(action, id)
    requires forall t :: t in s.targets ==> ValidName(s.targets[t].displayName)
    ensures StepForgets(Act(sha256, s, action), id)
  {
    match action.op {
      case Admission(a) =>
        CleanupForgets(s, a.unlinkFails, a.how, id);
        AddTargetForgets(Cleanup(s, a.unlinkFails, a.how), a, id);
      case Exporting(req, now, f) => ExportForgets(sha256, s, req, now, f, id);
    }
    assert StepForgets(Perform(sha256, s, action.op), id);
  }

  ghost predicate Overlooks(act: Behaviour, s: State, lost: set<Id>, action: Action, id: Id)
  {
    Sound(s, lost) && Forgotten(s, id) && !AdmitsId(action, id) ==> Forgotten(act(s, action).state, id)
  }

  ghost predicate OverlookingBehaviour(act: Behaviour) { forall s, lost, action, id :: Overlooks(act, s, lost, action, id) }

  lemma ServiceOverlooks(act: Behaviour, sha256: Sha256)
    requires Serves(act, sha256)
    ensures OverlookingBehaviour(act)
  {
    forall s, lost, action, id ensures Overlooks(act, s, lost, action, id) {
      assert ActsAs(act, sha256, s, action);
      if Sound(s, lost) && Forgotten(s, id) && !AdmitsId(action, id) {
        ActForgets(sha256, s, action, id);
      }
    }
  }

  lemma {:induction false} OverlookedForever(act: Behaviour, sha256: Sha256, first: Disk, actions: seq<Action>, j: nat, k: nat, id: Id)
    requires SafeBehaviour(act, sha256) && OverlookingBehaviour(act) && Beginning(first)
    requires j <= k <= |actions| && Forgotten(At(act, first, actions, j), id) && forall i :: j <= i < k ==> !AdmitsId(actions[i], id)
    ensures Forgotten(At(act, first, actions, k), id)
    decreases k
  {
    if j == k {
    } else {
      OverlookedForever(act, sha256, first, actions, j, k - 1, id);
      SafeLife(act, sha256, first, actions, k - 1);
      assert Overlooks(act, At(act, first, actions, k - 1), Lost(act, sha256, first, actions, k - 1), actions[k - 1], id);
    }
  }

  /** A forgotten file stays so through every continuation of the life that does not admit its id again: no cleanup removes it. */
  lemma LostForever(act: Behaviour, sha256: Sha256, first: Disk, actions: seq<Action>, j: nat, k: nat, id: Id)
    requires Serves(act, sha256)
    requires Beginning(first) && j <= k <= |actions| && Forgotten(At(act, first, actions, j), id)
    requires forall i :: j <= i < k ==> !AdmitsId(actions[i], id)
    ensures Forgotten(At(act, first, actions, k), id)
  {
    ServiceSafe(act, sha256);
    ServiceOverlooks(act, sha256);
    OverlookedForever(act, sha256, first, actions, j, k, id);
  }

  // ---- A life that loses a file ----

  function FirstSelection(id: Id, name: string, owner: string): (a: Selection)
  {
    Selection(name, owner, 0, id, _ => false, Written, false, false)
  }

  const CANNOT_UNLINK := Faults(Written, false, 0, false, None, false, true, false, Written)

  /** Admit a name, then export to it without being able to unlink the temporary file. */
  function LeakingLife(sha256: Sha256, id: Id, name: string, owner: string, bytes: Bytes): (actions: seq<Action>)
  {
    [Run(Admission(FirstSelection(id, name, owner))), Run(Exporting(Request(id, owner, id, 1, sha256(bytes), bytes), 1, CANNOT_UNLINK))]
  }

  lemma FirstAdmission(s: State, id: Id, name: string, owner: string)
    requires s == State(Disk({}, map[]), {}, map[]) && ValidName(name) && owner != ""
    ensures var t := Admit(s, FirstSelection(id, name, owner));
            t.result.Ok? && t.state == s.(targets := map[id := Target(name, owner, Expiry(0))])
  {
    var a := FirstSelection(id, name, owner);
    var none: map<Id, Target> := map[];
    assert Unexpired(none, a.now) == none;
    assert InOrder(s.pending) == [];
    assert StuckOf(s, a.unlinkFails) == s.pending;
  }

  lemma LeakStep(sha256: Sha256, s: State, id: Id, name: string, owner: string, bytes: Bytes)
    requires ValidTargetId(id) && ValidName(name) && |bytes| <= MAX_ARTIFACT_BYTES
    requires s == State(Disk({}, map[]), {}, map[id := Target(name, owner, Expiry(0))])
    ensures var t := Export(sha256, s, Request(id, owner, id, 1, sha256(bytes), bytes), 1, CANNOT_UNLINK);
            t.result.Ok? && Forgotten(t.state, id)
  {
    var req := Request(id, owner, id, 1, sha256(bytes), bytes);
    var rest := s.(targets := s.targets - {id});
    BeginExactly(rest, id, Written);
    AfterBeginResult(BeginPending(rest, id, Written), req, name, CANNOT_UNLINK);
    AfterBeginEnds(BeginPending(rest, id, Written), req, name, CANNOT_UNLINK);
  }

  lemma TwoActions(act: Behaviour, first: Disk, a: Action, b: Action)
    ensures var t := act(act(State(first, first.journal, map[]), a).state, b);
            Done(act, first, [a, b], 1) == t && At(act, first, [a, b], 2) == t.state
  {
    assert At(act, first, [a, b], 1) == act(At(act, first, [a, b], 0), a).state;
  }

  /** The export of this life succeeds, and its temporary file escapes the journal. */
  lemma LeakExample(sha256: Sha256, id: Id, name: string, owner: string, bytes: Bytes)
    requires ValidTargetId(id) && ValidName(name) && owner != "" && |bytes| <= MAX_ARTIFACT_BYTES
    ensures var act, first, actions := Service(sha256), Disk({}, map[]), LeakingLife(sha256, id, name, owner, bytes);
            && Beginning(first)
            && Done(act, first, actions, 1).result.Ok?
            && Forgotten(At(act, first, actions, 2), id)
  {
    var actions := LeakingLife(sha256, id, name, owner, bytes);
    var s := State(Disk({}, map[]), {}, map[]);
    TwoActions(Service(sha256), s.disk, actions[0], actions[1]);
    FirstAdmission(s, id, name, owner);
    LeakStep(sha256, s.(targets := map[id := Target(name, owner, Expiry(0))]), id, name, owner, bytes);
  }

  // ---- The service lives so ----

  method PerformOn(service: ExportService, op: Op) returns (r: Result<(), ExportError>)
    modifies service
    ensures service.Took(old(service.View()), old(service.passed), Perform(service.sha256, old(service.View()), op), r)
  {
    match op {
      case Admission(a) => r := service.AdmitSelected(a);
      case Exporting(req, now, f) => r := service.ExportArtifact(req, now, f);
    }
  }

  /** Restores a service from the journal file of the last durable state. */
  method Restore(sha256: Sha256, parse: Parse, ghost s: State, before: Disk, passed: seq<Disk>) returns (next: ExportService)
    requires ReadsBack(parse) && s.disk == before && Reopened(End(before, passed)).Ok?
    ensures fresh(next) && next.sha256 == sha256 && next.passed == []
    ensures Step(next.View(), Ok(()), passed) == Restarted(s, passed)
  {
    var d := End(before, passed);
    JournalRoundTrip(parse, d.journal);
    var restored := Durable(sha256, parse, Content(Rendered(d.journal)), d.files);
    next := restored.value;
  }

  lemma StopIsRestart(sha256: Sha256, s: State, t: Step, action: Action)
    requires action.Stop? && t == Perform(sha256, s, action.op)
    ensures Act(sha256, s, action) == Restarted(s, Truncated(t.passed, action.point))
    ensures Act(sha256, s, action).result.Ok? ==> Reopened(End(s.disk, Truncated(t.passed, action.point))).Ok?
  {
  }

  /** Runs an operation, or stops it after some of its durable writes and restores a service from what it wrote. */
  method ActOn(service: ExportService, parse: Parse, action: Action, ghost t: Step)
    returns (next: ExportService, r: Result<(), ExportError>, passed: seq<Disk>)
    requires ReadsBack(parse) && service.passed == [] && t == Act(service.sha256, service.View(), action) && (action.Stop? ==> t.result.Ok?)
    modifies service
    ensures next == service || fresh(next)
    ensures next.sha256 == service.sha256 && next.passed == [] && Step(next.View(), r, passed) == t
  {
    var before := Disk(service.journal, service.files);
    ghost var s := service.View();
    ghost var whole := Perform(service.sha256, s, action.op);
    next := service;
    r := PerformOn(service, action.op);
    passed := service.passed;
    service.passed := [];
    assert [] + whole.passed == whole.passed;
    if action.Stop? {
      StopIsRestart(service.sha256, s, whole, action);
      passed := Truncated(passed, action.point);
      next := Restore(service.sha256, parse, s, before, passed);
      r := Ok(());
    }
  }

  /** The results of a life's actions before `k`, in order. */
  function Results(act: Behaviour, first: Disk, actions: seq<Action>, k: nat): (results: seq<Result<(), ExportError>>)
    requires k <= |actions|
    ensures |results| == k && forall j :: 0 <= j < k ==> results[j] == Done(act, first, actions, j).result
  {
    if k == 0 then [] else Results(act, first, actions, k - 1) + [Done(act, first, actions, k - 1).result]
  }

  /** A whole life of the service: its state, every durable state it passed and every result are those of the specification. */
  method Live(sha256: Sha256, parse: Parse, first: Disk, actions: seq<Action>)
    returns (service: ExportService, history: seq<Disk>, results: seq<Result<(), ExportError>>)
    requires ReadsBack(parse) && Beginning(first)
    ensures service.View() == At(Service(sha256), first, actions, |actions|)
    ensures history == DurableStates(Service(sha256), first, actions, |actions|)
    ensures results == Results(Service(sha256), first, actions, |actions|)
  {
    JournalRoundTrip(parse, first.journal);
    var started := Durable(sha256, parse, Content(Rendered(first.journal)), first.files);
    service, history, results := started.value, [first], [];
    for k := 0 to |actions|
      invariant fresh(service) && service.sha256 == sha256 && service.passed == []
      invariant service.View() == At(Service(sha256), first, actions, k)
      invariant history == DurableStates(Service(sha256), first, actions, k)
      invariant results == Results(Service(sha256), first, actions, k)
    {
      if actions[k].Stop? {
        ServiceServes(sha256);
        RestartsSucceed(Service(sha256), sha256, first, actions, k);
      }
      ghost var done := Done(Service(sha256), first, actions, k);
      var r, passed;
      service, r, passed := ActOn(service, parse, actions[k], done);
      history, results := history + passed, results + [r];
    }
  }
}
