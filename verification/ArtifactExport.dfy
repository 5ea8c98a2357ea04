/**
 One-shot artifact exports with a crash-cleanup journal, over one destination directory.
 Source: desktop/backend/src/artifact_export.rs. Faults of the file system, the clock and new identifiers are parameters of each
 operation. An operation is a function to its result, the service's new state, and every durable state it passes on the way.
 */
module ArtifactExport {
  import opened Common
  import Ordering
  import Sequences

  type Bytes = seq<byte>
  type Id = string

  const MAX_TARGETS := 16
  const MAX_ARTIFACT_BYTES := 262_144
  const LIFETIME_SECONDS := 300

  datatype ExportError = Invalid | Unavailable | TargetExists | BoundExceeded

  // ---- Names ----

  const TEMP_PREFIX := ".garive-export-"
  const TEMP_SUFFIX := ".tmp"
  const ID_PREFIX := "export-target-"

  function Temp(id: Id): (name: string) { TEMP_PREFIX + id + TEMP_SUFFIX }

  predicate Control(c: char) { c as int < 32 || 127 <= c as int < 160 }

  function Utf8Length(text: string): (n: nat)
  {
    if text == [] then 0
    else
      var c := text[0] as int;
      Utf8Length(text[1..]) + if c < 0x80 then 1 else if c < 0x800 then 2 else if c < 0x1_0000 then 3 else 4
  }

  /** Lengths in bytes add up, and a character takes one to four by its code point. */
  lemma {:induction false} Utf8Lengths(a: string, b: string, c: char)
    ensures Utf8Length(a + b) == Utf8Length(a) + Utf8Length(b)
    ensures Utf8Length([c]) == (if c as int <= 0x7F then 1 else if c as int <= 0x7FF then 2 else if c as int <= 0xFFFF then 3 else 4)
    decreases |a|
  {
    if a == [] {
      assert a + b == b;
    } else {
      assert (a + b)[1..] == a[1..] + b;
      Utf8Lengths(a[1..], b, c);
    }
  }

  predicate ValidName(name: string)
  {
    name != "" && Utf8Length(name) <= 240 && name[0] != '.' && forall c :: c in name ==> c != '/' && c != '\\' && !Control(c)
  }

  predicate IdChar(c: char) { '0' <= c <= '9' || 'a' <= c <= 'z' || 'A' <= c <= 'Z' || c == '-' }

  predicate ValidTargetId(id: Id)
  {
    ID_PREFIX <= id && |id| <= 64 && forall c :: c in id ==> IdChar(c)
  }

  lemma TempInjective(a: Id, b: Id)
    requires Temp(a) == Temp(b)
    ensures a == b
  {
    var n := |TEMP_PREFIX|;
    assert Temp(a)[n..|Temp(a)| - 4] == a && Temp(b)[n..|Temp(b)| - 4] == b;
  }

  /** A destination label never is a temporary name. */
  lemma NameIsNotTemp(name: string, id: Id)
    requires ValidName(name)
    ensures name != Temp(id)
  {
    assert Temp(id)[0] == '.';
  }

  // ---- State ----

  /** What survives a stop of the process: the journal's ids and the directory's entries. */
  datatype Disk = Disk(journal: set<Id>, files: map<string, Bytes>)
  {
    function Put(name: string, content: Bytes): (d: Disk) { this.(files := files[name := content]) }

    function Drop(name: string): (d: Disk) { this.(files := files - {name}) }
  }

  datatype Target = Target(displayName: string, owner: string, expiresAt: nat)

  datatype State = State(disk: Disk, pending: set<Id>, targets: map<Id, Target>)

  /** A result, the new state, and the durable states passed, in order; the last one is the new disk. */
  datatype Step = Step(state: State, result: Result<(), ExportError>, passed: seq<Disk>)

  /** The disk after these durable states. */
  function End(d: Disk, passed: seq<Disk>): (e: Disk) { if passed == [] then d else passed[|passed| - 1] }

  // ---- The journal ----

  /** What reading the journal back accepts. */
  predicate ValidJournal(ids: set<Id>)
  {
    |ids| <= MAX_TARGETS && forall id :: id in ids ==> ValidTargetId(id)
  }

  /** How a journal write ends: done, refused before its rename, or renamed with the directory sync failing. */
  datatype JournalWrite = Written | BeforeRename | AfterRename

  function PersistResult(next: set<Id>, how: JournalWrite): (r: Result<(), ExportError>)
  {
    if !ValidJournal(next) then Err(Invalid) else if how == Written then Ok(()) else Err(Unavailable)
  }

  /** The journal is written through a temporary file and a rename, so it changes as a whole or not at all. */
  function Persisted(d: Disk, next: set<Id>, how: JournalWrite): (passed: seq<Disk>)
  {
    if ValidJournal(next) && how != BeforeRename then [d.(journal := next)] else []
  }

  /** Persists another pending set; the service's own follows only a reported success. */
  function KeepPending(s: State, next: set<Id>, how: JournalWrite): (t: Step)
  {
    var r, passed := PersistResult(next, how), Persisted(s.disk, next, how);
    Step(s.(disk := End(s.disk, passed), pending := if r.Ok? then next else s.pending), r, passed)
  }

  function BeginPending(s: State, id: Id, how: JournalWrite): (t: Step)
  {
    var next := s.pending + {id};
    if id in s.pending || |next| > MAX_TARGETS then Step(s, Err(Invalid), []) else KeepPending(s, next, how)
  }

  function FinishPending(s: State, id: Id, how: JournalWrite): (t: Step)
  {
    KeepPending(s, s.pending - {id}, how)
  }

  // ---- The file ----

  /** Faults of one export. `partial` bytes are written before the write completes or fails; `racer` is another program creating the destination. */
  datatype Faults = Faults(begin: JournalWrite, openFails: bool, partial: nat, writeFails: bool, racer: Option<Bytes>, linkFails: bool,
                           unlinkFails: bool, syncFails: bool, finish: JournalWrite)

  function Unlinked(d: Disk, id: Id, fails: bool): (passed: seq<Disk>)
  {
    if fails then [] else [d.Drop(Temp(id))]
  }

  function Prefix(bytes: Bytes, n: nat): (part: Bytes) { if n <= |bytes| then bytes[..n] else bytes }

  /** Creates the temporary file empty and fills it, in part only when the write fails. */
  function Filled(d: Disk, id: Id, bytes: Bytes, f: Faults): (passed: seq<Disk>)
  {
    var empty := d.Put(Temp(id), []);
    var begun := empty.Put(Temp(id), Prefix(bytes, f.partial));
    if f.writeFails then [empty, begun] else [empty, begun, begun.Put(Temp(id), bytes)]
  }

  function Raced(d: Disk, destination: string, f: Faults): (passed: seq<Disk>)
  {
    if f.racer.Some? && destination !in d.files then [d.Put(destination, f.racer.value)] else []
  }

  /** Links the temporary file's bytes to the destination, which never overwrites, and unlinks it. */
  function Linked(d: Disk, id: Id, destination: string, bytes: Bytes, f: Faults): (passed: seq<Disk>)
  {
    var e := End(d, Raced(d, destination, f));
    if f.linkFails || destination in e.files then Raced(d, destination, f) + Unlinked(e, id, f.unlinkFails)
    else Raced(d, destination, f) + ([e.Put(destination, bytes)] + Unlinked(e.Put(destination, bytes), id, f.unlinkFails))
  }

  /** The durable states of creating the destination from a synced temporary file. */
  function Created(d: Disk, id: Id, destination: string, bytes: Bytes, f: Faults): (passed: seq<Disk>)
  {
    if f.openFails || Temp(id) in d.files then []
    else
      var e := End(d, Filled(d, id, bytes, f));
      Filled(d, id, bytes, f) + if f.writeFails then Unlinked(e, id, f.unlinkFails) else Linked(e, id, destination, bytes, f)
  }

  function CreateResult(d: Disk, id: Id, destination: string, bytes: Bytes, f: Faults): (r: Result<(), ExportError>)
  {
    if f.openFails || Temp(id) in d.files || f.writeFails then Err(Unavailable)
    else if f.racer.Some? || f.linkFails || destination in End(d, Filled(d, id, bytes, f)).files then Err(TargetExists)
    else if f.syncFails then Err(Unavailable) else Ok(())
  }

  // ---- Exporting ----

  datatype Request = Request(id: Id, owner: string, artifactId: string, revision: nat, digest: string, bytes: Bytes)

  type Sha256 = Bytes -> string

  /** Whether a request matches its target and its verified bytes. */
  predicate Matches(sha256: Sha256, req: Request, target: Target, now: nat)
  {
    && target.owner == req.owner && target.expiresAt > now && req.artifactId != "" && req.revision != 0
    && |req.bytes| <= MAX_ARTIFACT_BYTES && sha256(req.bytes) == req.digest
  }

  /** Consumes one target and creates its destination between entering and leaving the journal. */
  function Export(sha256: Sha256, s: State, req: Request, now: nat, f: Faults): (t: Step)
  {
    if req.id !in s.targets then Step(s, Err(Invalid), [])
    else
      var target, rest := s.targets[req.id], s.(targets := s.targets - {req.id});
      if !Matches(sha256, req, target, now) then Step(rest, Err(Invalid), [])
      else
        var begun := BeginPending(rest, req.id, f.begin);
        if begun.result.Err? then begun else AfterBegin(begun, req, target.displayName, f)
  }

  function AfterBegin(begun: Step, req: Request, destination: string, f: Faults): (t: Step)
  {
    var d := begun.state.disk;
    var created := Created(d, req.id, destination, req.bytes, f);
    var finished := FinishPending(begun.state.(disk := End(d, created)), req.id, f.finish);
    Step(finished.state, CreateResult(d, req.id, destination, req.bytes, f), begun.passed + (created + finished.passed))
  }

  // ---- Admission and cleanup ----

  /** The temporary file of this id is there and cannot be removed. */
  predicate Stuck(files: map<string, Bytes>, id: Id, unlinkFails: Id -> bool) { Temp(id) in files && unlinkFails(id) }

  function StuckOf(s: State, unlinkFails: Id -> bool): (ids: set<Id>)
  {
    set id | id in s.pending && Stuck(s.disk.files, id, unlinkFails)
  }

  function Removed(d: Disk, id: Id, unlinkFails: Id -> bool): (passed: seq<Disk>)
  {
    if Temp(id) in d.files && !unlinkFails(id) then [d.Drop(Temp(id))] else []
  }

  /** The durable states of unlinking the temporary files of these ids in order. */
  function RemovedAll(d: Disk, ids: seq<Id>, unlinkFails: Id -> bool): (passed: seq<Disk>)
  {
    if ids == [] then []
    else
      var earlier := RemovedAll(d, ids[..|ids| - 1], unlinkFails);
      earlier + Removed(End(d, earlier), ids[|ids| - 1], unlinkFails)
  }

  function InOrder(ids: set<Id>): (r: seq<Id>)
    ensures Ordering.Ascends(Ordering.AtMost, r) && forall id :: id in r <==> id in ids
  {
    Ordering.TextOrder();
    Ordering.Sorted(Ordering.AtMost, ids)
  }

  lemma InOrderSize(ids: set<Id>)
    ensures |InOrder(ids)| == |ids|
  {
    Ordering.TextOrder();
    Ordering.SortedSize(Ordering.AtMost, ids);
  }

  /** Removes the temporary file of every pending id; ids whose file cannot be removed stay in the journal. */
  function Cleanup(s: State, unlinkFails: Id -> bool, how: JournalWrite): (t: Step)
  {
    var removed := RemovedAll(s.disk, InOrder(s.pending), unlinkFails);
    var next := StuckOf(s, unlinkFails);
    var cleaned := s.(disk := End(s.disk, removed));
    if next == s.pending then Step(cleaned, Ok(()), removed)
    else
      var kept := KeepPending(cleaned, next, how);
      kept.(passed := removed + kept.passed)
  }

  function Expiry(now: nat): (at: nat) { if now + LIFETIME_SECONDS > U64_MAX then U64_MAX else now + LIFETIME_SECONDS }

  function Unexpired(targets: map<Id, Target>, now: nat): (r: map<Id, Target>)
  {
    map t | t in targets && targets[t].expiresAt > now :: targets[t]
  }

  /** A selection to admit under a fresh id; `directoryFails` and `timestampFails` are failures to open the directory and to format the expiry. */
  datatype Selection = Selection(name: string, owner: string, now: nat, id: Id, unlinkFails: Id -> bool, how: JournalWrite,
                                 directoryFails: bool, timestampFails: bool)

  function Checked(files: map<string, Bytes>, a: Selection): (r: Result<(), ExportError>)
  {
    if a.name in files then Err(TargetExists)
    else if a.owner == "" || !ValidName(a.name) then Err(Invalid)
    else if a.directoryFails then Err(Unavailable) else Ok(())
  }

  /** After a successful cleanup, drops expired targets and adds the selected one, unless the table is full. */
  function AddTarget(cleaned: Step, a: Selection): (t: Step)
  {
    var live := Unexpired(cleaned.state.targets, a.now);
    if cleaned.result.Err? then cleaned
    else if |live| >= MAX_TARGETS then Step(cleaned.state.(targets := live), Err(BoundExceeded), cleaned.passed)
    else
      Step(cleaned.state.(targets := live[a.id := Target(a.name, a.owner, Expiry(a.now))]),
           if a.timestampFails then Err(Unavailable) else Ok(()), cleaned.passed)
  }

  /** Admits one selected name as a target, after cleaning up interrupted exports. */
  function Admit(s: State, a: Selection): (t: Step)
  {
    var checked := Checked(s.disk.files, a);
    if checked.Err? then Step(s, checked, []) else AddTarget(Cleanup(s, a.unlinkFails, a.how), a)
  }

  // ---- Restarting ----

  /** Restarting reads the journal back, or fails when it is not one the service writes. */
  function Reopened(d: Disk): (r: Result<State, ExportError>)
  {
    if |d.journal| > MAX_TARGETS then Err(BoundExceeded)
    else if !ValidJournal(d.journal) then Err(Invalid) else Ok(State(d, d.journal, map[]))
  }

  // ---- The service ----

  class ExportService {
    const sha256: Sha256
    var journal: set<Id>
    var files: map<string, Bytes>
    var targets: map<Id, Target>
    var pending: set<Id>
    /** The durable states passed since the service was created, one for each write to journal or directory: where the process may stop. */
    var passed: seq<Disk>

    ghost function View(): (s: State)
      reads this
    {
      State(Disk(journal, files), pending, targets)
    }

    /** The service went from `before` to the step's state and passed exactly the step's durable states. */
    ghost predicate Took(before: State, earlier: seq<Disk>, t: Step, r: Result<(), ExportError>)
      reads this
    {
      View() == t.state && passed == earlier + t.passed && r == t.result
    }

    constructor (sha256: Sha256, s: State)
      ensures this.sha256 == sha256 && View() == s && passed == []
    {
      this.sha256 := sha256;
      journal, files, pending, targets := s.disk.journal, s.disk.files, s.pending, s.targets;
      passed := [];
    }

    method SetJournal(next: set<Id>)
      modifies this`journal, this`passed
      ensures journal == next && passed == old(passed) + [Disk(journal, files)]
    {
      journal := next;
      passed := passed + [Disk(journal, files)];
    }

    method SetFiles(next: map<string, Bytes>)
      modifies this`files, this`passed
      ensures files == next && passed == old(passed) + [Disk(journal, files)]
    {
      files := next;
      passed := passed + [Disk(journal, files)];
    }

    method PersistPending(next: set<Id>, how: JournalWrite) returns (r: Result<(), ExportError>)
      modifies this`journal, this`passed
      ensures r == PersistResult(next, how)
      ensures passed == old(passed) + Persisted(Disk(old(journal), files), next, how)
      ensures Disk(journal, files) == End(Disk(old(journal), files), Persisted(Disk(old(journal), files), next, how))
    {
      if !ValidJournal(next) {
        return Err(Invalid);
      }
      if how == BeforeRename {
        return Err(Unavailable);
      }
      SetJournal(next);
      return if how == Written then Ok(()) else Err(Unavailable);
    }

    method Keep(next: set<Id>, how: JournalWrite) returns (r: Result<(), ExportError>)
      modifies this`journal, this`pending, this`passed
      ensures Took(old(View()), old(passed), KeepPending(old(View()), next, how), r)
    {
      r := PersistPending(next, how);
      if r.Ok? {
        pending := next;
      }
    }

    method Begin(id: Id, how: JournalWrite) returns (r: Result<(), ExportError>)
      modifies this`journal, this`pending, this`passed
      ensures Took(old(View()), old(passed), BeginPending(old(View()), id, how), r)
    {
      var next := pending + {id};
      if id in pending || |next| > MAX_TARGETS {
        return Err(Invalid);
      }
      r := Keep(next, how);
    }

    method Finish(id: Id, how: JournalWrite) returns (r: Result<(), ExportError>)
      modifies this`journal, this`pending, this`passed
      ensures Took(old(View()), old(passed), FinishPending(old(View()), id, how), r)
    {
      r := Keep(pending - {id}, how);
    }

    /** The file was written through exactly these durable states. */
    ghost predicate Wrote(before: Disk, earlier: seq<Disk>, states: seq<Disk>)
      reads this
    {
      Disk(journal, files) == End(before, states) && passed == earlier + states
    }

    method Fill(id: Id, bytes: Bytes, f: Faults)
      modifies this`files, this`passed
      ensures Wrote(old(View().disk), old(passed), Filled(old(View().disk), id, bytes, f))
    {
      SetFiles(files[Temp(id) := []]);
      SetFiles(files[Temp(id) := Prefix(bytes, f.partial)]);
      if !f.writeFails {
        SetFiles(files[Temp(id) := bytes]);
      }
    }

    /** A failure to unlink is not reported. */
    method Unlink(id: Id, fails: bool)
      modifies this`files, this`passed
      ensures Wrote(old(View().disk), old(passed), Unlinked(old(View().disk), id, fails))
    {
      if !fails {
        SetFiles(files - {Temp(id)});
      }
    }

    method Link(id: Id, destination: string, bytes: Bytes, f: Faults) returns (linked: bool)
      modifies this`files, this`passed
      ensures Wrote(old(View().disk), old(passed), Linked(old(View().disk), id, destination, bytes, f))
      ensures linked <==> destination !in old(files) && f.racer.None? && !f.linkFails
    {
      if f.racer.Some? && destination !in files {
        SetFiles(files[destination := f.racer.value]);
      }
      linked := !f.linkFails && destination !in files;
      if linked {
        SetFiles(files[destination := bytes]);
      }
      Unlink(id, f.unlinkFails);
    }

    method AtomicCreate(id: Id, destination: string, bytes: Bytes, f: Faults) returns (r: Result<(), ExportError>)
      modifies this`files, this`passed
      ensures Wrote(old(View().disk), old(passed), Created(old(View().disk), id, destination, bytes, f))
      ensures r == CreateResult(old(View().disk), id, destination, bytes, f)
    {
      if f.openFails || Temp(id) in files {
        return Err(Unavailable);
      }
      Fill(id, bytes, f);
      if f.writeFails {
        Unlink(id, f.unlinkFails);
        return Err(Unavailable);
      }
      var linked := Link(id, destination, bytes, f);
      if !linked {
        return Err(TargetExists);
      }
      return if f.syncFails then Err(Unavailable) else Ok(());
    }

    method ExportArtifact(req: Request, now: nat, f: Faults) returns (r: Result<(), ExportError>)
      modifies this`journal, this`files, this`pending, this`targets, this`passed
      ensures Took(old(View()), old(passed), Export(sha256, old(View()), req, now, f), r)
    {
      if req.id !in targets {
        return Err(Invalid);
      }
      var target := targets[req.id];
      targets := targets - {req.id};
      if !Matches(sha256, req, target, now) {
        return Err(Invalid);
      }
      r := Begin(req.id, f.begin);
      if r.Ok? {
        r := CreateJournalled(req, target.displayName, f, BeginPending(old(View()).(targets := targets), req.id, f.begin), old(passed));
      }
    }

    /** The part of an export after its id entered the journal. */
    method CreateJournalled(req: Request, destination: string, f: Faults, ghost begun: Step, ghost earlier: seq<Disk>)
      returns (r: Result<(), ExportError>)
      requires View() == begun.state && passed == earlier + begun.passed
      modifies this`journal, this`files, this`pending, this`passed
      ensures Took(begun.state, earlier, AfterBegin(begun, req, destination, f), r)
    {
      r := AtomicCreate(req.id, destination, req.bytes, f);
      ghost var created := Created(begun.state.disk, req.id, destination, req.bytes, f);
      ghost var mid := begun.state.(disk := End(begun.state.disk, created));
      assert View() == mid;
      var _ := Finish(req.id, f.finish);
      Sequences.Associate(earlier, begun.passed, created);
      Sequences.Associate(earlier, begun.passed + created, FinishPending(mid, req.id, f.finish).passed);
      Sequences.Associate(begun.passed, created, FinishPending(mid, req.id, f.finish).passed);
    }

    method RemoveTemps(order: seq<Id>, unlinkFails: Id -> bool) returns (next: set<Id>)
      requires Ordering.Ascends(Ordering.AtMost, order)
      modifies this`files, this`passed
      ensures Wrote(old(View().disk), old(passed), RemovedAll(old(View().disk), order, unlinkFails))
      ensures next == set id | id in order && Stuck(old(files), id, unlinkFails)
    {
      next := {};
      for k := 0 to |order|
        invariant Wrote(old(View().disk), old(passed), RemovedAll(old(View().disk), order[..k], unlinkFails))
        invariant next == set id | id in order[..k] && Stuck(old(files), id, unlinkFails)
        invariant forall j :: k <= j < |order| ==> (Temp(order[j]) in files <==> Temp(order[j]) in old(files))
      {
        var id := order[k];
        assert order[..k + 1][..k] == order[..k];
        if Temp(id) in files {
          if unlinkFails(id) {
            next := next + {id};
          } else {
            SetFiles(files - {Temp(id)});
          }
        }
        forall j | k < j < |order| ensures Temp(order[j]) != Temp(id) {
          if Temp(order[j]) == Temp(id) {
            TempInjective(order[j], id);
          }
        }
      }
      assert order[..|order|] == order;
    }

    method CleanupPending(unlinkFails: Id -> bool, how: JournalWrite) returns (r: Result<(), ExportError>)
      modifies this`journal, this`files, this`pending, this`passed
      ensures Took(old(View()), old(passed), Cleanup(old(View()), unlinkFails, how), r)
    {
      var order := InOrder(pending);
      var next := RemoveTemps(order, unlinkFails);
      assert next == StuckOf(old(View()), unlinkFails);
      r := Ok(());
      if next != pending {
        ghost var cleaned, removed := View(), RemovedAll(old(View().disk), order, unlinkFails);
        r := Keep(next, how);
        Sequences.Associate(old(passed), removed, KeepPending(cleaned, next, how).passed);
      }
    }

    method AdmitSelected(a: Selection) returns (r: Result<(), ExportError>)
      modifies this`journal, this`files, this`pending, this`targets, this`passed
      ensures Took(old(View()), old(passed), Admit(old(View()), a), r)
    {
      if a.name in files {
        return Err(TargetExists);
      }
      if a.owner == "" || !ValidName(a.name) {
        return Err(Invalid);
      }
      if a.directoryFails {
        return Err(Unavailable);
      }
      r := CleanupPending(a.unlinkFails, a.how);
      if r.Err? {
        return;
      }
      targets := Unexpired(targets, a.now);
      if |targets| >= MAX_TARGETS {
        return Err(BoundExceeded);
      }
      targets := targets[a.id := Target(a.name, a.owner, Expiry(a.now))];
      return if a.timestampFails then Err(Unavailable) else Ok(());
    }
  }
}
