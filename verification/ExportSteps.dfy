/**
 What single operations of the export service do to the directory and the journal.
 Source: desktop/backend/src/artifact_export.rs.
 */
module ExportSteps {
  import opened ArtifactExport
  import opened Common
  import Sequences

  // ---- What a directory and a journal say of each other ----

  /** Every temporary file belongs to one of these ids. */
  ghost predicate Covered(files: map<string, Bytes>, ids: set<Id>)
  {
    forall id :: Temp(id) in files ==> id in ids
  }

  /** The service can restart from here, and every temporary file belongs to the journal or to one of the lost ids. */
  ghost predicate Safe(d: Disk, lost: set<Id>)
  {
    ValidJournal(d.journal) && Covered(d.files, d.journal + lost)
  }

  ghost predicate AllSafe(disks: seq<Disk>, lost: set<Id>)
  {
    forall k :: 0 <= k < |disks| ==> Safe(disks[k], lost)
  }

  ghost predicate Sound(s: State, lost: set<Id>)
  {
    && Safe(s.disk, lost) && ValidJournal(s.pending) && Covered(s.disk.files, s.pending + lost)
    && forall id :: id in s.targets ==> ValidName(s.targets[id].displayName)
  }

  /** Everything a step leads through and to is safe. */
  ghost predicate StepSafe(t: Step, lost: set<Id>)
  {
    Sound(t.state, lost) && AllSafe(t.passed, lost)
  }

  lemma CoveredMore(files: map<string, Bytes>, few: set<Id>, many: set<Id>)
    requires Covered(files, few) && few <= many
    ensures Covered(files, many)
  {
  }

  lemma SafeMore(s: State, disks: seq<Disk>, few: set<Id>, many: set<Id>)
    requires few <= many && Sound(s, few) && AllSafe(disks, few)
    ensures Sound(s, many) && AllSafe(disks, many)
  {
    CoveredMore(s.disk.files, s.disk.journal + few, s.disk.journal + many);
    CoveredMore(s.disk.files, s.pending + few, s.pending + many);
    forall k | 0 <= k < |disks| ensures Safe(disks[k], many) {
      assert Safe(disks[k], few);
      CoveredMore(disks[k].files, disks[k].journal + few, disks[k].journal + many);
    }
  }

  lemma SafeConcat(a: seq<Disk>, b: seq<Disk>, lost: set<Id>)
    requires AllSafe(a, lost) && AllSafe(b, lost)
    ensures AllSafe(a + b, lost)
  {
  }

  // ---- The journal ----

  lemma KeepPendingSafe(s: State, next: set<Id>, how: JournalWrite, lost: set<Id>)
    requires Sound(s, lost) && Covered(s.disk.files, next + lost)
    ensures StepSafe(KeepPending(s, next, how), lost)
  {
  }

  lemma BeginSafe(s: State, id: Id, how: JournalWrite, lost: set<Id>)
    requires Sound(s, lost)
    ensures StepSafe(BeginPending(s, id, how), lost)
  {
    CoveredMore(s.disk.files, s.pending + lost, s.pending + {id} + lost);
    KeepPendingSafe(s, s.pending + {id}, how, lost);
  }

  lemma FinishSafe(s: State, id: Id, how: JournalWrite, lost: set<Id>)
    requires Sound(s, lost) && (Temp(id) in s.disk.files ==> id in lost)
    ensures StepSafe(FinishPending(s, id, how), lost)
  {
    assert Covered(s.disk.files, s.pending - {id} + lost);
    KeepPendingSafe(s, s.pending - {id}, how, lost);
  }

  lemma BeginExactly(s: State, id: Id, how: JournalWrite)
    requires ValidJournal(s.pending)
    ensures var t := BeginPending(s, id, how);
            && (t.result.Ok? <==> id !in s.pending && |s.pending| < 16 && ValidTargetId(id) && how == Written)
            && (t.result.Ok? ==> t.state == s.(pending := s.pending + {id}, disk := s.disk.(journal := s.pending + {id})))
            && (t.result.Err? ==> t.state == s.(disk := t.state.disk))
            && t.state.disk.files == s.disk.files && (t.state.disk.journal == s.disk.journal || t.state.disk.journal == s.pending + {id})
            && forall k :: 0 <= k < |t.passed| ==> t.passed[k].files == s.disk.files
  {
  }

  /** An identifier the service gives out: its prefix, then letters, digits and hyphens, 64 characters at most. */
  ghost predicate Issued(id: Id)
  {
    && |id| <= 64 && |id| >= 14 && id[..14] == "export-target-"
    && forall k :: 0 <= k < |id| ==> id[k] == '-' || '0' <= id[k] <= '9' || 'A' <= id[k] <= 'Z' || 'a' <= id[k] <= 'z'
  }

  lemma IssuedIsValid(id: Id)
    ensures Issued(id) <==> ValidTargetId(id)
  {
    assert |ID_PREFIX| == 14;
    assert forall k :: 0 <= k < |id| ==> id[k] in id;
    if ValidTargetId(id) {
      assert id[..14] == ID_PREFIX;
    }
  }

  /** An id that is known, one too many or malformed is invalid; any other fails only when the write does. */
  lemma BeginResult(s: State, id: Id, how: JournalWrite)
    requires ValidJournal(s.pending)
    ensures BeginPending(s, id, how).result ==
            if id in s.pending || |s.pending| >= 16 || !Issued(id) then Err(Invalid) else if how == Written then Ok(()) else Err(Unavailable)
  {
    IssuedIsValid(id);
  }

  // ---- The file ----

  /** Between two directories only the temporary file and the destination may differ, the latter going from absent to the exported or a racing program's bytes. */
  ghost predicate OnlyDestination(before: map<string, Bytes>, after: map<string, Bytes>, id: Id, destination: string, bytes: Bytes, racer: Option<Bytes>)
  {
    && (forall name :: name != Temp(id) && name != destination ==>
                         (name in before <==> name in after) && (name in before && name in after ==> before[name] == after[name]))
    && if destination in before then destination in after && after[destination] == before[destination]
       else destination in after ==> after[destination] == bytes || racer == Some(after[destination])
  }

  /** An export's file work: the disk it began on and what it writes. */
  datatype Job = Job(before: Disk, id: Id, destination: string, bytes: Bytes, f: Faults)
  {
    ghost predicate Allows(d: Disk)
    {
      d.journal == before.journal && OnlyDestination(before.files, d.files, id, destination, bytes, f.racer)
    }

    ghost predicate AllowsAll(disks: seq<Disk>) { forall k :: 0 <= k < |disks| ==> Allows(disks[k]) }

    function Passed(): (disks: seq<Disk>) { Created(before, id, destination, bytes, f) }

    predicate Opens() { !f.openFails && Temp(id) !in before.files }
  }

  lemma AllowsPut(j: Job, d: Disk, content: Bytes)
    requires ValidName(j.destination) && j.Allows(d)
    ensures j.Allows(d.Put(Temp(j.id), content)) && j.Allows(d.Drop(Temp(j.id)))
  {
    NameIsNotTemp(j.destination, j.id);
  }

  lemma AllowsLink(j: Job, d: Disk, content: Bytes)
    requires j.Allows(d) && j.destination !in d.files && (content == j.bytes || j.f.racer == Some(content))
    ensures j.Allows(d.Put(j.destination, content))
  {
  }

  lemma FilledAllowed(j: Job)
    requires ValidName(j.destination)
    ensures j.AllowsAll(Filled(j.before, j.id, j.bytes, j.f))
    ensures var e := End(j.before, Filled(j.before, j.id, j.bytes, j.f));
            Temp(j.id) in e.files && (j.destination in e.files <==> j.destination in j.before.files)
  {
    var empty := j.before.Put(Temp(j.id), []);
    AllowsPut(j, j.before, []);
    AllowsPut(j, empty, Prefix(j.bytes, j.f.partial));
    AllowsPut(j, empty.Put(Temp(j.id), Prefix(j.bytes, j.f.partial)), j.bytes);
    NameIsNotTemp(j.destination, j.id);
  }

  lemma LinkedAllowed(j: Job, d: Disk)
    requires ValidName(j.destination) && j.Allows(d) && Temp(j.id) in d.files
    ensures j.AllowsAll(Linked(d, j.id, j.destination, j.bytes, j.f))
    ensures var e := End(d, Linked(d, j.id, j.destination, j.bytes, j.f));
            && (Temp(j.id) in e.files <==> j.f.unlinkFails)
            && (j.destination !in d.files && j.f.racer.None? && !j.f.linkFails ==>
                  j.destination in e.files && e.files[j.destination] == j.bytes)
  {
    NameIsNotTemp(j.destination, j.id);
    var raced := Raced(d, j.destination, j.f);
    if raced != [] {
      AllowsLink(j, d, j.f.racer.value);
    }
    var e := End(d, raced);
    assert j.Allows(e);
    AllowsPut(j, e, []);
    if j.destination !in e.files {
      AllowsLink(j, e, j.bytes);
      AllowsPut(j, e.Put(j.destination, j.bytes), []);
    }
  }

  /**
   Every durable state of an export's file work changes only the temporary file and an absent destination; the temporary file
   is left exactly when it cannot be unlinked.
   */
  lemma CreatedAllowed(j: Job)
    requires ValidName(j.destination)
    ensures j.AllowsAll(j.Passed())
    ensures var e := End(j.before, j.Passed());
            && (Temp(j.id) in e.files <==> if j.Opens() then j.f.unlinkFails else Temp(j.id) in j.before.files)
            && (CreateResult(j.before, j.id, j.destination, j.bytes, j.f).Ok? ==>
                  j.destination in e.files && e.files[j.destination] == j.bytes)
    ensures CreateResult(j.before, j.id, j.destination, j.bytes, j.f).Ok? <==>
            j.Opens() && j.destination !in j.before.files && Succeeds(j.f)
  {
    if j.Opens() {
      FilledAllowed(j);
      var d := End(j.before, Filled(j.before, j.id, j.bytes, j.f));
      assert j.Allows(d);
      AllowsPut(j, d, []);
      LinkedAllowed(j, d);
    }
  }

  /** What the temporary file holds in each durable state of filling it: nothing, a prefix, and unless the write fails everything. */
  lemma FilledContents(j: Job)
    ensures var filled, temp := Filled(j.before, j.id, j.bytes, j.f), Temp(j.id);
            && |filled| == (if j.f.writeFails then 2 else 3) && (forall k :: 0 <= k < |filled| ==> temp in filled[k].files)
            && filled[0].files[temp] == [] && filled[1].files[temp] <= j.bytes && (!j.f.writeFails ==> filled[2].files[temp] == j.bytes)
            && (forall k :: 0 <= k < |filled| && ValidName(j.destination) ==> (j.destination in filled[k].files <==> j.destination in j.before.files))
  {
    NameNeverTemp(j.destination, j.id);
  }

  lemma NameNeverTemp(name: string, id: Id)
    ensures ValidName(name) ==> name != Temp(id)
  {
    if ValidName(name) {
      NameIsNotTemp(name, id);
    }
  }

  /** The destination appears only after the temporary file held all the bytes, and never when their write failed. */
  lemma LinkedAfterFilled(j: Job, k: nat)
    requires ValidName(j.destination) && j.destination !in j.before.files && j.f.racer.None?
    requires k < |j.Passed()| && j.destination in j.Passed()[k].files
    ensures !j.f.writeFails && 2 < k && Temp(j.id) in j.Passed()[2].files && j.Passed()[2].files[Temp(j.id)] == j.bytes
  {
    FilledContents(j);
    NameIsNotTemp(j.destination, j.id);
  }

  /** Nothing goes wrong between opening the temporary file and syncing the directory. */
  predicate Succeeds(f: Faults) { !f.writeFails && f.racer.None? && !f.linkFails && !f.syncFails }

  lemma AllowedCovers(j: Job, d: Disk, ids: set<Id>)
    requires ValidName(j.destination) && j.Allows(d) && j.id in ids && Covered(j.before.files, ids)
    ensures Covered(d.files, ids)
  {
    forall id | Temp(id) in d.files ensures id in ids {
      NameIsNotTemp(j.destination, id);
      if Temp(id) == Temp(j.id) {
        TempInjective(id, j.id);
      }
    }
  }

  // ---- One export ----

  /** The export's id enters the journal. */
  predicate Begins(s: State, id: Id, f: Faults)
  {
    id !in s.pending && |s.pending| < 16 && ValidTargetId(id) && f.begin == Written
  }

  /** The bytes are those of the digest and within the size bound, and name an artifact and a revision of it. */
  predicate Verified(sha256: Sha256, req: Request)
  {
    sha256(req.bytes) == req.digest && |req.bytes| <= 262_144 && req.artifactId != "" && req.revision != 0
  }

  /** Verified bytes for a target that is there, belongs to the same owner and has not expired. */
  predicate Permitted(sha256: Sha256, s: State, req: Request, now: nat)
  {
    req.id in s.targets && s.targets[req.id].owner == req.owner && now < s.targets[req.id].expiresAt && Verified(sha256, req)
  }

  /** The export gets as far as creating its temporary file. */
  predicate Creates(sha256: Sha256, s: State, req: Request, now: nat, f: Faults)
  {
    Permitted(sha256, s, req, now) && Begins(s, req.id, f) && !f.openFails && Temp(req.id) !in s.disk.files
  }

  /** An export that is not permitted is refused before anything is written; a known target is consumed all the same. */
  lemma ExportRefused(sha256: Sha256, s: State, req: Request, now: nat, f: Faults)
    requires !Permitted(sha256, s, req, now)
    ensures Export(sha256, s, req, now, f) == Step(s.(targets := s.targets - {req.id}), Err(Invalid), [])
  {
    if req.id !in s.targets {
      assert s.targets - {req.id} == s.targets;
    }
  }

  /** The export creates a temporary file that it cannot unlink, and strikes its id from the journal all the same. */
  predicate Loses(sha256: Sha256, s: State, req: Request, now: nat, f: Faults)
  {
    Creates(sha256, s, req, now, f) && Strikes(f)
  }

  predicate Strikes(f: Faults) { f.unlinkFails && f.finish != BeforeRename }

  function LostByExport(sha256: Sha256, s: State, req: Request, now: nat, f: Faults): (ids: set<Id>)
  {
    if Loses(sha256, s, req, now, f) then {req.id} else {}
  }

  lemma CreatedSafe(j: Job, s: State, lost: set<Id>)
    requires ValidName(j.destination) && s.disk == j.before && Sound(s, lost) && j.id in s.pending && j.id in s.disk.journal
    ensures AllSafe(j.Passed(), lost) && Sound(s.(disk := End(j.before, j.Passed())), lost)
  {
    CreatedAllowed(j);
    forall k | 0 <= k < |j.Passed()|
      ensures Safe(j.Passed()[k], lost) && Covered(j.Passed()[k].files, s.pending + lost)
    {
      assert j.Allows(j.Passed()[k]);
      AllowedCovers(j, j.Passed()[k], s.disk.journal + lost);
      AllowedCovers(j, j.Passed()[k], s.pending + lost);
    }
  }

  /** All but the last of these durable states are safe without losing anything more. */
  ghost predicate SafeUntilLast(disks: seq<Disk>, lost: set<Id>)
  {
    disks != [] && AllSafe(disks[..|disks| - 1], lost)
  }

  lemma UntilLast(disks: seq<Disk>, last: Disk, lost: set<Id>)
    requires AllSafe(disks, lost)
    ensures SafeUntilLast(disks + [last], lost)
  {
    assert (disks + [last])[..|disks|] == disks;
  }

  /** An export that began loses its id exactly with its last durable write, the journal's. */
  lemma AfterBeginSafe(begun: Step, req: Request, destination: string, f: Faults, lost: set<Id>)
    requires ValidName(destination) && StepSafe(begun, lost) && req.id in begun.state.pending && req.id in begun.state.disk.journal
    requires Temp(req.id) in begun.state.disk.files ==> req.id in lost
    ensures var t := AfterBegin(begun, req, destination, f);
            var loses := !f.openFails && Temp(req.id) !in begun.state.disk.files && Strikes(f);
            && StepSafe(t, lost + if loses then {req.id} else {})
            && (loses ==> SafeUntilLast(t.passed, lost))
  {
    var j := Job(begun.state.disk, req.id, destination, req.bytes, f);
    var loses := j.Opens() && Strikes(f);
    var mid := begun.state.(disk := End(j.before, j.Passed()));
    CreatedSafe(j, begun.state, lost);
    CreatedAllowed(j);
    SafeConcat(begun.passed, j.Passed(), lost);
    var all := lost + if loses then {req.id} else {};
    SafeMore(mid, begun.passed + j.Passed(), lost, all);
    var finished := FinishPending(mid, req.id, f.finish);
    if Temp(req.id) in mid.disk.files && f.finish == BeforeRename {
      assert finished.state == mid && finished.passed == [];
    } else {
      FinishSafe(mid, req.id, f.finish, all);
    }
    SafeConcat(begun.passed + j.Passed(), finished.passed, all);
    Sequences.Associate(begun.passed, j.Passed(), finished.passed);
    if loses {
      SubsetSize(mid.pending - {req.id}, mid.pending);
      UntilLast(begun.passed + j.Passed(), finished.passed[0], lost);
    }
  }

  /** An export keeps every durable state safe but for the id it loses, if any, and it loses that one with its last durable write. */
  lemma ExportSafe(sha256: Sha256, s: State, req: Request, now: nat, f: Faults, lost: set<Id>)
    requires Sound(s, lost)
    ensures StepSafe(Export(sha256, s, req, now, f), lost + LostByExport(sha256, s, req, now, f))
    ensures Loses(sha256, s, req, now, f) ==> SafeUntilLast(Export(sha256, s, req, now, f).passed, lost)
  {
    var all := lost + LostByExport(sha256, s, req, now, f);
    SafeMore(s, [], lost, all);
    if req.id in s.targets && Matches(sha256, req, s.targets[req.id], now) {
      var rest := s.(targets := s.targets - {req.id});
      BeginSafe(rest, req.id, f.begin, lost);
      BeginExactly(rest, req.id, f.begin);
      var begun := BeginPending(rest, req.id, f.begin);
      if begun.result.Ok? {
        AfterBeginSafe(begun, req, s.targets[req.id].displayName, f, lost);
      } else {
        SafeMore(begun.state, begun.passed, lost, all);
      }
    }
  }

  // ---- Cleanup and admission ----

  /** Only temporary files of these ids that can be unlinked are gone. */
  ghost predicate Thinned(d: Disk, e: Disk, ids: seq<Id>, unlinkFails: Id -> bool)
  {
    && e.journal == d.journal
    && (forall name :: name in e.files ==> name in d.files && e.files[name] == d.files[name])
    && (forall name :: name in d.files && name !in e.files ==> exists id :: id in ids && !unlinkFails(id) && name == Temp(id))
  }

  lemma ThinnedMore(d: Disk, e: Disk, ids: seq<Id>, id: Id, unlinkFails: Id -> bool)
    requires Thinned(d, e, ids, unlinkFails)
    ensures Thinned(d, e, ids + [id], unlinkFails)
    ensures !unlinkFails(id) ==> Thinned(d, e.Drop(Temp(id)), ids + [id], unlinkFails)
  {
    assert forall x :: x in ids ==> x in ids + [id];
    assert id in ids + [id];
  }

  lemma {:induction false} RemovedThins(d: Disk, ids: seq<Id>, unlinkFails: Id -> bool)
    ensures var passed := RemovedAll(d, ids, unlinkFails);
            && Thinned(d, End(d, passed), ids, unlinkFails)
            && (forall k :: 0 <= k < |passed| ==> Thinned(d, passed[k], ids, unlinkFails))
            && (forall id :: id in ids && !unlinkFails(id) ==> Temp(id) !in End(d, passed).files)
    decreases |ids|
  {
    if ids == [] {
    } else {
      var init, last := ids[..|ids| - 1], ids[|ids| - 1];
      assert ids == init + [last];
      RemovedThins(d, init, unlinkFails);
      var earlier := RemovedAll(d, init, unlinkFails);
      ThinnedMore(d, End(d, earlier), init, last, unlinkFails);
      forall k | 0 <= k < |earlier| ensures Thinned(d, earlier[k], ids, unlinkFails) {
        ThinnedMore(d, earlier[k], init, last, unlinkFails);
      }
    }
  }

  lemma ThinnedCovers(d: Disk, e: Disk, ids: seq<Id>, unlinkFails: Id -> bool, known: set<Id>)
    requires Thinned(d, e, ids, unlinkFails) && Covered(d.files, known)
    ensures Covered(e.files, known)
  {
  }

  lemma StuckStays(d: Disk, e: Disk, ids: seq<Id>, unlinkFails: Id -> bool, id: Id)
    requires Thinned(d, e, ids, unlinkFails) && Stuck(d.files, id, unlinkFails)
    ensures Temp(id) in e.files
  {
    if Temp(id) !in e.files {
      var other :| other in ids && !unlinkFails(other) && Temp(id) == Temp(other);
      TempInjective(id, other);
      assert false;
    }
  }

  /** After the cleanup the temporary file of a pending id is there exactly if it was and cannot be unlinked. */
  lemma CleanedFiles(s: State, unlinkFails: Id -> bool, how: JournalWrite)
    ensures var e := Cleanup(s, unlinkFails, how).state.disk;
            && (forall id :: id in s.pending ==> (Temp(id) in e.files <==> Stuck(s.disk.files, id, unlinkFails)))
            && (forall name :: name in e.files ==> name in s.disk.files && e.files[name] == s.disk.files[name])
            && (forall name :: name in s.disk.files && name !in e.files ==> exists id :: id in s.pending && !unlinkFails(id) && name == Temp(id))
  {
    var order := InOrder(s.pending);
    RemovedThins(s.disk, order, unlinkFails);
    var e := End(s.disk, RemovedAll(s.disk, order, unlinkFails));
    assert Cleanup(s, unlinkFails, how).state.disk.files == e.files;
    forall id | Stuck(s.disk.files, id, unlinkFails) ensures Temp(id) in e.files {
      StuckStays(s.disk, e, order, unlinkFails, id);
    }
  }

  lemma CleanupSafe(s: State, unlinkFails: Id -> bool, how: JournalWrite, lost: set<Id>)
    requires Sound(s, lost)
    ensures StepSafe(Cleanup(s, unlinkFails, how), lost)
  {
    var order := InOrder(s.pending);
    var removed := RemovedAll(s.disk, order, unlinkFails);
    RemovedThins(s.disk, order, unlinkFails);
    forall k | 0 <= k < |removed| ensures Safe(removed[k], lost) {
      ThinnedCovers(s.disk, removed[k], order, unlinkFails, s.disk.journal + lost);
    }
    var cleaned := s.(disk := End(s.disk, removed));
    ThinnedCovers(s.disk, cleaned.disk, order, unlinkFails, s.disk.journal + lost);
    ThinnedCovers(s.disk, cleaned.disk, order, unlinkFails, s.pending + lost);
    var next := StuckOf(s, unlinkFails);
    if next != s.pending {
      assert Covered(cleaned.disk.files, next + lost);
      KeepPendingSafe(cleaned, next, how, lost);
      SafeConcat(removed, KeepPending(cleaned, next, how).passed, lost);
    }
  }

  lemma AddTargetSafe(cleaned: Step, a: Selection, lost: set<Id>)
    requires StepSafe(cleaned, lost) && ValidName(a.name)
    ensures StepSafe(AddTarget(cleaned, a), lost)
  {
  }

  lemma AdmitSafe(s: State, a: Selection, lost: set<Id>)
    requires Sound(s, lost)
    ensures StepSafe(Admit(s, a), lost)
  {
    if Checked(s.disk.files, a).Ok? {
      CleanupSafe(s, a.unlinkFails, a.how, lost);
      AddTargetSafe(Cleanup(s, a.unlinkFails, a.how), a, lost);
    }
  }

  lemma AdmitCleans(s: State, a: Selection, lost: set<Id>, id: Id)
    requires Sound(s, lost) && !a.unlinkFails(id)
    ensures Admit(s, a).result.Ok? && Temp(id) in Admit(s, a).state.disk.files ==> id in lost
  {
    CleanedFiles(s, a.unlinkFails, a.how);
  }

  lemma StuckIsValid(s: State, unlinkFails: Id -> bool)
    requires ValidJournal(s.pending)
    ensures ValidJournal(StuckOf(s, unlinkFails))
  {
    SubsetSize(StuckOf(s, unlinkFails), s.pending);
  }

  /** The cleanup has an id to strike: one whose temporary file is gone or can be unlinked. */
  ghost predicate Strikable(s: State, unlinkFails: Id -> bool)
  {
    exists id :: id in s.pending && !(Temp(id) in s.disk.files && unlinkFails(id))
  }

  /** The ids of targets that have not expired. */
  function Alive(targets: map<Id, Target>, now: nat): (ids: set<Id>)
  {
    set id | id in targets && now < targets[id].expiresAt
  }

  /** A label for a file of the directory: not hidden, at most 240 bytes, without separators and control characters. */
  ghost predicate Nameable(name: string)
  {
    && 1 <= |name| && Utf8Length(name) <= 240 && name[0] != '.'
    && forall k :: 0 <= k < |name| ==>
                     name[k] != '/' && name[k] != '\\' && !(0 <= name[k] as int <= 0x1F) && !(0x7F <= name[k] as int <= 0x9F)
  }

  lemma NameableIsValid(name: string)
    ensures Nameable(name) <==> ValidName(name)
  {
    assert forall k :: 0 <= k < |name| ==> name[k] in name;
  }

  /** How an admission ends: the first thing against it. */
  ghost function Answer(s: State, a: Selection): (r: Result<(), ExportError>)
  {
    if a.name in s.disk.files then Err(TargetExists)
    else if a.owner == "" || !Nameable(a.name) then Err(Invalid)
    else if a.directoryFails || (a.how != Written && Strikable(s, a.unlinkFails)) then Err(Unavailable)
    else if |Alive(s.targets, a.now)| >= 16 then Err(BoundExceeded)
    else if a.timestampFails then Err(Unavailable)
    else Ok(())
  }

  lemma UnexpiredIsAlive(targets: map<Id, Target>, now: nat)
    ensures Unexpired(targets, now).Keys == Alive(targets, now) && |Unexpired(targets, now)| == |Alive(targets, now)|
    ensures forall id :: id in Unexpired(targets, now) ==> Unexpired(targets, now)[id] == targets[id]
  {
    var live := Unexpired(targets, now);
    assert live.Keys == Alive(targets, now);
    assert |live| == |live.Keys|;
  }

  lemma CleanupResult(s: State, unlinkFails: Id -> bool, how: JournalWrite)
    requires ValidJournal(s.pending)
    ensures Cleanup(s, unlinkFails, how).result == if how != Written && Strikable(s, unlinkFails) then Err(Unavailable) else Ok(())
    ensures Cleanup(s, unlinkFails, how).state.targets == s.targets
  {
    StuckIsValid(s, unlinkFails);
    if StuckOf(s, unlinkFails) != s.pending {
      assert exists id :: id in s.pending && id !in StuckOf(s, unlinkFails);
    }
  }

  /** The targets after an admission: the living ones as they were, and this one for three hundred seconds. */
  ghost predicate Admitted(before: map<Id, Target>, after: map<Id, Target>, a: Selection)
  {
    && after.Keys == Alive(before, a.now) + {a.id}
    && (forall id :: id in after && id != a.id ==> id in before && after[id] == before[id])
    && after[a.id] == Target(a.name, a.owner, if a.now + 300 <= U64_MAX then a.now + 300 else U64_MAX)
  }

  lemma AddTargetResult(cleaned: Step, a: Selection)
    requires cleaned.result.Ok?
    ensures AddTarget(cleaned, a).result ==
            if |Alive(cleaned.state.targets, a.now)| >= 16 then Err(BoundExceeded) else if a.timestampFails then Err(Unavailable) else Ok(())
    ensures AddTarget(cleaned, a).result.Ok? ==> Admitted(cleaned.state.targets, AddTarget(cleaned, a).state.targets, a)
  {
    UnexpiredIsAlive(cleaned.state.targets, a.now);
  }

  lemma AnswerAfterCleanup(s: State, a: Selection, cleaned: Step)
    requires Checked(s.disk.files, a).Ok? && cleaned.state.targets == s.targets
    requires cleaned.result == if a.how != Written && Strikable(s, a.unlinkFails) then Err(Unavailable) else Ok(())
    ensures AddTarget(cleaned, a).result == Answer(s, a)
    ensures AddTarget(cleaned, a).result.Ok? ==> Admitted(s.targets, AddTarget(cleaned, a).state.targets, a)
  {
    NameableIsValid(a.name);
    if cleaned.result.Ok? {
      AddTargetResult(cleaned, a);
    }
  }

  lemma AnswerBeforeCleanup(s: State, a: Selection)
    requires Checked(s.disk.files, a).Err?
    ensures Answer(s, a) == Checked(s.disk.files, a)
  {
    NameableIsValid(a.name);
  }

  /** An admission succeeds exactly when its checks pass, the cleanup is persisted or has nothing to strike, and there is room. */
  lemma AdmitSucceeds(s: State, a: Selection)
    requires ValidJournal(s.pending)
    ensures Admit(s, a).result == Answer(s, a)
    ensures Admit(s, a).result.Ok? ==> Admitted(s.targets, Admit(s, a).state.targets, a)
  {
    if Checked(s.disk.files, a).Err? {
      AnswerBeforeCleanup(s, a);
    } else {
      CleanupResult(s, a.unlinkFails, a.how);
      AnswerAfterCleanup(s, a, Cleanup(s, a.unlinkFails, a.how));
    }
  }

  /** With a cleanup that can be persisted and no target yet, the checks alone decide. */
  lemma FirstAnswer(s: State, a: Selection)
    requires Checked(s.disk.files, a).Ok? && a.how == Written && !a.timestampFails && s.targets == map[]
    ensures Answer(s, a).Ok?
  {
    NameableIsValid(a.name);
    assert Alive(s.targets, a.now) == {};
  }

  lemma ExportConsumes(sha256: Sha256, s: State, req: Request, now: nat, f: Faults)
    ensures req.id !in Export(sha256, s, req, now, f).state.targets
    ensures Export(sha256, s, req, now, f).result.Ok? ==> req.id in s.targets
  {
  }

  // ---- One export, exactly ----

  /** In each of these durable states the directory is as it was but for the temporary file and the destination. */
  ghost predicate Touches(before: map<string, Bytes>, disks: seq<Disk>, req: Request, destination: string, racer: Option<Bytes>)
  {
    forall k :: 0 <= k < |disks| ==> OnlyDestination(before, disks[k].files, req.id, destination, req.bytes, racer)
  }

  lemma SameFilesTouch(before: map<string, Bytes>, d: Disk, disks: seq<Disk>, req: Request, destination: string, racer: Option<Bytes>)
    requires OnlyDestination(before, d.files, req.id, destination, req.bytes, racer)
    requires forall k :: 0 <= k < |disks| ==> disks[k].files == d.files
    ensures Touches(before, disks, req, destination, racer)
  {
  }

  lemma JobTouches(j: Job, req: Request)
    requires ValidName(j.destination) && j.id == req.id && j.bytes == req.bytes
    ensures Touches(j.before.files, j.Passed(), req, j.destination, j.f.racer)
    ensures OnlyDestination(j.before.files, End(j.before, j.Passed()).files, req.id, j.destination, req.bytes, j.f.racer)
  {
    CreatedAllowed(j);
    forall k | 0 <= k < |j.Passed()|
      ensures OnlyDestination(j.before.files, j.Passed()[k].files, req.id, j.destination, req.bytes, j.f.racer)
    {
      assert j.Allows(j.Passed()[k]);
    }
  }

  lemma AfterBeginTouches(begun: Step, req: Request, destination: string, f: Faults)
    requires ValidName(destination) && forall k :: 0 <= k < |begun.passed| ==> begun.passed[k].files == begun.state.disk.files
    ensures Touches(begun.state.disk.files, AfterBegin(begun, req, destination, f).passed, req, destination, f.racer)
  {
    var d := begun.state.disk;
    var j := Job(d, req.id, destination, req.bytes, f);
    var mid := begun.state.(disk := End(d, j.Passed()));
    JobTouches(j, req);
    SameFilesTouch(d.files, d, begun.passed, req, destination, f.racer);
    SameFilesTouch(d.files, mid.disk, FinishPending(mid, req.id, f.finish).passed, req, destination, f.racer);
  }

  /** An export of a known target consumes it and changes only its temporary file and its destination in every durable state. */
  lemma ExportTouches(sha256: Sha256, s: State, req: Request, now: nat, f: Faults)
    requires ValidJournal(s.pending) && req.id in s.targets && ValidName(s.targets[req.id].displayName)
    ensures Export(sha256, s, req, now, f).state.targets == s.targets - {req.id}
    ensures Touches(s.disk.files, Export(sha256, s, req, now, f).passed, req, s.targets[req.id].displayName, f.racer)
  {
    var rest := s.(targets := s.targets - {req.id});
    BeginExactly(rest, req.id, f.begin);
    var begun := BeginPending(rest, req.id, f.begin);
    SameFilesTouch(s.disk.files, s.disk, begun.passed, req, s.targets[req.id].displayName, f.racer);
    if begun.result.Ok? {
      AfterBeginTouches(begun, req, s.targets[req.id].displayName, f);
    }
  }

  /** How the file work of an export ends, fault by fault. */
  function FileResult(files: map<string, Bytes>, id: Id, destination: string, f: Faults): (r: Result<(), ExportError>)
  {
    if f.openFails || Temp(id) in files || f.writeFails then Err(Unavailable)
    else if destination in files || f.racer.Some? || f.linkFails then Err(TargetExists)
    else if f.syncFails then Err(Unavailable)
    else Ok(())
  }

  lemma AfterBeginResult(begun: Step, req: Request, destination: string, f: Faults)
    requires ValidName(destination)
    ensures var t, d := AfterBegin(begun, req, destination, f), begun.state.disk;
            && (t.result.Ok? <==> !f.openFails && Temp(req.id) !in d.files && destination !in d.files && Succeeds(f))
            && t.result == FileResult(d.files, req.id, destination, f)
            && (t.result.Ok? ==> destination in t.state.disk.files && t.state.disk.files[destination] == req.bytes)
  {
    CreatedAllowed(Job(begun.state.disk, req.id, destination, req.bytes, f));
    FilledAllowed(Job(begun.state.disk, req.id, destination, req.bytes, f));
  }

  /** An export succeeds exactly under these conditions, and then the destination holds exactly the verified bytes. */
  lemma ExportExactly(sha256: Sha256, s: State, req: Request, now: nat, f: Faults)
    requires ValidJournal(s.pending) && req.id in s.targets && ValidName(s.targets[req.id].displayName)
    ensures var t, destination := Export(sha256, s, req, now, f), s.targets[req.id].displayName;
            && (t.result.Ok? <==> Creates(sha256, s, req, now, f) && destination !in s.disk.files && Succeeds(f))
            && (Permitted(sha256, s, req, now) && Begins(s, req.id, f) ==> t.result == FileResult(s.disk.files, req.id, destination, f))
            && (t.result.Ok? ==> destination in t.state.disk.files && t.state.disk.files[destination] == req.bytes)
  {
    var rest := s.(targets := s.targets - {req.id});
    BeginExactly(rest, req.id, f.begin);
    AfterBeginResult(BeginPending(rest, req.id, f.begin), req, s.targets[req.id].displayName, f);
  }

  /** Which journal an export that began leaves, and whether its temporary file is still there. */
  lemma AfterBeginEnds(begun: Step, req: Request, destination: string, f: Faults)
    requires ValidName(destination) && ValidJournal(begun.state.pending) && Temp(req.id) !in begun.state.disk.files
    ensures var t, s := AfterBegin(begun, req, destination, f), begun.state;
            && t.state.disk.journal == (if f.finish == BeforeRename then s.disk.journal else s.pending - {req.id})
            && (Temp(req.id) in t.state.disk.files <==> !f.openFails && f.unlinkFails)
            && OnlyDestination(s.disk.files, t.state.disk.files, req.id, destination, req.bytes, f.racer)
  {
    var j := Job(begun.state.disk, req.id, destination, req.bytes, f);
    JobTouches(j, req);
    CreatedAllowed(j);
    SubsetSize(begun.state.pending - {req.id}, begun.state.pending);
  }

  lemma OthersCovered(before: map<string, Bytes>, after: map<string, Bytes>, req: Request, destination: string, racer: Option<Bytes>, ids: set<Id>)
    requires OnlyDestination(before, after, req.id, destination, req.bytes, racer) && ValidName(destination) && Covered(before, ids)
    ensures forall id :: Temp(id) in after && id != req.id ==> id in ids
  {
    forall id | Temp(id) in after && id != req.id ensures id in ids {
      NameIsNotTemp(destination, id);
      if Temp(id) == Temp(req.id) {
        TempInjective(id, req.id);
      }
    }
  }

  lemma AfterBeginCovers(begun: Step, req: Request, destination: string, f: Faults, before: set<Id>)
    requires ValidName(destination) && ValidJournal(begun.state.pending) && Temp(req.id) !in begun.state.disk.files
    requires begun.state.pending == before + {req.id} == begun.state.disk.journal && Covered(begun.state.disk.files, before) && req.id !in before
    ensures var d := AfterBegin(begun, req, destination, f).state.disk;
            Covered(d.files, d.journal) <==> !(!f.openFails && Strikes(f))
  {
    AfterBeginEnds(begun, req, destination, f);
    OthersCovered(begun.state.disk.files, AfterBegin(begun, req, destination, f).state.disk.files, req, destination, f.racer, before);
  }

  /**
   When journal and pending set covered the directory before an export, the journal covers it afterwards if and only if the
   export did not create a temporary file that it could not unlink and whose id it struck from the journal.
   */
  lemma ExportCovers(sha256: Sha256, s: State, req: Request, now: nat, f: Faults)
    requires ValidJournal(s.pending) && forall id :: id in s.targets ==> ValidName(s.targets[id].displayName)
    requires Covered(s.disk.files, s.pending) && Covered(s.disk.files, s.disk.journal)
    ensures var d := Export(sha256, s, req, now, f).state.disk;
            Covered(d.files, d.journal) <==> !Loses(sha256, s, req, now, f)
  {
    if !Permitted(sha256, s, req, now) {
      ExportRefused(sha256, s, req, now, f);
    } else {
      var rest := s.(targets := s.targets - {req.id});
      BeginExactly(rest, req.id, f.begin);
      var begun := BeginPending(rest, req.id, f.begin);
      if begun.result.Ok? {
        AfterBeginCovers(begun, req, s.targets[req.id].displayName, f, s.pending);
      }
    }
  }

  // ---- No step overwrites ----

  ghost predicate IsTemp(name: string) { exists id :: name == Temp(id) }

  /** Every file but temporary ones is still there, unchanged. */
  ghost predicate Keeps(d: Disk, e: Disk)
  {
    forall name :: name in d.files && !IsTemp(name) ==> name in e.files && e.files[name] == d.files[name]
  }

  ghost predicate KeepsAt(d: Disk, disks: seq<Disk>, k: nat)
    requires k < |disks|
  {
    Keeps(if k == 0 then d else disks[k - 1], disks[k])
  }

  /** Each of these durable states keeps the files of the one before it, and the first those of `d`. */
  ghost predicate Chain(d: Disk, disks: seq<Disk>)
  {
    forall k :: 0 <= k < |disks| ==> KeepsAt(d, disks, k)
  }

  lemma KeepsTemp(d: Disk, id: Id, content: Bytes)
    ensures Keeps(d, d.Put(Temp(id), content)) && Keeps(d, d.Drop(Temp(id)))
  {
    assert IsTemp(Temp(id));
  }

  lemma KeepsNew(d: Disk, name: string, content: Bytes)
    requires name !in d.files
    ensures Keeps(d, d.Put(name, content))
  {
  }

  lemma KeepsTransitive(a: Disk, b: Disk, c: Disk)
    requires Keeps(a, b) && Keeps(b, c)
    ensures Keeps(a, c)
  {
  }

  lemma ChainOne(d: Disk, e: Disk)
    requires Keeps(d, e)
    ensures Chain(d, [e])
  {
  }

  lemma ChainConcat(d: Disk, a: seq<Disk>, b: seq<Disk>)
    requires Chain(d, a) && Chain(End(d, a), b)
    ensures Chain(d, a + b) && End(d, a + b) == End(End(d, a), b)
  {
    var all := a + b;
    forall k | 0 <= k < |all| ensures KeepsAt(d, all, k) {
      if k < |a| {
        assert KeepsAt(d, a, k);
      } else {
        assert KeepsAt(End(d, a), b, k - |a|);
      }
    }
  }

  lemma {:induction false} ChainKeeps(d: Disk, disks: seq<Disk>, i: nat, j: nat)
    requires Chain(d, disks) && i <= j < |disks|
    ensures Keeps(disks[i], disks[j])
    decreases j
  {
    if i == j {
    } else {
      ChainKeeps(d, disks, i, j - 1);
      assert KeepsAt(d, disks, j);
      KeepsTransitive(disks[i], disks[j - 1], disks[j]);
    }
  }

  lemma UnlinkedChain(d: Disk, id: Id, fails: bool)
    ensures Chain(d, Unlinked(d, id, fails))
  {
    KeepsTemp(d, id, []);
  }

  lemma FilledChain(d: Disk, id: Id, bytes: Bytes, f: Faults)
    ensures Chain(d, Filled(d, id, bytes, f))
  {
    var empty := d.Put(Temp(id), []);
    var begun := empty.Put(Temp(id), Prefix(bytes, f.partial));
    KeepsTemp(d, id, []);
    KeepsTemp(empty, id, Prefix(bytes, f.partial));
    KeepsTemp(begun, id, bytes);
  }

  lemma LinkedChain(d: Disk, id: Id, destination: string, bytes: Bytes, f: Faults)
    ensures Chain(d, Linked(d, id, destination, bytes, f))
  {
    var raced := Raced(d, destination, f);
    if raced != [] {
      KeepsNew(d, destination, f.racer.value);
    }
    assert Chain(d, raced);
    var e := End(d, raced);
    if f.linkFails || destination in e.files {
      UnlinkedChain(e, id, f.unlinkFails);
      ChainConcat(d, raced, Unlinked(e, id, f.unlinkFails));
    } else {
      var linked := e.Put(destination, bytes);
      KeepsNew(e, destination, bytes);
      ChainOne(e, linked);
      UnlinkedChain(linked, id, f.unlinkFails);
      ChainConcat(e, [linked], Unlinked(linked, id, f.unlinkFails));
      ChainConcat(d, raced, [linked] + Unlinked(linked, id, f.unlinkFails));
    }
  }

  lemma CreatedChain(d: Disk, id: Id, destination: string, bytes: Bytes, f: Faults)
    ensures Chain(d, Created(d, id, destination, bytes, f))
  {
    if !f.openFails && Temp(id) !in d.files {
      var filled := Filled(d, id, bytes, f);
      var e := End(d, filled);
      FilledChain(d, id, bytes, f);
      UnlinkedChain(e, id, f.unlinkFails);
      LinkedChain(e, id, destination, bytes, f);
      ChainConcat(d, filled, if f.writeFails then Unlinked(e, id, f.unlinkFails) else Linked(e, id, destination, bytes, f));
    }
  }

  /** A step's durable states form a chain from the disk before it to the disk after it. */
  ghost predicate StepChain(s: State, t: Step)
  {
    Chain(s.disk, t.passed) && t.state.disk == End(s.disk, t.passed)
  }

  lemma KeepPendingChain(s: State, next: set<Id>, how: JournalWrite)
    ensures StepChain(s, KeepPending(s, next, how))
  {
  }

  lemma AfterBeginChain(s: State, begun: Step, req: Request, destination: string, f: Faults)
    requires StepChain(s, begun)
    ensures StepChain(s, AfterBegin(begun, req, destination, f))
  {
    var d := begun.state.disk;
    var created := Created(d, req.id, destination, req.bytes, f);
    var mid := begun.state.(disk := End(d, created));
    var finished := FinishPending(mid, req.id, f.finish);
    CreatedChain(d, req.id, destination, req.bytes, f);
    KeepPendingChain(mid, mid.pending - {req.id}, f.finish);
    ChainConcat(d, created, finished.passed);
    ChainConcat(s.disk, begun.passed, created + finished.passed);
  }

  lemma ExportChain(sha256: Sha256, s: State, req: Request, now: nat, f: Faults)
    ensures StepChain(s, Export(sha256, s, req, now, f))
  {
    if req.id in s.targets {
      var rest := s.(targets := s.targets - {req.id});
      KeepPendingChain(rest, rest.pending + {req.id}, f.begin);
      var begun := BeginPending(rest, req.id, f.begin);
      assert StepChain(s, begun);
      if begun.result.Ok? {
        AfterBeginChain(s, begun, req, s.targets[req.id].displayName, f);
      }
    }
  }

  lemma {:induction false} RemovedChain(d: Disk, ids: seq<Id>, unlinkFails: Id -> bool)
    ensures Chain(d, RemovedAll(d, ids, unlinkFails))
    decreases |ids|
  {
    if ids == [] {
    } else {
      var init, last := ids[..|ids| - 1], ids[|ids| - 1];
      RemovedChain(d, init, unlinkFails);
      var e := End(d, RemovedAll(d, init, unlinkFails));
      KeepsTemp(e, last, []);
      ChainConcat(d, RemovedAll(d, init, unlinkFails), Removed(e, last, unlinkFails));
    }
  }

  lemma CleanupChain(s: State, unlinkFails: Id -> bool, how: JournalWrite)
    ensures StepChain(s, Cleanup(s, unlinkFails, how))
  {
    var removed := RemovedAll(s.disk, InOrder(s.pending), unlinkFails);
    RemovedChain(s.disk, InOrder(s.pending), unlinkFails);
    var cleaned, next := s.(disk := End(s.disk, removed)), StuckOf(s, unlinkFails);
    KeepPendingChain(cleaned, next, how);
    ChainConcat(s.disk, removed, KeepPending(cleaned, next, how).passed);
  }

  // ---- No step finds what is forgotten ----

  /** The temporary file is there and its id is in neither journal, pending set nor targets. */
  ghost predicate Forgotten(s: State, id: Id)
  {
    Escaped(s.disk, id) && id !in s.pending && id !in s.targets
  }

  ghost predicate Escaped(d: Disk, id: Id) { Temp(id) in d.files && id !in d.journal }

  lemma AfterBeginPending(begun: Step, req: Request, destination: string, f: Faults)
    requires ValidJournal(begun.state.pending)
    ensures AfterBegin(begun, req, destination, f).state.pending == begun.state.pending - if f.finish == Written then {req.id} else {}
  {
    SubsetSize(begun.state.pending - {req.id}, begun.state.pending);
  }

  /**
   When every temporary file was known before an export, its own escapes the journal exactly when the export loses it, and is
   forgotten exactly when the journal's write also reported success: otherwise the pending set still has the id.
   */
  lemma ExportForgotten(sha256: Sha256, s: State, req: Request, now: nat, f: Faults)
    requires Sound(s, {})
    ensures var t := Export(sha256, s, req, now, f).state;
            && (Escaped(t.disk, req.id) <==> Loses(sha256, s, req, now, f))
            && (Forgotten(t, req.id) <==> Loses(sha256, s, req, now, f) && f.finish == Written)
            && (Loses(sha256, s, req, now, f) ==> (req.id in t.pending <==> f.finish == AfterRename) && ValidJournal(t.disk.journal))
  {
    assert s.pending + {} == s.pending && s.disk.journal + {} == s.disk.journal;
    ExportCovers(sha256, s, req, now, f);
    ExportConsumes(sha256, s, req, now, f);
    ExportSafe(sha256, s, req, now, f, {});
    if Loses(sha256, s, req, now, f) {
      var rest := s.(targets := s.targets - {req.id});
      BeginExactly(rest, req.id, f.begin);
      var begun := BeginPending(rest, req.id, f.begin);
      AfterBeginEnds(begun, req, s.targets[req.id].displayName, f);
      BeginSafe(rest, req.id, f.begin, {});
      AfterBeginPending(begun, req, s.targets[req.id].displayName, f);
    }
  }

  lemma AdmissionRemoves(s: State, a: Selection, id: Id)
    requires id in s.pending && Checked(s.disk.files, a).Ok? && !a.unlinkFails(id)
    ensures Temp(id) !in Admit(s, a).state.disk.files
  {
    CleanedFiles(s, a.unlinkFails, a.how);
  }

  lemma RestartForgets(d: Disk, id: Id)
    requires Escaped(d, id) && ValidJournal(d.journal)
    ensures Reopened(d).Ok? && Forgotten(Reopened(d).value, id)
  {
  }

  /** A lost file whose id is still pending is removed by the next admission that can, but not when a restart comes first. */
  lemma RemovedUnlessRestarted(sha256: Sha256, s: State, req: Request, now: nat, f: Faults, a: Selection)
    requires Sound(s, {}) && Loses(sha256, s, req, now, f) && f.finish == AfterRename
    requires Checked(Export(sha256, s, req, now, f).state.disk.files, a).Ok? && !a.unlinkFails(req.id)
    ensures var t := Export(sha256, s, req, now, f).state;
            Temp(req.id) !in Admit(t, a).state.disk.files && Reopened(t.disk).Ok? && Forgotten(Reopened(t.disk).value, req.id)
  {
    ExportForgotten(sha256, s, req, now, f);
    AdmissionRemoves(Export(sha256, s, req, now, f).state, a, req.id);
    RestartForgets(Export(sha256, s, req, now, f).state.disk, req.id);
  }

  ghost predicate AllEscaped(disks: seq<Disk>, id: Id) { forall k :: 0 <= k < |disks| ==> Escaped(disks[k], id) }

  ghost predicate StepForgets(t: Step, id: Id) { Forgotten(t.state, id) && AllEscaped(t.passed, id) }

  lemma KeepPendingForgets(s: State, next: set<Id>, how: JournalWrite, id: Id)
    requires Forgotten(s, id) && id !in next
    ensures StepForgets(KeepPending(s, next, how), id)
  {
  }

  lemma AllowedEscapes(j: Job, d: Disk, id: Id)
    requires ValidName(j.destination) && id != j.id && j.Allows(d) && Escaped(j.before, id)
    ensures Escaped(d, id)
  {
    NameIsNotTemp(j.destination, id);
    if Temp(id) == Temp(j.id) {
      TempInjective(id, j.id);
    }
  }

  lemma AfterBeginForgets(begun: Step, req: Request, destination: string, f: Faults, id: Id)
    requires ValidName(destination) && id != req.id && StepForgets(begun, id)
    ensures StepForgets(AfterBegin(begun, req, destination, f), id)
  {
    var j := Job(begun.state.disk, req.id, destination, req.bytes, f);
    CreatedAllowed(j);
    forall k | 0 <= k < |j.Passed()| ensures Escaped(j.Passed()[k], id) {
      assert j.Allows(j.Passed()[k]);
      AllowedEscapes(j, j.Passed()[k], id);
    }
    var mid := begun.state.(disk := End(j.before, j.Passed()));
    assert Forgotten(mid, id);
    KeepPendingForgets(mid, mid.pending - {req.id}, f.finish, id);
  }

  lemma ExportForgets(sha256: Sha256, s: State, req: Request, now: nat, f: Faults, id: Id)
    requires Forgotten(s, id) && forall t :: t in s.targets ==> ValidName(s.targets[t].displayName)
    ensures StepForgets(Export(sha256, s, req, now, f), id)
  {
    if req.id in s.targets {
      var rest := s.(targets := s.targets - {req.id});
      KeepPendingForgets(rest, rest.pending + {req.id}, f.begin, id);
      var begun := BeginPending(rest, req.id, f.begin);
      AfterBeginForgets(begun, req, s.targets[req.id].displayName, f, id);
    }
  }

  lemma ThinnedEscapes(d: Disk, e: Disk, ids: seq<Id>, unlinkFails: Id -> bool, id: Id)
    requires Thinned(d, e, ids, unlinkFails) && Escaped(d, id) && id !in ids
    ensures Escaped(e, id)
  {
    if Temp(id) !in e.files {
      var other :| other in ids && Temp(id) == Temp(other);
      TempInjective(id, other);
      assert false;
    }
  }

  lemma CleanupForgets(s: State, unlinkFails: Id -> bool, how: JournalWrite, id: Id)
    requires Forgotten(s, id)
    ensures StepForgets(Cleanup(s, unlinkFails, how), id)
  {
    var order := InOrder(s.pending);
    var removed := RemovedAll(s.disk, order, unlinkFails);
    RemovedThins(s.disk, order, unlinkFails);
    forall k | 0 <= k < |removed| ensures Escaped(removed[k], id) {
      ThinnedEscapes(s.disk, removed[k], order, unlinkFails, id);
    }
    var cleaned := s.(disk := End(s.disk, removed));
    ThinnedEscapes(s.disk, cleaned.disk, order, unlinkFails, id);
    KeepPendingForgets(cleaned, StuckOf(s, unlinkFails), how, id);
  }

  lemma AddTargetForgets(cleaned: Step, a: Selection, id: Id)
    requires StepForgets(cleaned, id) && a.id != id
    ensures StepForgets(AddTarget(cleaned, a), id)
  {
  }
}
