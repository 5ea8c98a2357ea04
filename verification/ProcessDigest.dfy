/**
 Validation and canonical digest preimages of process identities, workloads and receipts.
 Source: Sources/GariveProcessProtocol/ProcessDigest.swift. SHA-256 is a parameter.
 */
module ProcessDigest {
  import opened Common
  import opened DigestEncoding
  import Lexicographic
  import opened Preimages
  import Splitting

  /** A Swift character, as the UTF-8 bytes of one grapheme cluster; a string is a sequence of them. */
  type Character = Bytes
  type Text = seq<Character>

  const SLASH: Character := [47]
  const DOT: Character := [46]
  const NUL: Character := [0]

  const MAX_ARGUMENTS := 256
  const MAX_ARGUMENT_BYTES := 16_384
  const MAX_ARGUMENTS_TOTAL := 262_144
  const MAX_ENTRIES := 128
  const MAX_VALUE_BYTES := 16_384
  const MAX_ENVIRONMENT_TOTAL := 262_144
  const MAX_OUTPUT := 1_048_576
  const INT_MAX: nat := 0x7FFF_FFFF_FFFF_FFFF

  function Utf8(t: Text): (bytes: Bytes) { Concat(t) }

  const PROTOCOL_REVISION := "guest-v1.0"

  datatype Failure = InvalidIdentity | InvalidWorkload | InvalidReceipt

  datatype Identity = Identity(protocolRevision: Text, invocationId: Text, dispatchAttemptId: Text, executorRevision: Text,
                               preparedDigest: Bytes, vmConfigurationDigest: Bytes, workloadDigest: Bytes)

  datatype WorkspaceMode = Unspecified | ReadOnly | ReadWrite | Unrecognized(raw: int)

  datatype Entry = Entry(key: Text, value: Text)

  datatype Workload = Workload(lane: Text, executable: Text, argv: seq<Text>, workingDirectory: Text, mode: WorkspaceMode,
                               environment: seq<Entry>, maxOutputBytes: u64, timeoutMilliseconds: u64, maxProcesses: u64, maxOpenFiles: u64)

  datatype Classification = Code(code: i32) | Signal(signal: i32) | TimedOut(confirmed: bool)

  datatype Exit = Exit(classification: Option<Classification>)

  datatype Receipt = Receipt(identity: Option<Identity>, exit: Option<Exit>, stdout: Bytes, stderr: Bytes, truncated: bool,
                             processTreeTerminated: bool, receiptDigest: Bytes)

  // ---- Validity ----

  predicate PlainBytes(bytes: Bytes, maximum: nat)
  {
    && 1 <= |bytes| <= maximum
    && (forall k :: 0 <= k < |bytes| ==> 0x20 <= bytes[k] <= 0x7e)
    && bytes[0] != 0x20 && bytes[|bytes| - 1] != 0x20
  }

  predicate ValidIdentity(id: Identity)
  {
    && Utf8(id.protocolRevision) == Ascii(PROTOCOL_REVISION)
    && PlainBytes(Utf8(id.invocationId), 256)
    && PlainBytes(Utf8(id.dispatchAttemptId), 256)
    && PlainBytes(Utf8(id.executorRevision), 256)
    && |id.preparedDigest| == 32
    && |id.vmConfigurationDigest| == 32
    && (id.workloadDigest == [] || |id.workloadDigest| == 32)
  }

  predicate Component(c: Text) { c != [] && c != [DOT] && c != [DOT, DOT] }

  predicate ValidExecutable(path: Text)
  {
    && 1 < |Utf8(path)| <= 4_096 && path != [] && path[0] == SLASH
    && forall c :: c in Splitting.Split(path[1..], SLASH) ==> Component(c) && NUL !in c
  }

  predicate ValidDirectory(path: Text)
  {
    && 1 <= |Utf8(path)| <= 4_096 && NUL !in path
    && (path == [DOT] || (path != [] && path[0] != SLASH && forall c :: c in Splitting.Split(path, SLASH) ==> Component(c)))
  }

  predicate Letter(b: byte) { 97 <= b <= 122 || 65 <= b <= 90 }

  predicate ValidKey(key: Bytes)
  {
    && 1 <= |key| <= 128
    && (key[0] == 95 || Letter(key[0]))
    && forall k :: 1 <= k < |key| ==> key[k] == 95 || Letter(key[k]) || 48 <= key[k] <= 57
  }

  predicate ValidArgument(argument: Text)
  {
    1 <= |Utf8(argument)| <= MAX_ARGUMENT_BYTES && NUL !in argument
  }

  predicate ValidEntry(entry: Entry)
  {
    && ValidKey(Utf8(entry.key))
    && |Utf8(entry.value)| <= MAX_VALUE_BYTES
    && forall b :: b in Utf8(entry.value) ==> b != 0 && b != 10 && b != 13
  }

  function ArgumentBytes(argv: seq<Text>): (n: nat)
  {
    if argv == [] then 0 else ArgumentBytes(argv[..|argv| - 1]) + |Utf8(argv[|argv| - 1])|
  }

  function EntryBytes(entries: seq<Entry>): (n: nat)
  {
    if entries == [] then 0
    else EntryBytes(entries[..|entries| - 1]) + |Utf8(entries[|entries| - 1].key)| + |Utf8(entries[|entries| - 1].value)|
  }

  predicate KeysAscend(entries: seq<Entry>)
  {
    forall k :: 0 < k < |entries| ==> Lexicographic.Precedes(Utf8(entries[k - 1].key), Utf8(entries[k].key))
  }

  predicate ValidWorkload(w: Workload)
  {
    && (w.mode.ReadOnly? || w.mode.ReadWrite?)
    && PlainBytes(Utf8(w.lane), 128)
    && ValidExecutable(w.executable)
    && ValidDirectory(w.workingDirectory)
    && 1 <= |w.argv| <= MAX_ARGUMENTS
    && (forall k :: 0 <= k < |w.argv| ==> ValidArgument(w.argv[k]))
    && ArgumentBytes(w.argv) <= MAX_ARGUMENTS_TOTAL
    && |w.environment| <= MAX_ENTRIES
    && (forall k :: 0 <= k < |w.environment| ==> ValidEntry(w.environment[k]))
    && KeysAscend(w.environment)
    && EntryBytes(w.environment) <= MAX_ENVIRONMENT_TOTAL
    && 1 <= w.maxOutputBytes <= MAX_OUTPUT
    && 1 <= w.timeoutMilliseconds <= 300_000
    && w.maxProcesses > 0 && w.maxOpenFiles > 0
  }

  lemma {:induction false} ArgumentBytesGrow(argv: seq<Text>, k: nat)
    requires k < |argv|
    ensures ArgumentBytes(argv[..k + 1]) == ArgumentBytes(argv[..k]) + |Utf8(argv[k])|
    ensures ArgumentBytes(argv[..k + 1]) <= ArgumentBytes(argv)
    decreases |argv| - k
  {
    assert argv[..k + 1][..k] == argv[..k];
    if k + 1 == |argv| {
      assert argv[..k + 1] == argv;
    } else {
      ArgumentBytesGrow(argv, k + 1);
    }
  }

  lemma {:induction false} EntryBytesGrow(entries: seq<Entry>, k: nat)
    requires k < |entries|
    ensures EntryBytes(entries[..k + 1]) == EntryBytes(entries[..k]) + |Utf8(entries[k].key)| + |Utf8(entries[k].value)|
    ensures EntryBytes(entries[..k + 1]) <= EntryBytes(entries)
    decreases |entries| - k
  {
    assert entries[..k + 1][..k] == entries[..k];
    if k + 1 == |entries| {
      assert entries[..k + 1] == entries;
    } else {
      EntryBytesGrow(entries, k + 1);
    }
  }

  /** The argument loop: every argument valid and the running total kept without overflow. */
  method SumArguments(argv: seq<Text>) returns (total: Option<nat>)
    ensures total.Some? ==> total.value == ArgumentBytes(argv) && forall k :: 0 <= k < |argv| ==> ValidArgument(argv[k])
    ensures total.None? ==> ArgumentBytes(argv) > INT_MAX || exists k :: 0 <= k < |argv| && !ValidArgument(argv[k])
  {
    var sum := 0;
    for k := 0 to |argv|
      invariant sum == ArgumentBytes(argv[..k])
      invariant forall j :: 0 <= j < k ==> ValidArgument(argv[j])
    {
      ArgumentBytesGrow(argv, k);
      var next := sum + |Utf8(argv[k])|;
      if !ValidArgument(argv[k]) || next > INT_MAX {
        return None;
      }
      sum := next;
    }
    assert argv[..|argv|] == argv;
    return Some(sum);
  }

  /** The environment loop: keys strictly ascending, every entry valid, running total kept without overflow. */
  method SumEntries(entries: seq<Entry>) returns (total: Option<nat>)
    ensures total.Some? ==> total.value == EntryBytes(entries) && KeysAscend(entries)
                            && forall k :: 0 <= k < |entries| ==> ValidEntry(entries[k])
    ensures total.None? ==> EntryBytes(entries) > INT_MAX || !KeysAscend(entries)
                            || exists k :: 0 <= k < |entries| && !ValidEntry(entries[k])
  {
    var sum := 0;
    var priorKey: Option<Bytes> := None;
    for k := 0 to |entries|
      invariant sum == EntryBytes(entries[..k])
      invariant priorKey == if k == 0 then None else Some(Utf8(entries[k - 1].key))
      invariant forall j :: 0 <= j < k ==> ValidEntry(entries[j])
      invariant forall j :: 0 < j < k ==> Lexicographic.Precedes(Utf8(entries[j - 1].key), Utf8(entries[j].key))
    {
      EntryBytesGrow(entries, k);
      var key := Utf8(entries[k].key);
      if (priorKey.Some? && !Lexicographic.Precedes(priorKey.value, key)) || !ValidEntry(entries[k]) {
        return None;
      }
      priorKey := Some(key);
      var next := sum + |key| + |Utf8(entries[k].value)|;
      if next > INT_MAX {
        return None;
      }
      sum := next;
    }
    assert entries[..|entries|] == entries;
    return Some(sum);
  }

  /** The digest byte of a workspace mode. */
  function ModeByte(mode: WorkspaceMode): (b: byte)
    requires mode.ReadOnly? || mode.ReadWrite?
  {
    if mode.ReadOnly? then 1 else 2
  }

  method Validate(w: Workload) returns (mode: Option<byte>)
    ensures mode.Some? <==> ValidWorkload(w)
    ensures mode.Some? ==> mode.value == ModeByte(w.mode)
  {
    if !w.mode.ReadOnly? && !w.mode.ReadWrite? {
      return None;
    }
    var arguments := SumArguments(w.argv);
    if arguments.None? {
      return None;
    }
    var entries := SumEntries(w.environment);
    if entries.None? {
      return None;
    }
    if && PlainBytes(Utf8(w.lane), 128) && ValidExecutable(w.executable) && ValidDirectory(w.workingDirectory)
       && w.argv != [] && |w.argv| <= MAX_ARGUMENTS && arguments.value <= MAX_ARGUMENTS_TOTAL
       && |w.environment| <= MAX_ENTRIES && entries.value <= MAX_ENVIRONMENT_TOTAL
       && 1 <= w.maxOutputBytes <= MAX_OUTPUT && 1 <= w.timeoutMilliseconds <= 300_000
       && w.maxProcesses > 0 && w.maxOpenFiles > 0
    {
      return Some(ModeByte(w.mode));
    }
    return None;
  }

  // ---- Ascending keys are distinct ----

  lemma {:induction false} LaterKeysFollow(entries: seq<Entry>, j: nat, k: nat)
    requires KeysAscend(entries) && j < k < |entries|
    ensures Lexicographic.Precedes(Utf8(entries[j].key), Utf8(entries[k].key))
    decreases k
  {
    if j + 1 == k {
    } else {
      LaterKeysFollow(entries, j, k - 1);
      Lexicographic.PrecedesTransitive(Utf8(entries[j].key), Utf8(entries[k - 1].key), Utf8(entries[k].key));
    }
  }

  /** A valid environment binds no key twice. */
  lemma KeysDistinct(w: Workload, j: nat, k: nat)
    requires ValidWorkload(w) && j < k < |w.environment|
    ensures Utf8(w.environment[j].key) != Utf8(w.environment[k].key)
  {
    LaterKeysFollow(w.environment, j, k);
    Lexicographic.PrecedesIrreflexive(Utf8(w.environment[j].key));
  }

  // ---- The digest operations ----

  /** The fields a workload digest binds. */
  function BoundFields(id: Identity, w: Workload): (f: WorkloadFields)
    requires ValidIdentity(id) && ValidWorkload(w)
  {
    WorkloadFields(
      Utf8(id.protocolRevision), Utf8(id.invocationId), Utf8(id.dispatchAttemptId), Utf8(id.executorRevision),
      id.preparedDigest, id.vmConfigurationDigest, Utf8(w.lane), Utf8(w.executable),
      ArgumentFields(w.argv), Utf8(w.workingDirectory), ModeByte(w.mode), EntryFields(w.environment),
      w.maxOutputBytes, w.timeoutMilliseconds, w.maxProcesses, w.maxOpenFiles)
  }

  function ArgumentFields(argv: seq<Text>): (r: seq<Short>)
    requires forall k :: 0 <= k < |argv| ==> ValidArgument(argv[k])
    ensures |r| == |argv| && forall k :: 0 <= k < |argv| ==> r[k] == Utf8(argv[k])
  {
    assert forall k :: 0 <= k < |argv| ==> ValidArgument(argv[k]);
    seq(|argv|, k requires 0 <= k < |argv| && ValidArgument(argv[k]) => Utf8(argv[k]))
  }

  function EntryFields(entries: seq<Entry>): (r: seq<(Short, Short)>)
    requires forall k :: 0 <= k < |entries| ==> ValidEntry(entries[k])
    ensures |r| == |entries| && forall k :: 0 <= k < |entries| ==> r[k] == (Utf8(entries[k].key), Utf8(entries[k].value))
  {
    assert forall k :: 0 <= k < |entries| ==> ValidEntry(entries[k]);
    seq(|entries|, k requires 0 <= k < |entries| && ValidEntry(entries[k]) => (Utf8(entries[k].key), Utf8(entries[k].value)))
  }

  /** The digest binds each field of identity and workload under its own place. */
  lemma FieldsBound(id: Identity, w: Workload)
    requires ValidIdentity(id) && ValidWorkload(w)
    ensures var f := BoundFields(id, w);
            && f.protocolRevision == Utf8(id.protocolRevision) && f.invocationId == Utf8(id.invocationId)
            && f.dispatchAttemptId == Utf8(id.dispatchAttemptId) && f.executorRevision == Utf8(id.executorRevision)
            && f.preparedDigest == id.preparedDigest && f.vmConfigurationDigest == id.vmConfigurationDigest
            && f.lane == Utf8(w.lane) && f.executable == Utf8(w.executable) && f.workingDirectory == Utf8(w.workingDirectory)
            && f.mode == (if w.mode == ReadWrite then 2 else 1) && |f.argv| == |w.argv| && |f.environment| == |w.environment|
            && (forall k :: 0 <= k < |w.argv| ==> f.argv[k] == Utf8(w.argv[k]))
            && (forall k :: 0 <= k < |w.environment| ==>
                              f.environment[k].0 == Utf8(w.environment[k].key) && f.environment[k].1 == Utf8(w.environment[k].value))
            && f.maxOutputBytes == w.maxOutputBytes && f.timeoutMilliseconds == w.timeoutMilliseconds
            && f.maxProcesses == w.maxProcesses && f.maxOpenFiles == w.maxOpenFiles
  {
  }

  /** Exits the digest admits: any code, a positive signal, or a confirmed timeout. */
  predicate ValidExit(c: Classification)
  {
    match c
    case Code(_) => true
    case Signal(value) => value > 0
    case TimedOut(confirmed) => confirmed
  }

  predicate ValidReceipt(r: Receipt)
  {
    && r.identity.Some? && ValidIdentity(r.identity.value) && |r.identity.value.workloadDigest| == 32
    && r.processTreeTerminated
    && |r.stderr| <= MAX_OUTPUT && |r.stdout| <= MAX_OUTPUT - |r.stderr|
    && r.exit.Some? && r.exit.value.classification.Some? && ValidExit(r.exit.value.classification.value)
  }

  /** The fields a receipt digest binds. */
  function ExitOf(c: Classification): (e: BoundExit)
  {
    match c
    case Code(value) => BoundCode(value)
    case Signal(value) => BoundSignal(value)
    case TimedOut(_) => BoundTimeout
  }

  function BoundReceipt(r: Receipt): (f: ReceiptFields)
    requires ValidReceipt(r)
  {
    ReceiptFields(r.identity.value.workloadDigest, ExitOf(r.exit.value.classification.value), r.stdout, r.stderr, r.truncated)
  }

  type Sha256 = Bytes -> Bytes

  method WorkloadDigest(sha256: Sha256, id: Identity, w: Workload) returns (r: Result<Bytes, Failure>)
    ensures !ValidIdentity(id) ==> r == Err(InvalidIdentity)
    ensures ValidIdentity(id) && !ValidWorkload(w) ==> r == Err(InvalidWorkload)
    ensures ValidIdentity(id) && ValidWorkload(w) ==>
              var digest := sha256(WorkloadPreimage(BoundFields(id, w)));
              r == if id.workloadDigest == [] || id.workloadDigest == digest then Ok(digest) else Err(InvalidIdentity)
  {
    if !ValidIdentity(id) {
      return Err(InvalidIdentity);
    }
    var mode := Validate(w);
    if mode.None? {
      return Err(InvalidWorkload);
    }
    var digest := HashWorkload(sha256, BoundFields(id, w));
    return if id.workloadDigest == [] || id.workloadDigest == digest then Ok(digest) else Err(InvalidIdentity);
  }

  /** What `ReceiptDigest` returns. */
  function ReceiptDigestOf(sha256: Sha256, r: Receipt): (d: Result<Bytes, Failure>)
  {
    if !ValidReceipt(r) then Err(InvalidReceipt)
    else
      var digest := sha256(ReceiptPreimage(BoundReceipt(r)));
      if r.receiptDigest == [] || r.receiptDigest == digest then Ok(digest) else Err(InvalidReceipt)
  }

  method ReceiptDigest(sha256: Sha256, r: Receipt) returns (d: Result<Bytes, Failure>)
    ensures d == ReceiptDigestOf(sha256, r)
  {
    if !ValidReceipt(r) {
      return Err(InvalidReceipt);
    }
    var digest := HashReceipt(sha256, BoundReceipt(r));
    return if r.receiptDigest == [] || r.receiptDigest == digest then Ok(digest) else Err(InvalidReceipt);
  }

  predicate Collides(sha256: Sha256, x: Bytes, y: Bytes) { x != y && sha256(x) == sha256(y) }

  /** Workload digests are equal exactly when every bound field agrees or the two preimages themselves collide. */
  lemma DigestBindsWorkload(sha256: Sha256, i: Identity, v: Workload, j: Identity, w: Workload)
    requires ValidIdentity(i) && ValidWorkload(v) && ValidIdentity(j) && ValidWorkload(w)
    ensures var x, y := WorkloadPreimage(BoundFields(i, v)), WorkloadPreimage(BoundFields(j, w));
            sha256(x) == sha256(y) <==> BoundFields(i, v) == BoundFields(j, w) || Collides(sha256, x, y)
  {
    if WorkloadPreimage(BoundFields(i, v)) == WorkloadPreimage(BoundFields(j, w)) {
      WorkloadPreimageInjective(BoundFields(i, v), BoundFields(j, w));
    }
  }

  /** Receipt digests are equal exactly when every bound field agrees or the two preimages themselves collide. */
  lemma DigestBindsReceipt(sha256: Sha256, r: Receipt, s: Receipt)
    requires ValidReceipt(r) && ValidReceipt(s)
    ensures var x, y := ReceiptPreimage(BoundReceipt(r)), ReceiptPreimage(BoundReceipt(s));
            sha256(x) == sha256(y) <==> BoundReceipt(r) == BoundReceipt(s) || Collides(sha256, x, y)
  {
    if ReceiptPreimage(BoundReceipt(r)) == ReceiptPreimage(BoundReceipt(s)) {
      ReceiptPreimageInjective(BoundReceipt(r), BoundReceipt(s));
    }
  }

  /** A receipt without a digest gets its own; with one it is accepted exactly when that is its own. */
  lemma SealedReceipt(sha256: Sha256, r: Receipt, digest: Bytes)
    requires ValidReceipt(r) && r.receiptDigest == [] && digest != []
    ensures var own := sha256(ReceiptPreimage(BoundReceipt(r)));
            && ReceiptDigestOf(sha256, r) == Ok(own)
            && ReceiptDigestOf(sha256, r.(receiptDigest := digest)) == if digest == own then Ok(own) else Err(InvalidReceipt)
  {
    assert BoundReceipt(r.(receiptDigest := digest)) == BoundReceipt(r);
  }

  /** Changing any bound field of a sealed receipt makes it refused, unless the two preimages collide. */
  lemma TamperedReceipt(sha256: Sha256, r: Receipt, s: Receipt)
    requires ValidReceipt(r) && ReceiptDigestOf(sha256, r) == Ok(r.receiptDigest) && r.receiptDigest != []
    requires ValidReceipt(s) && s.receiptDigest == r.receiptDigest
    requires !Collides(sha256, ReceiptPreimage(BoundReceipt(r)), ReceiptPreimage(BoundReceipt(s)))
    ensures ReceiptDigestOf(sha256, s) == if BoundReceipt(s) == BoundReceipt(r) then Ok(r.receiptDigest) else Err(InvalidReceipt)
  {
    DigestBindsReceipt(sha256, r, s);
  }
}
