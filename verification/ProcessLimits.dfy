/**
 What the process protocol admits, said byte by byte and limit by limit, without the validators.
 Source: Sources/GariveProcessProtocol/ProcessDigest.swift.
 */
module ProcessLimits {
  import opened Common
  import opened DigestEncoding
  import Lexicographic
  import Preimages
  import opened ProcessDigest
  import Sequences
  import Splitting

  // ---- Identities ----

  /** Printable ASCII of bounded length that neither starts nor ends with a space. */
  ghost predicate Printable(bytes: Bytes, most: nat)
  {
    && bytes != [] && |bytes| <= most && (forall b :: b in bytes ==> 32 <= b as int <= 126)
    && bytes[0] as int != 32 && bytes[|bytes| - 1] as int != 32
  }

  lemma PrintableIsPlain(bytes: Bytes, most: nat)
    ensures Printable(bytes, most) <==> PlainBytes(bytes, most)
  {
    assert forall k :: 0 <= k < |bytes| ==> bytes[k] in bytes;
  }

  /** An identity names this revision and three printable texts, has two digests, and either no workload digest yet or a whole one. */
  lemma IdentityExactly(id: Identity)
    ensures ValidIdentity(id) <==>
            && Utf8(id.protocolRevision) == Preimages.Ascii("guest-v1.0")
            && Printable(Utf8(id.invocationId), 256) && Printable(Utf8(id.dispatchAttemptId), 256) && Printable(Utf8(id.executorRevision), 256)
            && |id.preparedDigest| == 32 && |id.vmConfigurationDigest| == 32 && |id.workloadDigest| in {0, 32}
  {
    PrintableIsPlain(Utf8(id.invocationId), 256);
    PrintableIsPlain(Utf8(id.dispatchAttemptId), 256);
    PrintableIsPlain(Utf8(id.executorRevision), 256);
  }

  // ---- Paths ----

  const FORBIDDEN: set<Text> := {[], [[46]], [[46], [46]]}

  /** No part of the path between slashes is empty, a dot or two dots. */
  ghost predicate Walkable(path: Text)
  {
    forall i: nat, part: Text :: Splitting.Segment(path, [47], i, part) ==> part !in FORBIDDEN
  }

  ghost predicate PartsAreComponents(path: Text)
  {
    forall part :: part in Splitting.Split(path, SLASH) ==> Component(part)
  }

  lemma WalkableIsComponents(path: Text)
    ensures Walkable(path) <==> PartsAreComponents(path)
  {
    if Walkable(path) {
      forall part | part in Splitting.Split(path, SLASH) ensures Component(part) {
        Splitting.SplitIsSegments(path, SLASH, part);
      }
    }
    if PartsAreComponents(path) {
      forall i: nat, part: Text | Splitting.Segment(path, [47], i, part) ensures part !in FORBIDDEN {
        Splitting.SplitIsSegments(path, SLASH, part);
        assert Component(part);
      }
    }
  }

  lemma {:induction false} PartsHold(parts: seq<Text>, c: Character)
    requires parts != [] && c != SLASH
    ensures c in Splitting.Join(parts, SLASH) <==> exists k :: 0 <= k < |parts| && c in parts[k]
    decreases |parts|
  {
    if |parts| == 1 {
    } else {
      PartsHold(parts[1..], c);
      if c in Splitting.Join(parts[1..], SLASH) {
        var k :| 0 <= k < |parts[1..]| && c in parts[1..][k];
        assert c in parts[k + 1];
      }
      if k :| 0 <= k < |parts| && c in parts[k] {
        assert k > 0 ==> c in parts[1..][k - 1];
      }
    }
  }

  /** An executable's path is absolute, longer than the root, without NUL and walkable. */
  lemma ExecutableExactly(path: Text)
    ensures ValidExecutable(path) <==>
            2 <= |Utf8(path)| <= 4_096 && path != [] && path[0] == [47] && NUL !in path[1..] && Walkable(path[1..])
  {
    if path != [] {
      var parts := Splitting.Split(path[1..], SLASH);
      WalkableIsComponents(path[1..]);
      PartsHold(parts, NUL);
      assert (forall c :: c in parts ==> NUL !in c) <==> NUL !in path[1..];
      assert (forall c :: c in parts ==> Component(c) && NUL !in c) <==> PartsAreComponents(path[1..]) && NUL !in path[1..];
    }
  }

  /** A working directory is a dot, or a relative walkable path; without NUL either way. */
  lemma DirectoryExactly(path: Text)
    ensures ValidDirectory(path) <==>
            && 1 <= |Utf8(path)| <= 4_096 && [0] !in path
            && (path == [[46]] || (path != [] && path[0] != [47] && Walkable(path)))
  {
    WalkableIsComponents(path);
  }

  // ---- Arguments and environment ----

  /** A C identifier of at most 128 bytes. */
  ghost predicate Identifier(key: Bytes)
  {
    && 1 <= |key| <= 128 && !(48 <= key[0] as int <= 57)
    && forall b :: b in key ==> b as int == 95 || 48 <= b as int <= 57 || 65 <= b as int <= 90 || 97 <= b as int <= 122
  }

  lemma IdentifierIsKey(key: Bytes)
    ensures Identifier(key) <==> ValidKey(key)
  {
    assert forall k :: 0 <= k < |key| ==> key[k] in key;
  }

  /** One line of at most 16 KiB without NUL. */
  ghost predicate OneLine(value: Bytes) { |value| <= 16_384 && forall k :: 0 <= k < |value| ==> value[k] as int !in {0, 10, 13} }

  lemma OneLineIsValue(value: Bytes)
    ensures OneLine(value) <==> |value| <= MAX_VALUE_BYTES && forall b :: b in value ==> b != 0 && b != 10 && b != 13
  {
    assert forall k :: 0 <= k < |value| ==> value[k] in value;
  }

  function EntryText(e: Entry): (bytes: Bytes) { Utf8(e.key) + Utf8(e.value) }

  lemma {:induction false} ArgumentsTogether(argv: seq<Text>)
    ensures ArgumentBytes(argv) == |Sequences.Collect(Utf8, argv)|
    decreases |argv|
  {
    if argv == [] {
    } else {
      ArgumentsTogether(argv[..|argv| - 1]);
    }
  }

  lemma {:induction false} EntriesTogether(entries: seq<Entry>)
    ensures EntryBytes(entries) == |Sequences.Collect(EntryText, entries)|
    decreases |entries|
  {
    if entries == [] {
    } else {
      EntriesTogether(entries[..|entries| - 1]);
    }
  }

  ghost predicate Argument(argument: Text) { 1 <= |Utf8(argument)| <= 16_384 && [0] !in argument }

  ghost predicate Binding(e: Entry) { Identifier(Utf8(e.key)) && OneLine(Utf8(e.value)) }

  ghost predicate Arguments(argv: seq<Text>)
  {
    && 1 <= |argv| <= 256 && |Sequences.Collect(Utf8, argv)| <= 262_144
    && forall k :: 0 <= k < |argv| ==> Argument(argv[k])
  }

  /** At most 128 bindings, every key before all later ones. */
  ghost predicate Environment(entries: seq<Entry>)
  {
    && |entries| <= 128 && |Sequences.Collect(EntryText, entries)| <= 262_144
    && (forall k :: 0 <= k < |entries| ==> Binding(entries[k]))
    && forall j, k :: 0 <= j < k < |entries| ==> Lexicographic.Precedes(Utf8(entries[j].key), Utf8(entries[k].key))
  }

  lemma BindingIsValid(e: Entry)
    ensures Binding(e) <==> ValidEntry(e)
  {
    IdentifierIsKey(Utf8(e.key));
    OneLineIsValue(Utf8(e.value));
  }

  lemma ArgumentsAreValid(argv: seq<Text>)
    ensures Arguments(argv) <==>
            && 1 <= |argv| <= MAX_ARGUMENTS && ArgumentBytes(argv) <= MAX_ARGUMENTS_TOTAL
            && forall k :: 0 <= k < |argv| ==> ValidArgument(argv[k])
  {
    ArgumentsTogether(argv);
    assert forall k :: 0 <= k < |argv| ==> (Argument(argv[k]) <==> ValidArgument(argv[k]));
  }

  lemma EnvironmentIsValid(entries: seq<Entry>)
    ensures Environment(entries) <==>
            && |entries| <= MAX_ENTRIES && EntryBytes(entries) <= MAX_ENVIRONMENT_TOTAL && KeysAscend(entries)
            && forall k :: 0 <= k < |entries| ==> ValidEntry(entries[k])
  {
    EntriesTogether(entries);
    forall k | 0 <= k < |entries| ensures Binding(entries[k]) <==> ValidEntry(entries[k]) {
      BindingIsValid(entries[k]);
    }
    if KeysAscend(entries) {
      forall j, k | 0 <= j < k < |entries| ensures Lexicographic.Precedes(Utf8(entries[j].key), Utf8(entries[k].key)) {
        LaterKeysFollow(entries, j, k);
      }
    }
  }

  // ---- Workloads and receipts ----

  /** A workload is admitted exactly within these limits. */
  lemma WorkloadExactly(w: Workload)
    ensures ValidWorkload(w) <==>
            && w.mode in {ReadOnly, ReadWrite} && Printable(Utf8(w.lane), 128) && ValidExecutable(w.executable)
            && ValidDirectory(w.workingDirectory) && Arguments(w.argv) && Environment(w.environment)
            && 1 <= w.maxOutputBytes <= 1_048_576 && 1 <= w.timeoutMilliseconds <= 300_000 && 1 <= w.maxProcesses && 1 <= w.maxOpenFiles
  {
    PrintableIsPlain(Utf8(w.lane), 128);
    ArgumentsAreValid(w.argv);
    EnvironmentIsValid(w.environment);
  }

  /** A receipt is admitted exactly for a bound identity whose process tree ended in one of three ways, with bounded output. */
  lemma ReceiptExactly(r: Receipt)
    ensures ValidReceipt(r) <==>
            && r.identity.Some? && ValidIdentity(r.identity.value) && r.identity.value.workloadDigest != []
            && r.processTreeTerminated && |r.stdout| + |r.stderr| <= 1_048_576
            && exists c :: r.exit == Some(Exit(Some(c))) && c != TimedOut(false) && (c.Signal? ==> 1 <= c.signal)
  {
    if ValidReceipt(r) {
      assert r.exit == Some(Exit(Some(r.exit.value.classification.value)));
    }
  }
}
