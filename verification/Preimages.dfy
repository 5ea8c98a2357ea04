/**
 Digest preimages of process workloads and receipts, and that they can be read back.
 Source: processWorkloadDigest and processReceiptDigest in Sources/GariveProcessProtocol/ProcessDigest.swift.
 */
module Preimages {
  import opened Common
  import opened DigestEncoding
  import Sequences

  function Ascii(s: string): (bytes: Bytes)
    requires forall k :: 0 <= k < |s| ==> s[k] as int < 128
    ensures |bytes| == |s|
    ensures forall k :: 0 <= k < |s| ==> bytes[k] as int == s[k] as int
  {
    seq(|s|, k requires 0 <= k < |s| => s[k] as int as byte)
  }

  const WORKLOAD_LABEL := "garive.macos-process-workload.v1"
  const RECEIPT_LABEL := "garive.macos-process-receipt.v1"

  datatype WorkloadFields = WorkloadFields(
    protocolRevision: Short, invocationId: Short, dispatchAttemptId: Short, executorRevision: Short,
    preparedDigest: Short, vmConfigurationDigest: Short, lane: Short, executable: Short,
    argv: seq<Short>, workingDirectory: Short, mode: byte, environment: seq<(Short, Short)>,
    maxOutputBytes: u64, timeoutMilliseconds: u64, maxProcesses: u64, maxOpenFiles: u64)
  {
    /** List counts fit their 64-bit prefixes. */
    predicate Fits() { |argv| <= U64_MAX && |environment| <= U64_MAX }
  }

  datatype BoundExit = BoundCode(code: i32) | BoundSignal(signal: i32) | BoundTimeout

  datatype ReceiptFields = ReceiptFields(workloadDigest: Short, exit: BoundExit, stdout: Short, stderr: Short, truncated: bool)

  // ---- Workloads ----

  function HeadPieces(f: WorkloadFields): (ps: seq<Piece>)
    requires f.Fits()
  {
    [Field(f.protocolRevision), Field(f.invocationId), Field(f.dispatchAttemptId), Field(f.executorRevision),
     Field(f.preparedDigest), Field(f.vmConfigurationDigest), Field(f.lane), Field(f.executable), Number(|f.argv|)]
  }

  function ArgumentPieces(argv: seq<Short>): (ps: seq<Piece>)
    ensures |ps| == |argv| && forall k :: 0 <= k < |ps| ==> ps[k] == Field(argv[k])
  {
    seq(|argv|, k requires 0 <= k < |argv| => Field(argv[k]))
  }

  function MiddlePieces(f: WorkloadFields): (ps: seq<Piece>)
    requires f.Fits()
  {
    [Field(f.workingDirectory), Single(f.mode), Number(|f.environment|)]
  }

  function EntryPieces(entries: seq<(Short, Short)>): (ps: seq<Piece>)
    ensures |ps| == 2 * |entries|
    ensures forall k :: 0 <= k < |entries| ==> ps[2 * k] == Field(entries[k].0) && ps[2 * k + 1] == Field(entries[k].1)
    ensures forall k :: 0 <= k < |ps| ==> ps[k].Field?
  {
    if entries == [] then []
    else
      var last := entries[|entries| - 1];
      EntryPieces(entries[..|entries| - 1]) + [Field(last.0), Field(last.1)]
  }

  function LimitPieces(f: WorkloadFields): (ps: seq<Piece>)
  {
    [Number(f.maxOutputBytes), Number(f.timeoutMilliseconds), Number(f.maxProcesses), Number(f.maxOpenFiles)]
  }

  function WorkloadPieces(f: WorkloadFields): (ps: seq<Piece>)
    requires f.Fits()
  {
    HeadPieces(f) + ArgumentPieces(f.argv) + MiddlePieces(f) + EntryPieces(f.environment) + LimitPieces(f)
  }

  function WorkloadPreimage(f: WorkloadFields): (bytes: Bytes)
    requires f.Fits()
  {
    Ascii(WORKLOAD_LABEL) + EncodeAll(WorkloadPieces(f))
  }

  method AppendArguments(input: DigestInput, argv: seq<Short>)
    requires input.Valid()
    modifies input
    ensures input.Valid() && input.written == old(input.written) + ArgumentPieces(argv)
  {
    for k := 0 to |argv|
      invariant input.Valid() && input.written == old(input.written) + ArgumentPieces(argv)[..k]
    {
      input.Append(Field(argv[k]));
    }
  }

  lemma EntryPiecesStep(entries: seq<(Short, Short)>, k: nat)
    requires k < |entries|
    ensures EntryPieces(entries[..k + 1]) == EntryPieces(entries[..k]) + [Field(entries[k].0), Field(entries[k].1)]
  {
    var prefix := entries[..k + 1];
    assert prefix[..|prefix| - 1] == entries[..k] && prefix[|prefix| - 1] == entries[k];
  }

  method AppendEntries(input: DigestInput, entries: seq<(Short, Short)>)
    requires input.Valid()
    modifies input
    ensures input.Valid() && input.written == old(input.written) + EntryPieces(entries)
  {
    for k := 0 to |entries|
      invariant input.Valid() && input.written == old(input.written) + EntryPieces(entries[..k])
    {
      EntryPiecesStep(entries, k);
      input.AppendAll([Field(entries[k].0), Field(entries[k].1)]);
      Sequences.Associate(old(input.written), EntryPieces(entries[..k]), [Field(entries[k].0), Field(entries[k].1)]);
    }
    assert entries[..|entries|] == entries;
  }

  /** The appends of the digest operation, in order. */
  method WriteWorkload(input: DigestInput, f: WorkloadFields)
    requires f.Fits() && input.Valid() && input.written == []
    modifies input
    ensures input.Valid() && input.written == WorkloadPieces(f)
  {
    input.AppendAll(HeadPieces(f));
    AppendArguments(input, f.argv);
    input.AppendAll(MiddlePieces(f));
    AppendEntries(input, f.environment);
    input.AppendAll(LimitPieces(f));
    assert [] + HeadPieces(f) == HeadPieces(f);
  }

  method HashWorkload(sha256: Bytes -> Bytes, f: WorkloadFields) returns (digest: Bytes)
    requires f.Fits()
    ensures digest == sha256(WorkloadPreimage(f))
  {
    var input := new DigestInput(Ascii(WORKLOAD_LABEL));
    WriteWorkload(input, f);
    digest := input.Finish(sha256);
  }

  lemma FiveParts(h: seq<Piece>, a: seq<Piece>, m: seq<Piece>, e: seq<Piece>, l: seq<Piece>)
    ensures EncodeAll(h + a + m + e + l) ==
            EncodeAll(h) + (EncodeAll(a) + (EncodeAll(m) + (EncodeAll(e) + EncodeAll(l))))
  {
    assert h + a + m + e + l == h + (a + (m + (e + l)));
    Sequences.CollectConcat(Encode, e, l);
    Sequences.CollectConcat(Encode, m, e + l);
    Sequences.CollectConcat(Encode, a, m + (e + l));
    Sequences.CollectConcat(Encode, h, a + (m + (e + l)));
  }

  lemma {:induction false} EqualPieces(ps: seq<Piece>, qs: seq<Piece>, x: Bytes, y: Bytes)
    requires SameShapes(SameShape, ps, qs) && EncodeAll(ps) + x == EncodeAll(qs) + y
    ensures ps == qs && x == y
  {
    EncodeReadsBack();
    CollectInjective(Encode, SameShape, ps, qs, x, y);
  }

  /** Five parts can be read back when the first fixes the shape of the second and the third that of the fourth. */
  lemma FivePartsInjective(h: seq<Piece>, a: seq<Piece>, m: seq<Piece>, e: seq<Piece>, l: seq<Piece>,
                           g: seq<Piece>, b: seq<Piece>, n: seq<Piece>, f: seq<Piece>, k: seq<Piece>)
    requires EncodeAll(h + a + m + e + l) == EncodeAll(g + b + n + f + k)
    requires SameShapes(SameShape, h, g) && SameShapes(SameShape, m, n) && SameShapes(SameShape, l, k)
    requires h == g ==> SameShapes(SameShape, a, b)
    requires m == n ==> SameShapes(SameShape, e, f)
    ensures h == g && a == b && m == n && e == f && l == k
  {
    FiveParts(h, a, m, e, l);
    FiveParts(g, b, n, f, k);
    var l1, l2 := EncodeAll(l), EncodeAll(k);
    var e1, e2 := EncodeAll(e) + l1, EncodeAll(f) + l2;
    var m1, m2 := EncodeAll(m) + e1, EncodeAll(n) + e2;
    EqualPieces(h, g, EncodeAll(a) + m1, EncodeAll(b) + m2);
    EqualPieces(a, b, m1, m2);
    EqualPieces(m, n, e1, e2);
    EqualPieces(e, f, l1, l2);
    assert l1 + [] == l1 && l2 + [] == l2;
    EqualPieces(l, k, [], []);
  }

  /** The counts read from the front fix the shape of what follows, so every part can be read back. */
  lemma WorkloadPiecesInjective(f: WorkloadFields, g: WorkloadFields)
    requires f.Fits() && g.Fits() && EncodeAll(WorkloadPieces(f)) == EncodeAll(WorkloadPieces(g))
    ensures HeadPieces(f) == HeadPieces(g) && ArgumentPieces(f.argv) == ArgumentPieces(g.argv)
    ensures MiddlePieces(f) == MiddlePieces(g) && EntryPieces(f.environment) == EntryPieces(g.environment)
    ensures LimitPieces(f) == LimitPieces(g)
  {
    assert HeadPieces(f)[8] == Number(|f.argv|) && HeadPieces(g)[8] == Number(|g.argv|);
    assert MiddlePieces(f)[2] == Number(|f.environment|) && MiddlePieces(g)[2] == Number(|g.environment|);
    FivePartsInjective(HeadPieces(f), ArgumentPieces(f.argv), MiddlePieces(f), EntryPieces(f.environment), LimitPieces(f),
                       HeadPieces(g), ArgumentPieces(g.argv), MiddlePieces(g), EntryPieces(g.environment), LimitPieces(g));
  }

  lemma SamePiecesSameFields(f: WorkloadFields, g: WorkloadFields)
    requires f.Fits() && g.Fits()
    requires HeadPieces(f) == HeadPieces(g) && ArgumentPieces(f.argv) == ArgumentPieces(g.argv)
    requires MiddlePieces(f) == MiddlePieces(g) && EntryPieces(f.environment) == EntryPieces(g.environment)
    requires LimitPieces(f) == LimitPieces(g)
    ensures f == g
  {
    var h, i := HeadPieces(f), HeadPieces(g);
    assert h[0] == i[0] && h[1] == i[1] && h[2] == i[2] && h[3] == i[3] && h[4] == i[4] && h[5] == i[5] && h[6] == i[6] && h[7] == i[7];
    var m, n := MiddlePieces(f), MiddlePieces(g);
    assert m[0] == n[0] && m[1] == n[1];
    var l, o := LimitPieces(f), LimitPieces(g);
    assert l[0] == o[0] && l[1] == o[1] && l[2] == o[2] && l[3] == o[3];
    assert f.argv == g.argv by {
      assert forall k :: 0 <= k < |f.argv| ==> ArgumentPieces(f.argv)[k] == ArgumentPieces(g.argv)[k];
    }
    assert f.environment == g.environment by {
      forall k | 0 <= k < |f.environment|
        ensures f.environment[k] == g.environment[k]
      {
        assert EntryPieces(f.environment)[2 * k] == EntryPieces(g.environment)[2 * k];
        assert EntryPieces(f.environment)[2 * k + 1] == EntryPieces(g.environment)[2 * k + 1];
      }
    }
  }

  /** Workloads with equal preimages agree on every encoded field, lists included. */
  lemma WorkloadPreimageInjective(f: WorkloadFields, g: WorkloadFields)
    requires f.Fits() && g.Fits() && WorkloadPreimage(f) == WorkloadPreimage(g)
    ensures f == g
  {
    PrefixSplit(Ascii(WORKLOAD_LABEL), EncodeAll(WorkloadPieces(f)), Ascii(WORKLOAD_LABEL), EncodeAll(WorkloadPieces(g)));
    WorkloadPiecesInjective(f, g);
    SamePiecesSameFields(f, g);
  }

  // ---- Receipts ----

  function ExitTag(e: BoundExit): (b: byte)
  {
    match e
    case BoundCode(_) => 0
    case BoundSignal(_) => 1
    case BoundTimeout => 2
  }

  function ExitValue(e: BoundExit): (ps: seq<Piece>)
  {
    match e
    case BoundCode(value) => [Signed(value)]
    case BoundSignal(value) => [Signed(value)]
    case BoundTimeout => []
  }

  function OutputPieces(f: ReceiptFields): (ps: seq<Piece>)
  {
    [Field(f.stdout), Field(f.stderr), Single(if f.truncated then 1 else 0), Single(1)]
  }

  function ReceiptPieces(f: ReceiptFields): (ps: seq<Piece>)
  {
    [Field(f.workloadDigest), Single(ExitTag(f.exit))] + ExitValue(f.exit) + OutputPieces(f)
  }

  function ReceiptPreimage(f: ReceiptFields): (bytes: Bytes)
  {
    Ascii(RECEIPT_LABEL) + EncodeAll(ReceiptPieces(f))
  }

  method HashReceipt(sha256: Bytes -> Bytes, f: ReceiptFields) returns (digest: Bytes)
    ensures digest == sha256(ReceiptPreimage(f))
  {
    var input := new DigestInput(Ascii(RECEIPT_LABEL));
    input.Append(Field(f.workloadDigest));
    input.Append(Single(ExitTag(f.exit)));
    input.AppendAll(ExitValue(f.exit));
    input.AppendAll(OutputPieces(f));
    assert input.written == ReceiptPieces(f);
    digest := input.Finish(sha256);
  }

  lemma ThreeParts(h: seq<Piece>, v: seq<Piece>, o: seq<Piece>)
    ensures EncodeAll(h + v + o) == EncodeAll(h) + (EncodeAll(v) + EncodeAll(o))
  {
    Sequences.CollectConcat(Encode, h + v, o);
    Sequences.CollectConcat(Encode, h, v);
  }

  lemma ReceiptPiecesInjective(f: ReceiptFields, g: ReceiptFields)
    requires EncodeAll(ReceiptPieces(f)) == EncodeAll(ReceiptPieces(g))
    ensures f == g
  {
    var h1, h2 := [Field(f.workloadDigest), Single(ExitTag(f.exit))], [Field(g.workloadDigest), Single(ExitTag(g.exit))];
    ThreeParts(h1, ExitValue(f.exit), OutputPieces(f));
    ThreeParts(h2, ExitValue(g.exit), OutputPieces(g));
    var o1, o2 := EncodeAll(OutputPieces(f)), EncodeAll(OutputPieces(g));
    EqualPieces(h1, h2, EncodeAll(ExitValue(f.exit)) + o1, EncodeAll(ExitValue(g.exit)) + o2);
    assert h1[0] == h2[0] && h1[1] == h2[1];
    EqualPieces(ExitValue(f.exit), ExitValue(g.exit), o1, o2);
    assert o1 + [] == o1 && o2 + [] == o2;
    EqualPieces(OutputPieces(f), OutputPieces(g), [], []);
    assert OutputPieces(f)[0] == OutputPieces(g)[0] && OutputPieces(f)[1] == OutputPieces(g)[1] && OutputPieces(f)[2] == OutputPieces(g)[2];
    assert !f.exit.BoundTimeout? ==> ExitValue(f.exit)[0] == ExitValue(g.exit)[0];
  }

  /** Receipts with equal preimages agree on everything they bind. */
  lemma ReceiptPreimageInjective(f: ReceiptFields, g: ReceiptFields)
    requires ReceiptPreimage(f) == ReceiptPreimage(g)
    ensures f == g
  {
    PrefixSplit(Ascii(RECEIPT_LABEL), EncodeAll(ReceiptPieces(f)), Ascii(RECEIPT_LABEL), EncodeAll(ReceiptPieces(g)));
    ReceiptPiecesInjective(f, g);
  }

  /** No workload preimage is a receipt preimage: the labels differ inside their common length. */
  lemma DomainsSeparated(f: WorkloadFields, g: ReceiptFields)
    requires f.Fits()
    ensures WorkloadPreimage(f) != ReceiptPreimage(g)
  {
    var a, b := Ascii(WORKLOAD_LABEL), Ascii(RECEIPT_LABEL);
    assert WORKLOAD_LABEL[21] == 'w' && RECEIPT_LABEL[21] == 'r';
    assert WorkloadPreimage(f)[21] == a[21];
    assert ReceiptPreimage(g)[21] == b[21];
  }

  // ---- The bytes, written out ----

  /** A field: its length in eight bytes, then its bytes. */
  function Prefixed(b: Short): (bytes: Bytes) { Number8(|b|) + b }

  lemma EncodeFirst(ps: seq<Piece>, rest: Bytes)
    requires ps != []
    ensures EncodeAll(ps) + rest == Encode(ps[0]) + (EncodeAll(ps[1..]) + rest)
  {
    assert ps == [ps[0]] + ps[1..];
    Sequences.CollectConcat(Encode, [ps[0]], ps[1..]);
    Sequences.CollectOne(Encode, ps[0]);
    Sequences.Associate(Encode(ps[0]), EncodeAll(ps[1..]), rest);
  }

  lemma EncodeTwo(p: Piece, q: Piece, rest: Bytes)
    ensures EncodeAll([p, q]) + rest == Encode(p) + (Encode(q) + rest)
  {
    EncodeFirst([p, q], rest);
    assert [p, q][1..] == [q] && [q][1..] == [];
    EncodeFirst([q], rest);
    assert [] + rest == rest;
  }

  lemma EncodeThree(p: Piece, q: Piece, r: Piece, rest: Bytes)
    ensures EncodeAll([p, q, r]) + rest == Encode(p) + (Encode(q) + (Encode(r) + rest))
  {
    EncodeFirst([p, q, r], rest);
    assert [p, q, r][1..] == [q, r];
    EncodeTwo(q, r, rest);
  }

  lemma EncodeFour(p: Piece, q: Piece, r: Piece, t: Piece, rest: Bytes)
    ensures EncodeAll([p, q, r, t]) + rest == Encode(p) + (Encode(q) + (Encode(r) + (Encode(t) + rest)))
  {
    EncodeFirst([p, q, r, t], rest);
    assert [p, q, r, t][1..] == [q, r, t];
    EncodeThree(q, r, t, rest);
  }

  /** The fixed fields that come before the arguments. */
  function HeadBytes(f: WorkloadFields, rest: Bytes): (bytes: Bytes)
    requires f.Fits()
  {
    Prefixed(f.protocolRevision) + (Prefixed(f.invocationId) + (Prefixed(f.dispatchAttemptId) + (Prefixed(f.executorRevision)
    + (Prefixed(f.preparedDigest) + (Prefixed(f.vmConfigurationDigest) + (Prefixed(f.lane) + (Prefixed(f.executable)
    + (Number8(|f.argv|) + rest))))))))
  }

  lemma HeadWritten(f: WorkloadFields, rest: Bytes)
    requires f.Fits()
    ensures EncodeAll(HeadPieces(f)) + rest == HeadBytes(f, rest)
  {
    var ps := HeadPieces(f);
    var a, b, c := ps[..4], ps[4..8], ps[8..];
    assert ps == a + (b + c);
    Sequences.CollectConcat(Encode, a, b + c);
    Sequences.CollectConcat(Encode, b, c);
    assert a == [ps[0], ps[1], ps[2], ps[3]] && b == [ps[4], ps[5], ps[6], ps[7]] && c == [ps[8]];
    var last := EncodeAll(c) + rest;
    EncodeFirst(c, rest);
    assert c[1..] == [] && [] + rest == rest;
    EncodeFour(ps[4], ps[5], ps[6], ps[7], last);
    EncodeFour(ps[0], ps[1], ps[2], ps[3], EncodeAll(b) + last);
    Sequences.Associate(EncodeAll(a), EncodeAll(b) + EncodeAll(c), rest);
    Sequences.Associate(EncodeAll(b), EncodeAll(c), rest);
  }

  function ArgumentsWritten(argv: seq<Short>): (bytes: Bytes)
  {
    if argv == [] then [] else ArgumentsWritten(argv[..|argv| - 1]) + Prefixed(argv[|argv| - 1])
  }

  lemma {:induction false} ArgumentsEncode(argv: seq<Short>)
    ensures EncodeAll(ArgumentPieces(argv)) == ArgumentsWritten(argv)
    decreases |argv|
  {
    if argv == [] {
    } else {
      var n := |argv| - 1;
      ArgumentsEncode(argv[..n]);
      assert ArgumentPieces(argv)[..n] == ArgumentPieces(argv[..n]);
    }
  }

  function EntriesWritten(entries: seq<(Short, Short)>): (bytes: Bytes)
  {
    if entries == [] then []
    else EntriesWritten(entries[..|entries| - 1]) + (Prefixed(entries[|entries| - 1].0) + Prefixed(entries[|entries| - 1].1))
  }

  lemma {:induction false} EntriesEncode(entries: seq<(Short, Short)>)
    ensures EncodeAll(EntryPieces(entries)) == EntriesWritten(entries)
    decreases |entries|
  {
    if entries == [] {
    } else {
      var init, last := entries[..|entries| - 1], entries[|entries| - 1];
      EntriesEncode(init);
      Sequences.CollectConcat(Encode, EntryPieces(init), [Field(last.0), Field(last.1)]);
      EncodeTwo(Field(last.0), Field(last.1), []);
      var pair := EncodeAll([Field(last.0), Field(last.1)]);
      assert pair + [] == pair && Prefixed(last.1) + [] == Prefixed(last.1);
    }
  }

  /** The bytes a workload digest is taken of, field by field. */
  lemma WorkloadWritten(f: WorkloadFields)
    requires f.Fits()
    ensures WorkloadPreimage(f) ==
            Ascii("garive.macos-process-workload.v1") + HeadBytes(f,
              ArgumentsWritten(f.argv) + (Prefixed(f.workingDirectory) + ([f.mode] + (Number8(|f.environment|)
              + (EntriesWritten(f.environment)
              + (Number8(f.maxOutputBytes) + (Number8(f.timeoutMilliseconds) + (Number8(f.maxProcesses) + Number8(f.maxOpenFiles)))))))))
  {
    FiveParts(HeadPieces(f), ArgumentPieces(f.argv), MiddlePieces(f), EntryPieces(f.environment), LimitPieces(f));
    ArgumentsEncode(f.argv);
    EntriesEncode(f.environment);
    var limits := EncodeAll(LimitPieces(f));
    EncodeFour(Number(f.maxOutputBytes), Number(f.timeoutMilliseconds), Number(f.maxProcesses), Number(f.maxOpenFiles), []);
    assert limits + [] == limits && Number8(f.maxOpenFiles) + [] == Number8(f.maxOpenFiles);
    EncodeThree(Field(f.workingDirectory), Single(f.mode), Number(|f.environment|), EncodeAll(EntryPieces(f.environment)) + limits);
    HeadWritten(f, EncodeAll(ArgumentPieces(f.argv)) + (EncodeAll(MiddlePieces(f)) + (EncodeAll(EntryPieces(f.environment)) + limits)));
  }

  /** How an exit is written: its class, and for a code or signal its value in four bytes of two's complement. */
  function ExitWritten(e: BoundExit): (bytes: Bytes)
  {
    Widths();
    match e
    case BoundCode(value) => [0] + BigEndian(if value >= 0 then value else 0x1_0000_0000 + value, 4)
    case BoundSignal(value) => [1] + BigEndian(if value >= 0 then value else 0x1_0000_0000 + value, 4)
    case BoundTimeout => [2]
  }

  lemma ExitEncodes(e: BoundExit)
    ensures [ExitTag(e)] + EncodeAll(ExitValue(e)) == ExitWritten(e)
  {
    match e
    case BoundCode(value) => Sequences.CollectOne(Encode, Signed(value));
    case BoundSignal(value) => Sequences.CollectOne(Encode, Signed(value));
    case BoundTimeout => assert [ExitTag(e)] + [] == [ExitTag(e)];
  }

  /** The bytes a receipt digest is taken of, field by field. */
  lemma ReceiptWritten(f: ReceiptFields)
    ensures ReceiptPreimage(f) ==
            Ascii("garive.macos-process-receipt.v1") + (Prefixed(f.workloadDigest) + (ExitWritten(f.exit)
            + (Prefixed(f.stdout) + (Prefixed(f.stderr) + ([if f.truncated then 1 else 0] + [1])))))
  {
    var head := [Field(f.workloadDigest), Single(ExitTag(f.exit))];
    var value, outputs := EncodeAll(ExitValue(f.exit)), EncodeAll(OutputPieces(f));
    ThreeParts(head, ExitValue(f.exit), OutputPieces(f));
    EncodeTwo(Field(f.workloadDigest), Single(ExitTag(f.exit)), value + outputs);
    EncodeFour(Field(f.stdout), Field(f.stderr), Single(if f.truncated then 1 else 0), Single(1), []);
    assert outputs + [] == outputs && [1] + [] == [1 as byte];
    ExitEncodes(f.exit);
    Sequences.Associate([ExitTag(f.exit)], value, outputs);
  }
}
