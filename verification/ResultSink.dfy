/**
 The append-only, source-ordered result log of a benchmark run.
 Source: JsonlResultSink in bench/src/tracking.rs. A write that fails may leave a torn record behind.
 */
module ResultSink {
  import opened Common
  import opened Evaluation

  /** Provenance frozen before the first result. */
  datatype Descriptor =
    Descriptor(runId: seq<byte>, suiteId: seq<byte>, datasetRevision: seq<byte>, harnessRevision: seq<byte>,
               agentRevision: seq<byte>, dirty: bool, configDigest: seq<byte>, intakeAdapter: seq<byte>, patchAdapter: seq<byte>,
               environmentKind: string, jobs: nat, caseCount: u64, publishable: bool)

  datatype Completion = Development(summary: Summary) | Published(baseline: Baseline)

  datatype SinkError = InvalidTracking

  datatype Record =
    | RunStart(descriptor: Descriptor)
    | CaseRecord(index: nat, result: CaseResult)
    | RunEnd(durationMs: nat, summary: Summary)
    | Torn

  // ---- Provenance ----

  const MAX_DESCRIPTOR_JOBS := 64

  predicate ValidDescriptor(d: Descriptor)
  {
    && Bounded(d.runId) && Bounded(d.suiteId) && Bounded(d.datasetRevision) && Bounded(d.harnessRevision) && Bounded(d.agentRevision)
    && Bounded(d.intakeAdapter) && Bounded(d.patchAdapter)
    && ValidDigest(d.configDigest) && d.environmentKind in {"official", "self-cow"}
    && 0 < d.jobs <= MAX_DESCRIPTOR_JOBS && 0 < d.caseCount
    && (d.publishable ==> d.environmentKind == "official" && d.jobs != 1 && !d.dirty)
  }

  /** A text of one to 256 bytes. */
  ghost predicate Short(text: seq<byte>) { 1 <= |text| <= 256 }

  /** Sixty-four hexadecimal digits of either case. */
  ghost predicate Hexadecimal(digest: seq<byte>)
  {
    && |digest| == 64
    && forall b :: b in digest ==>
                     var c := b as int as char; '0' <= c <= '9' || 'a' <= c <= 'f' || 'A' <= c <= 'F'
  }

  lemma HexadecimalIsDigest(digest: seq<byte>)
    ensures Hexadecimal(digest) <==> ValidDigest(digest)
  {
    assert forall k :: 0 <= k < |digest| ==> digest[k] in digest;
  }

  /** A run may be tracked exactly with this provenance; what may be published is official, concurrent and clean. */
  lemma DescriptorExactly(d: Descriptor)
    ensures ValidDescriptor(d) <==>
            && Short(d.runId) && Short(d.suiteId) && Short(d.datasetRevision) && Short(d.harnessRevision) && Short(d.agentRevision)
            && Short(d.intakeAdapter) && Short(d.patchAdapter) && Hexadecimal(d.configDigest) && 1 <= d.jobs <= 64 && 1 <= d.caseCount
            && (if d.publishable then d.environmentKind == "official" && 2 <= d.jobs && d.dirty == false
                else d.environmentKind == "official" || d.environmentKind == "self-cow")
  {
    HexadecimalIsDigest(d.configDigest);
  }

  /** A baseline is admitted exactly for a clean checkout, three short revisions and a digest. */
  lemma BaselineExactly(p: Provenance, summary: Summary)
    ensures NewBaseline(p, summary).Ok? <==>
            !p.dirty && Short(p.datasetRevision) && Short(p.harnessRevision) && Short(p.agentRevision) && Hexadecimal(p.configDigest)
    ensures NewBaseline(p, summary).Err? ==> NewBaseline(p, summary).error == InvalidBaseline
    ensures forall text :: Identity(text) == if text == [] then Err(EmptyIdentity) else if Short(text) then Ok(text) else Err(IdentityTooLong)
  {
    HexadecimalIsDigest(p.configDigest);
  }

  /** What a finished run yields: its summary, or for a publishable run the baseline, if its provenance is admitted. */
  function CompletionOf(d: Descriptor, summary: Summary): (r: Result<Completion, SinkError>)
  {
    if !d.publishable then Ok(Development(summary))
    else if Identity(d.runId).Err? || Identity(d.suiteId).Err? then Err(InvalidTracking)
    else
      var p := Provenance(d.runId, d.suiteId, d.datasetRevision, d.harnessRevision, d.agentRevision, d.dirty, d.configDigest);
      var baseline := NewBaseline(p, summary);
      if baseline.Ok? then Ok(Published(baseline.value)) else Err(InvalidTracking)
  }

  /** A baseline of this run: its own provenance, the summary, and the configuration digest in lower case. */
  ghost predicate Attests(b: Baseline, d: Descriptor, summary: Summary)
  {
    && b.runId == d.runId && b.suiteId == d.suiteId && b.datasetRevision == d.datasetRevision
    && b.harnessRevision == d.harnessRevision && b.agentRevision == d.agentRevision && b.summary == summary
    && |b.configDigest| == |d.configDigest|
    && forall k :: 0 <= k < |d.configDigest| ==>
                     var upper := 65 <= d.configDigest[k] <= 70;
                     b.configDigest[k] == (if upper then d.configDigest[k] + 32 else d.configDigest[k])
  }

  /** A descriptor that opened a sink is never refused at the end: a publishable run becomes a clean baseline of its summary. */
  lemma DescriptorCompletes(d: Descriptor, summary: Summary)
    requires ValidDescriptor(d)
    ensures CompletionOf(d, summary).Ok?
    ensures d.publishable ==>
              var c := CompletionOf(d, summary).value;
              c.Published? && Attests(c.baseline, d, summary) && ValidDigest(c.baseline.configDigest)
    ensures !d.publishable ==> CompletionOf(d, summary) == Ok(Development(summary))
  {
  }

  // ---- The log ----

  /** The complete records of a log. */
  function Whole(log: seq<Record>): (r: seq<Record>)
  {
    if log == [] then []
    else Whole(log[..|log| - 1]) + if log[|log| - 1].Torn? then [] else [log[|log| - 1]]
  }

  function CaseRecords(results: seq<CaseResult>): (r: seq<Record>)
    ensures |r| == |results|
    ensures forall k :: 0 <= k < |results| ==> r[k] == CaseRecord(k, results[k])
  {
    seq(|results|, k requires 0 <= k < |results| => CaseRecord(k, results[k]))
  }

  /** The log of a run before its end. */
  function CaseLog(d: Descriptor, results: seq<CaseResult>): (r: seq<Record>)
  {
    [RunStart(d)] + CaseRecords(results)
  }

  /** The log of a whole run over these results. */
  function FullLog(d: Descriptor, results: seq<CaseResult>, durationMs: nat): (r: seq<Record>)
  {
    CaseLog(d, results) + [RunEnd(durationMs, SummaryOf(results))]
  }

  lemma CaseRecordsAppend(results: seq<CaseResult>, result: CaseResult)
    ensures CaseRecords(results + [result]) == CaseRecords(results) + [CaseRecord(|results|, result)]
  {
  }

  lemma CaseRecordsPrefix(results: seq<CaseResult>, k: nat)
    requires k <= |results|
    ensures CaseRecords(results[..k]) == CaseRecords(results)[..k]
  {
  }

  lemma WholeAppend(log: seq<Record>, record: Record)
    ensures Whole(log + [record]) == Whole(log) + if record.Torn? then [] else [record]
  {
    assert (log + [record])[..|log|] == log;
  }

  class JsonlResultSink {
    const descriptor: Descriptor
    /** Whether the write attempted when the log has this many entries succeeds. */
    const writes: nat -> bool
    var log: seq<Record>
    var nextIndex: nat
    var finished: bool
    ghost var appended: seq<CaseResult>
    ghost var ending: seq<Record>

    /** Complete records are run start, then the appended cases in order, then one run end once finished with every case. */
    ghost predicate Valid()
      reads this
    {
      && ValidDescriptor(descriptor) && nextIndex == |appended|
      && Whole(log) == CaseLog(descriptor, appended) + ending
      && (if finished then |ending| == 1 && ending[0].RunEnd? && nextIndex == descriptor.caseCount else ending == [])
    }

    constructor Unopened(descriptor: Descriptor, writes: nat -> bool)
      ensures this.descriptor == descriptor && this.writes == writes
      ensures log == [] && nextIndex == 0 && !finished && appended == [] && ending == []
    {
      this.descriptor, this.writes := descriptor, writes;
      log, nextIndex, finished, appended, ending := [], 0, false, [], [];
    }

    /** One JSON line: complete, or torn and reported. */
    method Write(record: Record) returns (ok: bool)
      modifies this`log
      ensures ok == writes(old(|log|))
      ensures log == old(log) + [if ok then record else Torn]
    {
      ok := writes(|log|);
      log := log + [if ok then record else Torn];
    }

    method Append(index: nat, result: CaseResult) returns (r: Result<(), SinkError>)
      requires Valid()
      modifies this
      ensures Valid()
      ensures r.Ok? <==> !old(finished) && index == old(nextIndex) && writes(old(|log|))
      ensures r.Ok? ==> appended == old(appended) + [result] && finished == old(finished)
      ensures r.Err? ==> appended == old(appended) && finished == old(finished)
    {
      if finished || index != nextIndex {
        return Err(InvalidTracking);
      }
      var ok := Write(CaseRecord(index, result));
      WholeAppend(old(log), if ok then CaseRecord(index, result) else Torn);
      if !ok {
        return Err(InvalidTracking);
      }
      CaseRecordsAppend(appended, result);
      nextIndex := nextIndex + 1;
      appended := appended + [result];
      return Ok(());
    }

    /** Writes the run end once: the results summarise within their limits, every case was appended, and the write succeeds. */
    method Finish(results: seq<CaseResult>, durationMs: nat, limits: Limits) returns (r: Result<Completion, SinkError>)
      requires Valid()
      modifies this
      ensures Valid() && appended == old(appended)
      ensures r.Ok? <==> !old(finished) && Summarises(results, limits) && old(nextIndex) == descriptor.caseCount == |results|
                         && writes(old(|log|))
      ensures finished <==> old(finished) || r.Ok?
      ensures r.Ok? ==> ending == [RunEnd(durationMs, SummaryOf(results))] && r == CompletionOf(descriptor, SummaryOf(results))
      ensures r.Err? ==> ending == old(ending)
    {
      var summary := Summarize(results, limits);
      if summary.Err? || finished || nextIndex != descriptor.caseCount || |results| != descriptor.caseCount {
        return Err(InvalidTracking);
      }
      var ok := Write(RunEnd(durationMs, summary.value));
      WholeAppend(old(log), if ok then RunEnd(durationMs, summary.value) else Torn);
      if !ok {
        return Err(InvalidTracking);
      }
      finished := true;
      ending := [RunEnd(durationMs, summary.value)];
      DescriptorCompletes(descriptor, summary.value);
      return CompletionOf(descriptor, summary.value);
    }
  }

  /** Opening writes the run start; a refused descriptor or a failed write gives no sink. */
  method Open(descriptor: Descriptor, writes: nat -> bool) returns (r: Result<JsonlResultSink, SinkError>)
    ensures r.Ok? <==> ValidDescriptor(descriptor) && writes(0)
    ensures r.Ok? ==> fresh(r.value) && r.value.Valid() && r.value.descriptor == descriptor && r.value.writes == writes
                      && r.value.appended == [] && !r.value.finished
  {
    if !ValidDescriptor(descriptor) {
      return Err(InvalidTracking);
    }
    var sink := new JsonlResultSink.Unopened(descriptor, writes);
    var ok := sink.Write(RunStart(descriptor));
    WholeAppend([], if ok then RunStart(descriptor) else Torn);
    assert [] + [if ok then RunStart(descriptor) else Torn] == sink.log;
    if !ok {
      return Err(InvalidTracking);
    }
    return Ok(sink);
  }

  lemma PrefixOfLog(d: Descriptor, appended: seq<CaseResult>, results: seq<CaseResult>)
    requires appended <= results
    ensures CaseLog(d, appended) <= CaseLog(d, results)
  {
    CaseRecordsPrefix(results, |appended|);
    assert results[..|appended|] == appended;
  }

  /** Whatever failed when, the complete records of a valid sink that appended a prefix of a run's results are a prefix of the run's log. */
  lemma LogIsPrefix(sink: JsonlResultSink, results: seq<CaseResult>, durationMs: nat)
    requires sink.Valid() && sink.appended <= results
    requires sink.finished ==> sink.appended == results && sink.ending == [RunEnd(durationMs, SummaryOf(results))]
    ensures Whole(sink.log) <= if sink.finished then FullLog(sink.descriptor, results, durationMs) else CaseLog(sink.descriptor, results)
    ensures sink.finished ==> Whole(sink.log) == FullLog(sink.descriptor, results, durationMs)
  {
    PrefixOfLog(sink.descriptor, sink.appended, results);
  }
}
