/**
 Evaluation evidence: the reduction of terminal case results under a run's limits, and the baseline a published run yields.
 Source: engine/eval/src/result.rs, values.rs and baseline.rs. Texts whose length in bytes matters are bytes.
 */
module Evaluation {
  import opened Common

  datatype CaseOutcome = Passed | Failed | InfrastructureFailure | NotAttempted

  datatype CaseResult = CaseResult(caseId: string, outcome: CaseOutcome, durationMs: nat, inputTokens: Option<nat>, outputTokens: Option<nat>)

  datatype Limits = Limits(maxCases: u64, maxCaseDurationMs: u64)

  datatype Score = Score(numerator: nat, denominator: nat)

  datatype Summary =
    Summary(attempted: nat, passed: nat, failed: nat, infrastructureFailed: nat, notAttempted: nat, score: Option<Score>)

  datatype EvaluationError =
    | EmptyIdentity | IdentityTooLong | InvalidLimits | TooManyCases | DuplicateCase | DurationExceeded | InvalidNotAttempted
    | InvalidBaseline

  // ---- Summaries ----

  function Count(results: seq<CaseResult>, outcome: CaseOutcome): (n: nat)
  {
    |set k | 0 <= k < |results| && results[k].outcome == outcome|
  }

  function SummaryOf(results: seq<CaseResult>): (s: Summary)
  {
    var passed, failed := Count(results, Passed), Count(results, Failed);
    Summary(passed + failed, passed, failed, Count(results, InfrastructureFailure), Count(results, NotAttempted),
            if passed + failed == 0 then None else Some(Score(passed, passed + failed)))
  }

  predicate Repeats(results: seq<CaseResult>, k: nat)
    requires k < |results|
  {
    exists j :: 0 <= j < k && results[j].caseId == results[k].caseId
  }

  predicate ClaimsUse(result: CaseResult)
  {
    result.durationMs != 0 || result.inputTokens.Some? || result.outputTokens.Some?
  }

  /** What is wrong with the result at a place, given those before it. */
  function FaultAt(results: seq<CaseResult>, limits: Limits, k: nat): (fault: Option<EvaluationError>)
    requires k < |results|
  {
    if Repeats(results, k) then Some(DuplicateCase)
    else if results[k].durationMs > limits.maxCaseDurationMs then Some(DurationExceeded)
    else if results[k].outcome.NotAttempted? && ClaimsUse(results[k]) then Some(InvalidNotAttempted)
    else None
  }

  predicate Faultless(results: seq<CaseResult>, limits: Limits, k: nat)
    requires k <= |results|
  {
    forall j: nat :: j < k ==> FaultAt(results, limits, j).None?
  }

  predicate Summarises(results: seq<CaseResult>, limits: Limits)
  {
    0 < limits.maxCases && 0 < limits.maxCaseDurationMs && |results| <= limits.maxCases && Faultless(results, limits, |results|)
  }

  /** Results summarise exactly within both limits, with distinct ids, and without use claimed for cases never attempted. */
  lemma SummarisesExactly(results: seq<CaseResult>, limits: Limits)
    ensures Summarises(results, limits) <==>
            && 1 <= limits.maxCases && 1 <= limits.maxCaseDurationMs && |results| <= limits.maxCases
            && (forall j, k :: 0 <= j < k < |results| ==> results[j].caseId != results[k].caseId)
            && (forall k :: 0 <= k < |results| ==> results[k].durationMs <= limits.maxCaseDurationMs)
            && (forall k :: 0 <= k < |results| && results[k].outcome == NotAttempted ==>
                              results[k].durationMs == 0 && results[k].inputTokens == None && results[k].outputTokens == None)
  {
    forall k: nat | k < |results|
      ensures FaultAt(results, limits, k).None? <==>
              && (forall j :: 0 <= j < k ==> results[j].caseId != results[k].caseId) && results[k].durationMs <= limits.maxCaseDurationMs
              && (results[k].outcome == NotAttempted ==>
                    results[k].durationMs == 0 && results[k].inputTokens == None && results[k].outputTokens == None)
    {
    }
  }

  /** Why the result at a place is refused: a repeated id, then too long a case, then use claimed for one never attempted. */
  lemma FaultExactly(results: seq<CaseResult>, limits: Limits, k: nat)
    requires k < |results|
    ensures var repeated := exists j :: 0 <= j < k && results[j].caseId == results[k].caseId;
            var late := limits.maxCaseDurationMs < results[k].durationMs;
            var idle := results[k] == CaseResult(results[k].caseId, NotAttempted, 0, None, None);
            FaultAt(results, limits, k) ==
            if repeated then Some(DuplicateCase) else if late then Some(DurationExceeded)
            else if results[k].outcome == NotAttempted && !idle then Some(InvalidNotAttempted) else None
  {
  }

  lemma CountGrows(results: seq<CaseResult>, k: nat, outcome: CaseOutcome)
    requires k < |results|
    ensures Count(results[..k + 1], outcome) == Count(results[..k], outcome) + if results[k].outcome == outcome then 1 else 0
  {
    var short, long := results[..k], results[..k + 1];
    var before := set j | 0 <= j < |short| && short[j].outcome == outcome;
    var after := set j | 0 <= j < |long| && long[j].outcome == outcome;
    assert after == if results[k].outcome == outcome then before + {k} else before;
  }

  lemma CountBound(results: seq<CaseResult>, outcome: CaseOutcome)
    ensures Count(results, outcome) <= |results|
    decreases |results|
  {
    if results == [] {
    } else {
      var k := |results| - 1;
      assert results[..k + 1] == results;
      CountBound(results[..k], outcome);
      CountGrows(results, k, outcome);
    }
  }

  /** Every result is counted exactly once, and there is a score, at most one, exactly when some case got a verdict. */
  lemma {:induction false} SummaryCounts(results: seq<CaseResult>)
    ensures var s := SummaryOf(results);
            && s.attempted + s.infrastructureFailed + s.notAttempted == |results|
            && (s.score.Some? <==> exists k :: 0 <= k < |results| && (results[k].outcome.Passed? || results[k].outcome.Failed?))
            && (s.score.Some? ==> s.score.value.numerator <= s.score.value.denominator)
    decreases |results|
  {
    if results == [] {
    } else {
      var k := |results| - 1;
      var init := results[..k];
      assert results[..k + 1] == results;
      SummaryCounts(init);
      CountGrows(results, k, Passed);
      CountGrows(results, k, Failed);
      CountGrows(results, k, InfrastructureFailure);
      CountGrows(results, k, NotAttempted);
      if j :| 0 <= j < |init| && (init[j].outcome.Passed? || init[j].outcome.Failed?) {
        assert results[j] == init[j];
      }
    }
  }

  // ---- What a summary means ----

  function Outcomes(results: seq<CaseResult>): (outcomes: seq<CaseOutcome>)
    ensures |outcomes| == |results| && forall k :: 0 <= k < |results| ==> outcomes[k] == results[k].outcome
  {
    seq(|results|, k requires 0 <= k < |results| => results[k].outcome)
  }

  lemma {:induction false} CountIsMultiplicity(results: seq<CaseResult>, outcome: CaseOutcome)
    ensures Count(results, outcome) == multiset(Outcomes(results))[outcome]
    decreases |results|
  {
    if results == [] {
    } else {
      var k := |results| - 1;
      CountIsMultiplicity(results[..k], outcome);
      CountGrows(results, k, outcome);
      assert results[..k + 1] == results;
      assert Outcomes(results) == Outcomes(results[..k]) + [results[k].outcome];
    }
  }

  /** Each number of a summary is how often its outcome occurs, and the score is passed over passed and failed. */
  lemma SummaryMeans(results: seq<CaseResult>)
    ensures var s, times := SummaryOf(results), multiset(Outcomes(results));
            && s.passed == times[Passed] && s.failed == times[Failed]
            && s.infrastructureFailed == times[InfrastructureFailure] && s.notAttempted == times[NotAttempted]
            && s.attempted == times[Passed] + times[Failed]
            && (s.score.None? <==> times[Passed] == 0 && times[Failed] == 0)
            && (s.score.Some? ==> s.score.value.numerator == times[Passed] && s.score.value.denominator == times[Passed] + times[Failed])
  {
    forall outcome ensures Count(results, outcome) == multiset(Outcomes(results))[outcome] {
      CountIsMultiplicity(results, outcome);
    }
  }

  function Without<T>(s: seq<T>, j: nat): (r: seq<T>)
    requires j < |s|
  {
    s[..j] + s[j + 1..]
  }

  lemma WithoutOne<T>(s: seq<T>, j: nat)
    requires j < |s|
    ensures multiset(s) == multiset(Without(s, j)) + multiset{s[j]}
  {
    assert s == s[..j] + [s[j]] + s[j + 1..];
  }

  lemma OutcomesWithout(results: seq<CaseResult>, j: nat)
    requires j < |results|
    ensures multiset(Outcomes(results)) == multiset(Outcomes(Without(results, j))) + multiset{results[j].outcome}
  {
    assert Outcomes(Without(results, j)) == Without(Outcomes(results), j);
    WithoutOne(Outcomes(results), j);
  }

  lemma Cancel<T>(a: multiset<T>, b: multiset<T>, x: T)
    requires a + multiset{x} == b + multiset{x}
    ensures a == b
  {
    assert a == (a + multiset{x}) - multiset{x} && b == (b + multiset{x}) - multiset{x};
  }

  lemma {:induction false} PermutedOutcomes(a: seq<CaseResult>, b: seq<CaseResult>)
    requires multiset(a) == multiset(b)
    ensures multiset(Outcomes(a)) == multiset(Outcomes(b))
    decreases |a|
  {
    if a == [] {
      assert |multiset(b)| == 0;
    } else {
      assert a[0] in multiset(b);
      var j :| 0 <= j < |b| && b[j] == a[0];
      WithoutOne(a, 0);
      WithoutOne(b, j);
      Cancel(multiset(Without(a, 0)), multiset(Without(b, j)), a[0]);
      PermutedOutcomes(Without(a, 0), Without(b, j));
      OutcomesWithout(a, 0);
      OutcomesWithout(b, j);
    }
  }

  /** A summary does not depend on the order of the results. */
  lemma SummaryIgnoresOrder(a: seq<CaseResult>, b: seq<CaseResult>)
    requires multiset(a) == multiset(b)
    ensures SummaryOf(a) == SummaryOf(b)
  {
    PermutedOutcomes(a, b);
    SummaryMeans(a);
    SummaryMeans(b);
  }

  /** Turning one failed case into a passed one raises the score's numerator by one and nothing else but the two counts. */
  lemma OneMorePassed(results: seq<CaseResult>, k: nat, better: CaseResult)
    requires k < |results| && results[k].outcome.Failed? && better.outcome.Passed?
    ensures var s, t := SummaryOf(results), SummaryOf(results[k := better]);
            && s.score.Some? && t.score == Some(Score(s.score.value.numerator + 1, s.score.value.denominator))
            && t == s.(passed := s.passed + 1, failed := s.failed - 1, score := t.score)
  {
    SummaryMeans(results);
    SummaryMeans(results[k := better]);
    assert Outcomes(results[k := better]) == Outcomes(results)[k := Passed];
  }

  /** The score is one exactly when some case passed and none failed. */
  lemma PerfectScore(results: seq<CaseResult>)
    ensures var score := SummaryOf(results).score;
            score.Some? && score.value.numerator == score.value.denominator <==>
              Passed in Outcomes(results) && Failed !in Outcomes(results)
  {
    SummaryMeans(results);
    assert forall outcome :: outcome in Outcomes(results) <==> outcome in multiset(Outcomes(results));
  }

  // ---- Reducing results ----

  ghost predicate Tallied(results: seq<CaseResult>, passed: nat, failed: nat, infrastructureFailed: nat, notAttempted: nat)
  {
    && passed == Count(results, Passed) && failed == Count(results, Failed)
    && infrastructureFailed == Count(results, InfrastructureFailure) && notAttempted == Count(results, NotAttempted)
  }

  lemma TallyBound(results: seq<CaseResult>, passed: nat, failed: nat, infrastructureFailed: nat, notAttempted: nat)
    requires Tallied(results, passed, failed, infrastructureFailed, notAttempted)
    ensures passed <= |results| && failed <= |results| && infrastructureFailed <= |results| && notAttempted <= |results|
  {
    CountBound(results, Passed);
    CountBound(results, Failed);
    CountBound(results, InfrastructureFailure);
    CountBound(results, NotAttempted);
  }

  function One(b: bool): (n: nat) { if b then 1 else 0 }

  lemma TallyNext(results: seq<CaseResult>, k: nat, passed: nat, failed: nat, infrastructureFailed: nat, notAttempted: nat)
    requires k < |results| && Tallied(results[..k], passed, failed, infrastructureFailed, notAttempted)
    ensures var outcome := results[k].outcome;
            Tallied(results[..k + 1], passed + One(outcome.Passed?), failed + One(outcome.Failed?),
                    infrastructureFailed + One(outcome.InfrastructureFailure?), notAttempted + One(outcome.NotAttempted?))
  {
    CountGrows(results, k, Passed);
    CountGrows(results, k, Failed);
    CountGrows(results, k, InfrastructureFailure);
    CountGrows(results, k, NotAttempted);
  }

  /**
   Reduces unique results within their limits. The counters are 64 bits wide: no addition overflows, because there are at
   most as many results as a 64-bit limit allows.
   */
  method Summarize(results: seq<CaseResult>, limits: Limits) returns (r: Result<Summary, EvaluationError>)
    ensures r.Ok? <==> Summarises(results, limits)
    ensures r.Ok? ==> r.value == SummaryOf(results)
    ensures r == Err(InvalidLimits) <==> limits.maxCases == 0 || limits.maxCaseDurationMs == 0
    ensures r == Err(TooManyCases) <==> 0 < limits.maxCases < |results| && 0 < limits.maxCaseDurationMs
    ensures r.Err? && r.error !in {InvalidLimits, TooManyCases} ==>
              exists k :: 0 <= k < |results| && FaultAt(results, limits, k) == Some(r.error) && Faultless(results, limits, k)
  {
    if limits.maxCases == 0 || limits.maxCaseDurationMs == 0 {
      return Err(InvalidLimits);
    }
    if |results| > limits.maxCases {
      return Err(TooManyCases);
    }
    var ids: set<string> := {};
    var passed: u64, failed: u64, infrastructureFailed: u64, notAttempted: u64 := 0, 0, 0, 0;
    for k := 0 to |results|
      invariant forall id :: id in ids <==> exists j :: 0 <= j < k && results[j].caseId == id
      invariant Faultless(results, limits, k)
      invariant Tallied(results[..k], passed, failed, infrastructureFailed, notAttempted)
    {
      var result := results[k];
      if result.caseId in ids {
        assert FaultAt(results, limits, k) == Some(DuplicateCase);
        return Err(DuplicateCase);
      }
      ids := ids + {result.caseId};
      if result.durationMs > limits.maxCaseDurationMs {
        assert FaultAt(results, limits, k) == Some(DurationExceeded);
        return Err(DurationExceeded);
      }
      TallyBound(results[..k], passed, failed, infrastructureFailed, notAttempted);
      TallyNext(results, k, passed, failed, infrastructureFailed, notAttempted);
      match result.outcome {
        case Passed => passed := passed + 1;
        case Failed => failed := failed + 1;
        case InfrastructureFailure => infrastructureFailed := infrastructureFailed + 1;
        case NotAttempted =>
          if ClaimsUse(result) {
            assert FaultAt(results, limits, k) == Some(InvalidNotAttempted);
            return Err(InvalidNotAttempted);
          }
          notAttempted := notAttempted + 1;
      }
    }
    assert results[..|results|] == results;
    SummaryCounts(results);
    var attempted: u64 := passed + failed;
    var score := if attempted == 0 then None else Some(Score(passed, attempted));
    return Ok(Summary(attempted, passed, failed, infrastructureFailed, notAttempted, score));
  }

  // ---- Baselines ----

  const MAX_EVALUATION_ID_BYTES := 256

  const DIGEST_BYTES := 64

  datatype Provenance =
    Provenance(runId: seq<byte>, suiteId: seq<byte>, datasetRevision: seq<byte>, harnessRevision: seq<byte>,
               agentRevision: seq<byte>, dirty: bool, configDigest: seq<byte>)

  datatype Baseline =
    Baseline(runId: seq<byte>, suiteId: seq<byte>, datasetRevision: seq<byte>, harnessRevision: seq<byte>,
             agentRevision: seq<byte>, configDigest: seq<byte>, summary: Summary)

  predicate Bounded(text: seq<byte>)
  {
    text != [] && |text| <= MAX_EVALUATION_ID_BYTES
  }

  predicate IsHexDigit(b: byte)
  {
    48 <= b <= 57 || 65 <= b <= 70 || 97 <= b <= 102
  }

  predicate ValidDigest(digest: seq<byte>)
  {
    |digest| == DIGEST_BYTES && forall k :: 0 <= k < |digest| ==> IsHexDigit(digest[k])
  }

  function Lowered(text: seq<byte>): (r: seq<byte>)
    ensures |r| == |text|
  {
    seq(|text|, k requires 0 <= k < |text| => if 65 <= text[k] <= 90 then text[k] + 32 else text[k])
  }

  function Identity(text: seq<byte>): (r: Result<seq<byte>, EvaluationError>)
  {
    if text == [] then Err(EmptyIdentity)
    else if |text| > MAX_EVALUATION_ID_BYTES then Err(IdentityTooLong)
    else Ok(text)
  }

  function NewBaseline(p: Provenance, summary: Summary): (r: Result<Baseline, EvaluationError>)
  {
    if p.dirty || !Bounded(p.datasetRevision) || !Bounded(p.harnessRevision) || !Bounded(p.agentRevision) || !ValidDigest(p.configDigest)
    then Err(InvalidBaseline)
    else Ok(Baseline(p.runId, p.suiteId, p.datasetRevision, p.harnessRevision, p.agentRevision, Lowered(p.configDigest), summary))
  }
}
