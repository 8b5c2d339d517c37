/**
 * `runTestsInIsolate` (mini-git-interview/src/lib/test-runner.ts): one result per
 * catalogue test, classified from what the sandboxed run produced, then
 * tier-weighted scoring. The sandbox itself is replaced by an opaque outcome per
 * test; points are integer hundredths (the source's `Math.round(x * 100) / 100`).
 */
module TestRunner {
  import opened Types
  import opened Strings
  import JsMath
  import opened TestSuite

  /** The text isolated-vm puts in the error it raises when a script exceeds its timeout. */
  const TimeoutMarker: string := "Script execution timed out"
  /** The fixed error text recorded for a timed-out test. */
  const TimeoutText: string := "Test timed out (5s limit)"
  /** The error text recorded when the thrown error carries no message. */
  const UnknownErrorText: string := "Unknown error"

  /**
   * What running one test in a fresh context produced: normal completion, a
   * thrown error (compile error, runtime exception, failed assertion, memory
   * limit) with its `message` if it has one, or the sandbox's timeout.
   */
  datatype Outcome = Completed | Threw(message: Option<string>) | TimedOut

  /** The error text stored for a failed test (the `catch` block). */
  function ErrorText(o: Outcome): (text: string)
    requires !o.Completed?
    ensures o.TimedOut? ==> text == TimeoutText
    ensures o.Threw? && o.message.Some? && Contains(o.message.value, TimeoutMarker) ==> text == TimeoutText
    ensures o.Threw? && o.message.Some? && !Contains(o.message.value, TimeoutMarker) && o.message.value != []
            ==> text == o.message.value
    ensures o.Threw? && (o.message.None? || o.message.value == []) ==> text == UnknownErrorText
    ensures text != []
  {
    match o
    case TimedOut => TimeoutText
    case Threw(None) => UnknownErrorText
    case Threw(Some(m)) =>
      if Contains(m, TimeoutMarker) then TimeoutText
      else if m == [] then UnknownErrorText
      else m
  }

  /** The result pushed for one test: name, tier and visibility copied from the test. */
  function ResultFor(test: TestCase, o: Outcome): (r: TestResult)
    ensures r.name == test.name && r.tier == test.tier && r.visible == test.visible
    ensures r.passed <==> o.Completed?
    ensures r.error.None? <==> r.passed
    ensures r.error.Some? ==> r.error.value != []
    ensures !o.Completed? ==> r.error == Some(ErrorText(o))
  {
    if o.Completed? then TestResult(test.name, test.tier, true, None, test.visible)
    else TestResult(test.name, test.tier, false, Some(ErrorText(o)), test.visible)
  }

  /** The results of a whole run, one per catalogue entry, in catalogue order. */
  ghost function ResultsOf(outcomes: seq<Outcome>): (rs: seq<TestResult>)
    requires |outcomes| == |Catalogue|
    ensures |rs| == |Catalogue|
  {
    seq(|Catalogue|, i requires 0 <= i < |Catalogue| => ResultFor(Catalogue[i], outcomes[i]))
  }

  /** Number of passed results of tier `tier`. */
  function CountPassed(results: seq<TestResult>, tier: int): (n: nat)
    ensures n <= CountResultTier(results, tier) <= |results|
  {
    if results == [] then 0
    else CountPassed(results[..|results| - 1], tier)
         + (if results[|results| - 1].tier == tier && results[|results| - 1].passed then 1 else 0)
  }

  /** Number of results of tier `tier`, passed or not. */
  function CountResultTier(results: seq<TestResult>, tier: int): (n: nat)
    ensures n <= |results|
  {
    if results == [] then 0
    else CountResultTier(results[..|results| - 1], tier) + (if results[|results| - 1].tier == tier then 1 else 0)
  }

  /** `tierTestCounts[tier] || 1`: the divisor for a tier, 1 when the tier has no tests. */
  function TotalForTier(tier: int): (n: nat)
    ensures n >= 1
    ensures CountTier(Catalogue, tier) > 0 ==> n == CountTier(Catalogue, tier)
  {
    if CountTier(Catalogue, tier) > 0 then CountTier(Catalogue, tier) else 1
  }

  /** `Math.round((passed / total) * points * 100)`: a tier's points in hundredths. */
  function TierScore(passedCount: nat, totalCount: nat, points: nat): (h: int)
    requires totalCount > 0
  {
    JsMath.Round((passedCount as real / totalCount as real) * points as real * 100.0)
  }

  /** The rounded share in integer arithmetic: `(2 passed points 100 + total) / (2 total)`. */
  lemma TierScoreQuotient(passedCount: nat, totalCount: nat, points: nat)
    requires totalCount > 0
    ensures TierScore(passedCount, totalCount, points)
            == (2 * (passedCount * points * 100) + totalCount) / (2 * totalCount)
  {
    var a := passedCount * points * 100;
    var p, t := passedCount as real, totalCount as real;
    assert (p / t) * points as real * 100.0 == a as real / t by {
      assert a as real == p * points as real * 100.0;
    }
    JsMath.RoundQuotient(a, totalCount);
  }

  /**
   * A tier score lies in [0, points]; it is the full budget when every test of
   * the tier passes and 0 when none does; and when the budget is worth more than
   * half a hundredth per test, any failure costs points.
   */
  lemma TierScoreBounds(passedCount: nat, totalCount: nat, points: nat)
    requires 0 < totalCount && passedCount <= totalCount
    ensures 0 <= TierScore(passedCount, totalCount, points) <= points * 100
    ensures passedCount == totalCount ==> TierScore(passedCount, totalCount, points) == points * 100
    ensures passedCount == 0 ==> TierScore(passedCount, totalCount, points) == 0
    ensures passedCount < totalCount && 2 * points * 100 > totalCount
            ==> TierScore(passedCount, totalCount, points) < points * 100
  {
    var p, t := passedCount as real, totalCount as real;
    var f := p / t;
    var P := points * 100;
    assert f * points as real * 100.0 == f * P as real;
    JsMath.FractionRange(p, t);
    JsMath.RoundFraction(f, P);
    if passedCount < totalCount && 2 * P > totalCount {
      JsMath.DivMono(p, t - 1.0, t);
      assert (t - 1.0) / t == 1.0 - 1.0 / t;
      JsMath.RoundLoss(f, P, t);
    }
  }

  /** A tier's score in a run: its passed count against the catalogue's count for that tier. */
  ghost function TierScoreOf(results: seq<TestResult>, tier: Tier): (h: int)
  {
    TierScore(CountPassed(results, tier), TotalForTier(tier), TierPoints(tier))
  }

  /** The total score: the sum of the five tier scores. */
  ghost function TotalScore(results: seq<TestResult>): (total: int)
  {
    TierScoreOf(results, 1) + TierScoreOf(results, 2) + TierScoreOf(results, 3)
    + TierScoreOf(results, 4) + TierScoreOf(results, 5)
  }

  /**
   * The run: every catalogue test in order, then the tier scores, then their sum.
   * `tierScores` is keyed by tier number (the source's keys are "tier1".."tier5").
   */
  method RunTests(outcomes: seq<Outcome>) returns (results: seq<TestResult>, score: int, tierScores: map<int, int>)
    requires |outcomes| == |Catalogue|
    ensures results == ResultsOf(outcomes)
    ensures forall t :: t in tierScores <==> 1 <= t <= 5
    ensures forall t :: 1 <= t <= 5 ==> tierScores[t] == TierScoreOf(results, t)
    ensures score == TotalScore(results)
    ensures score == tierScores[1] + tierScores[2] + tierScores[3] + tierScores[4] + tierScores[5]
  {
    results := RunEachTest(outcomes);
    tierScores := ScoreTiers(results);
    score := tierScores[1] + tierScores[2] + tierScores[3] + tierScores[4] + tierScores[5];
  }

  /** The `for (const test of testSuite)` loop: classify each outcome and push its result. */
  method RunEachTest(outcomes: seq<Outcome>) returns (results: seq<TestResult>)
    requires |outcomes| == |Catalogue|
    ensures results == ResultsOf(outcomes)
  {
    results := ClassifyEach(Catalogue, outcomes);
  }

  /** The loop body over any suite: one result per test, in order. */
  method ClassifyEach(suite: seq<TestCase>, outcomes: seq<Outcome>) returns (results: seq<TestResult>)
    requires |outcomes| == |suite|
    ensures |results| == |suite|
    ensures forall k :: 0 <= k < |suite| ==> results[k] == ResultFor(suite[k], outcomes[k])
  {
    results := [];
    for i := 0 to |suite|
      invariant |results| == i
      invariant forall k :: 0 <= k < i ==> results[k] == ResultFor(suite[k], outcomes[k])
    {
      var test := suite[i];
      var passed := false;
      var error: Option<string> := None;
      match outcomes[i] {
        case Completed => passed := true;
        case _ => error := Some(ErrorText(outcomes[i]));
      }
      results := results + [TestResult(test.name, test.tier, passed, error, test.visible)];
    }
  }

  /** The `for (tier = 1..5)` loop: each tier's passed count against `tierTestCounts[tier] || 1`. */
  method ScoreTiers(results: seq<TestResult>) returns (tierScores: map<int, int>)
    ensures forall t :: t in tierScores <==> 1 <= t <= 5
    ensures forall t :: 1 <= t <= 5 ==> tierScores[t] == TierScoreOf(results, t)
  {
    var tierTestCounts := TierTestCounts(Catalogue);
    tierScores := map[];
    for tier := 1 to 6
      invariant forall t :: t in tierScores <==> 1 <= t < tier
      invariant forall t :: 1 <= t < tier ==> tierScores[t] == TierScoreOf(results, t)
    {
      var passedCount := CountPassed(results, tier);
      var totalCount := if tier in tierTestCounts && tierTestCounts[tier] != 0 then tierTestCounts[tier] else 1;
      var points := TierPoints(tier);
      tierScores := tierScores[tier := TierScore(passedCount, totalCount, points)];
    }
  }

  /** Results line up with the catalogue: same length, same tier at every position. */
  lemma ResultsTiers(outcomes: seq<Outcome>)
    requires |outcomes| == |Catalogue|
    ensures |ResultsOf(outcomes)| == |Catalogue|
    ensures forall i :: 0 <= i < |Catalogue| ==> ResultsOf(outcomes)[i].tier == Catalogue[i].tier
  {
  }

  /** Passed results of a tier never outnumber the suite's tests of that tier, when tiers line up. */
  lemma {:induction false} PassedAtMostTierCount(results: seq<TestResult>, suite: seq<TestCase>, tier: int)
    requires |results| == |suite|
    requires forall i :: 0 <= i < |suite| ==> results[i].tier == suite[i].tier
    ensures CountPassed(results, tier) <= CountResultTier(results, tier) == CountTier(suite, tier)
  {
    if results != [] {
      PassedAtMostTierCount(results[..|results| - 1], suite[..|suite| - 1], tier);
    }
  }

  /** Pointwise facts about passes give the passed count. */
  lemma {:induction false} CountPassedCases(results: seq<TestResult>, tier: int)
    ensures (forall i :: 0 <= i < |results| && results[i].tier == tier ==> results[i].passed)
            ==> CountPassed(results, tier) == CountResultTier(results, tier)
    ensures (forall i :: 0 <= i < |results| && results[i].tier == tier ==> !results[i].passed)
            ==> CountPassed(results, tier) == 0
  {
    if results != [] {
      var init := results[..|results| - 1];
      assert forall i :: 0 <= i < |init| ==> init[i] == results[i];
      CountPassedCases(init, tier);
    }
  }

  /** The `|| 1` fallback is never taken for this catalogue: every tier has at least one test. */
  lemma FallbackNeverTaken(tier: Tier)
    ensures CountTier(Catalogue, tier) >= 4
    ensures TotalForTier(tier) == CountTier(Catalogue, tier)
  {
    CatalogueTierCounts();
  }

  /** Each tier's score lies in [0, TierPoints(t)] hundredths; the full budget exactly when all of its tests pass. */
  lemma TierScoreInRange(outcomes: seq<Outcome>, tier: Tier)
    requires |outcomes| == |Catalogue|
    ensures 0 <= TierScoreOf(ResultsOf(outcomes), tier) <= TierPoints(tier) * 100
    ensures TierScoreOf(ResultsOf(outcomes), tier) == TierPoints(tier) * 100
            <==> CountPassed(ResultsOf(outcomes), tier) == CountTier(Catalogue, tier)
    ensures CountPassed(ResultsOf(outcomes), tier) == 0 ==> TierScoreOf(ResultsOf(outcomes), tier) == 0
  {
    var results := ResultsOf(outcomes);
    ResultsTiers(outcomes);
    PassedAtMostTierCount(results, Catalogue, tier);
    FallbackNeverTaken(tier);
    CatalogueTierCounts();
    TierScoreBounds(CountPassed(results, tier), TotalForTier(tier), TierPoints(tier));
  }

  /** The total score lies in [0, 100] points, that is [0, 10000] hundredths. */
  lemma TotalScoreInRange(outcomes: seq<Outcome>)
    requires |outcomes| == |Catalogue|
    ensures 0 <= TotalScore(ResultsOf(outcomes)) <= 10000
  {
    TierScoreInRange(outcomes, 1);
    TierScoreInRange(outcomes, 2);
    TierScoreInRange(outcomes, 3);
    TierScoreInRange(outcomes, 4);
    TierScoreInRange(outcomes, 5);
  }

  /** A submission that passes exactly the tier-1 tests scores 25.00 in tier 1 and 25.00 overall. */
  lemma ExactlyTierOnePasses(outcomes: seq<Outcome>)
    requires |outcomes| == |Catalogue|
    requires forall i :: 0 <= i < |Catalogue| ==> (outcomes[i].Completed? <==> Catalogue[i].tier == 1)
    ensures TierScoreOf(ResultsOf(outcomes), 1) == 2500
    ensures TotalScore(ResultsOf(outcomes)) == 2500
  {
    var results := ResultsOf(outcomes);
    ResultsTiers(outcomes);
    CatalogueTierCounts();
    BudgetsSumToHundred();
    forall t: Tier ensures CountPassed(results, t) == if t == 1 then CountTier(Catalogue, 1) else 0 {
      CountPassedCases(results, t);
      PassedAtMostTierCount(results, Catalogue, t);
    }
    forall t: Tier ensures TierScoreOf(results, t) == if t == 1 then 2500 else 0 {
      FallbackNeverTaken(t);
      TierScoreBounds(CountPassed(results, t), TotalForTier(t), TierPoints(t));
    }
  }

  /** A submission on which every test throws (a syntax error, say): every result failed with a message, score 0. */
  lemma EverythingThrows(outcomes: seq<Outcome>)
    requires |outcomes| == |Catalogue|
    requires forall i :: 0 <= i < |outcomes| ==> outcomes[i].Threw?
    ensures |ResultsOf(outcomes)| == |Catalogue|
    ensures forall i :: 0 <= i < |Catalogue| ==>
              !ResultsOf(outcomes)[i].passed && ResultsOf(outcomes)[i].error.Some?
              && ResultsOf(outcomes)[i].error.value != []
    ensures TotalScore(ResultsOf(outcomes)) == 0
  {
    var results := ResultsOf(outcomes);
    forall t: Tier ensures TierScoreOf(results, t) == 0 {
      CountPassedCases(results, t);
      FallbackNeverTaken(t);
      TierScoreBounds(0, TotalForTier(t), TierPoints(t));
    }
  }
}
