/**
 * The POST handler of mini-git-interview/src/app/api/run-tests/route.ts, without
 * its persistence: request validation, the run, and the split of the results
 * into the visible ones and a count-only summary of the hidden ones.
 */
module RunTestsRoute {
  import opened Types
  import opened TestSuite
  import opened TestRunner

  const MissingFieldsError: string := "sessionId and code are required"
  const SessionNotFoundError: string := "Session not found"

  /** JavaScript truthiness of a request field: present and not the empty string. */
  predicate Truthy(field: Option<string>)
  {
    field.Some? && field.value != []
  }

  /** The count-only view of the hidden tiers: no names, no error text. */
  datatype HiddenSummary = HiddenSummary(total: nat, passed: nat)

  datatype Response =
    | BadRequest(error: string)
    | NotFound(error: string)
    | Graded(results: seq<TestResult>, score: int, tierScores: map<int, int>,
             visibleResults: seq<TestResult>, hiddenSummary: HiddenSummary)

  /** `results.filter((r) => r.visible)`. */
  function VisibleResults(results: seq<TestResult>): (v: seq<TestResult>)
    ensures |v| <= |results|
    ensures forall k :: 0 <= k < |v| ==> v[k].visible
  {
    if results == [] then []
    else
      var last := results[|results| - 1];
      VisibleResults(results[..|results| - 1]) + (if last.visible then [last] else [])
  }

  /** `results.filter((r) => !r.visible)`. */
  function HiddenResults(results: seq<TestResult>): (h: seq<TestResult>)
    ensures |h| <= |results|
    ensures forall k :: 0 <= k < |h| ==> !h[k].visible
  {
    if results == [] then []
    else
      var last := results[|results| - 1];
      HiddenResults(results[..|results| - 1]) + (if last.visible then [] else [last])
  }

  /** Number of passed entries. */
  function CountPassedResults(results: seq<TestResult>): (n: nat)
    ensures n <= |results|
  {
    if results == [] then 0
    else CountPassedResults(results[..|results| - 1]) + (if results[|results| - 1].passed then 1 else 0)
  }

  /** `{ total: hidden.length, passed: hidden.filter((r) => r.passed).length }`. */
  function Summarize(results: seq<TestResult>): (s: HiddenSummary)
    ensures s.passed <= s.total <= |results|
  {
    var hidden := HiddenResults(results);
    HiddenSummary(|hidden|, CountPassedResults(hidden))
  }

  /** Reference counts, taken directly over the results. */
  function CountVisible(results: seq<TestResult>): (n: nat)
  {
    if results == [] then 0
    else CountVisible(results[..|results| - 1]) + (if results[|results| - 1].visible then 1 else 0)
  }

  function CountHiddenPassed(results: seq<TestResult>): (n: nat)
  {
    if results == [] then 0
    else
      var last := results[|results| - 1];
      CountHiddenPassed(results[..|results| - 1]) + (if !last.visible && last.passed then 1 else 0)
  }

  /** `idx` lists, in increasing order, the positions of `b` that `a` is made of. */
  ghost predicate Embeds(a: seq<TestResult>, b: seq<TestResult>, idx: seq<int>)
  {
    && |idx| == |a|
    && (forall k :: 0 <= k < |a| ==> 0 <= idx[k] < |b| && a[k] == b[idx[k]])
    && (forall k, l :: 0 <= k < l < |a| ==> idx[k] < idx[l])
  }

  /** `a` is `b` with some entries dropped and the rest kept in order. */
  ghost predicate IsSubsequence(a: seq<TestResult>, b: seq<TestResult>)
  {
    exists idx :: Embeds(a, b, idx)
  }

  /**
   * The visible results are exactly the visible entries in their original order:
   * a subsequence of the input, all visible, and as many as the input has visible entries.
   */
  lemma {:induction false} VisibleResultsExact(results: seq<TestResult>)
    ensures IsSubsequence(VisibleResults(results), results)
    ensures |VisibleResults(results)| == CountVisible(results)
  {
    var idx := VisibleIndices(results);
  }

  /** The embedding of the visible results into the input, built alongside the filter. */
  lemma {:induction false} VisibleIndices(results: seq<TestResult>) returns (idx: seq<int>)
    ensures Embeds(VisibleResults(results), results, idx)
    ensures |VisibleResults(results)| == CountVisible(results)
  {
    if results == [] {
      idx := [];
    } else {
      var n := |results| - 1;
      var init := results[..n];
      var prev := VisibleIndices(init);
      var v := VisibleResults(init);
      assert forall j :: 0 <= j < n ==> init[j] == results[j];
      if results[n].visible {
        assert VisibleResults(results) == v + [results[n]];
        idx := prev + [n];
        assert forall k :: 0 <= k < |v| ==> idx[k] == prev[k] < n;
      } else {
        assert VisibleResults(results) == v;
        idx := prev;
      }
    }
  }

  /**
   * The partition loses nothing: the visible results and the hidden total add up
   * to all results; the hidden `passed` counts the hidden passed entries and is at most `total`.
   */
  lemma {:induction false} PartitionCounts(results: seq<TestResult>)
    ensures |VisibleResults(results)| + Summarize(results).total == |results|
    ensures Summarize(results).passed == CountHiddenPassed(results)
    ensures Summarize(results).passed <= Summarize(results).total
  {
    if results != [] {
      var n := |results| - 1;
      var init := results[..n];
      PartitionCounts(init);
      var h := HiddenResults(results);
      if !results[n].visible {
        assert h[..|h| - 1] == HiddenResults(init);
      } else {
        assert h == HiddenResults(init);
      }
    }
  }

  /**
   * The summary reveals nothing about hidden entries beyond visibility and pass/fail:
   * two runs that agree on those give the same summary, whatever their names and errors.
   */
  lemma {:induction false} SummaryHidesIdentity(a: seq<TestResult>, b: seq<TestResult>)
    requires |a| == |b|
    requires forall i :: 0 <= i < |a| ==> a[i].visible == b[i].visible && a[i].passed == b[i].passed
    ensures Summarize(a) == Summarize(b)
  {
    PartitionCounts(a);
    PartitionCounts(b);
    VisibleResultsExact(a);
    VisibleResultsExact(b);
    SameVisibility(a, b);
  }

  lemma {:induction false} SameVisibility(a: seq<TestResult>, b: seq<TestResult>)
    requires |a| == |b|
    requires forall i :: 0 <= i < |a| ==> a[i].visible == b[i].visible && a[i].passed == b[i].passed
    ensures CountVisible(a) == CountVisible(b) && CountHiddenPassed(a) == CountHiddenPassed(b)
  {
    if a != [] {
      SameVisibility(a[..|a| - 1], b[..|b| - 1]);
    }
  }

  /**
   * The handler: a missing or empty `sessionId` or `code` is rejected before
   * anything runs; an unknown session (`sessionFound`, the database lookup) is a
   * 404; otherwise the catalogue runs with `outcomes` standing for the sandboxed
   * runs of `code`, and the response carries the full results, the scores, the
   * visible results and the hidden summary.
   */
  method Post(sessionId: Option<string>, code: Option<string>, sessionFound: bool, outcomes: seq<Outcome>)
    returns (response: Response)
    requires |outcomes| == |Catalogue|
    ensures !(Truthy(sessionId) && Truthy(code)) <==> response == BadRequest(MissingFieldsError)
    ensures Truthy(sessionId) && Truthy(code) && !sessionFound ==> response == NotFound(SessionNotFoundError)
    ensures response.Graded? <==> Truthy(sessionId) && Truthy(code) && sessionFound
    ensures response.Graded? ==>
              && response.results == ResultsOf(outcomes)
              && response.score == TotalScore(response.results)
              && (forall t :: 1 <= t <= 5 ==> t in response.tierScores && response.tierScores[t] == TierScoreOf(response.results, t))
              && response.visibleResults == VisibleResults(response.results)
              && response.hiddenSummary == Summarize(response.results)
  {
    if !Truthy(sessionId) || !Truthy(code) {
      return BadRequest(MissingFieldsError);
    }
    if !sessionFound {
      return NotFound(SessionNotFoundError);
    }
    var results, score, tierScores := RunTests(outcomes);
    var visibleResults := VisibleResults(results);
    var hiddenSummary := Summarize(results);
    response := Graded(results, score, tierScores, visibleResults, hiddenSummary);
  }

  /** For this catalogue a run always shows 13 results and summarises 15 hidden ones. */
  lemma CatalogueSplit(outcomes: seq<Outcome>)
    requires |outcomes| == |Catalogue|
    ensures |VisibleResults(ResultsOf(outcomes))| == 13
    ensures Summarize(ResultsOf(outcomes)).total == 15
  {
    var results := ResultsOf(outcomes);
    VisibleResultsExact(results);
    PartitionCounts(results);
    CatalogueVisibility();
    VisibleByTier(results, Catalogue);
    CatalogueTierCounts();
  }

  /** When visibility is `tier <= 2` throughout and tiers follow the suite, visible entries are the tier-1 and tier-2 ones. */
  lemma {:induction false} VisibleByTier(results: seq<TestResult>, suite: seq<TestCase>)
    requires |results| == |suite|
    requires forall i :: 0 <= i < |suite| ==> results[i].tier == suite[i].tier && (results[i].visible <==> suite[i].tier <= 2)
    ensures CountVisible(results) == CountTier(suite, 1) + CountTier(suite, 2)
  {
    if results != [] {
      VisibleByTier(results[..|results| - 1], suite[..|suite| - 1]);
    }
  }
}
