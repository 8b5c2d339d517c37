/**
 * `computeScore` (mini-git-interview/src/lib/scoring.ts) after its database
 * reads: a read-only fold over the session's events, chat messages and test-run
 * records, each already sorted by timestamp, into a composite report.
 */
module Scoring {
  import opened Types
  import opened Strings
  import JsMath

  /** The words whose (case-insensitive) presence marks a message as a request for code. */
  const CodeRequestWords: seq<string> := ["write", "implement", "code", "function", "create"]

  ghost predicate EventsSorted(events: seq<SessionEvent>)
  {
    forall i, j :: 0 <= i < j < |events| ==> events[i].timestamp <= events[j].timestamp
  }

  ghost predicate TimesSorted(times: seq<int>)
  {
    forall i, j :: 0 <= i < j < |times| ==> times[i] <= times[j]
  }

  // ----- process signals -----

  /** `events.filter((e) => e.type === kind).length`. */
  function CountKind(events: seq<SessionEvent>, kind: EventType): (n: nat)
    ensures n <= |events|
  {
    if events == [] then 0
    else (if events[0].kind == kind then 1 else 0) + CountKind(events[1..], kind)
  }

  /** The timestamps of the events of one kind, in log order. */
  function TimesOfKind(events: seq<SessionEvent>, kind: EventType): (times: seq<int>)
    ensures |times| == CountKind(events, kind)
  {
    if events == [] then []
    else (if events[0].kind == kind then [events[0].timestamp] else []) + TimesOfKind(events[1..], kind)
  }

  /**
   * The edit-test cycle fold from a given cursor: a test_run counts when the last
   * change-or-test_run event seen before it was a change.
   */
  function CyclesFrom(events: seq<SessionEvent>, lastType: Option<EventType>): (cycles: nat)
  {
    if events == [] then 0
    else
      var e := events[0];
      var next := if e.kind == Change || e.kind == TestRun then Some(e.kind) else lastType;
      (if e.kind == TestRun && lastType == Some(Change) then 1 else 0) + CyclesFrom(events[1..], next)
  }

  /** `timeToFirstTestRun`: first test_run time minus the session's first event time, when there is a test_run. */
  function FirstTestRunDelay(events: seq<SessionEvent>): (d: Option<int>)
    ensures d.None? <==> CountKind(events, TestRun) == 0
  {
    var times := TimesOfKind(events, TestRun);
    if |times| > 0 && |events| > 0 then Some(times[0] - events[0].timestamp) else None
  }

  /** The mean gap between consecutive test runs, stated in closed form. */
  function MeanGap(times: seq<int>): (m: Option<real>)
    ensures m.None? <==> |times| < 2
  {
    if |times| > 1 then Some((times[|times| - 1] - times[0]) as real / (|times| - 1) as real) else None
  }

  /** The loop over `events` with the `lastType` cursor, which only ever holds change or test_run. */
  method CountEditTestCycles(events: seq<SessionEvent>) returns (cycles: nat)
    ensures cycles == CyclesFrom(events, None)
  {
    cycles := 0;
    var lastType: Option<EventType> := None;
    for i := 0 to |events|
      invariant lastType == None || lastType == Some(Change) || lastType == Some(TestRun)
      invariant cycles + CyclesFrom(events[i..], lastType) == CyclesFrom(events, None)
    {
      var event := events[i];
      assert events[i..][1..] == events[i + 1..];
      if event.kind == TestRun && lastType == Some(Change) {
        cycles := cycles + 1;
      }
      if event.kind == Change || event.kind == TestRun {
        lastType := Some(event.kind);
      }
    }
  }

  /**
   * The `totalGap` loop and the division: the gaps between consecutive test runs
   * telescope, so the mean is (last - first) / (n - 1).
   */
  method AverageGap(times: seq<int>) returns (avg: Option<real>)
    ensures avg == MeanGap(times)
  {
    avg := None;
    if |times| > 1 {
      var totalGap := 0;
      for i := 1 to |times|
        invariant totalGap == times[i - 1] - times[0]
      {
        totalGap := totalGap + (times[i] - times[i - 1]);
      }
      avg := Some(totalGap as real / (|times| - 1) as real);
    }
  }

  // ----- AI-adoption signals -----

  /** `chatMessages.filter((m) => m.role === "user")`. */
  function UserMessages(messages: seq<ChatMessage>): (users: seq<ChatMessage>)
    ensures |users| <= |messages|
    ensures forall k :: 0 <= k < |users| ==> users[k].role == User
  {
    if messages == [] then []
    else (if messages[0].role == User then [messages[0]] else []) + UserMessages(messages[1..])
  }

  function SumLengths(messages: seq<ChatMessage>): (n: nat)
  {
    if messages == [] then 0 else |messages[0].content| + SumLengths(messages[1..])
  }

  /** `Math.round(total length / count)`, 0 for no messages. */
  function AveragePromptLength(users: seq<ChatMessage>): (n: int)
  {
    if |users| > 0 then JsMath.Round(SumLengths(users) as real / |users| as real) else 0
  }

  /** A message asks a question when it contains "?". */
  predicate IsQuestion(m: ChatMessage)
  {
    Contains(m.content, "?")
  }

  /** A message requests code when its lower-cased text contains one of the request words. */
  predicate IsCodeRequest(m: ChatMessage)
  {
    var lower := ToLower(m.content);
    exists w :: w in CodeRequestWords && Contains(lower, w)
  }

  function CountQuestions(messages: seq<ChatMessage>): (n: nat)
    ensures n <= |messages|
  {
    if messages == [] then 0 else (if IsQuestion(messages[0]) then 1 else 0) + CountQuestions(messages[1..])
  }

  function CountCodeRequests(messages: seq<ChatMessage>): (n: nat)
    ensures n <= |messages|
  {
    if messages == [] then 0 else (if IsCodeRequest(messages[0]) then 1 else 0) + CountCodeRequests(messages[1..])
  }

  /** `chatMessages.reduce((sum, m) => sum + m.tokensUsed, 0)`, over every role. */
  function SumTokens(messages: seq<ChatMessage>): (total: int)
  {
    if messages == [] then 0 else messages[0].tokensUsed + SumTokens(messages[1..])
  }

  /**
   * A message is "before" when a first test-run time exists, is truthy (non-zero,
   * as in the source's `firstTestRunTime && ...`), and the message is earlier.
   */
  predicate IsBefore(m: ChatMessage, firstTestRunTime: Option<int>)
  {
    firstTestRunTime.Some? && firstTestRunTime.value != 0 && m.timestamp < firstTestRunTime.value
  }

  function CountBefore(messages: seq<ChatMessage>, firstTestRunTime: Option<int>): (n: nat)
    ensures n <= |messages|
  {
    if messages == [] then 0
    else (if IsBefore(messages[0], firstTestRunTime) then 1 else 0) + CountBefore(messages[1..], firstTestRunTime)
  }

  /** The before/after loop over the user messages. */
  method SplitAroundFirstTestRun(users: seq<ChatMessage>, firstTestRunTime: Option<int>)
    returns (before: nat, after: nat)
    ensures before == CountBefore(users, firstTestRunTime)
    ensures before + after == |users|
  {
    before, after := 0, 0;
    for i := 0 to |users|
      invariant before + after == i
      invariant before + CountBefore(users[i..], firstTestRunTime) == CountBefore(users, firstTestRunTime)
    {
      assert users[i..][1..] == users[i + 1..];
      if IsBefore(users[i], firstTestRunTime) {
        before := before + 1;
      } else {
        after := after + 1;
      }
    }
  }

  // ----- the report -----

  /** The first test_run event's time, if there is one. */
  function FirstTestRunTime(events: seq<SessionEvent>): (t: Option<int>)
    ensures t.None? <==> CountKind(events, TestRun) == 0
  {
    var times := TimesOfKind(events, TestRun);
    if |times| > 0 then Some(times[0]) else None
  }

  /** The report the fold promises, field by field. */
  ghost function ScoreOf(events: seq<SessionEvent>, messages: seq<ChatMessage>, testRuns: seq<TestRunRecord>): (report: ScoringResult)
  {
    var users := UserMessages(messages);
    var before := CountBefore(users, FirstTestRunTime(events));
    ScoringResult(
      if testRuns == [] then 0 else testRuns[|testRuns| - 1].score,
      ProcessSignals(
        CountKind(events, Change),
        CountKind(events, TestRun),
        FirstTestRunDelay(events),
        CyclesFrom(events, None),
        CountKind(events, Paste),
        MeanGap(TimesOfKind(events, TestRun))),
      AIAdoptionSignals(
        |users|,
        AveragePromptLength(users),
        CountQuestions(users),
        CountCodeRequests(users),
        SumTokens(messages),
        before,
        |users| - before))
  }

  /** `computeScore` on the three sorted sequences it reads. */
  method ComputeScore(events: seq<SessionEvent>, messages: seq<ChatMessage>, testRuns: seq<TestRunRecord>)
    returns (result: ScoringResult)
    ensures result == ScoreOf(events, messages, testRuns)
  {
    var correctness := if |testRuns| > 0 then testRuns[|testRuns| - 1].score else 0;

    var testRunTimes := TimesOfKind(events, TestRun);
    var timeToFirstTestRun: Option<int> := None;
    if |testRunTimes| > 0 && |events| > 0 {
      timeToFirstTestRun := Some(testRunTimes[0] - events[0].timestamp);
    }
    var editTestCycles := CountEditTestCycles(events);
    var avgTimeBetweenTestRuns := AverageGap(testRunTimes);
    var processSignals := ProcessSignals(
      CountKind(events, Change), |testRunTimes|, timeToFirstTestRun,
      editTestCycles, CountKind(events, Paste), avgTimeBetweenTestRuns);

    var users := UserMessages(messages);
    var firstTestRunTime := if |testRunTimes| > 0 then Some(testRunTimes[0]) else None;
    var before, after := SplitAroundFirstTestRun(users, firstTestRunTime);
    var aiAdoptionSignals := AIAdoptionSignals(
      |users|, AveragePromptLength(users), CountQuestions(users), CountCodeRequests(users),
      SumTokens(messages), before, after);

    result := ScoringResult(correctness, processSignals, aiAdoptionSignals);
  }

  // ----- properties of the report -----

  /** Every edit-test cycle needs a test_run, and a change before it. */
  lemma {:induction false} CyclesBounded(events: seq<SessionEvent>, lastType: Option<EventType>)
    ensures CyclesFrom(events, lastType) <= CountKind(events, TestRun)
    ensures CyclesFrom(events, lastType) <= CountKind(events, Change) + (if lastType == Some(Change) then 1 else 0)
  {
    if events != [] {
      var e := events[0];
      CyclesBounded(events[1..], if e.kind == Change || e.kind == TestRun then Some(e.kind) else lastType);
    }
  }

  /** In a sorted log, the timestamps of one kind are sorted and none precedes the first event. */
  lemma {:induction false} TimesOfKindSorted(events: seq<SessionEvent>, kind: EventType)
    requires EventsSorted(events)
    ensures TimesSorted(TimesOfKind(events, kind))
    ensures forall k :: 0 <= k < |TimesOfKind(events, kind)| ==> events[0].timestamp <= TimesOfKind(events, kind)[k]
  {
    if events != [] {
      var rest := events[1..];
      assert EventsSorted(rest);
      TimesOfKindSorted(rest, kind);
      if rest != [] {
        assert events[0].timestamp <= rest[0].timestamp;
      }
    }
  }

  /** The report's counts are consistent with each other. */
  lemma ReportCounts(events: seq<SessionEvent>, messages: seq<ChatMessage>, testRuns: seq<TestRunRecord>)
    ensures var r := ScoreOf(events, messages, testRuns).processSignals;
      && r.editTestCycles <= r.testRunCount
      && r.editTestCycles <= r.totalEditorChanges
      && (r.timeToFirstTestRun.None? <==> r.testRunCount == 0)
      && (r.avgTimeBetweenTestRuns.None? <==> r.testRunCount < 2)
    ensures var a := ScoreOf(events, messages, testRuns).aiAdoptionSignals;
      && a.questionsAsked <= a.totalMessages
      && a.codeRequestCount <= a.totalMessages
      && a.messagesBeforeFirstTestRun + a.messagesAfterFirstTestRun == a.totalMessages
      && (CountKind(events, TestRun) == 0 ==> a.messagesBeforeFirstTestRun == 0)
  {
    CyclesBounded(events, None);
    var users := UserMessages(messages);
    if CountKind(events, TestRun) == 0 {
      NothingBefore(users);
    }
  }

  /** Without a first test-run time, or with the falsy time 0, no message counts as "before". */
  lemma {:induction false} NothingBefore(messages: seq<ChatMessage>)
    ensures CountBefore(messages, None) == 0
    ensures CountBefore(messages, Some(0)) == 0
  {
    if messages != [] {
      NothingBefore(messages[1..]);
    }
  }

  /** On a sorted log the time to the first test run and the mean gap are never negative. */
  lemma SortedLogTimes(events: seq<SessionEvent>, messages: seq<ChatMessage>, testRuns: seq<TestRunRecord>)
    requires EventsSorted(events)
    ensures var r := ScoreOf(events, messages, testRuns).processSignals;
      && (r.timeToFirstTestRun.Some? ==> r.timeToFirstTestRun.value >= 0)
      && (r.avgTimeBetweenTestRuns.Some? ==> r.avgTimeBetweenTestRuns.value >= 0.0)
  {
    var times := TimesOfKind(events, TestRun);
    TimesOfKindSorted(events, TestRun);
    if |times| > 1 {
      var span := (times[|times| - 1] - times[0]) as real;
      var n := (|times| - 1) as real;
      assert span >= 0.0;
      assert (span / n) * n == span;
    }
  }

  /** The summed lengths of messages whose lengths all lie in [lo, hi] lie in [n lo, n hi]. */
  lemma {:induction false} SumLengthsBounds(messages: seq<ChatMessage>, lo: nat, hi: nat)
    requires forall k :: 0 <= k < |messages| ==> lo <= |messages[k].content| <= hi
    ensures |messages| * lo <= SumLengths(messages) <= |messages| * hi
  {
    if messages != [] {
      SumLengthsBounds(messages[1..], lo, hi);
    }
  }

  /**
   * The average prompt length is 0 without user messages; otherwise it lies
   * between the shortest and longest message lengths, and equals the common
   * length when all messages are equally long.
   */
  lemma AveragePromptLengthBounds(users: seq<ChatMessage>, lo: nat, hi: nat)
    requires forall k :: 0 <= k < |users| ==> lo <= |users[k].content| <= hi
    ensures users == [] ==> AveragePromptLength(users) == 0
    ensures users != [] ==> lo <= AveragePromptLength(users) <= hi
  {
    if users != [] {
      SumLengthsBounds(users, lo, hi);
      var S, n := SumLengths(users) as real, |users| as real;
      QuotientBetween(S, n, lo as real, hi as real);
      JsMath.RoundFacts(lo as real, S / n, lo);
      JsMath.RoundFacts(S / n, hi as real, hi);
    }
  }

  /** Dividing `n lo <= S <= n hi` by a positive `n`. */
  lemma QuotientBetween(S: real, n: real, lo: real, hi: real)
    requires n > 0.0 && n * lo <= S <= n * hi
    ensures lo <= S / n <= hi
  {
    assert (S / n) * n == S;
  }

  /** Token totals include assistant messages: appending any message adds its tokens. */
  lemma {:induction false} SumTokensAppend(messages: seq<ChatMessage>, m: ChatMessage)
    ensures SumTokens(messages + [m]) == SumTokens(messages) + m.tokensUsed
  {
    if messages == [] {
      assert [m][1..] == [];
    } else {
      assert (messages + [m])[1..] == messages[1..] + [m];
      SumTokensAppend(messages[1..], m);
    }
  }
}
