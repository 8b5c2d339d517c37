# mini-git-interview, modelled in Dafny

mini-git-interview is a coding-interview platform. A candidate writes a `MiniGit` JavaScript class in a browser editor. The server runs it against a fixed catalogue of 28 tests in five tiers and grades it by tier-weighted points. The response carries every result; the candidate's page lists tiers 1 and 2 test by test and shows tiers 3 to 5 only as a pass count and tier points. While the candidate works, a browser-side recorder buffers editor, chat and test-run events and sends them to the server in batches. The chat assistant is given a bounded context: the editor code and a few recent messages under a token budget. At the end, a scoring fold turns the session's event log, chat log and test-run records into a composite report.

This project models that logic:

| file | module | what it holds |
|---|---|---|
| `types.dfy` | `Types` | the record shapes: test cases and results, session events, chat messages, the context report, the scoring report |
| `strings.dfy` | `Strings` | JavaScript `includes` and ASCII `toLowerCase` |
| `js_math.dfy` | `JsMath` | `Math.round` and `Math.ceil` on exact reals, with their integer-division forms |
| `test_suite.dfy` | `TestSuite` | the catalogue, which derives visibility from the tier; the points table; the per-tier count loop |
| `test_runner.dfy` | `TestRunner` | classifying each test's outcome into a result; the tier scores and the total |
| `run_tests_route.dfy` | `RunTestsRoute` | request validation for the run-tests endpoint; the visible/hidden partition of the results |
| `scoring.dfy` | `Scoring` | the session scoring fold, with its three loops as methods proved against a reference report `ScoreOf` |
| `context_manager.dfy` | `ContextManager` | token estimates, the editor-code cap, and the greedy newest-first message selection |
| `session_recorder.dfy` | `SessionRecorder` | the recorder as a class whose fields the methods update; `flush` is split at its `await` into `BeginFlush` and `CompleteFlush` |

Units and representations:

- Scores are integer hundredths of a point. A tier worth 25 points scores between 0 and 2500, and the total lies between 0 and 10000. This matches the source's `Math.round(x * 100) / 100`, but keeps the value before the division by 100.
- Timestamps are integers (milliseconds).
- The sandboxed run of one test is an abstract `Outcome`: it completed, it threw (with or without a message), or it timed out.
- The assistant's system-prompt text is a parameter of `BuildChatMessages`.
- The recorder's clock is a `now` parameter of each `Record…` method.
- Whether the event endpoint accepted a batch is the `ok` parameter of `CompleteFlush`.

The recorder's ghost fields track where every recorded event is. `Valid()` states that each one is in exactly one place: delivered, in flight, or buffered. Every method preserves this, so a failed request never loses or duplicates an event.

Two behaviours of the code are worth stating plainly:

- **Context and compilation failures stay per test.** All 28 tests share one isolate, created once before the loop (mini-git-interview/src/lib/test-runner.ts:17). Each test's context creation, script compilation and run sit inside the per-test `try` (test-runner.ts:24-58), so a failure there becomes that one test's error and the loop goes on.
- **Error text on hidden tests.** Every failed result carries error text, hidden tiers included (test-runner.ts:51-66).

## Model

| member | source | states |
|---|---|---|
| `TestSuite.MakeTest` | mini-git-interview/src/lib/test-suite.ts:3-10 | an entry keeps its name and tier, and is visible exactly when its tier is 1 or 2 |
| `TestSuite.CatalogueVisibility` | mini-git-interview/src/lib/test-suite.ts:12-450 | the catalogue has 28 entries, and every entry's visibility is `tier <= 2` |
| `TestSuite.CatalogueOrderedByTier` | mini-git-interview/src/lib/test-suite.ts:12-450 | catalogue entries appear in non-decreasing tier order |
| `TestSuite.TierPoints` | mini-git-interview/src/lib/test-suite.ts:453-459 | a tier outside the points table is worth 0; a tier in it is worth its table value |
| `TestSuite.BudgetsSumToHundred` | mini-git-interview/src/lib/test-suite.ts:453-459 | the table's keys are exactly 1..5, and the five budgets add up to 100 points |
| `TestSuite.TierTestCounts` | mini-git-interview/src/lib/test-suite.ts:462-465 | after the loop, a key is present exactly when some entry has that tier, and its value is the number of such entries |
| `TestSuite.CatalogueTierCounts` | mini-git-interview/src/lib/test-suite.ts:462-465 | the tier counts are 7, 6, 6, 4 and 5; every other key counts 0; the five counts add up to the catalogue's length |
| `TestSuite.CountTierAppend` | mini-git-interview/src/lib/test-suite.ts:463-465 | the count of a tier over two concatenated suites is the sum of the two counts |
| `TestSuite.CountUniformBlock` | mini-git-interview/src/lib/test-suite.ts:13-97 | a single-tier block counts its full length at its tier and 0 at any other |
| `TestRunner.ErrorText` | mini-git-interview/src/lib/test-runner.ts:51-57 | a timeout, or any message containing the sandbox's timeout text, becomes "Test timed out (5s limit)"; a missing or empty message becomes "Unknown error"; any other message is kept; the text is never empty |
| `TestRunner.ResultFor` | mini-git-interview/src/lib/test-runner.ts:20-66 | name, tier and visibility are copied from the test; `passed` holds exactly when the run completed; `error` is absent exactly when the test passed; a failed result's error is the `catch` block's text for its outcome, which is never empty |
| `TestRunner.ClassifyEach` | mini-git-interview/src/lib/test-runner.ts:20-67 | over any suite, the loop pushes exactly one result per test, in order, each classified from that test's outcome |
| `TestRunner.ResultsOf` | mini-git-interview/src/lib/test-runner.ts:20-66 | the results of a whole run: one per catalogue test, in catalogue order, each `ResultFor` that test's outcome; `RunEachTest` and `Post` are tied to it |
| `TestRunner.RunEachTest` | mini-git-interview/src/lib/test-runner.ts:20-67 | the loop yields exactly one result per catalogue test, in catalogue order, each classified from that test's outcome |
| `TestRunner.TotalForTier` | mini-git-interview/src/lib/test-runner.ts:77 | the divisor is at least 1, and it equals the tier's count whenever that count is non-zero |
| `TestRunner.TierScoreOf` | mini-git-interview/src/lib/test-runner.ts:75-79 | a tier's score in a run: its passed count against the catalogue's count for the tier, weighted by its points; `ScoreTiers`, `RunTests` and `TierScoreInRange` are stated over it |
| `TestRunner.TierScore` | mini-git-interview/src/lib/test-runner.ts:79 | `Math.round((passed / total) * points * 100)`; its range and extremes are stated by `TierScoreBounds`, its integer form by `TierScoreQuotient` |
| `TestRunner.TierScoreQuotient` | mini-git-interview/src/lib/test-runner.ts:79 | the rounded share equals the integer division (2·passed·points·100 + total) / (2·total) |
| `TestRunner.CountPassed` | mini-git-interview/src/lib/test-runner.ts:75-76 | the passed results of a tier never outnumber that tier's results, nor all results |
| `TestRunner.TotalScore` | mini-git-interview/src/lib/test-runner.ts:82 | the total score of a run; `TotalScoreInRange` proves it lies in 0..100 points |
| `TestRunner.TierScoreBounds` | mini-git-interview/src/lib/test-runner.ts:79 | a tier score lies in 0..points×100. It is the full budget when every test of the tier passes and 0 when none passes. When the budget exceeds half a hundredth per test, any failure costs points |
| `TestRunner.ScoreTiers` | mini-git-interview/src/lib/test-runner.ts:72-80 | the loop sets exactly the keys 1..5, each to that tier's rounded share of its budget |
| `TestRunner.RunTests` | mini-git-interview/src/lib/test-runner.ts:14-85 | the run returns the classified results, one tier score per tier 1..5, and a total equal to the sum of the five tier scores |
| `TestRunner.ResultsTiers` | mini-git-interview/src/lib/test-runner.ts:60-66 | results line up with the catalogue: same length, same tier at every position |
| `TestRunner.PassedAtMostTierCount` | mini-git-interview/src/lib/test-runner.ts:75-76 | a tier's passed results never outnumber its results, which equal the suite's tests of that tier |
| `TestRunner.CountPassedCases` | mini-git-interview/src/lib/test-runner.ts:75-76 | when every result of a tier passed, the passed count is the tier's size; when none passed, it is 0 |
| `TestRunner.FallbackNeverTaken` | mini-git-interview/src/lib/test-runner.ts:77 | every tier 1..5 has at least 4 tests in the catalogue, so the fallback divisor of 1 is never used |
| `TestRunner.TierScoreInRange` | mini-git-interview/src/lib/test-runner.ts:74-80 | in any run, a tier's score lies within its budget. It equals the full budget exactly when all of the tier's tests pass, and it is 0 when none pass |
| `TestRunner.TotalScoreInRange` | mini-git-interview/src/lib/test-runner.ts:82 | the total of any run lies in 0..100 points |
| `TestRunner.ExactlyTierOnePasses` | mini-git-interview/src/lib/test-runner.ts:74-82 | passing exactly the tier-1 tests scores 25 points in tier 1 and 25 in total |
| `TestRunner.EverythingThrows` | mini-git-interview/src/lib/test-runner.ts:24-82 | when every test throws, every result is failed with a non-empty error, and the total is 0 |
| `JsMath.Round` | mini-git-interview/src/lib/test-runner.ts:79 | `Math.round`: the result is within half a unit of its argument, with halves rounding up |
| `JsMath.Ceil` | mini-git-interview/src/lib/context-manager.ts:13 | `Math.ceil`: the least integer not below its argument |
| `JsMath.RoundFacts` | mini-git-interview/src/lib/test-runner.ts:79 | rounding returns an integer unchanged and is monotone |
| `JsMath.RoundQuotient` | mini-git-interview/src/lib/context-manager.ts:73 | rounding a non-negative quotient a/b equals the integer division (2a+b)/(2b) |
| `JsMath.CeilQuotient` | mini-git-interview/src/lib/context-manager.ts:13 | the ceiling of a non-negative quotient a/b equals the integer division (a+b-1)/b |
| `JsMath.RoundFraction` | mini-git-interview/src/lib/test-runner.ts:79 | rounding a fraction in [0, 1] of a whole number P stays within 0..P, and is P when f is 1 and 0 when f is 0 |
| `JsMath.RoundLoss` | mini-git-interview/src/lib/test-runner.ts:79 | losing at least a 1/t share of P rounds to below P, provided P/t exceeds one half |
| `RunTestsRoute.Post` | mini-git-interview/src/app/api/run-tests/route.ts:5-61 | a missing or empty `sessionId` or `code` is rejected with 400 and nothing runs; an unknown session gets 404; otherwise the response carries the run's results, scores, visible results and hidden summary |
| `RunTestsRoute.VisibleResults` | mini-git-interview/src/app/api/run-tests/route.ts:46 | every kept result is visible, and no more results are kept than were given |
| `RunTestsRoute.HiddenResults` | mini-git-interview/src/app/api/run-tests/route.ts:48 | every kept result is hidden, and no more results are kept than were given |
| `RunTestsRoute.Truthy` | mini-git-interview/src/app/api/run-tests/route.ts:8 | JavaScript truthiness of a string field: present and non-empty; `Post` rejects exactly the requests where a field is not truthy |
| `RunTestsRoute.Summarize` | mini-git-interview/src/app/api/run-tests/route.ts:48-52 | the hidden summary's `passed` never exceeds its `total`, which never exceeds the number of results |
| `RunTestsRoute.VisibleResultsExact` | mini-git-interview/src/app/api/run-tests/route.ts:46 | the visible results are a subsequence of the input, in original order, and there are as many as the input has visible entries |
| `RunTestsRoute.PartitionCounts` | mini-git-interview/src/app/api/run-tests/route.ts:46-52 | the visible count plus the hidden total is the number of results; `passed` counts the hidden passed results and never exceeds `total` |
| `RunTestsRoute.SummaryHidesIdentity` | mini-git-interview/src/app/api/run-tests/route.ts:49-52 | the summary depends only on each result's visibility and pass/fail: names and error texts cannot change it |
| `RunTestsRoute.CatalogueSplit` | mini-git-interview/src/app/api/run-tests/route.ts:45-52 | for this catalogue, every run shows 13 results and summarises 15 hidden ones |
| `RunTestsRoute.VisibleByTier` | mini-git-interview/src/app/api/run-tests/route.ts:46 | when visibility is `tier <= 2`, the visible count is the number of tier-1 tests plus the number of tier-2 tests |
| `Strings.Contains` | mini-git-interview/src/lib/scoring.ts:81 | `includes`: true exactly when the needle occurs at some position of the text |
| `Strings.ToLower` | mini-git-interview/src/lib/scoring.ts:85 | `toLowerCase` on ASCII: the length is kept, each character is lowered, and no upper-case ASCII letter remains |
| `Scoring.CountKind` | mini-git-interview/src/lib/scoring.ts:25-27 | the number of events of a type never exceeds the log's length |
| `Scoring.TimesOfKind` | mini-git-interview/src/lib/scoring.ts:26 | one timestamp is kept per event of the type |
| `Scoring.FirstTestRunDelay` | mini-git-interview/src/lib/scoring.ts:29-37 | `timeToFirstTestRun` is absent exactly when there is no test_run event |
| `Scoring.MeanGap` | mini-git-interview/src/lib/scoring.ts:52-61 | the average gap is absent exactly when there are fewer than two test runs |
| `Scoring.CyclesFrom` | mini-git-interview/src/lib/scoring.ts:39-49 | the edit-test cycle count from a cursor; `CyclesBounded` bounds it by the test_run and change counts, and `CountEditTestCycles` is proved equal to it |
| `Scoring.CountEditTestCycles` | mini-git-interview/src/lib/scoring.ts:39-49 | the cursor loop counts the test_run events whose last preceding change-or-test_run event was a change; the cursor only ever holds change or test_run |
| `Scoring.AverageGap` | mini-git-interview/src/lib/scoring.ts:51-61 | the consecutive gaps telescope: for n ≥ 2 test runs the average is (last − first)/(n − 1) |
| `Scoring.UserMessages` | mini-git-interview/src/lib/scoring.ts:73 | every kept message has the user role, and no more messages are kept than were given |
| `Scoring.SumLengths` | mini-git-interview/src/lib/scoring.ts:76 | the summed content lengths; `SumLengthsBounds` puts it between n·shortest and n·longest |
| `Scoring.SumLengthsBounds` | mini-git-interview/src/lib/scoring.ts:76 | when every message length lies in [lo, hi], the summed length of n messages lies in [n·lo, n·hi] |
| `Scoring.AveragePromptLength` | mini-git-interview/src/lib/scoring.ts:74-120 | `Math.round` of the mean content length of the user messages, 0 when there are none; bounded by `AveragePromptLengthBounds` |
| `Scoring.AveragePromptLengthBounds` | mini-git-interview/src/lib/scoring.ts:74-120 | with no user messages the average is 0; otherwise it lies between the shortest and the longest message length (so it is the common length when all are equal) |
| `Scoring.CountQuestions` | mini-git-interview/src/lib/scoring.ts:80-82 | the question count never exceeds the number of messages counted |
| `Scoring.IsQuestion` | mini-git-interview/src/lib/scoring.ts:81 | a message is a question when its content contains "?"; `CountQuestions` counts these |
| `Scoring.IsCodeRequest` | mini-git-interview/src/lib/scoring.ts:84-93 | a message is a code request when its lower-cased text contains one of write, implement, code, function, create; `CountCodeRequests` counts these |
| `Scoring.CountCodeRequests` | mini-git-interview/src/lib/scoring.ts:84-93 | the code-request count never exceeds the number of messages counted |
| `Scoring.SumTokens` | mini-git-interview/src/lib/scoring.ts:95-98 | the token total over all messages of any role; `SumTokensAppend` shows every appended message adds exactly its tokens |
| `Scoring.IsBefore` | mini-git-interview/src/lib/scoring.ts:108-110 | a message counts as before the first test run only when that time exists, is non-zero, and is later than the message; `NothingBefore` shows the absent and the zero time both count nothing |
| `Scoring.FirstTestRunTime` | mini-git-interview/src/lib/scoring.ts:103-105 | the first test_run event's time, absent exactly when the log has no test_run event |
| `Scoring.CountBefore` | mini-git-interview/src/lib/scoring.ts:107-116 | the "before" count never exceeds the number of messages |
| `Scoring.SplitAroundFirstTestRun` | mini-git-interview/src/lib/scoring.ts:100-116 | the loop counts as "before" the messages earlier than a truthy first test-run time; every other message counts as "after"; the two add up to the message count |
| `Scoring.ScoreOf` | mini-git-interview/src/lib/scoring.ts:20-132 | the reference report, field by field; `ComputeScore` equals it, and `ReportCounts` and `SortedLogTimes` state its consistency |
| `Scoring.ComputeScore` | mini-git-interview/src/lib/scoring.ts:20-132 | the report's fields follow the reference report, field by field: counts, delay, cycles, gap, user-message signals, all-message tokens, split |
| `Scoring.CyclesBounded` | mini-git-interview/src/lib/scoring.ts:39-49 | edit-test cycles never outnumber the test_run events, nor the change events (plus one if the cursor starts at change) |
| `Scoring.TimesOfKindSorted` | mini-git-interview/src/lib/scoring.ts:26 | in a sorted log, one type's timestamps are sorted, and none precedes the first event |
| `Scoring.ReportCounts` | mini-git-interview/src/lib/scoring.ts:39-116 | cycles ≤ testRunCount and cycles ≤ totalEditorChanges. The delay is absent iff there are no test runs; the average gap is absent iff there are fewer than two. Questions and code requests each ≤ totalMessages. before + after = totalMessages, and before = 0 without a test run |
| `Scoring.NothingBefore` | mini-git-interview/src/lib/scoring.ts:103-116 | with no first test-run time, or the falsy time 0, no message counts as "before" |
| `Scoring.SortedLogTimes` | mini-git-interview/src/lib/scoring.ts:29-61 | on a sorted log, neither the time to the first test run nor the average gap is negative |
| `Scoring.SumTokensAppend` | mini-git-interview/src/lib/scoring.ts:95-98 | appending a message of any role adds its tokens to the total |
| `ContextManager.EstimateTokens` | mini-git-interview/src/lib/context-manager.ts:12-14 | the estimate is the least n with 4n ≥ length, that is (length + 3)/4 |
| `ContextManager.EstimateCoversText` | mini-git-interview/src/lib/context-manager.ts:12-14 | the estimate is the fewest 4-character tokens that cover the text: 4n − 4 < length ≤ 4n |
| `ContextManager.CapEditorCode` | mini-git-interview/src/lib/context-manager.ts:42-46 | code estimated at ≤ 3000 tokens is kept as is; longer code (necessarily over 12000 characters) becomes its first 12000 characters then the truncation marker |
| `ContextManager.CappedSnippetTokens` | mini-git-interview/src/lib/context-manager.ts:42-46 | the embedded snippet never costs more than 3005 tokens |
| `ContextManager.SystemContent` | mini-git-interview/src/lib/context-manager.ts:48-51 | the system text starts with the prompt and contains the snippet right after the code header, with the length of the four parts together |
| `ContextManager.LastMessages` | mini-git-interview/src/lib/context-manager.ts:58 | `slice(-5)`: the last min(5, n) messages, as a suffix |
| `ContextManager.FitNewestFirst` | mini-git-interview/src/lib/context-manager.ts:57-65 | the scan keeps a contiguous suffix in original order and subtracts its tokens from the budget. A non-negative budget never goes negative; with a negative budget nothing is kept. The message just before the kept suffix, if any, did not fit |
| `ContextManager.SelectHistory` | mini-git-interview/src/lib/context-manager.ts:56-65 | the kept messages are a suffix of the whole history, of at most five messages, paid for out of the budget; a non-negative budget never goes negative, and a negative budget keeps no message; the next-older of the last five, if any, did not fit |
| `ContextManager.PercentUsed` | mini-git-interview/src/lib/context-manager.ts:73 | for non-negative usage, the rounded percentage equals the integer division (tokens + 40)/80 |
| `ContextManager.PercentUsedBounds` | mini-git-interview/src/lib/context-manager.ts:73 | usage within budget is reported as 0..100 percent: 0 when empty, 100 when full |
| `ContextManager.BuildChatMessages` | mini-git-interview/src/lib/context-manager.ts:37-80 | the system message comes first, followed by a suffix of at most five recent messages. `tokensUsed` is the system tokens plus the kept messages' tokens, and stays within 8000 whenever the system message alone fits; a system message over 8000 tokens is sent with no history. The next-older candidate, if any, did not fit. The report's counts, limits and percentage describe this selection |
| `SessionRecorder.AddToBuffer` | mini-git-interview/src/lib/session-recorder.ts:79-89 | the event is appended at the end; reaching 50 events hands the whole buffer to a flush; the buffer left behind always has fewer than 50 events |
| `SessionRecorder.AddToBufferConserves` | mini-git-interview/src/lib/session-recorder.ts:79-95 | the flushed batch followed by what remains buffered is the old buffer followed by the new event |
| `SessionRecorder.TruncatePaste` | mini-git-interview/src/lib/session-recorder.ts:59 | the stored text is the prefix of the paste of length min(length, 1000) |
| `SessionRecorder.TruncatePasteIdempotent` | mini-git-interview/src/lib/session-recorder.ts:59 | truncating an already truncated paste changes nothing |
| `SessionRecorder.IsModifierKey` | mini-git-interview/src/lib/session-recorder.ts:50 | the five modifier keys Shift, Control, Alt, Meta and CapsLock; `Recorder.RecordKeystroke` records exactly the other keys |
| `SessionRecorder.SnapshotFor` | mini-git-interview/src/lib/session-recorder.ts:39-42 | full content is attached exactly when the change count is a multiple of 20 and content was supplied |
| `SessionRecorder.Recorder.constructor` | mini-git-interview/src/lib/session-recorder.ts:10-18 | a new recorder has the session id, an empty buffer, change count 0 and no timer |
| `SessionRecorder.Recorder.Start` | mini-git-interview/src/lib/session-recorder.ts:20-22 | the timer is installed and nothing else changes |
| `SessionRecorder.Recorder.BeginFlush` | mini-git-interview/src/lib/session-recorder.ts:91-95 | flushing an empty buffer changes nothing; otherwise the whole buffer becomes the batch in flight and the buffer is emptied |
| `SessionRecorder.Recorder.CompleteFlush` | mini-git-interview/src/lib/session-recorder.ts:97-114 | on success the batch is delivered and the buffer is untouched. On failure the batch is put back ahead of the events buffered meanwhile. No event is lost either way |
| `SessionRecorder.Recorder.Stop` | mini-git-interview/src/lib/session-recorder.ts:24-30 | the timer is removed, then a flush begins |
| `SessionRecorder.Recorder.AddEvent` | mini-git-interview/src/lib/session-recorder.ts:79-89 | the event is recorded and appended; a buffer that reaches 50 begins a flush; fewer than 50 events remain buffered |
| `SessionRecorder.Recorder.RecordChange` | mini-git-interview/src/lib/session-recorder.ts:32-45 | the change count goes up by one; the change event carries full content exactly on every 20th change when supplied |
| `SessionRecorder.Recorder.RecordKeystroke` | mini-git-interview/src/lib/session-recorder.ts:47-55 | Shift, Control, Alt, Meta and CapsLock change nothing; any other key adds exactly one keystroke event |
| `SessionRecorder.Recorder.RecordPaste` | mini-git-interview/src/lib/session-recorder.ts:57-61 | one paste event is added, carrying the truncated text and the position |
| `SessionRecorder.Recorder.RecordFocus` | mini-git-interview/src/lib/session-recorder.ts:63-65 | one focus event is added |
| `SessionRecorder.Recorder.RecordBlur` | mini-git-interview/src/lib/session-recorder.ts:67-69 | one blur event is added |
| `SessionRecorder.Recorder.RecordChatSend` | mini-git-interview/src/lib/session-recorder.ts:71-73 | one chat_send event is added, carrying the message length |
| `SessionRecorder.Recorder.RecordTestRun` | mini-git-interview/src/lib/session-recorder.ts:75-77 | one test_run event is added, carrying the score |
| `SessionRecorder.FailedFlushKeepsOrder` | mini-git-interview/src/lib/session-recorder.ts:107-114 | for any non-empty buffer, with one request in flight, an event recorded during the request and then a failed request leave the buffer as the old buffer followed by that event, in recording order |

## Left out

- The sandbox is not modelled: isolated-vm's isolate, context creation, script compilation, the 5-second timeout and the 128 MB memory limit. Each test's run is an `Outcome` parameter instead.
- The JavaScript test bodies are not modelled. A catalogue entry keeps only its name, tier and visibility, and no `MiniGit` implementation is modelled.
- A thrown value with no `message` property is modelled as `Threw(None)`. A thrown `null` or `undefined` is not modelled: there, `err.message` itself would throw inside the `catch` block.
- `isolate.dispose()` in the `finally` block of `runTestsInIsolate` is resource clean-up and is not modelled.
- The database is not modelled. This covers session lookup, the test-run and event inserts in the run-tests route, and the three sorted reads in `computeScore`. The lookup result is the `sessionFound` parameter, and the fold receives its three sequences already sorted.
- The chat route, its LLM streaming, the Azure OpenAI client, the session start and event routes, and every React component are not modelled.
- JSON serialisation (`JSON.stringify` of event data and request bodies) and ISO timestamp strings are not modelled. Payloads are a datatype, and times are integers.
- The `changes` argument of `recordChange` is opaque (`seq<string>`).
- Timers and `fetch` are not modelled. The interval's ticks are calls of `BeginFlush`, and an HTTP status or a network exception is the `ok` flag of `CompleteFlush`.
- Interleavings of asynchronous flushes that the JavaScript event loop could produce are not modelled beyond this: any number of batches may be in flight, and they complete in any order the caller chooses.
- Floating-point arithmetic is not modelled. Tier scores are exact integer hundredths, so the total is an exact sum of hundredths, not a sum of doubles. `avgTimeBetweenTestRuns` and the averages behind `Math.round` are exact reals. For this catalogue no tier score lands on a half, so the tier scores agree with double arithmetic.
- `PercentUsed`: the model rounds the exact quotient, `(t + 40) / 80`. In double arithmetic `(t / 8000) * 100` falls just below a half at t = 1160, 2280, 4520 and 4600 (for example 14.499999999999998 at 1160), so the source reports one percent less there than the model.
- `toLowerCase` is modelled for ASCII letters only. Unicode case mapping is not modelled.
- String lengths count Dafny characters rather than UTF-16 code units.
- The system-prompt text is not part of this model: `BuildChatMessages` takes it as a parameter.
- `Date` parsing is not modelled. An invalid date (`NaN`) cannot occur with integer timestamps.
- `RunTests` returns `tierScores` keyed by tier number. The source's keys are the strings "tier1".."tier5".
- `SplitAroundFirstTestRun` keeps the source's truthiness test: a first test-run time of exactly 0 counts as having no test run, so every message counts as "after".
- `Recorder.Start`: the timer is a boolean flag, not an interval handle. In the source a second `start()` installs a second interval and overwrites the first handle, so `stop()` clears only the second and the first keeps flushing; the model cannot show this.
- A failure to create the isolate (test-runner.ts:17) happens outside every `try` and rejects the whole run, and the run-tests route does not catch it. `RunTests` and `Post` always produce one result per test.
