/**
 * Record shapes shared by the grading engine, the session scorer, the chat
 * context builder and the session recorder (mini-git-interview/src/types/index.ts).
 * Timestamps are integer milliseconds; scores are integer hundredths of a point.
 */
module Types {

  datatype Option<+T> = None | Some(value: T)

  /** A test tier, 1 (easiest, visible) through 5 (hardest, hidden). */
  type Tier = t: int | 1 <= t <= 5 witness 1

  /** A catalogue entry. The JavaScript body of the test is opaque and not modelled. */
  datatype TestCase = TestCase(name: string, tier: Tier, visible: bool)

  /** The outcome of one test: `error` is `None` exactly for a passing test. */
  datatype TestResult = TestResult(name: string, tier: Tier, passed: bool, error: Option<string>, visible: bool)

  /** The kinds of session event the recorder emits and the scorer reads. */
  datatype EventType = Keystroke | Change | Paste | Focus | Blur | ChatSend | TestRun | Snapshot

  /** A stored session event; its JSON payload is opaque to the scorer. */
  datatype SessionEvent = SessionEvent(kind: EventType, data: string, timestamp: int)

  datatype Role = User | Assistant | System

  /** A stored chat message. */
  datatype ChatMessage = ChatMessage(role: Role, content: string, tokensUsed: int, timestamp: int)

  /** A stored test run: its total score in hundredths and when it happened. */
  datatype TestRunRecord = TestRunRecord(score: int, timestamp: int)

  datatype ContextInfo = ContextInfo(
    messagesIncluded: nat,
    maxMessages: nat,
    tokensUsed: int,
    maxTokens: nat,
    percentUsed: int)

  datatype ProcessSignals = ProcessSignals(
    totalEditorChanges: nat,
    testRunCount: nat,
    timeToFirstTestRun: Option<int>,
    editTestCycles: nat,
    pasteEvents: nat,
    avgTimeBetweenTestRuns: Option<real>)

  datatype AIAdoptionSignals = AIAdoptionSignals(
    totalMessages: nat,
    avgPromptLength: int,
    questionsAsked: nat,
    codeRequestCount: nat,
    totalTokensUsed: int,
    messagesBeforeFirstTestRun: nat,
    messagesAfterFirstTestRun: nat)

  datatype ScoringResult = ScoringResult(
    correctness: int,
    processSignals: ProcessSignals,
    aiAdoptionSignals: AIAdoptionSignals)
}
