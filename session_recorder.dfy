/**
 * The browser-side event buffer (mini-git-interview/src/lib/session-recorder.ts):
 * a recorder object that turns editor and chat activity into events, buffers
 * them, and hands batches to the event endpoint.
 *
 * `flush` is split at its `await`: `BeginFlush` is the synchronous part (snapshot
 * the buffer, empty it) and `CompleteFlush` is what happens when the request
 * settles, with the request's success as a parameter. Several batches may be in
 * flight at once; ghost fields account for every recorded event.
 */
module SessionRecorder {
  import opened Types

  const FlushIntervalMs: nat := 2000
  const MaxBufferSize: nat := 50
  /** Every 20th change carries the full editor content, when the caller supplies it. */
  const SnapshotEvery: nat := 20
  const MaxPasteLength: nat := 1000
  const ModifierKeys: seq<string> := ["Shift", "Control", "Alt", "Meta", "CapsLock"]

  datatype Position = Position(line: int, column: int)

  /** The event payloads the recorder produces (the source serialises them as JSON). */
  datatype Payload =
    | ChangePayload(changes: seq<string>, fullContent: Option<string>)
    | KeyPayload(key: string)
    | PastePayload(text: string, position: Option<Position>)
    | EmptyPayload
    | ChatSendPayload(messageLength: int)
    | TestRunPayload(score: int)

  datatype BufferedEvent = BufferedEvent(kind: EventType, data: Payload, timestamp: int)

  /** The buffer after an `addEvent`, and the batch whose flush that call began, if any. */
  datatype AddOutcome = AddOutcome(buffer: seq<BufferedEvent>, flushed: Option<seq<BufferedEvent>>)

  /**
   * `addEvent` on a buffer: push at the end; on reaching 50 events the flush
   * takes the whole buffer, so the buffer left behind is always under 50.
   */
  function AddToBuffer(buffer: seq<BufferedEvent>, e: BufferedEvent): (r: AddOutcome)
    ensures |r.buffer| < MaxBufferSize
    ensures r.flushed.Some? <==> |buffer| + 1 >= MaxBufferSize
    ensures r.flushed.None? ==> r.buffer == buffer + [e]
    ensures r.flushed.Some? ==> r.buffer == [] && r.flushed.value == buffer + [e]
  {
    var pushed := buffer + [e];
    if |pushed| >= MaxBufferSize then AddOutcome([], Some(pushed)) else AddOutcome(pushed, None)
  }

  /** Nothing is lost by an `addEvent`: what stays buffered and what is flushed is the old buffer then the event. */
  lemma AddToBufferConserves(buffer: seq<BufferedEvent>, e: BufferedEvent)
    ensures var r := AddToBuffer(buffer, e);
      (if r.flushed.Some? then r.flushed.value else []) + r.buffer == buffer + [e]
  {
  }

  predicate IsModifierKey(key: string)
  {
    key in ModifierKeys
  }

  /** The pasted text that is stored: at most its first 1000 characters. */
  function TruncatePaste(text: string): (t: string)
    ensures |t| == if |text| > MaxPasteLength then MaxPasteLength else |text|
    ensures t == text[..|t|]
  {
    if |text| > MaxPasteLength then text[..MaxPasteLength] else text
  }

  /** Truncating twice is truncating once. */
  lemma TruncatePasteIdempotent(text: string)
    ensures TruncatePaste(TruncatePaste(text)) == TruncatePaste(text)
  {
  }

  /** The full content a change event carries: present exactly on every 20th change, when supplied. */
  function SnapshotFor(changeCount: nat, fullContent: Option<string>): (s: Option<string>)
    ensures s.Some? <==> changeCount % SnapshotEvery == 0 && fullContent.Some?
    ensures s.Some? ==> s == fullContent
  {
    if changeCount % SnapshotEvery == 0 && fullContent.Some? then fullContent else None
  }

  class Recorder {
    var sessionId: string
    var buffer: seq<BufferedEvent>
    var changeCount: nat
    /** Whether the periodic flush timer is installed (`flushTimer !== null`). */
    var timerRunning: bool

    /** Every event ever added, in order. */
    ghost var recorded: seq<BufferedEvent>
    /** The events whose batch was accepted by the endpoint. */
    ghost var delivered: multiset<BufferedEvent>
    /** The events of the batches whose requests have not settled. */
    ghost var inFlight: multiset<BufferedEvent>

    /** Each recorded event is in exactly one place: delivered, in flight, or buffered. */
    ghost predicate Valid()
      reads this
    {
      multiset(recorded) == delivered + inFlight + multiset(buffer)
    }

    constructor(sessionId: string)
      ensures Valid()
      ensures this.sessionId == sessionId && buffer == [] && changeCount == 0 && !timerRunning
      ensures recorded == [] && delivered == multiset{} && inFlight == multiset{}
    {
      this.sessionId := sessionId;
      buffer := [];
      changeCount := 0;
      timerRunning := false;
      recorded := [];
      delivered := multiset{};
      inFlight := multiset{};
    }

    /** `start`: installs the periodic flush timer; the timer's ticks are calls of `BeginFlush`. */
    method Start()
      modifies this
      ensures timerRunning
      ensures sessionId == old(sessionId) && buffer == old(buffer) && changeCount == old(changeCount)
      ensures recorded == old(recorded) && delivered == old(delivered) && inFlight == old(inFlight)
    {
      timerRunning := true;
    }

    /**
     * The synchronous part of `flush`: an empty buffer changes nothing; otherwise
     * the whole buffer becomes the batch in flight and the buffer is emptied.
     */
    method BeginFlush() returns (batch: Option<seq<BufferedEvent>>)
      requires Valid()
      modifies this
      ensures Valid()
      ensures old(buffer) == [] ==> batch.None? && inFlight == old(inFlight)
      ensures old(buffer) != [] ==> batch == Some(old(buffer)) && inFlight == old(inFlight) + multiset(old(buffer))
      ensures buffer == []
      ensures sessionId == old(sessionId) && changeCount == old(changeCount) && timerRunning == old(timerRunning)
      ensures recorded == old(recorded) && delivered == old(delivered)
    {
      if buffer == [] {
        return None;
      }
      batch := Some(buffer);
      inFlight := inFlight + multiset(buffer);
      buffer := [];
    }

    /**
     * The request for `batch` has settled: on success its events are delivered;
     * on failure they are put back ahead of whatever was buffered meanwhile.
     */
    method CompleteFlush(batch: seq<BufferedEvent>, ok: bool)
      requires Valid()
      requires multiset(batch) <= inFlight
      modifies this
      ensures Valid()
      ensures ok ==> buffer == old(buffer) && delivered == old(delivered) + multiset(batch)
      ensures !ok ==> buffer == batch + old(buffer) && delivered == old(delivered)
      ensures inFlight == old(inFlight) - multiset(batch)
      ensures sessionId == old(sessionId) && changeCount == old(changeCount) && timerRunning == old(timerRunning)
      ensures recorded == old(recorded)
    {
      inFlight := inFlight - multiset(batch);
      if ok {
        delivered := delivered + multiset(batch);
      } else {
        buffer := batch + buffer;
      }
    }

    /** `stop`: removes the timer, then begins a final flush. */
    method Stop() returns (batch: Option<seq<BufferedEvent>>)
      requires Valid()
      modifies this
      ensures Valid()
      ensures !timerRunning
      ensures old(buffer) == [] ==> batch.None? && inFlight == old(inFlight)
      ensures old(buffer) != [] ==> batch == Some(old(buffer)) && inFlight == old(inFlight) + multiset(old(buffer))
      ensures buffer == []
      ensures sessionId == old(sessionId) && changeCount == old(changeCount)
      ensures recorded == old(recorded) && delivered == old(delivered)
    {
      timerRunning := false;
      batch := BeginFlush();
    }

    /** `addEvent`: the event goes to the end of the buffer; a full buffer begins a flush. */
    method AddEvent(e: BufferedEvent) returns (batch: Option<seq<BufferedEvent>>)
      requires Valid()
      modifies this
      ensures Valid()
      ensures buffer == AddToBuffer(old(buffer), e).buffer && batch == AddToBuffer(old(buffer), e).flushed
      ensures |buffer| < MaxBufferSize
      ensures recorded == old(recorded) + [e]
      ensures inFlight == old(inFlight) + (if batch.Some? then multiset(batch.value) else multiset{})
      ensures sessionId == old(sessionId) && changeCount == old(changeCount) && timerRunning == old(timerRunning)
      ensures delivered == old(delivered)
    {
      buffer := buffer + [e];
      recorded := recorded + [e];
      batch := None;
      if |buffer| >= MaxBufferSize {
        batch := BeginFlush();
      }
    }

    /** `recordChange`: counts the change; every 20th change carries the full content when supplied. */
    method RecordChange(changes: seq<string>, fullContent: Option<string>, now: int)
      returns (batch: Option<seq<BufferedEvent>>)
      requires Valid()
      modifies this
      ensures Valid()
      ensures changeCount == old(changeCount) + 1
      ensures var e := BufferedEvent(Change, ChangePayload(changes, SnapshotFor(changeCount, fullContent)), now);
        && buffer == AddToBuffer(old(buffer), e).buffer && batch == AddToBuffer(old(buffer), e).flushed
        && recorded == old(recorded) + [e]
      ensures sessionId == old(sessionId) && timerRunning == old(timerRunning) && delivered == old(delivered)
      ensures inFlight == old(inFlight) + (if batch.Some? then multiset(batch.value) else multiset{})
    {
      changeCount := changeCount + 1;
      batch := AddEvent(BufferedEvent(Change, ChangePayload(changes, SnapshotFor(changeCount, fullContent)), now));
    }

    /** `recordKeystroke`: modifier keys alone are not recorded. */
    method RecordKeystroke(key: string, now: int) returns (batch: Option<seq<BufferedEvent>>)
      requires Valid()
      modifies this
      ensures Valid()
      ensures IsModifierKey(key) ==>
        && batch.None? && buffer == old(buffer) && recorded == old(recorded)
      ensures !IsModifierKey(key) ==>
        var e := BufferedEvent(Keystroke, KeyPayload(key), now);
        && buffer == AddToBuffer(old(buffer), e).buffer && batch == AddToBuffer(old(buffer), e).flushed
        && recorded == old(recorded) + [e]
      ensures sessionId == old(sessionId) && changeCount == old(changeCount) && timerRunning == old(timerRunning)
      ensures delivered == old(delivered)
      ensures inFlight == old(inFlight) + (if batch.Some? then multiset(batch.value) else multiset{})
    {
      if IsModifierKey(key) {
        return None;
      }
      batch := AddEvent(BufferedEvent(Keystroke, KeyPayload(key), now));
    }

    /** `recordPaste`: the stored text is truncated to 1000 characters. */
    method RecordPaste(text: string, position: Option<Position>, now: int) returns (batch: Option<seq<BufferedEvent>>)
      requires Valid()
      modifies this
      ensures Valid()
      ensures var e := BufferedEvent(Paste, PastePayload(TruncatePaste(text), position), now);
        && buffer == AddToBuffer(old(buffer), e).buffer && batch == AddToBuffer(old(buffer), e).flushed
        && recorded == old(recorded) + [e]
      ensures sessionId == old(sessionId) && changeCount == old(changeCount) && timerRunning == old(timerRunning)
      ensures delivered == old(delivered)
      ensures inFlight == old(inFlight) + (if batch.Some? then multiset(batch.value) else multiset{})
    {
      batch := AddEvent(BufferedEvent(Paste, PastePayload(TruncatePaste(text), position), now));
    }

    method RecordFocus(now: int) returns (batch: Option<seq<BufferedEvent>>)
      requires Valid()
      modifies this
      ensures Valid()
      ensures var e := BufferedEvent(Focus, EmptyPayload, now);
        && buffer == AddToBuffer(old(buffer), e).buffer && batch == AddToBuffer(old(buffer), e).flushed
        && recorded == old(recorded) + [e]
      ensures sessionId == old(sessionId) && changeCount == old(changeCount) && timerRunning == old(timerRunning)
      ensures delivered == old(delivered)
      ensures inFlight == old(inFlight) + (if batch.Some? then multiset(batch.value) else multiset{})
    {
      batch := AddEvent(BufferedEvent(Focus, EmptyPayload, now));
    }

    method RecordBlur(now: int) returns (batch: Option<seq<BufferedEvent>>)
      requires Valid()
      modifies this
      ensures Valid()
      ensures var e := BufferedEvent(Blur, EmptyPayload, now);
        && buffer == AddToBuffer(old(buffer), e).buffer && batch == AddToBuffer(old(buffer), e).flushed
        && recorded == old(recorded) + [e]
      ensures sessionId == old(sessionId) && changeCount == old(changeCount) && timerRunning == old(timerRunning)
      ensures delivered == old(delivered)
      ensures inFlight == old(inFlight) + (if batch.Some? then multiset(batch.value) else multiset{})
    {
      batch := AddEvent(BufferedEvent(Blur, EmptyPayload, now));
    }

    method RecordChatSend(messageLength: int, now: int) returns (batch: Option<seq<BufferedEvent>>)
      requires Valid()
      modifies this
      ensures Valid()
      ensures var e := BufferedEvent(ChatSend, ChatSendPayload(messageLength), now);
        && buffer == AddToBuffer(old(buffer), e).buffer && batch == AddToBuffer(old(buffer), e).flushed
        && recorded == old(recorded) + [e]
      ensures sessionId == old(sessionId) && changeCount == old(changeCount) && timerRunning == old(timerRunning)
      ensures delivered == old(delivered)
      ensures inFlight == old(inFlight) + (if batch.Some? then multiset(batch.value) else multiset{})
    {
      batch := AddEvent(BufferedEvent(ChatSend, ChatSendPayload(messageLength), now));
    }

    method RecordTestRun(score: int, now: int) returns (batch: Option<seq<BufferedEvent>>)
      requires Valid()
      modifies this
      ensures Valid()
      ensures var e := BufferedEvent(TestRun, TestRunPayload(score), now);
        && buffer == AddToBuffer(old(buffer), e).buffer && batch == AddToBuffer(old(buffer), e).flushed
        && recorded == old(recorded) + [e]
      ensures sessionId == old(sessionId) && changeCount == old(changeCount) && timerRunning == old(timerRunning)
      ensures delivered == old(delivered)
      ensures inFlight == old(inFlight) + (if batch.Some? then multiset(batch.value) else multiset{})
    {
      batch := AddEvent(BufferedEvent(TestRun, TestRunPayload(score), now));
    }
  }

  /**
   * With one request in flight, a failed flush leaves the buffer holding the
   * batch followed by the events recorded while it was pending: the recording
   * order is kept, and a later flush retries them all.
   */
  method FailedFlushKeepsOrder(r: Recorder, now: int)
    requires r.Valid() && r.buffer != []
    modifies r
    ensures r.Valid()
    ensures r.buffer == old(r.buffer) + [BufferedEvent(Focus, EmptyPayload, now)]
    ensures r.recorded == old(r.recorded) + [BufferedEvent(Focus, EmptyPayload, now)]
    ensures r.inFlight == old(r.inFlight) && r.delivered == old(r.delivered)
    ensures r.changeCount == old(r.changeCount) && r.timerRunning == old(r.timerRunning) && r.sessionId == old(r.sessionId)
  {
    var batch := r.BeginFlush();
    var during := r.RecordFocus(now);
    assert during.None?;
    r.CompleteFlush(batch.value, false);
  }
}
