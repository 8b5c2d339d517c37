/**
 * The chat context builder (mini-git-interview/src/lib/context-manager.ts): a
 * token estimate, the cap on the editor code embedded in the system message,
 * and the greedy newest-first selection of recent messages under a token budget.
 */
module ContextManager {
  import opened Types
  import JsMath

  const MaxMessages: nat := 5
  const MaxTokens: nat := 8000
  const MaxEditorTokens: nat := 3000
  /** `MAX_EDITOR_TOKENS * 4`: the characters kept of an over-long editor buffer. */
  const MaxEditorChars: nat := MaxEditorTokens * 4
  const TruncationMarker: string := "\n// ... (truncated)"
  const CodeHeader: string := "\n\n--- Current Editor Code ---\n"
  const CodeFooter: string := "\n--- End Editor Code ---"

  /** A chat message as the builder sees it: a role and its text. */
  datatype ChatMsg = ChatMsg(role: Role, content: string)

  /** `Math.ceil(text.length / 4)`: a quarter of the length, rounded up. */
  function EstimateTokens(text: string): (n: nat)
    ensures n == (|text| + 3) / 4
  {
    JsMath.CeilQuotient(|text|, 4);
    JsMath.Ceil(|text| as real / 4.0)
  }

  /** The estimate is the fewest 4-character tokens that cover the text. */
  lemma EstimateCoversText(text: string)
    ensures 4 * EstimateTokens(text) - 4 < |text| <= 4 * EstimateTokens(text)
  {
  }

  /** The estimated tokens of a run of messages, summed. */
  function TokensOf(messages: seq<ChatMsg>): (n: nat)
  {
    if messages == [] then 0 else EstimateTokens(messages[0].content) + TokensOf(messages[1..])
  }

  /** The editor code as embedded in the system message: unchanged when it fits, else its first 12000 characters and a marker. */
  function CapEditorCode(code: string): (snippet: string)
    ensures EstimateTokens(code) <= MaxEditorTokens ==> snippet == code
    ensures EstimateTokens(code) > MaxEditorTokens ==>
              |code| > MaxEditorChars && snippet == code[..MaxEditorChars] + TruncationMarker
  {
    if EstimateTokens(code) > MaxEditorTokens then code[..MaxEditorChars] + TruncationMarker else code
  }

  /** Whatever the editor holds, the embedded snippet costs at most 3005 estimated tokens. */
  lemma CappedSnippetTokens(code: string)
    ensures EstimateTokens(CapEditorCode(code)) <= MaxEditorTokens + 5
  {
  }

  /** The system message text: the prompt, then the (capped) editor code between two markers. */
  function SystemContent(systemPrompt: string, snippet: string): (content: string)
    ensures |content| == |systemPrompt| + |CodeHeader| + |snippet| + |CodeFooter|
    ensures content[..|systemPrompt|] == systemPrompt
    ensures content[|systemPrompt| + |CodeHeader|..|systemPrompt| + |CodeHeader| + |snippet|] == snippet
  {
    systemPrompt + CodeHeader + snippet + CodeFooter
  }

  /** `recentMessages.slice(-MAX_MESSAGES)`: the last five messages, or all of them when there are fewer. */
  function LastMessages(messages: seq<ChatMsg>): (candidates: seq<ChatMsg>)
    ensures |candidates| == if |messages| < MaxMessages then |messages| else MaxMessages
    ensures candidates == messages[|messages| - |candidates|..]
  {
    if |messages| < MaxMessages then messages else messages[|messages| - MaxMessages..]
  }

  /**
   * The newest-first scan: messages are taken from the end of `candidates` while
   * each still fits in what is left of `budget`; the first that does not fit ends
   * the scan. The result is a suffix in original order, paid for out of the budget,
   * and the message just before it (if any) did not fit.
   */
  method FitNewestFirst(candidates: seq<ChatMsg>, budget: int) returns (included: seq<ChatMsg>, remaining: int)
    ensures |included| <= |candidates|
    ensures included == candidates[|candidates| - |included|..]
    ensures remaining == budget - TokensOf(included)
    ensures budget >= 0 ==> remaining >= 0
    ensures budget < 0 ==> included == []
    ensures |included| < |candidates| ==>
              remaining < EstimateTokens(candidates[|candidates| - |included| - 1].content)
  {
    included, remaining := [], budget;
    var i := |candidates|;
    var fits := true;
    while i > 0 && fits
      invariant 0 <= i <= |candidates|
      invariant included == candidates[i..]
      invariant remaining == budget - TokensOf(included)
      invariant budget >= 0 ==> remaining >= 0
      invariant budget < 0 ==> i == |candidates|
      invariant !fits ==> i > 0 && remaining < EstimateTokens(candidates[i - 1].content)
      decreases i, fits
    {
      var msgTokens := EstimateTokens(candidates[i - 1].content);
      if remaining - msgTokens < 0 {
        fits := false;
      } else {
        assert ([candidates[i - 1]] + included)[1..] == included;
        assert [candidates[i - 1]] + included == candidates[i - 1..];
        included := [candidates[i - 1]] + included;
        remaining := remaining - msgTokens;
        i := i - 1;
      }
    }
  }

  /** `Math.round((totalTokens / MAX_TOKENS) * 100)`. */
  function PercentUsed(tokensUsed: int): (p: int)
    ensures tokensUsed >= 0 ==> p == (tokensUsed + 40) / 80
  {
    if tokensUsed >= 0 then
      var t := tokensUsed as real;
      assert (t / 8000.0) * 100.0 == t / 80.0;
      JsMath.RoundQuotient(tokensUsed, 80);
      JsMath.Round((tokensUsed as real / MaxTokens as real) * 100.0)
    else
      JsMath.Round((tokensUsed as real / MaxTokens as real) * 100.0)
  }

  /** A token count within the budget is reported as 0..100 percent; an empty context as 0, a full one as 100. */
  lemma PercentUsedBounds(tokensUsed: int)
    requires 0 <= tokensUsed <= MaxTokens
    ensures 0 <= PercentUsed(tokensUsed) <= 100
    ensures tokensUsed == 0 ==> PercentUsed(tokensUsed) == 0
    ensures tokensUsed == MaxTokens ==> PercentUsed(tokensUsed) == 100
  {
  }

  /** A suffix of a suffix is a suffix, and its neighbour on the left is the same element in both. */
  lemma SuffixOfSuffix(s: seq<ChatMsg>, c: seq<ChatMsg>, t: seq<ChatMsg>)
    requires |c| <= |s| && c == s[|s| - |c|..]
    requires |t| <= |c| && t == c[|c| - |t|..]
    ensures t == s[|s| - |t|..]
    ensures |t| < |c| ==> c[|c| - |t| - 1] == s[|s| - |t| - 1]
  {
  }

  /** The shape of `[first, ...rest]`. */
  lemma Prepended(first: ChatMsg, rest: seq<ChatMsg>)
    ensures |[first] + rest| == |rest| + 1
    ensures ([first] + rest)[0] == first && ([first] + rest)[1..] == rest
  {
    assert ([first] + rest)[1..] == rest;
  }

  /**
   * The history part of `buildChatMessages`: the last five messages, scanned
   * newest-first against `budget`. The selection is a suffix of the whole
   * history, paid for out of the budget, and the next-older candidate did not fit.
   */
  method SelectHistory(recent: seq<ChatMsg>, budget: int) returns (included: seq<ChatMsg>, remaining: int)
    ensures |included| <= MaxMessages && |included| <= |recent|
    ensures included == recent[|recent| - |included|..]
    ensures remaining == budget - TokensOf(included)
    ensures budget >= 0 ==> remaining >= 0
    ensures budget < 0 ==> included == []
    ensures |included| < |LastMessages(recent)| ==> remaining < EstimateTokens(recent[|recent| - |included| - 1].content)
  {
    var candidates := LastMessages(recent);
    included, remaining := FitNewestFirst(candidates, budget);
    SuffixOfSuffix(recent, candidates, included);
  }

  /**
   * `buildChatMessages` with the system prompt text as a parameter: the system
   * message comes first, followed by a suffix of at most five of the recent
   * messages, chosen newest-first under the 8000-token budget left after the
   * system message, and the context report that describes the selection.
   */
  method BuildChatMessages(systemPrompt: string, recentMessages: seq<ChatMsg>, editorCode: string)
    returns (messages: seq<ChatMsg>, contextInfo: ContextInfo)
    ensures |messages| >= 1
    ensures messages[0] == ChatMsg(System, SystemContent(systemPrompt, CapEditorCode(editorCode)))
    ensures |messages| - 1 <= MaxMessages && |messages| - 1 <= |recentMessages|
    ensures messages[1..] == recentMessages[|recentMessages| - (|messages| - 1)..]
    ensures contextInfo.messagesIncluded == |messages| - 1
    ensures contextInfo.maxMessages == MaxMessages && contextInfo.maxTokens == MaxTokens
    ensures contextInfo.tokensUsed == EstimateTokens(messages[0].content) + TokensOf(messages[1..])
    ensures EstimateTokens(messages[0].content) <= MaxTokens ==> contextInfo.tokensUsed <= MaxTokens
    ensures EstimateTokens(messages[0].content) > MaxTokens ==> |messages| == 1
    ensures |messages| - 1 < |LastMessages(recentMessages)| ==>
              EstimateTokens(recentMessages[|recentMessages| - |messages|].content) > MaxTokens - contextInfo.tokensUsed
    ensures contextInfo.percentUsed == PercentUsed(contextInfo.tokensUsed)
  {
    var codeSnippet := CapEditorCode(editorCode);
    var systemMessage := ChatMsg(System, SystemContent(systemPrompt, codeSnippet));
    var systemTokens := EstimateTokens(systemMessage.content);
    var truncatedMessages, remainingTokens := SelectHistory(recentMessages, MaxTokens - systemTokens);
    var totalTokens := MaxTokens - remainingTokens;
    contextInfo := ContextInfo(|truncatedMessages|, MaxMessages, totalTokens, MaxTokens, PercentUsed(totalTokens));
    messages := [systemMessage] + truncatedMessages;
    Prepended(systemMessage, truncatedMessages);
  }
}
