/**
  The model-backed reply path: each call keeps a history of
  "Customer: ..." / "Assistant: ..." lines, renders the last six of them into a
  prompt, hands the prompt to the language model and cleans up what comes back.
  The model itself is not modelled: what generation produced for the rendered
  prompt (the decoded text, or the fact that it raised) is an input.
 */
module Llm {
  import opened Text

  /** The persona instructions placed before the conversation (the source's triple-quoted literal, indentation included). */
  const SystemPrompt: string :=
    "You are a helpful customer service representative.\n"
    + "            Be polite, professional, and concise. Keep responses under 40 words.\n"
    + "            If you don't know something, offer to connect them with a specialist."

  /** What the caller gets when the cleaned reply is shorter than three characters. */
  const Fallback: string := "I understand. How else can I help you?"

  /** What the caller gets when generation raises. */
  const Apology: string := "I apologize for the technical difficulty. How can I assist you?"

  /** The number of trailing history lines shown to the model (`history[-6:]`). */
  const WindowSize: nat := 6

  const CustomerPrefix: string := "Customer: "
  const AssistantPrefix: string := "Assistant: "

  /** What the tokenizer/model/decoder pipeline produced for one prompt. */
  datatype Generation = Generated(raw: string) | Raised

  function CustomerLine(userInput: string): string {
    CustomerPrefix + userInput
  }

  function AssistantLine(reply: string): string {
    AssistantPrefix + reply
  }

  /** A line that the reply path itself wrote into a history. */
  predicate IsHistoryLine(line: string) {
    CustomerPrefix <= line || AssistantPrefix <= line
  }

  predicate Tagged(history: seq<string>) {
    forall i :: 0 <= i < |history| ==> IsHistoryLine(history[i])
  }

  /**
    `history[-6:]`: the last `min(6, n)` lines, oldest first, i.e. the
    suffix of the history of that length.
   */
  function Window(history: seq<string>): (w: seq<string>)
    ensures |w| == if |history| < WindowSize then |history| else WindowSize
    ensures w == history[|history| - |w|..]
  {
    if |history| <= WindowSize then history else history[|history| - WindowSize..]
  }

  /** Lines older than the window have no influence on it. */
  lemma WindowIgnoresOlderLines(older: seq<string>, recent: seq<string>)
    requires |recent| >= WindowSize
    ensures Window(older + recent) == Window(recent)
  {
    assert (older + recent)[|older + recent| - WindowSize..] == recent[|recent| - WindowSize..];
  }

  /** The opening of every prompt: the persona and the conversation heading. */
  function PromptHeader(): string {
    SystemPrompt + "\n\nConversation:\n"
  }

  /** The closing of every prompt, which cues the model to speak as the assistant. */
  const PromptTrailer: string := "\nAssistant:"

  /**
    The prompt `f"{system_prompt}\n\nConversation:\n{context}\nAssistant:"`,
    where the context is the window joined by newlines: it opens with the
    persona and the conversation heading, closes with the assistant cue, and
    holds exactly the joined window in between.
   */
  function RenderPrompt(history: seq<string>): (prompt: string)
    ensures PromptHeader() <= prompt
    ensures |prompt| >= |PromptHeader()| + |PromptTrailer|
    ensures prompt[|prompt| - |PromptTrailer|..] == PromptTrailer
    ensures prompt[|PromptHeader()|..|prompt| - |PromptTrailer|] == Join(Window(history), "\n")
  {
    var context := Join(Window(history), "\n");
    var prompt := PromptHeader() + context + PromptTrailer;
    assert prompt[|PromptHeader()|..|prompt| - |PromptTrailer|] == context;
    prompt
  }

  /**
    The prompt rendered right after a customer line is appended ends with
    that line followed by the assistant cue. (The tokenizer's 400-token
    truncation, which this model leaves out, may still cut that tail off
    before the model sees it.)
   */
  lemma {:induction false} PromptEndsWithLatestCustomerLine(history: seq<string>, userInput: string)
    ensures var prompt := RenderPrompt(history + [CustomerLine(userInput)]);
            var tail := CustomerLine(userInput) + PromptTrailer;
            |tail| <= |prompt| && prompt[|prompt| - |tail|..] == tail
  {
    var asked := history + [CustomerLine(userInput)];
    var context := Join(Window(asked), "\n");
    ContextEndsWithLatestLine(history, CustomerLine(userInput));
    assert RenderPrompt(asked) == PromptHeader() + context + PromptTrailer;
    SuffixThroughConcat(PromptHeader(), context, PromptTrailer, CustomerLine(userInput));
  }

  /** The conversation context ends with the line appended last. */
  lemma ContextEndsWithLatestLine(history: seq<string>, line: string)
    ensures var context := Join(Window(history + [line]), "\n");
            |line| <= |context| && context[|context| - |line|..] == line
  {
    var w := Window(history + [line]);
    assert w[|w| - 1] == line;
  }

  /** A suffix of the middle part, followed by the last part, is a suffix of the whole. */
  lemma SuffixThroughConcat(a: string, b: string, c: string, x: string)
    requires |x| <= |b| && b[|b| - |x|..] == x
    ensures |x + c| <= |a + b + c| && (a + b + c)[|a + b + c| - |x + c|..] == x + c
  {
    assert (a + b + c)[|a + b + c| - |x + c|..] == b[|b| - |x|..] + c;
  }

  /** Two histories that agree on their last six lines yield the same prompt. */
  lemma PromptDependsOnlyOnWindow(older: seq<string>, recent: seq<string>)
    requires |recent| >= WindowSize
    ensures RenderPrompt(older + recent) == RenderPrompt(recent)
  {
    WindowIgnoresOlderLines(older, recent);
  }

  /**
    `raw.strip().replace("Assistant:", "")`: never longer than the decoding,
    and empty when the decoding is blank.
   */
  function CleanReply(raw: string): (cleaned: string)
    ensures |cleaned| <= |raw|
    ensures AllSpace(raw) ==> cleaned == []
  {
    RemoveTag(Strip(raw))
  }

  /**
    The reply the caller receives for decoded text `raw`: the cleaned text
    when it has at least three characters, the fixed fallback otherwise; so
    it always has at least three characters.
   */
  function Sanitize(raw: string): (reply: string)
    ensures |reply| >= 3
    ensures |CleanReply(raw)| >= 3 ==> reply == CleanReply(raw)
    ensures |CleanReply(raw)| < 3 ==> reply == Fallback
  {
    var cleaned := CleanReply(raw);
    if |cleaned| < 3 then Fallback else cleaned
  }

  /** An empty or blank decoding yields the fallback. */
  lemma SanitizeBlank(raw: string)
    requires AllSpace(raw)
    ensures Sanitize(raw) == Fallback
  {
    assert Strip(raw) == [];
  }

  /** A bare tag yields the fallback too: the tag is removed and nothing is left. */
  lemma SanitizeBareTag()
    ensures Sanitize(AssistantTag) == Fallback
  {
    StripKeepsTrimmed(AssistantTag);
    RemoveTagDropsLeadingTag([]);
    assert AssistantTag + [] == AssistantTag;
  }

  /** A decoding that is already trimmed, tag-free and long enough comes back verbatim. */
  lemma SanitizeKeepsCleanReply(raw: string)
    requires |raw| >= 3 && !IsSpace(raw[0]) && !IsSpace(raw[|raw| - 1])
    requires forall i :: 0 <= i < |raw| ==> !TagAt(raw, i)
    ensures Sanitize(raw) == raw
  {
    StripKeepsTrimmed(raw);
    RemoveTagKeepsUntagged(raw);
  }

  /**
    Whitespace is stripped before the tag is removed, so a reply that opens
    with the tag keeps the space that followed it: `"Assistant: Sure"` yields
    `" Sure"`.
   */
  lemma SanitizeKeepsSpaceAfterTag(rest: string)
    requires |rest| >= 3 && !IsSpace(rest[|rest| - 1])
    requires forall i :: 0 <= i < |rest| ==> !TagAt(rest, i)
    ensures Sanitize(AssistantTag + rest) == rest
  {
    var raw := AssistantTag + rest;
    assert raw[0] == 'A' && raw[|raw| - 1] == rest[|rest| - 1];
    StripKeepsTrimmed(raw);
    RemoveTagDropsLeadingTag(rest);
    RemoveTagKeepsUntagged(rest);
  }

  /** The reply returned and the updated history after one pass through the reply path. */
  datatype Exchange = Exchange(reply: string, history: seq<string>)

  /**
    One call of the reply path on a call's history, given what generation
    produced for the prompt rendered after the customer line was appended:
    on a decoding, the sanitised reply is returned and its assistant line
    appended; if generation raised, the apology is returned and the history
    keeps the customer line only.
   */
  function LlmExchange(history: seq<string>, userInput: string, outcome: Generation): (e: Exchange)
    ensures |e.reply| >= 3
    ensures outcome.Raised? ==> e.reply == Apology && e.history == history + [CustomerLine(userInput)]
    ensures outcome.Generated? ==> e.reply == Sanitize(outcome.raw)
                                   && e.history == history + [CustomerLine(userInput)] + [AssistantLine(e.reply)]
  {
    var asked := history + [CustomerLine(userInput)];
    match outcome
    case Raised => Exchange(Apology, asked)
    case Generated(raw) =>
      var reply := Sanitize(raw);
      Exchange(reply, asked + [AssistantLine(reply)])
  }

  /** The reply path only ever writes customer and assistant lines. */
  lemma LlmExchangeKeepsTagged(history: seq<string>, userInput: string, outcome: Generation)
    requires Tagged(history)
    ensures Tagged(LlmExchange(history, userInput, outcome).history)
  {
    var e := LlmExchange(history, userInput, outcome);
    var asked := history + [CustomerLine(userInput)];
    assert CustomerPrefix <= CustomerLine(userInput);
    TaggedSnoc(history, CustomerLine(userInput));
    if outcome.Generated? {
      assert AssistantPrefix <= AssistantLine(e.reply);
      TaggedSnoc(asked, AssistantLine(e.reply));
      assert e.history == asked + [AssistantLine(e.reply)];
    }
  }

  /** Appending a customer or assistant line keeps a history tagged. */
  lemma TaggedSnoc(history: seq<string>, line: string)
    requires Tagged(history) && IsHistoryLine(line)
    ensures Tagged(history + [line])
  {
    forall i | 0 <= i < |history| + 1
      ensures IsHistoryLine((history + [line])[i])
    {
      if i < |history| {
        assert (history + [line])[i] == history[i];
      }
    }
  }

  /**
    After generation raises, the next call appends its customer line right
    after the previous one: the history then holds two customer lines in a row.
   */
  lemma FailureLeavesConsecutiveCustomerLines(history: seq<string>, first: string, second: string, next: Generation)
    ensures var after := LlmExchange(LlmExchange(history, first, Raised).history, second, next).history;
            |after| >= |history| + 2 && after[|history|..|history| + 2] == [CustomerLine(first), CustomerLine(second)]
  {
    var mid := LlmExchange(history, first, Raised).history;
    var after := LlmExchange(mid, second, next).history;
    var asked := mid + [CustomerLine(second)];
    assert asked <= after;
    assert after[|history|] == asked[|history|];
    assert after[|history| + 1] == asked[|history| + 1];
  }
}
