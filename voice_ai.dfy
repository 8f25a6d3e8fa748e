/**
  The service object of the voice backend: it dispatches reply generation to
  the mock processor or to the model-backed path, keeps the per-call model
  histories (`active_calls`) and the demo conversation log
  (`demo_conversations`), and mints the identifiers of demo conversations and
  demo calls from the current time in whole seconds.
 */
module VoiceAi {
  import opened Wrappers
  import opened Text
  import opened Mock
  import opened Llm

  /** What transcription yields when no recogniser is loaded or it failed. */
  const NotHeard: string := "Sorry, I didn't catch that."

  /** `datetime.now().isoformat()`, kept opaque. */
  type Timestamp = string

  /** One record of a demo conversation, with the keys the source gives it. */
  datatype Message = Message(timestamp: Timestamp, speaker: string, message: string, kind: string)

  function UserMessage(timestamp: Timestamp, text: string): Message {
    Message(timestamp, "user", text, "text")
  }

  function AiMessage(timestamp: Timestamp, text: string): Message {
    Message(timestamp, "ai", text, "text")
  }

  /** The dictionary `process_demo_conversation` returns. */
  datatype DemoResult = DemoResult(conversationId: string, userMessage: Message, aiResponse: Message,
                                   conversationHistory: seq<Message>)

  /**
    `f"demo_{int(time.time())}"` for the whole seconds `seconds`: the prefix
    `demo_` followed by the decimal seconds, from which the seconds can be read back.
   */
  function MintedConversationId(seconds: nat): (id: string)
    ensures |id| > 5 && id[..5] == "demo_"
    ensures AllDigits(id[5..]) && DecimalValue(id[5..]) == seconds
  {
    var id := "demo_" + NatToDecimal(seconds);
    assert id[5..] == NatToDecimal(seconds);
    id
  }

  /** Minted ids coincide exactly when they are minted within the same second. */
  lemma MintedIdsCoincideWithinOneSecond(a: nat, b: nat)
    ensures MintedConversationId(a) == MintedConversationId(b) <==> a == b
  {
  }

  /** `f"demo_call_{int(time.time())}"`, the call id of the demo branch of an outbound call. */
  function DemoCallId(seconds: nat): (id: string)
    ensures |id| > 10 && id[..10] == "demo_call_"
    ensures AllDigits(id[10..]) && DecimalValue(id[10..]) == seconds
  {
    var id := "demo_call_" + NatToDecimal(seconds);
    assert id[10..] == NatToDecimal(seconds);
    id
  }

  /**
    The conversation id a demo exchange runs under: the caller's id when it is
    a non-empty string, a freshly minted one when it is `None` or empty.
   */
  function ResolveConversationId(requested: Option<string>, seconds: nat): (id: string)
    ensures id != []
    ensures requested.Some? && requested.value != [] ==> id == requested.value
    ensures requested == None || requested == Some([]) ==> id == MintedConversationId(seconds)
  {
    if requested.None? || requested.value == [] then MintedConversationId(seconds) else requested.value
  }

  /** Calls without an id in the same second land in the same conversation. */
  lemma UnnamedRequestsShareIdWithinOneSecond(first: Option<string>, second: Option<string>, seconds: nat)
    requires first == None || first == Some([])
    requires second == None || second == Some([])
    ensures ResolveConversationId(first, seconds) == ResolveConversationId(second, seconds)
  {
  }

  /** The records of conversation `id`, or none when it does not exist yet. */
  function ConversationOf(store: map<string, seq<Message>>, id: string): seq<Message> {
    if id in store then store[id] else []
  }

  /**
    The demo log after one exchange on conversation `id`: the conversation is
    created if missing and the user record then the ai record are appended.
   */
  function RecordExchange(store: map<string, seq<Message>>, id: string, user: Message, ai: Message): (after: map<string, seq<Message>>)
    ensures after.Keys == store.Keys + {id}
    ensures after[id] == ConversationOf(store, id) + [user, ai]
  {
    store[id := ConversationOf(store, id) + [user, ai]]
  }

  /**
    An exchange grows its own conversation by exactly two records, keeps every
    earlier record in place and leaves every other conversation untouched.
   */
  lemma RecordExchangeFrame(store: map<string, seq<Message>>, id: string, user: Message, ai: Message, other: string)
    ensures var after := RecordExchange(store, id, user, ai);
            |after[id]| == |ConversationOf(store, id)| + 2
            && ConversationOf(store, id) <= after[id]
            && after[id][|after[id]| - 2] == user && after[id][|after[id]| - 1] == ai
            && (other != id ==> ConversationOf(after, other) == ConversationOf(store, other))
  {
  }

  /**
    The shape every demo conversation has: an even number of text records,
    alternating user then ai.
   */
  predicate WellFormedConversation(records: seq<Message>) {
    && |records| % 2 == 0
    && forall i :: 0 <= i < |records| ==>
         records[i].kind == "text" && records[i].speaker == (if i % 2 == 0 then "user" else "ai")
  }

  predicate WellFormedLog(store: map<string, seq<Message>>) {
    forall id :: id in store ==> WellFormedConversation(store[id])
  }

  /** Recording a user record and an ai record keeps every conversation alternating. */
  lemma {:induction false} RecordExchangeKeepsWellFormed(store: map<string, seq<Message>>, id: string,
                                                         userStamp: Timestamp, userText: string,
                                                         aiStamp: Timestamp, aiText: string)
    requires WellFormedLog(store)
    ensures WellFormedLog(RecordExchange(store, id, UserMessage(userStamp, userText), AiMessage(aiStamp, aiText)))
  {
    var after: map<string, seq<Message>> := RecordExchange(store, id, UserMessage(userStamp, userText), AiMessage(aiStamp, aiText));
    var before: seq<Message> := ConversationOf(store, id);
    assert WellFormedConversation(before);
    var n := |before|;
    forall i | 0 <= i < |after[id]|
      ensures after[id][i].kind == "text" && after[id][i].speaker == (if i % 2 == 0 then "user" else "ai")
    {
      if i == n {
        assert i % 2 == 0;
      } else if i == n + 1 {
        assert i % 2 == 1;
      } else {
        assert after[id][i] == before[i];
      }
    }
    assert WellFormedConversation(after[id]);
    forall k | k in after
      ensures WellFormedConversation(after[k])
    {
      if k != id {
        assert after[k] == store[k];
      }
    }
  }

  /** The model history of call `key`, or the empty history when the call is not known yet. */
  function HistoryOf(calls: map<Option<string>, seq<string>>, key: Option<string>): seq<string> {
    if key in calls then calls[key] else []
  }

  predicate TaggedCalls(calls: map<Option<string>, seq<string>>) {
    forall key :: key in calls ==> Tagged(calls[key])
  }

  /** Writing a key twice leaves the second value. */
  lemma UpdateTwice<K, V>(m: map<K, V>, k: K, first: V, second: V)
    ensures m[k := first][k := second] == m[k := second]
  {
  }

  /** What one reply generation yields: the reply, the model histories and the mock counter afterwards. */
  datatype Dispatched = Dispatched(reply: string, activeCalls: map<Option<string>, seq<string>>, responseIndex: nat)

  /**
    What generation yields on the model-backed path: without a loaded
    tokenizer and model, the first call on them raises.
   */
  function EffectiveOutcome(llmLoaded: bool, outcome: Generation): Generation {
    if llmLoaded then outcome else Raised
  }

  /**
    `VoiceAI.generate_response`: in demo mode without a loaded model the mock
    hands out its next canned reply and advances its counter, and no model
    history changes; otherwise (a loaded model, or production mode) the
    model-backed path runs on the history of `key`, which is created if
    missing, and no other history and not the counter changes. Either way
    the reply is non-empty. Here `outcome` is what a loaded model would
    produce for the prompt; `EffectiveOutcome` turns it into what the
    model-backed path actually meets.
   */
  function Dispatch(demoMode: bool, llmLoaded: bool, responseIndex: nat, calls: map<Option<string>, seq<string>>,
                    key: Option<string>, userInput: string, outcome: Generation): (d: Dispatched)
    ensures |d.reply| > 0
  {
    if demoMode && !llmLoaded then
      Dispatched(MockReply(responseIndex), calls, responseIndex + 1)
    else
      var e := LlmExchange(HistoryOf(calls, key), userInput, EffectiveOutcome(llmLoaded, outcome));
      Dispatched(e.reply, calls[key := e.history], responseIndex)
  }

  /**
    What one generation changes: in demo mode without a loaded model the mock
    reply, the counter advanced by one and no model history; in production
    mode without a model the apology `Apology`; in every case but the first the
    counter is kept, only the history of `key` changes (it is created if
    missing) and it gains the customer line right after its old lines.
   */
  lemma {:induction false} DispatchEffects(demoMode: bool, llmLoaded: bool, responseIndex: nat,
                                           calls: map<Option<string>, seq<string>>,
                                           key: Option<string>, userInput: string, outcome: Generation)
    ensures var d := Dispatch(demoMode, llmLoaded, responseIndex, calls, key, userInput, outcome);
            && (demoMode && !llmLoaded ==>
                  d.reply == MockReply(responseIndex) && d.responseIndex == responseIndex + 1 && d.activeCalls == calls)
            && (!demoMode && !llmLoaded ==> d.reply == Apology)
            && (!(demoMode && !llmLoaded) ==>
                  && d.responseIndex == responseIndex
                  && d.activeCalls.Keys == calls.Keys + {key}
                  && (forall k :: k in calls && k != key ==> d.activeCalls[k] == calls[k])
                  && HistoryOf(calls, key) < d.activeCalls[key]
                  && d.activeCalls[key][|HistoryOf(calls, key)|] == CustomerLine(userInput))
  {
  }

  /** In demo mode without a loaded model, `Dispatch` is the mock's step. */
  lemma DispatchToMock(llmLoaded: bool, responseIndex: nat, calls: map<Option<string>, seq<string>>,
                       key: Option<string>, userInput: string, outcome: Generation)
    requires !llmLoaded
    ensures Dispatch(true, llmLoaded, responseIndex, calls, key, userInput, outcome)
            == Dispatched(MockReply(responseIndex), calls, responseIndex + 1)
  {
  }

  /** Otherwise `Dispatch` is one pass of the model-backed path on the history of `key`. */
  lemma DispatchToModel(demoMode: bool, llmLoaded: bool, responseIndex: nat, calls: map<Option<string>, seq<string>>,
                        key: Option<string>, userInput: string, outcome: Generation)
    requires !(demoMode && !llmLoaded)
    ensures var e := LlmExchange(HistoryOf(calls, key), userInput, EffectiveOutcome(llmLoaded, outcome));
            Dispatch(demoMode, llmLoaded, responseIndex, calls, key, userInput, outcome)
            == Dispatched(e.reply, calls[key := e.history], responseIndex)
  {
  }

  /** Reply generation only ever writes customer and assistant lines into the model histories. */
  lemma DispatchKeepsTaggedCalls(demoMode: bool, llmLoaded: bool, responseIndex: nat, calls: map<Option<string>, seq<string>>,
                                 key: Option<string>, userInput: string, outcome: Generation)
    requires TaggedCalls(calls)
    ensures TaggedCalls(Dispatch(demoMode, llmLoaded, responseIndex, calls, key, userInput, outcome).activeCalls)
  {
    if !(demoMode && !llmLoaded) {
      LlmExchangeKeepsTagged(HistoryOf(calls, key), userInput, EffectiveOutcome(llmLoaded, outcome));
    }
  }

  class VoiceAI {
    /** `DEMO_MODE`, read once at start-up. */
    const demoMode: bool
    /** Whether both the tokenizer and the causal language model were loaded. */
    const llmLoaded: bool
    /** The demo-mode stand-in for recognition and generation. */
    const mock: MockAudioProcessor
    /** `active_calls`: the model history of each call, keyed by a possibly missing id. */
    var activeCalls: map<Option<string>, seq<string>>
    /** `demo_conversations`: the record list of each demo conversation. */
    var demoConversations: map<string, seq<Message>>

    ghost predicate Valid()
      reads this
    {
      TaggedCalls(activeCalls) && WellFormedLog(demoConversations)
    }

    constructor (demoMode: bool, llmLoaded: bool)
      ensures this.demoMode == demoMode && this.llmLoaded == llmLoaded
      ensures activeCalls == map[] && demoConversations == map[]
      ensures fresh(mock) && mock.responseIndex == 0
      ensures Valid()
    {
      this.demoMode := demoMode;
      this.llmLoaded := llmLoaded;
      mock := new MockAudioProcessor();
      activeCalls := map[];
      demoConversations := map[];
    }

    /**
      `transcribe_audio`: in demo mode the mock transcription; otherwise the
      stripped text the recogniser produced, or `NotHeard` when there is
      no recogniser or it failed (`recognized == None`).
     */
    function TranscribeAudio(audio: seq<bv8>, recognized: Option<string>): (text: string)
      reads this, mock
      ensures demoMode ==> |text| > 0 && text in MockInputs && text == MockTranscript(mock.responseIndex)
      ensures !demoMode && recognized.Some? ==> text == Strip(recognized.value)
      ensures !demoMode && recognized.None? ==> text == NotHeard
    {
      if demoMode then mock.Transcribe(audio)
      else if recognized.Some? then Strip(recognized.value)
      else NotHeard
    }

    /** `demo_conversations[id].append(record)`, creating the conversation first when it is new. */
    method AppendRecord(id: string, record: Message)
      modifies this`demoConversations
      ensures demoConversations == old(demoConversations)[id := ConversationOf(old(demoConversations), id) + [record]]
    {
      if id !in demoConversations {
        demoConversations := demoConversations[id := []];
      }
      demoConversations := demoConversations[id := demoConversations[id] + [record]];
    }

    /**
      `_generate_llm_response`, step by step on `active_calls`; `outcome` is
      what the tokenizer, the sampling model and the decoder produced for the
      rendered prompt, or the fact that one of them raised.
     */
    method GenerateLlmResponse(userInput: string, conversationId: Option<string>, outcome: Generation)
      returns (prompt: string, response: string)
      modifies this`activeCalls
      ensures prompt == RenderPrompt(HistoryOf(old(activeCalls), conversationId) + [CustomerLine(userInput)])
      ensures var expected := LlmExchange(HistoryOf(old(activeCalls), conversationId), userInput, outcome);
              && response == expected.reply
              && activeCalls == old(activeCalls)[conversationId := expected.history]
    {
      ghost var before := activeCalls;
      ghost var expected := LlmExchange(HistoryOf(before, conversationId), userInput, outcome);
      var history := HistoryOf(activeCalls, conversationId) + [CustomerLine(userInput)];
      activeCalls := activeCalls[conversationId := history];
      prompt := RenderPrompt(history);
      if outcome.Raised? {
        response := Apology;
      } else {
        response := Sanitize(outcome.raw);
        var asked := history;
        history := history + [AssistantLine(response)];
        activeCalls := activeCalls[conversationId := history];
        UpdateTwice(before, conversationId, asked, history);
      }
      assert expected.history == history;
    }

    /**
      `generate_response`: the mock or the model-backed path, as `Dispatch`
      describes. As there, `outcome` is what a loaded model would produce; the
      model-backed path is handed `EffectiveOutcome(llmLoaded, outcome)`.
     */
    method GenerateResponse(userInput: string, conversationId: Option<string>, outcome: Generation)
      returns (response: string)
      requires TaggedCalls(activeCalls)
      modifies this`activeCalls, mock
      ensures TaggedCalls(activeCalls)
      ensures Dispatched(response, activeCalls, mock.responseIndex)
              == Dispatch(demoMode, llmLoaded, old(mock.responseIndex), old(activeCalls), conversationId, userInput, outcome)
    {
      ghost var calls := activeCalls;
      ghost var index := mock.responseIndex;
      DispatchKeepsTaggedCalls(demoMode, llmLoaded, index, calls, conversationId, userInput, outcome);
      if demoMode && !llmLoaded {
        response := mock.GenerateResponse(userInput);
        DispatchToMock(llmLoaded, index, calls, conversationId, userInput, outcome);
      } else {
        var prompt;
        prompt, response := GenerateLlmResponse(userInput, conversationId, EffectiveOutcome(llmLoaded, outcome));
        DispatchToModel(demoMode, llmLoaded, index, calls, conversationId, userInput, outcome);
      }
    }

    /**
      `process_demo_conversation`: resolves the conversation id, records the
      user's text verbatim, generates a reply for it under that id, records the
      reply as an ai record and returns both records with the whole
      conversation.
     */
    method ProcessDemoConversation(userInput: string, conversationId: Option<string>, seconds: nat,
                                   userStamp: Timestamp, aiStamp: Timestamp, outcome: Generation)
      returns (result: DemoResult)
      requires Valid()
      modifies this`activeCalls, this`demoConversations, mock
      ensures Valid()
      ensures result.conversationId == ResolveConversationId(conversationId, seconds)
      ensures result.userMessage == UserMessage(userStamp, userInput)
      ensures Dispatched(result.aiResponse.message, activeCalls, mock.responseIndex)
              == Dispatch(demoMode, llmLoaded, old(mock.responseIndex), old(activeCalls), Some(result.conversationId), userInput, outcome)
      ensures result.aiResponse == AiMessage(aiStamp, result.aiResponse.message)
      ensures demoConversations
              == RecordExchange(old(demoConversations), result.conversationId, result.userMessage, result.aiResponse)
      ensures result.conversationHistory == demoConversations[result.conversationId]
    {
      ghost var before := demoConversations;
      var id := ResolveConversationId(conversationId, seconds);
      var userMessage := UserMessage(userStamp, userInput);
      AppendRecord(id, userMessage);
      var aiText := GenerateResponse(userInput, Some(id), outcome);
      var aiMessage := AiMessage(aiStamp, aiText);
      AppendRecord(id, aiMessage);
      ghost var grown := ConversationOf(before, id) + [userMessage];
      UpdateTwice(before, id, grown, grown + [aiMessage]);
      assert grown + [aiMessage] == ConversationOf(before, id) + [userMessage, aiMessage];
      RecordExchangeKeepsWellFormed(before, id, userStamp, userInput, aiStamp, aiText);
      result := DemoResult(id, userMessage, aiMessage, demoConversations[id]);
    }
  }

  /**
    Two messages on a fresh service, the second naming the conversation the
    first one created: the second call continues that conversation, which then
    holds the user, ai, user, ai records of the two exchanges in order.
   */
  method ConversationContinuity(demoMode: bool, llmLoaded: bool, seconds1: nat, seconds2: nat,
                                stamps: seq<Timestamp>, outcome: Generation)
    returns (first: DemoResult, second: DemoResult)
    requires |stamps| == 4
    ensures first.conversationId == MintedConversationId(seconds1)
    ensures second.conversationId == first.conversationId
    ensures |first.conversationHistory| == 2 && |second.conversationHistory| == 4
    ensures second.conversationHistory[..2] == first.conversationHistory
    ensures second.conversationHistory[0].message == "Hello"
    ensures second.conversationHistory[2].message == "Can you help me?"
    ensures WellFormedConversation(second.conversationHistory)
    ensures |second.conversationHistory[1].message| > 0 && |second.conversationHistory[3].message| > 0
  {
    var service := new VoiceAI(demoMode, llmLoaded);
    first := service.ProcessDemoConversation("Hello", None, seconds1, stamps[0], stamps[1], outcome);
    second := service.ProcessDemoConversation("Can you help me?", Some(first.conversationId), seconds2,
                                              stamps[2], stamps[3], outcome);
    assert service.demoConversations[first.conversationId] == second.conversationHistory;
  }

  /**
    Two messages without an id in the same second on a fresh service end up in
    one conversation of four records.
   */
  method SameSecondSharesConversation(demoMode: bool, llmLoaded: bool, seconds: nat,
                                      stamps: seq<Timestamp>, outcome: Generation)
    returns (first: DemoResult, second: DemoResult)
    requires |stamps| == 4
    ensures first.conversationId == second.conversationId == MintedConversationId(seconds)
    ensures |second.conversationHistory| == 4
    ensures second.conversationHistory[0].message == "first" && second.conversationHistory[2].message == "second"
  {
    var service := new VoiceAI(demoMode, llmLoaded);
    first := service.ProcessDemoConversation("first", None, seconds, stamps[0], stamps[1], outcome);
    second := service.ProcessDemoConversation("second", Some(""), seconds, stamps[2], stamps[3], outcome);
  }

  /**
    An empty utterance is accepted: it is stored verbatim as an empty user
    record and answered with a non-empty ai record.
   */
  method EmptyInputAccepted(demoMode: bool, llmLoaded: bool, seconds: nat,
                            userStamp: Timestamp, aiStamp: Timestamp, outcome: Generation)
    returns (result: DemoResult)
    ensures result.userMessage == Message(userStamp, "user", "", "text")
    ensures result.aiResponse.speaker == "ai" && result.aiResponse.kind == "text"
    ensures |result.aiResponse.message| > 0
    ensures result.conversationHistory == [result.userMessage, result.aiResponse]
  {
    var service := new VoiceAI(demoMode, llmLoaded);
    result := service.ProcessDemoConversation("", None, seconds, userStamp, aiStamp, outcome);
  }

  /**
    With no model loaded in demo mode, the canned replies and transcriptions
    rotate: the transcription read before a reply sits at the same position in
    its list as that reply, and the next transcription moves on by one.
   */
  method MockRotation(audio: seq<bv8>, outcome: Generation) returns (heard: string, reply: string, next: string)
    ensures heard == MockInputs[0] && reply == MockResponses[0] && next == MockInputs[1]
  {
    var service := new VoiceAI(true, false);
    heard := service.TranscribeAudio(audio, None);
    reply := service.GenerateResponse(heard, None, outcome);
    next := service.TranscribeAudio(audio, None);
  }
}
