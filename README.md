# Voice AI service core, modelled in Dafny

The voice backend answers callers through one service object, `VoiceAI`.

In **demo mode** a mock processor always stands in for speech recognition, and for reply generation when no language model is loaded. It hands out seven canned replies and seven canned transcriptions in rotation, driven by one counter.

Otherwise replies come from the **model-backed path**:

- Each call keeps a history of `Customer: ...` / `Assistant: ...` lines in `active_calls`.
- The last six lines are joined into a prompt behind a fixed persona text.
- What the model produces is stripped, cleared of the `Assistant:` tag, and replaced by a fixed fallback when fewer than three characters are left.
- If generation raises, the caller gets a fixed apology, and the history keeps the customer line it had already received.

The **demo conversation endpoint** works as follows:

- It resolves a conversation id. When none or an empty one is given, it mints `demo_<seconds>` from the clock.
- It records the user's text and the reply as alternating `user`/`ai` records in `demo_conversations`.
- It returns both records and the whole conversation.

The project has five modules:

- `Wrappers` (`wrappers.dfy`): `Option`.
- `Text` (`text.dfy`): Python's `str.strip()`, `str.replace("Assistant:", "")`, `"\n".join` and `str(int)`.
- `Mock` (`mock_processor.dfy`): the mock processor, as a class with a counter field.
- `Llm` (`llm.dfy`): the pure model-backed reply path, i.e. window, prompt, sanitising, and one exchange as a value.
- `VoiceAi` (`voice_ai.dfy`): the service class.

The service class has these fields and members:

- The mutable maps `activeCalls` and `demoConversations`.
- `Valid`: every model history holds only customer/assistant lines, and every demo conversation alternates user/ai.
- Methods that are proved against the pure functions `Dispatch`, `LlmExchange`, `RenderPrompt` and `RecordExchange`.
- A few client scenarios, written as methods on a fresh service.

Loading the tokenizer and the language model is not modelled; whether both are loaded is the flag `llmLoaded`. Without them, the model-backed path is taken to raise at its first use of the tokenizer (src/voice_ai.py:280). That exception is caught, so the caller gets the apology, and the customer line has already been appended.

Python's `conversation_id=None` is a real dictionary key of `active_calls`. The model therefore keys that map by `Option<string>`.

## Model

| member | source | states |
|---|---|---|
| Text.Strip | src/voice_ai.py:292 | the result is a slice of the input with only whitespace (Python's `isspace` set) on either side; it neither starts nor ends with whitespace; it is empty exactly when the input is all whitespace |
| Text.StripKeepsTrimmed | src/voice_ai.py:292 | text without surrounding whitespace is returned unchanged by strip |
| Text.StripIdempotent | src/voice_ai.py:292 | stripping twice equals stripping once |
| Text.RemoveTag | src/voice_ai.py:292 | removing `Assistant:` never lengthens the text and shortens it by a whole number of tags; `RemoveTagDropsLeadingTag` and `RemoveTagDropsTagAfter` state which tags go |
| Text.RemoveTagKeepsUntagged | src/voice_ai.py:292 | text in which the tag occurs nowhere is returned unchanged |
| Text.RemoveTagDropsLeadingTag | src/voice_ai.py:292 | a tag at the start of the text is always removed |
| Text.RemoveTagDropsTagAfter | src/voice_ai.py:292 | a tag that follows tag-free text is removed: the text before it is kept and the text after it is processed the same way (so `Sure. Assistant: ok` loses its tag) |
| Text.Join | src/voice_ai.py:276 | a newline join is empty for no lines and is the line itself for one line; a longer list starts with its first line and ends with its last line (with `JoinSnoc`, this fixes the join exactly) |
| Text.JoinSnoc | src/voice_ai.py:276 | joining one more line appends the separator and that line |
| Text.NatToDecimal | src/voice_ai.py:333 | `str(n)` is a non-empty digit string without a leading zero whose decimal value is `n` |
| Text.NatToDecimalInjective | src/voice_ai.py:333 | two numbers render to the same digits exactly when they are equal |
| Mock.MockReply | src/voice_ai.py:118-122 | the reply at counter `i` is one of the seven canned replies and is non-empty |
| Mock.MockTranscript | src/voice_ai.py:105-116 | the transcription at counter `i` is one of the seven canned inputs and is non-empty |
| Mock.MockReplyPeriodic | src/voice_ai.py:116-120 | replies and transcriptions repeat with period seven |
| Mock.MockReplyNeverRepeatsAtOnce | src/voice_ai.py:94-122 | two consecutive replies always differ |
| Mock.MockReplyCoversAll | src/voice_ai.py:118-122 | every canned reply is handed out within any seven consecutive calls |
| Mock.MockAudioProcessor.constructor | src/voice_ai.py:92-103 | the counter starts at zero |
| Mock.MockAudioProcessor.Transcribe | src/voice_ai.py:105-116 | ignores the audio; returns the canned input at the counter position, which is in the list of inputs; does not advance the counter |
| Mock.MockAudioProcessor.GenerateResponse | src/voice_ai.py:118-122 | returns the canned reply at the old counter position and advances the counter by exactly one |
| Llm.Window | src/voice_ai.py:275 | `history[-6:]` is the suffix of the history of length `min(6, n)` |
| Llm.WindowIgnoresOlderLines | src/voice_ai.py:275 | lines older than the last six do not affect the window |
| Llm.RenderPrompt | src/voice_ai.py:267-277 | every prompt starts with the persona and the `Conversation:` heading, ends with `\nAssistant:`, and holds exactly the joined window in between |
| Llm.PromptEndsWithLatestCustomerLine | src/voice_ai.py:272-277 | after the customer line is appended, the prompt ends with that line followed by the assistant cue |
| Llm.ContextEndsWithLatestLine | src/voice_ai.py:275-276 | the joined context ends with the most recently appended line |
| Llm.PromptDependsOnlyOnWindow | src/voice_ai.py:275-277 | histories that agree on their last six lines give identical prompts |
| Llm.CleanReply | src/voice_ai.py:292 | the stripped, tag-free text is never longer than the decoding and is empty when the decoding is blank |
| Llm.Sanitize | src/voice_ai.py:292-295 | the reply always has at least three characters; it is the stripped, tag-free text when that is long enough, and the fixed fallback otherwise |
| Llm.SanitizeBlank | src/voice_ai.py:292-295 | an empty or all-whitespace decoding yields the fallback |
| Llm.SanitizeBareTag | src/voice_ai.py:292-295 | a decoding that is just `Assistant:` yields the fallback |
| Llm.SanitizeKeepsCleanReply | src/voice_ai.py:292-295 | a trimmed, tag-free decoding of three or more characters is returned verbatim |
| Llm.SanitizeKeepsSpaceAfterTag | src/voice_ai.py:292 | strip runs before tag removal, so `Assistant:` + `rest` yields `rest` including its leading whitespace |
| Llm.LlmExchange | src/voice_ai.py:257-304 | one pass of the reply path. The reply has at least three characters. If generation raised: the apology, with the customer line appended. Otherwise: the sanitised reply, with the customer line and then the assistant line appended |
| Llm.LlmExchangeKeepsTagged | src/voice_ai.py:272-298 | the reply path only ever writes `Customer: ` / `Assistant: ` lines into a history |
| Llm.FailureLeavesConsecutiveCustomerLines | src/voice_ai.py:272-304 | after a failed generation, the next call leaves two customer lines in a row in the history |
| VoiceAi.MintedConversationId | src/voice_ai.py:332-333 | a minted id is `demo_` followed by digits from which the seconds can be read back |
| VoiceAi.MintedIdsCoincideWithinOneSecond | src/voice_ai.py:333 | two minted ids are equal exactly when they were minted in the same second |
| VoiceAi.DemoCallId | src/voice_ai.py:371-374 | a demo call id is `demo_call_` followed by digits from which the seconds can be read back |
| VoiceAi.ResolveConversationId | src/voice_ai.py:332-333 | a non-empty caller id is kept; a missing or empty one is replaced by the minted id; the result is never empty |
| VoiceAi.UnnamedRequestsShareIdWithinOneSecond | src/voice_ai.py:332-333 | two requests without an id (missing or empty) in the same second get the same conversation |
| VoiceAi.RecordExchange | src/voice_ai.py:335-357 | an exchange creates the conversation if missing; the conversation becomes the old records followed by the user record and then the ai record |
| VoiceAi.RecordExchangeFrame | src/voice_ai.py:335-357 | an exchange grows its conversation by exactly two records, keeps earlier records as a prefix, and leaves every other conversation unchanged |
| VoiceAi.RecordExchangeKeepsWellFormed | src/voice_ai.py:339-357 | recording a user and an ai record keeps every conversation an even-length alternation of user/ai text records |
| VoiceAi.Dispatch | src/voice_ai.py:246-255 | whichever path answers, the reply is never empty |
| VoiceAi.DispatchEffects | src/voice_ai.py:246-255 | demo mode without a model: the mock reply, the counter advanced by one, model histories unchanged. Production mode without a model: the apology. In all cases but the first: the counter is unchanged, only the history of the given key changes (it is created if missing), and the customer line comes right after its old lines |
| VoiceAi.DispatchKeepsTaggedCalls | src/voice_ai.py:246-298 | dispatch keeps every model history made of customer/assistant lines |
| VoiceAi.VoiceAI.constructor | src/voice_ai.py:129-150 | a new service has empty model histories, an empty demo log, and a fresh mock whose counter is zero |
| VoiceAi.VoiceAI.TranscribeAudio | src/voice_ai.py:230-244 | demo mode: the mock transcription at the current counter. Otherwise: the stripped recogniser text, or `NotHeard` (`Sorry, I didn't catch that.`) when there is no recogniser or it failed |
| VoiceAi.VoiceAI.AppendRecord | src/voice_ai.py:335-345 | creates the conversation if missing and appends one record to it; the other conversations are unchanged |
| VoiceAi.VoiceAI.GenerateLlmResponse | src/voice_ai.py:257-304 | the prompt handed to the model is the rendering of the old history plus the customer line; the reply and the new `active_calls` are those of `LlmExchange` on the old history of that key |
| VoiceAi.VoiceAI.GenerateResponse | src/voice_ai.py:246-255 | the reply, the new model histories and the new mock counter are exactly `Dispatch` of the old state; the histories stay customer/assistant-only |
| VoiceAi.VoiceAI.ProcessDemoConversation | src/voice_ai.py:330-367 | resolves the id, records the user text verbatim, generates the reply under that id as `Dispatch` describes, and records it as an ai record. The demo log becomes `RecordExchange` of the old log. The returned history is the stored conversation. Both invariants are kept |
| VoiceAi.ConversationContinuity | src/voice_ai.py:330-367 | a second message naming the first one's conversation continues it: four alternating records, the first two unchanged, and both replies non-empty |
| VoiceAi.SameSecondSharesConversation | src/voice_ai.py:332-336 | two messages without an id in the same second share one conversation of four records |
| VoiceAi.EmptyInputAccepted | src/voice_ai.py:339-357 | an empty utterance is stored verbatim and answered with a non-empty ai record |
| VoiceAi.MockRotation | src/voice_ai.py:105-122 | in demo mode without a model, the first transcription and reply are the first canned ones, and the next transcription moves on by one |

## Left out

- Model loading and inference are not modelled: the tokenizer, the sampling language model and the decoder. What they produced for the prompt (decoded text, or the fact that they raised) is an input, because sampling is random. So is whether both were loaded (`llmLoaded`).
- Tokenizer truncation to 400 tokens and the 50-token generation limit are left out. They shape only the model's input and output, which are inputs here.
- Whisper and the audio conversion are not modelled. The recogniser's text, or its failure, is an input to `TranscribeAudio`.
- `VoiceAI.TranscribeAudio`: in production mode without a loaded Whisper model, the source raises an uncaught `AttributeError`, because the attribute is never set. The model returns `Sorry, I didn't catch that.` (`NotHeard`) instead.
- Text-to-speech (`text_to_speech`, both branches) is left out, as are the mock's `text_to_speech` and the temporary files. This is audio I/O.
- Production start-up is left out: Plivo, environment variables, `_load_models` and logging. The production branch of `make_outbound_call` (a Plivo API call) is left out too. These are external services and I/O.
- The clock is left out: `int(time.time())` is the parameter `seconds`. Timestamps (`datetime.now().isoformat()`) are opaque strings passed in.
- The FastAPI routes, the HTML page, the health endpoint and the WebSocket handler are left out. So is concurrency between requests.
- The model has a mock processor in production mode too. It is never used there; in the source it does not exist.
- `VoiceAi.VoiceAI.ProcessDemoConversation`: the returned `conversation_history` is a snapshot value. In the source it is the live list, and it keeps growing with later exchanges (aliasing).
- The `{'history': [...]}` wrapper of each `active_calls` entry is flattened to the list of lines itself.
