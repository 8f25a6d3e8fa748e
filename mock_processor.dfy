/**
  The demo-mode stand-in for speech recognition and reply generation: a
  round-robin counter over two fixed lists of seven sentences.
 */
module Mock {

  /** The canned replies, in the order the counter hands them out. */
  const MockResponses: seq<string> := [
    "I understand you'd like assistance. How can I help you today?",
    "Thank you for that information. Let me help you with that.",
    "I see. Could you provide more details about your request?",
    "That's a great question. Let me explain that for you.",
    "I'll be happy to assist you with that. What else would you like to know?",
    "Is there anything specific you'd like help with?",
    "Thank you for calling. How else can I assist you today?"
  ]

  /** The canned transcriptions, indexed by the same counter. */
  const MockInputs: seq<string> := [
    "Hello, I need help with my account",
    "Can you help me with billing questions?",
    "I want to know about your services",
    "How do I cancel my subscription?",
    "What are your business hours?",
    "Can I speak to a manager?",
    "Thank you for your help"
  ]

  /** The reply handed out when the counter stands at `i`: a non-empty canned sentence. */
  function MockReply(i: nat): (r: string)
    ensures r in MockResponses && |r| > 0
  {
    MockResponses[i % |MockResponses|]
  }

  /** The transcription returned when the counter stands at `i`: a non-empty canned sentence. */
  function MockTranscript(i: nat): (t: string)
    ensures t in MockInputs && |t| > 0
  {
    MockInputs[i % |MockInputs|]
  }

  /** The rotation has period seven. */
  lemma MockReplyPeriodic(i: nat)
    ensures MockReply(i + 7) == MockReply(i)
    ensures MockTranscript(i + 7) == MockTranscript(i)
  {
  }

  /** Two consecutive calls never hand out the same sentence. */
  lemma {:induction false} MockReplyNeverRepeatsAtOnce(i: nat)
    ensures MockReply(i + 1) != MockReply(i)
  {
    var k := i % 7;
    assert (i + 1) % 7 == if k == 6 then 0 else k + 1;
    var next := if k == 6 then 0 else k + 1;
    // the seven sentences have pairwise different lengths
    if k == 0 { assert |MockResponses[0]| == 61 && |MockResponses[1]| == 58; }
    else if k == 1 { assert |MockResponses[1]| == 58 && |MockResponses[2]| == 57; }
    else if k == 2 { assert |MockResponses[2]| == 57 && |MockResponses[3]| == 53; }
    else if k == 3 { assert |MockResponses[3]| == 53 && |MockResponses[4]| == 72; }
    else if k == 4 { assert |MockResponses[4]| == 72 && |MockResponses[5]| == 48; }
    else if k == 5 { assert |MockResponses[5]| == 48 && |MockResponses[6]| == 55; }
    else { assert |MockResponses[6]| == 55 && |MockResponses[0]| == 61; }
  }

  /** Any seven consecutive calls hand out every canned reply: reply `j` comes within the next seven. */
  lemma {:induction false} MockReplyCoversAll(i: nat, j: nat)
    requires j < |MockResponses|
    ensures exists n :: i <= n < i + 7 && MockReply(n) == MockResponses[j]
  {
    var base := i - i % 7;
    var n := if j >= i % 7 then base + j else base + 7 + j;
    PositionInRound(i / 7, j);
    PositionInRound(i / 7 + 1, j);
    assert MockReply(n) == MockResponses[j];
  }

  /** Position `j` of round `q` of the rotation is counter value `7 * q + j`. */
  lemma PositionInRound(q: nat, j: nat)
    requires j < 7
    ensures (7 * q + j) % 7 == j
  {
  }

  class MockAudioProcessor {
    /** The reply list, fixed at construction. */
    const responses: seq<string> := MockResponses
    /** How many replies have been handed out so far. */
    var responseIndex: nat

    constructor ()
      ensures responseIndex == 0
    {
      responseIndex := 0;
    }

    /**
      The mock speech-to-text ignores the audio and reads the transcription at
      the current counter position; it does not advance the counter.
     */
    function Transcribe(audio: seq<bv8>): (text: string)
      reads this
      ensures |text| > 0 && text in MockInputs
      ensures text == MockTranscript(responseIndex)
    {
      MockTranscript(responseIndex)
    }

    /** Hands out the reply at the current counter position and advances the counter by one. */
    method GenerateResponse(userInput: string) returns (response: string)
      modifies this
      ensures response == MockReply(old(responseIndex))
      ensures responseIndex == old(responseIndex) + 1
      ensures |response| > 0 && response in responses
    {
      response := responses[responseIndex % |responses|];
      responseIndex := responseIndex + 1;
    }
  }
}
