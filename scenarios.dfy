/** End-to-end requests against stub providers, each fixing the texts the providers answer with. */
module Scenarios {
  import opened Wrappers
  import opened Classifier
  import opened Providers
  import opened Chat

  /** A body without `message`, or with an empty one, is refused with 400 before any call. */
  method MissingMessage(gemini: Upstream<GeminiBody>, perplexity: Upstream<PerplexityBody>)
    returns (absent: Response, empty: Response)
    ensures absent == empty == Response(400, ErrorBody("Message required"))
  {
    var trace;
    trace, absent := HandleChat(None, gemini, perplexity);
    trace, empty := HandleChat(Some(""), gemini, perplexity);
  }

  /** An ordinary question: Gemini is asked once, with the message itself, and its answer is the reply. */
  method OrdinaryQuestion(perplexity: Upstream<PerplexityBody>) returns (trace: seq<Call>, response: Response)
    ensures trace == [GeminiCall("Explain photosynthesis")]
    ensures response == Response(200, ReplyBody("X"))
  {
    PhotosynthesisIsNotRealtime("Explain photosynthesis");
    GeminiReplyRoundTrip("X");
    trace, response := HandleChat(Some("Explain photosynthesis"), p => Ok(GeminiReply("X")), perplexity);
  }

  /** A realtime question: Perplexity first, then Gemini on the prefixed web answer, whose answer is the reply. */
  method RealtimeQuestion() returns (trace: seq<Call>, response: Response)
    ensures trace == [PerplexityCall("today's exam result"), GeminiCall("Summarize this for students: W")]
    ensures response == Response(200, ReplyBody("Y"))
  {
    TodaysExamResultIsRealtime("today's exam result");
    PerplexityReplyRoundTrip("W");
    GeminiReplyRoundTrip("Y");
    assert SUMMARY_PREFIX + "W" == "Summarize this for students: W";
    trace, response := HandleChat(Some("today's exam result"), p => Ok(GeminiReply("Y")), q => Ok(PerplexityReply("W")));
  }

  /** A transport failure of Gemini gives 500 with the generic error and no reply. */
  method GeminiUnreachable(perplexity: Upstream<PerplexityBody>) returns (response: Response)
    ensures response == Response(500, ErrorBody("Server error"))
  {
    PhotosynthesisIsNotRealtime("Explain photosynthesis");
    var trace;
    trace, response := HandleChat(Some("Explain photosynthesis"), p => Fail, perplexity);
  }

  /** A Gemini body without `candidates` is not an error: its fallback text is the 200 reply. */
  method GeminiWithoutCandidates(perplexity: Upstream<PerplexityBody>) returns (response: Response)
    ensures response == Response(200, ReplyBody("No response from Gemini."))
  {
    PhotosynthesisIsNotRealtime("Explain photosynthesis");
    var trace;
    trace, response := HandleChat(Some("Explain photosynthesis"), p => Ok(GeminiBody(None)), perplexity);
  }

  /** An empty Perplexity answer is replaced by its fallback, which Gemini is then asked to summarize. */
  method EmptyWebAnswer() returns (trace: seq<Call>)
    ensures trace == [PerplexityCall("today's exam result"), GeminiCall(SUMMARY_PREFIX + PERPLEXITY_FALLBACK)]
  {
    TodaysExamResultIsRealtime("today's exam result");
    assert PerplexityAnswer(PerplexityReply("")) == PERPLEXITY_FALLBACK;
    var response;
    trace, response := HandleChat(Some("today's exam result"), p => Ok(GeminiReply("Y")), q => Ok(PerplexityReply("")));
  }
}
