/**
 * The `POST /api/chat` handler: validation, routing between the two
 * providers, and the mapping of the outcome to an HTTP response.
 */
module Chat {
  import opened Wrappers
  import opened Classifier
  import opened Providers

  /** One upstream call the handler made, with the text it sent. */
  datatype Call = GeminiCall(prompt: string) | PerplexityCall(query: string)

  /** The JSON object sent back: `{ reply }` or `{ error }`. */
  datatype Body = ReplyBody(reply: string) | ErrorBody(error: string)

  datatype Response = Response(status: int, body: Body)

  /** The instruction put in front of the web answer before it goes to Gemini. */
  const SUMMARY_PREFIX := "Summarize this for students: "
  const MESSAGE_REQUIRED := "Message required"
  const SERVER_ERROR := "Server error"

  /** The round trip of call c threw. */
  predicate CallFails(c: Call, gemini: Upstream<GeminiBody>, perplexity: Upstream<PerplexityBody>) {
    match c
    case GeminiCall(prompt) => gemini(prompt).Fail?
    case PerplexityCall(query) => perplexity(query).Fail?
  }

  /**
   * The handler for one request. `message` is the request body's `message`
   * field (None when it is absent); `trace` lists the upstream calls in the
   * order they were made.
   */
  method HandleChat(message: Option<string>, gemini: Upstream<GeminiBody>, perplexity: Upstream<PerplexityBody>)
    returns (trace: seq<Call>, response: Response)
    // a missing or empty message is rejected before any provider is called
    ensures message.None? || message.value == "" <==> response.status == 400
    ensures response.status == 400 ==> response.body == ErrorBody(MESSAGE_REQUIRED) && trace == []
    // an ordinary question goes to Gemini alone, unchanged
    ensures message.Some? && message.value != "" && !NeedsRealtime(message.value) ==>
      && trace == [GeminiCall(message.value)]
      && response == match CallGemini(gemini, message.value)
                     case Ok(answer) => Response(200, ReplyBody(answer))
                     case Fail => Response(500, ErrorBody(SERVER_ERROR))
    // a realtime question goes to Perplexity, and its answer, under the prefix, to Gemini
    ensures message.Some? && message.value != "" && NeedsRealtime(message.value) ==>
      && |trace| >= 1 && trace[0] == PerplexityCall(message.value)
      && match CallPerplexity(perplexity, message.value)
         case Fail =>
           trace == [PerplexityCall(message.value)] && response == Response(500, ErrorBody(SERVER_ERROR))
         case Ok(webAnswer) =>
           && trace == [PerplexityCall(message.value), GeminiCall(SUMMARY_PREFIX + webAnswer)]
           && response == match CallGemini(gemini, SUMMARY_PREFIX + webAnswer)
                          case Ok(answer) => Response(200, ReplyBody(answer))
                          case Fail => Response(500, ErrorBody(SERVER_ERROR))
    // any failed call, and only a failed call, gives 500; a failed call is always the last one made
    ensures response.status == 500 <==> exists i :: 0 <= i < |trace| && CallFails(trace[i], gemini, perplexity)
    ensures forall i :: 0 <= i < |trace| - 1 ==> !CallFails(trace[i], gemini, perplexity)
    ensures response.status == 500 ==> response.body == ErrorBody(SERVER_ERROR)
    // Perplexity is called exactly when the message is realtime, and then first
    ensures (exists i :: 0 <= i < |trace| && trace[i].PerplexityCall?) <==>
      message.Some? && message.value != "" && NeedsRealtime(message.value)
    // Gemini is called at most once, and it is the last call
    ensures trace != [] ==> trace[|trace| - 1].GeminiCall? || response.status == 500
    ensures |trace| <= 2
    // a successful reply is never empty
    ensures response.status == 200 ==> response.body.ReplyBody? && response.body.reply != ""
    ensures response.status == 200 || response.status == 400 || response.status == 500
  {
    if message.None? || message.value == "" {
      return [], Response(400, ErrorBody(MESSAGE_REQUIRED));
    }
    var text := message.value;
    trace := [];
    // `reply` is Fail once a step has thrown, and the rest of the try block is skipped
    var reply: Outcome<string>;
    if NeedsRealtime(text) {
      trace := trace + [PerplexityCall(text)];
      var webAnswer := CallPerplexity(perplexity, text);
      if webAnswer.Fail? {
        reply := Fail;
      } else {
        var prompt := SUMMARY_PREFIX + webAnswer.value;
        trace := trace + [GeminiCall(prompt)];
        reply := CallGemini(gemini, prompt);
      }
    } else {
      trace := trace + [GeminiCall(text)];
      reply := CallGemini(gemini, text);
    }
    match reply
    case Ok(answer) =>
      // `res.json` keeps the default status 200
      response := Response(200, ReplyBody(answer));
    case Fail =>
      assert CallFails(trace[|trace| - 1], gemini, perplexity);
      response := Response(500, ErrorBody(SERVER_ERROR));
  }
}
