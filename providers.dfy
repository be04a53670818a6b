/**
 * The two upstream clients. The HTTP round trip (fetch, then `resp.json()`) is
 * a parameter: it either yields the parsed body or fails; what the clients add
 * is reading the answer at a fixed path and falling back to a fixed string.
 */
module Providers {
  import opened Wrappers

  /** One round trip to an upstream provider, from the sent text to the parsed response body. */
  type Upstream<!Body> = string -> Outcome<Body>

  /** `x || fallback` for a string-or-undefined `x`: `undefined` and `""` are the falsy values. */
  function OrElse(x: Option<string>, fallback: string): string {
    if x.Some? && x.value != "" then x.value else fallback
  }

  /** `xs?.[0]`: the first element of an array that may be absent or empty. */
  function First<T>(xs: Option<seq<T>>): Option<T> {
    if xs.Some? && |xs.value| > 0 then Some(xs.value[0]) else None
  }

  // ---------------------------------------------------------------- Gemini

  datatype GeminiPart = GeminiPart(text: Option<string>)
  datatype GeminiContent = GeminiContent(parts: Option<seq<GeminiPart>>)
  datatype GeminiCandidate = GeminiCandidate(content: Option<GeminiContent>)
  /** The parsed response of the content-generation endpoint; a body that is not an object has no `candidates`. */
  datatype GeminiBody = GeminiBody(candidates: Option<seq<GeminiCandidate>>)

  const GEMINI_FALLBACK := "No response from Gemini."

  /** `data?.candidates?.[0]?.content?.parts?.[0]?.text`. */
  function GeminiPath(data: GeminiBody): Option<string> {
    match First(data.candidates)
    case None => None
    case Some(candidate) =>
      match candidate.content
      case None => None
      case Some(content) =>
        match First(content.parts)
        case None => None
        case Some(part) => part.text
  }

  /** t is the text of the first part of the first candidate's content. */
  ghost predicate GeminiTextAt(data: GeminiBody, t: string) {
    && data.candidates.Some?
    && |data.candidates.value| > 0
    && data.candidates.value[0].content.Some?
    && data.candidates.value[0].content.value.parts.Some?
    && |data.candidates.value[0].content.value.parts.value| > 0
    && data.candidates.value[0].content.value.parts.value[0].text == Some(t)
  }

  /** The answer `callGemini` returns for a body it received: the text at the path, or the fallback. */
  function GeminiAnswer(data: GeminiBody): (r: string)
    ensures r != ""
    ensures forall t :: GeminiTextAt(data, t) && t != "" ==> r == t
    ensures (forall t :: GeminiTextAt(data, t) ==> t == "") ==> r == GEMINI_FALLBACK
  {
    var found := GeminiPath(data);
    assert found.Some? ==> GeminiTextAt(data, found.value);
    OrElse(found, GEMINI_FALLBACK)
  }

  /** The body Gemini sends for a single answer t. */
  function GeminiReply(t: string): GeminiBody {
    GeminiBody(Some([GeminiCandidate(Some(GeminiContent(Some([GeminiPart(Some(t))]))))]))
  }

  /** A non-empty answer survives the round trip through the response shape. */
  lemma GeminiReplyRoundTrip(t: string)
    requires t != ""
    ensures GeminiAnswer(GeminiReply(t)) == t
  {
  }

  /** `callGemini(prompt)`: a failed round trip propagates; a received body always yields an answer. */
  function CallGemini(gemini: Upstream<GeminiBody>, prompt: string): (r: Outcome<string>)
    ensures r.Fail? <==> gemini(prompt).Fail?
    ensures r.Ok? ==> r.value == GeminiAnswer(gemini(prompt).value) && r.value != ""
  {
    match gemini(prompt)
    case Fail => Fail
    case Ok(data) => Ok(GeminiAnswer(data))
  }

  // ------------------------------------------------------------ Perplexity

  datatype PerplexityMessage = PerplexityMessage(content: Option<string>)
  datatype PerplexityChoice = PerplexityChoice(message: Option<PerplexityMessage>)
  /** The parsed response of the chat-completions endpoint; a body that is not an object has no `choices`. */
  datatype PerplexityBody = PerplexityBody(choices: Option<seq<PerplexityChoice>>)

  const PERPLEXITY_FALLBACK := "No response from Perplexity."

  /** `data?.choices?.[0]?.message?.content`. */
  function PerplexityPath(data: PerplexityBody): Option<string> {
    match First(data.choices)
    case None => None
    case Some(choice) =>
      match choice.message
      case None => None
      case Some(message) => message.content
  }

  /** t is the content of the first choice's message. */
  ghost predicate PerplexityTextAt(data: PerplexityBody, t: string) {
    && data.choices.Some?
    && |data.choices.value| > 0
    && data.choices.value[0].message.Some?
    && data.choices.value[0].message.value.content == Some(t)
  }

  /** The answer `callPerplexity` returns for a body it received: the content at the path, or the fallback. */
  function PerplexityAnswer(data: PerplexityBody): (r: string)
    ensures r != ""
    ensures forall t :: PerplexityTextAt(data, t) && t != "" ==> r == t
    ensures (forall t :: PerplexityTextAt(data, t) ==> t == "") ==> r == PERPLEXITY_FALLBACK
  {
    var found := PerplexityPath(data);
    assert found.Some? ==> PerplexityTextAt(data, found.value);
    OrElse(found, PERPLEXITY_FALLBACK)
  }

  /** The body Perplexity sends for a single answer t. */
  function PerplexityReply(t: string): PerplexityBody {
    PerplexityBody(Some([PerplexityChoice(Some(PerplexityMessage(Some(t))))]))
  }

  /** A non-empty answer survives the round trip through the response shape. */
  lemma PerplexityReplyRoundTrip(t: string)
    requires t != ""
    ensures PerplexityAnswer(PerplexityReply(t)) == t
  {
  }

  /** `callPerplexity(query)`: a failed round trip propagates; a received body always yields an answer. */
  function CallPerplexity(perplexity: Upstream<PerplexityBody>, query: string): (r: Outcome<string>)
    ensures r.Fail? <==> perplexity(query).Fail?
    ensures r.Ok? ==> r.value == PerplexityAnswer(perplexity(query).value) && r.value != ""
  {
    match perplexity(query)
    case Fail => Fail
    case Ok(data) => Ok(PerplexityAnswer(data))
  }
}
