# Stuni backend: the `/api/chat` routing core

The Stuni backend is one HTTP endpoint, `POST /api/chat`. It takes a
student's question and decides with a fixed keyword list whether the
question needs live information. An ordinary question goes to Gemini, a
general language model. A "realtime" question goes first to Perplexity, a
web-search model. Perplexity's answer is then handed to Gemini, under the
prefix `"Summarize this for students: "`. Each client reads its answer at a
fixed path of the upstream JSON and substitutes a fixed fallback text when
there is nothing there. The handler answers 400 for a missing message, 500
for any failed upstream call and 200 with the reply otherwise.

The model is in six modules:

- `Wrappers` (wrappers.dfy): `Option` (an absent value, JavaScript's
  `undefined`) and `Outcome` (a value, or an exception that unwinds to the
  handler's `catch`).
- `Text` (text.dfy): `toLowerCase` restricted to ASCII (`Lower`), and
  `includes` as a left-to-right scan (`Contains`). `Contains` is proved equal
  to a reference definition of "occurs as a substring" (`IsSubstring`).
  Lemmas about how `Lower` and occurrence fit together.
- `Classifier` (classifier.dfy): the keyword list and `needsRealtime`, with
  its characterisation, case-insensitivity, monotonicity and the
  substring-not-word behaviour, plus worked examples.
- `Providers` (providers.dfy): the two upstream response shapes as nested
  `Option`/`seq` datatypes. Each provider's round trip is a parameter
  `string -> Outcome<Body>`, where `Fail` means that `fetch` or `resp.json()`
  threw. Also the path reads with the `||` fallback (`GeminiAnswer`,
  `PerplexityAnswer`) and the two clients (`CallGemini`, `CallPerplexity`).
- `Chat` (chat.dfy): the handler as a method, `HandleChat`. It assigns the
  reply in branches, as the source does. It returns the HTTP response and a
  trace of the upstream calls it made, in order and with the text each call
  sent.
- `Scenarios` (scenarios.dfy): whole requests against stub providers.

The network is abstracted, so each provider is a function of the text sent
to it. Express's `res` object is represented by the `Response` value the
handler returns. `res.json(...)` without `res.status(...)` keeps Express's
default status, 200.

The fallback follows the `||` of the code. An empty-string answer falls
back just as a missing path does, so a reply is never empty.

## Model

| member | source | states |
|---|---|---|
| Text.LowerChar | server.js:14 | ASCII upper-case letters map to the matching lower-case letter; every other character is unchanged; no upper-case ASCII letter is left |
| Text.Lower | server.js:14 | `toLowerCase` keeps the length and folds each character independently |
| Text.LowerIdempotent | server.js:14 | lower-casing an already lower-cased text changes nothing |
| Text.LowerSlice | server.js:14 | lower-casing a slice is the slice of the lower-cased text |
| Text.Contains | server.js:14 | `s.includes(k)` holds exactly when k occurs in s at some position (the reference definition `IsSubstring`) |
| Text.SubstringTransitive | server.js:14 | an occurrence inside an occurrence is an occurrence |
| Text.LowerKeepsSubstring | server.js:14 | if k occurs in s then lower(k) occurs in lower(s) |
| Classifier.SomeOccurs | server.js:13-14 | `keywords.some(k => s.includes(k))` holds exactly when some keyword of the list occurs in s |
| Classifier.NeedsRealtime | server.js:12-15 | true exactly when some keyword of the fixed list occurs as a substring of the lower-cased text; false otherwise |
| Classifier.NeedsRealtimeSpelledOut | server.js:12-15 | the same, with the list written out: true exactly when one of "today", "latest", "notice", "exam", "result", "admit card", "update", "news" occurs in the lower-cased text |
| Classifier.CaseInsensitive | server.js:14 | `needsRealtime(lower(t)) == needsRealtime(t)` |
| Classifier.Monotone | server.js:14 | a text that contains a realtime text is realtime |
| Classifier.UpdatedIsRealtime | server.js:14 | matching ignores word boundaries: any text containing "updated" is realtime |
| Classifier.TodaysExamResultIsRealtime | server.js:12-15 | "today's exam result" is realtime |
| Classifier.LatestExamNoticeIsRealtime | server.js:12-15 | "What is the LATEST exam notice?" is realtime (upper-case keyword found) |
| Classifier.PhotosynthesisIsNotRealtime | server.js:12-15 | "Explain photosynthesis" is not realtime |
| Providers.GeminiAnswer | server.js:27 | the text at `candidates[0].content.parts[0].text` when present and non-empty; otherwise exactly "No response from Gemini."; never empty |
| Providers.GeminiReplyRoundTrip | server.js:27 | a body carrying one non-empty answer at the path yields that answer |
| Providers.CallGemini | server.js:18-28 | fails exactly when the round trip fails; a received body always gives the extracted, non-empty answer |
| Providers.PerplexityAnswer | server.js:44 | the text at `choices[0].message.content` when present and non-empty; otherwise exactly "No response from Perplexity."; never empty |
| Providers.PerplexityReplyRoundTrip | server.js:44 | a body carrying one non-empty answer at the path yields that answer |
| Providers.CallPerplexity | server.js:31-45 | fails exactly when the round trip fails; a received body always gives the extracted, non-empty answer |
| Chat.HandleChat | server.js:48-66 | missing or empty message gives 400 "Message required" and no call. Otherwise a non-realtime message gives exactly one Gemini call with the message unchanged. A realtime message gives Perplexity(message) first, then, only if that succeeded, Gemini("Summarize this for students: " + web answer). Perplexity is called exactly for realtime messages. The reply is the last call's extracted answer with status 200, and it is never empty. A failed call is always the last call and gives 500 "Server error" with no reply. No other status occurs |
| Scenarios.MissingMessage | server.js:49-50 | an absent and an empty message both give 400 "Message required" |
| Scenarios.OrdinaryQuestion | server.js:58-61 | "Explain photosynthesis" with Gemini answering "X": trace is [Gemini("Explain photosynthesis")], response 200 "X" |
| Scenarios.RealtimeQuestion | server.js:54-57 | "today's exam result" with Perplexity "W" and Gemini "Y": trace is [Perplexity(message), Gemini("Summarize this for students: W")], response 200 "Y" |
| Scenarios.GeminiUnreachable | server.js:62-64 | a Gemini transport failure gives 500 "Server error" |
| Scenarios.GeminiWithoutCandidates | server.js:27 | a Gemini body without `candidates` gives 200 with "No response from Gemini." |
| Scenarios.EmptyWebAnswer | server.js:44 | an empty Perplexity answer is replaced by its fallback, which is what Gemini is asked to summarize |

## Left out

- Express wiring (`express()`, `cors()`, `express.json()`, `app.listen`, the port choice): framework plumbing, not routing logic.
- `dotenv` and the `process.env` reads of the two API keys and the port: the credentials only reach the network layer, which is abstracted.
- The `fetch` calls themselves: URLs, headers, the JSON request bodies (including the model name `pplx-70b-online`) and `resp.json()` decoding. Each round trip is a parameter that either yields a parsed body or fails. A non-JSON body is a failure.
- Providers are modelled as functions of the text sent. The model does not capture two identical requests getting different answers; within one request no text is sent twice to the same provider.
- `async`/`await` and concurrency between requests: there is no shared state, so each request is one sequential evaluation.
- `console.error` and `console.log`: side effects only.
- Text.Lower: folds only the ASCII letters A-Z. Full Unicode `toLowerCase` (for example characters whose lower-case form is longer) is not modelled.
- Non-string `message` values (numbers, objects): the model types `message` as an optional string. At run time a truthy non-string would make `toLowerCase` throw inside the `try` and give 500.
- Non-string values at the response paths: the leaf is typed as an optional string. At run time a truthy number or object there would be passed on as the reply, and `false`, `0` or `null` would fall back.
- Non-array values on the paths: a body, `candidates`, `parts` or `choices` that is not the expected array or object counts as absent. At run time an object with a key `"0"` would be indexed like an array.
