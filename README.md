# Gemini chat client and proxy

A model of the request and reply logic of a restaurant chat widget that talks to
Google's Gemini model through a server-side proxy:

- **Client** (`fetchGeminiReply`, module `GeminiApi`): builds the `generateContent`
  `contents` array from a role-tagged history — a fixed system-prompt block with
  role `"user"` first, then one single-part block per history entry, role
  `"model"` kept and every other role turned into `"user"` — posts it to the
  proxy and turns the outcome into one string: the proxy's `reply` when that
  field is present (even `""`), `"Sorry, I couldn't get a reply."` when it is
  absent or null, and `"Error: Could not reach Gemini API."` when anything throws.
- **Proxy** (`POST`, module `GeminiRoute`): refuses with 500
  `"API key not configured"` when the key is unset or empty, forwards the
  request's `messages` unchanged as `contents`, answers `{reply}` with the text at
  `candidates[0].content.parts[0].text` (`""` when any link is missing) at the
  default status 200, and 500 `"Gemini API request failed"` when the upstream
  call throws.
- **Round trip** (module `ChatRoundTrip`): the client whose `fetch` is answered by
  the proxy, and what the user sees in each case.

The network, the environment variable, `req.json()`, `fetch`/`res.json()` and
`axios.post` are inputs: outcome datatypes (`FetchOutcome`, `RequestJson`,
`UpstreamOutcome`) or function parameters. `None` in an `Option` stands for
JavaScript's `null`/`undefined`, and `GetOr` for `??`.

The code keeps no conversation store, pending flag, message ids or timestamps.
`fetchGeminiReply` takes roles `"user" | "model"`. An empty upstream text
reaches the user as `""`, not as the "Sorry" fallback.

## Model

| member | source | states |
|---|---|---|
| GeminiApi.PayloadRole | src/utils/geminiApi.ts:39 | the payload role is always "user" or "model"; it is "model" exactly when the entry's role is "model"; a declared role is kept |
| GeminiApi.MapMessages | src/utils/geminiApi.ts:38-41 | one block per history entry, same length and order, each with the mapped role and exactly one part holding the entry's text |
| GeminiApi.BuildContents | src/utils/geminiApi.ts:8-42 | the payload has one more block than the history (also for an empty history); block 0 is the fixed system prompt (role "user", one part with the prompt text); block i+1 has the mapped role of entry i and one part with its text |
| GeminiApi.MapMessagesRoundTrip | src/utils/geminiApi.ts:38-41 | reading the mapped blocks back gives a history with roles "user"/"model" exactly: nothing merged, dropped or reordered |
| GeminiApi.PayloadRoundTrip | src/utils/geminiApi.ts:36-42 | the blocks after the system prompt give back the history exactly |
| GeminiApi.MapMessagesAppend | src/utils/geminiApi.ts:38 | mapping a concatenated history is the concatenation of the mappings |
| GeminiApi.PayloadExtends | src/utils/geminiApi.ts:36-42 | extending the history only appends blocks; the shorter history's payload is a prefix of the longer one's |
| GeminiApi.ReplyOf | src/utils/geminiApi.ts:50-54 | a thrown failure (or a JSON null body) gives the error string; a present reply is returned exactly, "" included; an absent or null reply gives the "Sorry" text |
| GeminiApi.StatusNotInspected | src/utils/geminiApi.ts:44-51 | the HTTP status never changes the returned string |
| GeminiApi.FetchGeminiReply | src/utils/geminiApi.ts:3-55 | the string returned is the error string, the proxy's reply, or the "Sorry" text, according to what the fetch of the built payload produced; it never throws |
| GeminiRoute.First | src/app/api/gemini/route.ts:22 | `?.[0]` yields a value exactly when the array is present, non-empty and its head is not null, and then yields the head |
| GeminiRoute.ExtractReply | src/app/api/gemini/route.ts:21-22 | the reply is the first candidate's first part text when every link of that path is present, and "" otherwise |
| GeminiRoute.Post | src/app/api/gemini/route.ts:4-31 | a missing or empty key gives 500 "API key not configured"; an unreadable body rejects; otherwise the upstream gets the key and the messages as contents, and its failure gives 500 "Gemini API request failed" while its data gives a reply body at 200; reply bodies go out at 200 and error bodies at 500 |
| GeminiRoute.NoUpstreamCallWithoutKey | src/app/api/gemini/route.ts:5-11 | without a usable key the answer depends neither on the request nor on the upstream |
| GeminiRoute.UpstreamSeesMessagesUnchanged | src/app/api/gemini/route.ts:13-20 | the answer depends on the upstream only through the request carrying the key and the incoming messages unchanged |
| GeminiRoute.MissingLinkIsEmptyReply | src/app/api/gemini/route.ts:21-23 | a resolved upstream answer without the text path gives reply "" at status 200, not an error |
| ChatRoundTrip.Deliver | src/app/api/gemini/route.ts:7-29 | the client sees a reply field exactly for the proxy's reply bodies, with the same text and status; error bodies have no reply field |
| ChatRoundTrip.ProxyFetch | src/utils/geminiApi.ts:44-48 | when the client's POST of `{messages: contents}` reaches the proxy, whose `req.json()` (src/app/api/gemini/route.ts:13) reads the contents back, `fetch` never throws and the body is never null; it has a `reply` exactly when the key is configured and Gemini answered the request carrying those contents |
| ChatRoundTrip.ChatReply | src/utils/geminiApi.ts:36-54 | with no usable key or a failed upstream call the user gets the "Sorry" text; otherwise Gemini receives exactly the client's payload and the user gets the extracted text |
| ChatRoundTrip.ErrorTextOnlyFromGemini | src/utils/geminiApi.ts:52-53 | through the proxy the user sees the client's error string only when Gemini's own extracted text is that string |
| ChatRoundTrip.EmptyUpstreamTextIsNotFallback | src/utils/geminiApi.ts:51 | an upstream answer without text reaches the user as "", not as the "Sorry" text |

## Left out

- The chat widget (rendering, styling, the open/closed toggle and its console log): presentation only; its `Message` type is unused.
- The widget's `"assistant"` role: `fetchGeminiReply` takes `"user" | "model"`, and no code converts one into the other.
- HTTP, TLS, JSON (de)serialisation, the request and response objects, axios, the environment and the endpoint URL: modelled only as input and outcome values; the URL carrying the key is represented by the key in `UpstreamRequest`.
- The system prompt's wording: `SystemPromptText` is a stand-in constant.
- `console.error` on upstream failure and async scheduling: no observable effect on the result.
- Upstream values of unexpected JSON types (a `candidates` that is a string, a non-string `text`, a non-string `reply`): the model types these fields as arrays and strings.
- ChatRoundTrip.Deliver: that the framework's answer to a rejected handler is not JSON is an assumption about Next.js; the client never causes that case, since its body is always readable.
- Determinism of the payload builder has no lemma of its own: `BuildContents` is a function, so equal histories give equal payloads by construction.
