/**
 * The client posting to the proxy: `fetchGeminiReply` with its `fetch` answered
 * by the `POST` handler. Stated here is what the user ends up seeing for each
 * way the round trip can go.
 */
module ChatRoundTrip {
  import opened Wrappers
  import opened GeminiApi
  import opened GeminiRoute

  /**
   * What the client's `res.json()` makes of the handler's answer: a `{reply}` body
   * has the field, an `{error}` body has none. A rejected handler yields the
   * framework's error page, which is not JSON, so `res.json()` throws.
   */
  function Deliver(h: HandlerOutcome): (o: FetchOutcome)
    ensures h.Rejected? <==> o.Threw?
    ensures h.Returned? ==> o.Responded? && o.status == h.response.status && o.body.NonNullBody?
    ensures h.Returned? ==> (o.body.reply.Some? <==> h.response.body.ReplyBody?)
    ensures h.Returned? && h.response.body.ReplyBody? ==> o.body.reply.value == h.response.body.reply
  {
    match h
    case Rejected => Threw
    case Returned(Response(status, ReplyBody(reply))) => Responded(status, NonNullBody(Some(reply)))
    case Returned(Response(status, ErrorBody(_))) => Responded(status, NonNullBody(None))
  }

  /**
   * The client's `fetch` when the proxy is reached: the body `{messages: contents}`
   * it posts is read back by the handler's `req.json()` as those same contents.
   * The client then never sees a throw or a null body, and sees a `reply` exactly
   * when the key is configured and Gemini answered the request carrying the contents.
   */
  function ProxyFetch(apiKey: Option<string>, upstream: UpstreamRequest<seq<Content>> -> UpstreamOutcome)
    : (fetch: seq<Content> -> FetchOutcome)
    ensures forall contents :: fetch(contents).Responded? && fetch(contents).body.NonNullBody?
    ensures forall contents :: fetch(contents).body.reply.Some? <==>
      KeyConfigured(apiKey) && upstream(UpstreamRequest(apiKey.value, contents)).UpstreamResolved?
  {
    contents => Deliver(Post(apiKey, Readable(contents), upstream))
  }

  /**
   * The string the widget would be handed for `history`. Gemini receives exactly
   * the client's payload; the user sees the extracted text on success (even `""`),
   * and the "Sorry" fallback when the key is missing or the upstream call fails.
   */
  function ChatReply(history: seq<ChatMessage>, apiKey: Option<string>,
                     upstream: UpstreamRequest<seq<Content>> -> UpstreamOutcome): (r: string)
    ensures !KeyConfigured(apiKey) ==> r == SorryText
    ensures KeyConfigured(apiKey) ==>
      match upstream(UpstreamRequest(apiKey.value, BuildContents(history)))
      case UpstreamFailed => r == SorryText
      case UpstreamResolved(data) => r == ExtractReply(data)
  {
    FetchGeminiReply(history, ProxyFetch(apiKey, upstream))
  }

  /**
   * Through the proxy the client's own error string reaches the user only when
   * Gemini's extracted text happens to be that very string.
   */
  lemma ErrorTextOnlyFromGemini(history: seq<ChatMessage>, apiKey: Option<string>,
                                upstream: UpstreamRequest<seq<Content>> -> UpstreamOutcome)
    requires ChatReply(history, apiKey, upstream) == ErrorText
    ensures KeyConfigured(apiKey)
    ensures upstream(UpstreamRequest(apiKey.value, BuildContents(history))).UpstreamResolved?
    ensures ExtractReply(upstream(UpstreamRequest(apiKey.value, BuildContents(history))).data) == ErrorText
  {
  }

  /** A Gemini answer with no text reaches the user as `""`, not as the "Sorry" fallback. */
  lemma EmptyUpstreamTextIsNotFallback(history: seq<ChatMessage>, apiKey: Option<string>,
                                       upstream: UpstreamRequest<seq<Content>> -> UpstreamOutcome)
    requires KeyConfigured(apiKey)
    requires upstream(UpstreamRequest(apiKey.value, BuildContents(history))).UpstreamResolved?
    requires !HasFirstText(upstream(UpstreamRequest(apiKey.value, BuildContents(history))).data)
    ensures ChatReply(history, apiKey, upstream) == ""
    ensures ChatReply(history, apiKey, upstream) != SorryText
  {
  }
}
