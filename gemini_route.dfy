/**
 * The server-side proxy: the `POST` handler reads the API key from the
 * environment, forwards the request's `messages` unchanged as `contents` to
 * Gemini's `generateContent`, and answers with the first candidate's first
 * text part or with an error body. The environment, the request body and the
 * upstream call are inputs; `M` is whatever the request's `messages` field holds.
 */
module GeminiRoute {
  import opened Wrappers

  const DefaultStatus: int := 200
  const ServerErrorStatus: int := 500
  const KeyMissingError: string := "API key not configured"
  const UpstreamFailedError: string := "Gemini API request failed"

  /** The JSON the handler answers with: `{reply}` or `{error}`. */
  datatype ResponseBody = ReplyBody(reply: string) | ErrorBody(error: string)

  datatype Response = Response(status: int, body: ResponseBody)

  /** The handler either returns a response or its promise rejects. */
  datatype HandlerOutcome = Returned(response: Response) | Rejected

  /**
   * The awaited `req.json()` and the destructuring of `messages`: `Unreadable`
   * when either throws (a body that is not JSON, or the JSON value `null`),
   * otherwise the value of the `messages` field.
   */
  datatype RequestJson<M> = Unreadable | Readable(messages: M)

  /** The `axios.post` call: the key in the query string and the body's `contents`. */
  datatype UpstreamRequest<M> = UpstreamRequest(key: string, contents: M)

  /** `parts[k]`: `None` for a null element, `text` `None` when absent or null. */
  datatype UpstreamPart = UpstreamPart(text: Option<string>)

  datatype CandidateContent = CandidateContent(parts: Option<seq<Option<UpstreamPart>>>)

  datatype Candidate = Candidate(content: Option<CandidateContent>)

  /** `response.data` when it is an object. */
  datatype GenerateResponse = GenerateResponse(candidates: Option<seq<Option<Candidate>>>)

  /** The awaited `axios.post`: it threw, or it resolved with `response.data` (possibly null). */
  datatype UpstreamOutcome = UpstreamFailed | UpstreamResolved(data: Option<GenerateResponse>)

  /** `!apiKey` is false: the variable is set and not the empty string. */
  predicate KeyConfigured(apiKey: Option<string>) {
    apiKey.Some? && apiKey.value != ""
  }

  /** `xs?.[0]`: the first element when the array is present, non-empty and its head is not null. */
  function First<T>(xs: Option<seq<Option<T>>>): (r: Option<T>)
    ensures r.Some? <==> xs.Some? && |xs.value| > 0 && xs.value[0].Some?
    ensures r.Some? ==> r.value == xs.value[0].value
  {
    match xs
    case None => None
    case Some(s) => if |s| == 0 then None else s[0]
  }

  /** `data?.candidates?.[0]?.content?.parts?.[0]?.text`. */
  function ReplyPath(data: Option<GenerateResponse>): Option<string> {
    match data
    case None => None
    case Some(d) =>
      match First(d.candidates)
      case None => None
      case Some(c) =>
        match c.content
        case None => None
        case Some(cc) =>
          match First(cc.parts)
          case None => None
          case Some(p) => p.text
  }

  /** Every link of the path to the first candidate's first text is present. */
  predicate HasFirstText(data: Option<GenerateResponse>) {
    && data.Some?
    && data.value.candidates.Some?
    && |data.value.candidates.value| > 0
    && data.value.candidates.value[0].Some?
    && data.value.candidates.value[0].value.content.Some?
    && data.value.candidates.value[0].value.content.value.parts.Some?
    && |data.value.candidates.value[0].value.content.value.parts.value| > 0
    && data.value.candidates.value[0].value.content.value.parts.value[0].Some?
    && data.value.candidates.value[0].value.content.value.parts.value[0].value.text.Some?
  }

  /** The text at the end of that path. */
  function FirstText(data: Option<GenerateResponse>): string
    requires HasFirstText(data)
  {
    data.value.candidates.value[0].value.content.value.parts.value[0].value.text.value
  }

  /** The reply the handler sends: the first candidate's first text, `""` if any link is missing. */
  function ExtractReply(data: Option<GenerateResponse>): (r: string)
    ensures HasFirstText(data) ==> r == FirstText(data)
    ensures !HasFirstText(data) ==> r == ""
  {
    ReplyPath(data).GetOr("")
  }

  /** The handler: key guard, body read, upstream call, reply or error mapping. */
  function Post<M>(apiKey: Option<string>, request: RequestJson<M>,
                   upstream: UpstreamRequest<M> -> UpstreamOutcome): (h: HandlerOutcome)
    ensures !KeyConfigured(apiKey) ==>
      h == Returned(Response(ServerErrorStatus, ErrorBody(KeyMissingError)))
    ensures KeyConfigured(apiKey) && request.Unreadable? ==> h == Rejected
    ensures KeyConfigured(apiKey) && request.Readable? ==>
      match upstream(UpstreamRequest(apiKey.value, request.messages))
      case UpstreamFailed =>
        h == Returned(Response(ServerErrorStatus, ErrorBody(UpstreamFailedError)))
      case UpstreamResolved(data) =>
        h == Returned(Response(DefaultStatus, ReplyBody(ExtractReply(data))))
    // a `reply` body always goes out at the default status, an `error` body at 500
    ensures h.Returned? ==>
      (h.response.body.ReplyBody? <==> h.response.status == DefaultStatus) &&
      (h.response.body.ErrorBody? <==> h.response.status == ServerErrorStatus)
  {
    if !KeyConfigured(apiKey) then
      Returned(Response(ServerErrorStatus, ErrorBody(KeyMissingError)))
    else
      match request
      case Unreadable => Rejected  // `req.json()` is awaited outside the try
      case Readable(messages) =>
        match upstream(UpstreamRequest(apiKey.value, messages))
        case UpstreamFailed =>
          Returned(Response(ServerErrorStatus, ErrorBody(UpstreamFailedError)))
        case UpstreamResolved(data) =>
          Returned(Response(DefaultStatus, ReplyBody(ExtractReply(data))))
  }

  /** Without a usable key the upstream is never consulted and the request never read. */
  lemma NoUpstreamCallWithoutKey<M>(apiKey: Option<string>, r1: RequestJson<M>, r2: RequestJson<M>,
                                    u1: UpstreamRequest<M> -> UpstreamOutcome,
                                    u2: UpstreamRequest<M> -> UpstreamOutcome)
    requires !KeyConfigured(apiKey)
    ensures Post(apiKey, r1, u1) == Post(apiKey, r2, u2)
  {
  }

  /**
   * The only upstream request the handler depends on carries the configured key
   * and the incoming `messages` unchanged as `contents`.
   */
  lemma UpstreamSeesMessagesUnchanged<M>(apiKey: Option<string>, messages: M,
                                         u1: UpstreamRequest<M> -> UpstreamOutcome,
                                         u2: UpstreamRequest<M> -> UpstreamOutcome)
    requires KeyConfigured(apiKey)
    requires u1(UpstreamRequest(apiKey.value, messages)) == u2(UpstreamRequest(apiKey.value, messages))
    ensures Post(apiKey, Readable(messages), u1) == Post(apiKey, Readable(messages), u2)
  {
  }

  /** A missing link in the reply path gives `""`, not an error. */
  lemma MissingLinkIsEmptyReply<M>(apiKey: Option<string>, messages: M,
                                   upstream: UpstreamRequest<M> -> UpstreamOutcome)
    requires KeyConfigured(apiKey)
    requires upstream(UpstreamRequest(apiKey.value, messages)).UpstreamResolved?
    requires !HasFirstText(upstream(UpstreamRequest(apiKey.value, messages)).data)
    ensures Post(apiKey, Readable(messages), upstream) == Returned(Response(DefaultStatus, ReplyBody("")))
  {
  }
}
