/**
 * The browser side of the chat: `fetchGeminiReply` turns a role-tagged history
 * into a Gemini `generateContent` payload (a fixed system-prompt block followed
 * by one block per history entry), posts it to the proxy and maps whatever comes
 * back to a single string. The network round trip is a parameter.
 */
module GeminiApi {
  import opened Wrappers

  /** One history entry as the caller passes it: a role tag and its text. */
  datatype ChatMessage = ChatMessage(role: string, content: string)

  /** `{text}`: one text part of a payload block. */
  datatype Part = Part(text: string)

  /** `{role, parts}`: one block of the `contents` array. */
  datatype Content = Content(role: string, parts: seq<Part>)

  const UserRole: string := "user"
  const ModelRole: string := "model"

  /** Stands for the restaurant-assistant instructions; their wording is not modelled. */
  const SystemPromptText: string := "You are a friendly restaurant assistant for Oceanview Bistro."

  /** The fixed first block of every payload. */
  const SystemPrompt: Content := Content(UserRole, [Part(SystemPromptText)])

  const SorryText: string := "Sorry, I couldn't get a reply."
  const ErrorText: string := "Error: Could not reach Gemini API."

  /** The roles the TypeScript signature admits for a history entry. */
  predicate IsDeclaredRole(role: string) {
    role == UserRole || role == ModelRole
  }

  /** The role a history entry carries in the payload: "model" stays, anything else is "user". */
  function PayloadRole(role: string): (r: string)
    ensures IsDeclaredRole(r)
    ensures r == ModelRole <==> role == ModelRole
    ensures IsDeclaredRole(role) ==> r == role
  {
    if role == ModelRole then ModelRole else UserRole
  }

  function ToContent(m: ChatMessage): Content {
    Content(PayloadRole(m.role), [Part(m.content)])
  }

  /** `messages.map(...)`: one block per entry, single part holding the entry's text, same order. */
  function MapMessages(messages: seq<ChatMessage>): (blocks: seq<Content>)
    ensures |blocks| == |messages|
    ensures forall i :: 0 <= i < |messages| ==>
      blocks[i].role == PayloadRole(messages[i].role) && blocks[i].parts == [Part(messages[i].content)]
  {
    if messages == [] then [] else [ToContent(messages[0])] + MapMessages(messages[1..])
  }

  /** The `contents` array sent to the proxy. */
  function BuildContents(messages: seq<ChatMessage>): (contents: seq<Content>)
    ensures |contents| == |messages| + 1
    ensures contents[0] == SystemPrompt
    ensures contents[0].role == UserRole && contents[0].parts == [Part(SystemPromptText)]
    ensures forall i :: 0 <= i < |messages| ==>
      contents[i + 1].role == PayloadRole(messages[i].role) && contents[i + 1].parts == [Part(messages[i].content)]
  {
    var blocks := MapMessages(messages);
    assert forall i :: 0 <= i < |blocks| ==> ([SystemPrompt] + blocks)[i + 1] == blocks[i];
    [SystemPrompt] + blocks
  }

  /**
   * Reads history entries back out of payload blocks; `None` when a block does
   * not hold exactly one part.
   */
  function HistoryOf(blocks: seq<Content>): (h: Option<seq<ChatMessage>>)
    ensures h.Some? ==> |h.value| == |blocks|
  {
    if blocks == [] then Some([])
    else if |blocks[0].parts| != 1 then None
    else
      match HistoryOf(blocks[1..])
      case None => None
      case Some(rest) => Some([ChatMessage(blocks[0].role, blocks[0].parts[0].text)] + rest)
  }

  /** Every entry of the history carries one of the declared roles. */
  predicate WellTyped(messages: seq<ChatMessage>) {
    forall i :: 0 <= i < |messages| ==> IsDeclaredRole(messages[i].role)
  }

  /** Reading the mapped blocks back gives a well-typed history exactly. */
  lemma {:induction false} MapMessagesRoundTrip(messages: seq<ChatMessage>)
    requires WellTyped(messages)
    ensures HistoryOf(MapMessages(messages)) == Some(messages)
  {
    if messages != [] {
      var blocks := MapMessages(messages);
      assert blocks[1..] == MapMessages(messages[1..]);
      MapMessagesRoundTrip(messages[1..]);
      assert [messages[0]] + messages[1..] == messages;
    }
  }

  /** The blocks after the system prompt give back a well-typed history exactly. */
  lemma PayloadRoundTrip(messages: seq<ChatMessage>)
    requires WellTyped(messages)
    ensures HistoryOf(BuildContents(messages)[1..]) == Some(messages)
  {
    assert BuildContents(messages)[1..] == MapMessages(messages);
    MapMessagesRoundTrip(messages);
  }

  /** Mapping distributes over concatenation of histories. */
  lemma MapMessagesAppend(a: seq<ChatMessage>, b: seq<ChatMessage>)
    ensures MapMessages(a + b) == MapMessages(a) + MapMessages(b)
  {
  }

  /** Extending the history only appends blocks: the old payload is a prefix of the new one. */
  lemma PayloadExtends(history: seq<ChatMessage>, later: seq<ChatMessage>)
    ensures BuildContents(history + later) == BuildContents(history) + MapMessages(later)
    ensures BuildContents(history) <= BuildContents(history + later)
  {
    MapMessagesAppend(history, later);
  }

  /** What `res.json()` produced: JSON `null`, or any other value and its `reply` member. */
  datatype ParsedBody = NullBody | NonNullBody(reply: Option<string>)

  /** The awaited `fetch` + `res.json()`: either one of them threw, or a status and a parsed body. */
  datatype FetchOutcome = Threw | Responded(status: int, body: ParsedBody)

  /** The `try`/`??`/`catch` mapping from the fetch outcome to the returned string. */
  function ReplyOf(outcome: FetchOutcome): (r: string)
    ensures outcome.Threw? ==> r == ErrorText
    ensures outcome.Responded? && outcome.body.NullBody? ==> r == ErrorText
    ensures outcome.Responded? && outcome.body.NonNullBody? && outcome.body.reply.Some? ==>
      r == outcome.body.reply.value
    ensures outcome.Responded? && outcome.body.NonNullBody? && outcome.body.reply.None? ==>
      r == SorryText
  {
    match outcome
    case Threw => ErrorText
    case Responded(_, NullBody) => ErrorText  // `null.reply` throws inside the try
    case Responded(_, NonNullBody(reply)) => reply.GetOr(SorryText)
  }

  /** The HTTP status never influences the result. */
  lemma StatusNotInspected(s1: int, s2: int, body: ParsedBody)
    ensures ReplyOf(Responded(s1, body)) == ReplyOf(Responded(s2, body))
  {
  }

  /**
   * `fetchGeminiReply`: posts the built payload through `fetch` and maps the
   * outcome; it never throws, so the result is always a string.
   */
  function FetchGeminiReply(messages: seq<ChatMessage>, fetch: seq<Content> -> FetchOutcome): (r: string)
    ensures var o := fetch(BuildContents(messages));
      || (r == ErrorText && (o.Threw? || o.body.NullBody?))
      || (o.Responded? && o.body.NonNullBody? && o.body.reply == Some(r))
      || (o.Responded? && o.body.NonNullBody? && o.body.reply == None && r == SorryText)
  {
    ReplyOf(fetch(BuildContents(messages)))
  }
}
