/**
 * The request/response surface shared by the three serverless handlers and the
 * early-return chain each of them runs: method gate, request body, API key,
 * prompt, model call, empty-text check and, for two of them, a JSON check.
 * The model's reply, the environment key and `JSON.parse` are inputs.
 */
module ApiHandler {
  import opened Wrappers
  import opened Json

  /** An incoming request: `verb` is its HTTP method; `body` is what `req.json()` gave, or the error it threw. */
  datatype Request<B> = Request(verb: string, body: Result<B>)

  /** What `generateContent` did: produced a reply whose `text` may be absent, or threw. */
  datatype ModelReply = Reply(text: Option<string>) | Thrown(message: string)

  /** What `JSON.parse` does with a text: a value, or a `SyntaxError` with its message. */
  datatype Parsed = Parsed(value: Json) | SyntaxError(message: string)

  /** A response body: the model's text passed through, or `JSON.stringify({ message })`. */
  datatype ResponseBody = Raw(text: string) | MessageJson(message: string)

  datatype Response = Response(status: int, body: ResponseBody)

  /** The response, and the prompt the model was called with (`None` when it was not called). */
  datatype Outcome = Outcome(response: Response, modelPrompt: Option<string>)

  const OnlyPostMessage := "Only POST requests allowed"
  const MissingKeyMessage := "La API key de Google no está configurada en el servidor."
  const InternalErrorMessage := "Error interno del servidor."

  /** `!apiKey` is false: the variable is set and not empty. */
  predicate HasKey(apiKey: Option<string>)
  {
    apiKey.Some? && apiKey.value != ""
  }

  /** The catch block: status 500 with the error's message, or the generic one when it has none. */
  function Caught(message: string): (r: Response)
    ensures r.status == 500 && r.body.MessageJson? && r.body.message != ""
    ensures message != "" ==> r.body.message == message
  {
    Response(500, MessageJson(if message == "" then InternalErrorMessage else message))
  }

  /**
   * What follows the model call: a thrown error or empty text is a 500; when
   * `parse` is given, text it rejects is a 500 too; otherwise the text goes out
   * unchanged with status 200.
   */
  function Answer(reply: ModelReply, emptyMessage: string, parse: Option<string -> Parsed>): Response
    requires emptyMessage != ""
  {
    match reply
    case Thrown(m) => Caught(m)
    case Reply(text) =>
      if text.None? || text.value == "" then Caught(emptyMessage)
      else if parse.Some? && parse.value(text.value).SyntaxError? then Caught(parse.value(text.value).message)
      else Response(200, Raw(text.value))
  }

  /** Whether the model text gets through the checks after the call. */
  predicate Accepted(reply: ModelReply, parse: Option<string -> Parsed>)
  {
    reply.Reply? && reply.text.Some? && reply.text.value != "" &&
    (parse.Some? ==> parse.value(reply.text.value).Parsed?)
  }

  /**
   * The handler chain. `render` builds the prompt from the request body, or
   * reports the error building it threw.
   */
  function Serve<B>(
    req: Request<B>, apiKey: Option<string>, render: B -> Result<string>,
    reply: ModelReply, emptyMessage: string, parse: Option<string -> Parsed>): (o: Outcome)
    requires emptyMessage != ""
    ensures o.response.status == 200 || o.response.status == 405 || o.response.status == 500
    ensures o.response.status == 405 <==> req.verb != "POST"
    ensures o.modelPrompt.Some? <==>
      req.verb == "POST" && req.body.Ok? && HasKey(apiKey) && render(req.body.value).Ok?
    ensures o.modelPrompt.Some? ==> o.modelPrompt.value == render(req.body.value).value
    ensures o.response.status == 200 <==> o.modelPrompt.Some? && Accepted(reply, parse)
    ensures o.response.status == 200 ==> o.response.body == Raw(reply.text.value)
    ensures o.response.status != 200 ==> o.response.body.MessageJson?
  {
    if req.verb != "POST" then
      Outcome(Response(405, MessageJson(OnlyPostMessage)), None)
    else if req.body.Err? then
      Outcome(Caught(req.body.message), None)
    else if !HasKey(apiKey) then
      Outcome(Response(500, MessageJson(MissingKeyMessage)), None)
    else
      match render(req.body.value)
      case Err(m) => Outcome(Caught(m), None)
      case Ok(prompt) => Outcome(Answer(reply, emptyMessage, parse), Some(prompt))
  }
}
