/**
 * The browser-side service: one POST per call, no retry; the parsed body on
 * an ok reply, and on any other reply an error whose message is picked from
 * the server's JSON body or a fixed fallback.
 */
module GeminiService {
  import opened Wrappers
  import opened Text
  import opened Types
  import opened Json
  import opened ApiHandler
  import PlanApi
  import DetailsApi

  /** What `fetch` gave: a response, with `ok` and what `response.json()` made of its body; or a rejection. */
  datatype Fetched = Answered(ok: bool, body: Parsed) | NetworkError(message: string)

  /** What the service call does: resolves with a value, or rejects with an error message. */
  datatype CallResult = Resolved(value: Json) | Rejected(message: string)

  const UnknownServerError := "Error desconocido en el servidor."
  const PlanFallback := "No se pudo generar el plan de comidas desde el servidor."
  /** The engine's message for reading `message` off a `null` body. */
  const NullBodyError := "Cannot read properties of null (reading 'message')"

  function DetailsFallback(mealName: string): string
  {
    "No se pudieron generar los detalles para la receta: " + mealName + "."
  }

  /**
   * The error a non-ok reply raises: the body's `message` when it is truthy
   * (converted as `new Error` converts it), else `fallback`; a body that is not
   * JSON stands for `{ message: 'Error desconocido en el servidor.' }`.
   */
  function FailureMessage(body: Parsed, fallback: string): string
  {
    match body
    case SyntaxError(_) => UnknownServerError
    case Parsed(v) =>
      if v.JNull? then NullBodyError
      else
        var m := Field(v, "message");
        if m.Some? && Truthy(m.value) then ToJsString(m.value) else fallback
  }

  /** The part both calls share after `fetch`. */
  function Receive(fetched: Fetched, fallback: string): CallResult
  {
    match fetched
    case NetworkError(m) => Rejected(m)
    case Answered(ok, body) =>
      if !ok then Rejected(FailureMessage(body, fallback))
      else if body.SyntaxError? then Rejected(body.message)
      else Resolved(body.value)
  }

  /** `generateMealPlan`, given what its single `fetch` gave. */
  function GenerateMealPlan(fetched: Fetched): (r: CallResult)
    ensures fetched.Answered? && fetched.ok && fetched.body.Parsed? ==> r == Resolved(fetched.body.value)
    ensures fetched.Answered? && !fetched.ok ==> r == Rejected(FailureMessage(fetched.body, PlanFallback))
    ensures fetched.Answered? && fetched.ok && fetched.body.SyntaxError? ==> r == Rejected(fetched.body.message)
    ensures fetched.NetworkError? ==> r == Rejected(fetched.message)
    ensures r.Resolved? ==> fetched.Answered? && fetched.ok
  {
    Receive(fetched, PlanFallback)
  }

  /** `generateRecipeDetails`, given what its single `fetch` gave. */
  function GenerateRecipeDetails(mealName: string, fetched: Fetched): (r: CallResult)
    ensures fetched.Answered? && fetched.ok && fetched.body.Parsed? ==> r == Resolved(fetched.body.value)
    ensures fetched.Answered? && !fetched.ok ==> r == Rejected(FailureMessage(fetched.body, DetailsFallback(mealName)))
    ensures fetched.Answered? && fetched.ok && fetched.body.SyntaxError? ==> r == Rejected(fetched.body.message)
    ensures fetched.NetworkError? ==> r == Rejected(fetched.message)
    ensures r.Resolved? ==> fetched.Answered? && fetched.ok
  {
    Receive(fetched, DetailsFallback(mealName))
  }

  // ---------------------------------------------------------------------
  // The requests

  /** `new Date(...).toISOString()` on the server of what `JSON.stringify` made of the client's date. */
  const EpochIso := "1970-01-01T00:00:00.000Z"

  /**
   * The request `generateMealPlan` sends. `startIso` is the date's ISO form, or
   * `None` for an invalid date, which `JSON.stringify` writes as `null` and the
   * server reads back as the epoch.
   */
  function PlanRequest(
    profiles: seq<Profile>, recipes: seq<Recipe>, duration: int, startIso: Option<string>,
    includeBreakfasts: bool): Request<PlanApi.PlanBody>
  {
    Request("POST", Ok(PlanApi.PlanBody(profiles, recipes, duration, Some(startIso.GetOr(EpochIso)), includeBreakfasts)))
  }

  function DetailsRequest(mealName: string, familySize: int): Request<DetailsApi.DetailsBody>
  {
    Request("POST", Ok(DetailsApi.DetailsBody(mealName, familySize)))
  }

  /** How a handler's response arrives in the browser; a message body parses back to `{ message }`. */
  function Deliver(resp: Response, parse: string -> Parsed): Fetched
  {
    Answered(200 <= resp.status < 300,
      match resp.body
      case Raw(t) => parse(t)
      case MessageJson(m) => Parsed(JObject([Member("message", JString(m))])))
  }

  // ---------------------------------------------------------------------
  // Properties

  /** A body that is not JSON always gives the generic server message, whatever the fallback. */
  lemma UnparseableBodyIgnoresFallback(syntax: string, f1: string, f2: string)
    ensures FailureMessage(SyntaxError(syntax), f1) == FailureMessage(SyntaxError(syntax), f2) == UnknownServerError
  {
  }

  /** A non-empty string `message` is what the caller sees, whatever the call's fallback. */
  lemma StringMessageWins(ms: seq<Member>, m: string, f1: string, f2: string)
    requires Lookup(ms, "message") == Some(JString(m)) && m != ""
    ensures FailureMessage(Parsed(JObject(ms)), f1) == FailureMessage(Parsed(JObject(ms)), f2) == m
  {
  }

  /**
   * For a JSON body other than `null`, the call's fallback shows through
   * exactly when the body has no truthy `message`: two calls with different
   * fallbacks report the same text iff the body carries one.
   */
  lemma FallbackOnlyWithoutMessage(v: Json, f1: string, f2: string)
    requires v != JNull && f1 != f2
    ensures FailureMessage(Parsed(v), f1) == FailureMessage(Parsed(v), f2) <==>
      Field(v, "message").Some? && Truthy(Field(v, "message").value)
  {
  }

  /** A JSON body without a truthy `message` gives the call's own fallback, which for details names the dish. */
  lemma MissingMessageGivesFallback(v: Json, mealName: string)
    requires v != JNull
    requires Field(v, "message").None? || !Truthy(Field(v, "message").value)
    ensures GenerateMealPlan(Answered(false, Parsed(v))) == Rejected("No se pudo generar el plan de comidas desde el servidor.")
    ensures GenerateRecipeDetails(mealName, Answered(false, Parsed(v))) == Rejected(DetailsFallback(mealName))
    ensures Contains(DetailsFallback(mealName), mealName)
  {
    ContainsWithin("No se pudieron generar los detalles para la receta: ", mealName, ".");
  }

  /** The plan client's request always passes the method gate, and never carries an invalid date. */
  lemma PlanRequestPassesGates(
    profiles: seq<Profile>, recipes: seq<Recipe>, duration: int, startIso: Option<string>,
    includeBreakfasts: bool, apiKey: Option<string>, reply: ModelReply)
    ensures var o := PlanApi.Handler(PlanRequest(profiles, recipes, duration, startIso, includeBreakfasts), apiKey, reply);
      o.response.status != 405 &&
      (HasKey(apiKey) ==>
        o.modelPrompt == Some(PlanApi.BuildPrompt(profiles, recipes, duration, startIso.GetOr(EpochIso), includeBreakfasts)))
  {
    if HasKey(apiKey) {
      PlanApi.HandlerPrompt(PlanRequest(profiles, recipes, duration, startIso, includeBreakfasts), apiKey, reply);
    }
  }

  /** Every error message a handler sends back reaches the caller unchanged. */
  lemma ServerMessageReachesCaller(resp: Response, parse: string -> Parsed, mealName: string)
    requires resp.status < 200 || 300 <= resp.status
    requires resp.body.MessageJson? && resp.body.message != ""
    ensures GenerateMealPlan(Deliver(resp, parse)) == Rejected(resp.body.message)
    ensures GenerateRecipeDetails(mealName, Deliver(resp, parse)) == Rejected(resp.body.message)
  {
    var ms := [Member("message", JString(resp.body.message))];
    assert Lookup(ms, "message") == Some(JString(resp.body.message));
  }

  /** A 200 from the details handler resolves the client call with the parsed model text. */
  lemma DetailsRoundTrip(
    mealName: string, familySize: int, apiKey: Option<string>, reply: ModelReply, parse: string -> Parsed)
    requires HasKey(apiKey)
    requires reply.Reply? && reply.text.Some? && reply.text.value != "" && parse(reply.text.value).Parsed?
    ensures var o := DetailsApi.Handler(DetailsRequest(mealName, familySize), apiKey, reply, parse);
      GenerateRecipeDetails(mealName, Deliver(o.response, parse)) == Resolved(parse(reply.text.value).value)
  {
  }

  /** A handler error reaches the details caller as the handler's message. */
  lemma DetailsErrorReachesCaller(
    mealName: string, familySize: int, apiKey: Option<string>, reply: ModelReply, parse: string -> Parsed)
    ensures var o := DetailsApi.Handler(DetailsRequest(mealName, familySize), apiKey, reply, parse);
      o.response.status != 200 ==>
        GenerateRecipeDetails(mealName, Deliver(o.response, parse)) == Rejected(o.response.body.message)
  {
    var o := DetailsApi.Handler(DetailsRequest(mealName, familySize), apiKey, reply, parse);
    if o.response.status != 200 {
      ServerMessageReachesCaller(o.response, parse, mealName);
    }
  }
}
