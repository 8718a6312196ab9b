/** The Next.js chat relay of pages/api/chat.js: method gate, `messages` check,
    then `messages` forwarded to the provider as received. */
module PagesApiChat {
  import opened Js
  import opened Chat
  import opened Http
  import opened Completions

  const Model := "gpt-3.5-turbo"
  const MaxTokens := 512
  const Temperature := 0.7

  /** The parts of a request the handler reads: its method and `req.body.messages`. */
  datatype Request = Request(verb: string, messages: Field)

  /** The handler, as a function of the request and of what the provider would do. */
  function Respond(req: Request, completion: Completion): (x: Exchange)
    ensures x.response.headers == map[]
    ensures x.call.Some? <==> req.verb == "POST" && Truthy(req.messages)
    ensures x.call.Some? ==> x.call.value == ProviderCall(Model, req.messages, MaxTokens, Temperature)
    ensures x.response.status == 200 <==> x.call.Some? && completion.Completed?
    ensures x.response.status in {200, 400, 405, 500}
  {
    if req.verb != "POST" then
      Exchange(Response(405, map[], ErrorJson("Method not allowed")), None)
    else if !Truthy(req.messages) then
      Exchange(Response(400, map[], ErrorJson("Missing messages")), None)
    else
      var call := ProviderCall(Model, req.messages, MaxTokens, Temperature);
      match completion
      case Completed(content) => Exchange(Response(200, map[], ReplyJson(OrElse(content, ""))), Some(call))
      case Failed(message) => Exchange(Response(500, map[], ErrorJson(message)), Some(call))
  }

  /** The handler as written: the response goes to `res`, the request to `provider`. */
  method Handler(req: Request, provider: Provider, res: Res)
    requires res.Unsent()
    modifies provider, res
    ensures res.finished
    ensures res.Sent() == Respond(req, provider.scripted).response
    ensures provider.log == old(provider.log) + Calls(Respond(req, provider.scripted))
  {
    if req.verb != "POST" {
      res.Status(405);
      res.Json(ErrorJson("Method not allowed"));
      return;
    }
    if !Truthy(req.messages) {
      res.Status(400);
      res.Json(ErrorJson("Missing messages"));
      return;
    }
    var completion := provider.Create(ProviderCall(Model, req.messages, MaxTokens, Temperature));
    match completion
    case Completed(content) =>
      res.Status(200);
      res.Json(ReplyJson(OrElse(content, "")));
    case Failed(message) =>
      res.Status(500);
      res.Json(ErrorJson(message));
  }

  /** A method other than POST, OPTIONS included, is refused with 405 and no provider call. */
  lemma NonPostRefused(req: Request, completion: Completion)
    requires req.verb != "POST"
    ensures var x := Respond(req, completion);
      x.response.status == 405 && x.response.body == ErrorJson("Method not allowed") && CallCount(x) == 0
  {
  }

  /** A falsy `messages` is refused with 400 and no provider call. */
  lemma FalsyMessagesRefused(messages: Field, completion: Completion)
    requires !Truthy(messages)
    ensures var x := Respond(Request("POST", messages), completion);
      x.response.status == 400 && x.response.body == ErrorJson("Missing messages") && CallCount(x) == 0
  {
  }

  /** No persona is added and no turn is dropped: caller-supplied system turns reach the provider. */
  lemma ForwardsVerbatim(turns: seq<Turn>, completion: Completion)
    ensures var x := Respond(Request("POST", Arr(turns)), completion);
      x.call.Some? && x.call.value.messages == Arr(turns)
  {
  }

  /** The reply is the first choice's content, or ''; a provider error's message is passed on. */
  lemma ReplyOrError(messages: Field, completion: Completion)
    requires Truthy(messages)
    ensures var x := Respond(Request("POST", messages), completion);
      match completion
      case Completed(content) =>
        x.response.status == 200 && x.response.body == ReplyJson(if content.Some? then content.value else "")
      case Failed(message) =>
        x.response.status == 500 && x.response.body == ErrorJson(message)
  {
  }
}
