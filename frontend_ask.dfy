/** The Next.js question endpoint of frontend/src/pages/api/ask.ts: method gate,
    question check, a two-turn prompt; no credential gate. */
module FrontendAsk {
  import opened Js
  import opened Chat
  import opened Http
  import opened Completions

  /** The assistant's persona, abbreviated: only its place in the prompt matters. */
  const Persona := "You are a helpful assistant for Canopy's website."
  const Model := "gpt-3.5-turbo"
  const MaxTokens := 500
  const Temperature := 0.7
  const BadQuestion := "Question is required and must be a string"
  const NoAnswer := "Sorry, I could not generate a response."
  const AskFailed := "Failed to process your question. Please try again."

  /** The parts of a request the handler reads: its method and `req.body.question`. */
  datatype Request = Request(verb: string, question: Field)

  /** `question` passes `!question || typeof question !== 'string'`. */
  predicate IsQuestion(question: Field)
  {
    Truthy(question) && question.Str?
  }

  /** The messages sent for one question: the persona, then the question. */
  function Prompt(question: string): seq<Turn>
  {
    [SystemTurn(Persona), UserTurn(question)]
  }

  /** The handler; `now` stands for `new Date().toISOString()`. */
  function Respond(req: Request, completion: Completion, now: string): (x: Exchange)
    ensures x.call.Some? <==> req.verb == "POST" && IsQuestion(req.question)
    ensures x.call.Some? ==>
      x.call.value == ProviderCall(Model, Arr(Prompt(req.question.s)), MaxTokens, Temperature)
    ensures x.response.status == 200 <==> x.call.Some? && completion.Completed?
    ensures x.response.status == 200 ==> x.response.body.AnswerJson? && x.response.body.answer != ""
    ensures x.response.status != 200 ==> x.response.body.ErrorJson?
    ensures x.response.status in {200, 400, 405, 500}
  {
    if req.verb != "POST" then
      Exchange(Response(405, map[], ErrorJson("Method not allowed")), None)
    else if !IsQuestion(req.question) then
      Exchange(Response(400, map[], ErrorJson(BadQuestion)), None)
    else
      var q := req.question.s;
      var call := ProviderCall(Model, Arr(Prompt(q)), MaxTokens, Temperature);
      match completion
      case Completed(content) =>
        Exchange(Response(200, map[], AnswerJson(OrElse(content, NoAnswer), q, now)), Some(call))
      case Failed(_) =>
        Exchange(Response(500, map[], ErrorJson(AskFailed)), Some(call))
  }

  /** The handler as written: the response goes to `res`, the request to `provider`. */
  method Handler(req: Request, now: string, provider: Provider, res: Res)
    requires res.Unsent()
    modifies provider, res
    ensures res.finished
    ensures res.Sent() == Respond(req, provider.scripted, now).response
    ensures provider.log == old(provider.log) + Calls(Respond(req, provider.scripted, now))
  {
    if req.verb != "POST" {
      res.Status(405);
      res.Json(ErrorJson("Method not allowed"));
      return;
    }
    if !req.question.Str? || req.question.s == "" {
      res.Status(400);
      res.Json(ErrorJson(BadQuestion));
      return;
    }
    var q := req.question.s;
    var completion := provider.Create(ProviderCall(Model, Arr(Prompt(q)), MaxTokens, Temperature));
    match completion
    case Completed(content) =>
      res.Status(200);
      res.Json(AnswerJson(OrElse(content, NoAnswer), q, now));
    case Failed(_) =>
      res.Status(500);
      res.Json(ErrorJson(AskFailed));
  }

  /** A method other than POST is refused with 405 and no provider call. */
  lemma NonPostRefused(req: Request, completion: Completion, now: string)
    requires req.verb != "POST"
    ensures var x := Respond(req, completion, now);
      x.response == Response(405, map[], ErrorJson("Method not allowed")) && CallCount(x) == 0
  {
  }

  /** A missing, empty or non-string question is refused with 400 and no provider call. */
  lemma InvalidQuestionRefused(question: Field, completion: Completion, now: string)
    requires !(question.Str? && question.s != "")
    ensures var x := Respond(Request("POST", question), completion, now);
      x.response == Response(400, map[], ErrorJson(BadQuestion)) && CallCount(x) == 0
  {
  }

  /** Every POST of a non-empty string reaches the provider exactly once, as the persona
      followed by the question; its answer, or the apology, comes back with the question
      and the time. */
  lemma ValidQuestionAnswered(q: string, completion: Completion, now: string)
    requires q != ""
    ensures var x := Respond(Request("POST", Str(q)), completion, now);
      && x.call == Some(ProviderCall(Model, Arr([SystemTurn(Persona), UserTurn(q)]), 500, 0.7))
      && match completion
         case Completed(content) =>
           x.response == Response(200, map[], AnswerJson(OrElse(content, NoAnswer), q, now))
         case Failed(_) =>
           x.response == Response(500, map[], ErrorJson(AskFailed))
  {
  }
}
