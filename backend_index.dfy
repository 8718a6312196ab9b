/** The Express back end of backend/src/index.ts: the cors preflight answer, the
    JSON body parser's failure path, `GET /health`, `POST /ask` and the 404 catch-all. */
module Backend {
  import opened Js
  import opened Chat
  import opened Http
  import opened Completions

  /** The assistant's persona, abbreviated: only its place in the prompt matters. */
  const Persona := "You are a helpful assistant for Canopy's website."
  const Model := "gpt-3.5-turbo"
  const MaxTokens := 500
  const Temperature := 0.7
  const BadQuestion := "Question is required and must be a string"
  const NoAnswer := "Sorry, I could not generate a response."
  const AskFailed := "Failed to process your question. Please try again."
  /** The error middleware's answer to anything passed to `next(err)`. */
  const WentWrong := "Something went wrong!"

  /** The request body after `express.json`: the parser rejected it (malformed, not an
      object or array, over the size limit), it left `req.body` undefined, or `question`
      is the field it yields. */
  datatype ReqBody = Unparsable | Unset | Parsed(question: Field)

  /** The parts of a request the app reads: method, path and body. */
  datatype Request = Request(verb: string, path: string, body: ReqBody)

  /** ASCII lower case; route matching folds nothing else. */
  function LowerAscii(s: string): (r: string)
    ensures |r| == |s|
    ensures forall i :: 0 <= i < |s| ==> r[i] == (if 'A' <= s[i] <= 'Z' then (s[i] as int + 32) as char else s[i])
  {
    seq(|s|, i requires 0 <= i < |s| => if 'A' <= s[i] <= 'Z' then (s[i] as int + 32) as char else s[i])
  }

  /** Express's default matching of a lower-case literal route: case-insensitive, with
      an optional trailing slash. */
  predicate PathIs(path: string, route: string)
  {
    LowerAscii(path) == route || LowerAscii(path) == route + "/"
  }

  /** `question` passes `!question || typeof question !== 'string'`. */
  predicate IsQuestion(question: Field)
  {
    Truthy(question) && question.Str?
  }

  /** The messages sent for one question: the persona, then the question. */
  function Prompt(question: string): seq<Turn>
  {
    [SystemTurn(Persona), UserTurn(question)]
  }

  /** The `/ask` route on `req.body` (`None` when it is undefined, which makes the
      destructuring throw inside the `try`); `now` stands for `new Date().toISOString()`. */
  function Ask(body: Option<Field>, keyConfigured: bool, completion: Completion, now: string): (x: Exchange)
    ensures x.call.Some? <==> body.Some? && IsQuestion(body.value) && keyConfigured
    ensures x.call.Some? ==>
      x.call.value == ProviderCall(Model, Arr(Prompt(body.value.s)), MaxTokens, Temperature)
    ensures x.response.status == 200 <==> x.call.Some? && completion.Completed?
    ensures x.response.status == 200 ==> x.response.body.AnswerJson? && x.response.body.answer != ""
    ensures x.response.status in {200, 400, 500}
  {
    if body.None? then
      Exchange(Response(500, map[], ErrorJson(AskFailed)), None)
    else if !IsQuestion(body.value) then
      Exchange(Response(400, map[], ErrorJson(BadQuestion)), None)
    else if !keyConfigured then
      Exchange(Response(500, map[], ErrorJson("OpenAI API key not configured")), None)
    else
      var q := body.value.s;
      var call := ProviderCall(Model, Arr(Prompt(q)), MaxTokens, Temperature);
      match completion
      case Completed(content) =>
        Exchange(Response(200, map[], AnswerJson(OrElse(content, NoAnswer), q, now)), Some(call))
      case Failed(_) =>
        Exchange(Response(500, map[], ErrorJson(AskFailed)), Some(call))
  }

  /** The app in registration order: the cors middleware answers every OPTIONS request
      itself; a body the JSON parser rejects goes to the error middleware; then the
      health check (which also serves HEAD), `/ask`, and the catch-all. */
  function Route(req: Request, keyConfigured: bool, completion: Completion, now: string): (x: Exchange)
    ensures req.verb == "OPTIONS" ==> x == Exchange(Response(204, map[], NoBody), None)
    ensures req.verb != "OPTIONS" && req.body.Unparsable? ==>
      x == Exchange(Response(500, map[], ErrorJson(WentWrong)), None)
    ensures x.call.Some? ==> req.verb == "POST" && PathIs(req.path, "/ask") && req.body.Parsed?
    ensures && req.verb != "OPTIONS" && !req.body.Unparsable?
            && !((req.verb == "GET" || req.verb == "HEAD") && PathIs(req.path, "/health"))
            && !(req.verb == "POST" && PathIs(req.path, "/ask")) ==>
      x.response == Response(404, map[], ErrorJson("Endpoint not found"))
    ensures && req.verb != "OPTIONS" && !req.body.Unparsable?
            && (req.verb == "GET" || req.verb == "HEAD") && PathIs(req.path, "/health") ==>
      x == Exchange(Response(200, map[], HealthJson("OK", now)), None)
    ensures req.verb == "POST" && PathIs(req.path, "/ask") && req.body.Parsed? ==>
      x == Ask(Some(req.body.question), keyConfigured, completion, now)
    ensures req.verb == "POST" && PathIs(req.path, "/ask") && req.body.Unset? ==>
      x == Ask(None, keyConfigured, completion, now)
  {
    if req.verb == "OPTIONS" then
      Exchange(Response(204, map[], NoBody), None)
    else if req.body.Unparsable? then
      Exchange(Response(500, map[], ErrorJson(WentWrong)), None)
    else if (req.verb == "GET" || req.verb == "HEAD") && PathIs(req.path, "/health") then
      Exchange(Response(200, map[], HealthJson("OK", now)), None)
    else if req.verb == "POST" && PathIs(req.path, "/ask") then
      Ask(if req.body.Parsed? then Some(req.body.question) else None, keyConfigured, completion, now)
    else
      Exchange(Response(404, map[], ErrorJson("Endpoint not found")), None)
  }

  /** The `/ask` handler as written: the response goes to `res`, the request to `provider`. */
  method AskHandler(body: Option<Field>, keyConfigured: bool, now: string, provider: Provider, res: Res)
    requires res.Unsent()
    modifies provider, res
    ensures res.finished
    ensures res.Sent() == Ask(body, keyConfigured, provider.scripted, now).response
    ensures provider.log == old(provider.log) + Calls(Ask(body, keyConfigured, provider.scripted, now))
  {
    if body.None? {
      res.Status(500);
      res.Json(ErrorJson(AskFailed));
      return;
    }
    var question := body.value;
    if !question.Str? || question.s == "" {
      res.Status(400);
      res.Json(ErrorJson(BadQuestion));
      return;
    }
    if !keyConfigured {
      res.Status(500);
      res.Json(ErrorJson("OpenAI API key not configured"));
      return;
    }
    var completion := provider.Create(ProviderCall(Model, Arr(Prompt(question.s)), MaxTokens, Temperature));
    match completion
    case Completed(content) =>
      res.Json(AnswerJson(OrElse(content, NoAnswer), question.s, now));
    case Failed(_) =>
      res.Status(500);
      res.Json(ErrorJson(AskFailed));
  }

  /** Exactly the non-empty strings are questions. */
  lemma QuestionShape(question: Field)
    ensures IsQuestion(question) <==> question.Str? && question.s != ""
  {
  }

  /** An undefined body throws inside the `try` and gets the generic apology, with no provider call. */
  lemma UnsetBodyApology(keyConfigured: bool, completion: Completion, now: string)
    ensures var x := Ask(None, keyConfigured, completion, now);
      x.response == Response(500, map[], ErrorJson(AskFailed)) && CallCount(x) == 0
  {
  }

  /** An invalid question is refused with 400 before the credential is looked at. */
  lemma InvalidQuestionFirst(question: Field, keyConfigured: bool, completion: Completion, now: string)
    requires !IsQuestion(question)
    ensures var x := Ask(Some(question), keyConfigured, completion, now);
      x.response == Response(400, map[], ErrorJson(BadQuestion)) && CallCount(x) == 0
  {
  }

  /** Without a credential, a valid question is answered 500 and the provider is not called. */
  lemma MissingKeyRefused(q: string, completion: Completion, now: string)
    requires q != ""
    ensures var x := Ask(Some(Str(q)), false, completion, now);
      x.response == Response(500, map[], ErrorJson("OpenAI API key not configured")) && CallCount(x) == 0
  {
  }

  /** The provider is asked the persona followed by the question; the answer is the content,
      or the fixed apology when the content is empty or absent; the body echoes the question
      and carries the timestamp. */
  lemma AnswerBody(q: string, content: Option<string>, now: string)
    requires q != ""
    ensures var x := Ask(Some(Str(q)), true, Completed(content), now);
      && x.call == Some(ProviderCall(Model, Arr([SystemTurn(Persona), UserTurn(q)]), 500, 0.7))
      && x.response.status == 200
      && x.response.body.AnswerJson?
      && x.response.body.question == q
      && x.response.body.timestamp == now
      && x.response.body.answer == (if content.Some? && content.value != "" then content.value else NoAnswer)
  {
  }

  /** A provider error is answered with a fixed message whatever the provider said. */
  lemma ProviderErrorHidden(q: string, m1: string, m2: string, now: string)
    requires q != ""
    ensures var x1 := Ask(Some(Str(q)), true, Failed(m1), now);
      && x1.response == Response(500, map[], ErrorJson(AskFailed))
      && x1.response == Ask(Some(Str(q)), true, Failed(m2), now).response
  {
  }

  /** `/health` reports OK, also as `/Health/` and to HEAD; a GET of `/ask` falls through to
      the 404 catch-all; an OPTIONS preflight of `/ask` gets the cors middleware's 204. */
  lemma HealthAndFallThrough(body: ReqBody, keyConfigured: bool, completion: Completion, now: string)
    requires !body.Unparsable?
    ensures Route(Request("GET", "/health", body), keyConfigured, completion, now).response.body == HealthJson("OK", now)
    ensures Route(Request("HEAD", "/Health/", body), keyConfigured, completion, now).response.status == 200
    ensures Route(Request("GET", "/ask", body), keyConfigured, completion, now).response.status == 404
    ensures Route(Request("OPTIONS", "/ask", body), keyConfigured, completion, now).response == Response(204, map[], NoBody)
  {
    assert LowerAscii("/Health/") == "/health/";
  }

  /** Ask under any spelling Express matches reaches the same handler. */
  lemma AskPathFolded(body: Field, keyConfigured: bool, completion: Completion, now: string)
    ensures Route(Request("POST", "/ASK/", Parsed(body)), keyConfigured, completion, now) ==
            Ask(Some(body), keyConfigured, completion, now)
  {
    assert LowerAscii("/ASK/") == "/ask/";
  }
}
