/** A browser `fetch` POST of a transcript and the `await response.json()` after it,
    replaced by a scripted endpoint that records every transcript posted to it. */
module Fetch {
  import opened Js
  import opened Chat
  import opened Http

  /** The body of a response as `response.json()` sees it: not JSON (the call rejects),
      or a JSON object whose `reply` field is a string or is absent. */
  datatype ReplyBody = NotJson | Json(reply: Option<string>)

  /** How the `fetch` settles: it rejects, or it resolves with a status and a body. */
  datatype FetchOutcome = NetworkError | Received(status: int, body: ReplyBody)

  /** `response.ok`. */
  predicate Ok(status: int)
  {
    200 <= status <= 299
  }

  /** What a browser receives from a relay that sent `r`: an empty body is not JSON,
      a reply body carries its `reply`, and every other body has no `reply` field. */
  function Over(r: Response): (o: FetchOutcome)
    ensures o.Received? && o.status == r.status
    ensures o.body.Json? && o.body.reply.Some? <==> r.body.ReplyJson?
    ensures r.body.ReplyJson? ==> o.body.reply == Some(r.body.reply)
    ensures o.body.NotJson? <==> r.body.NoBody?
  {
    match r.body
    case NoBody => Received(r.status, NotJson)
    case ReplyJson(reply) => Received(r.status, Json(Some(reply)))
    case _ => Received(r.status, Json(None))
  }

  /** An endpoint that answers every POST with `scripted` and logs the `messages` posted. */
  class Endpoint {
    const scripted: FetchOutcome
    var posted: seq<seq<Turn>>

    constructor (scripted: FetchOutcome)
      ensures this.scripted == scripted && posted == []
    {
      this.scripted := scripted;
      posted := [];
    }

    method Post(messages: seq<Turn>) returns (o: FetchOutcome)
      modifies this
      ensures posted == old(posted) + [messages] && o == scripted
    {
      posted := posted + [messages];
      o := scripted;
    }
  }
}
