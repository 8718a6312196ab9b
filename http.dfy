/** The response object a request handler writes to (`res.setHeader`,
    `res.status(..)`, `res.json(..)`, `res.end()`), and the JSON bodies the
    relays send. */
module Http {

  /** The JSON bodies the handlers produce. */
  datatype Body =
    | NoBody
    | ErrorJson(error: string)
    | ReplyJson(reply: string)
    | AnswerJson(answer: string, question: string, timestamp: string)
    | HealthJson(status: string, timestamp: string)

  /** A response as the client receives it: status code, the headers the handler set, body. */
  datatype Response = Response(status: int, headers: map<string, string>, body: Body)

  /** A server response object, fresh from the framework: status 200, no headers, nothing sent. */
  class Res {
    var statusCode: int
    var headers: map<string, string>
    var body: Body
    var finished: bool

    /** The state the framework hands a response to a handler in. */
    predicate Unsent()
      reads this
    {
      statusCode == 200 && headers == map[] && body == NoBody && !finished
    }

    constructor ()
      ensures Unsent()
    {
      statusCode, headers, body, finished := 200, map[], NoBody, false;
    }

    /** What the client receives once the response is finished. */
    function Sent(): Response
      reads this
    {
      Response(statusCode, headers, body)
    }

    method SetHeader(name: string, value: string)
      requires !finished
      modifies this
      ensures headers == old(headers)[name := value]
      ensures statusCode == old(statusCode) && body == old(body) && !finished
    {
      headers := headers[name := value];
    }

    method Status(code: int)
      requires !finished
      modifies this
      ensures statusCode == code
      ensures headers == old(headers) && body == old(body) && !finished
    {
      statusCode := code;
    }

    /** `res.json(b)`: send `b` and finish the response. */
    method Json(b: Body)
      requires !finished
      modifies this
      ensures body == b && finished
      ensures statusCode == old(statusCode) && headers == old(headers)
    {
      body, finished := b, true;
    }

    /** `res.end()`: finish the response with no body. */
    method End()
      requires !finished
      modifies this
      ensures finished
      ensures statusCode == old(statusCode) && headers == old(headers) && body == old(body)
    {
      finished := true;
    }
  }
}
