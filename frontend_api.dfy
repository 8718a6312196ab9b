/** The browser-side client of frontend/src/lib/api.ts: `askQuestion` turns the
    outcome of one axios POST into a returned response or a thrown Error. */
module FrontendApi {
  import opened Js
  import opened Http

  /** The success body of the question endpoint. */
  datatype QAResponse = QAResponse(answer: string, question: string, timestamp: string)

  /** How the axios POST settles: resolved with a 2xx body; rejected with an axios
      error, whose `response?.data?.error` is `serverError` (`None` when there is no
      response, no data or no such field); or rejected with anything else. */
  datatype AxiosOutcome = Resolved(data: QAResponse) | AxiosRejected(serverError: Option<string>) | OtherRejection

  /** What a call of `askQuestion` does: return the data, or throw an Error with a message. */
  datatype AskResult = Returned(response: QAResponse) | Raised(message: string)

  datatype Health = Health(status: string, timestamp: string)

  const FailedToGetAnswer := "Failed to get answer"
  const Unexpected := "An unexpected error occurred"

  function AskQuestion(outcome: AxiosOutcome): (r: AskResult)
    ensures r.Returned? <==> outcome.Resolved?
    ensures outcome.Resolved? ==> r.response == outcome.data
    ensures outcome.AxiosRejected? ==> r.message == OrElse(outcome.serverError, FailedToGetAnswer)
    ensures outcome.OtherRejection? ==> r.message == Unexpected
    ensures r.Raised? ==> r.message != ""
  {
    match outcome
    case Resolved(data) => Returned(data)
    case AxiosRejected(serverError) => Raised(OrElse(serverError, FailedToGetAnswer))
    case OtherRejection => Raised(Unexpected)
  }

  /** How axios settles on a response of the question endpoint: a 2xx status resolves
      with the body, any other status rejects carrying the body's `error` field. */
  function AxiosOf(r: Response): (o: AxiosOutcome)
    requires 200 <= r.status < 300 ==> r.body.AnswerJson?
    ensures o.Resolved? <==> 200 <= r.status < 300
    ensures o.AxiosRejected? ==> o.serverError == (if r.body.ErrorJson? then Some(r.body.error) else None)
  {
    if 200 <= r.status < 300 then Resolved(QAResponse(r.body.answer, r.body.question, r.body.timestamp))
    else AxiosRejected(if r.body.ErrorJson? then Some(r.body.error) else None)
  }

  /** `checkHealth`: there is no health endpoint behind it, so it always reports OK. */
  function CheckHealth(now: string): (h: Health)
    ensures h.status == "OK" && h.timestamp == now
  {
    Health("OK", now)
  }

  /** A server error text reaches the caller verbatim; an empty or missing one becomes the default. */
  lemma ServerErrorSurfaced(serverError: string)
    ensures AskQuestion(AxiosRejected(Some(serverError))) ==
      Raised(if serverError != "" then serverError else FailedToGetAnswer)
    ensures AskQuestion(AxiosRejected(None)) == Raised(FailedToGetAnswer)
  {
  }
}
