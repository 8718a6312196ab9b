/** The transcript of frontend/src/components/QAWidget.tsx: `handleSubmit`
    appends the question, sets `isLoading`, awaits `askQuestion`, appends one
    answer and clears `isLoading`. */
module QAWidgetComponent {
  import opened FrontendApi

  datatype Kind = Question | Answer

  /** One entry of `messages`. Ids and timestamps come from the clock and are passed in. */
  datatype Message = Message(id: string, kind: Kind, content: string, timestamp: string)

  /** A value a rejected promise carries: an `Error` instance, or anything else. */
  datatype Thrown = ErrorObject(message: string) | NonError

  /** How the awaited `askQuestion(question)` settled. */
  datatype Settled = Fulfilled(response: QAResponse) | Rejected(reason: Thrown)

  const UnexpectedError := "An unexpected error occurred. Please try again."

  /** The promise `askQuestion` returns, for a given outcome of its POST. */
  function SettledFrom(r: AskResult): (s: Settled)
    ensures r.Returned? ==> s == Fulfilled(r.response)
    ensures r.Raised? ==> s == Rejected(ErrorObject(r.message))
  {
    match r
    case Returned(response) => Fulfilled(response)
    case Raised(message) => Rejected(ErrorObject(message))
  }

  /** The answer message appended once the request settles; `now` is the time of the failure. */
  function AnswerFor(s: Settled, id: string, now: string): (m: Message)
    ensures m.kind == Answer && m.id == id
    ensures s.Fulfilled? ==> m.content == s.response.answer && m.timestamp == s.response.timestamp
    ensures s == Rejected(NonError) ==> m.content == UnexpectedError && m.timestamp == now
    ensures s.Rejected? && s.reason.ErrorObject? ==> m.content == s.reason.message && m.timestamp == now
  {
    match s
    case Fulfilled(response) => Message(id, Answer, response.answer, response.timestamp)
    case Rejected(ErrorObject(message)) => Message(id, Answer, message, now)
    case Rejected(NonError) => Message(id, Answer, UnexpectedError, now)
  }

  /** The transcript is question/answer pairs, each question followed by its answer. */
  ghost predicate Paired(ms: seq<Message>)
  {
    && |ms| % 2 == 0
    && forall i :: 0 <= i < |ms| ==> ms[i].kind == (if i % 2 == 0 then Question else Answer)
  }

  class QAWidget {
    var messages: seq<Message>
    var isLoading: bool

    /** Between submissions: no request in flight, and every question has its answer. */
    ghost predicate Valid()
      reads this
    {
      !isLoading && Paired(messages)
    }

    constructor ()
      ensures Valid() && messages == []
    {
      messages, isLoading := [], false;
    }

    /** Lines before the `await`: append the question, then set `isLoading`. */
    method Ask(question: string, id: string, now: string)
      modifies this
      ensures messages == old(messages) + [Message(id, Question, question, now)]
      ensures isLoading
    {
      messages := messages + [Message(id, Question, question, now)];
      isLoading := true;
    }

    /** Lines after the `await`: append exactly one answer, then, in `finally`, clear `isLoading`. */
    method Settle(s: Settled, id: string, now: string)
      modifies this
      ensures messages == old(messages) + [AnswerFor(s, id, now)]
      ensures !isLoading
    {
      messages := messages + [AnswerFor(s, id, now)];
      isLoading := false;
    }

    /** One submission, taken as a whole: the request settles as `s`. */
    method HandleSubmit(question: string, s: Settled, questionId: string, askedAt: string, answerId: string, settledAt: string)
      requires Valid()
      modifies this
      ensures Valid()
      ensures messages == old(messages) + [Message(questionId, Question, question, askedAt), AnswerFor(s, answerId, settledAt)]
    {
      Ask(question, questionId, askedAt);
      Settle(s, answerId, settledAt);
      assert messages[|messages| - 2].kind == Question;
    }
  }
}
