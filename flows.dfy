/** End-to-end properties across the clients and the relays they call: what a
    submission in one component makes the server do, and what the user then sees. */
module Flows {
  import opened Js
  import opened Chat
  import opened Http
  import opened Completions
  import opened Fetch
  import ApiChat
  import PagesApiChat
  import FrontendAsk
  import FrontendApi
  import InputBarComponent
  import QAWidgetComponent
  import ChatPage
  import Widget
  import WidgetEmbedded
  import Bubbles

  /** Whatever the input bar lets through is a question the endpoint accepts: it is never
      refused with 400 and the provider is asked exactly once. */
  lemma SubmissionAccepted(question: string, isLoading: bool, disabled: bool, completion: Completion, now: string)
    requires InputBarComponent.Submission(question, isLoading, disabled).Some?
    ensures var q := InputBarComponent.Submission(question, isLoading, disabled).value;
      var x := FrontendAsk.Respond(FrontendAsk.Request("POST", Str(q)), completion, now);
      x.response.status != 400 && CallCount(x) == 1
  {
  }

  /** The answer bubble of the Q&A widget, for the endpoint's response to `req`. */
  function ShownAnswer(req: FrontendAsk.Request, completion: Completion, now: string, id: string, t: string): QAWidgetComponent.Message
  {
    var r := FrontendAsk.Respond(req, completion, now).response;
    QAWidgetComponent.AnswerFor(QAWidgetComponent.SettledFrom(FrontendApi.AskQuestion(FrontendApi.AxiosOf(r))), id, t)
  }

  /** Every request the question endpoint answers ends in a non-empty answer message in
      the Q&A widget: the server's answer on 200, otherwise the server's error text
      verbatim; the component's own "unexpected error" fallback is never used. */
  lemma AnswerAlwaysShown(req: FrontendAsk.Request, completion: Completion, now: string, id: string, t: string)
    ensures var r := FrontendAsk.Respond(req, completion, now).response;
      var m := ShownAnswer(req, completion, now, id, t);
      && m.content != ""
      && (r.status == 200 ==> m.content == r.body.answer && m.timestamp == r.body.timestamp)
      && (r.status != 200 ==> m.content == r.body.error && m.timestamp == t)
      && (r.status != 200 ==> m.content != QAWidgetComponent.UnexpectedError)
  {
    var r := FrontendAsk.Respond(req, completion, now).response;
    if r.status != 200 {
      assert r.body.error in {"Method not allowed", FrontendAsk.BadQuestion, FrontendAsk.AskFailed};
    }
  }

  /** A request that gets no response shows "Failed to get answer"; any other failure of
      the request shows "An unexpected error occurred". Neither is empty. */
  lemma NoResponseShown(id: string, t: string)
    ensures QAWidgetComponent.AnswerFor(QAWidgetComponent.SettledFrom(FrontendApi.AskQuestion(FrontendApi.AxiosRejected(None))), id, t).content
      == FrontendApi.FailedToGetAnswer
    ensures QAWidgetComponent.AnswerFor(QAWidgetComponent.SettledFrom(FrontendApi.AskQuestion(FrontendApi.OtherRejection)), id, t).content
      == FrontendApi.Unexpected
  {
  }

  /** A provider failure reaches the user as the endpoint's generic apology. */
  lemma ProviderFailureApology(q: string, message: string, now: string, id: string, t: string)
    requires q != ""
    ensures ShownAnswer(FrontendAsk.Request("POST", Str(q)), Failed(message), now, id, t).content == FrontendAsk.AskFailed
  {
  }

  /** A chat page posts its whole transcript, persona turn included; if the persona-injecting
      relay answers it, that turn is replaced by the relay's persona, so the provider sees
      exactly the displayed turns. */
  lemma PageTranscriptRebranded(ms: seq<Turn>, input: string, completion: Completion)
    requires ChatPage.WellFormed(ms)
    ensures var sent := ms + [UserTurn(input)];
      var x := ApiChat.Respond(ApiChat.Request("POST", Arr(sent)), true, completion);
      && x.call.Some?
      && x.call.value.messages == Arr([ApiChat.PersonaTurn] + ChatPage.Displayed(sent))
      && x.call.value.messages.items[1..] == sent[1..]
  {
    var sent := ms + [UserTurn(input)];
    ChatPage.DisplayedAppend(ms, [UserTurn(input)]);
    ChatPage.DisplayedIsTail(sent);
    var items := ApiChat.EnhancedMessages(sent);
    assert items == [ApiChat.PersonaTurn] + WithoutSystem(sent);
    assert items[1..] == WithoutSystem(sent);
  }

  /** If the verbatim relay answers the page instead, the provider receives the page's
      whole transcript unchanged, the page's own persona turn first. */
  lemma PageTranscriptVerbatim(ms: seq<Turn>, input: string, completion: Completion)
    requires ChatPage.WellFormed(ms)
    ensures var sent := ms + [UserTurn(input)];
      var x := PagesApiChat.Respond(PagesApiChat.Request("POST", Arr(sent)), completion);
      && x.call.Some?
      && x.call.value.messages == Arr(sent)
      && sent[0] == SystemTurn(ChatPage.Persona)
  {
  }

  /** What a chat page appends for the verbatim relay's response: the reply on success,
      and an assistant turn with no content on a provider failure. */
  lemma PageReplyFromVerbatimRelay(sent: seq<Turn>, completion: Completion)
    ensures var r := PagesApiChat.Respond(PagesApiChat.Request("POST", Arr(sent)), completion).response;
      ChatPage.ReplyOf(Over(r)) ==
        if completion.Completed? then Some(Some(OrElse(completion.content, ""))) else Some(None)
  {
  }

  /** What a chat page appends for the relay's response: the reply on success, and an
      assistant turn with no content on every error response. */
  lemma PageReplyFromRelay(sent: seq<Turn>, keyConfigured: bool, completion: Completion)
    ensures var r := ApiChat.Respond(ApiChat.Request("POST", Arr(sent)), keyConfigured, completion).response;
      ChatPage.ReplyOf(Over(r)) ==
        if keyConfigured && completion.Completed? then Some(Some(OrElse(completion.content, "")))
        else Some(None)
  {
  }

  /** Each script widget posts its own persona and the message; the relay replaces that
      persona by its own, so the provider sees the relay's persona and the message alone. */
  lemma WidgetPromptRebranded(message: string, completion: Completion)
    ensures var x := ApiChat.Respond(ApiChat.Request("POST", Arr(Widget.RequestBody(message))), true, completion);
      x.call.Some? && x.call.value.messages == Arr([ApiChat.PersonaTurn, UserTurn(message)])
    ensures var x := ApiChat.Respond(ApiChat.Request("POST", Arr(WidgetEmbedded.RequestBody(message))), true, completion);
      x.call.Some? && x.call.value.messages == Arr([ApiChat.PersonaTurn, UserTurn(message)])
  {
    var w := Widget.RequestBody(message);
    assert w[1..] == [UserTurn(message)];
    var e := WidgetEmbedded.RequestBody(message);
    assert e[1..] == [UserTurn(message)];
  }

  /** What the floating widget shows for the relay's response: the reply, its own
      fallback for an empty one, and the connection apology for every error status. */
  lemma WidgetTextFromRelay(message: string, keyConfigured: bool, completion: Completion)
    ensures var r := ApiChat.Respond(ApiChat.Request("POST", Arr(Widget.RequestBody(message))), keyConfigured, completion).response;
      Widget.SendMessage(Over(r)) ==
        if keyConfigured && completion.Completed? then OrElse(completion.content, Widget.NoProperResponse)
        else Widget.Trouble
  {
  }

  /** The embedded widget shows the reply, and an empty bubble for every error status. */
  lemma EmbeddedTextFromRelay(message: string, keyConfigured: bool, completion: Completion)
    ensures var r := ApiChat.Respond(ApiChat.Request("POST", Arr(WidgetEmbedded.RequestBody(message))), keyConfigured, completion).response;
      Bubbles.TextContent(WidgetEmbedded.SendMessage(Over(r))) ==
        if keyConfigured && completion.Completed? then OrElse(completion.content, "")
        else ""
  {
  }
}
