/** The in-page chat widget of public/widget-embedded.js: the reply mapping of
    `sendMessage` and the form's submit handler. */
module WidgetEmbedded {
  import opened Js
  import opened Chat
  import opened Fetch
  import opened Bubbles

  /** The short persona. */
  const Persona := "You are Canopy, a helpful assistant for www.gocanopy.com. Answer in a friendly, professional tone that matches Canopy's brand."
  const Trouble := "Sorry, I'm having trouble connecting right now. Please try again later."

  /** The `messages` every request carries: the persona, then the user's message. */
  function RequestBody(message: string): seq<Turn>
  {
    [SystemTurn(Persona), UserTurn(message)]
  }

  /** `sendMessage`: `data.reply` as received, whatever the status; the fallback
      string only when the request or the JSON parse fails. */
  function SendMessage(o: FetchOutcome): (reply: Option<string>)
    ensures o.NetworkError? || o.body.NotJson? ==> reply == Some(Trouble)
    ensures o.Received? && o.body.Json? ==> reply == o.body.reply
  {
    match o
    case NetworkError => Some(Trouble)
    case Received(_, NotJson) => Some(Trouble)
    case Received(_, Json(reply)) => reply
  }

  /** The form's submit handler: trims the input and ignores a blank one. */
  method OnSubmit(view: View, server: Endpoint) returns (ghost waiting: seq<Bubble>)
    requires view.Valid()
    modifies view, server
    ensures view.Valid()
    ensures var m := Trim(old(view.inputValue));
      if m == "" then
        view.inputValue == old(view.inputValue) && view.bubbles == old(view.bubbles) && server.posted == old(server.posted)
      else
        Conversed(old(view.bubbles), view, server, old(server.posted), m, waiting)
  {
    waiting := view.bubbles;
    var message := Trim(view.inputValue);
    if message == "" {
      return;
    }
    waiting := Converse(view, server, message);
  }

  /** The state after a non-blank `message` was submitted from `before`: the input is
      cleared; without the messages container nothing else happens (appending the typing
      bubble throws); with it the message is posted after the short persona, the typing bubble shows
      while waiting, and then the user bubble is followed by exactly one reply bubble. */
  ghost predicate Conversed(before: seq<Bubble>, view: View, server: Endpoint, posted: seq<seq<Turn>>, message: string, waiting: seq<Bubble>)
    reads view, server
  {
    && view.inputValue == ""
    && (!view.hasContainer ==> view.bubbles == before && server.posted == posted)
    && (view.hasContainer ==>
          && server.posted == posted + [RequestBody(message)]
          && waiting == before + [UserBubble(message), LoadingBubble]
          && view.bubbles == before + [UserBubble(message), BotBubble(TextContent(SendMessage(server.scripted)))])
  }

  /** The submit handler after its blank check. */
  method Converse(view: View, server: Endpoint, message: string) returns (ghost waiting: seq<Bubble>)
    requires view.Valid()
    modifies view, server
    ensures view.Valid()
    ensures Conversed(old(view.bubbles), view, server, old(server.posted), message, waiting)
  {
    waiting := view.bubbles;
    ghost var shown := view.bubbles + [UserBubble(message)];
    view.AddMessage(message, true);
    view.inputValue := "";
    if !view.hasContainer {
      return;
    }
    assert view.bubbles == shown;
    var loading := view.AppendLoading();
    waiting := view.bubbles;
    var outcome := server.Post(RequestBody(message));
    var response := SendMessage(outcome);
    RemoveLast(shown, LoadingBubble);
    view.RemoveAt(loading);
    assert view.bubbles == shown;
    view.AddMessage(TextContent(response), false);
  }

  /** An error status is not noticed: its JSON body has no `reply`, so the bubble is empty. */
  lemma ErrorStatusShowsEmptyBubble(status: int)
    ensures TextContent(SendMessage(Received(status, Json(None)))) == ""
  {
  }
}
