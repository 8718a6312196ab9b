/** The floating chat widget of public/widget.js: the duplicate-initialisation
    guard, the reply mapping of `sendMessage` and the form's submit handler. */
module Widget {
  import opened Js
  import opened Chat
  import opened Fetch
  import opened Bubbles

  /** The widget's persona, abbreviated: only its place in the request matters. */
  const Persona := "You are Canopy, a helpful AI assistant for www.gocanopy.com."
  const Trouble := "Sorry, I'm having trouble connecting right now. Please try again later."
  const NoProperResponse := "Sorry, I didn't get a proper response. Please try again."

  /** The `messages` every request carries: the persona, then the user's message. */
  function RequestBody(message: string): seq<Turn>
  {
    [SystemTurn(Persona), UserTurn(message)]
  }

  /** `sendMessage`: always a non-empty string, never a throw. */
  function SendMessage(o: FetchOutcome): (text: string)
    ensures text != ""
    ensures o.NetworkError? || !Ok(o.status) || o.body.NotJson? ==> text == Trouble
    ensures o.Received? && Ok(o.status) && o.body.Json? ==> text == OrElse(o.body.reply, NoProperResponse)
  {
    match o
    case NetworkError => Trouble
    case Received(status, body) =>
      if !Ok(status) then Trouble
      else match body
        case NotJson => Trouble
        case Json(reply) => OrElse(reply, NoProperResponse)
  }

  /** The form's submit handler: trims the input and ignores a blank one. */
  method OnSubmit(view: View, server: Endpoint) returns (ghost waiting: seq<Bubble>)
    requires view.Valid()
    modifies view, server
    ensures view.Valid()
    ensures var m := Trim(old(view.inputValue));
      if m == "" then
        view.inputValue == old(view.inputValue) && view.bubbles == old(view.bubbles) && server.posted == old(server.posted)
      else
        Conversed(old(view.bubbles), view, server, old(server.posted), m, waiting)
  {
    waiting := view.bubbles;
    var message := Trim(view.inputValue);
    if message == "" {
      return;
    }
    waiting := Converse(view, server, message);
  }

  /** The state after a non-blank `message` was submitted from `before`: the input is
      cleared; without the messages container nothing else happens (appending the typing
      bubble throws); with it the message is posted after the persona, the typing bubble shows
      while waiting, and then the user bubble is followed by exactly one reply bubble. */
  ghost predicate Conversed(before: seq<Bubble>, view: View, server: Endpoint, posted: seq<seq<Turn>>, message: string, waiting: seq<Bubble>)
    reads view, server
  {
    && view.inputValue == ""
    && (!view.hasContainer ==> view.bubbles == before && server.posted == posted)
    && (view.hasContainer ==>
          && server.posted == posted + [RequestBody(message)]
          && waiting == before + [UserBubble(message), LoadingBubble]
          && view.bubbles == before + [UserBubble(message), BotBubble(SendMessage(server.scripted))])
  }

  /** The submit handler after its blank check. */
  method Converse(view: View, server: Endpoint, message: string) returns (ghost waiting: seq<Bubble>)
    requires view.Valid()
    modifies view, server
    ensures view.Valid()
    ensures Conversed(old(view.bubbles), view, server, old(server.posted), message, waiting)
  {
    waiting := view.bubbles;
    ghost var shown := view.bubbles + [UserBubble(message)];
    view.AddMessage(message, true);
    view.inputValue := "";
    if !view.hasContainer {
      return;
    }
    assert view.bubbles == shown;
    var loading := view.AppendLoading();
    waiting := view.bubbles;
    var outcome := server.Post(RequestBody(message));
    var response := SendMessage(outcome);
    RemoveLast(shown, LoadingBubble);
    view.RemoveAt(loading);
    assert view.bubbles == shown;
    view.AddMessage(response, false);
  }

  // The duplicate-initialisation guard. The check for an element with id
  // `canopy-widget` runs when the script runs, but the element is only created
  // by `init`, which always runs later (on DOMContentLoaded or after a timer).

  /** How many widgets the page holds, and how many scheduled `init`s have not run yet. */
  datatype Page = Page(widgets: nat, pendingInits: nat)

  /** The script runs, or one scheduled `init` runs. */
  datatype Event = ScriptRuns | InitRuns

  /** The guard as written: checked when the script runs. */
  function Step(p: Page, e: Event): Page
  {
    match e
    case ScriptRuns => if p.widgets > 0 then p else p.(pendingInits := p.pendingInits + 1)
    case InitRuns => if p.pendingInits == 0 then p else Page(p.widgets + 1, p.pendingInits - 1)
  }

  function Run(p: Page, es: seq<Event>): Page
    decreases |es|
  {
    if es == [] then p else Run(Step(p, es[0]), es[1..])
  }

  /** On a page that already has the widget, running the script again changes nothing. */
  lemma GuardSkipsExistingWidget(p: Page)
    requires p.widgets > 0
    ensures Step(p, ScriptRuns) == p
  {
  }

  /** Two copies of the script in one page run before either `init` does: both pass
      the guard and the page ends up with two widgets. */
  lemma DoubleIncludeMakesTwoWidgets()
    ensures Run(Page(0, 0), [ScriptRuns, ScriptRuns, InitRuns, InitRuns]).widgets == 2
  {
  }

  /** The guard as intended: `init` looks for the element again before creating one. */
  function StepChecked(p: Page, e: Event): Page
  {
    match e
    case ScriptRuns => if p.widgets > 0 then p else p.(pendingInits := p.pendingInits + 1)
    case InitRuns =>
      if p.pendingInits == 0 then p
      else if p.widgets > 0 then p.(pendingInits := p.pendingInits - 1)
      else Page(1, p.pendingInits - 1)
  }

  function RunChecked(p: Page, es: seq<Event>): Page
    decreases |es|
  {
    if es == [] then p else RunChecked(StepChecked(p, es[0]), es[1..])
  }

  /** With the check in `init`, no order of script runs and `init`s makes a second widget. */
  lemma {:induction false} CheckedAtMostOneWidget(p: Page, es: seq<Event>)
    requires p.widgets <= 1
    ensures RunChecked(p, es).widgets <= 1
    decreases |es|
  {
    if es != [] {
      CheckedAtMostOneWidget(StepChecked(p, es[0]), es[1..]);
    }
  }
}
