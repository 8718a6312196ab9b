/** What pages/index.js and pages/embed.js share: the initial transcript, how a
    reply is read out of the `/api/chat` response, the display filter and the
    `disabled` predicates. Each page's state machine is in its own module. */
module ChatPage {
  import opened Js
  import opened Chat
  import opened Fetch

  /** The page's own persona turn. */
  const Persona := "You are Canopy, a helpful assistant for www.gocanopy.com. Answer in a friendly, professional tone that matches Canopy's brand."

  /** The transcript a page starts with: its persona turn alone. */
  function Initial(): (ms: seq<Turn>)
    ensures |ms| == 1 && IsSystem(ms[0])
    ensures WellFormed(ms) && Displayed(ms) == []
  {
    [SystemTurn(Persona)]
  }

  /** A page's state: its `messages`, `input` and `loading`. */
  datatype Snapshot = Snapshot(messages: seq<Turn>, input: string, loading: bool)

  /** The transcript starts with the persona turn and has no other system turn. */
  ghost predicate WellFormed(ms: seq<Turn>)
  {
    && |ms| >= 1
    && ms[0] == SystemTurn(Persona)
    && forall i :: 1 <= i < |ms| ==> !IsSystem(ms[i])
  }

  /** `data.reply` once both `await`s succeed; `None` when `fetch` or `res.json()` rejects. */
  function ReplyOf(o: FetchOutcome): (r: Option<Option<string>>)
    ensures r.None? <==> o.NetworkError? || o.body.NotJson?
    ensures r.Some? ==> r.value == o.body.reply
  {
    match o
    case NetworkError => None
    case Received(_, NotJson) => None
    case Received(_, Json(reply)) => Some(reply)
  }

  /** `messages.filter(m => m.role !== 'system')`: the turns shown on the page. */
  function Displayed(ms: seq<Turn>): seq<Turn>
  {
    WithoutSystem(ms)
  }

  /** On a well-formed transcript the page shows every turn but the first. */
  lemma DisplayedIsTail(ms: seq<Turn>)
    requires WellFormed(ms)
    ensures Displayed(ms) == ms[1..]
  {
    assert ms == [ms[0]] + ms[1..];
    WithoutSystemOfNonSystem(ms[1..]);
  }

  /** The text input's `disabled`. */
  predicate InputDisabled(loading: bool)
  {
    loading
  }

  /** The send button's `disabled`: `loading || !input.trim()`. */
  predicate SendDisabled(input: string, loading: bool)
  {
    loading || Trim(input) == ""
  }

  /** On a page whose input is empty while loading, the send button is enabled exactly
      when `sendMessage` gets past its blank check. */
  lemma SendEnabledIffPosts(input: string, loading: bool)
    requires loading ==> input == ""
    ensures !SendDisabled(input, loading) <==> Trim(input) != ""
  {
    if loading {
      assert IsBlank(input);
    }
  }

  /** A submission's turns are shown after everything shown before, in the order sent. */
  lemma DisplayedAppend(ms: seq<Turn>, extra: seq<Turn>)
    requires WellFormed(ms)
    requires forall i :: 0 <= i < |extra| ==> !IsSystem(extra[i])
    ensures WellFormed(ms + extra)
    ensures Displayed(ms + extra) == Displayed(ms) + extra
  {
    WithoutSystemAppend(ms, extra);
    WithoutSystemOfNonSystem(extra);
  }
}
