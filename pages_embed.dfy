/** The embeddable chat page of pages/embed.js: its `messages`, `input` and `loading`
    state and the `sendMessage` handler. */
module PagesEmbed {
  import opened Js
  import opened Chat
  import opened Fetch
  import opened ChatPage

  class Embed {
    var messages: seq<Turn>
    var input: string
    var loading: bool

    /** The persona turn leads the transcript, and the input is empty whenever it is disabled. */
    ghost predicate Valid()
      reads this
    {
      WellFormed(messages) && (loading ==> input == "")
    }

    constructor ()
      ensures Valid()
      ensures messages == Initial() && input == "" && !loading
    {
      messages, input, loading := Initial(), "", false;
    }

    /** Typing into the input; a disabled input takes no typing. */
    method Type(value: string)
      requires Valid()
      modifies this
      ensures Valid()
      ensures input == if InputDisabled(loading) then old(input) else value
      ensures messages == old(messages) && loading == old(loading)
    {
      if !loading {
        input := value;
      }
    }

    /** `sendMessage`, posting through `server`. `waiting` is the state while the request
        is outstanding. A rejected `fetch` or `res.json()` is not caught: the page is left
        in that state. */
    method SendMessage(server: Endpoint) returns (ghost waiting: Snapshot)
      requires Valid()
      modifies this, server
      ensures Valid()
      ensures server.posted != old(server.posted) <==> !SendDisabled(old(input), old(loading))
      ensures Trim(old(input)) == "" ==>
        messages == old(messages) && input == old(input) && loading == old(loading) && server.posted == old(server.posted)
      ensures Trim(old(input)) != "" ==>
        var sent := old(messages) + [UserTurn(old(input))];
        && waiting == Snapshot(sent, "", true)
        && WellFormed(sent)
        && server.posted == old(server.posted) + [sent]
        && input == ""
        && match ReplyOf(server.scripted)
           case Some(reply) => messages == sent + [AssistantTurn(reply)] && !loading
           case None => messages == sent && loading
    {
      waiting := Snapshot(messages, input, loading);
      SendEnabledIffPosts(input, loading);
      if Trim(input) == "" {
        return;
      }
      var newMessages := messages + [UserTurn(input)];
      DisplayedAppend(messages, [UserTurn(input)]);
      messages := newMessages;
      input := "";
      loading := true;
      waiting := Snapshot(messages, input, loading);
      var response := server.Post(newMessages);
      var data := ReplyOf(response);
      if data.None? {
        return;
      }
      DisplayedAppend(newMessages, [AssistantTurn(data.value)]);
      messages := newMessages + [AssistantTurn(data.value)];
      loading := false;
    }
  }
}
