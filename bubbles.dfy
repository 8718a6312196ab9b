/** The DOM a script widget's submit handler works on: the messages container,
    as a list of bubbles, and the text input's value. */
module Bubbles {
  import opened Js

  datatype Bubble = UserBubble(text: string) | BotBubble(text: string) | LoadingBubble

  /** `bubble.textContent = v` for a string or `undefined`: undefined shows as empty text. */
  function TextContent(v: Option<string>): string
  {
    if v.Some? then v.value else ""
  }

  /** Removing the bubble just appended gives back the bubbles before it. */
  lemma RemoveLast(s: seq<Bubble>, b: Bubble)
    ensures (s + [b])[..|s|] + (s + [b])[|s| + 1..] == s
  {
    assert (s + [b])[..|s|] == s;
  }

  class View {
    /** Whether the page has the messages container element. */
    const hasContainer: bool
    var bubbles: seq<Bubble>
    var inputValue: string

    /** Only a page with the container can hold bubbles. */
    ghost predicate Valid()
      reads this
    {
      !hasContainer ==> bubbles == []
    }

    constructor (hasContainer: bool)
      ensures Valid() && this.hasContainer == hasContainer && bubbles == [] && inputValue == ""
    {
      this.hasContainer := hasContainer;
      bubbles, inputValue := [], "";
    }

    method Type(value: string)
      modifies this
      ensures inputValue == value && bubbles == old(bubbles)
    {
      inputValue := value;
    }

    /** `addMessage(content, isUser)`: does nothing when the container is missing. */
    method AddMessage(content: string, isUser: bool)
      modifies this
      ensures bubbles == if hasContainer then old(bubbles) + [if isUser then UserBubble(content) else BotBubble(content)]
                         else old(bubbles)
      ensures inputValue == old(inputValue)
    {
      if hasContainer {
        bubbles := bubbles + [if isUser then UserBubble(content) else BotBubble(content)];
      }
    }

    /** `getElementById(..).appendChild(loadingDiv)`: only callable with the container
        present (without it the call throws); returns where the bubble went. */
    method AppendLoading() returns (index: nat)
      requires hasContainer
      modifies this
      ensures bubbles == old(bubbles) + [LoadingBubble] && index == |old(bubbles)|
      ensures inputValue == old(inputValue)
    {
      index := |bubbles|;
      bubbles := bubbles + [LoadingBubble];
    }

    /** `loadingDiv.remove()`. */
    method RemoveAt(index: nat)
      requires index < |bubbles|
      modifies this
      ensures bubbles == old(bubbles)[..index] + old(bubbles)[index + 1..]
      ensures inputValue == old(inputValue)
    {
      bubbles := bubbles[..index] + bubbles[index + 1..];
    }
  }
}
