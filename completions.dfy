/** The completion provider behind the relays (`openai.chat.completions.create`),
    replaced by a scripted stand-in that records every request it receives. */
module Completions {
  import opened Js
  import opened Chat
  import opened Http

  /** What one provider call does: it resolves, and `choices[0]?.message?.content`
      is `content` (`None` when there is no first choice or it has no content),
      or it throws an error whose `message` is given. */
  datatype Completion = Completed(content: Option<string>) | Failed(message: string)

  /** The arguments of one provider call. */
  datatype ProviderCall = ProviderCall(model: string, messages: Field, maxTokens: nat, temperature: real)

  /** What a handler did with one request: the response it sent and the provider
      call it made, if any. No handler calls the provider more than once. */
  datatype Exchange = Exchange(response: Response, call: Option<ProviderCall>)

  /** The number of provider calls an exchange made. */
  function CallCount(x: Exchange): nat
  {
    if x.call.Some? then 1 else 0
  }

  /** The calls of an exchange, as they appear in the provider's log. */
  function Calls(x: Exchange): seq<ProviderCall>
  {
    if x.call.Some? then [x.call.value] else []
  }

  /** A provider that answers every call with `scripted` and logs the calls. */
  class Provider {
    const scripted: Completion
    var log: seq<ProviderCall>

    constructor (scripted: Completion)
      ensures this.scripted == scripted && log == []
    {
      this.scripted := scripted;
      log := [];
    }

    method Create(call: ProviderCall) returns (c: Completion)
      modifies this
      ensures log == old(log) + [call] && c == scripted
    {
      log := log + [call];
      c := scripted;
    }
  }
}
