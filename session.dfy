/**
 * The session state the script reads and updates on every rerun:
 * `st.session_state.messages`, absent until `init_session` creates it.
 */
module Session {
  import opened Wrappers
  import opened Truthiness
  import opened Messages
  import opened Completion
  import opened Credentials
  import opened Transcript

  /** A chat bubble: `st.chat_message(role).markdown(content)`. */
  datatype Bubble = Bubble(author: string, markdown: string)

  function BubbleOf(m: Message): Bubble {
    Bubble(RoleName(m.role), m.content)
  }

  /** How a turn ended: no input, a reply shown, or an error shown and the run stopped. */
  datatype TurnOutcome = NoInput | Answered(reply: string) | Stopped(error: Error)

  /** The completion call the turn handler makes, with the sidebar's settings. */
  function Call(key: string, model: string, temperature: real, exchange: Request -> Exchange):
    seq<Message> -> Result<string, Error>
  {
    ms => SendChatCompletion(key, ms, model, temperature, exchange)
  }

  class SessionState {
    /** `st.session_state.messages`; None while the key is not in the session state. */
    var messages: Option<seq<Message>>

    /** A new session: nothing in the session state yet. */
    constructor ()
      ensures messages == None
    {
      messages := None;
    }

    /** The transcript exists and starts with the seed. */
    ghost predicate Valid()
      reads this
    {
      messages.Some? && Seeded(messages.value)
    }

    method InitSession()
      modifies this
      ensures messages == Some(Init(old(messages)))
      ensures old(messages).None? ==> Valid() && messages.value == [Seed()]
      ensures old(messages).Some? ==> messages == old(messages)
    {
      if messages.None? {
        messages := Some([Seed()]);
      }
    }

    /** The "Clear chat" button. */
    method ClearChat()
      requires messages.Some?
      modifies this
      ensures messages == Some(Cleared(old(messages).value))
      ensures old(Valid()) ==> Valid() && messages.value == [Seed()]
    {
      messages := Some(Cleared(messages.value));
    }

    /** The display loop: one bubble per message after the first, in order. */
    method ShowHistory() returns (bubbles: seq<Bubble>)
      requires messages.Some?
      ensures |messages.value| == 0 ==> bubbles == []
      ensures |messages.value| > 0 ==> |bubbles| == |messages.value| - 1
      ensures forall i :: 0 <= i < |bubbles| ==> bubbles[i] == BubbleOf(messages.value[i + 1])
    {
      var shown := History(messages.value);
      bubbles := [];
      for i := 0 to |shown|
        invariant |bubbles| == i
        invariant forall k :: 0 <= k < i ==> bubbles[k] == BubbleOf(shown[k])
      {
        bubbles := bubbles + [BubbleOf(shown[i])];
      }
    }

    /**
     * The chat-input block: append the user message, call the completion on
     * the transcript that now ends with it, and append the assistant reply
     * only when the call returned one.
     */
    method HandleInput(input: Option<string>, key: string, model: string, temperature: real,
                       exchange: Request -> Exchange) returns (outcome: TurnOutcome)
      requires messages.Some?
      modifies this
      ensures messages == Some(TakeTurn(old(messages).value, input, Call(key, model, temperature, exchange)))
      ensures outcome == NoInput <==> !Truthy(input)
      ensures Truthy(input) ==>
                var sent := old(messages).value + [Message(User, input.value)];
                match SendChatCompletion(key, sent, model, temperature, exchange)
                case Success(reply) =>
                  outcome == Answered(reply) && messages.value == sent + [Message(Assistant, reply)]
                case Failure(e) =>
                  outcome == Stopped(e) && messages.value == sent
      ensures old(Valid()) ==> Valid()
    {
      if !Truthy(input) {
        outcome := NoInput;
        return;
      }
      messages := Some(messages.value + [Message(User, input.value)]);
      var sent := messages.value;
      var result := SendChatCompletion(key, sent, model, temperature, exchange);
      if result.Failure? {
        outcome := Stopped(result.error);
        return;
      }
      messages := Some(sent + [Message(Assistant, result.value)]);
      outcome := Answered(result.value);
    }

    /**
     * One run of the script: resolve the key, `init_session`, the clear
     * button, the history display, then the chat-input block.
     */
    method Rerun(secret: Option<string>, env: Option<string>, clearPressed: bool,
                 model: string, temperature: real, input: Option<string>,
                 exchange: Request -> Exchange) returns (shown: seq<Bubble>, outcome: TurnOutcome)
      modifies this
      ensures var start := Init(old(messages));
              var kept := if clearPressed then Cleared(start) else start;
              && |shown| == |History(kept)|
              && (forall i :: 0 <= i < |shown| ==> shown[i] == BubbleOf(History(kept)[i]))
              && messages == Some(TakeTurn(kept, input,
                                           Call(ResolveApiKey(secret, env), model, temperature, exchange)))
              && (outcome == NoInput <==> !Truthy(input))
              && (Truthy(input) ==>
                    var sent := kept + [Message(User, input.value)];
                    match SendChatCompletion(ResolveApiKey(secret, env), sent, model, temperature, exchange)
                    case Success(reply) => outcome == Answered(reply)
                    case Failure(e) => outcome == Stopped(e))
      ensures old(messages).None? || old(Valid()) ==> Valid()
    {
      var key := ResolveApiKey(secret, env);
      InitSession();
      if clearPressed {
        ClearChat();
      }
      shown := ShowHistory();
      outcome := HandleInput(input, key, model, temperature, exchange);
    }
  }
}
