/**
 * The transcript kept in `st.session_state.messages`, as values: what
 * `init_session`, the clear-chat button, the history display and one user
 * turn make of it, and what a run of turns makes of it.
 */
module Transcript {
  import opened Wrappers
  import opened Truthiness
  import opened Messages

  /** The first message is the system seed. */
  predicate Seeded(ms: seq<Message>) {
    |ms| >= 1 && ms[0] == Seed()
  }

  /** `init_session`: seed the transcript only when the session has none yet. */
  function Init(state: Option<seq<Message>>): (ms: seq<Message>)
    ensures state.None? ==> |ms| == 1 && Seeded(ms)
    ensures state.Some? ==> ms == state.value
  {
    if state.None? then [Seed()] else state.value
  }

  lemma InitIdempotent(state: Option<seq<Message>>)
    ensures Init(Some(Init(state))) == Init(state)
  {
  }

  /** Clear chat, `messages[:1]`: keep the first message only. */
  function Cleared(ms: seq<Message>): (r: seq<Message>)
    ensures |r| <= 1 && |r| <= |ms| && r == ms[..|r|]
    ensures |ms| > 0 ==> r == [ms[0]]
    ensures Seeded(ms) ==> r == [Seed()]
  {
    ms[..if |ms| < 1 then |ms| else 1]
  }

  /** The displayed history, `messages[1:]`: everything after the first message. */
  function History(ms: seq<Message>): (h: seq<Message>)
    ensures |ms| > 0 ==> ms == [ms[0]] + h
    ensures |ms| == 0 ==> h == []
  {
    if |ms| == 0 then [] else ms[1..]
  }

  /**
   * One user turn: a falsy input changes nothing; otherwise the user message
   * is appended, the completion is called on the transcript that now ends
   * with it, and the assistant message is appended only if the call succeeded.
   */
  function TakeTurn<E>(ms: seq<Message>, input: Option<string>,
                       call: seq<Message> -> Result<string, E>): (r: seq<Message>)
    ensures |r| >= |ms| && r[..|ms|] == ms
    ensures r == ms <==> !Truthy(input)
    ensures Truthy(input) ==> r[|ms|] == Message(User, input.value)
    ensures Truthy(input) ==>
              (|r| == |ms| + 2 <==> call(ms + [Message(User, input.value)]).Success?)
    ensures Truthy(input) && |r| == |ms| + 2 ==>
              r[|ms| + 1] == Message(Assistant, call(ms + [Message(User, input.value)]).value)
    ensures Truthy(input) && call(ms + [Message(User, input.value)]).Failure? ==>
              r == ms + [Message(User, input.value)]
    ensures Seeded(ms) ==> Seeded(r)
  {
    if !Truthy(input) then ms
    else
      var sent := ms + [Message(User, input.value)];
      match call(sent)
      case Success(reply) => sent + [Message(Assistant, reply)]
      case Failure(_) => sent
  }

  /** Successive reruns of the script, one input each. */
  function Replay<E>(ms: seq<Message>, inputs: seq<Option<string>>,
                     call: seq<Message> -> Result<string, E>): seq<Message>
    decreases |inputs|
  {
    if inputs == [] then ms else Replay(TakeTurn(ms, inputs[0], call), inputs[1..], call)
  }

  /** The texts of the user messages, in transcript order. */
  function UserTexts(ms: seq<Message>): seq<string> {
    if ms == [] then []
    else (if ms[0].role == User then [ms[0].content] else []) + UserTexts(ms[1..])
  }

  /** The truthy inputs, in order. */
  function TruthyInputs(inputs: seq<Option<string>>): seq<string> {
    if inputs == [] then []
    else (if Truthy(inputs[0]) then [inputs[0].value] else []) + TruthyInputs(inputs[1..])
  }

  lemma {:induction false} UserTextsConcat(a: seq<Message>, b: seq<Message>)
    ensures UserTexts(a + b) == UserTexts(a) + UserTexts(b)
  {
    if a != [] {
      assert (a + b)[1..] == a[1..] + b;
      UserTextsConcat(a[1..], b);
    } else {
      assert a + b == b;
    }
  }

  /** One turn adds the input, and nothing else, to the user texts. */
  lemma TakeTurnUserTexts<E>(ms: seq<Message>, input: Option<string>,
                             call: seq<Message> -> Result<string, E>)
    ensures UserTexts(TakeTurn(ms, input, call)) ==
            UserTexts(ms) + (if Truthy(input) then [input.value] else [])
  {
    if Truthy(input) {
      var user := Message(User, input.value);
      var sent := ms + [user];
      UserTextsConcat(ms, [user]);
      assert UserTexts([user]) == [input.value];
      match call(sent)
      case Success(reply) =>
        UserTextsConcat(sent, [Message(Assistant, reply)]);
        assert UserTexts([Message(Assistant, reply)]) == [];
      case Failure(_) =>
    }
  }

  /**
   * After any run of turns the old transcript is still a prefix, the seed is
   * still first, and the user messages are exactly the old ones followed by
   * every truthy input in the order it was given.
   */
  lemma {:induction false} ReplayAppendsInOrder<E>(ms: seq<Message>, inputs: seq<Option<string>>,
                                                  call: seq<Message> -> Result<string, E>)
    ensures |Replay(ms, inputs, call)| >= |ms| && Replay(ms, inputs, call)[..|ms|] == ms
    ensures Seeded(ms) ==> Seeded(Replay(ms, inputs, call))
    ensures UserTexts(Replay(ms, inputs, call)) == UserTexts(ms) + TruthyInputs(inputs)
    decreases |inputs|
  {
    if inputs != [] {
      var next := TakeTurn(ms, inputs[0], call);
      ReplayAppendsInOrder(next, inputs[1..], call);
      TakeTurnUserTexts(ms, inputs[0], call);
      var r := Replay(next, inputs[1..], call);
      assert r[..|ms|] == r[..|next|][..|ms|];
    }
  }
}
