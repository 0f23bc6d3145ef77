# OpenRouter chatbot: transcript and completion call

A model of the logic in `app.py` of a small Streamlit chat front end for
OpenRouter. The app keeps a chat transcript in the session state, sends the
whole transcript to OpenRouter's chat-completions endpoint on every user turn,
and appends the reply. The rest of the file is UI code.

The model has these modules, one per file:

- `Wrappers` (`wrappers.dfy`): `Option` and `Result`.
- `Truthiness` (`truthiness.dfy`): Python truthiness of an optional string and the binary `or`.
- `Credentials` (`credentials.dfy`): how `OPENROUTER_API_KEY` is resolved.
- `Messages` (`messages.dfy`): `Role`, `Message`, the seed system prompt, and role names.
- `Json` (`json.dfy`): JSON values, and Python's `v[k]` on a decoded value.
- `Completion` (`completion.dfy`): `send_chat_completion`. It covers the key check, the headers, the payload, and extracting `choices[0].message.content`. The HTTP exchange is a function parameter of type `Request -> Exchange`.
- `Transcript` (`transcript.dfy`): the transcript operations as pure functions. These are init, clear, the displayed slice and one user turn. Lemmas cover a run of several turns.
- `Session` (`session.dfy`): class `SessionState`. Its field `messages: Option<seq<Message>>` is `st.session_state.messages`, with `None` meaning the key is absent. `InitSession`, `ClearChat` and `HandleInput` assign the field, as the script does; `ShowHistory` only reads it. `Rerun` chains them in script order.

Three behaviours of the code worth noting:

- Key precedence uses Python truthiness. An empty platform secret falls through to the environment variable, not only a missing one.
- The code does not check the temperature range. The slider limits it, so the model passes temperature through unchecked.
- The code does not tell HTTP-status errors apart from transport errors. The caller sees both as a generic exception.

## Model

| member | source | states |
|---|---|---|
| Truthiness.Or | app.py:19-23 | Python `x or y`: `x` when `x` is truthy, otherwise `y`; the result is truthy exactly when either operand is |
| Credentials.ResolveApiKey | app.py:19-23 | The platform secret wins when it is truthy. Otherwise a truthy environment value is used. The key is `""` exactly when neither is truthy |
| Messages.Seed | app.py:59-61 | The seed message has role `system` and content "You are a helpful assistant." |
| Json.Subscript | app.py:53 | Python subscription on decoded JSON. It succeeds exactly for a present dict key, a list position in range, or a string position in range, and returns that element. A dict with a missing key raises KeyError |
| Completion.EncodeMessages | app.py:45-49 | The transcript goes on the wire as a list of the same length, with one `{role, content}` dict per message, in order |
| Completion.DecodeEncodeMessages | app.py:45-49 | Decoding the wire form of the transcript gives back exactly the transcript: nothing lost, added or reordered |
| Completion.Headers | app.py:37-44 | The headers are exactly Authorization, Content-Type, HTTP-Referer and X-Title. Authorization is a bearer header whose credential is the key. Content-Type is `application/json` |
| Completion.Payload | app.py:45-49 | The payload has exactly the keys `model`, `messages` and `temperature`. `model` and `temperature` are passed through. `messages` decodes back to the input transcript under a decoder that accepts only dicts with exactly the keys `role` and `content`, so each wire message is exactly the encoding of the corresponding transcript message |
| Completion.ExtractReply | app.py:53 | A non-object body is a TypeError. A missing `choices` is a KeyError. An empty `choices` list is an IndexError |
| Completion.ExtractReplyIsReplyAt | app.py:53 | The reply is `s` exactly when the body holds the string `s` at `choices[0].message.content` |
| Completion.ResponseBody | app.py:53 | From any body shaped `{"choices": [{"message": {"content": c}}, ...]}`, the reply extracted is `c` |
| Completion.SendChatCompletion | app.py:28-53 | An empty key fails with the configuration error whatever the network would do. A failed exchange is a request failure. With a non-empty key and a delivered body, the result is the reply extracted from that body. A success means the key was non-empty and the exchange delivered a body holding the reply at `choices[0].message.content` |
| Transcript.Init | app.py:56-61 | Without a transcript, the result is exactly one message, the seed. An existing transcript is kept as it is |
| Transcript.InitIdempotent | app.py:57 | Running `init_session` a second time changes nothing |
| Transcript.Cleared | app.py:94-95 | Clear chat keeps a prefix of length at most one. A non-empty transcript becomes its first message. A seeded transcript becomes exactly `[seed]` |
| Transcript.History | app.py:98 | The displayed history is everything after the first message, and nothing for an empty transcript |
| Transcript.TakeTurn | app.py:103-119 | The old transcript is kept as a prefix. A falsy input changes nothing, and a truthy one changes it. A truthy input appends the user message. An assistant message holding the reply follows exactly when the call on the transcript ending in that user message succeeded. When the call fails the result is exactly the old transcript plus the user message. The seed stays first |
| Transcript.TakeTurnUserTexts | app.py:103-105 | One turn adds exactly the truthy input to the user messages |
| Transcript.ReplayAppendsInOrder | app.py:103-119 | After any run of turns, the old transcript is a prefix and the seed stays first. The user messages are the old ones followed by every truthy input, in the order given |
| Session.SessionState.InitSession | app.py:56-61 | A new session gets `[seed]`. An existing transcript is left untouched |
| Session.SessionState.ClearChat | app.py:94-95 | The transcript becomes `messages[:1]`, which is `[seed]` when the transcript was seeded |
| Session.SessionState.ShowHistory | app.py:97-99 | One bubble per message after the first, with that message's role name and content, in transcript order |
| Session.SessionState.HandleInput | app.py:101-119 | A falsy input means no change and no call. Otherwise the user message is appended and the completion is called on the transcript ending with it. On success the assistant reply is appended. On failure the transcript keeps the user turn and gains nothing else, and the error is reported. The seed stays first |
| Session.SessionState.Rerun | app.py:19-120 | One script run resolves the key, initialises, clears when the button was pressed, shows the history before the turn, then handles the input. The outcome is no input exactly for a falsy input; otherwise it is the reply, or the error after which the run stops |

## Left out

- The HTTP exchange: `requests.post`, its 60-second timeout, `raise_for_status` and `res.json()` are third-party library code. They are one function parameter, `exchange: Request -> Exchange`. Any failure of theirs is `Failed(detail)`.
- ExtractReply: when `choices[0].message.content` is not a JSON string, the source returns that value unchanged and appends it. The model reports `ContentNotText` instead, because transcript content is text here.
- JSON object key order: objects are maps, so the insertion order of the payload and header dicts is not modelled.
- Streamlit rendering: page config, title, banner, sidebar widgets, spinner and the `st.error` text are left out. So are the bubbles drawn for the new user and assistant messages (app.py:106, app.py:120). `st.stop` is "the turn ends here".
- The default arguments of `send_chat_completion` (`model="mistralai/mistral-7b-instruct"`, `temperature=0.7`): its only call passes both, so `SendChatCompletion` takes them as plain parameters.
- The fixed model list and the temperature slider: the model name is a string parameter, and the temperature is an uninterpreted `real`.
- The wording of the missing-key RuntimeError and of the exception text: errors are the constructors of `Completion.Error`.
- Values in the secrets store that are not strings: the secret and the environment value are optional strings.
- Isolation between sessions: Streamlit provides it, and the code does nothing for it.
