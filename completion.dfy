/**
 * `send_chat_completion`: the key check, the request it builds for the
 * OpenRouter chat-completions endpoint, and the reply it takes out of the
 * decoded response. The HTTP exchange itself is a parameter: a function from
 * the request to what came back.
 */
module Completion {
  import opened Wrappers
  import opened Messages
  import opened Json

  const Endpoint: string := "https://openrouter.ai/api/v1/chat/completions"
  const Referer: string := "https://your-portfolio-site.example"
  const AppTitle: string := "StreamlitChatDemo"

  datatype Request = Request(url: string, headers: map<string, string>, payload: Json)

  /**
   * What the exchange produced: a decoded body, or a failure of the POST,
   * of `raise_for_status` or of decoding the body as JSON.
   */
  datatype Exchange = Delivered(body: Json) | Failed(detail: string)

  datatype Error =
    | MissingApiKey                       // the RuntimeError raised before any request
    | RequestFailed(detail: string)       // the exchange did not deliver a body
    | MalformedReply(cause: SubscriptError) // `["choices"][0]["message"]["content"]` raised
    | ContentNotText                      // the content found is not a JSON string

  // ---------------------------------------------------------------------------
  // Messages on the wire
  // ---------------------------------------------------------------------------

  /** A message as the `{"role": ..., "content": ...}` dict it is kept as. */
  function EncodeMessage(m: Message): Json {
    JObject(map["role" := JString(RoleName(m.role)), "content" := JString(m.content)])
  }

  /**
   * The receiving side's reading of one message dict: exactly the keys
   * `role` and `content`, both strings, the role one of the three names.
   */
  function DecodeMessage(j: Json): (r: Option<Message>)
    ensures r.Some? ==> j == EncodeMessage(r.value)
  {
    if j.JObject? && j.fields.Keys == {"role", "content"}
       && j.fields["role"].JString? && j.fields["content"].JString?
    then
      match ParseRole(j.fields["role"].s)
      case Some(role) =>
        var m := Message(role, j.fields["content"].s);
        assert j.fields == EncodeMessage(m).fields;
        Some(m)
      case None => None
    else None
  }

  lemma DecodeEncodeMessage(m: Message)
    ensures DecodeMessage(EncodeMessage(m)) == Some(m)
  {
    ParseRoleName(m.role);
  }

  /** The transcript as a JSON list, element by element and in order. */
  function EncodeMessages(ms: seq<Message>): (items: seq<Json>)
    ensures |items| == |ms|
    ensures forall i :: 0 <= i < |ms| ==> items[i] == EncodeMessage(ms[i])
  {
    if ms == [] then [] else [EncodeMessage(ms[0])] + EncodeMessages(ms[1..])
  }

  function DecodeMessages(items: seq<Json>): Option<seq<Message>> {
    if items == [] then Some([])
    else
      match DecodeMessage(items[0])
      case None => None
      case Some(m) =>
        match DecodeMessages(items[1..])
        case None => None
        case Some(rest) => Some([m] + rest)
  }

  /** Nothing is lost, added or reordered when the transcript goes on the wire. */
  lemma {:induction false} DecodeEncodeMessages(ms: seq<Message>)
    ensures DecodeMessages(EncodeMessages(ms)) == Some(ms)
  {
    if ms != [] {
      var items := EncodeMessages(ms);
      assert items[1..] == EncodeMessages(ms[1..]);
      DecodeEncodeMessage(ms[0]);
      DecodeEncodeMessages(ms[1..]);
      assert [ms[0]] + ms[1..] == ms;
    }
  }

  // ---------------------------------------------------------------------------
  // The request
  // ---------------------------------------------------------------------------

  /** The credential in an `Authorization` header value, if it is a bearer one. */
  function BearerCredential(value: string): (key: Option<string>)
    ensures key.Some? ==> value == "Bearer " + key.value
  {
    if |value| >= 7 && value[..7] == "Bearer " then Some(value[7..]) else None
  }

  function Headers(key: string): (h: map<string, string>)
    ensures h.Keys == {"Authorization", "Content-Type", "HTTP-Referer", "X-Title"}
    ensures BearerCredential(h["Authorization"]) == Some(key)
    ensures h["Content-Type"] == "application/json"
  {
    var auth := "Bearer " + key;
    assert auth[..7] == "Bearer " && auth[7..] == key;
    map[
      "Authorization" := auth,
      "Content-Type" := "application/json",
      "HTTP-Referer" := Referer,
      "X-Title" := AppTitle
    ]
  }

  function Payload(messages: seq<Message>, model: string, temperature: real): (p: Json)
    ensures p.JObject? && p.fields.Keys == {"model", "messages", "temperature"}
    ensures p.fields["model"] == JString(model)
    ensures p.fields["temperature"] == JNumber(temperature)
    ensures p.fields["messages"].JArray?
    ensures DecodeMessages(p.fields["messages"].items) == Some(messages)
  {
    DecodeEncodeMessages(messages);
    JObject(map[
      "model" := JString(model),
      "messages" := JArray(EncodeMessages(messages)),
      "temperature" := JNumber(temperature)
    ])
  }

  function BuildRequest(key: string, messages: seq<Message>, model: string, temperature: real): Request {
    Request(Endpoint, Headers(key), Payload(messages, model, temperature))
  }

  // ---------------------------------------------------------------------------
  // The reply
  // ---------------------------------------------------------------------------

  /** One step of `res.json()["choices"][0]["message"]["content"]`. */
  function Step(v: Json, k: Key): Result<Json, Error> {
    match Subscript(v, k)
    case Success(x) => Success(x)
    case Failure(e) => Failure(MalformedReply(e))
  }

  /** `body` holds the text `s` at `choices[0].message.content`. */
  ghost predicate ReplyAt(body: Json, s: string) {
    && body.JObject? && "choices" in body.fields
    && var choices := body.fields["choices"];
    && choices.JArray? && |choices.items| > 0
    && var first := choices.items[0];
    && first.JObject? && "message" in first.fields
    && var message := first.fields["message"];
    && message.JObject? && "content" in message.fields
    && message.fields["content"] == JString(s)
  }

  function ExtractReply(body: Json): (r: Result<string, Error>)
    ensures !body.JObject? ==> r == Failure(MalformedReply(TypeError))
    ensures body.JObject? && "choices" !in body.fields ==>
              r == Failure(MalformedReply(KeyError(Name("choices"))))
    ensures body.JObject? && "choices" in body.fields && body.fields["choices"] == JArray([]) ==>
              r == Failure(MalformedReply(IndexError))
  {
    var choices :- Step(body, Name("choices"));
    var first :- Step(choices, Index(0));
    var message :- Step(first, Name("message"));
    var content :- Step(message, Name("content"));
    if content.JString? then Success(content.s) else Failure(ContentNotText)
  }

  /** The reply is exactly the text at `choices[0].message.content`, and nothing else is. */
  lemma ExtractReplyIsReplyAt(body: Json, s: string)
    ensures ExtractReply(body) == Success(s) <==> ReplyAt(body, s)
  {
  }

  /** A response body of the expected shape: `{"choices": [{"message": {"content": c}}, ...]}`. */
  function ResponseBody(content: string, more: seq<Json>): (body: Json)
    ensures ExtractReply(body) == Success(content)
  {
    JObject(map["choices" := JArray([JObject(map["message" := JObject(map["content" := JString(content)])])] + more)])
  }

  // ---------------------------------------------------------------------------
  // The call
  // ---------------------------------------------------------------------------

  function SendChatCompletion(key: string, messages: seq<Message>, model: string, temperature: real,
                              exchange: Request -> Exchange): (r: Result<string, Error>)
    ensures key == "" ==> r == Failure(MissingApiKey)
    ensures key != "" && exchange(BuildRequest(key, messages, model, temperature)).Failed? ==>
              r == Failure(RequestFailed(exchange(BuildRequest(key, messages, model, temperature)).detail))
    ensures key != "" && exchange(BuildRequest(key, messages, model, temperature)).Delivered? ==>
              r == ExtractReply(exchange(BuildRequest(key, messages, model, temperature)).body)
    ensures r.Success? ==>
              key != "" &&
              exchange(BuildRequest(key, messages, model, temperature)).Delivered? &&
              ReplyAt(exchange(BuildRequest(key, messages, model, temperature)).body, r.value)
  {
    if key == "" then Failure(MissingApiKey)
    else
      match exchange(BuildRequest(key, messages, model, temperature))
      case Failed(detail) => Failure(RequestFailed(detail))
      case Delivered(body) =>
        var r := ExtractReply(body);
        if r.Success? then ExtractReplyIsReplyAt(body, r.value); r else r
  }
}
