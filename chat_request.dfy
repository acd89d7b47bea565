/** Construction of the body forwarded to the backend router from an
    incoming chat-completions request (`_prepare_openai_chat_request_body`). */
module ChatRequest {
  import opened JsonModel
  import Messages
  import Text

  /** The user message appended when every forwarded message is a system
      message, since some providers refuse a conversation without one. */
  const Continuation: map<string, Json> :=
    map["role" := JString("user"), "content" := JString("Please continue.")]

  /** The messages the list comprehension iterates over:
      `request.get("messages", [])`. A list gives its items; an empty string
      or dict gives nothing; a non-empty string or dict yields strings,
      which Tidy rejects with a TypeError; anything else is not iterable. */
  function MessageList(request: map<string, Json>): Result<seq<Json>>
  {
    match GetOr(request, "messages", JArray([]))
    case JArray(items) => Ok(items)
    case JString(s) => if s == "" then Ok([]) else Err(TypeError)
    case JObject(fields) => if fields == map[] then Ok([]) else Err(TypeError)
    case _ => Err(TypeError)
  }

  /** `[tidy_message(m) for m in messages]`: the first message Tidy rejects
      aborts the comprehension with its error. */
  function TidyAll(messages: seq<Json>): Result<seq<map<string, Json>>>
    decreases |messages|
  {
    if messages == [] then Ok([])
    else match Messages.Tidy(messages[0])
      case Err(e) => Err(e)
      case Ok(first) =>
        match TidyAll(messages[1..])
        case Err(e) => Err(e)
        case Ok(rest) => Ok([first] + rest)
  }

  predicate IsSystem(m: map<string, Json>)
  {
    GetOr(m, "role", JNull) == JString("system")
  }

  predicate AllSystem(ms: seq<map<string, Json>>)
  {
    forall i :: 0 <= i < |ms| ==> IsSystem(ms[i])
  }

  /** The forwarded message list: the tidied messages, followed by the
      continuation when there is at least one and all are system messages. */
  function ForwardedMessages(tidied: seq<map<string, Json>>): seq<Json>
  {
    var objects := seq(|tidied|, i requires 0 <= i < |tidied| => JObject(tidied[i]));
    if AllSystem(tidied) && tidied != [] then objects + [JObject(Continuation)] else objects
  }

  /** Python's `value == -1`, for a decoded JSON value. */
  predicate IsMinusOne(v: Json)
  {
    v == JNumber(-1.0)
  }

  /** The body built once the request is known to be a dict: messages first
      (raising on the first bad one), then `model` by subscript; `stream`
      defaults to false, `tools` is added only when truthy and `max_tokens`
      only when present and not -1. */
  function BuildBody(request: map<string, Json>): Result<map<string, Json>>
  {
    match MessageList(request)
    case Err(e) => Err(e)
    case Ok(messages) =>
      match TidyAll(messages)
      case Err(e) => Err(e)
      case Ok(tidied) =>
        if "model" !in request then Err(KeyError("model"))
        else
          var body := map[
            "model" := request["model"],
            "stream" := GetOr(request, "stream", JBool(false)),
            "messages" := JArray(ForwardedMessages(tidied))];
          var withTools :=
            if "tools" in request && Truthy(request["tools"]) then body["tools" := request["tools"]] else body;
          Ok(if "max_tokens" in request && !IsMinusOne(request["max_tokens"])
             then withTools["max_tokens" := request["max_tokens"]]
             else withTools)
  }

  /** `_prepare_openai_chat_request_body` as written: `max_tokens` is read by
      subscript before anything else, so a request without it raises a
      KeyError, and so does a request that is not a dict (a TypeError). */
  function PrepareBody(request: Json): Result<map<string, Json>>
  {
    if !request.JObject? then Err(TypeError)
    else if "max_tokens" !in request.fields then Err(KeyError("max_tokens"))
    else BuildBody(request.fields)
  }

  /** The same translation with `max_tokens` optional, as the later
      `"max_tokens" in request` test shows was intended. */
  function PrepareBodyOptionalMaxTokens(request: Json): Result<map<string, Json>>
  {
    if !request.JObject? then Err(TypeError) else BuildBody(request.fields)
  }

  // ---------------------------------------------------------------------
  // Properties

  /** The tidied list is Tidy applied to each message, in order, and it
      fails exactly when some message fails, with the first failure's error. */
  lemma {:induction false} TidyAllElementwise(messages: seq<Json>)
    ensures TidyAll(messages).Ok? <==> forall i :: 0 <= i < |messages| ==> Messages.Tidy(messages[i]).Ok?
    ensures TidyAll(messages).Ok? ==>
              && |TidyAll(messages).value| == |messages|
              && forall i :: 0 <= i < |messages| ==>
                   TidyAll(messages).value[i] == Messages.Tidy(messages[i]).value
    ensures TidyAll(messages).Err? ==>
              exists k :: && 0 <= k < |messages|
                          && Messages.Tidy(messages[k]) == Err(TidyAll(messages).error)
                          && forall j :: 0 <= j < k ==> Messages.Tidy(messages[j]).Ok?
    decreases |messages|
  {
    if messages != [] {
      var tail := messages[1..];
      TidyAllElementwise(tail);
      if Messages.Tidy(messages[0]).Ok? {
        forall i | 1 <= i < |messages|
          ensures Messages.Tidy(messages[i]) == Messages.Tidy(tail[i - 1])
        {
        }
        if TidyAll(tail).Err? {
          var k :| && 0 <= k < |tail|
                   && Messages.Tidy(tail[k]) == Err(TidyAll(tail).error)
                   && forall j :: 0 <= j < k ==> Messages.Tidy(tail[j]).Ok?;
          assert Messages.Tidy(messages[k + 1]) == Err(TidyAll(messages).error);
        }
      }
    }
  }

  /** The forwarded list is the tidied list, in order, plus the continuation
      exactly when the tidied list is non-empty and all system messages. */
  lemma ForwardedMessagesShape(tidied: seq<map<string, Json>>)
    ensures var out := ForwardedMessages(tidied);
      && (|out| == |tidied| + 1 <==> tidied != [] && AllSystem(tidied))
      && (|out| == |tidied| || |out| == |tidied| + 1)
      && (forall i :: 0 <= i < |tidied| ==> out[i] == JObject(tidied[i]))
      && (|out| == |tidied| + 1 ==> out[|tidied|] == JObject(Continuation))
  {
  }

  /** The forwarded list is never a non-empty list of system messages only. */
  lemma ForwardedMessagesHaveNonSystem(tidied: seq<map<string, Json>>)
    requires tidied != []
    ensures exists j :: 0 <= j < |ForwardedMessages(tidied)|
              && ForwardedMessages(tidied)[j].JObject? && !IsSystem(ForwardedMessages(tidied)[j].fields)
  {
    var out := ForwardedMessages(tidied);
    if AllSystem(tidied) {
      assert out[|tidied|] == JObject(Continuation);
      assert !IsSystem(Continuation);
    } else {
      var j :| 0 <= j < |tidied| && !IsSystem(tidied[j]);
      assert out[j] == JObject(tidied[j]);
    }
  }

  /** When the body can be built: the request is a dict carrying
      `max_tokens` and `model`, its messages are iterable and every one of
      them tidies. The errors follow Python's order of evaluation. */
  lemma PrepareBodyFailsIff(request: Json)
    ensures PrepareBody(request).Ok? <==>
              && request.JObject?
              && "max_tokens" in request.fields
              && "model" in request.fields
              && MessageList(request.fields).Ok?
              && TidyAll(MessageList(request.fields).value).Ok?
    ensures !request.JObject? ==> PrepareBody(request) == Err(TypeError)
    ensures request.JObject? && "max_tokens" !in request.fields ==>
              PrepareBody(request) == Err(KeyError("max_tokens"))
    ensures && request.JObject? && "max_tokens" in request.fields
            && MessageList(request.fields).Ok? && TidyAll(MessageList(request.fields).value).Ok?
            && "model" !in request.fields
            ==> PrepareBody(request) == Err(KeyError("model"))
  {
  }

  /** The fields of a built body: `model` verbatim, `stream` or false,
      `tools` only when truthy, `max_tokens` only when not -1, the forwarded
      messages, and nothing else. */
  lemma BuildBodyFields(request: map<string, Json>)
    requires BuildBody(request).Ok?
    ensures var body := BuildBody(request).value;
      && body.Keys <= {"model", "stream", "tools", "messages", "max_tokens"}
      && "model" in body && body["model"] == request["model"]
      && "stream" in body && body["stream"] == GetOr(request, "stream", JBool(false))
      && ("tools" in body <==> "tools" in request && Truthy(request["tools"]))
      && ("tools" in body ==> body["tools"] == request["tools"])
      && ("max_tokens" in body <==> "max_tokens" in request && !IsMinusOne(request["max_tokens"]))
      && ("max_tokens" in body ==> body["max_tokens"] == request["max_tokens"])
      && "messages" in body
      && body["messages"] == JArray(ForwardedMessages(TidyAll(MessageList(request).value).value))
  {
  }

  /** The forwarded `messages` list: with n incoming messages, its first n
      entries are the tidied messages in order, and one more, the
      continuation, follows exactly when n > 0 and all of them are system
      messages once tidied. */
  lemma PrepareBodyMessages(request: Json)
    requires PrepareBody(request).Ok?
    ensures var incoming := MessageList(request.fields).value;
            var out := PrepareBody(request).value["messages"].items;
      && (|out| == |incoming| || |out| == |incoming| + 1)
      && (forall i :: 0 <= i < |incoming| ==>
            Messages.Tidy(incoming[i]).Ok? && out[i] == JObject(Messages.Tidy(incoming[i]).value))
      && (|out| == |incoming| + 1 <==>
            |incoming| > 0 && forall i :: 0 <= i < |incoming| ==> IsSystem(Messages.Tidy(incoming[i]).value))
      && (|out| == |incoming| + 1 ==> out[|incoming|] == JObject(Continuation))
  {
    var incoming := MessageList(request.fields).value;
    var tidied := TidyAll(incoming).value;
    TidyAllElementwise(incoming);
    ForwardedMessagesShape(tidied);
    BuildBodyFields(request.fields);
  }

  /** The two translations agree whenever the request carries `max_tokens`. */
  lemma OptionalMaxTokensAgrees(request: Json)
    requires request.JObject? && "max_tokens" in request.fields
    ensures PrepareBodyOptionalMaxTokens(request) == PrepareBody(request)
  {
  }

  /** A request without `max_tokens`, which LM Studio clients may send, is
      rejected as written, while the `"max_tokens" in request` test that
      decides whether to forward it can never be false. */
  lemma MissingMaxTokensRejected()
    ensures var request := JObject(map[
              "model" := JString("demo"),
              "messages" := JArray([JObject(map["role" := JString("user"), "content" := JString("hi")])])]);
      && PrepareBody(request) == Err(KeyError("max_tokens"))
      && PrepareBodyOptionalMaxTokens(request).Ok?
  {
    var hi := JObject(map["role" := JString("user"), "content" := JString("hi")]);
    var request := JObject(map["model" := JString("demo"), "messages" := JArray([hi])]);
    assert MessageList(request.fields) == Ok([hi]);
    assert !Text.Contains("hi", Messages.SystemMarker);
  }

  /** With `max_tokens` optional, a request without it is forwarded
      without it and otherwise as before. */
  lemma OptionalMaxTokensOmitted(request: Json)
    requires request.JObject? && "max_tokens" !in request.fields
    requires PrepareBodyOptionalMaxTokens(request).Ok?
    ensures "max_tokens" !in PrepareBodyOptionalMaxTokens(request).value
    ensures PrepareBodyOptionalMaxTokens(request).value ==
              BuildBody(request.fields["max_tokens" := JNumber(-1.0)]).value
  {
  }
}
