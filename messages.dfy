/** Normalisation of one chat message before it is forwarded
    (`tidy_message`). The source deep-copies the message and edits the
    copy, so here it is a function from the caller's value to a new one:
    the caller's message cannot change. */
module Messages {
  import opened JsonModel
  import Text

  /** Text whose presence in a user message makes it a system message. */
  const SystemMarker := "This is a system message."

  /** `SystemMarker in message.get("content", "")`: a substring test on a
      string, membership on a list, a key test on a dict; any other content
      makes Python raise a TypeError. */
  function MarkerIn(content: Json): Result<bool>
  {
    match content
    case JString(s) => Ok(Text.Contains(s, SystemMarker))
    case JArray(items) => Ok(JString(SystemMarker) in items)
    case JObject(fields) => Ok(SystemMarker in fields)
    case _ => Err(TypeError)
  }

  /** Whether the copy of the message drops its `tool_calls` entry. */
  predicate DropsToolCalls(m: map<string, Json>)
    requires "role" in m
  {
    "tool_calls" in m && (m["role"] != JString("assistant") || m["tool_calls"] == JArray([]))
  }

  /** `tidy_message`: drops `tool_calls` unless the message is an assistant
      message with a non-empty list of them, then turns a user message that
      carries the marker into a system message. A message that is not a
      dict, has no `role`, or is a user message whose content is neither
      absent nor a string, list or dict raises. */
  function Tidy(message: Json): Result<map<string, Json>>
  {
    if !message.JObject? then Err(TypeError)
    else if "role" !in message.fields then Err(KeyError("role"))
    else
      var m := message.fields;
      var kept := if DropsToolCalls(m) then m - {"tool_calls"} else m;
      if m["role"] == JString("user") then
        match MarkerIn(GetOr(m, "content", JString("")))
        case Err(e) => Err(e)
        case Ok(marked) => Ok(if marked then kept["role" := JString("system")] else kept)
      else
        Ok(kept)
  }

  /** The message is promoted from user to system. */
  predicate Promoted(m: map<string, Json>)
  {
    && "role" in m && m["role"] == JString("user")
    && MarkerIn(GetOr(m, "content", JString(""))) == Ok(true)
  }

  /** Tidy fails exactly on a non-dict, a missing role, or a user message
      whose content cannot be searched for the marker. */
  lemma TidyFailsIff(message: Json)
    ensures Tidy(message).Err? <==>
              || !message.JObject?
              || "role" !in message.fields
              || (message.fields["role"] == JString("user")
                  && MarkerIn(GetOr(message.fields, "content", JString(""))).Err?)
    ensures !message.JObject? ==> Tidy(message) == Err(TypeError)
    ensures message.JObject? && "role" !in message.fields ==> Tidy(message) == Err(KeyError("role"))
  {
  }

  /** `tool_calls` survives only on an assistant message whose list is not
      `[]`, and then unchanged. */
  lemma TidyToolCalls(message: Json)
    requires Tidy(message).Ok?
    ensures var m, r := message.fields, Tidy(message).value;
      && ("tool_calls" in r <==>
            "tool_calls" in m && m["role"] == JString("assistant") && m["tool_calls"] != JArray([]))
      && ("tool_calls" in r ==> r["tool_calls"] == m["tool_calls"])
  {
  }

  /** The role becomes `"system"` exactly when a user message carries the
      marker; otherwise it is unchanged. */
  lemma TidyRole(message: Json)
    requires Tidy(message).Ok?
    ensures var m, r := message.fields, Tidy(message).value;
      && "role" in r
      && r["role"] == (if Promoted(m) then JString("system") else m["role"])
      && (r["role"] == JString("system") <==> Promoted(m) || m["role"] == JString("system"))
  {
  }

  /** Every key other than `role` and `tool_calls` is carried over with its
      value, and no key is added. */
  lemma TidyKeepsOtherKeys(message: Json)
    requires Tidy(message).Ok?
    ensures var m, r := message.fields, Tidy(message).value;
      && r.Keys <= m.Keys
      && forall k :: k in m && k != "role" && k != "tool_calls" ==> k in r && r[k] == m[k]
  {
  }

  /** Tidying an already tidied message changes nothing. */
  lemma TidyIdempotent(message: Json)
    requires Tidy(message).Ok?
    ensures Tidy(JObject(Tidy(message).value)) == Tidy(message)
  {
    var m := message.fields;
    var r := Tidy(message).value;
    TidyRole(message);
    TidyToolCalls(message);
    TidyKeepsOtherKeys(message);
    assert GetOr(r, "content", JString("")) == GetOr(m, "content", JString(""));
    if "tool_calls" in r {
      assert r["role"] == m["role"];
    }
    var kept := if DropsToolCalls(r) then r - {"tool_calls"} else r;
    assert kept == r;
  }
}
