# LM Studio compatibility proxy — translation core in Dafny

This project models the data-rewriting core of `lm_proxy.py`. The proxy
accepts LM Studio chat-completions and model-listing requests and forwards
them to a LiteLLM model router. The model covers four translations:

- **Message normalisation** (`tidy_message`), in module `Messages`.
  `tool_calls` is dropped unless the message is an assistant message with a
  non-empty list. A user message carrying the text
  `This is a system message.` is promoted to a system message.
- **Outgoing request construction** (`_prepare_openai_chat_request_body`),
  in module `ChatRequest`. It tidies every message and appends a
  `Please continue.` user message when all of them are system messages. It
  copies `model`, defaults `stream` to false, forwards `tools` only when
  non-empty and `max_tokens` only when not -1.
- **Model catalog translation** (`_transform_litellm_model_to_lmstudio_format`,
  the empty-catalog test and the listing endpoint), in module `Catalog`.
- **Event-stream reframing** (`_process_and_modify_json_line` and the relay
  loop), in module `EventStream`. This is the `text/event-stream` format of
  section 9.2 of the HTML Living Standard. `[DONE]` is re-emitted
  canonically, JSON objects get the proxy's `system_fingerprint`,
  unparsable payloads pass through, and other lines are forwarded.

Module `JsonModel` holds the decoded-JSON datatype and the Python exceptions
the code can raise (`KeyError`, `TypeError`, `AttributeError`, and the
`ValueError` for an empty catalog). Each exception is an `Err` result, not a
precondition. Module `Text` models Python's `str.strip()` (with the full
`str.isspace()` character set) and the substring test.

`tidy_message` works on a deep copy, so it is a function from the caller's
message to a new value. The caller's message cannot change. The relay loop
is the method `EventStream.RelayStream`, proved equal to the function
`EventStream.Relay`.

Four behaviours of the code that a reader might not expect, which the
model keeps as written:
- A request without `model` raises a `KeyError`, which the endpoint reports
  as status 500 rather than as a client error.
- A request without `messages` is accepted and forwarded with an empty list.
- Chat requests are always relayed as an event stream, whatever `stream` says.
- Every request field other than `model`, `stream`, `tools`, `messages` and
  `max_tokens` is dropped from the forwarded body, so generation parameters
  such as `temperature`, `stop` and `top_p` never reach the backend router
  (`ChatRequest.BuildBodyFields` states the key set).

## Model

| member | source | states |
|---|---|---|
| `Text.TrimLeft` | lm_proxy.py:136 | the leading-whitespace strip leaves a suffix of the input; all it removes is whitespace; the rest does not start with whitespace |
| `Text.TrimRight` | lm_proxy.py:136 | the trailing-whitespace strip leaves a prefix of the input; all it removes is whitespace; the rest does not end with whitespace |
| `Text.StripIsUnpaddedSlice` | lm_proxy.py:136 | `strip()` returns a slice `s[i..j]` with only whitespace outside it, and the slice neither starts nor ends with whitespace |
| `Text.StripPadded` | lm_proxy.py:136 | a string that neither starts nor ends with whitespace, padded on both sides with any whitespace, strips back to itself |
| `Text.ContainsAt` | lm_proxy.py:87 | the substring test holds exactly when the marker occurs at some index of the content |
| `Messages.TidyFailsIff` | lm_proxy.py:79-90 | tidying fails exactly for a non-dict message (TypeError), a missing `role` (KeyError), or a user message whose content is not a string, list or dict |
| `Messages.TidyToolCalls` | lm_proxy.py:82-84 | the output has `tool_calls` exactly when the input is an assistant message whose `tool_calls` is not `[]`, and then with the same value |
| `Messages.TidyRole` | lm_proxy.py:86-88 | the output role is `system` when a user message carries the marker, and the input role otherwise; so the output is a system message exactly when the input was one or was promoted |
| `Messages.TidyKeepsOtherKeys` | lm_proxy.py:79-90 | no key is added, and every key other than `role` and `tool_calls` keeps its value |
| `Messages.TidyIdempotent` | lm_proxy.py:79-90 | tidying an already tidied message gives the same message |
| `ChatRequest.TidyAllElementwise` | lm_proxy.py:98 | the tidied list is `tidy_message` of each input message in order; it fails exactly when some message fails, with the error of the first one that does |
| `ChatRequest.ForwardedMessagesShape` | lm_proxy.py:98-102 | the forwarded list keeps the tidied messages in order and has one more entry, the continuation, exactly when the list is non-empty and all system messages |
| `ChatRequest.ForwardedMessagesHaveNonSystem` | lm_proxy.py:99-102 | a non-empty forwarded list always holds a message that is not a system message |
| `ChatRequest.PrepareBodyFailsIff` | lm_proxy.py:96-105 | the body is built exactly when the request is a dict with `max_tokens` and `model` whose messages are iterable and all tidy; a missing `max_tokens` is reported first, a missing `model` last |
| `ChatRequest.BuildBodyFields` | lm_proxy.py:104-110 | the body holds `model` verbatim, `stream` or false, `tools` iff truthy, `max_tokens` iff present and not -1 (each unchanged), the forwarded messages, and no other key |
| `ChatRequest.PrepareBodyMessages` | lm_proxy.py:98-108 | with n incoming messages the forwarded list has n or n+1 entries; the first n are the tidied messages in order; the continuation is appended exactly when n > 0 and all tidied messages are system messages |
| `ChatRequest.OptionalMaxTokensAgrees` | lm_proxy.py:96-109 | with `max_tokens` present, the translation with `max_tokens` optional gives the same result as the code |
| `ChatRequest.MissingMaxTokensRejected` | lm_proxy.py:96-109 | a request without `max_tokens` fails with a KeyError as written, while the corrected translation accepts it |
| `ChatRequest.OptionalMaxTokensOmitted` | lm_proxy.py:109 | with `max_tokens` optional, a request without it is forwarded without `max_tokens` and otherwise like a request whose `max_tokens` is -1 |
| `Catalog.TransformModelShape` | lm_proxy.py:61-76 | a record has exactly the nine LM Studio fields: `id` from the entry or the default alias, `publisher` from `owned_by` or `litellm-proxied`, and seven fixed constants |
| `Catalog.DefaultAliasRecord` | lm_proxy.py:14 | with the default alias `groq-llama4-scout`, an entry without `id` or `owned_by` is listed under that alias and publisher `litellm-proxied` |
| `Catalog.TransformAllElementwise` | lm_proxy.py:158 | translating the catalog keeps its length and order, and fails exactly when some entry is not a dict |
| `Catalog.ListModelsSpec` | lm_proxy.py:157-159 | the listing succeeds exactly when `data` is a non-empty list of dicts; it is `{"object": "list", "data": records}` with one record per entry, in order |
| `Catalog.EmptyCatalogIsError` | lm_proxy.py:46-49 | a missing or empty catalog is an error, never an empty listing |
| `EventStream.Stamp` | lm_proxy.py:142 | the stamped object has the input's keys plus `system_fingerprint`, set to `proxy_fingerprint`, and every other value unchanged |
| `EventStream.PaddingIgnoredForDecodedPayload` | lm_proxy.py:135-144 | for a payload that decodes, the reframed event (or the error) depends only on the stripped payload: whitespace around it on either side changes nothing |
| `EventStream.ReframeLineFraming` | lm_proxy.py:122-147 | every chunk emitted for a `data:` line starts with `data:` and ends with the blank line that closes an event; any other line is forwarded as `line + "\n"` |
| `EventStream.PaddedDoneIsCanonical` | lm_proxy.py:136-139 | a `[DONE]` sentinel padded with any whitespace is re-emitted as the canonical `data: [DONE]` event |
| `EventStream.ObjectEventKeepsFields` | lm_proxy.py:140-144 | a decoded object is forwarded with the proxy fingerprint and every other field it had |
| `EventStream.RelayStream` | lm_proxy.py:122-126 | the relay loop emits exactly what `Relay` of the whole line sequence describes: the per-line outcomes emitted in order up to the first error |
| `EventStream.EmitInOrder` | lm_proxy.py:122-126 | emitting the per-line outcomes yields the chunks of the leading successes in order and stops at the first error |
| `EventStream.RelayInOrder` | lm_proxy.py:122-126 | one chunk per line, in input order, until the first line that cannot be reframed; that line's error ends the stream, and without one every line is relayed |
| `EventStream.RelayComplete` | lm_proxy.py:122-126 | when every line can be reframed, the stream is relayed whole, with no error |

## Findings

| source | as written | input that shows it | evidently intended | confidence | as-written member | corrected member |
|---|---|---|---|---|---|---|
| lm_proxy.py:96 | `max_tokens` is read by subscript before anything else, so a request without it raises a KeyError and gets status 500; the `"max_tokens" in request` test at line 109 can never be false | `{"model": "demo", "messages": [{"role": "user", "content": "hi"}]}` | `max_tokens` is optional and left out of the forwarded body when absent | medium, not executed | `ChatRequest.MissingMaxTokensRejected` | `ChatRequest.OptionalMaxTokensOmitted` |

`ChatRequest.PrepareBody` models the code as written.
`ChatRequest.PrepareBodyOptionalMaxTokens` is the corrected translation.
Both share `ChatRequest.BuildBody`, so every property of the forwarded body
holds for both.

## Left out

- The FastAPI application, its lifespan hook, the route decorators, the
  response classes and `uvicorn.run` are left out. They are web-framework
  plumbing.
- The HTTP client, the request to the router's catalog, timeouts and
  `raise_for_status` are left out. They are network I/O. The catalog
  response body is a parameter of `Catalog.ListModels`.
- The mapping of exceptions to HTTP status codes (400, 500, 502) is left
  out. The model stops at which exception is raised.
- The async streaming context manager is left out. Its connection and
  status errors, and caller disconnects, are I/O. The relay takes the
  already received lines as a sequence.
- `json.loads` and `json.dumps` are not modelled. They are the parameters
  `decode` and `encode` of the event-stream functions, so the byte format of
  JSON is not modelled.
- Dictionary key order is not modelled, because objects are maps. So the
  order of keys in the encoded events and forwarded body is not captured.
- The int/float distinction of JSON numbers and float rounding are not
  modelled. Numbers are exact reals, which keeps Python's `-1 == -1.0`.
- The environment configuration is left out. `Catalog.DefaultModelAlias`
  is the default value of `DEFAULT_LITELLM_MODEL_ALIAS`, and the alias is a
  parameter of the catalog functions.
- Logging output is left out.
