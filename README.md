# ai-agent-wrapper: the decision logic of `POST /create-agent`

The adapter takes a provider-agnostic request to create a voice agent and
validates it. It maps the `params` object into the body that Vapi or Retell
expects, calls that provider, and wraps the reply in one common envelope
(`agent_id`, `name`, `status`, optional `details`). This project models every
decision the handler makes around the two network calls, as pure Dafny functions
over decoded JSON values:

- `pyjson.dfy` (module `PyJson`): JSON values, Python truthiness, `dict.get`
  (the default applies only when the key is absent), `str()` as an f-string
  uses it, ASCII `str.lower`, and the runtime errors Python raises on a value
  of the wrong type.
- `envelope.dfy` (module `Envelope`): `create_response` and a reader that gets
  its fields back.
- `vapi.dfy` (module `Vapi`): `map_to_vapi_params`, the success path of
  `call_vapi_api`, and the choice of the message it raises on failure.
- `retell.dfy` (module `Retell`): `map_to_retell_params`, the voice id rule,
  the success path of `call_retell_api` (the created agent reshaped into the
  envelope with its six-key `details`), and the message it raises on failure.
- `handler.dfy` (module `Handler`): the chain of early returns in
  `create_agent` as `Decide`, a table of the same checks in order (`Checks`)
  proved to agree with it, and the whole handler (`CreateAgent`). In
  `CreateAgent` the providers' replies are inputs, and every escaping exception
  becomes a 500.

Behaviour of the code that the model keeps exactly:

- The Vapi body drops only top-level `None` values (app.py:53). Empty strings
  and `None`s nested inside `model` or `voice` are kept.
- When a Vapi error reply parses as a dict without `message`, the reported text
  is `str(e)` (app.py:89), not the reply's raw text. A reply that parses as a
  list, a string, a number or `null` makes `.get` raise AttributeError, which
  escapes `except ValueError` (app.py:90) and becomes a 500 with Python's message.
- The payload checks (app.py:133-138) give, by the payload's type:
  - a falsy payload (`null`, `{}`, `[]`, `""`, `0`, `false`): 400 "Missing JSON payload";
  - a list: 400 when no element equals `"provider"`; otherwise `data["provider"]`
    raises TypeError (list indices must be integers), which becomes 500;
  - a string: 400 when `"provider"` is not a substring; otherwise
    `data["provider"]` raises TypeError (string indices must be integers), which
    becomes 500;
  - a non-zero number or `true`: `"provider" in data` raises TypeError (not
    iterable), which becomes 500. Such a payload never gets a 400.
- A truthy `provider` that is not a string makes `.lower()` raise
  AttributeError (app.py:144). A `model` that is present but not a dict makes
  `.get` raise AttributeError (app.py:43, app.py:61). Both give 500 with Python's
  message, not 400.

## Model

| member | source | states |
|---|---|---|
| `PyJson.GetOr` | app.py:47-48 | `d.get(k, default)` gives the stored value whenever the key is present, even None or empty, and the default only when it is absent |
| `PyJson.Get` | app.py:41 | `d.get(k)` gives the stored value when the key is present and None only when it is absent |
| `PyJson.Lower` | app.py:144 | `provider.lower()` keeps the length and lower-cases each character independently |
| `PyJson.NatText` | app.py:65 | `str(n)` of a natural number, as an f-string writes it: non-empty decimal digits with no leading zero that spell back exactly `n` |
| `PyJson.LowerMatchesIffCasing` | app.py:144-145 | after lower-casing, a string equals a lower-case word exactly when it spells that word with each letter in either case |
| `Envelope.CreateResponse` | app.py:28-36 | the envelope holds `agent_id`, `name` and `status` unchanged, holds `details` exactly when `details` is truthy and then equal to it, and holds no other key |
| `Envelope.ReadCreateResponse` | app.py:28-36 | reading an envelope back gives its three arguments unchanged, and `details` exactly when it was truthy |
| `Vapi.MapParams` | app.py:39-53 | raises AttributeError exactly when `model` is present and not a dict; otherwise the body always has `model` and `voice` and no key outside name/model/voice/webhook. No top-level value is None. `name` is dropped only when it is None or absent. `webhook` is present exactly when `webhook_url` is truthy, and then equals it |
| `Vapi.DefaultsWhenAbsent` | app.py:40-50 | with no `model`, `voice` or `voice_provider` key the body has model `{openai, gpt-4}` and voice `{11labs, 21m00Tcm4TlvDq8ikWAM}` |
| `Vapi.PresentKeysOverride` | app.py:42-49 | each of the four nested fields equals the caller's value whenever its key is present, whatever that value is, and its default only when the key is absent |
| `Vapi.OnSuccess` | app.py:82-84 | a dict reply becomes an envelope with `agent_id = data.get("id")`, `name = data.get("name")`, status `created` and details the whole reply when it is non-empty. A reply that is not a dict raises AttributeError |
| `Vapi.FailureMessage` | app.py:85-93 | the raised message is always `Vapi API call failed: ` followed by the chosen text. That text is the reply's `message` if the body parses as a dict that has one, `str(e)` if it parses without one, the raw text if it does not parse, and `str(e)` when there is no reply. A body that parses as a non-dict raises AttributeError |
| `Vapi.BadVoiceReported` | app.py:89-93 | an error reply `{"message": "bad voice"}` is reported as exactly `Vapi API call failed: bad voice` |
| `Retell.MapParams` | app.py:56-69 | raises AttributeError exactly when `model` is present and not a dict. Otherwise `response_engine`, `agent_name` and `voice_id` are always present and no other key except `webhook_url`. `agent_name` equals `params.get("name")`, kept even when None. `webhook_url` is present exactly when it is truthy in the input, and then equal to it |
| `Retell.PresentEngineKeysOverride` | app.py:60-62 | the response engine always has exactly `type` and `llm_id`; each is the caller's `model` value whenever its key is present, whatever that value is, and its default only when the key is absent |
| `Retell.DefaultEngineWhenAbsent` | app.py:59-63 | with no `model` key the response engine is `{retell-llm, llm_d16e07ac75c77c2101412f199ce5}` |
| `Retell.VoiceIdComposition` | app.py:57-65 | the voice id is the voice (given or `11labs-Adrian`) verbatim when the voice provider is `11labs` or absent. Otherwise it is the provider's `str()`, a dash and the voice's `str()`, which for two strings is `provider-voice` |
| `Retell.NoVoiceKeysGiveDefaultVoice` | app.py:57-65 | with neither voice key the voice id is `11labs-Adrian` |
| `Retell.ProviderWithoutVoice` | app.py:57-65 | for every mappable params object with a string voice provider `p` other than `11labs` and no `voice`, the provider is prefixed to the default voice: `p-11labs-Adrian` |
| `Retell.OnCreated` | app.py:110-123 | a created agent is reported as an envelope with the agent's id and name, status `created`, and always a `details` dict of exactly six keys (`agent_id`, `agent_name`, `response_engine`, `voice_id`, `webhook_url`, `created_at`) carrying the agent's own fields |
| `Retell.FailureMessage` | app.py:97-127 | the raised message is always `Retell API call failed: ` followed by the not-initialised text when there is no client, and by the text of the exception raised during or after the SDK call otherwise |
| `Handler.ProviderCaseInsensitive` | app.py:144-146 | any casing of `vapi` selects Vapi, any casing of `retell` selects Retell, and every other string is refused |
| `Handler.Decide` | app.py:132-158 | a provider is called only for a request that passes every check and names it, only with its key set, and only on its mapper's body. Every refusal is 400 except a missing key, which is 500. A falsy payload is refused as missing |
| `Handler.ValidRequestIsDispatched` | app.py:144-158 | a dict payload that names a provider and has a dict `params` with a truthy `name` reaches that provider's key check and then its mapper |
| `Handler.OnlySelectedKeyMatters` | app.py:149-158 | the key of the provider not selected never changes the decision |
| `Handler.FirstFailing` | app.py:132-151 | the index returned is that of the first failing check, or the number of checks when none fails |
| `Handler.ChecksDecideInOrder` | app.py:132-158 | for every empty payload and every dict payload, the first failing check decides the response: payload, provider, params object, params.name, provider name (all 400), then the selected key (500), before any mapper runs. A truthy `provider` that is not a string passes the first four checks and then raises AttributeError from `.lower()` instead of the provider-name refusal. When every check passes, the selected provider's mapper runs |
| `Handler.CreateAgent` | app.py:129-165 | the status is always 200, 400 or 500, and every non-200 body is `{"error": <string>}`. 400 comes exactly from an early refusal. 200 comes exactly from a call whose provider succeeded. Per branch: a refusal carries `Decide`'s status and message; a Python error carries its own text; a Vapi dict reply gives the envelope of its `id`, `name`, status `created` and the reply as details when non-empty, and a non-dict reply the AttributeError text; a failed Vapi call carries the chosen failure message; a created Retell agent gives its id, name, status `created` and its six-key details; a failed Retell call carries the exception's text after the prefix |
| `Handler.RetellFailureReported` | app.py:155-158 | a failing Retell call is reported as 500 with `Retell API call failed: ` and the exception's own text: the client is never missing once the key check has passed |
| `Handler.BadVoiceResponse` | app.py:85-93 | for any request routed to Vapi, an error reply `{"message": "bad voice"}` makes the handler answer 500 with `{"error": "Vapi API call failed: bad voice"}` |
| `Handler.VapiEndToEnd` | app.py:129-161 | `{"provider":"vapi","params":{"name":"Bot1"}}` with Vapi replying `{"id":"a1","name":"Bot1"}` gives 200 and `{"agent_id":"a1","name":"Bot1","status":"created","details":{"id":"a1","name":"Bot1"}}` |

## Left out

- HTTP transport: Flask routing, `request.get_json`, `jsonify` and the server bootstrap. The payload is an already decoded JSON value. A body that Flask cannot decode raises inside `get_json`, and that path is not modelled.
- Network I/O for Vapi: `requests.post`, the URL join, the headers, the 20-second timeout and `raise_for_status`. The reply is an input (`VapiReply`): either the success JSON or the exception with its optional error reply. A success reply whose body is not JSON is not modelled.
- The Retell SDK call itself, which depends on SDK types that are not part of this model. Its outcome is an input (`RetellReply`).
  - `RetellCreated` holds the attributes of the returned agent that the adapter reads (`CreatedAgent`). Only `webhook_url` and `last_modification_timestamp` are read with `getattr(..., None)` (app.py:121-122), so only those two may stand for a missing attribute as None.
  - `RetellFailed` holds the text of any exception that the `try` at app.py:97-123 raises after the client check. That covers an error from `agent.create` itself. It also covers an AttributeError from reshaping the reply (app.py:112-120): a missing `agent_id`, `agent_name`, `voice_id` or `response_engine`, a `None` response engine, or a response engine without `type`, `llm_id` or `version`. Each of these becomes a 500 and never a 200 envelope with a null field.
  - The reshaping of a complete reply into `details` is modelled (`Retell.OnCreated`).
- Environment loading, module configuration and client construction. The two "key configured" flags are the `Config` input. The Retell client exists exactly when its key is set.
- Logging throughout.
- JSON numbers are integers. Fractional numbers, which Python decodes as `float`, are not modelled.
- JSON objects are maps, so the key order of a Python dict is not kept.
- Python's `str()` of a list or a dict is the `containerText` parameter. This is what an f-string writes for such a value, used in the Retell voice id and in a Vapi error whose `message` is a list. Python's repr rules are not modelled.
- `str.lower` is modelled on the ASCII letters only. Non-ASCII case mappings are not modelled.
- The texts of Python's own runtime errors (`Fault.Text`) follow the wording of CPython 3.11 to 3.13. Other versions word some of them differently.
