/**
 The Vapi side of the adapter: the request body sent to `POST {base}/assistant`,
 the envelope built from a successful reply, and the message of the exception
 raised when the call fails.
 */
module Vapi {
  import opened PyJson
  import Envelope

  const DefaultModelProvider := "openai"
  const DefaultModel := "gpt-4"
  const DefaultVoiceProvider := "11labs"
  const DefaultVoiceId := "21m00Tcm4TlvDq8ikWAM"

  /** The keys a Vapi request body may hold. */
  const BodyKeys: set<string> := {"name", "model", "voice", "webhook"}

  /** The dict comprehension that keeps only the entries whose value is not None. */
  function DropNone(m: map<string, Json>): map<string, Json> {
    map k | k in m && m[k] != JNull :: m[k]
  }

  /**
   `map_to_vapi_params(params)`. `params.get("model", {})` must be a dict, for
   `.get` is called on it; anything else raises AttributeError.
   */
  function MapParams(params: map<string, Json>): (r: Result<Json>)
    ensures r.Err? <==> "model" in params && !params["model"].JObj?
    ensures r.Err? ==> r.fault == NoAttribute(TypeName(params["model"]), "get")
    ensures r.Ok? ==> r.value.JObj? && r.value.fields.Keys <= BodyKeys
    ensures r.Ok? ==> "model" in r.value.fields && "voice" in r.value.fields
    // after the filter no top-level value is None
    ensures r.Ok? ==> forall k :: k in r.value.fields ==> r.value.fields[k] != JNull
    // `name` is passed through, and dropped only when it was None or absent
    ensures r.Ok? ==> ("name" in r.value.fields <==> Get(params, "name") != JNull)
    ensures r.Ok? && "name" in r.value.fields ==> r.value.fields["name"] == params["name"]
    // `webhook` is present exactly when `webhook_url` is truthy, and then equals it
    ensures r.Ok? ==> ("webhook" in r.value.fields <==> Truthy(Get(params, "webhook_url")))
    ensures r.Ok? && "webhook" in r.value.fields ==> r.value.fields["webhook"] == params["webhook_url"]
  {
    var model := GetOr(params, "model", JObj(map[]));
    if !model.JObj? then Err(NoAttribute(TypeName(model), "get"))
    else
      var body := map[
        "name" := Get(params, "name"),
        "model" := JObj(map[
          "provider" := GetOr(model.fields, "provider", JStr(DefaultModelProvider)),
          "model" := GetOr(model.fields, "model", JStr(DefaultModel))]),
        "voice" := JObj(map[
          "provider" := GetOr(params, "voice_provider", JStr(DefaultVoiceProvider)),
          "voiceId" := GetOr(params, "voice", JStr(DefaultVoiceId))])];
      var withHook :=
        if Truthy(Get(params, "webhook_url")) then body["webhook" := Get(params, "webhook_url")] else body;
      Ok(JObj(DropNone(withHook)))
  }

  /** With no `model`, `voice` or `voice_provider` key, every default is used. */
  lemma DefaultsWhenAbsent(params: map<string, Json>)
    requires "model" !in params && "voice" !in params && "voice_provider" !in params
    ensures MapParams(params).Ok?
    ensures MapParams(params).value.fields["model"]
         == JObj(map["provider" := JStr("openai"), "model" := JStr("gpt-4")])
    ensures MapParams(params).value.fields["voice"]
         == JObj(map["provider" := JStr("11labs"), "voiceId" := JStr("21m00Tcm4TlvDq8ikWAM")])
  {
  }

  /**
   A key that is present wins over its default, whatever its value, even None
   or the empty string; a nested key absent from `model` takes its default.
   */
  lemma PresentKeysOverride(params: map<string, Json>)
    requires MapParams(params).Ok?
    ensures var voice := MapParams(params).value.fields["voice"];
      && voice.JObj? && voice.fields.Keys == {"provider", "voiceId"}
      && ("voice" in params ==> voice.fields["voiceId"] == params["voice"])
      && ("voice" !in params ==> voice.fields["voiceId"] == JStr(DefaultVoiceId))
      && ("voice_provider" in params ==> voice.fields["provider"] == params["voice_provider"])
      && ("voice_provider" !in params ==> voice.fields["provider"] == JStr(DefaultVoiceProvider))
    ensures var model := MapParams(params).value.fields["model"];
      && model.JObj? && model.fields.Keys == {"provider", "model"}
      && var given := if "model" in params then params["model"].fields else map[];
      && ("provider" in given ==> model.fields["provider"] == given["provider"])
      && ("provider" !in given ==> model.fields["provider"] == JStr(DefaultModelProvider))
      && ("model" in given ==> model.fields["model"] == given["model"])
      && ("model" !in given ==> model.fields["model"] == JStr(DefaultModel))
  {
  }

  /**
   The success path of `call_vapi_api`: the reply's JSON `data` becomes the
   envelope `create_response(data.get("id"), data.get("name"), "created", data)`.
   A reply that is not a dict has no `.get`, and the AttributeError escapes.
   */
  function OnSuccess(data: Json): (r: Result<Json>)
    ensures r.Err? <==> !data.JObj?
    ensures r.Err? ==> r.fault == NoAttribute(TypeName(data), "get")
    ensures r.Ok? ==> Envelope.ReadResponse(r.value) == Some(Envelope.Fields(
      Get(data.fields, "id"), Get(data.fields, "name"), JStr("created"),
      if data.fields != map[] then Some(data) else None))
  {
    if !data.JObj? then Err(NoAttribute(TypeName(data), "get"))
    else
      var r := Envelope.CreateResponse(Get(data.fields, "id"), Get(data.fields, "name"), JStr("created"), data);
      Envelope.ReadCreateResponse(Get(data.fields, "id"), Get(data.fields, "name"), JStr("created"), data);
      Ok(r)
  }

  /** The HTTP reply attached to a failed request; `body` is `None` when it is not JSON. */
  datatype ErrorReply = ErrorReply(text: string, body: Option<Json>)

  /** A `requests` exception: its `str(e)` and the reply it carries, if any. */
  datatype VapiError = VapiError(description: string, reply: Option<ErrorReply>)

  const FailurePrefix := "Vapi API call failed: "

  /**
   `error_message` in the `except` block of `call_vapi_api`. A reply body that
   is JSON but not a dict has no `.get`; the AttributeError is not a ValueError
   and escapes the inner `try`.
   */
  function ErrorDetail(e: VapiError): Result<Json> {
    match e.reply
    case None => Ok(JStr(e.description))
    case Some(reply) =>
      match reply.body
      case None => Ok(JStr(reply.text))
      case Some(body) =>
        if body.JObj? then Ok(GetOr(body.fields, "message", JStr(e.description)))
        else Err(NoAttribute(TypeName(body), "get"))
  }

  /** The message of the exception `call_vapi_api` raises when the call fails. */
  function FailureMessage(e: VapiError, containerText: Json -> string): (r: Result<string>)
    // the raised message is always the prefix followed by the chosen text
    ensures r.Ok? ==> FailurePrefix <= r.value
    ensures r.Ok? ==> ErrorDetail(e).Ok? && r.value[|FailurePrefix|..] == Format(ErrorDetail(e).value, containerText)
    ensures e.reply.None? ==> r == Ok(FailurePrefix + e.description)
    ensures e.reply.Some? && e.reply.value.body.None? ==> r == Ok(FailurePrefix + e.reply.value.text)
    ensures e.reply.Some? && e.reply.value.body.Some? ==>
      var body := e.reply.value.body.value;
      && (body.JObj? && "message" in body.fields ==> r == Ok(FailurePrefix + Format(body.fields["message"], containerText)))
      && (body.JObj? && "message" !in body.fields ==> r == Ok(FailurePrefix + e.description))
      && (!body.JObj? ==> r == Err(NoAttribute(TypeName(body), "get")))
  {
    match ErrorDetail(e)
    case Ok(detail) => Ok(FailurePrefix + Format(detail, containerText))
    case Err(f) => Err(f)
  }

  /** An error reply `{"message": "bad voice"}` is reported as exactly that text after the prefix. */
  lemma BadVoiceReported(description: string, text: string, containerText: Json -> string)
    ensures FailureMessage(VapiError(description, Some(ErrorReply(text, Some(JObj(map["message" := JStr("bad voice")]))))), containerText)
         == Ok("Vapi API call failed: bad voice")
  {
    assert FailurePrefix + "bad voice" == "Vapi API call failed: bad voice";
  }
}
