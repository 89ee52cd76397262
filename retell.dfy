/**
 The Retell side of the adapter: the keyword arguments passed to the SDK's
 `agent.create`, and the message of the exception raised when that call fails.
 */
module Retell {
  import opened PyJson
  import Envelope

  const DefaultEngineType := "retell-llm"
  const DefaultLlmId := "llm_d16e07ac75c77c2101412f199ce5"
  const DefaultVoiceId := "11labs-Adrian"
  const DefaultVoiceProvider := "11labs"

  /** The keys a Retell request may hold. */
  const BodyKeys: set<string> := {"response_engine", "agent_name", "voice_id", "webhook_url"}

  /**
   The voice id sent to Retell: the voice itself when the voice provider is
   the string `11labs`, and otherwise `f"{voice_provider}-{voice}"`.
   */
  function VoiceId(voiceProvider: Json, voice: Json, containerText: Json -> string): Json {
    if voiceProvider == JStr(DefaultVoiceProvider) then voice
    else JStr(Format(voiceProvider, containerText) + "-" + Format(voice, containerText))
  }

  /**
   `map_to_retell_params(params)`. `params.get("model", {})` must be a dict, for
   `.get` is called on it; anything else raises AttributeError. Unlike the Vapi
   body, nothing is filtered out: `agent_name` is there even when it is None.
   */
  function MapParams(params: map<string, Json>, containerText: Json -> string): (r: Result<Json>)
    ensures r.Err? <==> "model" in params && !params["model"].JObj?
    ensures r.Err? ==> r.fault == NoAttribute(TypeName(params["model"]), "get")
    ensures r.Ok? ==> r.value.JObj?
    ensures r.Ok? ==> var b := r.value.fields;
      && b.Keys <= BodyKeys
      && "response_engine" in b && "agent_name" in b && "voice_id" in b
      && b["agent_name"] == Get(params, "name")
      && ("webhook_url" in b <==> Truthy(Get(params, "webhook_url")))
      && ("webhook_url" in b ==> b["webhook_url"] == params["webhook_url"])
  {
    var voice := GetOr(params, "voice", JStr(DefaultVoiceId));
    var voiceProvider := GetOr(params, "voice_provider", JStr(DefaultVoiceProvider));
    var model := GetOr(params, "model", JObj(map[]));
    if !model.JObj? then Err(NoAttribute(TypeName(model), "get"))
    else
      var body := map[
        "response_engine" := JObj(map[
          "type" := GetOr(model.fields, "type", JStr(DefaultEngineType)),
          "llm_id" := GetOr(model.fields, "llm_id", JStr(DefaultLlmId))]),
        "agent_name" := Get(params, "name"),
        "voice_id" := VoiceId(voiceProvider, voice, containerText)];
      if Truthy(Get(params, "webhook_url")) then Ok(JObj(body["webhook_url" := Get(params, "webhook_url")]))
      else Ok(JObj(body))
  }

  /** With no `model` key, the default response engine is used. */
  lemma DefaultEngineWhenAbsent(params: map<string, Json>, containerText: Json -> string)
    requires "model" !in params
    ensures MapParams(params, containerText).Ok?
    ensures MapParams(params, containerText).value.fields["response_engine"]
         == JObj(map["type" := JStr("retell-llm"), "llm_id" := JStr("llm_d16e07ac75c77c2101412f199ce5")])
  {
  }

  /**
   A `model` dict overrides the response engine key by key: each of `type` and
   `llm_id` is the caller's value whenever that key is present, whatever the
   value is, and its own default only when the key is absent.
   */
  lemma PresentEngineKeysOverride(params: map<string, Json>, containerText: Json -> string)
    requires MapParams(params, containerText).Ok?
    ensures var given := if "model" in params then params["model"].fields else map[];
      var engine := MapParams(params, containerText).value.fields["response_engine"];
      && engine.JObj? && engine.fields.Keys == {"type", "llm_id"}
      && engine.fields["type"] == (if "type" in given then given["type"] else JStr(DefaultEngineType))
      && engine.fields["llm_id"] == (if "llm_id" in given then given["llm_id"] else JStr(DefaultLlmId))
  {
  }

  /**
   The voice id composition: the voice (given or defaulted) verbatim when the
   voice provider is `11labs`, given or defaulted; otherwise the provider's
   text, a dash and the voice's text, which for two strings is `provider-voice`.
   */
  lemma VoiceIdComposition(params: map<string, Json>, containerText: Json -> string)
    requires MapParams(params, containerText).Ok?
    ensures var id := MapParams(params, containerText).value.fields["voice_id"];
      && (Get(params, "voice_provider") == JStr("11labs") || "voice_provider" !in params ==>
            id == GetOr(params, "voice", JStr(DefaultVoiceId)))
      && ("voice_provider" in params && params["voice_provider"] != JStr("11labs") ==>
            id == JStr(Format(params["voice_provider"], containerText) + "-"
                       + Format(GetOr(params, "voice", JStr(DefaultVoiceId)), containerText)))
      && var provider, voice := Get(params, "voice_provider"), Get(params, "voice");
      && (provider.JStr? && provider.s != "11labs" && voice.JStr? ==>
            id == JStr(provider.s + "-" + voice.s))
  {
  }

  /** With neither voice key the voice id is `11labs-Adrian`. */
  lemma NoVoiceKeysGiveDefaultVoice(params: map<string, Json>, containerText: Json -> string)
    requires "voice" !in params && "voice_provider" !in params
    requires MapParams(params, containerText).Ok?
    ensures MapParams(params, containerText).value.fields["voice_id"] == JStr("11labs-Adrian")
  {
  }

  /**
   A voice provider given without a voice is prefixed to the default voice id:
   `voice_provider = "azure"` with no `voice` yields `azure-11labs-Adrian`.
   */
  lemma ProviderWithoutVoice(params: map<string, Json>, p: string, containerText: Json -> string)
    requires p != "11labs"
    requires "voice" !in params && "voice_provider" in params && params["voice_provider"] == JStr(p)
    requires MapParams(params, containerText).Ok?
    ensures MapParams(params, containerText).value.fields["voice_id"] == JStr(p + "-11labs-Adrian")
  {
    assert p + "-" + DefaultVoiceId == p + "-11labs-Adrian";
  }

  /** The attributes of the agent object that `agent.create` returns which the adapter reads. */
  datatype CreatedAgent = CreatedAgent(
    agentId: Json, agentName: Json,
    engineType: Json, llmId: Json, engineVersion: Json,
    voiceId: Json, webhookUrl: Json, lastModified: Json)

  /** The keys of the `details` dict a created Retell agent is reported with. */
  const DetailKeys: set<string> :=
    {"agent_id", "agent_name", "response_engine", "voice_id", "webhook_url", "created_at"}

  /**
   The `details` dict: the agent's fields, with its response engine flattened
   into a plain dict of `type`, `llm_id` and `version`. A missing `webhook_url`
   or `last_modification_timestamp` attribute is read as None (`JNull`).
   */
  function Details(a: CreatedAgent): Json {
    JObj(map[
      "agent_id" := a.agentId,
      "agent_name" := a.agentName,
      "response_engine" := JObj(map["type" := a.engineType, "llm_id" := a.llmId, "version" := a.engineVersion]),
      "voice_id" := a.voiceId,
      "webhook_url" := a.webhookUrl,
      "created_at" := a.lastModified])
  }

  /**
   The envelope `call_retell_api` returns for a created agent. Its `details`
   is never dropped, because the dict always holds its six keys.
   */
  function OnCreated(a: CreatedAgent): (r: Json)
    ensures Envelope.ReadResponse(r)
         == Some(Envelope.Fields(a.agentId, a.agentName, JStr("created"), Some(Details(a))))
    ensures var details := r.fields["details"];
      && details.JObj? && details.fields.Keys == DetailKeys
      && details.fields["agent_id"] == a.agentId && details.fields["agent_name"] == a.agentName
      && details.fields["created_at"] == a.lastModified
  {
    var details := Details(a);
    assert "agent_id" in details.fields;
    Envelope.ReadCreateResponse(a.agentId, a.agentName, JStr("created"), details);
    Envelope.CreateResponse(a.agentId, a.agentName, JStr("created"), details)
  }

  const FailurePrefix := "Retell API call failed: "
  const NotInitialized := "Retell client not initialized. Please check RETELL_API_KEY."

  /**
   The message of the exception `call_retell_api` raises: the client is checked
   first, then any error from the SDK call or from reshaping its reply is
   wrapped with the same prefix.
   */
  function FailureMessage(clientReady: bool, errorText: string): (r: string)
    ensures FailurePrefix <= r
    ensures !clientReady ==> r[|FailurePrefix|..] == NotInitialized
    ensures clientReady ==> r[|FailurePrefix|..] == errorText
  {
    FailurePrefix + (if clientReady then errorText else NotInitialized)
  }
}
