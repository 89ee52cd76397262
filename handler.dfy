/**
 The `POST /create-agent` handler: the chain of early returns that validates
 the payload, the choice of provider, and the HTTP response built from the
 selected provider's reply. The decoded payload, the two "key configured"
 flags and the providers' replies are inputs.
 */
module Handler {
  import opened PyJson
  import Envelope
  import Vapi
  import Retell

  datatype Provider = ToVapi | ToRetell

  /** Whether `VAPI_API_KEY` and `RETELL_API_KEY` are set to non-empty strings. */
  datatype Config = Config(vapiKeySet: bool, retellKeySet: bool)

  const MissingPayload := "Missing JSON payload"
  const MissingProvider := "Missing required field: provider"
  const InvalidParams := "Missing or invalid params object"
  const MissingName := "Missing required field: params.name"
  const InvalidProvider := "Invalid provider. Must be 'vapi' or 'retell'"
  const VapiKeyMissing := "Vapi API key not configured"
  const RetellKeyMissing := "Retell API key not configured"

  /** What the handler does with a payload before any provider is called. */
  datatype Decision =
    | Reject(status: int, message: string)  // an early `return jsonify({"error": message}), status`
    | Crash(fault: Fault)                   // an exception that reaches the outer `except`
    | CallVapi(body: Json)                  // `call_vapi_api(body)`
    | CallRetell(body: Json)                // `call_retell_api(body)`

  /** `provider.lower()` checked against the two names the handler accepts. */
  function ParseProvider(s: string): Option<Provider> {
    var p := Lower(s);
    if p == "vapi" then Some(ToVapi) else if p == "retell" then Some(ToRetell) else None
  }

  /** Any casing of `vapi` or `retell` selects that provider; every other string is refused. */
  lemma ProviderCaseInsensitive(s: string)
    ensures ParseProvider(s) == Some(ToVapi) <==> IsCasingOf(s, "vapi")
    ensures ParseProvider(s) == Some(ToRetell) <==> IsCasingOf(s, "retell")
    ensures ParseProvider(s) == None <==> !IsCasingOf(s, "vapi") && !IsCasingOf(s, "retell")
  {
    LowerMatchesIffCasing(s, "vapi");
    LowerMatchesIffCasing(s, "retell");
  }

  /** The provider a payload names, when it is a dict whose `provider` is a string naming one. */
  function Selected(data: Json): Option<Provider> {
    if data.JObj? && "provider" in data.fields && data.fields["provider"].JStr? then
      ParseProvider(data.fields["provider"].s)
    else None
  }

  /** `data["params"]` when it is a dict, and otherwise the empty dict. */
  function ParamsOf(data: Json): map<string, Json> {
    if data.JObj? && "params" in data.fields && data.fields["params"].JObj? then data.fields["params"].fields
    else map[]
  }

  /** A payload that passes the five checks of the request's shape and names `p`. */
  predicate ValidRequestFor(data: Json, p: Provider) {
    && Selected(data) == Some(p)
    && "params" in data.fields && data.fields["params"].JObj?
    && "name" in ParamsOf(data) && Truthy(ParamsOf(data)["name"])
  }

  /** The selected provider's key check, then its mapper. */
  function Dispatch(p: Provider, params: map<string, Json>, cfg: Config, containerText: Json -> string): Decision {
    match p
    case ToVapi =>
      if !cfg.vapiKeySet then Reject(500, VapiKeyMissing)
      else (match Vapi.MapParams(params) case Ok(body) => CallVapi(body) case Err(f) => Crash(f))
    case ToRetell =>
      if !cfg.retellKeySet then Reject(500, RetellKeyMissing)
      else (match Retell.MapParams(params, containerText) case Ok(body) => CallRetell(body) case Err(f) => Crash(f))
  }

  /** The checks once the payload is known to be a non-empty dict. */
  function DecideObject(m: map<string, Json>, cfg: Config, containerText: Json -> string): Decision {
    if !("provider" in m && Truthy(m["provider"])) then Reject(400, MissingProvider)
    else if !("params" in m && m["params"].JObj?) then Reject(400, InvalidParams)
    else
      var params := m["params"].fields;
      if !("name" in params && Truthy(params["name"])) then Reject(400, MissingName)
      else
        match m["provider"]
        case JStr(s) =>
          (match ParseProvider(s)
           case None => Reject(400, InvalidProvider)
           case Some(p) => Dispatch(p, params, cfg, containerText))
        case _ => Crash(NoAttribute(TypeName(m["provider"]), "lower"))
  }

  /**
   The decision part of `create_agent`. A payload that is a list, a string or
   a number is tested with Python's `in` and indexed by a string, which either
   finds no `provider` or raises.
   */
  function Decide(data: Json, cfg: Config, containerText: Json -> string): (d: Decision)
    // a provider is called only for a valid request naming it, with its key set, on the mapped body
    ensures d.CallVapi? ==>
      ValidRequestFor(data, ToVapi) && cfg.vapiKeySet && Vapi.MapParams(ParamsOf(data)) == Ok(d.body)
    ensures d.CallRetell? ==>
      ValidRequestFor(data, ToRetell) && cfg.retellKeySet
      && Retell.MapParams(ParamsOf(data), containerText) == Ok(d.body)
    // refusals are 400, except a missing key, which is 500
    ensures d.Reject? ==> d.status == 400 || (d.status == 500 && d.message in {VapiKeyMissing, RetellKeyMissing})
    ensures !Truthy(data) ==> d == Reject(400, MissingPayload)
  {
    if !Truthy(data) then Reject(400, MissingPayload)
    else
      match data
      case JObj(m) => DecideObject(m, cfg, containerText)
      case JArr(items) => if JStr("provider") !in items then Reject(400, MissingProvider) else Crash(ListIndexedByStr)
      case JStr(s) => if !ContainsText(s, "provider") then Reject(400, MissingProvider) else Crash(StrIndexedByStr)
      case _ => Crash(NotIterable(TypeName(data)))
  }

  /** A valid request naming a provider whose key is set reaches that provider's mapper. */
  lemma ValidRequestIsDispatched(data: Json, p: Provider, cfg: Config, containerText: Json -> string)
    requires ValidRequestFor(data, p)
    ensures Decide(data, cfg, containerText) == Dispatch(p, ParamsOf(data), cfg, containerText)
  {
    assert Truthy(data.fields["provider"]);
  }

  /** Only the selected provider's key is consulted: the other key never changes the decision. */
  lemma OnlySelectedKeyMatters(data: Json, c1: Config, c2: Config, containerText: Json -> string)
    requires Selected(data) == Some(ToVapi) ==> c1.vapiKeySet == c2.vapiKeySet
    requires Selected(data) == Some(ToRetell) ==> c1.retellKeySet == c2.retellKeySet
    ensures Decide(data, c1, containerText) == Decide(data, c2, containerText)
  {
  }

  /** One validation step: whether it fails, and the response it then gives. */
  datatype Check = Check(fails: bool, status: int, message: string)

  /** The index of the first failing check, or the number of checks when none fails. */
  function FirstFailing(checks: seq<Check>): (i: nat)
    ensures i <= |checks|
    ensures forall j :: 0 <= j < i ==> !checks[j].fails
    ensures i < |checks| ==> checks[i].fails
  {
    if checks == [] || checks[0].fails then 0 else 1 + FirstFailing(checks[1..])
  }

  /** The handler's checks as a table, in the order the handler runs them. */
  function Checks(data: Json, cfg: Config): seq<Check> {
    var m := if data.JObj? then data.fields else map[];
    var params := ParamsOf(data);
    [ Check(!Truthy(data), 400, MissingPayload),
      Check(!("provider" in m && Truthy(m["provider"])), 400, MissingProvider),
      Check(!("params" in m && m["params"].JObj?), 400, InvalidParams),
      Check(!("name" in params && Truthy(params["name"])), 400, MissingName),
      Check(Selected(data).None?, 400, InvalidProvider),
      if Selected(data) == Some(ToVapi) then Check(!cfg.vapiKeySet, 500, VapiKeyMissing)
      else Check(!cfg.retellKeySet, 500, RetellKeyMissing) ]
  }

  /** A truthy `provider` in the dict is a string, so `.lower()` cannot raise. */
  predicate ProviderIsText(m: map<string, Json>) {
    "provider" in m && Truthy(m["provider"]) ==> m["provider"].JStr?
  }

  /**
   The first failing check decides the response; when every check passes, the
   selected provider's mapper runs. Holds for every empty payload and every
   dict payload, with one exception: a truthy `provider` that is not a string
   gets past the first four checks and then `.lower()` raises, before the
   provider name is checked.
   */
  lemma ChecksDecideInOrder(data: Json, cfg: Config, containerText: Json -> string)
    requires !Truthy(data) || data.JObj?
    ensures var checks := Checks(data, cfg);
      var i := FirstFailing(checks);
      var m := if data.JObj? then data.fields else map[];
      && (i < |checks| && (i < 4 || ProviderIsText(m)) ==>
            Decide(data, cfg, containerText) == Reject(checks[i].status, checks[i].message))
      && (i >= 4 && !ProviderIsText(m) ==>
            && i == 4
            && Decide(data, cfg, containerText) == Crash(NoAttribute(TypeName(m["provider"]), "lower")))
      && (i == |checks| ==>
            && Selected(data).Some?
            && Decide(data, cfg, containerText) == Dispatch(Selected(data).value, ParamsOf(data), cfg, containerText))
  {
    var checks := Checks(data, cfg);
    if !Truthy(data) {
      assert checks[0].fails;
    } else {
      var m := data.fields;
      assert !checks[0].fails;
      if !("provider" in m && Truthy(m["provider"])) {
        assert checks[1].fails;
      } else if !("params" in m && m["params"].JObj?) {
        assert !checks[1].fails && checks[2].fails;
      } else if !("name" in ParamsOf(data) && Truthy(ParamsOf(data)["name"])) {
        assert !checks[1].fails && !checks[2].fails && checks[3].fails;
      } else if Selected(data).None? {
        assert !checks[1].fails && !checks[2].fails && !checks[3].fails && checks[4].fails;
      } else {
        assert !checks[1].fails && !checks[2].fails && !checks[3].fails && !checks[4].fails;
        var p := Selected(data).value;
        if (p == ToVapi && !cfg.vapiKeySet) || (p == ToRetell && !cfg.retellKeySet) {
          assert checks[5].fails;
        } else {
          assert !checks[5].fails;
        }
      }
    }
  }

  /**
   The outcome of `call_retell_api` once its client exists: the attributes of
   the created agent, or the text of the exception raised by `agent.create` or
   while reshaping its reply (an attribute read without a default that is
   missing, or a `None` response engine).
   */
  datatype RetellReply = RetellCreated(agent: Retell.CreatedAgent) | RetellFailed(errorText: string)

  /** What the Vapi endpoint gave back: the reply's JSON, or the `requests` exception. */
  datatype VapiReply = VapiCreated(data: Json) | VapiFailed(error: Vapi.VapiError)

  datatype HttpResponse = HttpResponse(status: int, body: Json)

  function ErrorResponse(status: int, message: string): HttpResponse {
    HttpResponse(status, JObj(map["error" := JStr(message)]))
  }

  predicate IsErrorBody(body: Json) {
    body.JObj? && body.fields.Keys == {"error"} && body.fields["error"].JStr?
  }

  /**
   `create_agent` as a whole: early refusals, the provider call, and the outer
   `except` that turns every escaping exception into 500 with its message.
   */
  function CreateAgent(data: Json, cfg: Config, vapiReply: VapiReply, retellReply: RetellReply,
                       containerText: Json -> string): (r: HttpResponse)
    ensures r.status in {200, 400, 500}
    ensures r.status != 200 ==> IsErrorBody(r.body)
    ensures r.status == 400 <==> Decide(data, cfg, containerText).Reject? && Decide(data, cfg, containerText).status == 400
    ensures r.status == 200 <==>
      || (Decide(data, cfg, containerText).CallVapi? && vapiReply.VapiCreated? && vapiReply.data.JObj?)
      || (Decide(data, cfg, containerText).CallRetell? && retellReply.RetellCreated?)
    ensures r.status == 200 ==>
      Envelope.ReadResponse(r.body).Some? && Envelope.ReadResponse(r.body).value.status == JStr("created")
    ensures var d := Decide(data, cfg, containerText);
      && (d.Reject? ==> r == ErrorResponse(d.status, d.message))
      && (d.Crash? ==> r == ErrorResponse(500, d.fault.Text()))
    ensures Decide(data, cfg, containerText).CallVapi? && vapiReply.VapiCreated? ==>
      var reply := vapiReply.data;
      && (reply.JObj? ==>
            && r.status == 200
            && Envelope.ReadResponse(r.body)
               == Some(Envelope.Fields(Get(reply.fields, "id"), Get(reply.fields, "name"), JStr("created"),
                                       if reply.fields != map[] then Some(reply) else None)))
      && (!reply.JObj? ==> r == ErrorResponse(500, NoAttribute(TypeName(reply), "get").Text()))
    ensures Decide(data, cfg, containerText).CallVapi? && vapiReply.VapiFailed? ==>
      match Vapi.FailureMessage(vapiReply.error, containerText)
      case Ok(message) => r == ErrorResponse(500, message)
      case Err(f) => r == ErrorResponse(500, f.Text())
    ensures Decide(data, cfg, containerText).CallRetell? && retellReply.RetellCreated? ==>
      var a := retellReply.agent;
      r.status == 200 && Envelope.ReadResponse(r.body)
        == Some(Envelope.Fields(a.agentId, a.agentName, JStr("created"), Some(Retell.Details(a))))
    ensures Decide(data, cfg, containerText).CallRetell? && retellReply.RetellFailed? ==>
      r == ErrorResponse(500, Retell.FailureMessage(true, retellReply.errorText))
  {
    match Decide(data, cfg, containerText)
    case Reject(status, message) => ErrorResponse(status, message)
    case Crash(f) => ErrorResponse(500, f.Text())
    case CallVapi(_) =>
      (match vapiReply
       case VapiCreated(reply) =>
         (match Vapi.OnSuccess(reply) case Ok(envelope) => HttpResponse(200, envelope) case Err(f) => ErrorResponse(500, f.Text()))
       case VapiFailed(e) =>
         (match Vapi.FailureMessage(e, containerText)
          case Ok(message) => ErrorResponse(500, message)
          case Err(f) => ErrorResponse(500, f.Text())))
    case CallRetell(_) =>
      (match retellReply
       case RetellCreated(agent) => HttpResponse(200, Retell.OnCreated(agent))
       case RetellFailed(m) => ErrorResponse(500, Retell.FailureMessage(cfg.retellKeySet, m)))
  }

  /**
   A failing Retell call is reported as the exception's own text after the prefix:
   the handler reaches the call only with the key set, so the client exists.
   */
  lemma RetellFailureReported(data: Json, cfg: Config, vapiReply: VapiReply, m: string, containerText: Json -> string)
    requires Decide(data, cfg, containerText).CallRetell?
    ensures CreateAgent(data, cfg, vapiReply, RetellFailed(m), containerText)
         == ErrorResponse(500, "Retell API call failed: " + m)
  {
  }

  /**
   An upstream `message` reaches the client: a request dispatched to Vapi whose
   call fails with the error body `{"message": "bad voice"}` is answered with 500
   and exactly `Vapi API call failed: bad voice`.
   */
  lemma BadVoiceResponse(data: Json, cfg: Config, description: string, text: string,
                         retellReply: RetellReply, containerText: Json -> string)
    requires Decide(data, cfg, containerText).CallVapi?
    ensures var body := JObj(map["message" := JStr("bad voice")]);
      var e := Vapi.VapiError(description, Some(Vapi.ErrorReply(text, Some(body))));
      CreateAgent(data, cfg, VapiFailed(e), retellReply, containerText)
      == ErrorResponse(500, "Vapi API call failed: bad voice")
  {
    Vapi.BadVoiceReported(description, text, containerText);
  }

  /** `{"provider":"vapi","params":{"name":"Bot1"}}` with Vapi replying `{"id":"a1","name":"Bot1"}`. */
  lemma VapiEndToEnd(cfg: Config, retellReply: RetellReply, containerText: Json -> string)
    requires cfg.vapiKeySet
    ensures var reply := JObj(map["id" := JStr("a1"), "name" := JStr("Bot1")]);
      var data := JObj(map["provider" := JStr("vapi"), "params" := JObj(map["name" := JStr("Bot1")])]);
      CreateAgent(data, cfg, VapiCreated(reply), retellReply, containerText)
      == HttpResponse(200, JObj(map["agent_id" := JStr("a1"), "name" := JStr("Bot1"),
                                    "status" := JStr("created"), "details" := reply]))
  {
    var reply := JObj(map["id" := JStr("a1"), "name" := JStr("Bot1")]);
    var params := map["name" := JStr("Bot1")];
    var data := JObj(map["provider" := JStr("vapi"), "params" := JObj(params)]);
    assert Lower("vapi") == "vapi";
    assert ValidRequestFor(data, ToVapi);
    assert Vapi.MapParams(params).Ok?;
    assert Decide(data, cfg, containerText) == CallVapi(Vapi.MapParams(params).value) by {
      ValidRequestIsDispatched(data, ToVapi, cfg, containerText);
    }
    var envelope := Envelope.CreateResponse(JStr("a1"), JStr("Bot1"), JStr("created"), reply);
    assert Vapi.OnSuccess(reply) == Ok(envelope);
    assert envelope == JObj(map["agent_id" := JStr("a1"), "name" := JStr("Bot1"),
                                "status" := JStr("created"), "details" := reply]);
  }
}
