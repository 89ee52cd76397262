/**
 The common response envelope that both providers' successful results are
 reshaped into: `agent_id`, `name`, `status` and, when there is something to
 show, `details`.
 */
module Envelope {
  import opened PyJson

  /** The keys an envelope may hold. */
  const Keys: set<string> := {"agent_id", "name", "status", "details"}

  /** `create_response(agent_id, name, status, details)`; `details=None` is `JNull`. */
  function CreateResponse(agentId: Json, name: Json, status: Json, details: Json): (r: Json)
    ensures r.JObj? && r.fields.Keys <= Keys
    ensures "agent_id" in r.fields && r.fields["agent_id"] == agentId
    ensures "name" in r.fields && r.fields["name"] == name
    ensures "status" in r.fields && r.fields["status"] == status
    ensures "details" in r.fields <==> Truthy(details)
    ensures "details" in r.fields ==> r.fields["details"] == details
  {
    var response := map["agent_id" := agentId, "name" := name, "status" := status];
    if Truthy(details) then JObj(response["details" := details]) else JObj(response)
  }

  /** What a caller reads back out of an envelope. */
  datatype Fields = Fields(agentId: Json, name: Json, status: Json, details: Option<Json>)

  /** Reads an envelope back; `None` when `r` is not shaped like one. */
  function ReadResponse(r: Json): Option<Fields> {
    if r.JObj? && r.fields.Keys <= Keys && "agent_id" in r.fields && "name" in r.fields && "status" in r.fields then
      var f := r.fields;
      Some(Fields(f["agent_id"], f["name"], f["status"], if "details" in f then Some(f["details"]) else None))
    else None
  }

  /**
   Reading back an envelope gives its three arguments unchanged, and `details`
   exactly when `details` was truthy.
   */
  lemma ReadCreateResponse(agentId: Json, name: Json, status: Json, details: Json)
    ensures ReadResponse(CreateResponse(agentId, name, status, details))
         == Some(Fields(agentId, name, status, if Truthy(details) then Some(details) else None))
  {
  }
}
