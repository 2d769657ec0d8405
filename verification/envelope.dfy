/** Wire-level shapes of the JSON-RPC envelope: JSON values, requests and
    the response wrapper built from a parsed reply. */
module Envelope {
  import opened Outcomes

  /** Version stamp every response carries (JSON-RPC 2.0). */
  const JSONRPC_VERSION: string := "2.0"
  /** Method names of the node protocol. */
  const HANDSHAKE: string := "handshake"
  const ROUTE: string := "route"

  datatype Json =
    | JNull
    | JBool(b: bool)
    | JNumber(n: int)
    | JString(s: string)
    | JArray(items: seq<Json>)
    | JObject(fields: map<string, Json>)

  type JsonObject = map<string, Json>

  datatype Request = Request(id: nat, methodName: string, params: JsonObject)

  /** `id` is absent (`undefined` in the source) when the reply has none. */
  datatype Response = Response(jsonrpc: string, id: Option<Json>, result: JsonObject)

  /** `new oResponse(config)`: stamps the version, copies `id` and keeps the
      whole reply, `id` included, as `result`. */
  function NewResponse(config: JsonObject): (r: Response)
    ensures r.jsonrpc == JSONRPC_VERSION
    ensures r.result == config
    ensures "id" in config ==> r.id == Some(config["id"])
    ensures "id" !in config ==> r.id == None
  {
    Response(JSONRPC_VERSION, if "id" in config then Some(config["id"]) else None, config)
  }

  /** The response's own `id` is the `id` stored in its `result`, and two
      replies that differ in any field give different responses. */
  lemma ResponseIdInResult(config: JsonObject, other: JsonObject)
    ensures NewResponse(config).id.Some? ==>
      "id" in NewResponse(config).result && NewResponse(config).result["id"] == NewResponse(config).id.value
    ensures NewResponse(config) == NewResponse(other) <==> config == other
  {
  }
}
