/** The request envelope of the legacy HTTP helpers (src/zabbix/mod.rs): a
    Request object of section 4 of the JSON-RPC 2.0 Specification (version
    member, method, params, id) plus Zabbix's `auth` member; and the shape
    of the replies those helpers decode. */
module Envelope {
  import opened Wrappers
  import opened Requests

  /** Rust's `i8`. */
  newtype int8 = x: int | -128 <= x < 128

  /** Rust's `i32`. */
  newtype int32 = x: int | -0x8000_0000 <= x < 0x8000_0000

  const JsonRpc: string := "2.0"
  const UnsupportedResponseMessage: string := "unsupported zabbix api response"
  const CommunicationErrorMessage: string := "zabbix api communication error"

  datatype ZabbixRequest<P> = ZabbixRequest(jsonrpc: string, methodName: string, params: P, auth: string, id: int8)

  /** The shape every envelope of the helpers has: version "2.0" and id 1. */
  predicate WellFormed<P>(request: ZabbixRequest<P>)
  {
    request.jsonrpc == JsonRpc && request.id == 1
  }

  /** `ZabbixRequest::new`. */
  function NewRequest<P>(methodName: string, params: P, authToken: string): (r: ZabbixRequest<P>)
    ensures WellFormed(r)
    ensures r.methodName == methodName && r.params == params && r.auth == authToken
  {
    ZabbixRequest(JsonRpc, methodName, params, authToken, 1)
  }

  /** Every well-formed envelope is the one `NewRequest` builds from its own
      method, params and token: the constructor loses nothing and adds
      nothing else. */
  lemma NewRequestRoundTrip<P>(request: ZabbixRequest<P>)
    requires WellFormed(request)
    ensures NewRequest(request.methodName, request.params, request.auth) == request
  {
  }

  /** The `error` member of a Zabbix reply. */
  datatype ZabbixError = ZabbixError(code: int32, message: string, data: string)

  /** A reply body as the helpers see it once the transport has returned it:
      not JSON at all, or a JSON object whose `result` member may be a
      string and whose `error` member may be present. */
  datatype Reply = Unparseable | Parsed(result: Option<string>, error: Option<ZabbixError>)

  /** What a helper that may or may not send a create request did: the
      request it sent, if any, and what it returned. */
  datatype Attempt<P> = Attempt(sent: Option<ZabbixRequest<P>>, result: Result<(), Error>)
}
