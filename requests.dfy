/** The Zabbix API calls the reconciliation makes through the `zabbix_api`
    client, their request records, and the errors the core passes around. */
module Requests {
  import opened Config

  /** A host as `host.get` returns it. */
  datatype ZabbixHost = ZabbixHost(hostId: string, host: string)

  /** The `filter` of a `host.get` request: the technical host names sought. */
  datatype HostFilter = HostFilter(host: seq<string>)

  datatype CreateItemRequest = CreateItemRequest(
    name: string,
    key: string,
    hostId: string,
    itemType: uint8,
    valueType: uint8,
    interfaceId: string,
    tags: seq<Tag>,
    delay: string)

  datatype ScenarioStep = ScenarioStep(name: string, url: string, statusCodes: string, no: string)

  datatype CreateWebScenarioRequest = CreateWebScenarioRequest(
    name: string,
    hostId: string,
    steps: seq<ScenarioStep>)

  datatype CreateTriggerRequest = CreateTriggerRequest(
    description: string,
    expression: string,
    priority: uint8,
    recoveryMode: uint8,
    recoveryExpression: string,
    url: string,
    eventName: string,
    dependencies: seq<string>,
    tags: seq<Tag>)

  /** One remote call of the reconciliation. */
  datatype Request =
    | UserLogin(user: string, password: string)
    | HostGet(filter: HostFilter)
    | ItemGet(key: string)
    | ItemCreate(item: CreateItemRequest)
    | WebScenarioGet(name: string)
    | WebScenarioCreate(scenario: CreateWebScenarioRequest)
    | TriggerGet(description: string)
    | TriggerCreate(trigger: CreateTriggerRequest)
  {
    predicate IsCreate()
    {
      ItemCreate? || WebScenarioCreate? || TriggerCreate?
    }
  }

  /** The errors of the core: a remote call the server refused, a failure
      wrapped with a context message (anyhow's `.context`), a transport or
      decoding failure, a file that could not be read, or a plain message. */
  datatype Error =
    | ApiError(request: Request)
    | Context(message: string, cause: Error)
    | TransportError
    | DecodeError
    | ReadError
    | Message(text: string)
  {
    /** anyhow's `root_cause`: the innermost error under every context. */
    function RootCause(): (e: Error)
      ensures !e.Context?
      ensures !Context? ==> e == this
      ensures Context? ==> e == cause.RootCause()
    {
      if Context? then cause.RootCause() else this
    }
  }
}
