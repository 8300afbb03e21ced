/** The Zabbix server as the reconciliation sees it through the `zabbix_api`
    client: a value-level `Server` that answers lookups from its current
    contents and records accepted creates, and the `ZabbixClient` object
    whose fields those creates update in place. One request, if any, is
    refused (`failure`), so that every error path of the callers can be
    reached. */
module ZabbixApi {
  import opened Wrappers
  import opened Requests

  /** The server after a create call, and what the call returned. */
  datatype Outcome = Outcome(server: Server, result: Result<(), Error>)

  datatype Server = Server(
    token: string,
    hostIds: map<string, string>,
    itemKeys: set<string>,
    scenarioNames: set<string>,
    triggerDescriptions: set<string>,
    created: seq<Request>,
    failure: Option<Request>)
  {
    predicate Refuses(r: Request)
    {
      failure == Some(r)
    }

    /** `user.login`: the session token, unless the login is refused. */
    function Login(user: string, password: string): (r: Result<string, Error>)
      ensures r.Failure? <==> Refuses(UserLogin(user, password))
      ensures r.Success? ==> r.value == token
    {
      if Refuses(UserLogin(user, password)) then Failure(ApiError(UserLogin(user, password)))
      else Success(token)
    }

    /** The known hosts among `names`, in the order asked. */
    function HostsNamed(names: seq<string>): (hosts: seq<ZabbixHost>)
      ensures |hosts| <= |names|
      ensures forall h :: h in hosts ==> h.host in names && h.host in hostIds && h.hostId == hostIds[h.host]
      ensures |names| == 1 ==> (hosts == [] <==> names[0] !in hostIds)
    {
      if names == [] then []
      else
        (if names[0] in hostIds then [ZabbixHost(hostIds[names[0]], names[0])] else [])
        + HostsNamed(names[1..])
    }

    /** Names are looked up one at a time: the hosts found for `a + b` are
        those found for `a`, then those found for `b`. */
    lemma {:induction false} HostsNamedAppend(a: seq<string>, b: seq<string>)
      ensures HostsNamed(a + b) == HostsNamed(a) + HostsNamed(b)
      decreases |a|
    {
      if a == [] {
        assert a + b == b;
      } else {
        assert (a + b)[1..] == a[1..] + b;
        HostsNamedAppend(a[1..], b);
      }
    }

    /** `host.get` filtered on technical host names. */
    function GetHosts(filter: HostFilter): Result<seq<ZabbixHost>, Error>
    {
      if Refuses(HostGet(filter)) then Failure(ApiError(HostGet(filter)))
      else Success(HostsNamed(filter.host))
    }

    /** `item.get` by key: the keys of the items found. */
    function GetItems(key: string): Result<seq<string>, Error>
    {
      if Refuses(ItemGet(key)) then Failure(ApiError(ItemGet(key)))
      else if key in itemKeys then Success([key]) else Success([])
    }

    /** `httptest.get` by name. */
    function GetWebScenarios(name: string): Result<seq<string>, Error>
    {
      if Refuses(WebScenarioGet(name)) then Failure(ApiError(WebScenarioGet(name)))
      else if name in scenarioNames then Success([name]) else Success([])
    }

    /** `trigger.get` by description. */
    function GetTriggers(description: string): Result<seq<string>, Error>
    {
      if Refuses(TriggerGet(description)) then Failure(ApiError(TriggerGet(description)))
      else if description in triggerDescriptions then Success([description]) else Success([])
    }

    function CreateItem(item: CreateItemRequest): Outcome
    {
      if Refuses(ItemCreate(item)) then Outcome(this, Failure(ApiError(ItemCreate(item))))
      else Outcome(this.(itemKeys := itemKeys + {item.key}, created := created + [ItemCreate(item)]), Success(()))
    }

    function CreateWebScenario(scenario: CreateWebScenarioRequest): Outcome
    {
      if Refuses(WebScenarioCreate(scenario)) then Outcome(this, Failure(ApiError(WebScenarioCreate(scenario))))
      else Outcome(this.(scenarioNames := scenarioNames + {scenario.name},
                         created := created + [WebScenarioCreate(scenario)]), Success(()))
    }

    function CreateTrigger(trigger: CreateTriggerRequest): Outcome
    {
      if Refuses(TriggerCreate(trigger)) then Outcome(this, Failure(ApiError(TriggerCreate(trigger))))
      else Outcome(this.(triggerDescriptions := triggerDescriptions + {trigger.description},
                         created := created + [TriggerCreate(trigger)]), Success(()))
    }

    /** `s` holds everything this server holds and answers the same way:
        the same session, hosts and refused request, and at least the same
        items, scenarios and triggers. */
    predicate Below(s: Server)
    {
      s.token == token && s.hostIds == hostIds && s.failure == failure
      && itemKeys <= s.itemKeys && scenarioNames <= s.scenarioNames
      && triggerDescriptions <= s.triggerDescriptions
    }
  }

  /** A lookup sees an accepted create: the object no longer counts as missing. */
  lemma CreatesAreSeenByLookups(s: Server, item: CreateItemRequest,
                                scenario: CreateWebScenarioRequest, trigger: CreateTriggerRequest)
    requires s.failure == None
    ensures s.CreateItem(item).server.GetItems(item.key) == Success([item.key])
    ensures s.CreateWebScenario(scenario).server.GetWebScenarios(scenario.name) == Success([scenario.name])
    ensures s.CreateTrigger(trigger).server.GetTriggers(trigger.description) == Success([trigger.description])
  {
  }

  /** A refused create changes nothing; an accepted one adds exactly its
      object and one log entry. */
  lemma CreateItemEffect(s: Server, item: CreateItemRequest)
    ensures var o := s.CreateItem(item);
      (o.result.Failure? <==> s.Refuses(ItemCreate(item)))
      && (o.result.Failure? ==> o.server == s && o.result.error.RootCause() == ApiError(ItemCreate(item)))
      && (o.result.Success? ==> o.server.itemKeys == s.itemKeys + {item.key}
                                && o.server.created == s.created + [ItemCreate(item)]
                                && s.Below(o.server))
  {
  }

  /** The in-memory fake of the `zabbix_api` client. */
  class ZabbixClient {
    const token: string
    const hostIds: map<string, string>
    const failure: Option<Request>
    var itemKeys: set<string>
    var scenarioNames: set<string>
    var triggerDescriptions: set<string>
    var created: seq<Request>

    function State(): Server
      reads this
    {
      Server(token, hostIds, itemKeys, scenarioNames, triggerDescriptions, created, failure)
    }

    constructor (token: string, hostIds: map<string, string>, itemKeys: set<string>,
                 scenarioNames: set<string>, triggerDescriptions: set<string>, failure: Option<Request>)
      ensures State() == Server(token, hostIds, itemKeys, scenarioNames, triggerDescriptions, [], failure)
    {
      this.token := token;
      this.hostIds := hostIds;
      this.failure := failure;
      this.itemKeys := itemKeys;
      this.scenarioNames := scenarioNames;
      this.triggerDescriptions := triggerDescriptions;
      this.created := [];
    }

    method GetAuthSession(user: string, password: string) returns (r: Result<string, Error>)
      ensures r == State().Login(user, password)
    {
      if failure == Some(UserLogin(user, password)) {
        r := Failure(ApiError(UserLogin(user, password)));
      } else {
        r := Success(token);
      }
    }

    method GetHosts(filter: HostFilter) returns (r: Result<seq<ZabbixHost>, Error>)
      ensures r == State().GetHosts(filter)
    {
      if failure == Some(HostGet(filter)) {
        return Failure(ApiError(HostGet(filter)));
      }
      var names := filter.host;
      var hosts := [];
      for i := 0 to |names|
        invariant hosts == State().HostsNamed(names[..i])
      {
        State().HostsNamedAppend(names[..i], [names[i]]);
        assert names[..i + 1] == names[..i] + [names[i]];
        if names[i] in hostIds {
          hosts := hosts + [ZabbixHost(hostIds[names[i]], names[i])];
        }
      }
      assert names[..|names|] == names;
      r := Success(hosts);
    }

    method GetItems(key: string) returns (r: Result<seq<string>, Error>)
      ensures r == State().GetItems(key)
    {
      if failure == Some(ItemGet(key)) {
        r := Failure(ApiError(ItemGet(key)));
      } else if key in itemKeys {
        r := Success([key]);
      } else {
        r := Success([]);
      }
    }

    method GetWebScenarios(name: string) returns (r: Result<seq<string>, Error>)
      ensures r == State().GetWebScenarios(name)
    {
      if failure == Some(WebScenarioGet(name)) {
        r := Failure(ApiError(WebScenarioGet(name)));
      } else if name in scenarioNames {
        r := Success([name]);
      } else {
        r := Success([]);
      }
    }

    method GetTriggers(description: string) returns (r: Result<seq<string>, Error>)
      ensures r == State().GetTriggers(description)
    {
      if failure == Some(TriggerGet(description)) {
        r := Failure(ApiError(TriggerGet(description)));
      } else if description in triggerDescriptions {
        r := Success([description]);
      } else {
        r := Success([]);
      }
    }

    method CreateItem(item: CreateItemRequest) returns (r: Result<(), Error>)
      modifies this
      ensures State() == old(State()).CreateItem(item).server
      ensures r == old(State()).CreateItem(item).result
    {
      if failure == Some(ItemCreate(item)) {
        r := Failure(ApiError(ItemCreate(item)));
      } else {
        itemKeys := itemKeys + {item.key};
        created := created + [ItemCreate(item)];
        r := Success(());
      }
    }

    method CreateWebScenario(scenario: CreateWebScenarioRequest) returns (r: Result<(), Error>)
      modifies this
      ensures State() == old(State()).CreateWebScenario(scenario).server
      ensures r == old(State()).CreateWebScenario(scenario).result
    {
      if failure == Some(WebScenarioCreate(scenario)) {
        r := Failure(ApiError(WebScenarioCreate(scenario)));
      } else {
        scenarioNames := scenarioNames + {scenario.name};
        created := created + [WebScenarioCreate(scenario)];
        r := Success(());
      }
    }

    method CreateTrigger(trigger: CreateTriggerRequest) returns (r: Result<(), Error>)
      modifies this
      ensures State() == old(State()).CreateTrigger(trigger).server
      ensures r == old(State()).CreateTrigger(trigger).result
    {
      if failure == Some(TriggerCreate(trigger)) {
        r := Failure(ApiError(TriggerCreate(trigger)));
      } else {
        triggerDescriptions := triggerDescriptions + {trigger.description};
        created := created + [TriggerCreate(trigger)];
        r := Success(());
      }
    }
  }
}
