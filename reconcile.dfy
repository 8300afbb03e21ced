/** `generate_web_scenarios_and_triggers` (src/command/generate/items.rs):
    for every url source, resolve the Zabbix host id, then make sure the
    item, the web scenario and the trigger for that url exist, creating each
    one only when the lookup for it comes back empty. The first failing
    call ends the whole run.

    The functions below are the specification on `Server` values; the
    methods run the same steps against a `ZabbixClient` object and are
    proved to leave it in the state the functions describe. */
module Reconcile {
  import opened Wrappers
  import opened Strings
  import opened Config
  import opened UrlSources
  import opened Requests
  import opened ZabbixApi
  import opened Template
  import opened Hosts

  /** The slot item templates mark the url with. */
  const UrlSlot: string := "{}"

  const ScenarioErrorMessage: string := "unable to create web-scenario"

  /** The run's settings: the host override and the three entity
      configurations. The override is empty when unset, which is what the
      configuration defaults `target_hostname` to. */
  datatype Job = Job(targetHostname: string, item: ItemConfig, scenario: WebScenarioConfig, trigger: TriggerConfig)

  /** The server after some sources, the host id carried into the next
      source, and the result so far. */
  datatype Step = Step(server: Server, hostId: string, result: Result<(), Error>)

  // ---- What each stage asks for ----

  function ItemKey(cfg: ItemConfig, url: string): string
  {
    Replace(cfg.keyTemplate, UrlSlot, url)
  }

  function ItemRequest(cfg: ItemConfig, hostId: string, url: string): CreateItemRequest
  {
    CreateItemRequest(Replace(cfg.nameTemplate, UrlSlot, url), ItemKey(cfg, url), hostId,
                      cfg.itemType, cfg.valueType, cfg.interfaceId, cfg.tags, cfg.delay)
  }

  function ScenarioName(cfg: WebScenarioConfig, vars: Vars): string
  {
    Substitute(cfg.nameTemplate, vars)
  }

  /** One step, named like the scenario, on the source url, number "1". */
  function ScenarioRequest(cfg: WebScenarioConfig, hostId: string, url: string, vars: Vars): CreateWebScenarioRequest
  {
    CreateWebScenarioRequest(ScenarioName(cfg, vars), hostId,
                             [ScenarioStep(ScenarioName(cfg, vars), url, cfg.expectStatusCode, "1")])
  }

  function TriggerDescription(cfg: TriggerConfig, vars: Vars): string
  {
    Substitute(cfg.name, vars)
  }

  function TriggerRequest(cfg: TriggerConfig, vars: Vars): CreateTriggerRequest
  {
    CreateTriggerRequest(TriggerDescription(cfg, vars), Substitute(cfg.problemExpression, vars),
                         cfg.priority, cfg.recoveryMode, Substitute(cfg.recoveryExpression, vars),
                         Substitute(cfg.url, vars), Substitute(cfg.eventName, vars), [], [])
  }

  // ---- The stages ----

  function ItemStage(s: Server, cfg: ItemConfig, hostId: string, url: string): Outcome
  {
    match s.GetItems(ItemKey(cfg, url))
    case Failure(e) => Outcome(s, Failure(e))
    case Success(found) =>
      if found == [] then s.CreateItem(ItemRequest(cfg, hostId, url)) else Outcome(s, Success(()))
  }

  function ScenarioStage(s: Server, cfg: WebScenarioConfig, hostId: string, url: string, vars: Vars): Outcome
  {
    match s.GetWebScenarios(ScenarioName(cfg, vars))
    case Failure(e) => Outcome(s, Failure(e))
    case Success(found) =>
      if found == [] then
        var o := s.CreateWebScenario(ScenarioRequest(cfg, hostId, url, vars));
        if o.result.Failure? then Outcome(o.server, Failure(Context(ScenarioErrorMessage, o.result.error))) else o
      else Outcome(s, Success(()))
  }

  function TriggerStage(s: Server, cfg: TriggerConfig, vars: Vars): Outcome
  {
    match s.GetTriggers(TriggerDescription(cfg, vars))
    case Failure(e) => Outcome(s, Failure(e))
    case Success(found) =>
      if found == [] then s.CreateTrigger(TriggerRequest(cfg, vars)) else Outcome(s, Success(()))
  }

  // ---- One source, all sources, the run ----

  /** The host id a source is handled with. With a target host the id found
      before the loop is kept; otherwise the source's host is looked up and,
      when it is not found, the previous id is kept. */
  function ResolveHostId(s: Server, job: Job, hostId: string, source: UrlSource): Result<string, Error>
  {
    if job.targetHostname != "" then Success(hostId)
    else
      match FindZabbixHostId(s, source.zabbixHost)
      case Failure(e) => Failure(e)
      case Success(None) => Success(hostId)
      case Success(Some(id)) => Success(id)
  }

  /** Host resolution as the skip branch's warning intends it: without a
      target host, a source whose host is not found gets no id, whatever
      earlier sources resolved. */
  function ResolveHostIdPerSource(s: Server, job: Job, hostId: string, source: UrlSource): (r: Result<string, Error>)
    ensures job.targetHostname != "" ==> r == Success(hostId)
    ensures job.targetHostname == "" && r.Success? ==>
      r.value == (if source.zabbixHost in s.hostIds then s.hostIds[source.zabbixHost] else "")
    ensures r.Failure? <==> job.targetHostname == "" && s.Refuses(HostGet(HostRequest(source.zabbixHost)))
  {
    if job.targetHostname != "" then Success(hostId)
    else
      match FindZabbixHostId(s, source.zabbixHost)
      case Failure(e) => Failure(e)
      case Success(None) => Success("")
      case Success(Some(id)) => Success(id)
  }

  /** The host name the templates see as HOST. */
  function HostName(job: Job, source: UrlSource): string
  {
    if job.targetHostname == "" then source.zabbixHost else job.targetHostname
  }

  function ProcessSource(s: Server, job: Job, hostId: string, source: UrlSource): Step
  {
    match ResolveHostId(s, job, hostId, source)
    case Failure(e) => Step(s, hostId, Failure(e))
    case Success(id) =>
      if id == "" then Step(s, id, Success(()))
      else
        var vars := TemplateVars(HostName(job, source), source.url);
        var item := ItemStage(s, job.item, id, source.url);
        if item.result.Failure? then Step(item.server, id, item.result)
        else
          var scenario := ScenarioStage(item.server, job.scenario, id, source.url, vars);
          if scenario.result.Failure? then Step(scenario.server, id, scenario.result)
          else
            var trigger := TriggerStage(scenario.server, job.trigger, vars);
            Step(trigger.server, id, trigger.result)
  }

  /** The sources in order, stopping at the first failure. */
  function ProcessSources(s: Server, job: Job, hostId: string, sources: seq<UrlSource>): Step
    decreases |sources|
  {
    if sources == [] then Step(s, hostId, Success(()))
    else
      var first := ProcessSource(s, job, hostId, sources[0]);
      if first.result.Failure? then first
      else ProcessSources(first.server, job, first.hostId, sources[1..])
  }

  /** The host id before the loop: the target host's, or empty. */
  function InitialHostId(s: Server, job: Job): Result<string, Error>
  {
    if job.targetHostname == "" then Success("")
    else
      match FindZabbixHostId(s, job.targetHostname)
      case Failure(e) => Failure(e)
      case Success(None) => Success("")
      case Success(Some(id)) => Success(id)
  }

  /** The whole run: sources first, then login, then the target host, then the loop. */
  function Generate(s: Server, user: string, password: string, sources: Result<seq<UrlSource>, Error>, job: Job): Outcome
  {
    match sources
    case Failure(e) => Outcome(s, Failure(e))
    case Success(urlSources) =>
      match s.Login(user, password)
      case Failure(e) => Outcome(s, Failure(e))
      case Success(_) =>
        match InitialHostId(s, job)
        case Failure(e) => Outcome(s, Failure(e))
        case Success(hostId) =>
          var last := ProcessSources(s, job, hostId, urlSources);
          Outcome(last.server, last.result)
  }

  // ---- The same steps on the client object ----

  method EnsureItem(client: ZabbixClient, cfg: ItemConfig, hostId: string, url: string) returns (r: Result<(), Error>)
    modifies client
    ensures client.State() == ItemStage(old(client.State()), cfg, hostId, url).server
    ensures r == ItemStage(old(client.State()), cfg, hostId, url).result
  {
    var itemKey := Replace(cfg.keyTemplate, UrlSlot, url);
    var itemsFound := client.GetItems(itemKey);
    if itemsFound.Failure? {
      return Failure(itemsFound.error);
    }
    if itemsFound.value == [] {
      var name := Replace(cfg.nameTemplate, UrlSlot, url);
      var request := CreateItemRequest(name, itemKey, hostId, cfg.itemType, cfg.valueType,
                                       cfg.interfaceId, cfg.tags, cfg.delay);
      r := client.CreateItem(request);
    } else {
      r := Success(());
    }
  }

  method EnsureWebScenario(client: ZabbixClient, cfg: WebScenarioConfig, hostId: string, url: string, vars: Vars)
    returns (r: Result<(), Error>)
    modifies client
    ensures client.State() == ScenarioStage(old(client.State()), cfg, hostId, url, vars).server
    ensures r == ScenarioStage(old(client.State()), cfg, hostId, url, vars).result
  {
    var scenarioName := ProcessTemplateString(cfg.nameTemplate, vars);
    var scenariosFound := client.GetWebScenarios(scenarioName);
    if scenariosFound.Failure? {
      return Failure(scenariosFound.error);
    }
    if scenariosFound.value == [] {
      var stepName := ProcessTemplateString(cfg.nameTemplate, vars);
      var step := ScenarioStep(stepName, url, cfg.expectStatusCode, "1");
      var request := CreateWebScenarioRequest(scenarioName, hostId, [step]);
      r := client.CreateWebScenario(request);
      if r.Failure? {
        r := Failure(Context(ScenarioErrorMessage, r.error));
      }
    } else {
      r := Success(());
    }
  }

  method EnsureTrigger(client: ZabbixClient, cfg: TriggerConfig, vars: Vars) returns (r: Result<(), Error>)
    modifies client
    ensures client.State() == TriggerStage(old(client.State()), cfg, vars).server
    ensures r == TriggerStage(old(client.State()), cfg, vars).result
  {
    var description := ProcessTemplateString(cfg.name, vars);
    var triggersFound := client.GetTriggers(description);
    if triggersFound.Failure? {
      return Failure(triggersFound.error);
    }
    if triggersFound.value == [] {
      var expression := ProcessTemplateString(cfg.problemExpression, vars);
      var recoveryExpression := ProcessTemplateString(cfg.recoveryExpression, vars);
      var triggerUrl := ProcessTemplateString(cfg.url, vars);
      var eventName := ProcessTemplateString(cfg.eventName, vars);
      var request := CreateTriggerRequest(description, expression, cfg.priority, cfg.recoveryMode,
                                          recoveryExpression, triggerUrl, eventName, [], []);
      r := client.CreateTrigger(request);
    } else {
      r := Success(());
    }
  }

  /** The body of the loop for one source. */
  method HandleSource(client: ZabbixClient, job: Job, hostId: string, source: UrlSource)
    returns (nextHostId: string, r: Result<(), Error>)
    modifies client
    ensures client.State() == ProcessSource(old(client.State()), job, hostId, source).server
    ensures r == ProcessSource(old(client.State()), job, hostId, source).result
    ensures r.Success? ==> nextHostId == ProcessSource(old(client.State()), job, hostId, source).hostId
  {
    nextHostId := hostId;
    var zabbixHost := source.zabbixHost;
    if job.targetHostname == "" {
      var found := FindHostId(client, source.zabbixHost);
      if found.Failure? {
        return nextHostId, Failure(found.error);
      }
      if found.value.Some? {
        nextHostId := found.value.value;
      }
    } else {
      zabbixHost := job.targetHostname;
    }
    if nextHostId == "" {
      return nextHostId, Success(());
    }
    r := EnsureItem(client, job.item, nextHostId, source.url);
    if r.Failure? {
      return;
    }
    var vars := TemplateVars(zabbixHost, source.url);
    r := EnsureWebScenario(client, job.scenario, nextHostId, source.url, vars);
    if r.Failure? {
      return;
    }
    r := EnsureTrigger(client, job.trigger, vars);
  }

  /** `generate_web_scenarios_and_triggers`, given the provider's answer. */
  method GenerateWebScenariosAndTriggers(client: ZabbixClient, user: string, password: string,
                                         sources: Result<seq<UrlSource>, Error>, job: Job)
    returns (r: Result<(), Error>)
    modifies client
    ensures client.State() == Generate(old(client.State()), user, password, sources, job).server
    ensures r == Generate(old(client.State()), user, password, sources, job).result
  {
    if sources.Failure? {
      return Failure(sources.error);
    }
    var urlSources := sources.value;
    var session := client.GetAuthSession(user, password);
    if session.Failure? {
      return Failure(session.error);
    }
    var hostId := "";
    if job.targetHostname != "" {
      var found := FindHostId(client, job.targetHostname);
      if found.Failure? {
        return Failure(found.error);
      }
      if found.value.Some? {
        hostId := found.value.value;
      }
    }
    ghost var start := ProcessSources(client.State(), job, hostId, urlSources);
    assert Generate(old(client.State()), user, password, sources, job) == Outcome(start.server, start.result);
    for i := 0 to |urlSources|
      invariant ProcessSources(client.State(), job, hostId, urlSources[i..]) == start
    {
      assert urlSources[i..][1..] == urlSources[i + 1..];
      var result;
      hostId, result := HandleSource(client, job, hostId, urlSources[i]);
      if result.Failure? {
        return result;
      }
    }
    return Success(());
  }
}
