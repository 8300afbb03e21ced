/** The older web-scenario helpers (src/zabbix/webscenarios/create.rs and
    the records of src/zabbix/webscenarios/mod.rs). The HTTP call is a
    parameter `send`; its reply body is never inspected. */
module LegacyWebScenarios {
  import opened Wrappers
  import opened Config
  import opened Requests
  import opened Template
  import opened Envelope

  datatype WebScenarioStep = WebScenarioStep(name: string, url: string, statusCodes: string, no: uint8)

  datatype CreateRequestParams = CreateRequestParams(
    name: string,
    hostId: string,
    steps: seq<WebScenarioStep>,
    delay: string,
    retries: uint8)

  /** A web scenario as the prefetched list holds it. */
  datatype ZabbixWebScenario = ZabbixWebScenario(name: string)

  const CreateMethod: string := "httptest.create"
  const StepName: string := "Get page"
  const CreateErrorMessage: string := "unable to create web scenario"

  /** The name the existence check looks for. */
  function CheckName(url: string): string
  {
    "Check index page '" + url + "'"
  }

  /** The scenario name: the name template with HOST bound to the host id. */
  function ScenarioName(cfg: LegacyScenarioConfig, url: string, hostId: string): string
  {
    Substitute(cfg.name, TemplateVars(hostId, url))
  }

  /** The `httptest.create` envelope for one url. */
  function ScenarioCreateRequest(authToken: string, cfg: LegacyScenarioConfig, url: string, hostId: string)
    : ZabbixRequest<CreateRequestParams>
  {
    NewRequest(CreateMethod,
               CreateRequestParams(ScenarioName(cfg, url, hostId), hostId,
                                   [WebScenarioStep(StepName, url, cfg.expectStatusCode, 1)],
                                   cfg.updateInterval, cfg.attempts),
               authToken)
  }

  /** The request asks for one scenario, named from the template with HOST
      bound to the host id, with a single "Get page" step number 1 on the
      url, expecting the configured status code, polled at the update
      interval with the configured number of attempts. */
  lemma ScenarioCreateRequestContents(authToken: string, cfg: LegacyScenarioConfig, url: string, hostId: string)
    ensures var r := ScenarioCreateRequest(authToken, cfg, url, hostId);
      WellFormed(r) && r.methodName == CreateMethod && r.auth == authToken
      && r.params.name == Substitute(cfg.name, [(HostVar, hostId), (UrlVar, url)])
      && r.params.hostId == hostId
      && r.params.steps == [WebScenarioStep("Get page", url, cfg.expectStatusCode, 1)]
      && r.params.delay == cfg.updateInterval && r.params.retries == cfg.attempts
  {
  }

  /** `create_web_scenario`: one `httptest.create`, successful iff the
      transport is. */
  function CreateWebScenario(authToken: string, cfg: LegacyScenarioConfig, url: string, hostId: string,
                             send: ZabbixRequest<CreateRequestParams> -> Result<Reply, Error>)
    : (r: Result<(), Error>)
    ensures r.Success? <==> send(ScenarioCreateRequest(authToken, cfg, url, hostId)).Success?
    ensures r.Failure? ==>
      r.error == Context(CreateErrorMessage, send(ScenarioCreateRequest(authToken, cfg, url, hostId)).error)
  {
    match send(ScenarioCreateRequest(authToken, cfg, url, hostId))
    case Failure(e) => Failure(Context(CreateErrorMessage, e))
    case Success(_) => Success(())
  }

  /** `iter().find` by name. */
  function FindByName(scenarios: seq<ZabbixWebScenario>, name: string): (r: Option<ZabbixWebScenario>)
    ensures r.None? <==> ZabbixWebScenario(name) !in scenarios
    ensures r.Some? ==> r.value == ZabbixWebScenario(name)
  {
    if scenarios == [] then None
    else if scenarios[0].name == name then Some(scenarios[0])
    else FindByName(scenarios[1..], name)
  }

  /** `create_web_scenario_if_does_not_exists`, against the prefetched list. */
  function CreateWebScenarioIfDoesNotExists(authToken: string, cfg: LegacyScenarioConfig, url: string,
                                            host: ZabbixHost, scenarios: seq<ZabbixWebScenario>,
                                            send: ZabbixRequest<CreateRequestParams> -> Result<Reply, Error>)
    : (r: Attempt<CreateRequestParams>)
    ensures r.sent.Some? <==> ZabbixWebScenario(CheckName(url)) !in scenarios
    ensures r.sent.Some? ==> r.sent.value == ScenarioCreateRequest(authToken, cfg, url, host.hostId)
                             && r.result == CreateWebScenario(authToken, cfg, url, host.hostId, send)
    ensures r.sent.None? ==> r.result == Success(())
  {
    match FindByName(scenarios, CheckName(url))
    case None =>
      Attempt(Some(ScenarioCreateRequest(authToken, cfg, url, host.hostId)),
              CreateWebScenario(authToken, cfg, url, host.hostId, send))
    case Some(_) => Attempt(None, Success(()))
  }

  /** After a create, the server's list holds the created name. A second
      call then sends nothing iff that name is the one the check looks for
      (or the check's name was already listed). */
  lemma RerunSkipsOnlyOnCheckName(authToken: string, cfg: LegacyScenarioConfig, url: string,
                                  host: ZabbixHost, scenarios: seq<ZabbixWebScenario>,
                                  send: ZabbixRequest<CreateRequestParams> -> Result<Reply, Error>)
    requires ZabbixWebScenario(CheckName(url)) !in scenarios
    ensures var after := scenarios + [ZabbixWebScenario(ScenarioName(cfg, url, host.hostId))];
      CreateWebScenarioIfDoesNotExists(authToken, cfg, url, host, after, send).sent.None?
      <==> ScenarioName(cfg, url, host.hostId) == CheckName(url)
  {
  }

  /** A name template that does not render to the check's name: the
      rerun sends the same create again. */
  lemma RerunResendsCreate(send: ZabbixRequest<CreateRequestParams> -> Result<Reply, Error>)
    ensures var cfg := LegacyScenarioConfig("web ${URL}", "200", "1m", 3);
      var host := ZabbixHost("10105", "srv");
      var after := [ZabbixWebScenario(ScenarioName(cfg, "u", host.hostId))];
      CreateWebScenarioIfDoesNotExists("token", cfg, "u", host, after, send).sent.Some?
  {
    var cfg := LegacyScenarioConfig("web ${URL}", "200", "1m", 3);
    SubstituteKeepsPlainPrefix("web ", "${URL}", TemplateVars("10105", "u"));
    assert "web " + "${URL}" == cfg.name;
    var name := ScenarioName(cfg, "u", "10105");
    assert name[0] == 'w';
    assert CheckName("u")[0] == 'C';
  }

  /** The check done by the created name, as the helper's name promises. */
  function CreateWebScenarioIfMissing(authToken: string, cfg: LegacyScenarioConfig, url: string,
                                      host: ZabbixHost, scenarios: seq<ZabbixWebScenario>,
                                      send: ZabbixRequest<CreateRequestParams> -> Result<Reply, Error>)
    : (r: Attempt<CreateRequestParams>)
    ensures r.sent.Some? <==> ZabbixWebScenario(ScenarioName(cfg, url, host.hostId)) !in scenarios
  {
    match FindByName(scenarios, ScenarioName(cfg, url, host.hostId))
    case None =>
      Attempt(Some(ScenarioCreateRequest(authToken, cfg, url, host.hostId)),
              CreateWebScenario(authToken, cfg, url, host.hostId, send))
    case Some(_) => Attempt(None, Success(()))
  }

  /** With the corrected check, a rerun after a create sends nothing. */
  lemma RerunSendsNothing(authToken: string, cfg: LegacyScenarioConfig, url: string,
                          host: ZabbixHost, scenarios: seq<ZabbixWebScenario>,
                          send: ZabbixRequest<CreateRequestParams> -> Result<Reply, Error>)
    ensures var after := scenarios + [ZabbixWebScenario(ScenarioName(cfg, url, host.hostId))];
      CreateWebScenarioIfMissing(authToken, cfg, url, host, after, send) == Attempt(None, Success(()))
  {
    var after := scenarios + [ZabbixWebScenario(ScenarioName(cfg, url, host.hostId))];
    assert after[|after| - 1] == ZabbixWebScenario(ScenarioName(cfg, url, host.hostId));
  }
}
