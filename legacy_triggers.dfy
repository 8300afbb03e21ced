/** The older trigger helpers (src/zabbix/triggers/create.rs). The lookup
    by name and the HTTP call are parameters. */
module LegacyTriggers {
  import opened Wrappers
  import opened Config
  import opened Requests
  import opened Template
  import opened Envelope

  datatype TriggerParams = TriggerParams(description: string, expression: string, priority: string, url: string)

  /** A trigger as the lookup returns it. */
  datatype ZabbixTrigger = ZabbixTrigger(name: string)

  const CreateMethod: string := "trigger.create"
  const Priority: string := "4"
  const CreateErrorMessage: string := "unable to create trigger for url"

  /** The trigger name: the name template with HOST bound to the host name. */
  function TriggerName(cfg: LegacyTriggerConfig, host: string, url: string): string
  {
    Substitute(cfg.name, TemplateVars(host, url))
  }

  function TriggerCreateRequest(authToken: string, cfg: LegacyTriggerConfig, host: string, url: string)
    : ZabbixRequest<TriggerParams>
  {
    NewRequest(CreateMethod,
               TriggerParams(TriggerName(cfg, host, url), Substitute(cfg.value, TemplateVars(host, url)), Priority, url),
               authToken)
  }

  /** The request: `trigger.create`, description and expression templated
      with HOST and URL, priority "4", and the url as given, untemplated. */
  lemma TriggerCreateRequestContents(authToken: string, cfg: LegacyTriggerConfig, host: string, url: string)
    ensures var r := TriggerCreateRequest(authToken, cfg, host, url);
      WellFormed(r) && r.methodName == "trigger.create" && r.auth == authToken
      && r.params.description == Substitute(cfg.name, [(HostVar, host), (UrlVar, url)])
      && r.params.expression == Substitute(cfg.value, [(HostVar, host), (UrlVar, url)])
      && r.params.priority == "4" && r.params.url == url
  {
  }

  /** `create_trigger`: an error on transport failure, on a reply that is
      not JSON, or on a reply carrying an `error` member; success otherwise. */
  function CreateTrigger(authToken: string, cfg: LegacyTriggerConfig, host: string, url: string,
                         send: ZabbixRequest<TriggerParams> -> Result<Reply, Error>): (r: Result<(), Error>)
    ensures var reply := send(TriggerCreateRequest(authToken, cfg, host, url));
      (r.Success? <==> reply.Success? && reply.value.Parsed? && reply.value.error.None?)
      && (reply.Failure? ==> r == Failure(Context(CommunicationErrorMessage, reply.error)))
      && (reply.Success? && reply.value.Unparseable? ==> r == Failure(Context(UnsupportedResponseMessage, DecodeError)))
      && (reply.Success? && reply.value.Parsed? && reply.value.error.Some? ==> r == Failure(Message(CreateErrorMessage)))
  {
    match send(TriggerCreateRequest(authToken, cfg, host, url))
    case Failure(e) => Failure(Context(CommunicationErrorMessage, e))
    case Success(Unparseable) => Failure(Context(UnsupportedResponseMessage, DecodeError))
    case Success(Parsed(_, Some(_))) => Failure(Message(CreateErrorMessage))
    case Success(Parsed(_, None)) => Success(())
  }

  /** `create_trigger_if_does_not_exists`: a create is sent only when the
      lookup by the templated name succeeds and finds nothing; the outcome
      of the lookup and of the create is only logged, so the result is
      always success. */
  function CreateTriggerIfDoesNotExists(authToken: string, cfg: LegacyTriggerConfig, url: string, host: ZabbixHost,
                                        find: string -> Result<Option<ZabbixTrigger>, Error>,
                                        send: ZabbixRequest<TriggerParams> -> Result<Reply, Error>)
    : (r: Attempt<TriggerParams>)
    ensures r.result == Success(())
    ensures r.sent.Some? <==> find(TriggerName(cfg, host.host, url)) == Success(None)
    ensures r.sent.Some? ==> r.sent.value == TriggerCreateRequest(authToken, cfg, host.host, url)
  {
    match find(TriggerName(cfg, host.host, url))
    case Success(None) =>
      var created := CreateTrigger(authToken, cfg, host.host, url, send);
      Attempt(Some(TriggerCreateRequest(authToken, cfg, host.host, url)), Success(()))
    case _ => Attempt(None, Success(()))
  }

  /** The lookup of a server whose triggers are named `names`. */
  function FindIn(names: set<string>): string -> Result<Option<ZabbixTrigger>, Error>
  {
    name => if name in names then Success(Some(ZabbixTrigger(name))) else Success(None)
  }

  /** The lookup is by the name the create request gives the trigger, so
      once that trigger exists a rerun sends nothing. */
  lemma RerunSendsNothing(authToken: string, cfg: LegacyTriggerConfig, url: string, host: ZabbixHost,
                          names: set<string>, send: ZabbixRequest<TriggerParams> -> Result<Reply, Error>)
    ensures var first := CreateTriggerIfDoesNotExists(authToken, cfg, url, host, FindIn(names), send);
      first.sent.Some? ==>
        CreateTriggerIfDoesNotExists(authToken, cfg, url, host,
                                     FindIn(names + {first.sent.value.params.description}), send).sent.None?
  {
  }
}
