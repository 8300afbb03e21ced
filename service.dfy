/** `DefaultZabbixService` (src/zabbix/service.rs): the login request and
    session, and the web-scenario create request. The HTTP call is a
    parameter `send`. */
module Service {
  import opened Wrappers
  import opened Config
  import opened Requests
  import opened Envelope
  import opened LegacyWebScenarios

  const LoginMethod: string := "user.login"
  const PasswordField: string := "password"
  const AuthErrorMessage: string := "authentication error"

  /** The login request: like the envelope, but with no `auth` member. */
  datatype AuthRequest = AuthRequest(
    jsonrpc: string,
    methodName: string,
    params: map<string, string>,
    id: int8,
    auth: Option<string>)

  /** The name the API version expects the user name under. */
  function UsernameField(version: ApiVersion): (field: string)
    ensures field != PasswordField
    ensures version == V6 ==> field == "username"
    ensures version == V5 ==> field == "user"
  {
    match version
    case V6 => "username"
    case V5 => "user"
  }

  /** `get_params`: exactly two entries, the user name under the version's
      field and the password under `password`. */
  function GetParams(version: ApiVersion, username: string, password: string): (params: map<string, string>)
    ensures params.Keys == {UsernameField(version), PasswordField}
    ensures |params| == 2
    ensures params[UsernameField(version)] == username && params[PasswordField] == password
  {
    map[UsernameField(version) := username, PasswordField := password]
  }

  function LoginRequest(version: ApiVersion, username: string, password: string): (r: AuthRequest)
    ensures r.jsonrpc == JsonRpc && r.methodName == LoginMethod && r.id == 1 && r.auth == None
    ensures r.params == GetParams(version, username, password)
  {
    AuthRequest(JsonRpc, LoginMethod, GetParams(version, username, password), 1, None)
  }

  /** `get_session`: the reply's string `result`; a transport failure and a
      reply that does not decode to one are errors. */
  function GetSession(version: ApiVersion, username: string, token: string,
                      send: AuthRequest -> Result<Reply, Error>): (r: Result<string, Error>)
    ensures var reply := send(LoginRequest(version, username, token));
      (reply.Failure? ==> r == Failure(Context(CommunicationErrorMessage, reply.error)))
      && (reply.Success? && reply.value.Parsed? && reply.value.result.Some? ==> r == Success(reply.value.result.value))
      && (reply.Success? && (reply.value.Unparseable? || reply.value.result.None?) ==>
            r == Failure(Context(AuthErrorMessage, DecodeError)))
  {
    match send(LoginRequest(version, username, token))
    case Failure(e) => Failure(Context(CommunicationErrorMessage, e))
    case Success(Parsed(Some(session), _)) => Success(session)
    case Success(_) => Failure(Context(AuthErrorMessage, DecodeError))
  }

  /** A Zabbix 6 login is `user.login` with the user name under `username`,
      a Zabbix 5 login under `user`. */
  lemma LoginParamsByVersion(username: string, password: string)
    ensures LoginRequest(V6, username, password).params == map["username" := username, "password" := password]
    ensures LoginRequest(V5, username, password).params == map["user" := username, "password" := password]
  {
  }

  /** `DefaultZabbixService::create_web_scenario`: the same request as the
      web-scenario helper; the reply body is not inspected. */
  function CreateWebScenario(authToken: string, url: string, hostId: string, cfg: LegacyScenarioConfig,
                             send: ZabbixRequest<CreateRequestParams> -> Result<Reply, Error>)
    : (r: Result<(), Error>)
    ensures r.Success? <==> send(ScenarioCreateRequest(authToken, cfg, url, hostId)).Success?
    ensures r.Failure? ==>
      r.error == Context("unable to create web scenario", send(ScenarioCreateRequest(authToken, cfg, url, hostId)).error)
  {
    LegacyWebScenarios.CreateWebScenario(authToken, cfg, url, hostId, send)
  }
}
