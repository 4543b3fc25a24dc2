/**
 * The login orchestrator: three provider calls in a row (authorization
 * code, token exchange, login), each of which either hands its body on to
 * the next or stops the flow, posting at most one outcome to the caller.
 */
module Repository {
  import opened Wrappers
  import opened Text
  import opened Domain
  import opened Collaborators

  const HTTP_OK := 200
  const HTTP_CREATED := 201
  const HTTP_UNAUTHORIZED := 401
  const HTTP_FORBIDDEN := 403

  /** The redirect URI sent with every authorization-code request. */
  const REDIRECT_URI := "http://localhost"
  /** The authorization-code grant type of section 4.1.3 of RFC 6749. */
  const GRANT_TYPE_AUTHORIZATION_CODE := "authorization_code"

  /** How a stage handler leaves: returning a nullable value, or by a throw. */
  datatype Exit<T> = Returned(value: Option<T>) | Threw(message: Option<string>)

  /** The outcome `errorResponseHandler` posts for a status, if any. */
  function ErrorOutcome(code: int): (r: Option<BaseCommand>)
    ensures r == Some(Unauthorized) <==> code == HTTP_UNAUTHORIZED
    ensures r == Some(Forbidden) <==> code == HTTP_FORBIDDEN
    ensures r.None? <==> code != HTTP_UNAUTHORIZED && code != HTTP_FORBIDDEN
  {
    if code == HTTP_UNAUTHORIZED then Some(Unauthorized)
    else if code == HTTP_FORBIDDEN then Some(Forbidden)
    else None
  }

  /** The outcome the entry points' catch posts for a throwable's message. */
  function CatchOutcome(message: Option<string>): (r: BaseCommand)
    ensures r.Error? <==> message.Some?
    ensures r.Error? ==> message == Some(r.message)
    ensures r.TimeOut? <==> message.None?
  {
    match message
    case Some(m) => Error(m)
    case None => TimeOut
  }

  /**
   * What a stage handler returns for the provider's reply, given the one
   * status that means success for that stage.
   */
  function StageExit<T>(reply: Reply<T>, success: int): (r: Exit<T>)
    ensures r.Threw? <==> reply.Failure?
    ensures r.Threw? ==> r.message == reply.message
    ensures r.Returned? && r.value.Some? <==> reply.Response? && reply.code == success && reply.body.Some?
    ensures r.Returned? && r.value.Some? ==> r.value == reply.body
  {
    match reply
    case Failure(m) => Threw(m)
    case Response(code, body) => Returned(if code == success then body else None)
  }

  /** What a stage handler posts for the provider's reply. */
  function StagePosts<T>(reply: Reply<T>, success: int): (r: seq<BaseCommand>)
    ensures |r| <= 1
    ensures r == [Unauthorized] <==> reply.Response? && reply.code != success && reply.code == HTTP_UNAUTHORIZED
    ensures r == [Forbidden] <==> reply.Response? && reply.code != success && reply.code == HTTP_FORBIDDEN
    ensures r == [] <==> !(reply.Response? && reply.code != success && reply.code in {HTTP_UNAUTHORIZED, HTTP_FORBIDDEN})
  {
    match reply
    case Failure(_) => []
    case Response(code, _) => if code == success then [] else OptionToSeq(ErrorOutcome(code))
  }

  /** The login request an entry point builds, before it is encoded. */
  function BuildLoginRequest(kind: LoginKind, identifier: string, password: string, brand: string): (r: LoginRequest)
    ensures r.identifier == identifier && r.brand == brand
    ensures r.password == ToUpper(password)
    ensures forall i :: 0 <= i < |r.password| ==> !IsLower(r.password[i])
    ensures r.LoginCpfRequest? <==> kind == ByCpf
  {
    ToUpperHasNoLower(password);
    match kind
    case ByCpf => LoginCpfRequest(identifier, ToUpper(password), brand)
    case ByUserName => LoginUserRequest(identifier, ToUpper(password), brand)
  }

  /**
   * The repository's configuration; `encode` is the transformation the
   * login request undergoes before it is sent.
   */
  datatype Config = Config(
    clientId: string,
    credentials: string,
    brand: string,
    encode: LoginRequest -> LoginRequest)

  /** The user a successful login returned, with the token pair merged into it. */
  datatype Grant = Grant(user: User, token: AccessToken)

  /** What one invocation of the flow does: the calls made, the outcomes posted, the merge. */
  datatype Trace = Trace(calls: seq<Call>, posted: seq<BaseCommand>, grant: Option<Grant>)

  /**
   * The flow of `byCpfAndPass` / `byUsernameAndPass`: each stage's exit
   * decides whether the next stage runs; a throw anywhere is caught once at
   * the top.
   */
  function Flow(cfg: Config, kind: LoginKind, identifier: string, password: string, s: Script): (tr: Trace)
    ensures 1 <= |tr.calls| <= 3
    ensures tr.grant.Some? ==> tr.posted == [Success(tr.grant.value.user)]
  {
    var authCall := AuthCodeCall(AuthCodeRequest(cfg.clientId, REDIRECT_URI));
    match StageExit(s.authorizationCode, HTTP_CREATED)
    case Threw(m) => Trace([authCall], [CatchOutcome(m)], None)
    case Returned(None) => Trace([authCall], StagePosts(s.authorizationCode, HTTP_CREATED), None)
    case Returned(Some(authCode)) =>
      var tokenCall := AccessTokenCall(cfg.credentials, GRANT_TYPE_AUTHORIZATION_CODE, authCode.code);
      match StageExit(s.accessToken, HTTP_CREATED)
      case Threw(m) => Trace([authCall, tokenCall], [CatchOutcome(m)], None)
      case Returned(None) => Trace([authCall, tokenCall], StagePosts(s.accessToken, HTTP_CREATED), None)
      case Returned(Some(token)) =>
        var request := cfg.encode(BuildLoginRequest(kind, identifier, password, cfg.brand));
        var loginCall := LoginCall(request, token.accessToken, cfg.clientId);
        match StageExit(s.login, HTTP_OK)
        case Threw(m) => Trace([authCall, tokenCall, loginCall], [CatchOutcome(m)], None)
        case Returned(None) => Trace([authCall, tokenCall, loginCall], StagePosts(s.login, HTTP_OK), None)
        case Returned(Some(user)) => Trace([authCall, tokenCall, loginCall], [Success(user)], Some(Grant(user, token)))
  }

  /** The user object a login reply carries, the only object the flow may change. */
  function LoginUsers(s: Script): set<User>
  {
    match s.login
    case Response(_, Some(u)) => {u}
    case _ => {}
  }

  class AuthRepository {
    const api: AuthApi
    const clientId: string
    const credentials: string
    const brand: string
    const encode: LoginRequest -> LoginRequest

    constructor (api: AuthApi, clientId: string, credentials: string, brand: string, encode: LoginRequest -> LoginRequest)
      ensures this.api == api && this.clientId == clientId && this.credentials == credentials && this.brand == brand
      ensures this.encode == encode
    {
      this.api := api;
      this.clientId := clientId;
      this.credentials := credentials;
      this.brand := brand;
      this.encode := encode;
    }

    function Settings(): Config
    {
      Config(clientId, credentials, brand, encode)
    }

    /** Login by CPF and password. */
    method ByCpfAndPass(cpf: string, password: string) returns (data: SingleLiveEvent)
      modifies api, LoginUsers(api.script)
      ensures fresh(data)
      ensures var tr := Flow(Settings(), ByCpf, cpf, password, api.script);
        data.posted == tr.posted && api.calls == old(api.calls) + tr.calls
      ensures var g := Flow(Settings(), ByCpf, cpf, password, api.script).grant;
        g.Some? ==>
          && g.value.user.accessToken == Some(g.value.token.accessToken)
          && g.value.user.refreshToken == Some(g.value.token.refreshToken)
          && g.value.user.profile == old(g.value.user.profile)
      ensures Flow(Settings(), ByCpf, cpf, password, api.script).grant.None? ==> unchanged(LoginUsers(api.script))
    {
      data := SignIn(ByCpf, cpf, password);
    }

    /** Login by user name and password. */
    method ByUsernameAndPass(userName: string, password: string) returns (data: SingleLiveEvent)
      modifies api, LoginUsers(api.script)
      ensures fresh(data)
      ensures var tr := Flow(Settings(), ByUserName, userName, password, api.script);
        data.posted == tr.posted && api.calls == old(api.calls) + tr.calls
      ensures var g := Flow(Settings(), ByUserName, userName, password, api.script).grant;
        g.Some? ==>
          && g.value.user.accessToken == Some(g.value.token.accessToken)
          && g.value.user.refreshToken == Some(g.value.token.refreshToken)
          && g.value.user.profile == old(g.value.user.profile)
      ensures Flow(Settings(), ByUserName, userName, password, api.script).grant.None? ==> unchanged(LoginUsers(api.script))
    {
      data := SignIn(ByUserName, userName, password);
    }

    /**
     * The body shared by both entry points: the three stages chained on
     * non-null results, and one catch around them.
     */
    method SignIn(kind: LoginKind, identifier: string, password: string) returns (data: SingleLiveEvent)
      modifies api, LoginUsers(api.script)
      ensures fresh(data)
      ensures var tr := Flow(Settings(), kind, identifier, password, api.script);
        data.posted == tr.posted && api.calls == old(api.calls) + tr.calls
      ensures var g := Flow(Settings(), kind, identifier, password, api.script).grant;
        g.Some? ==>
          && g.value.user.accessToken == Some(g.value.token.accessToken)
          && g.value.user.refreshToken == Some(g.value.token.refreshToken)
          && g.value.user.profile == old(g.value.user.profile)
      ensures Flow(Settings(), kind, identifier, password, api.script).grant.None? ==> unchanged(LoginUsers(api.script))
    {
      data := new SingleLiveEvent();
      var authCode := AuthCodeHandler(data);
      match authCode
      case Threw(m) =>
        data.PostValue(CatchOutcome(m));
      case Returned(None) =>
      case Returned(Some(code)) =>
        var token := AccessTokenHandler(code.code, data);
        match token
        case Threw(m) =>
          data.PostValue(CatchOutcome(m));
        case Returned(None) =>
        case Returned(Some(tok)) =>
          var user := LoginHandler(kind, identifier, password, tok.accessToken, data);
          match user
          case Threw(m) =>
            data.PostValue(CatchOutcome(m));
          case Returned(None) =>
          case Returned(Some(u)) =>
            var completed := CompleteUserData(u, tok.accessToken, tok.refreshToken);
            data.PostValue(Success(completed));
    }

    /** Stage 1: request an authorization code; only 201 passes its body on. */
    method AuthCodeHandler(data: SingleLiveEvent) returns (r: Exit<AuthorizationCode>)
      modifies data, api
      ensures api.calls == old(api.calls) + [AuthCodeCall(AuthCodeRequest(clientId, REDIRECT_URI))]
      ensures r == StageExit(api.script.authorizationCode, HTTP_CREATED)
      ensures data.posted == old(data.posted) + StagePosts(api.script.authorizationCode, HTTP_CREATED)
    {
      var response := api.RequestAuthorizationCode(AuthCodeRequest(clientId, REDIRECT_URI));
      match response
      case Failure(m) =>
        r := Threw(m);
      case Response(code, body) =>
        if code == HTTP_CREATED {
          r := Returned(body);
        } else {
          ErrorResponseHandler(code, data);
          r := Returned(None);
        }
    }

    /** Stage 2: exchange the code for a token pair; only 201 passes its body on. */
    method AccessTokenHandler(code: string, data: SingleLiveEvent) returns (r: Exit<AccessToken>)
      modifies data, api
      ensures api.calls == old(api.calls) + [AccessTokenCall(credentials, GRANT_TYPE_AUTHORIZATION_CODE, code)]
      ensures r == StageExit(api.script.accessToken, HTTP_CREATED)
      ensures data.posted == old(data.posted) + StagePosts(api.script.accessToken, HTTP_CREATED)
    {
      var response := api.RequestAccessToken(credentials, GRANT_TYPE_AUTHORIZATION_CODE, code);
      match response
      case Failure(m) =>
        r := Threw(m);
      case Response(status, body) =>
        if status == HTTP_CREATED {
          r := Returned(body);
        } else {
          ErrorResponseHandler(status, data);
          r := Returned(None);
        }
    }

    /**
     * Stage 3, for either login request: build it with the password
     * upper-cased and the brand, encode it, send it with the bearer token and
     * the client id; only 200 passes the user on.
     */
    method LoginHandler(kind: LoginKind, identifier: string, password: string, accessToken: string, data: SingleLiveEvent)
      returns (r: Exit<User>)
      modifies data, api
      ensures api.calls == old(api.calls)
        + [LoginCall(encode(BuildLoginRequest(kind, identifier, password, brand)), accessToken, clientId)]
      ensures r == StageExit(api.script.login, HTTP_OK)
      ensures data.posted == old(data.posted) + StagePosts(api.script.login, HTTP_OK)
    {
      var request := BuildLoginRequest(kind, identifier, password, brand);
      request := encode(request);
      var response := api.RequestLogin(request, accessToken, clientId);
      match response
      case Failure(m) =>
        r := Threw(m);
      case Response(code, body) =>
        if code == HTTP_OK {
          r := Returned(body);
        } else {
          ErrorResponseHandler(code, data);
          r := Returned(None);
        }
    }

    /** Posts Unauthorized for 401, Forbidden for 403, and nothing for any other status. */
    method ErrorResponseHandler(code: int, data: SingleLiveEvent)
      modifies data
      ensures data.posted == old(data.posted) + OptionToSeq(ErrorOutcome(code))
    {
      if code == HTTP_UNAUTHORIZED {
        data.PostValue(Unauthorized);
      } else if code == HTTP_FORBIDDEN {
        data.PostValue(Forbidden);
      }
    }

    /** Writes the token pair into the user in place and returns that same user. */
    method CompleteUserData(user: User, accessToken: string, refreshToken: string) returns (completed: User)
      modifies user`accessToken, user`refreshToken
      ensures completed == user
      ensures user.accessToken == Some(accessToken) && user.refreshToken == Some(refreshToken)
    {
      user.accessToken := Some(accessToken);
      user.refreshToken := Some(refreshToken);
      completed := user;
    }
  }
}
