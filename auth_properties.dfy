/**
 * What the login flow promises, stated over `Flow` and proved for every
 * configuration, credential and provider script. `Classify` and
 * `Reported` are an independent reading of the flow: first find the stage
 * that stopped it and why, then look the outcome up in the status table.
 */
module RepositoryProperties {
  import opened Wrappers
  import opened Text
  import opened Domain
  import opened Collaborators
  import opened Repository

  /** The status that lets a stage hand its body on. */
  function SuccessCode(stage: Stage): int
  {
    match stage
    case AuthorizationCodeStage => HTTP_CREATED
    case AccessTokenStage => HTTP_CREATED
    case LoginStage => HTTP_OK
  }

  /** Position of a stage in the chain, from 1. */
  function Ordinal(stage: Stage): nat
  {
    match stage
    case AuthorizationCodeStage => 1
    case AccessTokenStage => 2
    case LoginStage => 3
  }

  /** A reply lets its stage hand a body on: the stage's own status and a non-null body. */
  predicate Passes<T>(reply: Reply<T>, success: int)
  {
    reply.Response? && reply.code == success && reply.body.Some?
  }

  /** Why the flow ended. */
  datatype Verdict =
    | LoggedIn(user: User, token: AccessToken)
    | BadStatus(stage: Stage, status: int)
    | EmptyBody(stage: Stage)
    | Raised(stage: Stage, message: Option<string>)

  function StageVerdict<T>(stage: Stage, reply: Reply<T>): (v: Verdict)
    requires !Passes(reply, SuccessCode(stage))
    ensures !v.LoggedIn? && v.stage == stage
  {
    match reply
    case Failure(m) => Raised(stage, m)
    case Response(code, _) => if code != SuccessCode(stage) then BadStatus(stage, code) else EmptyBody(stage)
  }

  /** The first stage whose reply does not pass, and how it failed. */
  function Classify(s: Script): Verdict
  {
    if !Passes(s.authorizationCode, HTTP_CREATED) then StageVerdict(AuthorizationCodeStage, s.authorizationCode)
    else if !Passes(s.accessToken, HTTP_CREATED) then StageVerdict(AccessTokenStage, s.accessToken)
    else if !Passes(s.login, HTTP_OK) then StageVerdict(LoginStage, s.login)
    else LoggedIn(s.login.body.value, s.accessToken.body.value)
  }

  /** The outcome table: what the caller receives for each way the flow can end. */
  function Reported(v: Verdict): seq<BaseCommand>
  {
    match v
    case LoggedIn(u, _) => [Success(u)]
    case BadStatus(_, status) =>
      if status == 401 then [Unauthorized] else if status == 403 then [Forbidden] else []
    case EmptyBody(_) => []
    case Raised(_, Some(m)) => [Error(m)]
    case Raised(_, None) => [TimeOut]
  }

  /** How many provider calls are made before the flow ends. */
  function CallsMade(v: Verdict): nat
  {
    if v.LoggedIn? then 3 else Ordinal(v.stage)
  }

  /**
   * The flow agrees with the reference reading: it posts what the table
   * says for the verdict, makes exactly the calls up to the stopping stage,
   * in stage order, and merges tokens exactly when it logs in.
   */
  lemma FlowFollowsVerdict(cfg: Config, kind: LoginKind, identifier: string, password: string, s: Script)
    ensures var tr, v := Flow(cfg, kind, identifier, password, s), Classify(s);
      && tr.posted == Reported(v)
      && |tr.calls| == CallsMade(v)
      && (forall i :: 0 <= i < |tr.calls| ==> Ordinal(tr.calls[i].StageOf()) == i + 1)
      && (tr.grant.Some? <==> v.LoggedIn?)
      && (v.LoggedIn? ==> tr.grant == Some(Grant(v.user, v.token)))
  {
  }

  /** Every invocation posts at most one outcome. */
  lemma PostsAtMostOnce(cfg: Config, kind: LoginKind, identifier: string, password: string, s: Script)
    ensures |Flow(cfg, kind, identifier, password, s).posted| <= 1
  {
  }

  /**
   * Short-circuiting: the token call is made exactly when the
   * authorization-code stage got 201 with a body, and the login call exactly
   * when the token stage did too.
   */
  lemma ShortCircuits(cfg: Config, kind: LoginKind, identifier: string, password: string, s: Script)
    ensures var calls := Flow(cfg, kind, identifier, password, s).calls;
      && 1 <= |calls| <= 3
      && calls[0].AuthCodeCall?
      && (|calls| >= 2 <==> Passes(s.authorizationCode, HTTP_CREATED))
      && (|calls| >= 2 ==> calls[1].AccessTokenCall?)
      && (|calls| == 3 <==> Passes(s.authorizationCode, HTTP_CREATED) && Passes(s.accessToken, HTTP_CREATED))
      && (|calls| == 3 ==> calls[2].LoginCall?)
  {
  }

  /**
   * A stage that stops on a status other than its own success status posts
   * Unauthorized for 401, Forbidden for 403 and nothing otherwise.
   */
  lemma StatusTable(cfg: Config, kind: LoginKind, identifier: string, password: string, s: Script)
    requires Classify(s).BadStatus?
    ensures Classify(s).status != SuccessCode(Classify(s).stage)
    ensures var posted := Flow(cfg, kind, identifier, password, s).posted;
      && (posted == [Unauthorized] <==> Classify(s).status == HTTP_UNAUTHORIZED)
      && (posted == [Forbidden] <==> Classify(s).status == HTTP_FORBIDDEN)
      && (posted == [] <==> Classify(s).status !in {HTTP_UNAUTHORIZED, HTTP_FORBIDDEN})
  {
  }

  /** A stage that answers its success status with a null body ends the flow silently. */
  lemma EmptyBodyIsSilent(cfg: Config, kind: LoginKind, identifier: string, password: string, s: Script)
    requires Classify(s).EmptyBody?
    ensures Flow(cfg, kind, identifier, password, s).posted == []
    ensures |Flow(cfg, kind, identifier, password, s).calls| == Ordinal(Classify(s).stage)
  {
  }

  /** A throw in any stage is caught: Error(message) when there is a message, TimeOut otherwise. */
  lemma ThrowIsCaught(cfg: Config, kind: LoginKind, identifier: string, password: string, s: Script)
    requires Classify(s).Raised?
    ensures var posted, m := Flow(cfg, kind, identifier, password, s).posted, Classify(s).message;
      && (m.Some? ==> posted == [Error(m.value)])
      && (m.None? ==> posted == [TimeOut])
    ensures |Flow(cfg, kind, identifier, password, s).calls| == Ordinal(Classify(s).stage)
  {
  }

  /**
   * Success is posted exactly when all three stages pass; it carries the
   * login stage's user, into which the token stage's pair is merged.
   */
  lemma SuccessMergesTokens(cfg: Config, kind: LoginKind, identifier: string, password: string, s: Script)
    ensures var tr := Flow(cfg, kind, identifier, password, s);
      (|tr.posted| == 1 && tr.posted[0].Success?) <==>
        Passes(s.authorizationCode, HTTP_CREATED) && Passes(s.accessToken, HTTP_CREATED) && Passes(s.login, HTTP_OK)
    ensures var tr := Flow(cfg, kind, identifier, password, s);
      tr.grant.Some? ==>
        && tr.posted == [Success(tr.grant.value.user)]
        && tr.grant.value.user == s.login.body.value
        && tr.grant.value.token == s.accessToken.body.value
  {
  }

  /**
   * Every call carries the fixed and configured values: the client id and
   * the redirect URI; the credentials, the grant type and stage 1's code;
   * the encoded login request, stage 2's access token and the client id.
   */
  lemma RequestsCarryConfiguredValues(cfg: Config, kind: LoginKind, identifier: string, password: string, s: Script)
    ensures var calls := Flow(cfg, kind, identifier, password, s).calls;
      && |calls| >= 1
      && calls[0] == AuthCodeCall(AuthCodeRequest(cfg.clientId, "http://localhost"))
      && (|calls| >= 2 ==>
            calls[1] == AccessTokenCall(cfg.credentials, "authorization_code", s.authorizationCode.body.value.code))
      && (|calls| == 3 ==>
            calls[2] == LoginCall(cfg.encode(BuildLoginRequest(kind, identifier, password, cfg.brand)),
                                  s.accessToken.body.value.accessToken, cfg.clientId))
  {
  }

  /** The two entry points differ only in the variant of the login request. */
  lemma EntryPointsDifferOnlyInRequest(cfg: Config, identifier: string, password: string, s: Script)
    ensures var byCpf, byUser := Flow(cfg, ByCpf, identifier, password, s), Flow(cfg, ByUserName, identifier, password, s);
      && byCpf.posted == byUser.posted
      && byCpf.grant == byUser.grant
      && |byCpf.calls| == |byUser.calls|
      && (|byCpf.calls| < 3 ==> byCpf.calls == byUser.calls)
      && (|byCpf.calls| == 3 ==>
            && byCpf.calls[..2] == byUser.calls[..2]
            && byCpf.calls[2].bearer == byUser.calls[2].bearer
            && byCpf.calls[2].clientId == byUser.calls[2].clientId)
  {
  }

  /** Login of "alice" / "Secret1" through three good replies. */
  lemma ScenarioUserNameSucceeds(cfg: Config, u: User)
    ensures var s := Script(Response(201, Some(AuthorizationCode("abc"))),
                            Response(201, Some(AccessToken("AT1", "RT1"))),
                            Response(200, Some(u)));
      var tr := Flow(cfg, ByUserName, "alice", "Secret1", s);
      && tr.posted == [Success(u)]
      && tr.grant == Some(Grant(u, AccessToken("AT1", "RT1")))
      && tr.calls[2] == LoginCall(cfg.encode(LoginUserRequest("alice", "SECRET1", cfg.brand)), "AT1", cfg.clientId)
  {
    assert ToUpper("Secret1") == "SECRET1";
  }

  /** The same login with a 400 from the token stage: nothing is posted, and no login call is made. */
  lemma ScenarioBadRequestIsSilent(cfg: Config, u: User)
    ensures var s := Script(Response(201, Some(AuthorizationCode("abc"))),
                            Response(400, None),
                            Response(200, Some(u)));
      var tr := Flow(cfg, ByUserName, "alice", "Secret1", s);
      tr.posted == [] && |tr.calls| == 2
  {
  }

  /** A transport failure at stage 1: its message is posted as Error, its absence as TimeOut. */
  lemma ScenarioConnectionFailure(cfg: Config, login: Reply<User>)
    ensures Flow(cfg, ByUserName, "alice", "Secret1",
                 Script(Failure(Some("connection reset")), Response(201, None), login)).posted
            == [Error("connection reset")]
    ensures Flow(cfg, ByUserName, "alice", "Secret1",
                 Script(Failure(None), Response(201, None), login)).posted
            == [TimeOut]
  {
  }

  /**
   * The "alice" / "Secret1" login on a repository, with the identity as the
   * encoding: the provider's own user object is delivered, carrying the
   * token pair.
   */
  method ScenarioDeliveredUser(brand: string) returns (data: SingleLiveEvent, u: User, api: AuthApi)
    ensures data.posted == [Success(u)]
    ensures u.accessToken == Some("AT1") && u.refreshToken == Some("RT1")
    ensures u.profile == map["id" := "u1"]
    ensures |api.calls| == 3
    ensures api.calls[2] == LoginCall(LoginUserRequest("alice", "SECRET1", brand), "AT1", "client")
  {
    u := new User(map["id" := "u1"]);
    api := new AuthApi(Script(Response(201, Some(AuthorizationCode("abc"))),
                              Response(201, Some(AccessToken("AT1", "RT1"))),
                              Response(200, Some(u))));
    var repo := new AuthRepository(api, "client", "secret", brand, r => r);
    data := repo.ByUsernameAndPass("alice", "Secret1");
    assert ToUpper("Secret1") == "SECRET1";
  }

  /** The same login with a 500 from the login stage: nothing is posted and the user is untouched. */
  method ScenarioLoginServerError(brand: string) returns (data: SingleLiveEvent, u: User)
    ensures data.posted == []
    ensures u.accessToken == None && u.refreshToken == None
    ensures u.profile == map["id" := "u1"]
  {
    u := new User(map["id" := "u1"]);
    var api := new AuthApi(Script(Response(201, Some(AuthorizationCode("abc"))),
                                  Response(201, Some(AccessToken("AT1", "RT1"))),
                                  Response(500, Some(u))));
    var repo := new AuthRepository(api, "client", "secret", brand, r => r);
    data := repo.ByUsernameAndPass("alice", "Secret1");
  }

  /**
   * Running the same scenario twice on one repository posts the same
   * outcomes both times: nothing carries over between invocations.
   */
  method SameScenarioTwice(repo: AuthRepository, kind: LoginKind, identifier: string, password: string)
    returns (first: SingleLiveEvent, second: SingleLiveEvent)
    modifies repo.api, LoginUsers(repo.api.script)
    ensures first.posted == second.posted
    ensures |first.posted| <= 1
  {
    first := repo.SignIn(kind, identifier, password);
    second := repo.SignIn(kind, identifier, password);
    PostsAtMostOnce(repo.Settings(), kind, identifier, password, repo.api.script);
  }
}
