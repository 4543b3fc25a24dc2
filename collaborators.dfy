/**
 * The two collaborators the login flow talks to: the result channel it
 * posts outcomes to, and the identity-provider client. Neither is part of
 * the repository's own logic; both are modelled only as far as the flow
 * observes them.
 */
module Collaborators {
  import opened Wrappers
  import opened Domain

  /** The result channel, as the log of every value posted to it. */
  class SingleLiveEvent {
    var posted: seq<BaseCommand>

    constructor ()
      ensures posted == []
    {
      posted := [];
    }

    method PostValue(value: BaseCommand)
      modifies this
      ensures posted == old(posted) + [value]
    {
      posted := posted + [value];
    }
  }

  /**
   * What awaiting one provider call yields: an HTTP response (status code
   * and a body that may be null), or a thrown failure whose message may be
   * null.
   */
  datatype Reply<T> =
    | Response(code: int, body: Option<T>)
    | Failure(message: Option<string>)

  /** The provider's reply to each of the three calls of one login. */
  datatype Script = Script(
    authorizationCode: Reply<AuthorizationCode>,
    accessToken: Reply<AccessToken>,
    login: Reply<User>)

  datatype Stage = AuthorizationCodeStage | AccessTokenStage | LoginStage

  /** One provider call, with every argument it was made with. */
  datatype Call =
    | AuthCodeCall(authRequest: AuthCodeRequest)
    | AccessTokenCall(credentials: string, grantType: string, code: string)
    | LoginCall(loginRequest: LoginRequest, bearer: string, clientId: string)
  {
    function StageOf(): Stage {
      match this
      case AuthCodeCall(_) => AuthorizationCodeStage
      case AccessTokenCall(_, _, _) => AccessTokenStage
      case LoginCall(_, _, _) => LoginStage
    }
  }

  /**
   * The identity-provider client as a scripted oracle: every call is
   * appended to `calls` and answered with the scripted reply for its stage.
   */
  class AuthApi {
    const script: Script
    var calls: seq<Call>

    constructor (script: Script)
      ensures this.script == script && calls == []
    {
      this.script := script;
      calls := [];
    }

    method RequestAuthorizationCode(request: AuthCodeRequest) returns (r: Reply<AuthorizationCode>)
      modifies this
      ensures calls == old(calls) + [AuthCodeCall(request)]
      ensures r == script.authorizationCode
    {
      calls := calls + [AuthCodeCall(request)];
      r := script.authorizationCode;
    }

    method RequestAccessToken(credentials: string, grantType: string, code: string) returns (r: Reply<AccessToken>)
      modifies this
      ensures calls == old(calls) + [AccessTokenCall(credentials, grantType, code)]
      ensures r == script.accessToken
    {
      calls := calls + [AccessTokenCall(credentials, grantType, code)];
      r := script.accessToken;
    }

    method RequestLogin(request: LoginRequest, accessToken: string, clientId: string) returns (r: Reply<User>)
      modifies this
      ensures calls == old(calls) + [LoginCall(request, accessToken, clientId)]
      ensures r == script.login
    {
      calls := calls + [LoginCall(request, accessToken, clientId)];
      r := script.login;
    }
  }
}
