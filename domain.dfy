/**
 * The values the login flow exchanges with the identity provider, and the
 * outcome it posts to its caller.
 */
module Domain {
  import opened Wrappers

  /** Body of the authorization-code request: the client id and the redirect URI. */
  datatype AuthCodeRequest = AuthCodeRequest(clientId: string, redirectUri: string)

  /** Body of a successful authorization-code response. */
  datatype AuthorizationCode = AuthorizationCode(code: string)

  /** Body of a successful token response. */
  datatype AccessToken = AccessToken(accessToken: string, refreshToken: string)

  /** Which of the two login requests an entry point builds. */
  datatype LoginKind = ByCpf | ByUserName

  /**
   * The two login requests; both carry an identifier (the CPF or the user
   * name), the password and the brand.
   */
  datatype LoginRequest =
    | LoginCpfRequest(identifier: string, password: string, brand: string)
    | LoginUserRequest(identifier: string, password: string, brand: string)

  /**
   * The user profile returned by a successful login. `profile` stands for
   * every field the provider returns other than the two tokens, which the
   * flow fills in after login and which are null until then.
   */
  class User {
    var profile: map<string, string>
    var accessToken: Option<string>
    var refreshToken: Option<string>

    constructor (profile: map<string, string>)
      ensures this.profile == profile
      ensures accessToken == None && refreshToken == None
    {
      this.profile := profile;
      accessToken := None;
      refreshToken := None;
    }
  }

  /** The outcome posted to the caller (Kotlin's `BaseCommand`). */
  datatype BaseCommand =
    | Success(user: User)
    | Error(message: string)
    | TimeOut
    | Unauthorized
    | Forbidden
}
