# Login orchestrator of the Fleury authentication library, in Dafny

This project models `AuthRepository`, the component that logs a user in
against the Fleury identity provider. A login is three provider calls in a
row:

1. an authorization code is requested with the client id and the fixed
   redirect URI `http://localhost`;
2. the code is exchanged for an access/refresh token pair, with the
   configured credentials and the grant type `authorization_code` (the
   authorization-code grant of section 4.1.3 of RFC 6749);
3. the login request (by CPF or by user name) is sent with the password
   upper-cased and the repository's brand, bearing the access token.

Stages 1 and 2 succeed only on 201, stage 3 only on 200. Any other status
goes to the error mapping, which posts `Unauthorized` for 401, `Forbidden`
for 403 and nothing for any other status, and the flow stops. A success
status with a null body also stops the flow, silently. A throw anywhere is
caught once at the top and posts `Error(message)`, or `TimeOut` when the
throwable has no message. When all three stages pass, the token pair is
written into the returned user in place and `Success(user)` is posted.

Layout:

- `wrappers.dfy` (`Wrappers`): `Option`, for Kotlin's nullable values.
- `text.dfy` (`Text`): ASCII upper-casing of the password.
- `domain.dfy` (`Domain`): the requests, the response bodies, the `User`
  class (its two token fields are written in place) and `BaseCommand`, the
  outcome posted to the caller.
- `collaborators.dfy` (`Collaborators`): the result channel
  (`SingleLiveEvent`, a class whose `posted` field logs every posted
  value) and the provider client (`AuthApi`, a scripted oracle that logs
  every call in `calls` and answers each stage with its scripted `Reply`:
  a status with an optional body, or a throw with an optional message).
- `auth_repository.dfy` (`Repository`): the constants, the pure case
  analyses of each stage (`StageExit`, `StagePosts`, `ErrorOutcome`,
  `CatchOutcome`), the specification function `Flow` of one invocation
  (calls made, outcomes posted, token merge), and the class
  `AuthRepository`, whose methods are proved against `Flow`.
- `auth_properties.dfy` (`RepositoryProperties`): an independent reading
  of the flow (`Classify` finds the first stage that did not pass and why,
  `Reported` is the outcome table) and the lemmas that connect it to
  `Flow`: at most one outcome, short-circuiting, the status table, the
  catch, the token merge, the request contents, and concrete scenarios.

An invocation posts at most one outcome, and it may post none: a
non-success status other than 401 or 403, or a success status with a null
body, ends the flow with nothing posted (`StatusTable`,
`EmptyBodyIsSilent`). A null body short-circuits through `?.let` without
throwing, so the catch never sees it.

## Model

| member | source | states |
|---|---|---|
| `Repository.AuthRepository.constructor` | app/src/main/java/br/com/fleury/auth/core/repository/AuthRepository.kt:11-16 | the repository keeps the api client, client id, credentials and brand it is built with |
| `Repository.AuthRepository.ByCpfAndPass` | app/src/main/java/br/com/fleury/auth/core/repository/AuthRepository.kt:19-38 | returns a fresh channel holding exactly the outcomes `Flow` posts for a CPF login; the provider sees exactly `Flow`'s calls; on success the user holds the token pair with its other fields unchanged, otherwise the user is untouched |
| `Repository.AuthRepository.ByUsernameAndPass` | app/src/main/java/br/com/fleury/auth/core/repository/AuthRepository.kt:56-71 | the same for a user-name login |
| `Repository.AuthRepository.SignIn` | app/src/main/java/br/com/fleury/auth/core/repository/AuthRepository.kt:23-37 | the shared body of both entry points (stages chained on non-null results, one catch) does exactly what `Flow` describes to the channel, the call log and the user |
| `Repository.AuthRepository.AuthCodeHandler` | app/src/main/java/br/com/fleury/auth/core/repository/AuthRepository.kt:73-82 | makes one authorization-code call with the client id and `http://localhost`; returns the body only on 201; otherwise posts the error mapping's outcome and returns null; a throw passes through |
| `Repository.AuthRepository.AccessTokenHandler` | app/src/main/java/br/com/fleury/auth/core/repository/AuthRepository.kt:84-93 | makes one token call with the credentials, `authorization_code` and the given code; returns the body only on 201; otherwise posts the error mapping's outcome and returns null |
| `Repository.AuthRepository.LoginHandler` | app/src/main/java/br/com/fleury/auth/core/repository/AuthRepository.kt:95-129 | both login handlers: sends the encoded request built from the identifier, the upper-cased password and the brand, with the access token and the client id; returns the user only on 200; otherwise posts the error mapping's outcome and returns null |
| `Repository.AuthRepository.ErrorResponseHandler` | app/src/main/java/br/com/fleury/auth/core/repository/AuthRepository.kt:131-136 | appends to the channel exactly the outcome `ErrorOutcome` gives for the status, and nothing when it gives none |
| `Repository.AuthRepository.CompleteUserData` | app/src/main/java/br/com/fleury/auth/core/repository/AuthRepository.kt:138-142 | writes both tokens into the same user object, which it returns; no other field of the user can change |
| `Repository.Flow` | app/src/main/java/br/com/fleury/auth/core/repository/AuthRepository.kt:23-37 | the calls made, the outcomes posted and the token merge of one invocation, stage by stage, with one catch; it makes one to three calls, and a merge always comes with `Success` of that same user |
| `Repository.ErrorOutcome` | app/src/main/java/br/com/fleury/auth/core/repository/AuthRepository.kt:131-135 | 401 and only 401 maps to `Unauthorized`, 403 and only 403 to `Forbidden`, every other status to no outcome |
| `Repository.CatchOutcome` | app/src/main/java/br/com/fleury/auth/core/repository/AuthRepository.kt:33-35 | a caught throwable posts `Error` with its message exactly when it has one, and `TimeOut` exactly when it has none |
| `Repository.StageExit` | app/src/main/java/br/com/fleury/auth/core/repository/AuthRepository.kt:75-81 | a stage returns a non-null value exactly when the reply has the stage's success status and a body, and then returns that body; it throws exactly when the call threw, with the same message |
| `Repository.StagePosts` | app/src/main/java/br/com/fleury/auth/core/repository/AuthRepository.kt:86-92 | a stage posts at most one outcome: `Unauthorized` exactly for a non-success 401, `Forbidden` exactly for a non-success 403, nothing otherwise (also on success and on a throw) |
| `Repository.BuildLoginRequest` | app/src/main/java/br/com/fleury/auth/core/repository/AuthRepository.kt:119 | the login request carries the caller's identifier, the password upper-cased (no lower-case letter left) and the brand; it is the CPF variant exactly for a CPF login (line 101 for the user-name variant) |
| `Text.ToUpper` | app/src/main/java/br/com/fleury/auth/core/repository/AuthRepository.kt:101 | upper-casing keeps the length and upper-cases each character on its own |
| `Text.ToUpperHasNoLower` | app/src/main/java/br/com/fleury/auth/core/repository/AuthRepository.kt:119 | the normalised password holds no lower-case letter |
| `Text.ToUpperIdempotent` | app/src/main/java/br/com/fleury/auth/core/repository/AuthRepository.kt:101 | normalising an already normalised password changes nothing |
| `Text.ToUpperFixesUpper` | app/src/main/java/br/com/fleury/auth/core/repository/AuthRepository.kt:119 | a password with no lower-case letter is sent as it is |
| `RepositoryProperties.FlowFollowsVerdict` | app/src/main/java/br/com/fleury/auth/core/repository/AuthRepository.kt:23-37 | the flow posts what the outcome table gives for the first failing stage, makes exactly the calls up to that stage in stage order, and merges tokens exactly when every stage passes |
| `RepositoryProperties.PostsAtMostOnce` | app/src/main/java/br/com/fleury/auth/core/repository/AuthRepository.kt:57-70 | every invocation posts at most one outcome |
| `RepositoryProperties.ShortCircuits` | app/src/main/java/br/com/fleury/auth/core/repository/AuthRepository.kt:25-27 | the first call is always the authorization-code call; the token call is made exactly when stage 1 got 201 with a body; the login call exactly when stages 1 and 2 both did |
| `RepositoryProperties.StatusTable` | app/src/main/java/br/com/fleury/auth/core/repository/AuthRepository.kt:131-135 | when the flow stops on a status, that status is not the stage's success status, and the flow posts `Unauthorized` exactly for 401, `Forbidden` exactly for 403, nothing otherwise |
| `RepositoryProperties.EmptyBodyIsSilent` | app/src/main/java/br/com/fleury/auth/core/repository/AuthRepository.kt:59-61 | a success status with a null body stops the flow at that stage with nothing posted |
| `RepositoryProperties.ThrowIsCaught` | app/src/main/java/br/com/fleury/auth/core/repository/AuthRepository.kt:67-68 | a throw in any stage stops the flow there and posts `Error(message)`, or `TimeOut` when there is no message |
| `RepositoryProperties.SuccessMergesTokens` | app/src/main/java/br/com/fleury/auth/core/repository/AuthRepository.kt:28-29 | `Success` is posted exactly when all three stages pass; it carries the login stage's user, and the merged tokens are the token stage's |
| `RepositoryProperties.RequestsCarryConfiguredValues` | app/src/main/java/br/com/fleury/auth/core/repository/AuthRepository.kt:145-146 | the calls carry the client id and `http://localhost`; the credentials, `authorization_code` and stage 1's code; the encoded login request, stage 2's access token and the client id |
| `RepositoryProperties.EntryPointsDifferOnlyInRequest` | app/src/main/java/br/com/fleury/auth/core/repository/AuthRepository.kt:56-71 | a CPF login and a user-name login with the same inputs post the same outcomes, merge the same tokens and make the same calls, except that the login call's request differs; its bearer token and client id are the same |
| `RepositoryProperties.ScenarioUserNameSucceeds` | app/src/main/java/br/com/fleury/auth/core/repository/AuthRepository.kt:61-63 | "alice"/"Secret1" with replies 201, 201, 200 posts `Success(u)` with tokens AT1/RT1 and sends the password as "SECRET1" |
| `RepositoryProperties.ScenarioBadRequestIsSilent` | app/src/main/java/br/com/fleury/auth/core/repository/AuthRepository.kt:86-92 | a 400 from the token stage posts nothing and makes no login call |
| `RepositoryProperties.ScenarioConnectionFailure` | app/src/main/java/br/com/fleury/auth/core/repository/AuthRepository.kt:33-35 | a stage-1 throw with message "connection reset" posts that `Error`; one with no message posts `TimeOut` |
| `RepositoryProperties.ScenarioDeliveredUser` | app/src/main/java/br/com/fleury/auth/core/repository/AuthRepository.kt:56-71 | on a repository built with replies 201, 201, 200, `byUsernameAndPass("alice", "Secret1")` posts exactly `Success(u)` for the provider's own user object, which now holds AT1/RT1 with its profile unchanged, and the login call carried "SECRET1" |
| `RepositoryProperties.ScenarioLoginServerError` | app/src/main/java/br/com/fleury/auth/core/repository/AuthRepository.kt:121-128 | the same login with a 500 from the login stage posts nothing and leaves the provider's user untouched |
| `RepositoryProperties.SameScenarioTwice` | app/src/main/java/br/com/fleury/auth/core/repository/AuthRepository.kt:19-38 | two invocations of the same scenario on one repository post the same outcomes, at most one each |

## Left out

- The dependency wiring (`Injection.kt`: Gson, OkHttp with 60-second timeouts, Retrofit) builds library objects and has no logic of its own.
- Network transport, `await()` and coroutine suspension: each provider call is a scripted reply (a status with an optional body, or a throw with an optional message). The script does not depend on the request; the requests are logged so that what was sent can be stated.
- `SingleLiveEvent` threading and delivery: the channel is modelled as the log of every posted value.
- `request.encode()`: its body is not part of this model. It is a function `encode` held by the repository and applied to the built request before it is sent; the model states what the request carries before encoding.
- `Text.ToUpper`: upper-cases ASCII letters only. Kotlin's `toUpperCase(Locale.getDefault())` also maps non-ASCII letters and depends on the locale.
- `Domain.User`: the Kotlin `User` class is not part of this model. The model assumes that its fields other than the two tokens form one map, that the two token fields are nullable, and that they are null until merged.
- The empty stubs `byEmail`, `byPhone`, `recoverMyPass` and `byCpfAndBirthday` have no behaviour.
- JSON (de)serialisation of the request and response types: they are plain datatypes. A body whose non-null fields the JSON layer left null is not modelled.
- A throw from anything other than the provider calls (the channel, the encoding) is not modelled.
