# DemoAuthCloudApper authentication core, in Dafny

This project models the OAuth2 / OpenID Connect client core of the
DemoAuthCloudApper iOS app:

- `AuthService`, the singleton that owns the resolved service configuration,
  the current `OIDAuthState`, the pending external-agent session
  (`currentAuthorizationFlow`) and one slot of `UserDefaults` under the key
  `com.cloudapper.authState`;
- the redirect handler `application(_:open:options:)` of `AppDelegate`, which
  moves a fragment-only payload into the query and resumes the pending
  session at most once.

Files:

- `foundation.dfy`, module `Foundation`: optional values, URLs, URL components,
  archived bytes and `NSError`-shaped errors.
- `app_auth.dfy`, module `AppAuth`: the AppAuth values the service builds and
  keeps (requests, sessions, responses, `OIDAuthState`), with their internals
  left opaque.
- `auth_machine.dfy`, module `AuthMachine`: the service as a state machine over
  values. It has one function per method or asynchronous callback of
  `AuthService`, returning the new state and what is handed to `completion`
  (`None` when the completion is not called on that path). The properties of
  the service are stated in these functions' contracts and in lemmas beside them.
- `auth_service.dfy`, module `AuthService`: `class AuthService`, which changes its
  fields in place. Its methods call each other as the Swift methods do
  (`setAuthState` → `saveState` → `clearState`). Each is proved to perform the
  `AuthMachine` transition of the same name.
- `app_delegate.dfy`, module `AppDelegate`: the fragment-to-query rewrite, the
  choice of the URL to pass on, the resume-once dispatch as a function, and the
  imperative handler `Open` acting on an `AuthService` object.
- `flow.dfy`, module `Flow`: the service and the handler driven by any sequence
  of outside events (taps, library callbacks, redirects), and the properties
  that hold over every run.

Foreign behaviour enters as parameters:

- `Env.parseUrl` stands for `URL(string:)`.
- `Env.archive` and `Env.unarchive` stand for `NSKeyedArchiver` and
  `NSKeyedUnarchiver`. A failed archive is `None`. An unarchive can yield a
  state, yield nil without throwing, or throw.
- `UrlKit` stands for `URLComponents` and its `url`.
- `resume` stands for `resumeExternalUserAgentFlow(with:)`.
- The `tokenExchangeRequest` field of an authorization response is what
  `tokenExchangeRequest()` returns for it.

Each asynchronous callback is its own method. It takes the library's outcome
(a response, an error or neither) as input.

Where the code departs from a fail-closed, reject-while-pending design, the
model follows the code:

- When no token request can be built (`AuthService.swift:155-160`), login fails
  with code -1 and the auth state and store are left as they were. This path
  does not fail closed.
- `logout` with a state but no configuration returns without ever calling its
  completion (`AuthService.swift:114-117`).
- A second `login` or `logout` replaces the pending session without cancelling
  it (`AuthService.swift:81,141`). It is not rejected.
- The authorization and token callbacks never clear the pending session. Only
  the redirect handler does (`AppDelegate.swift:49`).
- A failed archive leaves the previously stored blob in the slot. Meanwhile the
  in-memory state is already the new one (`AuthService.swift:188-206`).

## Model

| member | source | states |
|---|---|---|
| AuthMachine.LoggedIn | DemoAuthCloudApper/AuthService.swift:22-24 | logged in only when a state is present, and then exactly when that state is authorized |
| AuthMachine.Init | DemoAuthCloudApper/AuthService.swift:28-50 | the configuration is present iff all three `baseUrl + path` strings parse, and it then holds those URLs with the end-session endpoint set; no session is pending; the saved state is loaded whether or not the configuration is valid (stored and unarchivable: loaded; unarchivable to nil: none; corrupt: none and slot removed) |
| AuthMachine.Login | DemoAuthCloudApper/AuthService.swift:60-81 | without a configuration nothing changes; with one, the pending session becomes an authorization request on that configuration with the configured client id, scopes and response type, the parsed callback URL as redirect URL, no client secret and the `servicename` parameter; the auth state and store are never touched; it only runs when the callback URL parses, since it is force-unwrapped there |
| AuthMachine.OnAuthorization | DemoAuthCloudApper/AuthService.swift:81-98 | a response goes on to the token exchange with state untouched; an error alone clears the state and fails with that error; neither does nothing; the pending session is never touched |
| AuthMachine.PerformTokenExchange | DemoAuthCloudApper/AuthService.swift:154-164 | no state change; no buildable token request means failure with the -1 `com.cloudapper.error` error and no exchange; otherwise no completion yet and the exchange starts with the library's request |
| AuthMachine.OnTokenExchange | DemoAuthCloudApper/AuthService.swift:164-183 | a token response installs and saves the state built from the two responses and completes with success; an error alone clears the state and fails with it; neither does nothing; the pending session and configuration are untouched |
| AuthMachine.Logout | DemoAuthCloudApper/AuthService.swift:108-141 | no state: completes with no error and changes nothing; no configuration: no completion and no change; missing id token, end-session endpoint or post-logout URL: clears locally and completes with no error; otherwise no completion, state and store kept, and an end-session session becomes pending on that configuration, with the id token as hint, the parsed logout callback URL as post-logout redirect URL and the `redirect_uri` parameter set to the logout callback string |
| AuthMachine.OnEndSession | DemoAuthCloudApper/AuthService.swift:141-146 | whatever the server answered, the state and slot are cleared and the error is forwarded unchanged; nothing else changes |
| AuthMachine.SetAuthState | DemoAuthCloudApper/AuthService.swift:188-191 | the in-memory state becomes the given one; none removes the slot; a successful archive writes it to the slot; a failed one leaves the store as it was |
| AuthMachine.SaveState | DemoAuthCloudApper/AuthService.swift:193-206 | the in-memory state is never changed; with no state it is clearState; an archive failure changes nothing; a successful archive is what the slot holds; other keys are untouched |
| AuthMachine.LoadState | DemoAuthCloudApper/AuthService.swift:208-222 | no stored data changes nothing; data that unarchives replaces the in-memory state and keeps the slot; data that fails to unarchive clears the state and the slot |
| AuthMachine.ClearState | DemoAuthCloudApper/AuthService.swift:224-228 | afterwards no state is held, the key is absent and the user is logged out; configuration, pending session and other keys are untouched |
| AuthMachine.ClearStateIdempotent | DemoAuthCloudApper/AuthService.swift:224-228 | clearing twice is the same as clearing once |
| AuthMachine.SaveWithoutStateClears | DemoAuthCloudApper/AuthService.swift:194-197 | saving with no state is exactly clearing |
| AuthMachine.ExchangeLogsIn | DemoAuthCloudApper/AuthService.swift:168-175 | after a token response with an access token the user is logged in, and the state's access token is that token |
| AuthMachine.LoginFailureFailsClosedOrChangesNothing | DemoAuthCloudApper/AuthService.swift:85-183 | every failure delivered to the login completion either cleared the state and slot, or (the -1 case) left everything unchanged; a failure from the token callback always clears |
| AuthMachine.LogoutCompletionMeansLoggedOut | DemoAuthCloudApper/AuthService.swift:108-146 | whenever logout or its callback calls the completion, no state is held and the user is logged out |
| AppAuth.AuthStateFrom | DemoAuthCloudApper/AuthService.swift:170 | the state built from a completed exchange records both responses and no error, takes its access token from the token response, and is authorized exactly when the token response carries an access, id or refresh token |
| AuthService.AuthService.IsLoggedIn | DemoAuthCloudApper/AuthService.swift:22-24 | false with no state, otherwise the state's `isAuthorized`; agrees with `LoggedIn` of the object's state |
| AuthService.AuthService.constructor | DemoAuthCloudApper/AuthService.swift:28-50 | the new object's state is `Init` of the launch-time store |
| AuthService.AuthService.Login | DemoAuthCloudApper/AuthService.swift:60-81 | the object's new state is `Login` of its old state |
| AuthService.AuthService.OnAuthorization | DemoAuthCloudApper/AuthService.swift:81-98 | new state, completion value and started exchange are those of `OnAuthorization` |
| AuthService.AuthService.PerformTokenExchange | DemoAuthCloudApper/AuthService.swift:154-164 | completion value and started exchange are those of `PerformTokenExchange`; nothing is modified |
| AuthService.AuthService.OnTokenExchange | DemoAuthCloudApper/AuthService.swift:164-183 | new state and completion value are those of `OnTokenExchange` |
| AuthService.AuthService.Logout | DemoAuthCloudApper/AuthService.swift:108-141 | new state and completion value are those of `Logout` |
| AuthService.AuthService.OnEndSession | DemoAuthCloudApper/AuthService.swift:141-146 | new state and completion value are those of `OnEndSession` |
| AuthService.AuthService.SetAuthState | DemoAuthCloudApper/AuthService.swift:188-191 | the object's new state is `SetAuthState` of its old state |
| AuthService.AuthService.SaveState | DemoAuthCloudApper/AuthService.swift:193-206 | the object's new state is `SaveState` of its old state |
| AuthService.AuthService.LoadState | DemoAuthCloudApper/AuthService.swift:208-222 | the object's new state is `LoadState` of its old state |
| AuthService.AuthService.ClearState | DemoAuthCloudApper/AuthService.swift:224-228 | the object's new state is `ClearState` of its old state |
| AppDelegate.MoveFragmentToQuery | DemoAuthCloudApper/AppDelegate.swift:40-43 | a fragment with no query becomes the query and the fragment is dropped; a URL that already has a query, or has no fragment, is unchanged; afterwards there is never a fragment without a query |
| AppDelegate.MoveFragmentToQueryIdempotent | DemoAuthCloudApper/AppDelegate.swift:40-43 | rewriting twice is rewriting once |
| AppDelegate.UrlToPass | DemoAuthCloudApper/AppDelegate.swift:38-45 | the original URL when components cannot be formed or rebuilt into a URL, otherwise the URL rebuilt from the rewritten components |
| AppDelegate.OpenUrl | DemoAuthCloudApper/AppDelegate.swift:47-53 | handled iff a session is pending and its resume accepts the URL to pass; a handled URL clears the pending session and changes nothing else; an unhandled one changes nothing |
| AppDelegate.HandledAtMostOnce | DemoAuthCloudApper/AppDelegate.swift:47-50 | right after a handled redirect, any second redirect is not handled |
| AppDelegate.Open | DemoAuthCloudApper/AppDelegate.swift:34-54 | the in-place handler answers as `OpenUrl` and leaves the service in `OpenUrl`'s state |
| Flow.Apply | DemoAuthCloudApper/AuthService.swift:14 | no event changes the service configuration |
| Flow.PendingAccountingStep | DemoAuthCloudApper/AppDelegate.swift:47-50 | a redirect is handled only by consuming a pending session; otherwise the pending slot changes only when a new session is put in it, and only `login` or `logout` do that |
| Flow.ResumesNeverExceedInstalls | DemoAuthCloudApper/AppDelegate.swift:47-50 | over any run, redirects handled plus the session left pending never exceed sessions installed plus the one pending at the start: each session is resumed at most once |
| Flow.FromLaunchResumesAtMostInstalls | DemoAuthCloudApper/AuthService.swift:28-50 | from the launched service, no run handles more redirects than it installed sessions |
| Flow.LogInStep | DemoAuthCloudApper/AuthService.swift:164-175 | the only event that takes a logged-out service to logged in is a token-exchange callback whose token response carries some token |
| Flow.LoggedInOnlyThroughTokenExchange | DemoAuthCloudApper/AuthService.swift:164-175 | any run that starts logged out and ends logged in contains a token-exchange callback whose token response carries some token |

## Left out

- The UI is not modelled: `ViewController.swift` (buttons, alerts, pasteboard, the
  "N/A" token fallback and the cancel-suppression check), the
  `didFinishLaunchingWithOptions` bootstrap, and the view controllers passed to
  `login` and `logout`.
- `AuthConfiguration.swift` holds only placeholder constants. They are the
  parameter `Settings`; the model fixes none of their values.
- AppAuth internals are left opaque. This covers how requests are serialised,
  PKCE, state-parameter validation inside `resumeExternalUserAgentFlow`, the
  token endpoint round trip, and building a token request from a response.
  These enter as inputs or function parameters.
- `AccessToken`, `IdToken`, `RefreshToken` and `IsAuthorized` follow AppAuth's
  documented getters: no token after an authorization error; access and id
  tokens from the last token response, else from the authorization response;
  authorized with no error and at least one token. The refresh token is taken
  from the last token response only; the library keeps an earlier one when a
  later response omits it, which no path of this service can produce. A state
  read back from storage is whatever `unarchive` yields, and its flag is
  derived from its fields in the same way.
- Resuming a session also fires that session's callback. In the model the
  callbacks are separate events that may arrive in any order, any number of
  times.
- `URL(string:)` and `URLComponents` are function parameters, not parsers.
  Percent-encoding changes when a fragment is moved into the query are part of
  that foreign behaviour.
- The archiver format and `UserDefaults` durability are left out. No save-then-load
  round trip is claimed, because the code does not establish one.
- Threading is left out: `DispatchQueue.main`, `[weak self]` and the presentation
  of the browser view. The service is a process-wide singleton that is never
  deallocated, so the `guard let self` checks never take their early return.
- `print` logging is left out.
- Cancelling a session and the accessors `currentAccessToken` /
  `currentRefreshToken` are not operations of `AuthService` in this code, so
  they are not modelled.
- AuthMachine.Login: `URL(string: callbackUrl)!` traps when the callback URL does
  not parse. The model makes that URL's validity a precondition of `login`, and
  only when a configuration is present.
