/**
  The authentication service of DemoAuthCloudApper as a state machine over
  values: the service configuration, the current auth state, the pending
  external-agent session and the key-value store. Each function here is one
  method of `AuthService` (or one of its asynchronous callbacks) and returns
  the new state together with what, if anything, the method passes to the
  caller's `completion` closure. The class in module AuthService implements
  these transitions in place.
*/
module AuthMachine {
  import opened Foundation
  import opened AppAuth

  /** The store key under which the archived auth state is kept. */
  const AuthStateKey: string := "com.cloudapper.authState"

  /** The error reported when no token exchange request can be built. */
  const TokenRequestError: Error := Error("com.cloudapper.error", -1, "Failed to create token request.")

  /** The static `AuthConfiguration` constants, taken as parameters. */
  datatype Settings = Settings(
    baseUrl: string,
    authUri: string,
    tokenUri: string,
    endSessionUri: string,
    scopes: seq<string>,
    clientId: string,
    clientSecret: string,
    callbackUrl: string,
    logoutCallbackUrl: string,
    servicename: string,
    responseType: string)

  /**
    What `NSKeyedUnarchiver.unarchivedObject(ofClass:from:)` does with a blob:
    it returns an optional state, or throws.
  */
  datatype Unarchived = Unarchived(state: Option<AuthState>) | UnarchiveFailed

  /**
    The service's surroundings: its constants, `URL(string:)`, and the archiver
    (`archive` answers `None` where `archivedData` throws).
  */
  datatype Env = Env(
    settings: Settings,
    parseUrl: string -> Option<Url>,
    archive: AuthState -> Option<Blob>,
    unarchive: Blob -> Unarchived)

  /** The service's mutable world: its three fields and the store. */
  datatype State = State(
    config: Option<ServiceConfig>,
    authState: Option<AuthState>,
    pending: Option<Session>,
    store: map<string, Blob>)

  /** The value `login` passes to its completion: `Result<Void, Error>`. */
  datatype LoginResult = LoginSucceeded | LoginFailed(error: Error)

  /** A transition and the completion it delivers (`None`: completion is not called). */
  datatype Step<C> = Step(state: State, completion: Option<C>)

  /**
    A transition of the login flow that may also start a token exchange
    (`exchange` is the request handed to the token endpoint).
  */
  datatype AuthorizationStep = AuthorizationStep(
    state: State,
    completion: Option<LoginResult>,
    exchange: Option<TokenRequest>)

  /** Everything but the stored auth-state slot is the same in `s` and `r`. */
  ghost predicate SameOutsideSlot(s: State, r: State) {
    && r.config == s.config
    && r.pending == s.pending
    && r.store - {AuthStateKey} == s.store - {AuthStateKey}
  }

  /** `isLoggedIn`: `authState?.isAuthorized ?? false`. */
  predicate LoggedIn(s: State)
    ensures LoggedIn(s) ==> s.authState.Some?
    ensures s.authState.Some? ==> (LoggedIn(s) <==> IsAuthorized(s.authState.value))
  {
    match s.authState
    case Some(a) => IsAuthorized(a)
    case None => false
  }

  /** `baseUrl + path`, parsed. */
  function Endpoint(env: Env, path: string): Option<Url> {
    env.parseUrl(env.settings.baseUrl + path)
  }

  /** The three endpoints all parse. */
  predicate EndpointsResolve(env: Env) {
    && Endpoint(env, env.settings.authUri).Some?
    && Endpoint(env, env.settings.tokenUri).Some?
    && Endpoint(env, env.settings.endSessionUri).Some?
  }

  // ---------------------------------------------------------------------
  // Persistence

  /** `clearState`: drop the stored slot and forget the in-memory state. */
  function ClearState(s: State): (r: State)
    ensures r.authState == None && AuthStateKey !in r.store
    ensures !LoggedIn(r)
    ensures SameOutsideSlot(s, r)
  {
    s.(authState := None, store := s.store - {AuthStateKey})
  }

  /**
    `saveState`: archive the current state into the slot; with no state,
    clear; when archiving fails, change nothing.
  */
  function SaveState(env: Env, s: State): (r: State)
    ensures r.authState == s.authState
    ensures SameOutsideSlot(s, r)
    ensures s.authState.None? ==> r == ClearState(s)
    ensures s.authState.Some? && env.archive(s.authState.value).None? ==> r == s
    ensures s.authState.Some? && env.archive(s.authState.value).Some? ==>
              AuthStateKey in r.store && r.store[AuthStateKey] == env.archive(s.authState.value).value
  {
    match s.authState
    case None => ClearState(s)
    case Some(a) =>
      match env.archive(a)
      case Some(data) => s.(store := s.store[AuthStateKey := data])
      case None => s
  }

  /**
    `loadState`: with no stored data nothing changes; data that unarchives
    replaces the in-memory state (possibly by none); data that does not
    unarchive is cleared.
  */
  function LoadState(env: Env, s: State): (r: State)
    ensures SameOutsideSlot(s, r)
    ensures AuthStateKey !in s.store ==> r == s
    ensures AuthStateKey in s.store && env.unarchive(s.store[AuthStateKey]).Unarchived? ==>
              r.authState == env.unarchive(s.store[AuthStateKey]).state && r.store == s.store
    ensures AuthStateKey in s.store && env.unarchive(s.store[AuthStateKey]).UnarchiveFailed? ==>
              r == ClearState(s)
  {
    if AuthStateKey !in s.store then s
    else
      match env.unarchive(s.store[AuthStateKey])
      case Unarchived(a) => s.(authState := a)
      case UnarchiveFailed => ClearState(s)
  }

  /** `setAuthState`: replace the in-memory state, then save it. */
  function SetAuthState(env: Env, s: State, a: Option<AuthState>): (r: State)
    ensures r.authState == a
    ensures SameOutsideSlot(s, r)
    ensures a.None? ==> AuthStateKey !in r.store
    ensures a.Some? && env.archive(a.value).Some? ==>
              AuthStateKey in r.store && r.store[AuthStateKey] == env.archive(a.value).value
    ensures a.Some? && env.archive(a.value).None? ==> r.store == s.store
  {
    SaveState(env, s.(authState := a))
  }

  // ---------------------------------------------------------------------
  // Initialization

  /**
    `init`: resolve the three endpoints (the configuration is present only if
    all three parse), then load the saved state in either case, starting
    from no state and no pending session.
  */
  function Init(env: Env, stored: map<string, Blob>): (r: State)
    ensures r.config.Some? <==> EndpointsResolve(env)
    ensures r.config.Some? ==>
              && r.config.value.authorizationEndpoint == Endpoint(env, env.settings.authUri).value
              && r.config.value.tokenEndpoint == Endpoint(env, env.settings.tokenUri).value
              && r.config.value.endSessionEndpoint == Endpoint(env, env.settings.endSessionUri)
              && r.config.value.issuer.None? && r.config.value.registrationEndpoint.None?
    ensures r.pending.None?
    ensures r.authState ==
              if AuthStateKey in stored && env.unarchive(stored[AuthStateKey]).Unarchived?
              then env.unarchive(stored[AuthStateKey]).state
              else None
    ensures r.store ==
              if AuthStateKey in stored && env.unarchive(stored[AuthStateKey]).UnarchiveFailed?
              then stored - {AuthStateKey}
              else stored
  {
    var authUrl := Endpoint(env, env.settings.authUri);
    var tokenUrl := Endpoint(env, env.settings.tokenUri);
    var endSessionUrl := Endpoint(env, env.settings.endSessionUri);
    var config :=
      if authUrl.Some? && tokenUrl.Some? && endSessionUrl.Some?
      then Some(ServiceConfig(authUrl.value, tokenUrl.value, None, None, endSessionUrl))
      else None;
    LoadState(env, State(config, None, None, stored))
  }

  // ---------------------------------------------------------------------
  // Login

  /**
    The authorization request `login` presents. The callback URL is
    force-unwrapped in the source, so it must parse.
  */
  function LoginRequest(env: Env, config: ServiceConfig): AuthorizationRequest
    requires env.parseUrl(env.settings.callbackUrl).Some?
  {
    AuthorizationRequest(
      config, env.settings.clientId, None, env.settings.scopes,
      env.parseUrl(env.settings.callbackUrl).value, env.settings.responseType,
      map["servicename" := env.settings.servicename])
  }

  /**
    `login`: without a configuration, return without doing anything (the
    completion is never called); otherwise present an authorization request
    and make its session the pending one, replacing any earlier one. Login
    itself never calls the completion: its callbacks do.
  */
  function Login(env: Env, s: State): (r: State)
    requires s.config.Some? ==> env.parseUrl(env.settings.callbackUrl).Some?
    ensures s.config.None? ==> r == s
    ensures s.config.Some? ==>
              && r.pending.Some? && r.pending.value.AuthorizationSession?
              && r.pending.value.authorization.configuration == s.config.value
              && r.pending.value.authorization.clientId == env.settings.clientId
              && r.pending.value.authorization.clientSecret.None?
              && r.pending.value.authorization.scopes == env.settings.scopes
              && r.pending.value.authorization.redirectUrl == env.parseUrl(env.settings.callbackUrl).value
              && r.pending.value.authorization.responseType == env.settings.responseType
              && r.pending.value.authorization.additionalParameters == map["servicename" := env.settings.servicename]
    ensures r.config == s.config && r.authState == s.authState && r.store == s.store
  {
    match s.config
    case None => s
    case Some(config) => s.(pending := Some(AuthorizationSession(LoginRequest(env, config))))
  }

  /**
    `performTokenExchange`: when the library cannot build a token request,
    complete with the -1 error and leave everything as it was; otherwise
    start the exchange and wait for its callback.
  */
  function PerformTokenExchange(s: State, response: AuthorizationResponse): (r: AuthorizationStep)
    ensures r.state == s
    ensures response.tokenExchangeRequest.None? ==>
              r.completion == Some(LoginFailed(TokenRequestError)) && r.exchange.None?
    ensures response.tokenExchangeRequest.Some? ==>
              r.completion.None? && r.exchange == response.tokenExchangeRequest
  {
    match response.tokenExchangeRequest
    case None => AuthorizationStep(s, Some(LoginFailed(TokenRequestError)), None)
    case Some(request) => AuthorizationStep(s, None, Some(request))
  }

  /**
    The authorization callback of `login`: a response goes on to the token
    exchange; an error alone clears the state and fails the login; neither
    does nothing. The pending session is left as it is.
  */
  function OnAuthorization(s: State, response: Option<AuthorizationResponse>, error: Option<Error>): (r: AuthorizationStep)
    ensures r.state.pending == s.pending && r.state.config == s.config
    ensures response.Some? ==> r == PerformTokenExchange(s, response.value)
    ensures response.None? && error.Some? ==>
              && r.state == ClearState(s)
              && r.completion == Some(LoginFailed(error.value))
              && r.exchange.None?
    ensures response.None? && error.None? ==> r == AuthorizationStep(s, None, None)
  {
    if response.Some? then PerformTokenExchange(s, response.value)
    else if error.Some? then AuthorizationStep(ClearState(s), Some(LoginFailed(error.value)), None)
    else AuthorizationStep(s, None, None)
  }

  /**
    The token-exchange callback: a token response installs and saves the new
    state and completes with success; an error alone clears the state and
    fails; neither does nothing.
  */
  function OnTokenExchange(env: Env, s: State, response: AuthorizationResponse,
                           tokenResponse: Option<TokenResponse>, tokenError: Option<Error>): (r: Step<LoginResult>)
    ensures r.state.pending == s.pending && r.state.config == s.config
    ensures tokenResponse.Some? ==>
              && r.state == SetAuthState(env, s, Some(AuthStateFrom(response, tokenResponse.value)))
              && r.completion == Some(LoginSucceeded)
    ensures tokenResponse.None? && tokenError.Some? ==>
              r.state == ClearState(s) && r.completion == Some(LoginFailed(tokenError.value))
    ensures tokenResponse.None? && tokenError.None? ==> r == Step(s, None)
  {
    if tokenResponse.Some? then
      Step(SetAuthState(env, s, Some(AuthStateFrom(response, tokenResponse.value))), Some(LoginSucceeded))
    else if tokenError.Some? then
      Step(ClearState(s), Some(LoginFailed(tokenError.value)))
    else
      Step(s, None)
  }

  // ---------------------------------------------------------------------
  // Logout

  /** An end-session request can be built: id token, endpoint and redirect URL. */
  predicate CanEndSession(env: Env, a: AuthState, config: ServiceConfig) {
    && LastTokenIdToken(a).Some?
    && config.endSessionEndpoint.Some?
    && env.parseUrl(env.settings.logoutCallbackUrl).Some?
  }

  /** The end-session request `logout` presents. */
  function LogoutRequest(env: Env, a: AuthState, config: ServiceConfig): EndSessionRequest
    requires CanEndSession(env, a, config)
  {
    EndSessionRequest(
      config, LastTokenIdToken(a).value, env.parseUrl(env.settings.logoutCallbackUrl).value,
      map["redirect_uri" := env.settings.logoutCallbackUrl])
  }

  /**
    `logout`: with no state, complete with no error at once; with a state but
    no configuration, return without calling the completion; when no
    end-session request can be built, clear locally and complete with no
    error; otherwise present the request and make it the pending session.
  */
  function Logout(env: Env, s: State): (r: Step<Option<Error>>)
    ensures r.state.config == s.config
    ensures s.authState.None? ==> r == Step(s, Some(None))
    ensures s.authState.Some? && s.config.None? ==> r == Step(s, None)
    ensures s.authState.Some? && s.config.Some? && !CanEndSession(env, s.authState.value, s.config.value) ==>
              r == Step(ClearState(s), Some(None))
    ensures s.authState.Some? && s.config.Some? && CanEndSession(env, s.authState.value, s.config.value) ==>
              && r.completion.None?
              && r.state.authState == s.authState && r.state.store == s.store
              && r.state.pending.Some? && r.state.pending.value.EndSessionSession?
              && r.state.pending.value.endSession.configuration == s.config.value
              && r.state.pending.value.endSession.idTokenHint == LastTokenIdToken(s.authState.value).value
              && r.state.pending.value.endSession.postLogoutRedirectUrl == env.parseUrl(env.settings.logoutCallbackUrl).value
              && r.state.pending.value.endSession.additionalParameters == map["redirect_uri" := env.settings.logoutCallbackUrl]
  {
    match s.authState
    case None => Step(s, Some(None))
    case Some(a) =>
      match s.config
      case None => Step(s, None)
      case Some(config) =>
        if !CanEndSession(env, a, config) then Step(ClearState(s), Some(None))
        else Step(s.(pending := Some(EndSessionSession(LogoutRequest(env, a, config)))), None)
  }

  /**
    The end-session callback: whatever the server answered, clear the local
    state and pass the error (or its absence) on unchanged.
  */
  function OnEndSession(s: State, error: Option<Error>): (r: Step<Option<Error>>)
    ensures r.completion == Some(error)
    ensures r.state.authState.None? && AuthStateKey !in r.state.store
    ensures SameOutsideSlot(s, r.state)
  {
    Step(ClearState(s), Some(error))
  }

  // ---------------------------------------------------------------------
  // Properties relating several transitions

  /** Clearing twice is clearing once. */
  lemma ClearStateIdempotent(s: State)
    ensures ClearState(ClearState(s)) == ClearState(s)
  {
  }

  /** Saving with no state is clearing. */
  lemma SaveWithoutStateClears(env: Env, s: State)
    requires s.authState.None?
    ensures SaveState(env, s) == ClearState(s)
  {
  }

  /** A token response with an access token leaves the user logged in with that token. */
  lemma ExchangeLogsIn(env: Env, s: State, response: AuthorizationResponse, t: TokenResponse)
    requires t.accessToken.Some?
    ensures var r := OnTokenExchange(env, s, response, Some(t), None);
            LoggedIn(r.state) && AccessToken(r.state.authState.value) == t.accessToken
  {
  }

  /** Every login failure either clears the state or, for the -1 error, changes nothing. */
  lemma LoginFailureFailsClosedOrChangesNothing(env: Env, s: State, response: Option<AuthorizationResponse>,
                                                error: Option<Error>, tokenResponse: Option<TokenResponse>,
                                                tokenError: Option<Error>)
    ensures var r := OnAuthorization(s, response, error);
            r.completion.Some? && r.completion.value.LoginFailed? ==> r.state == ClearState(s) || r.state == s
    ensures response.Some? ==>
              var r := OnTokenExchange(env, s, response.value, tokenResponse, tokenError);
              r.completion.Some? && r.completion.value.LoginFailed? ==> r.state == ClearState(s)
  {
  }

  /** Whenever logout calls its completion, the user is logged out. */
  lemma LogoutCompletionMeansLoggedOut(env: Env, s: State, error: Option<Error>)
    ensures var r := Logout(env, s); r.completion.Some? ==> r.state.authState.None? && !LoggedIn(r.state)
    ensures var r := OnEndSession(s, error); r.completion.Some? && !LoggedIn(r.state)
  {
  }
}
