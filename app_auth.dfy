/**
  The values of the AppAuth library that the authentication core builds,
  stores or passes along. Their internals (PKCE, request serialisation, the
  token endpoint round trip) are not part of this model; a library answer that
  the core reads, such as whether a token request can be built from an
  authorization response, is carried as a field of the value it comes from.
*/
module AppAuth {
  import opened Foundation

  /** `OIDServiceConfiguration`: the endpoints the service talks to. */
  datatype ServiceConfig = ServiceConfig(
    authorizationEndpoint: Url,
    tokenEndpoint: Url,
    issuer: Option<Url>,
    registrationEndpoint: Option<Url>,
    endSessionEndpoint: Option<Url>)

  /** `OIDAuthorizationRequest`, as the service fills it in. */
  datatype AuthorizationRequest = AuthorizationRequest(
    configuration: ServiceConfig,
    clientId: string,
    clientSecret: Option<string>,
    scopes: seq<string>,
    redirectUrl: Url,
    responseType: string,
    additionalParameters: map<string, string>)

  /** `OIDEndSessionRequest`, as the service fills it in. */
  datatype EndSessionRequest = EndSessionRequest(
    configuration: ServiceConfig,
    idTokenHint: string,
    postLogoutRedirectUrl: Url,
    additionalParameters: map<string, string>)

  /**
    An `OIDExternalUserAgentSession`: the presented request that a redirect
    may later resume, tagged by the kind of request.
  */
  datatype Session =
    | AuthorizationSession(authorization: AuthorizationRequest)
    | EndSessionSession(endSession: EndSessionRequest)

  /** `OIDTokenRequest`: an opaque handle on the request the library builds. */
  datatype TokenRequest = TokenRequest(body: string)

  /**
    `OIDAuthorizationResponse`. `tokenExchangeRequest` is what the library's
    `tokenExchangeRequest()` returns for this response (absent when it cannot
    build one).
  */
  datatype AuthorizationResponse = AuthorizationResponse(
    authorizationCode: Option<string>,
    accessToken: Option<string>,
    idToken: Option<string>,
    tokenExchangeRequest: Option<TokenRequest>)

  /** `OIDTokenResponse`: every token is optional. */
  datatype TokenResponse = TokenResponse(
    accessToken: Option<string>,
    refreshToken: Option<string>,
    idToken: Option<string>)

  /** The token response carries at least one token. */
  predicate CarriesToken(t: TokenResponse) {
    t.accessToken.Some? || t.idToken.Some? || t.refreshToken.Some?
  }

  /**
    `OIDAuthState`: the last responses and the last authorization error. The
    library derives its tokens and its `isAuthorized` flag from these fields.
  */
  datatype AuthState = AuthState(
    lastAuthorizationResponse: Option<AuthorizationResponse>,
    lastTokenResponse: Option<TokenResponse>,
    authorizationError: Option<Error>)

  /**
    The library's `accessToken`: none after an authorization error, otherwise
    the last token response's, or failing that the authorization response's.
  */
  function AccessToken(a: AuthState): Option<string> {
    if a.authorizationError.Some? then None
    else match a.lastTokenResponse
      case Some(t) => t.accessToken
      case None =>
        match a.lastAuthorizationResponse
        case Some(r) => r.accessToken
        case None => None
  }

  /** The library's `idToken`, chosen as `accessToken` is. */
  function IdToken(a: AuthState): Option<string> {
    if a.authorizationError.Some? then None
    else match a.lastTokenResponse
      case Some(t) => t.idToken
      case None =>
        match a.lastAuthorizationResponse
        case Some(r) => r.idToken
        case None => None
  }

  /** The library's `refreshToken`: none after an authorization error. */
  function RefreshToken(a: AuthState): Option<string> {
    if a.authorizationError.Some? then None
    else match a.lastTokenResponse
      case Some(t) => t.refreshToken
      case None => None
  }

  /**
    The library's `isAuthorized`: no authorization error and at least one of
    an access, id or refresh token.
  */
  predicate IsAuthorized(a: AuthState) {
    a.authorizationError.None? && (AccessToken(a).Some? || IdToken(a).Some? || RefreshToken(a).Some?)
  }

  /**
    `OIDAuthState(authorizationResponse:tokenResponse:)`: a state built from a
    completed exchange holds both responses and no error, its access token is
    the token response's, and it is authorized exactly when the token response
    carries some token.
  */
  function AuthStateFrom(response: AuthorizationResponse, tokenResponse: TokenResponse): (a: AuthState)
    ensures a.lastAuthorizationResponse == Some(response)
    ensures a.lastTokenResponse == Some(tokenResponse)
    ensures a.authorizationError.None?
    ensures AccessToken(a) == tokenResponse.accessToken
    ensures IsAuthorized(a) <==> CarriesToken(tokenResponse)
  {
    AuthState(Some(response), Some(tokenResponse), None)
  }

  /** `authState.lastTokenResponse?.idToken` */
  function LastTokenIdToken(a: AuthState): Option<string> {
    match a.lastTokenResponse
    case Some(t) => t.idToken
    case None => None
  }
}
