/**
  `AuthService`: the object that owns the configuration, the current auth
  state, the pending external-agent session and the stored auth-state slot,
  and changes them in place. Each method is proved to perform the transition
  of the same name in module AuthMachine, where the properties of those
  transitions are stated and proved.
*/
module AuthService {
  import opened Foundation
  import opened AppAuth
  import M = AuthMachine

  class AuthService {
    /** The constants and foreign services the object works with. */
    const env: M.Env
    /** The resolved endpoints; absent when they do not all parse. */
    const config: Option<ServiceConfig>
    /** The current auth state. */
    var authState: Option<AuthState>
    /** `currentAuthorizationFlow`: the session a redirect may resume. */
    var pending: Option<Session>
    /** The persistent key-value store (`UserDefaults.standard`). */
    var store: map<string, Blob>

    /** The object's state as a value. */
    function Snapshot(): M.State
      reads this
    {
      M.State(config, authState, pending, store)
    }

    /** `isLoggedIn` */
    function IsLoggedIn(): (r: bool)
      reads this
      ensures authState.None? ==> !r
      ensures authState.Some? ==> (r <==> IsAuthorized(authState.value))
      ensures r == M.LoggedIn(Snapshot())
    {
      match authState
      case Some(a) => IsAuthorized(a)
      case None => false
    }

    /**
      `init`: resolve the endpoints, then load the saved state from the
      store as it was found at launch.
    */
    constructor (env: M.Env, stored: map<string, Blob>)
      ensures this.env == env
      ensures Snapshot() == M.Init(env, stored)
    {
      this.env := env;
      var authUrl := env.parseUrl(env.settings.baseUrl + env.settings.authUri);
      var tokenUrl := env.parseUrl(env.settings.baseUrl + env.settings.tokenUri);
      var endSessionUrl := env.parseUrl(env.settings.baseUrl + env.settings.endSessionUri);
      if authUrl.Some? && tokenUrl.Some? && endSessionUrl.Some? {
        config := Some(ServiceConfig(authUrl.value, tokenUrl.value, None, None, endSessionUrl));
      } else {
        config := None;
      }
      authState := None;
      pending := None;
      store := stored;
      new;
      LoadState();
    }

    /** `login` */
    method Login()
      requires config.Some? ==> env.parseUrl(env.settings.callbackUrl).Some?
      modifies this
      ensures Snapshot() == M.Login(env, old(Snapshot()))
    {
      if config.None? {
        return;
      }
      var redirectUrl := env.parseUrl(env.settings.callbackUrl).value;
      var request := AuthorizationRequest(
        config.value, env.settings.clientId, None, env.settings.scopes, redirectUrl,
        env.settings.responseType, map["servicename" := env.settings.servicename]);
      pending := Some(AuthorizationSession(request));
    }

    /**
      The authorization callback of `login`. Returns what it passes to the
      completion and the token request it starts, if any.
    */
    method OnAuthorization(response: Option<AuthorizationResponse>, error: Option<Error>)
      returns (completion: Option<M.LoginResult>, exchange: Option<TokenRequest>)
      modifies this
      ensures var r := M.OnAuthorization(old(Snapshot()), response, error);
              Snapshot() == r.state && completion == r.completion && exchange == r.exchange
    {
      completion, exchange := None, None;
      if response.Some? {
        completion, exchange := PerformTokenExchange(response.value);
      } else if error.Some? {
        ClearState();
        completion := Some(M.LoginFailed(error.value));
      }
    }

    /** `performTokenExchange` */
    method PerformTokenExchange(response: AuthorizationResponse)
      returns (completion: Option<M.LoginResult>, exchange: Option<TokenRequest>)
      ensures var r := M.PerformTokenExchange(Snapshot(), response);
              completion == r.completion && exchange == r.exchange
    {
      if response.tokenExchangeRequest.None? {
        completion, exchange := Some(M.LoginFailed(M.TokenRequestError)), None;
        return;
      }
      completion, exchange := None, response.tokenExchangeRequest;
    }

    /** The token-exchange callback of `performTokenExchange`. */
    method OnTokenExchange(response: AuthorizationResponse, tokenResponse: Option<TokenResponse>,
                           tokenError: Option<Error>)
      returns (completion: Option<M.LoginResult>)
      modifies this
      ensures var r := M.OnTokenExchange(env, old(Snapshot()), response, tokenResponse, tokenError);
              Snapshot() == r.state && completion == r.completion
    {
      completion := None;
      if tokenResponse.Some? {
        SetAuthState(Some(AuthStateFrom(response, tokenResponse.value)));
        completion := Some(M.LoginSucceeded);
      } else if tokenError.Some? {
        ClearState();
        completion := Some(M.LoginFailed(tokenError.value));
      }
    }

    /** `logout`. Returns what it passes to the completion, if it calls it. */
    method Logout() returns (completion: Option<Option<Error>>)
      modifies this
      ensures var r := M.Logout(env, old(Snapshot()));
              Snapshot() == r.state && completion == r.completion
    {
      if authState.None? {
        return Some(None);
      }
      if config.None? {
        return None;
      }
      var idToken := LastTokenIdToken(authState.value);
      var postLogoutRedirectUrl := env.parseUrl(env.settings.logoutCallbackUrl);
      if idToken.None? || config.value.endSessionEndpoint.None? || postLogoutRedirectUrl.None? {
        ClearState();
        return Some(None);
      }
      var request := EndSessionRequest(
        config.value, idToken.value, postLogoutRedirectUrl.value,
        map["redirect_uri" := env.settings.logoutCallbackUrl]);
      pending := Some(EndSessionSession(request));
      completion := None;
    }

    /** The end-session callback of `logout`. */
    method OnEndSession(error: Option<Error>) returns (completion: Option<Option<Error>>)
      modifies this
      ensures var r := M.OnEndSession(old(Snapshot()), error);
              Snapshot() == r.state && completion == r.completion
    {
      ClearState();
      completion := Some(error);
    }

    /** `setAuthState` */
    method SetAuthState(a: Option<AuthState>)
      modifies this
      ensures Snapshot() == M.SetAuthState(env, old(Snapshot()), a)
    {
      authState := a;
      SaveState();
    }

    /** `saveState` */
    method SaveState()
      modifies this
      ensures Snapshot() == M.SaveState(env, old(Snapshot()))
    {
      if authState.None? {
        ClearState();
        return;
      }
      var data := env.archive(authState.value);
      if data.Some? {
        store := store[M.AuthStateKey := data.value];
      }
    }

    /** `loadState` */
    method LoadState()
      modifies this
      ensures Snapshot() == M.LoadState(env, old(Snapshot()))
    {
      if M.AuthStateKey !in store {
        return;
      }
      var data := store[M.AuthStateKey];
      match env.unarchive(data)
      case Unarchived(a) =>
        authState := a;
      case UnarchiveFailed =>
        ClearState();
    }

    /** `clearState` */
    method ClearState()
      modifies this
      ensures Snapshot() == M.ClearState(old(Snapshot()))
    {
      store := store - {M.AuthStateKey};
      authState := None;
    }
  }
}
