/**
  The service and the redirect handler driven by an arbitrary sequence of
  outside events (taps, library callbacks, incoming redirects), in any order
  and any number of times, and what holds of every such run.
*/
module Flow {
  import opened Foundation
  import opened AppAuth
  import opened AuthMachine
  import AppDelegate

  /** One event the outside world can deliver. */
  datatype Event =
    | LoginTapped
    | AuthorizationCallback(response: Option<AuthorizationResponse>, error: Option<Error>)
    | TokenExchangeCallback(authorization: AuthorizationResponse, tokenResponse: Option<TokenResponse>,
                            tokenError: Option<Error>)
    | LogoutTapped
    | EndSessionCallback(endSessionError: Option<Error>)
    | RedirectOpened(url: Url)

  /** Everything foreign the run depends on. */
  datatype World = World(env: Env, kit: AppDelegate.UrlKit, resume: (Session, Url) -> bool)

  /** The state after one event and whether a redirect was handled. */
  datatype Effect = Effect(state: State, handled: bool)

  /** The final state of a run, the sessions it installed and the redirects it handled. */
  datatype Trace = Trace(final: State, installs: nat, resumes: nat)

  /** `login` can build its request: the force-unwrapped callback URL parses. */
  predicate LoginPresentable(env: Env, s: State) {
    s.config.Some? ==> env.parseUrl(env.settings.callbackUrl).Some?
  }

  /** A session has been put in the pending slot that was not there before. */
  predicate Installs(s: State, r: State) {
    r.pending.Some? && r.pending != s.pending
  }

  /** One when a session is pending. */
  function Held(s: State): nat {
    if s.pending.Some? then 1 else 0
  }

  function Apply(w: World, s: State, e: Event): (r: Effect)
    requires LoginPresentable(w.env, s)
    ensures r.state.config == s.config
  {
    match e
    case LoginTapped => Effect(Login(w.env, s), false)
    case AuthorizationCallback(response, error) => Effect(OnAuthorization(s, response, error).state, false)
    case TokenExchangeCallback(response, tokenResponse, tokenError) =>
      Effect(OnTokenExchange(w.env, s, response, tokenResponse, tokenError).state, false)
    case LogoutTapped => Effect(Logout(w.env, s).state, false)
    case EndSessionCallback(error) => Effect(OnEndSession(s, error).state, false)
    case RedirectOpened(url) =>
      var d := AppDelegate.OpenUrl(w.kit, w.resume, s, url);
      Effect(d.state, d.handled)
  }

  /** Deliver the events one after the other, counting installs and resumes. */
  function Run(w: World, s: State, es: seq<Event>): (t: Trace)
    requires LoginPresentable(w.env, s)
    ensures t.final.config == s.config
    decreases |es|
  {
    if es == [] then Trace(s, 0, 0)
    else
      var step := Apply(w, s, es[0]);
      var rest := Run(w, step.state, es[1..]);
      Trace(rest.final,
            rest.installs + (if Installs(s, step.state) then 1 else 0),
            rest.resumes + (if step.handled then 1 else 0))
  }

  /**
    One event: a redirect is handled only by consuming a pending session, and
    the pending slot changes only by a new install or by that consumption.
  */
  lemma PendingAccountingStep(w: World, s: State, e: Event)
    requires LoginPresentable(w.env, s)
    ensures var r := Apply(w, s, e);
            && (r.handled ==> s.pending.Some? && r.state.pending.None?)
            && (!r.handled && !Installs(s, r.state) ==> r.state.pending == s.pending)
            && (Installs(s, r.state) ==> e.LoginTapped? || e.LogoutTapped?)
  {
  }

  /**
    Over any run, the redirects handled plus the session still pending at
    the end never exceed the sessions installed plus the one pending at the
    start: each pending session is resumed at most once.
  */
  lemma {:induction false} ResumesNeverExceedInstalls(w: World, s: State, es: seq<Event>)
    requires LoginPresentable(w.env, s)
    ensures var t := Run(w, s, es); t.resumes + Held(t.final) <= t.installs + Held(s)
    decreases |es|
  {
    if es != [] {
      var step := Apply(w, s, es[0]);
      PendingAccountingStep(w, s, es[0]);
      ResumesNeverExceedInstalls(w, step.state, es[1..]);
    }
  }

  /** From launch, no more redirects are handled than sessions were presented. */
  lemma FromLaunchResumesAtMostInstalls(w: World, stored: map<string, Blob>, es: seq<Event>)
    requires LoginPresentable(w.env, Init(w.env, stored))
    ensures Run(w, Init(w.env, stored), es).resumes <= Run(w, Init(w.env, stored), es).installs
  {
    ResumesNeverExceedInstalls(w, Init(w.env, stored), es);
  }

  /** One event logs the user in only if it is a token response carrying some token. */
  lemma LogInStep(w: World, s: State, e: Event)
    requires LoginPresentable(w.env, s)
    requires !LoggedIn(s) && LoggedIn(Apply(w, s, e).state)
    ensures e.TokenExchangeCallback? && e.tokenResponse.Some? && CarriesToken(e.tokenResponse.value)
  {
  }

  /**
    A run that starts logged out and ends logged in contains a token-exchange
    callback with a token response that carries some token.
  */
  lemma {:induction false} LoggedInOnlyThroughTokenExchange(w: World, s: State, es: seq<Event>)
    requires LoginPresentable(w.env, s)
    requires !LoggedIn(s) && LoggedIn(Run(w, s, es).final)
    ensures exists i :: 0 <= i < |es| && es[i].TokenExchangeCallback? && es[i].tokenResponse.Some?
                        && CarriesToken(es[i].tokenResponse.value)
    decreases |es|
  {
    var step := Apply(w, s, es[0]);
    if LoggedIn(step.state) {
      LogInStep(w, s, es[0]);
      assert es[0].TokenExchangeCallback?;
    } else {
      LoggedInOnlyThroughTokenExchange(w, step.state, es[1..]);
      var i :| 0 <= i < |es[1..]| && es[1..][i].TokenExchangeCallback? && es[1..][i].tokenResponse.Some?
               && CarriesToken(es[1..][i].tokenResponse.value);
      assert es[i + 1] == es[1..][i];
    }
  }
}
