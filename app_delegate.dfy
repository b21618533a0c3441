/**
  The redirect handler of the app delegate, `application(_:open:options:)`:
  it moves a fragment-only payload into the query, then offers the URL to the
  pending session and, when that session takes it, forgets the session.
*/
module AppDelegate {
  import opened Foundation
  import opened AppAuth
  import M = AuthMachine
  import S = AuthService

  /**
    `URLComponents(url:resolvingAgainstBaseURL:)` and `URLComponents.url`;
    either may fail.
  */
  datatype UrlKit = UrlKit(components: Url -> Option<UrlComponents>, url: UrlComponents -> Option<Url>)

  /** What the handler answers and the state it leaves. */
  datatype Dispatched = Dispatched(handled: bool, state: M.State)

  /**
    The rewrite of lines 40-43: a fragment with no query becomes the query and
    the fragment is dropped; any other combination is left alone.
  */
  function MoveFragmentToQuery(c: UrlComponents): (r: UrlComponents)
    ensures r.rest == c.rest
    ensures c.fragment.Some? && c.query.None? ==> r.query == c.fragment && r.fragment.None?
    ensures c.fragment.None? || c.query.Some? ==> r == c
    ensures r.fragment.Some? ==> r.query.Some?
  {
    if c.fragment.Some? && c.query.None? then c.(query := c.fragment, fragment := None) else c
  }

  /** Rewriting a rewritten URL changes nothing more. */
  lemma MoveFragmentToQueryIdempotent(c: UrlComponents)
    ensures MoveFragmentToQuery(MoveFragmentToQuery(c)) == MoveFragmentToQuery(c)
  {
  }

  /**
    `components?.url ?? url`: the rewritten URL, or the original one when the
    components cannot be formed or cannot be turned back into a URL.
  */
  function UrlToPass(kit: UrlKit, url: Url): (r: Url)
    ensures kit.components(url).None? ==> r == url
    ensures kit.components(url).Some? && kit.url(MoveFragmentToQuery(kit.components(url).value)).None? ==> r == url
    ensures kit.components(url).Some? && kit.url(MoveFragmentToQuery(kit.components(url).value)).Some? ==>
              r == kit.url(MoveFragmentToQuery(kit.components(url).value)).value
  {
    match kit.components(url)
    case None => url
    case Some(c) =>
      match kit.url(MoveFragmentToQuery(c))
      case Some(u) => u
      case None => url
  }

  /**
    The dispatch: handled exactly when a session is pending and its resume
    (`resumeExternalUserAgentFlow`) accepts the rewritten URL; a handled URL
    consumes the pending session, and nothing else changes in any case.
  */
  function OpenUrl(kit: UrlKit, resume: (Session, Url) -> bool, s: M.State, url: Url): (r: Dispatched)
    ensures r.handled <==> s.pending.Some? && resume(s.pending.value, UrlToPass(kit, url))
    ensures r.handled ==> r.state == s.(pending := None)
    ensures !r.handled ==> r.state == s
  {
    match s.pending
    case Some(session) =>
      if resume(session, UrlToPass(kit, url)) then Dispatched(true, s.(pending := None)) else Dispatched(false, s)
    case None => Dispatched(false, s)
  }

  /** Once a redirect has been handled, the next one is not. */
  lemma HandledAtMostOnce(kit: UrlKit, resume: (Session, Url) -> bool, s: M.State, first: Url, second: Url)
    requires OpenUrl(kit, resume, s, first).handled
    ensures !OpenUrl(kit, resume, OpenUrl(kit, resume, s, first).state, second).handled
  {
  }

  /** `application(_:open:options:)`, acting on the shared service. */
  method Open(service: S.AuthService, kit: UrlKit, resume: (Session, Url) -> bool, url: Url)
    returns (handled: bool)
    modifies service
    ensures var r := OpenUrl(kit, resume, old(service.Snapshot()), url);
            handled == r.handled && service.Snapshot() == r.state
  {
    var components := kit.components(url);
    if components.Some? && components.value.fragment.Some? && components.value.query.None? {
      components := Some(components.value.(query := components.value.fragment));
      components := Some(components.value.(fragment := None));
    }
    var urlToPass := url;
    if components.Some? {
      var rebuilt := kit.url(components.value);
      if rebuilt.Some? {
        urlToPass := rebuilt.value;
      }
    }
    if service.pending.Some? && resume(service.pending.value, urlToPass) {
      service.pending := None;
      return true;
    }
    return false;
  }
}
