/** The request gate every page and API request passes through: which paths are open
    without a session, and where a request is redirected. */
module Middleware {
  import opened Text

  const LOGIN: string := "/login"
  const HOME: string := "/"

  /** `isPublicRoute`: the login page, the auth callback, the favicon, and anything under
      `/_next` or `/api/auth`. */
  predicate IsPublicRoute(path: string)
    ensures StartsWith(path, "/api/") && !StartsWith(path, "/api/auth") ==> !IsPublicRoute(path)
    ensures StartsWith(path, "/api/auth") ==> IsPublicRoute(path)
  {
    assert StartsWith(path, "/api/") ==>
      path != LOGIN && path != "/auth/callback" && !StartsWith(path, "/_next") && path != "/favicon.ico" by {
      if StartsWith(path, "/api/") {
        assert path[1] == 'a' && path[2] == 'p';
        assert LOGIN[1] == 'l';
        assert "/auth/callback"[2] == 'u';
        assert "/_next"[1] == '_';
        assert "/favicon.ico"[1] == 'f';
      }
    }
    path == LOGIN || path == "/auth/callback" || StartsWith(path, "/_next")
    || StartsWith(path, "/api/auth") || path == "/favicon.ico"
  }

  /** What the gate does with a request: lets it through, or redirects it to the same URL
      with its path replaced. */
  datatype Decision = PassThrough | Redirect(pathname: string)

  /** The decision for a request on `path`, with or without a signed-in user. */
  function Decide(hasUser: bool, path: string): (d: Decision)
    ensures !hasUser && !IsPublicRoute(path) ==> d == Redirect(LOGIN)
    ensures hasUser && path == LOGIN ==> d == Redirect(HOME)
    ensures d == PassThrough <==> (hasUser && path != LOGIN) || (!hasUser && IsPublicRoute(path))
  {
    if !hasUser && !IsPublicRoute(path) then Redirect(LOGIN)
    else if hasUser && path == LOGIN then Redirect(HOME)
    else PassThrough
  }

  /** Every redirect goes to the login page or to the home page. */
  lemma RedirectTargets(hasUser: bool, path: string)
    ensures Decide(hasUser, path).Redirect? ==>
      Decide(hasUser, path).pathname == LOGIN || Decide(hasUser, path).pathname == HOME
  {
  }

  /** A request for the login page without a session is let through: the gate never
      redirects the login page to itself. */
  lemma LoginPageOpenWithoutSession()
    ensures Decide(false, LOGIN) == PassThrough
  {
  }

  /** Following a redirect with the same session is let through, so no request is
      redirected twice in a row. */
  lemma NoRedirectLoop(hasUser: bool, path: string)
    ensures Decide(hasUser, path).Redirect? ==>
      Decide(hasUser, Decide(hasUser, path).pathname) == PassThrough
  {
    if Decide(hasUser, path).Redirect? && hasUser {
      assert HOME != LOGIN by { assert |HOME| != |LOGIN|; }
    }
  }

  /** Public paths are never redirected for want of a session, and a signed-in user is
      redirected only away from the login page. */
  lemma RedirectReasons(hasUser: bool, path: string)
    ensures IsPublicRoute(path) && !hasUser ==> Decide(hasUser, path) == PassThrough
    ensures hasUser && Decide(hasUser, path).Redirect? ==> path == LOGIN
  {
  }
}
