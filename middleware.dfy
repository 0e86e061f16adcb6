/**
 * The request guard that runs in front of the admin pages and the admin API
 * (middleware.js). It looks only at the request path and at whether the
 * session cookie is present; checking what the cookie holds is left to the
 * pages and routes themselves.
 */
module Middleware {
  import opened Wrappers
  import opened Text

  /** `sessionOptions.cookieName` in lib/session.js. */
  const SessionCookieName := "portal-creditos-session"

  const LoginPath := "/admin/login"
  const DashboardPath := "/admin/dashboard"
  const AuthRequiredMessage := "Autenticação necessária."

  /** The two parts of an incoming request the guard reads: `req.nextUrl.pathname` and the cookie jar. */
  datatype Request = Request(pathname: string, cookies: map<string, string>)

  datatype Outcome =
    /** `NextResponse.redirect` to `/admin/login?from=<from>`. */
    | RedirectToLogin(from: string)
    /** A 401 JSON response `{ message }`. */
    | Unauthorized(message: string)
    /** `NextResponse.redirect` to `/admin/dashboard`. */
    | RedirectToDashboard
    /** `NextResponse.next()`: the request goes on to its page or route. */
    | Continue

  /** `req.cookies.get(cookieName)?.value` */
  function SessionCookie(req: Request): Option<string> {
    if SessionCookieName in req.cookies then Some(req.cookies[SessionCookieName]) else None
  }

  /** `!sessionCookie` is false: the cookie was sent and its value is not empty. */
  predicate SignedIn(req: Request) {
    var cookie := SessionCookie(req);
    cookie.Some? && cookie.value != ""
  }

  /** The admin pages: every path that starts with `/admin`, other than the login page itself. */
  predicate IsProtectedPage(pathname: string) {
    StartsWith(pathname, "/admin") && pathname != LoginPath
  }

  predicate IsAdminApi(pathname: string) {
    StartsWith(pathname, "/api/admin")
  }

  function Guard(req: Request): (r: Outcome)
    // Admin pages without a session go to the login page, which is told where the visitor came from.
    ensures r.RedirectToLogin? <==> IsProtectedPage(req.pathname) && !SignedIn(req)
    ensures r.RedirectToLogin? ==> r.from == req.pathname
    // The admin API without a session is refused with a 401, never redirected.
    ensures r.Unauthorized? <==> IsAdminApi(req.pathname) && !SignedIn(req)
    ensures r.Unauthorized? ==> r.message == AuthRequiredMessage
    // A visitor with a session who opens the login page is sent to the dashboard.
    ensures r.RedirectToDashboard? <==> req.pathname == LoginPath && SignedIn(req)
    // Everything else goes through untouched.
    ensures r.Continue? <==> (SignedIn(req) && req.pathname != LoginPath)
                             || (!IsProtectedPage(req.pathname) && !IsAdminApi(req.pathname)
                                 && req.pathname != LoginPath)
                             || (req.pathname == LoginPath && !SignedIn(req))
  {
    var sessionCookie := SessionCookie(req);
    var pathname := req.pathname;
    var present := sessionCookie.Some? && sessionCookie.value != "";
    assert IsAdminApi(pathname) ==> !StartsWith(pathname, "/admin") && pathname != LoginPath by {
      if IsAdminApi(pathname) {
        assert pathname[2] == 'p';
      }
    }
    if StartsWith(pathname, "/admin") && pathname != LoginPath && !present then
      RedirectToLogin(pathname)
    else if StartsWith(pathname, "/api/admin") && !present then
      Unauthorized(AuthRequiredMessage)
    else if pathname == LoginPath && present then
      RedirectToDashboard
    else
      Continue
  }

  /** The outcome depends on the path and on the cookie's presence, never on its value or other cookies. */
  lemma {:induction false} OnlyPathAndPresenceMatter(a: Request, b: Request)
    requires a.pathname == b.pathname && SignedIn(a) == SignedIn(b)
    ensures Guard(a) == Guard(b)
  {
  }

  /** Protection is a plain prefix test, so `/administrator` is guarded like an admin page. */
  lemma {:induction false} PrefixGuardsLookalikes(cookies: map<string, string>)
    requires SessionCookieName !in cookies
    ensures Guard(Request("/administrator", cookies)) == RedirectToLogin("/administrator")
  {
    assert StartsWith("/administrator", "/admin");
  }
}
