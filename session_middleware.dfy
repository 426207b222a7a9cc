/** The request guard that keeps signed-out visitors on the landing and auth
    pages and sends signed-in ones from the landing page to the dashboard. */
module SessionMiddleware {
  import opened Wrappers
  import opened Strings

  /** The landing page: the path `/` or the empty path. */
  predicate IsHomePage(path: string) {
    path == "/" || path == ""
  }

  /** The sign-in, sign-up and sign-out pages and the auth API. */
  predicate IsAuthPage(path: string) {
    StartsWith(path, "/login") || StartsWith(path, "/api/auth") ||
    StartsWith(path, "/signup") || StartsWith(path, "/logout")
  }

  datatype Decision =
    | PassThrough
    /** A redirect to `path` on the request's origin, with the `redirect`
        query parameter when one is set. */
    | Redirect(path: string, redirectParam: Option<string>)

  /** `updateSession`'s decision for a request to `path`. */
  function UpdateSession(hasSession: bool, path: string): (d: Decision)
    ensures !hasSession && IsHomePage(path) ==> d == PassThrough
    ensures hasSession && IsHomePage(path) ==> d == Redirect("/dashboard", None)
    ensures !hasSession && !IsHomePage(path) && !IsAuthPage(path) ==> d == Redirect("/login", Some(path))
    ensures d.Redirect? <==> IsHomePage(path) == hasSession && (hasSession || !IsAuthPage(path))
    ensures hasSession && !IsHomePage(path) ==> d == PassThrough
  {
    if !hasSession && IsHomePage(path) then PassThrough
    else if hasSession && IsHomePage(path) then Redirect("/dashboard", None)
    else if !hasSession && !IsAuthPage(path) then Redirect("/login", Some(path))
    else PassThrough
  }

  /** Redirects do not loop: the page a request is sent to passes through
      with the same session, and a signed-out visitor is never sent to the
      dashboard nor a signed-in one to the sign-in page. */
  lemma RedirectTargetPasses(hasSession: bool, path: string)
    ensures UpdateSession(hasSession, path).Redirect? ==>
              UpdateSession(hasSession, UpdateSession(hasSession, path).path) == PassThrough
    ensures UpdateSession(hasSession, path).Redirect? ==>
              (UpdateSession(hasSession, path).path == "/dashboard" <==> hasSession)
  {
    assert StartsWith("/login", "/login");
  }
}
