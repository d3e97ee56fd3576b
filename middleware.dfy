/** The request gate (middleware.ts): the login page and the home page
    always pass; any other path under the "/admin" prefix passes only with
    the admin-auth cookie set to "true", and is otherwise redirected to the
    login page; every other path passes. */
module Middleware {
  import opened JsPrelude

  datatype Decision = Next | Redirect(location: string)

  const LoginPath: string := "/admin/login"

  /** The gate, given the pathname and the admin-auth cookie's value (None
      when the cookie is absent). */
  function Gate(pathname: string, cookie: Option<string>): Decision
  {
    if pathname == LoginPath || pathname == "/" then Next
    else if StartsWith(pathname, "/admin") then
      var isLoggedIn := cookie == Some("true");
      if !isLoggedIn then Redirect(LoginPath) else Next
    else Next
  }

  /** A request is redirected iff it is gated and not logged in, and every
      redirect goes to the login page. */
  lemma GateSpec(pathname: string, cookie: Option<string>)
    ensures Gate(pathname, cookie).Redirect? <==>
      pathname != LoginPath && pathname != "/" && StartsWith(pathname, "/admin") && cookie != Some("true")
    ensures Gate(pathname, cookie).Redirect? ==> Gate(pathname, cookie).location == LoginPath
    ensures cookie == Some("true") ==> Gate(pathname, cookie) == Next
    ensures !StartsWith(pathname, "/admin") ==> Gate(pathname, cookie) == Next
  {
  }

  /** The redirect target passes whatever the cookie holds, so a redirect
      never loops. */
  lemma RedirectNeverLoops(pathname: string, cookie: Option<string>, nextCookie: Option<string>)
    requires Gate(pathname, cookie).Redirect?
    ensures Gate(Gate(pathname, cookie).location, nextCookie) == Next
  {
  }

  /** The test is a plain prefix test: "/administrator" is gated like any
      admin page, while a cookie other than exactly "true" does not log in. */
  lemma PrefixGatesLookalikes()
    ensures Gate("/administrator", None) == Redirect(LoginPath)
    ensures Gate("/admin/users", Some("TRUE")) == Redirect(LoginPath)
    ensures Gate("/admin/users", Some("true")) == Next
    ensures Gate("/", None) == Next
    ensures Gate("/dashboard", None) == Next
  {
    assert "/administrator"[..6] == "/admin";
    assert "/admin/users"[..6] == "/admin";
    assert !StartsWith("/dashboard", "/admin") by {
      assert "/dashboard"[1] != "/admin"[1];
    }
  }
}
