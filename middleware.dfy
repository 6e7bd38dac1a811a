/** The page gate in front of every request: public and API paths pass, and any other page
    needs a session cookie or is redirected to the login page. */
module Middleware {
  import opened Text

  const LoginPath := "/login"
  const AuthApiPrefix := "/api/auth"
  const ApiPrefix := "/api/"
  const SignupPath := "/signup"
  const SessionCookie := "authjs.session-token"
  const SecureSessionCookie := "__Secure-authjs.session-token"

  /** What the gate answers: pass the request on, or redirect to `location?callbackUrl=...`. */
  datatype Decision = Next | Redirect(location: string, callbackUrl: string)

  /** `publicPaths` as written: the login page and the authentication API. */
  const PublicPaths := [LoginPath, AuthApiPrefix]

  predicate IsPublic(publicPaths: seq<string>, pathname: string) {
    exists i :: 0 <= i < |publicPaths| && StartsWith(pathname, publicPaths[i])
  }

  predicate HasSession(cookies: set<string>) {
    SessionCookie in cookies || SecureSessionCookie in cookies
  }

  /** The decision for a given list of public prefixes. */
  function DecideWith(publicPaths: seq<string>, pathname: string, cookies: set<string>): (d: Decision)
    ensures d.Redirect? <==> !IsPublic(publicPaths, pathname) && !StartsWith(pathname, ApiPrefix) && !HasSession(cookies)
    ensures d.Redirect? ==> d == Redirect(LoginPath, pathname)
  {
    if IsPublic(publicPaths, pathname) then Next
    else if StartsWith(pathname, ApiPrefix) then Next
    else if !HasSession(cookies) then Redirect(LoginPath, pathname)
    else Next
  }

  /** `middleware`, as written. */
  function Decide(pathname: string, cookies: set<string>): (d: Decision)
    ensures d.Redirect? <==>
      !StartsWith(pathname, LoginPath) && !StartsWith(pathname, ApiPrefix) && !HasSession(cookies)
    ensures d.Redirect? ==> d == Redirect(LoginPath, pathname)
  {
    AuthPrefixIsApi(pathname);
    assert StartsWith(pathname, LoginPath) ==> IsPublic(PublicPaths, pathname) by {
      assert PublicPaths[0] == LoginPath;
    }
    assert StartsWith(pathname, AuthApiPrefix) ==> IsPublic(PublicPaths, pathname) by {
      assert PublicPaths[1] == AuthApiPrefix;
    }
    DecideWith(PublicPaths, pathname, cookies)
  }

  /** Every path under the authentication API is already under the general API prefix. */
  lemma AuthPrefixIsApi(pathname: string)
    ensures StartsWith(pathname, AuthApiPrefix) ==> StartsWith(pathname, ApiPrefix)
  {
    if StartsWith(pathname, AuthApiPrefix) {
      assert pathname[..|ApiPrefix| - 1] == pathname[..|AuthApiPrefix|][..|ApiPrefix| - 1];
    }
  }

  /** The signed-out visitor the login page sends to `/signup` is sent straight back. */
  lemma SignupPageRedirects()
    ensures Decide(SignupPath, {}) == Redirect(LoginPath, SignupPath)
  {
    assert SignupPath[1] != LoginPath[1] && SignupPath[1] != ApiPrefix[1];
  }

  /** The evidently intended list: the signup page is public too. */
  const IntendedPublicPaths := [LoginPath, SignupPath, AuthApiPrefix]

  function DecideIntended(pathname: string, cookies: set<string>): (d: Decision)
    ensures StartsWith(pathname, SignupPath) ==> d == Next
    ensures !StartsWith(pathname, SignupPath) ==> d == Decide(pathname, cookies)
  {
    assert StartsWith(pathname, SignupPath) ==> IsPublic(IntendedPublicPaths, pathname) by {
      assert IntendedPublicPaths[1] == SignupPath;
    }
    assert IsPublic(IntendedPublicPaths, pathname) <==>
      StartsWith(pathname, SignupPath) || IsPublic(PublicPaths, pathname) by {
      assert IntendedPublicPaths[0] == PublicPaths[0] && IntendedPublicPaths[2] == PublicPaths[1];
    }
    DecideWith(IntendedPublicPaths, pathname, cookies)
  }

  /** With the intended list, a signed-out visitor reaches the signup page, and the API it
      posts to still passes. */
  lemma SignupReachable(cookies: set<string>)
    ensures DecideIntended(SignupPath, cookies) == Next
    ensures DecideIntended(AuthApiPrefix + SignupPath, cookies) == Next
  {
    assert StartsWith(AuthApiPrefix + SignupPath, ApiPrefix) by {
      assert (AuthApiPrefix + SignupPath)[..|ApiPrefix|] == ApiPrefix;
    }
  }

  /** A session cookie opens every page, under both lists. */
  lemma SessionOpensEverything(pathname: string, cookies: set<string>)
    requires HasSession(cookies)
    ensures Decide(pathname, cookies) == Next && DecideIntended(pathname, cookies) == Next
  {
  }

  // ---- Which requests reach the gate ----

  /** The route matcher `/((?!_next/static|_next/image|favicon.ico|.*\.svg$).*)`: every path except
      static assets, optimised images, the favicon (its `.` matches any character) and SVG files. */
  predicate Matched(pathname: string) {
    && StartsWith(pathname, "/")
    && var rest := pathname[1..];
    && !StartsWith(rest, "_next/static")
    && !StartsWith(rest, "_next/image")
    && !(|rest| >= 11 && rest[..7] == "favicon" && rest[8..11] == "ico")
    && !EndsWith(rest, ".svg")
  }

  /** A request as the server handles it, as written: unmatched paths skip the gate. */
  function Handle(pathname: string, cookies: set<string>): (d: Decision)
    ensures d.Redirect? <==>
      && Matched(pathname) && !StartsWith(pathname, LoginPath)
      && !StartsWith(pathname, ApiPrefix) && !HasSession(cookies)
    ensures d.Redirect? ==> d.callbackUrl == pathname
  {
    if Matched(pathname) then Decide(pathname, cookies) else Next
  }

  /** A request as the server handles it with the intended public paths. */
  function HandleIntended(pathname: string, cookies: set<string>): (d: Decision)
    ensures d.Redirect? <==>
      && Matched(pathname) && !StartsWith(pathname, LoginPath) && !StartsWith(pathname, SignupPath)
      && !StartsWith(pathname, ApiPrefix) && !HasSession(cookies)
    ensures d.Redirect? ==> d.callbackUrl == pathname
  {
    if Matched(pathname) then DecideIntended(pathname, cookies) else Next
  }

  /** The two differ exactly on the signed-out requests for matched `/signup` paths. */
  lemma HandleDiffersOnSignup(pathname: string, cookies: set<string>)
    ensures Handle(pathname, cookies) != HandleIntended(pathname, cookies) <==>
      Matched(pathname) && StartsWith(pathname, SignupPath) && !HasSession(cookies)
  {
    if StartsWith(pathname, SignupPath) {
      assert pathname[1] == SignupPath[1];
      assert !StartsWith(pathname, LoginPath) && !StartsWith(pathname, ApiPrefix);
    }
  }
}
