/**
 * The route guard run before every matched request: signed-out visitors
 * are sent from the application's pages to the login page, and signed-in
 * users are sent from the login and password-reset pages to the dashboard.
 * Verifying the session token is a parameter of the model.
 */
module Middleware {
  import opened Options
  import opened Text

  /** Pages that need a session, each with everything below it. */
  const PROTECTED_PATHS: seq<string> := ["/dashboard", "/jobs", "/customers", "/settings", "/schedule"]

  /** Pages a signed-in user is sent away from; matched exactly. */
  const AUTH_PATHS: seq<string> := ["/", "/forgot-password"]

  const LOGIN_PATH := "/"
  const DASHBOARD_PATH := "/dashboard"

  /** The patterns the guard is registered for. */
  const MATCHER: seq<string> := [
    "/", "/forgot-password",
    "/dashboard/:path*", "/jobs/:path*", "/customers/:path*", "/settings/:path*", "/schedule/:path*"]

  /** The wildcard suffix of a pattern: the path itself or any path below it. */
  const ANY_BELOW := "/:path*"

  datatype Decision =
    | RedirectToLogin(redirect: string)  // to "/" with `redirect=<pathname>`
    | RedirectToDashboard
    | Next

  /** `pathname === p || pathname.startsWith(p + "/")`. */
  predicate AtOrBelow(pathname: string, p: string)
  {
    pathname == p || StartsWith(pathname, p + "/")
  }

  /** `paths.some(p => pathname === p || pathname.startsWith(p + "/"))`. */
  function SomeAtOrBelow(paths: seq<string>, pathname: string): (b: bool)
    ensures b <==> exists k :: 0 <= k < |paths| && AtOrBelow(pathname, paths[k])
  {
    if paths == [] then false
    else
      assert forall k :: 1 <= k < |paths| ==> paths[k] == paths[1..][k - 1];
      AtOrBelow(pathname, paths[0]) || SomeAtOrBelow(paths[1..], pathname)
  }

  /** A protected page: one of the protected paths itself or a path below it, never the login page. */
  function IsProtected(pathname: string): (b: bool)
    ensures b <==> exists k :: 0 <= k < |PROTECTED_PATHS| && AtOrBelow(pathname, PROTECTED_PATHS[k])
    ensures b ==> pathname != LOGIN_PATH
  {
    SomeAtOrBelow(PROTECTED_PATHS, pathname)
  }

  /** `AUTH_PATHS.some(p => pathname === p)`: the login page and the password-reset page, matched exactly. */
  function IsAuthRoute(pathname: string): (b: bool)
    ensures b <==> pathname == LOGIN_PATH || pathname == "/forgot-password"
  {
    pathname in AUTH_PATHS
  }

  /**
   * `!!session` where `session = token ? await verifyToken(token) : null`:
   * a missing or empty cookie is never a session; otherwise `verified`
   * says whether the token's signature and expiry check out.
   */
  function IsAuthenticated(token: Option<string>, verified: string -> bool): (b: bool)
    ensures token.None? ==> !b
    ensures token == Some("") ==> !b
    ensures token.Some? && token.value != "" ==> (b <==> verified(token.value))
  {
    match token
    case None => false
    case Some(t) => t != "" && verified(t)
  }

  /** `middleware(req)`: the protected-path test runs first, then the auth-route test. */
  function Decide(pathname: string, token: Option<string>, verified: string -> bool): (d: Decision)
    ensures d.RedirectToLogin? <==> IsProtected(pathname) && !IsAuthenticated(token, verified)
    ensures d.RedirectToLogin? ==> d.redirect == pathname
    ensures d.RedirectToDashboard? <==> IsAuthRoute(pathname) && IsAuthenticated(token, verified)
    ensures d.Next? <==> (!IsProtected(pathname) || IsAuthenticated(token, verified))
                         && (!IsAuthRoute(pathname) || !IsAuthenticated(token, verified))
  {
    ProtectedAndAuthDisjoint(pathname);
    var authenticated := IsAuthenticated(token, verified);
    if IsProtected(pathname) && !authenticated then RedirectToLogin(pathname)
    else if IsAuthRoute(pathname) && authenticated then RedirectToDashboard
    else Next
  }

  /** No page is both protected and an auth route, so at most one redirect can apply. */
  lemma ProtectedAndAuthDisjoint(pathname: string)
    ensures !(IsProtected(pathname) && IsAuthRoute(pathname))
  {
    if IsAuthRoute(pathname) {
      forall k | 0 <= k < |PROTECTED_PATHS|
        ensures !AtOrBelow(pathname, PROTECTED_PATHS[k])
      {
        var p := PROTECTED_PATHS[k];
        assert |p| >= 5 && p[1] != 'f';
        if pathname == "/" {
          assert |pathname| < |p + "/"|;
        } else {
          DiffersAt(pathname, p + "/", 1);
        }
      }
    }
  }

  /** A string that differs from `prefix` at some position does not start with it. */
  lemma DiffersAt(s: string, prefix: string, i: nat)
    requires i < |s| && i < |prefix| && s[i] != prefix[i]
    ensures !StartsWith(s, prefix)
  {
    if |prefix| <= |s| {
      assert s[..|prefix|][i] == s[i];
    }
  }

  /** Paths close to a protected page are not protected unless they lie below it. */
  lemma ProtectedExamples()
    ensures IsProtected("/dashboard") && IsProtected("/jobs/42") && IsProtected("/schedule/day/3")
    ensures !IsProtected("/dashboardx") && !IsProtected("/") && !IsProtected("/job")
  {
    assert AtOrBelow("/dashboard", PROTECTED_PATHS[0]);
    assert AtOrBelow("/jobs/42", PROTECTED_PATHS[1]) by {
      assert "/jobs/42"[..6] == "/jobs/";
    }
    assert AtOrBelow("/schedule/day/3", PROTECTED_PATHS[4]) by {
      assert "/schedule/day/3"[..10] == "/schedule/";
    }
    forall k | 0 <= k < |PROTECTED_PATHS|
      ensures !AtOrBelow("/dashboardx", PROTECTED_PATHS[k])
      ensures !AtOrBelow("/", PROTECTED_PATHS[k])
      ensures !AtOrBelow("/job", PROTECTED_PATHS[k])
    {
      var q := PROTECTED_PATHS[k] + "/";
      assert |q| >= 6;
      if k == 0 {
        DiffersAt("/dashboardx", q, 10);
      } else {
        DiffersAt("/dashboardx", q, 1);
      }
    }
  }

  /** Only the exact auth paths count; pages below them do not. */
  lemma AuthRoutesAreExact()
    ensures IsAuthRoute("/") && IsAuthRoute("/forgot-password")
    ensures !IsAuthRoute("/forgot-password/") && !IsAuthRoute("/login")
  {
  }

  /** A visitor without a session cookie is sent from a protected page to the login page. */
  lemma MissingTokenRedirects(pathname: string, verified: string -> bool)
    requires IsProtected(pathname)
    ensures Decide(pathname, None, verified) == RedirectToLogin(pathname)
  {
  }

  /** A signed-in user always reaches a protected page. */
  lemma SignedInReachesProtected(pathname: string, token: Option<string>, verified: string -> bool)
    requires IsProtected(pathname) && IsAuthenticated(token, verified)
    ensures Decide(pathname, token, verified) == Next
  {
    ProtectedAndAuthDisjoint(pathname);
  }

  /** Pages that are neither protected nor auth routes always pass through. */
  lemma PublicPagesPass(pathname: string, token: Option<string>, verified: string -> bool)
    requires !IsProtected(pathname) && !IsAuthRoute(pathname)
    ensures Decide(pathname, token, verified) == Next
  {
  }

  /** Whether a matcher pattern applies to a path. */
  predicate PatternMatches(pattern: string, pathname: string)
  {
    if |pattern| >= |ANY_BELOW| && pattern[|pattern| - |ANY_BELOW|..] == ANY_BELOW
    then AtOrBelow(pathname, pattern[..|pattern| - |ANY_BELOW|])
    else pathname == pattern
  }

  predicate Matched(pathname: string)
  {
    exists k :: 0 <= k < |MATCHER| && PatternMatches(MATCHER[k], pathname)
  }

  /** A wildcard pattern matches its base path and everything below it. */
  lemma WildcardPattern(p: string, pathname: string)
    ensures PatternMatches(p + ANY_BELOW, pathname) <==> AtOrBelow(pathname, p)
  {
    var m := p + ANY_BELOW;
    assert m[|m| - |ANY_BELOW|..] == ANY_BELOW;
    assert m[..|m| - |ANY_BELOW|] == p;
  }

  /** The first two patterns are the auth paths, matched exactly. */
  lemma ExactPatterns(pathname: string)
    ensures PatternMatches(MATCHER[0], pathname) <==> pathname == AUTH_PATHS[0]
    ensures PatternMatches(MATCHER[1], pathname) <==> pathname == AUTH_PATHS[1]
  {
    var f := MATCHER[1];
    assert f[|f| - |ANY_BELOW|] == 'a' != ANY_BELOW[0];
    assert f[|f| - |ANY_BELOW|..][0] == f[|f| - |ANY_BELOW|];
  }

  /** The other five patterns are the protected paths with the wildcard suffix. */
  lemma WildcardPatterns()
    ensures |MATCHER| == 2 + |PROTECTED_PATHS|
    ensures forall k :: 0 <= k < |PROTECTED_PATHS| ==> MATCHER[k + 2] == PROTECTED_PATHS[k] + ANY_BELOW
  {
  }

  /**
   * The matcher covers exactly the pages the guard acts on: a request it
   * skips could not have been redirected.
   */
  lemma MatcherCoversGuard(pathname: string)
    ensures Matched(pathname) <==> IsProtected(pathname) || IsAuthRoute(pathname)
  {
    ExactPatterns(pathname);
    WildcardPatterns();
    if Matched(pathname) {
      var k :| 0 <= k < |MATCHER| && PatternMatches(MATCHER[k], pathname);
      if k >= 2 {
        WildcardPattern(PROTECTED_PATHS[k - 2], pathname);
        assert AtOrBelow(pathname, PROTECTED_PATHS[k - 2]);
      }
    }
    if IsProtected(pathname) {
      var k :| 0 <= k < |PROTECTED_PATHS| && AtOrBelow(pathname, PROTECTED_PATHS[k]);
      WildcardPattern(PROTECTED_PATHS[k], pathname);
      assert PatternMatches(MATCHER[k + 2], pathname);
    }
    if IsAuthRoute(pathname) {
      assert PatternMatches(MATCHER[if pathname == "/" then 0 else 1], pathname);
    }
  }
}
