/**
 * The request middleware: path matching, the routing decisions (redirects
 * for signed-in and signed-out users, 401 for protected API calls), the CSRF
 * check on state-changing API requests, and the security headers set on a
 * request that passes. The session lookup and the environment are inputs.
 */
module Middleware {
  import opened Common
  import Csrf

  const StateChangingMethods: seq<string> := ["POST", "PUT", "PATCH", "DELETE"]
  const ProtectedRoutes: seq<string> := ["/dashboard", "/profile", "/settings", "/financial", "/benefits", "/onboarding"]
  const AuthRoutes: seq<string> := ["/login", "/register", "/forgot-password"]
  const PublicApiRoutes: seq<string> := ["/api/auth", "/api/csrf-token", "/api/health", "/api/onboarding", "/api/settings"]

  // ---------------------------------------------------------------------------
  // matchesPath

  /** One pattern: a trailing `*` makes it a prefix; otherwise the path itself or a path below it. */
  predicate PatternMatches(pathname: string, pattern: string) {
    if |pattern| > 0 && pattern[|pattern| - 1] == '*' then pattern[..|pattern| - 1] <= pathname
    else pathname == pattern || pattern + "/" <= pathname
  }

  /** `matchesPath`: some pattern matches. */
  predicate MatchesPath(pathname: string, patterns: seq<string>) {
    exists i :: 0 <= i < |patterns| && PatternMatches(pathname, patterns[i])
  }

  /**
   * Without a `*`, a pattern matches only at a segment boundary: the path is
   * the pattern, or continues it with `/`.
   */
  lemma SegmentBoundary(pathname: string, pattern: string)
    requires pattern == [] || pattern[|pattern| - 1] != '*'
    ensures PatternMatches(pathname, pattern) <==>
      pathname == pattern || (|pathname| > |pattern| && pathname[..|pattern|] == pattern && pathname[|pattern|] == '/')
  {
    if |pathname| > |pattern| && pathname[..|pattern|] == pattern && pathname[|pattern|] == '/' {
      assert (pattern + "/") == pathname[..|pattern| + 1];
    }
  }

  /** `/dashboard` covers `/dashboard/laws` but not `/dashboardx`. */
  lemma DashboardExamples()
    ensures PatternMatches("/dashboard/laws", "/dashboard")
    ensures !PatternMatches("/dashboardx", "/dashboard")
  {
    SegmentBoundary("/dashboard/laws", "/dashboard");
    SegmentBoundary("/dashboardx", "/dashboard");
    assert "/dashboardx"[10] == 'x';
  }

  // ---------------------------------------------------------------------------
  // middleware

  datatype Outcome =
    | Redirect(path: string, callbackUrl: Option<string>)
    | Json(status: int, error: string)
    | Next(headers: map<string, string>)
    | Thrown(message: string)

  /** The request as the middleware sees it; the session lookup and `NODE_ENV` are inputs. */
  datatype Request = Request(pathname: string, verb: string, authenticated: bool,
                             cookieToken: Option<string>, headerToken: Option<string>, production: bool)

  const AuthRequired: string := "認証が必要です"
  const CsrfFailed: string := "CSRF token validation failed"

  const ContentSecurityPolicy: string :=
    "default-src 'self'; script-src 'self' 'unsafe-inline' 'unsafe-eval'; style-src 'self' 'unsafe-inline'; "
    + "img-src 'self' data: blob: https:; font-src 'self' data:; connect-src 'self' https:; "
    + "frame-ancestors 'none'; base-uri 'self'; form-action 'self'"

  /** The headers every passing response carries, with HSTS in production only. */
  function SecurityHeaders(production: bool): map<string, string> {
    var base := map[]["X-Content-Type-Options" := "nosniff"]["X-Frame-Options" := "DENY"]
                     ["X-XSS-Protection" := "1; mode=block"]["Referrer-Policy" := "strict-origin-when-cross-origin"]
                     ["Permissions-Policy" := "camera=(), microphone=(), geolocation=(), interest-cohort=()"]
                     ["Content-Security-Policy" := ContentSecurityPolicy];
    if production then base["Strict-Transport-Security" := "max-age=31536000; includeSubDomains; preload"] else base
  }

  /** A token that is present and non-empty. */
  predicate Given(t: Option<string>) {
    t.Some? && t.value != ""
  }

  /** The API paths whose state-changing requests need the CSRF token pair. */
  predicate CsrfGuarded(pathname: string) {
    "/api/" <= pathname && !("/api/external/" <= pathname) && pathname != "/api/csrf-token" && !("/api/auth/" <= pathname)
  }

  /** The decision `middleware` takes, check by check. */
  function Decide(r: Request): Outcome {
    if r.authenticated && MatchesPath(r.pathname, AuthRoutes) then Redirect("/dashboard", None)
    else if !r.authenticated && MatchesPath(r.pathname, ProtectedRoutes) then Redirect("/login", Some(r.pathname))
    else if "/api/" <= r.pathname && !MatchesPath(r.pathname, PublicApiRoutes) && !r.authenticated then Json(401, AuthRequired)
    else CsrfStage(r)
  }

  /** The CSRF check on state-changing guarded API requests, then the passing response. */
  function CsrfStage(r: Request): Outcome {
    if r.verb in StateChangingMethods && CsrfGuarded(r.pathname) then
      if !Given(r.cookieToken) || !Given(r.headerToken) then Json(403, CsrfFailed)
      else
        match Csrf.ValidateCsrfToken(r.cookieToken.value, r.headerToken.value)
        case Err(m) => Thrown(m)
        case Ok(valid) => if valid then Next(SecurityHeaders(r.production)) else Json(403, CsrfFailed)
    else Next(SecurityHeaders(r.production))
  }

  /** `NextResponse.next()` with the `response.headers.set` calls, one header at a time. */
  method Pass(production: bool) returns (o: Outcome)
    ensures o == Next(SecurityHeaders(production))
  {
    var headers: map<string, string>;
    headers := map[];
    headers := headers["X-Content-Type-Options" := "nosniff"];
    headers := headers["X-Frame-Options" := "DENY"];
    headers := headers["X-XSS-Protection" := "1; mode=block"];
    headers := headers["Referrer-Policy" := "strict-origin-when-cross-origin"];
    headers := headers["Permissions-Policy" := "camera=(), microphone=(), geolocation=(), interest-cohort=()"];
    headers := headers["Content-Security-Policy" := ContentSecurityPolicy];
    if production {
      headers := headers["Strict-Transport-Security" := "max-age=31536000; includeSubDomains; preload"];
    }
    o := Next(headers);
  }

  /** `middleware`: the early returns, then the CSRF check and the headers. */
  method Run(r: Request) returns (o: Outcome)
    ensures o == Decide(r)
  {
    if r.authenticated && MatchesPath(r.pathname, AuthRoutes) {
      return Redirect("/dashboard", None);
    }
    if !r.authenticated && MatchesPath(r.pathname, ProtectedRoutes) {
      return Redirect("/login", Some(r.pathname));
    }
    if "/api/" <= r.pathname && !MatchesPath(r.pathname, PublicApiRoutes) {
      if !r.authenticated {
        return Json(401, AuthRequired);
      }
    }
    o := CheckCsrf(r);
  }

  /** The CSRF part of `middleware`, then the headers set one by one on the passing response. */
  method CheckCsrf(r: Request) returns (o: Outcome)
    ensures o == CsrfStage(r)
  {
    if r.verb in StateChangingMethods {
      if CsrfGuarded(r.pathname) {
        if !Given(r.cookieToken) || !Given(r.headerToken) {
          return Json(403, CsrfFailed);
        }
        var valid := Csrf.ValidateCsrfToken(r.cookieToken.value, r.headerToken.value);
        if valid.Err? {
          return Thrown(valid.error);
        }
        if !valid.value {
          return Json(403, CsrfFailed);
        }
      }
    }
    assert CsrfStage(r) == Next(SecurityHeaders(r.production));
    o := Pass(r.production);
  }

  /** A signed-in user asking for a sign-in page is sent to the dashboard. */
  lemma SignedInLeavesAuthPages(r: Request)
    requires r.authenticated && MatchesPath(r.pathname, AuthRoutes)
    ensures Decide(r) == Redirect("/dashboard", None)
  {
  }

  /** A signed-out user asking for a protected page is sent to the login page with the path as callback. */
  lemma SignedOutToLogin(r: Request)
    requires !r.authenticated && MatchesPath(r.pathname, ProtectedRoutes)
    ensures Decide(r) == Redirect("/login", Some(r.pathname))
  {
  }

  lemma ApiPathsAreNotPages(pathname: string)
    requires "/api/" <= pathname
    ensures !MatchesPath(pathname, ProtectedRoutes)
  {
    forall i | 0 <= i < |ProtectedRoutes|
      ensures !PatternMatches(pathname, ProtectedRoutes[i])
    {
      var p := ProtectedRoutes[i];
      assert pathname[1] == 'a' && (p + "/")[1] == p[1] != 'a';
    }
  }

  /** A signed-out call to a non-public API path gets 401. */
  lemma SignedOutApiIsUnauthorized(r: Request)
    requires !r.authenticated && "/api/" <= r.pathname && !MatchesPath(r.pathname, PublicApiRoutes)
    ensures Decide(r) == Json(401, AuthRequired)
  {
    ApiPathsAreNotPages(r.pathname);
  }

  /**
   * The CSRF check comes after the authentication checks: a 403 is only
   * ever given to a state-changing, guarded API request that is signed in or
   * public, and only when the token pair is missing or does not match.
   */
  lemma CsrfRejection(r: Request)
    ensures Decide(r) == Json(403, CsrfFailed) <==>
      && !(r.authenticated && MatchesPath(r.pathname, AuthRoutes))
      && !(!r.authenticated && MatchesPath(r.pathname, ProtectedRoutes))
      && (r.authenticated || MatchesPath(r.pathname, PublicApiRoutes))
      && r.verb in StateChangingMethods && CsrfGuarded(r.pathname)
      && (!Given(r.cookieToken) || !Given(r.headerToken)
          || Csrf.ValidateCsrfToken(r.cookieToken.value, r.headerToken.value) == Ok(false))
  {
  }

  /** A matching token pair lets a signed-in state-changing API request through with the security headers. */
  lemma MatchingTokensPass(r: Request)
    requires r.authenticated && "/api/" <= r.pathname && r.verb in StateChangingMethods
    requires Given(r.cookieToken) && r.cookieToken == r.headerToken
    ensures Decide(r) == Next(SecurityHeaders(r.production))
  {
    ApiPathsAreNotPages(r.pathname);
    assert !MatchesPath(r.pathname, AuthRoutes) by {
      forall i | 0 <= i < |AuthRoutes|
        ensures !PatternMatches(r.pathname, AuthRoutes[i])
      {
        var p := AuthRoutes[i];
        assert r.pathname[1] == 'a' && (p + "/")[1] == p[1] != 'a';
      }
    }
    Csrf.ValidateCsrfTokenSpec(r.cookieToken.value, r.headerToken.value);
  }

  /** Safe methods are never checked for CSRF. */
  lemma SafeMethodsSkipCsrf(r: Request)
    requires r.verb !in StateChangingMethods
    ensures Decide(r).Redirect? || Decide(r) == Json(401, AuthRequired) || Decide(r) == Next(SecurityHeaders(r.production))
  {
  }

  /** HSTS is sent exactly in production. */
  lemma HstsOnlyInProduction(production: bool)
    ensures "Strict-Transport-Security" in SecurityHeaders(production) <==> production
  {
    if !production {
      NoHstsInDevelopment();
    }
  }

  lemma NoHstsInDevelopment()
    ensures "Strict-Transport-Security" !in SecurityHeaders(false)
  {
    var keys := SecurityHeaders(false).Keys;
    assert keys == {"X-Content-Type-Options", "X-Frame-Options", "X-XSS-Protection", "Referrer-Policy",
                    "Permissions-Policy", "Content-Security-Policy"};
    var h := "Strict-Transport-Security";
    assert h[0] == 'S';
    assert "X-Content-Type-Options"[0] == 'X' && "X-Frame-Options"[0] == 'X' && "X-XSS-Protection"[0] == 'X';
    assert "Referrer-Policy"[0] == 'R' && "Permissions-Policy"[0] == 'P' && "Content-Security-Policy"[0] == 'C';
  }
}
