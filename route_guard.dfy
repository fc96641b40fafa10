/** The request middleware: API routes other than the public ones need a
    valid session token and are answered with a 401 without one; the
    dashboard and tool pages redirect to the login page instead. */
module RouteGuard {
  import opened Common
  import opened Strings

  datatype Decision = Next | Unauthorized(failure: Failure) | RedirectToLogin

  /** API paths served without any token check. */
  predicate IsPublicApi(path: string)
  {
    || StartsWith(path, "/api/auth/")
    || path == "/api/seo-scanner"
    || path == "/api/keyword-heatmap"
    || path == "/api/citation-management"
  }

  predicate IsApi(path: string)
  {
    StartsWith(path, "/api/")
  }

  predicate IsProtectedPage(path: string)
  {
    StartsWith(path, "/dashboard") || StartsWith(path, "/tools")
  }

  /** `middleware`: `token` is the value of the `token` cookie and `valid`
      says whether it verifies. */
  function Decide(path: string, token: Option<string>, valid: string -> bool): (d: Decision)
    ensures IsApi(path) && IsPublicApi(path) ==> d == Next
    ensures IsApi(path) && !IsPublicApi(path) && !Truthy(token) ==>
      d == Unauthorized(Failure(401, "Authentication required"))
    ensures IsApi(path) && !IsPublicApi(path) && Truthy(token) ==>
      d == if valid(token.value) then Next else Unauthorized(Failure(401, "Invalid token"))
    ensures !IsApi(path) && IsProtectedPage(path) ==>
      d == if Truthy(token) && valid(token.value) then Next else RedirectToLogin
    ensures !IsApi(path) && !IsProtectedPage(path) ==> d == Next
  {
    if IsApi(path) then
      if IsPublicApi(path) then Next
      else if !Truthy(token) then Unauthorized(Failure(401, "Authentication required"))
      else if valid(token.value) then Next
      else Unauthorized(Failure(401, "Invalid token"))
    else if IsProtectedPage(path) then
      if !Truthy(token) then RedirectToLogin
      else if valid(token.value) then Next
      else RedirectToLogin
    else Next
  }

  /** A request reaches a protected API route or page only with a token
      that verifies. */
  lemma GuardSound(path: string, token: Option<string>, valid: string -> bool)
    requires (IsApi(path) && !IsPublicApi(path)) || IsProtectedPage(path)
    requires Decide(path, token, valid) == Next
    ensures Truthy(token) && valid(token.value)
  {
    if IsApi(path) {
      assert path[1] == "/api/"[1] == 'a';
      assert !StartsWith(path, "/dashboard") by { assert "/dashboard"[1] == 'd'; }
      assert !StartsWith(path, "/tools") by { assert "/tools"[1] == 't'; }
    }
  }

  /** API routes never redirect, and pages never get a 401. */
  lemma AnswerKinds(path: string, token: Option<string>, valid: string -> bool)
    ensures IsApi(path) ==> !Decide(path, token, valid).RedirectToLogin?
    ensures !IsApi(path) ==> !Decide(path, token, valid).Unauthorized?
  {
  }

  /** Only the exact public paths pass: the analyze and light-scan routes
      are protected, the auth routes are not. */
  lemma PublicPaths()
    ensures IsPublicApi("/api/seo-scanner") && IsPublicApi("/api/auth/login")
    ensures !IsPublicApi("/api/seo-scanner/analyze")
    ensures !IsPublicApi("/api/seo-scan")
    ensures !IsPublicApi("/api/auth")
  {
    assert "/api/auth/login"[..10] == "/api/auth/";
    assert "/api/seo-scanner/analyze"[..10] != "/api/auth/" by {
      assert "/api/seo-scanner/analyze"[5] == 's';
    }
    assert "/api/seo-scan"[..10] != "/api/auth/" by {
      assert "/api/seo-scan"[5] == 's';
    }
  }
}
