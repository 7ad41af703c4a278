/**
  The frontend's route guard: a visitor without the auth cookie is sent from
  the dashboard to the sign-in page, a signed-in visitor is sent from the
  sign-in page to the dashboard, and every other request passes. The guard
  only runs on the paths its matcher lists.
*/
module RouteGuard {
  import opened Wrappers

  const SignInPath: string := "/"
  const DashboardPath: string := "/dashboard"

  datatype Response = Pass | Redirect(to: string)

  /** `String.prototype.startsWith`. */
  predicate StartsWith(s: string, prefix: string) {
    prefix <= s
  }

  /** The matcher `['/', '/dashboard/:path*']`: the sign-in page, the dashboard and every path below it. */
  predicate Matched(path: string) {
    path == SignInPath || path == DashboardPath || StartsWith(path, DashboardPath + "/")
  }

  /** `middleware`: the cookie lookup's result is `token`; a present cookie is truthy whatever its value. */
  function Middleware(token: Option<string>, path: string): (r: Response)
    ensures r == Redirect(SignInPath) <==> token.None? && StartsWith(path, DashboardPath)
    ensures r == Redirect(DashboardPath) <==> token.Some? && path == SignInPath
    ensures r.Redirect? ==> r.to == SignInPath || r.to == DashboardPath
  {
    if token.None? && StartsWith(path, DashboardPath) then Redirect(SignInPath)
    else if token.Some? && path == SignInPath then Redirect(DashboardPath)
    else Pass
  }

  /** What a request meets: the middleware on matched paths, nothing on the others. */
  function Guard(token: Option<string>, path: string): (r: Response)
    ensures !Matched(path) ==> r == Pass
    ensures Matched(path) ==> r == Middleware(token, path)
  {
    if Matched(path) then Middleware(token, path) else Pass
  }

  /** Matched paths are exactly the sign-in page and the dashboard area (a path like `/dashboards` is not). */
  lemma MatchedDashboardArea(path: string)
    requires StartsWith(path, DashboardPath)
    ensures Matched(path) <==> |path| == |DashboardPath| || path[|DashboardPath|] == '/'
  {
    if |path| > |DashboardPath| && path[|DashboardPath|] == '/' {
      assert path[..|DashboardPath| + 1] == DashboardPath + "/";
    }
    if |path| == |DashboardPath| {
      assert path == DashboardPath;
    }
  }

  /** Without the cookie, every matched dashboard path goes to sign-in and the sign-in page passes. */
  lemma SignedOutGuard(path: string)
    requires Matched(path)
    ensures Guard(None, path) == (if path == SignInPath then Pass else Redirect(SignInPath))
  {
    if path != SignInPath {
      assert StartsWith(path, DashboardPath) by {
        if path != DashboardPath {
          assert (DashboardPath + "/")[..|DashboardPath|] == DashboardPath;
          assert path[..|DashboardPath|] == (DashboardPath + "/")[..|DashboardPath|];
        }
      }
    }
  }

  /** With the cookie, only the sign-in page redirects, and it goes to the dashboard. */
  lemma SignedInGuard(token: string, path: string)
    ensures Guard(Some(token), path) == (if path == SignInPath then Redirect(DashboardPath) else Pass)
  {
  }

  /** A redirect lands on a page the guard passes for the same visitor: no redirect loop. */
  lemma {:induction false} RedirectSettles(token: Option<string>, path: string)
    requires Guard(token, path).Redirect?
    ensures Matched(Guard(token, path).to)
    ensures Guard(token, Guard(token, path).to) == Pass
  {
    var to := Guard(token, path).to;
    if token.None? {
      assert to == SignInPath;
      assert !StartsWith(SignInPath, DashboardPath);
    } else {
      assert to == DashboardPath;
      assert DashboardPath != SignInPath;
    }
  }
}
