/**
 * The request gate that runs before every matched page request. It looks at
 * the request path and at whether a session token could be read, and either
 * lets the request through or redirects it.
 */
module Middleware {
  import opened Common

  /** Paths that need a signed-in user. */
  const ProtectedPaths: seq<string> := ["/dashboard", "/manage-circle", "/profile"]

  /** Paths declared public; the gate never reads this list. */
  const PublicPaths: seq<string> :=
    ["/", "/search", "/circles", "/about", "/faq", "/auth/login", "/auth/signup", "/auth/error", "/api/auth"]

  /** Paths a signed-in user is sent away from. */
  const AuthRoutes: seq<string> := ["/auth/login", "/auth/signup"]

  /** The paths the framework runs the gate on: the protected list, then the auth list. */
  const Matcher: seq<string> := ProtectedPaths + AuthRoutes

  const DashboardPath: string := "/dashboard"
  const LoginPath: string := "/auth/login"

  datatype Decision =
    | Next
    | Redirect(path: string, query: seq<(string, string)>)

  /** `list.some(p => pathname.startsWith(p))`. */
  predicate StartsWithAny(list: seq<string>, pathname: string) {
    exists i :: 0 <= i < |list| && StartsWith(pathname, list[i])
  }

  predicate IsAuthRoute(pathname: string) {
    StartsWithAny(AuthRoutes, pathname)
  }

  predicate IsProtected(pathname: string) {
    StartsWithAny(ProtectedPaths, pathname)
  }

  /** The gate: signed-in users leave the auth pages, anonymous users are sent to log in. */
  function Gate(pathname: string, hasToken: bool): (d: Decision)
    ensures hasToken && IsAuthRoute(pathname) ==> d == Redirect(DashboardPath, [])
    ensures !hasToken && IsProtected(pathname) ==> d == Redirect(LoginPath, [("callbackUrl", pathname)])
    ensures d == Next <==> !(hasToken && IsAuthRoute(pathname)) && !(!hasToken && IsProtected(pathname))
  {
    if hasToken && IsAuthRoute(pathname) then
      Redirect(DashboardPath, [])
    else if IsProtected(pathname) && !hasToken then
      Redirect(LoginPath, [("callbackUrl", pathname)])
    else
      Next
  }

  /** What the framework does with a request: the gate runs only on the matcher's paths. */
  function Handle(pathname: string, hasToken: bool): (d: Decision)
    ensures pathname !in Matcher ==> d == Next
    ensures pathname in Matcher ==> d == Gate(pathname, hasToken)
  {
    if pathname in Matcher then Gate(pathname, hasToken) else Next
  }

  /** Classification is by prefix: every sub-path of a listed path is in the same class. */
  lemma SubPathsClassified(base: string, rest: string)
    ensures IsProtected(base) ==> IsProtected(base + rest)
    ensures IsAuthRoute(base) ==> IsAuthRoute(base + rest)
  {
    forall p: string | StartsWith(base, p)
      ensures StartsWith(base + rest, p)
    {
      assert (base + rest)[..|p|] == base[..|p|];
    }
  }

  /** For example `/profile/settings` is protected. */
  lemma ProfileSubPathProtected()
    ensures Gate("/profile/settings", false) == Redirect(LoginPath, [("callbackUrl", "/profile/settings")])
  {
    assert StartsWith("/profile/settings", ProtectedPaths[2]);
  }

  /** No path starts with both an auth route and a protected path, so the two redirects never compete. */
  lemma ClassesDisjoint(pathname: string)
    ensures !(IsAuthRoute(pathname) && IsProtected(pathname))
  {
    if IsAuthRoute(pathname) && IsProtected(pathname) {
      var i :| 0 <= i < |AuthRoutes| && StartsWith(pathname, AuthRoutes[i]);
      var j :| 0 <= j < |ProtectedPaths| && StartsWith(pathname, ProtectedPaths[j]);
      SameSecondChar(pathname, AuthRoutes[i]);
      SameSecondChar(pathname, ProtectedPaths[j]);
      assert false;
    }
  }

  lemma SameSecondChar(s: string, prefix: string)
    requires StartsWith(s, prefix) && |prefix| > 1
    ensures s[1] == prefix[1]
  {
    assert s[..|prefix|][1] == prefix[1];
  }

  /** Because the classes are disjoint, testing them in the other order gives the same decision. */
  lemma OrderIrrelevant(pathname: string, hasToken: bool)
    ensures Gate(pathname, hasToken) ==
            if IsProtected(pathname) && !hasToken then Redirect(LoginPath, [("callbackUrl", pathname)])
            else if hasToken && IsAuthRoute(pathname) then Redirect(DashboardPath, [])
            else Next
  {
    ClassesDisjoint(pathname);
  }

  /**
   * The public list does not influence the gate, and read by prefix it could
   * not: `/` is on it, so every absolute path would count as public, the
   * protected ones included.
   */
  lemma PublicListUnused(pathname: string)
    requires |pathname| > 0 && pathname[0] == '/'
    ensures StartsWithAny(PublicPaths, pathname)
    ensures IsProtected(pathname) ==> Gate(pathname, false) != Next
  {
    assert StartsWith(pathname, PublicPaths[0]);
  }

  /** `/auth/login` sits on both the public list and the auth list. */
  lemma LoginIsPublicAndAuth()
    ensures "/auth/login" in PublicPaths && "/auth/login" in AuthRoutes
    ensures Gate("/auth/login", true) == Redirect(DashboardPath, [])
  {
    assert StartsWith("/auth/login", AuthRoutes[0]);
  }

  /** The matcher names exactly the protected and auth paths. */
  lemma MatcherIsProtectedAndAuth(pathname: string)
    ensures pathname in Matcher <==> pathname in ProtectedPaths || pathname in AuthRoutes
    ensures pathname in Matcher ==> IsProtected(pathname) || IsAuthRoute(pathname)
  {
    if pathname in ProtectedPaths {
      var i :| 0 <= i < |ProtectedPaths| && ProtectedPaths[i] == pathname;
      assert StartsWith(pathname, ProtectedPaths[i]);
    }
    if pathname in AuthRoutes {
      var i :| 0 <= i < |AuthRoutes| && AuthRoutes[i] == pathname;
      assert StartsWith(pathname, AuthRoutes[i]);
    }
  }

  /**
   * The matcher lists literal paths, so a sub-path such as `/profile/settings`
   * never reaches the gate, although the gate itself would redirect it.
   */
  lemma SubPathNotMatched()
    ensures Handle("/profile/settings", false) == Next
    ensures Gate("/profile/settings", false) != Next
  {
    ProfileSubPathProtected();
  }

  /**
   * A matcher that also covers the sub-paths of each listed path (the
   * `/profile/:path*` form), which is what the prefix tests in the gate
   * presuppose.
   */
  predicate MatchesWithSubPaths(pathname: string) {
    exists i :: 0 <= i < |Matcher| && (pathname == Matcher[i] || StartsWith(pathname, Matcher[i] + "/"))
  }

  /** The framework's handling with that matcher. */
  function HandleWithSubPaths(pathname: string, hasToken: bool): (d: Decision)
    ensures !MatchesWithSubPaths(pathname) ==> d == Next
    ensures MatchesWithSubPaths(pathname) ==> d == Gate(pathname, hasToken)
  {
    if MatchesWithSubPaths(pathname) then Gate(pathname, hasToken) else Next
  }

  /** On the listed paths themselves the widened matcher decides as the written one does. */
  lemma WidenedMatcherAgrees(pathname: string, hasToken: bool)
    requires pathname in Matcher
    ensures HandleWithSubPaths(pathname, hasToken) == Handle(pathname, hasToken)
  {
    var i :| 0 <= i < |Matcher| && Matcher[i] == pathname;
    assert MatchesWithSubPaths(pathname);
  }

  /** With sub-paths matched, an anonymous request for any page under a protected path is sent to log in. */
  lemma ProtectedSubPathsGated(i: nat, rest: string)
    requires i < |ProtectedPaths|
    ensures var pathname := ProtectedPaths[i] + "/" + rest;
            HandleWithSubPaths(pathname, false) == Redirect(LoginPath, [("callbackUrl", pathname)])
  {
    var base := ProtectedPaths[i];
    var pathname := base + "/" + rest;
    assert pathname[..|base + "/"|] == base + "/";
    assert pathname[..|base|] == base;
    assert StartsWith(pathname, ProtectedPaths[i]);
    assert Matcher[i] == base;
    assert MatchesWithSubPaths(pathname);
  }
}
