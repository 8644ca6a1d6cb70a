/** The client routes: the login screen, the two role homes behind
    `ProtectedRoute`, and the catch-all redirect to the login. */
module App {
  import opened Common
  import Text

  datatype Screen = LoginScreen | ForemanHome | SupervisorHome

  /** What a route renders: a screen, or a `<Navigate replace>` to a path. */
  datatype Element = Render(screen: Screen) | Redirect(to: string)

  /** `ProtectedRoute({ role, children })` given the session's
      `isAuthenticated` and `user?.role`. */
  function ProtectedRoute(role: string, isAuthenticated: bool, userRole: Option<string>, child: Screen): (e: Element)
    ensures !isAuthenticated ==> e == Redirect("/login")
    ensures e == Render(child) <==> isAuthenticated && userRole == Some(role)
    ensures e.Redirect? && isAuthenticated ==>
              e.to == (if userRole == Some("supervisor") then "/supervisor" else "/foreman")
  {
    if !isAuthenticated then Redirect("/login")
    else if userRole != Some(role) then
      Redirect(if userRole == Some("supervisor") then "/supervisor" else "/foreman")
    else Render(child)
  }

  /** `path` without the slashes at its end. */
  function StripTrailingSlashes(path: string): (r: string)
    ensures r <= path
    ensures r == [] || r[|r| - 1] != '/'
    ensures forall k :: |r| <= k < |path| ==> path[k] == '/'
  {
    if path != [] && path[|path| - 1] == '/' then StripTrailingSlashes(path[..|path| - 1]) else path
  }

  /** The form in which the router compares a path with the route
      patterns: matching ignores ASCII case (no route sets `caseSensitive`)
      and any number of trailing slashes. */
  function Normal(path: string): string {
    Text.Lower(StripTrailingSlashes(path))
  }

  /** The route patterns are their own normal forms. */
  lemma RoutesAreNormal()
    ensures Normal("/login") == "/login"
    ensures Normal("/foreman") == "/foreman"
    ensures Normal("/supervisor") == "/supervisor"
  {
    assert StripTrailingSlashes("/login") == "/login";
    assert StripTrailingSlashes("/foreman") == "/foreman";
    assert StripTrailingSlashes("/supervisor") == "/supervisor";
  }

  /** The route table: `/login`, `/foreman`, `/supervisor`, and `*`. */
  function Route(path: string, isAuthenticated: bool, userRole: Option<string>): (e: Element)
    ensures Normal(path) !in {"/login", "/foreman", "/supervisor"} ==> e == Redirect("/login")
    ensures Normal(path) == "/login" ==> e == Render(LoginScreen)
    ensures Normal(path) == "/foreman" ==> e == ProtectedRoute("foreman", isAuthenticated, userRole, ForemanHome)
    ensures Normal(path) == "/supervisor" ==> e == ProtectedRoute("supervisor", isAuthenticated, userRole, SupervisorHome)
    ensures !isAuthenticated ==> e == Render(LoginScreen) || e == Redirect("/login")
  {
    var p := Normal(path);
    if p == "/login" then Render(LoginScreen)
    else if p == "/foreman" then ProtectedRoute("foreman", isAuthenticated, userRole, ForemanHome)
    else if p == "/supervisor" then ProtectedRoute("supervisor", isAuthenticated, userRole, SupervisorHome)
    else Redirect("/login")
  }

  /** A trailing slash or capital letters reach the same route. */
  lemma CaseAndTrailingSlash(isAuthenticated: bool, userRole: Option<string>)
    ensures Route("/Foreman/", isAuthenticated, userRole) == Route("/foreman", isAuthenticated, userRole)
    ensures Route("/SUPERVISOR//", isAuthenticated, userRole) == Route("/supervisor", isAuthenticated, userRole)
  {
    RoutesAreNormal();
    assert StripTrailingSlashes("/Foreman/") == "/Foreman";
    assert StripTrailingSlashes("/SUPERVISOR//") == "/SUPERVISOR";
    assert Normal("/Foreman/") == "/foreman";
    assert Normal("/SUPERVISOR//") == "/supervisor";
  }

  /** Normalising a path twice is normalising it once. */
  lemma NormalIdempotent(path: string)
    ensures Normal(Normal(path)) == Normal(path)
  {
    var s := StripTrailingSlashes(path);
    var l := Text.Lower(s);
    assert l == [] || l[|l| - 1] != '/' by {
      if l != [] {
        assert s[|s| - 1] != '/';
        assert 'A' <= s[|s| - 1] <= 'Z' ==> l[|l| - 1] as int == s[|s| - 1] as int + 32;
      }
    }
    assert StripTrailingSlashes(l) == l;
    Text.LowerIdempotent(s);
  }

  /** Every path routes exactly as its normal form does. */
  lemma RouteOfNormal(path: string, isAuthenticated: bool, userRole: Option<string>)
    ensures Route(Normal(path), isAuthenticated, userRole) == Route(path, isAuthenticated, userRole)
  {
    NormalIdempotent(path);
  }

  /** The screen reached from `path` after following at most `hops`
      redirects, or `None` while still redirecting. */
  function Visit(path: string, isAuthenticated: bool, userRole: Option<string>, hops: nat): (s: Option<Screen>)
    ensures s.Some? ==> s.value == LoginScreen || isAuthenticated
    decreases hops
  {
    match Route(path, isAuthenticated, userRole)
    case Render(screen) => Some(screen)
    case Redirect(to) => if hops == 0 then None else Visit(to, isAuthenticated, userRole, hops - 1)
  }

  /** Signed out, every path ends on the login screen. Signed in as a
      foreman or a supervisor, every path ends on a screen within two
      redirects, and each protected route on the user's own home. */
  lemma Settles(path: string, isAuthenticated: bool, userRole: Option<string>)
    ensures !isAuthenticated ==> Visit(path, isAuthenticated, userRole, 1) == Some(LoginScreen)
    ensures isAuthenticated && userRole == Some("foreman") && Normal(path) in {"/foreman", "/supervisor"} ==>
              Visit(path, isAuthenticated, userRole, 1) == Some(ForemanHome)
    ensures isAuthenticated && userRole == Some("supervisor") && Normal(path) in {"/foreman", "/supervisor"} ==>
              Visit(path, isAuthenticated, userRole, 1) == Some(SupervisorHome)
    ensures isAuthenticated && userRole in {Some("foreman"), Some("supervisor")} ==>
              Visit(path, isAuthenticated, userRole, 2).Some?
  {
    RoutesAreNormal();
    assert Route("/login", isAuthenticated, userRole) == Render(LoginScreen);
  }

  /** Signed in with any other role (or no user record), both protected
      routes send the user to `/foreman`, which sends them there again:
      no number of redirects reaches a screen. */
  lemma {:induction false} OtherRolesLoop(isAuthenticated: bool, userRole: Option<string>, hops: nat)
    requires isAuthenticated && userRole !in {Some("foreman"), Some("supervisor")}
    ensures Route("/foreman", isAuthenticated, userRole) == Redirect("/foreman")
    ensures Route("/supervisor", isAuthenticated, userRole) == Redirect("/foreman")
    ensures Visit("/foreman", isAuthenticated, userRole, hops).None?
    decreases hops
  {
    RoutesAreNormal();
    if hops > 0 {
      OtherRolesLoop(isAuthenticated, userRole, hops - 1);
    }
  }
}
