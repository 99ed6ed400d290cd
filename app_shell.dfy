/** The application frame: whether the bottom navigation bar is shown for the
    current route (`showBottomNav`). */
module AppShell {
  import opened Text

  /** The routes that hide the bar by exact match. */
  const HiddenRoutes: set<string> := {"/praise", "/club/search", "/onboarding", "/login"}

  /** The route prefixes that hide the bar. */
  const HiddenPrefixes: seq<string> := ["/profile/edit", "/club/join"]

  predicate ShowBottomNav(path: string) {
    path != "/praise" && path != "/club/search" && path != "/onboarding" && path != "/login"
    && !StartsWith(path, "/profile/edit") && !StartsWith(path, "/club/join")
  }

  /** The bar is hidden exactly for the four routes and everything under
      either prefix, and shown for every other path. */
  lemma {:induction false} NavHiddenExactly(path: string)
    ensures !ShowBottomNav(path) <==>
      path in HiddenRoutes || exists p | p in HiddenPrefixes :: StartsWith(path, p)
  {
    if StartsWith(path, "/profile/edit") { assert HiddenPrefixes[0] == "/profile/edit"; }
    if StartsWith(path, "/club/join") { assert HiddenPrefixes[1] == "/club/join"; }
  }

  /** A prefix hides the bar whatever follows it, slash or not: "/club/joined"
      and "/profile/editor" are hidden too. */
  lemma HiddenUnderPrefix(rest: string)
    ensures !ShowBottomNav("/profile/edit" + rest)
    ensures !ShowBottomNav("/club/join" + rest)
  {
    assert ("/profile/edit" + rest)[..13] == "/profile/edit";
    assert ("/club/join" + rest)[..10] == "/club/join";
  }

  /** "/onboarding" is compared exactly, so its sub-routes keep the bar. */
  lemma {:induction false} OnboardingSubroutesShowNav(rest: string)
    requires rest != ""
    ensures ShowBottomNav("/onboarding" + rest)
  {
    var p := "/onboarding" + rest;
    assert p[1] == 'o';
    assert |p| > |"/onboarding"|;
  }

  /** The rendered frame: the page content and whether the bar follows it. */
  datatype Frame<C> = Frame(content: C, bottomNav: bool)

  /** The page content is rendered on every route; only the bar depends on the path. */
  function Layout<C>(children: C, path: string): (r: Frame<C>)
    ensures r.content == children
    ensures r.bottomNav <==> ShowBottomNav(path)
  {
    Frame(children, ShowBottomNav(path))
  }
}
