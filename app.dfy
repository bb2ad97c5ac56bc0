/** The route guards of the application shell. */
module App {
  import opened Base

  /**
   * What a path shows: the loading spinner, a redirect, the wrapped page, or
   * nothing at all for a path the route table does not list.
   */
  datatype View = Spinner | Redirect(to: string) | Children | NoRoute

  /** `ProtectedRoute`. */
  function ProtectedRoute(loading: bool, hasUser: bool, onboardingComplete: bool): (v: View)
    ensures loading ==> v == Spinner
    ensures !loading && !hasUser ==> v == Redirect("/signin")
    ensures !loading && hasUser && !onboardingComplete ==> v == Redirect("/onboarding")
    ensures v == Children <==> !loading && hasUser && onboardingComplete
  {
    if loading then Spinner
    else if !hasUser then Redirect("/signin")
    else if hasUser && !onboardingComplete then Redirect("/onboarding")
    else Children
  }

  /** `PublicRoute`. */
  function PublicRoute(loading: bool, hasUser: bool): (v: View)
    ensures loading ==> v == Spinner
    ensures !loading && hasUser ==> v == Redirect("/")
    ensures v == Children <==> !loading && !hasUser
  {
    if loading then Spinner
    else if hasUser then Redirect("/")
    else Children
  }

  /**
   * The onboarding page, which no guard wraps: a signed-in user sees nothing
   * and is sent home (onboarding is marked complete on the way), anyone else
   * sees the wizard.
   */
  function OnboardingPage(hasUser: bool): (v: View)
    ensures hasUser <==> v == Redirect("/")
    ensures !hasUser <==> v == Children
  {
    if hasUser then Redirect("/") else Children
  }

  datatype Guard = Protected | Public | Unguarded

  const ProtectedPaths: set<string> :=
    {"/", "/map", "/community-watch", "/pink-relief", "/contacts", "/profile", "/fake-call", "/safe-routing"}
  const PublicPaths: set<string> := {"/signin", "/signup"}

  /** The guard each path of the route table is wrapped in; `None` for a path with no route. */
  function GuardOf(path: string): (g: Option<Guard>)
    ensures g == Some(Unguarded) <==> path == "/onboarding"
    ensures g == Some(Public) <==> path in PublicPaths
    ensures g == Some(Protected) <==> path in ProtectedPaths
    ensures g.None? <==> path != "/onboarding" && path !in PublicPaths && path !in ProtectedPaths
  {
    if path == "/onboarding" then Some(Unguarded)
    else if path in PublicPaths then Some(Public)
    else if path in ProtectedPaths then Some(Protected)
    else None
  }

  /** What a path shows for the given session state. */
  function ViewAt(path: string, loading: bool, hasUser: bool, onboardingComplete: bool): View
  {
    match GuardOf(path)
    case Some(Protected) => ProtectedRoute(loading, hasUser, onboardingComplete)
    case Some(Public) => PublicRoute(loading, hasUser)
    case Some(Unguarded) => OnboardingPage(hasUser)
    case None => NoRoute
  }

  /** Whether showing `path` marks onboarding complete (the onboarding page's effect for a signed-in user). */
  function CompletesOnboarding(path: string, hasUser: bool): bool
  {
    path == "/onboarding" && hasUser
  }

  /**
   * Follows at most `hops` redirects from `path` once loading has finished,
   * carrying the onboarding flag along, and returns the view reached.
   */
  function Follow(path: string, hasUser: bool, onboardingComplete: bool, hops: nat): View
    decreases hops
  {
    var v := ViewAt(path, false, hasUser, onboardingComplete);
    if v.Redirect? && hops > 0 then
      Follow(v.to, hasUser, onboardingComplete || CompletesOnboarding(path, hasUser), hops - 1)
    else v
  }

  /**
   * Once loading has finished, following the redirects from any listed path
   * ends on a rendered page after at most three of them, so there is no loop;
   * an unlisted path shows nothing.
   */
  lemma NoRedirectLoop(path: string, hasUser: bool, onboardingComplete: bool)
    ensures GuardOf(path).Some? ==> Follow(path, hasUser, onboardingComplete, 3) == Children
    ensures GuardOf(path).None? ==> Follow(path, hasUser, onboardingComplete, 3) == NoRoute
  {
  }

  /** A signed-in user is never shown a public page, and a visitor never a protected one. */
  lemma GuardsExclusive(path: string, hasUser: bool, onboardingComplete: bool)
    requires GuardOf(path).Some?
    ensures ViewAt(path, false, hasUser, onboardingComplete) == Children ==>
      (GuardOf(path) == Some(Protected) ==> hasUser && onboardingComplete)
      && (GuardOf(path) != Some(Protected) ==> !hasUser)
  {
  }
}
