/** The application's routes and the `beforeEach` navigation guard: the
    decision it takes for a target route, given what local storage says
    about the user and the token. */
module Router {
  import opened Wrappers
  import Seqs

  /** The route flags the guard reads; a missing flag is false. */
  datatype Meta = Meta(requiresAuth: bool, requiresGuest: bool, isOnboarding: bool)

  /** The stored user, once it has passed `validateUserData`. */
  datatype User = User(onboardingCompleted: bool)

  /** What the guard reads from local storage: the validated user (None
      when missing or invalid) and whether a token is stored. */
  datatype AuthState = AuthState(user: Option<User>, hasToken: bool)

  /** `next()` lets the navigation through; `next(path)` redirects. */
  datatype Decision = Pass | Redirect(path: string)

  datatype Route = Route(path: string, meta: Meta)

  const Guest := Meta(false, true, false)
  const Private := Meta(true, false, false)
  const OnboardingMeta := Meta(true, false, true)

  /** The named routes, in declaration order. The catch-all route, which
      redirects any other path to `/`, is `Resolve`'s fallback. */
  const Routes: seq<Route> := [
    Route("/login", Guest),
    Route("/onboarding", OnboardingMeta),
    Route("/", Private),
    Route("/sintomas", Private),
    Route("/historico", Private),
    Route("/insights", Private),
    Route("/configuracoes", Private),
    Route("/ficha-medica", Private),
    Route("/bem-estar", Private)
  ]

  function HasPath(path: string): Route -> bool {
    (r: Route) => r.path == path
  }

  /** The route a path lands on: the first route with that path; any other
      path is redirected to `/` by the catch-all route before the guard runs. */
  function Resolve(path: string): (r: Route)
    ensures r in Routes
    ensures r.path == path || (r.path == "/" && forall k :: 0 <= k < |Routes| ==> Routes[k].path != path)
  {
    match Seqs.FirstIndex(Routes, HasPath(path))
    case Some(k) => Routes[k]
    case None => Routes[2]
  }

  predicate IsAuthenticated(s: AuthState) {
    s.user.Some? && s.hasToken
  }

  predicate NeedsOnboarding(s: AuthState) {
    s.user.Some? && !s.user.value.onboardingCompleted
  }

  /** The guard's if/else-if chain. */
  function Guard(to: Meta, s: AuthState): (d: Decision)
    ensures to.requiresAuth && !IsAuthenticated(s) ==> d == Redirect("/login")
    ensures to.requiresGuest && IsAuthenticated(s) ==>
      d == Redirect(if NeedsOnboarding(s) then "/onboarding" else "/")
    ensures d.Redirect? ==> d.path in {"/login", "/onboarding", "/"}
  {
    if to.requiresAuth && !IsAuthenticated(s) then Redirect("/login")
    else if to.requiresGuest && IsAuthenticated(s) then
      (if NeedsOnboarding(s) then Redirect("/onboarding") else Redirect("/"))
    else if IsAuthenticated(s) && NeedsOnboarding(s) && !to.isOnboarding then Redirect("/onboarding")
    else if IsAuthenticated(s) && !NeedsOnboarding(s) && to.isOnboarding then Redirect("/")
    else Pass
  }

  /** Who the guard lets through: a route that needs login only when logged
      in, a guest route only when logged out, the onboarding route only
      when onboarding is pending, and any other route to a logged-in user
      only once onboarding is done. */
  lemma GuardPassIff(to: Meta, s: AuthState)
    requires !(to.requiresAuth && to.requiresGuest)
    ensures Guard(to, s) == Pass <==>
      (to.requiresAuth ==> IsAuthenticated(s))
      && (to.requiresGuest ==> !IsAuthenticated(s))
      && (IsAuthenticated(s) ==> (NeedsOnboarding(s) <==> to.isOnboarding))
  {
  }

  /** An authenticated user with onboarding pending is sent to the
      onboarding route from everywhere else, and an onboarded user away
      from it. */
  lemma OnboardingRedirects(to: Meta, s: AuthState)
    requires IsAuthenticated(s) && !to.requiresGuest
    ensures NeedsOnboarding(s) && !to.isOnboarding ==> Guard(to, s) == Redirect("/onboarding")
    ensures !NeedsOnboarding(s) && to.isOnboarding ==> Guard(to, s) == Redirect("/")
  {
  }

  /** No redirect loops: with the same storage, the target of any redirect
      resolves to a route the guard lets through. */
  lemma NoRedirectLoop(path: string, s: AuthState)
    ensures var d := Guard(Resolve(path).meta, s);
      d.Redirect? ==> Resolve(d.path).path == d.path && Guard(Resolve(d.path).meta, s) == Pass
  {
    RedirectTargetPasses(Resolve(path).meta, s);
  }

  lemma RedirectTargetPasses(to: Meta, s: AuthState)
    ensures var d := Guard(to, s);
      d.Redirect? ==> Resolve(d.path).path == d.path && Guard(Resolve(d.path).meta, s) == Pass
  {
    var d := Guard(to, s);
    if d.Redirect? {
      ResolveTargets();
      if d.path == "/login" {
        assert !IsAuthenticated(s);
        assert Guard(Guest, s) == Pass;
      } else if d.path == "/onboarding" {
        assert IsAuthenticated(s) && NeedsOnboarding(s);
        assert Guard(OnboardingMeta, s) == Pass;
      } else {
        assert IsAuthenticated(s) && !NeedsOnboarding(s);
        assert Guard(Private, s) == Pass;
      }
    }
  }

  /** The three redirect targets resolve to their own routes. */
  lemma ResolveTargets()
    ensures Resolve("/login") == Route("/login", Guest)
    ensures Resolve("/onboarding") == Route("/onboarding", OnboardingMeta)
    ensures Resolve("/") == Route("/", Private)
  {
    Seqs.FirstIndexUnique(Routes, HasPath("/login"), 0);
    Seqs.FirstIndexUnique(Routes, HasPath("/onboarding"), 1);
    Seqs.FirstIndexUnique(Routes, HasPath("/"), 2);
  }
}
