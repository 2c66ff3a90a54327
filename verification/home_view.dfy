/** The top-level page of app/page.tsx: a three-way view state, an effect
    that follows the auth controller, the render choice, and the
    navigation handlers it passes down. */
module HomeView {
  import opened Wrappers
  import opened AuthAdapter

  datatype View = Landing | SignIn | Dashboard

  /** `useState("landing")` */
  const InitialView := Landing

  /** The auto-redirect effect, run with the controller's `loading` and
      `user` and the current view. */
  function Redirect(loading: bool, user: Option<AuthUser>, view: View): (r: View)
    ensures loading ==> r == view
    ensures !loading && user.Some? ==> r == Dashboard
    ensures !loading && user.None? ==> r != Dashboard
    ensures !loading && user.None? && view != Dashboard ==> r == view
    ensures !loading && user.None? && view == Dashboard ==> r == Landing
  {
    if !loading && user.Some? then Dashboard
    else if !loading && user.None? && view == Dashboard then Landing
    else view
  }

  /** The effect reaches its fixed point in one run: re-running it after
      its own state update changes nothing. */
  lemma RedirectIdempotent(loading: bool, user: Option<AuthUser>, view: View)
    ensures Redirect(loading, user, Redirect(loading, user, view)) == Redirect(loading, user, view)
  {
  }

  /** What the page draws. */
  datatype Screen = LoadingScreen | SignInScreen | DashboardScreen(user: AuthUser) | LandingScreen

  function Render(loading: bool, user: Option<AuthUser>, view: View): (r: Screen)
    ensures loading <==> r == LoadingScreen
    ensures r.DashboardScreen? <==> !loading && view == Dashboard && user.Some?
    ensures r.DashboardScreen? ==> r.user == user.value
    ensures r == SignInScreen <==> !loading && view == SignIn
  {
    if loading then LoadingScreen
    else if view == SignIn then SignInScreen
    else if view == Dashboard && user.Some? then DashboardScreen(user.value)
    else LandingScreen
  }

  /** Once the effect has run, what is drawn agrees with the controller:
      a signed-in user sees the dashboard and a signed-out one never does,
      and every view other than the dashboard is drawn as itself. */
  lemma SettledRender(loading: bool, user: Option<AuthUser>, view: View)
    requires !loading
    ensures user.Some? ==> Render(loading, user, Redirect(loading, user, view)) == DashboardScreen(user.value)
    ensures user.None? ==> Render(loading, user, Redirect(loading, user, view)) ==
                             (if view == SignIn then SignInScreen else LandingScreen)
  {
  }

  /** The callbacks the page hands to its children. */
  datatype Handler = SignInClick | SignedIn | BackToLanding | SignedOut

  /** `handleSignInClick`, `handleSignIn`, `handleBackToLanding`,
      `handleSignOut`: each sets the view outright. */
  function Handle(view: View, h: Handler): View {
    match h
    case SignInClick => SignIn
    case SignedIn => Dashboard
    case BackToLanding => Landing
    case SignedOut => Landing
  }

  /** Every handler forgets the view it was called from. */
  lemma HandlerTargets(view: View)
    ensures Handle(view, SignInClick) == SignIn
    ensures Handle(view, SignedIn) == Dashboard
    ensures Handle(view, BackToLanding) == Landing && Handle(view, SignedOut) == Landing
  {
  }

  /** A handler's choice can be overridden by the effect: reporting a
      sign-in before the controller has a user still lands on the landing
      page once loading is over, and a sign-out while a user is still
      published bounces back to the dashboard. */
  lemma EffectOverridesHandlers(u: AuthUser, view: View)
    ensures Redirect(false, None, Handle(view, SignedIn)) == Landing
    ensures Redirect(false, Some(u), Handle(view, SignedOut)) == Dashboard
  {
  }
}
