/** How the pieces meet on the home page: the controller state of
    hooks/use-auth.tsx, the view of app/page.tsx, and the handlers of the
    sign-in page and the dashboard, through a sign-in and a sign-out. */
module AppFlow {
  import opened Wrappers
  import opened AuthAdapter
  import AuthSession
  import HomeView
  import MainDashboard
  import SignInForm

  /** What the page shows for a controller state and a view, after the
      redirect effect has run. */
  function Shown(s: AuthSession.State, view: HomeView.View): HomeView.Screen {
    HomeView.Render(s.loading, s.user, HomeView.Redirect(s.loading, s.user, view))
  }

  /** Signing out from the dashboard: while the gateway's notification is
      pending the loading screen is shown; once it arrives the landing page
      is. If the controller call fails, the dashboard stays. */
  lemma DashboardSignOut(u: AuthUser, outcome: Outcome)
    ensures var settled := AuthSession.Call(AuthSession.State(Some(u), false), AuthSession.SignOutOp, outcome);
            var view := if MainDashboard.ReportSignedOut in MainDashboard.HandleSignOut(outcome)
                        then HomeView.Handle(HomeView.Dashboard, HomeView.SignedOut) else HomeView.Dashboard;
            && (outcome == Pass ==> Shown(settled.state, view) == HomeView.LoadingScreen)
            && (outcome == Pass ==>
                  Shown(AuthSession.Step(settled.state, AuthSession.Notify(None)), view) == HomeView.LandingScreen)
            && (outcome.Fail? ==> Shown(settled.state, view) == HomeView.DashboardScreen(u))
  {
  }

  /** Signing in from the sign-in page: the page's handler already asks for
      the dashboard, but the loading screen is shown until the controller
      is notified, and then the dashboard of the notified user. */
  lemma SignInThenNotified(s: AuthSession.State, u: AuthUser)
    ensures var settled := AuthSession.Call(s, AuthSession.SignInOp, Pass);
            var view := HomeView.Handle(HomeView.SignIn, HomeView.SignedIn);
            && Shown(settled.state, view) == HomeView.LoadingScreen
            && Shown(AuthSession.Step(settled.state, AuthSession.Notify(Some(u))), view) == HomeView.DashboardScreen(u)
  {
  }

  /** A failed sign-in leaves the sign-in page on screen. */
  lemma FailedSignInStays(message: string)
    ensures var settled := AuthSession.Call(AuthSession.State(None, false), AuthSession.SignInOp, Fail(message));
            Shown(settled.state, HomeView.SignIn) == HomeView.SignInScreen && settled.raised == Fail(message)
  {
  }

  /** The first screens: loading until the initial lookup resolves, then
      the dashboard of the user it found or the landing page. */
  lemma FirstScreen(found: Option<AuthUser>)
    ensures Shown(AuthSession.Initial, HomeView.InitialView) == HomeView.LoadingScreen
    ensures Shown(AuthSession.Step(AuthSession.Initial, AuthSession.Lookup(found)), HomeView.InitialView)
            == (if found.Some? then HomeView.DashboardScreen(found.value) else HomeView.LandingScreen)
  {
  }

  // ---------------------------------------------------------------------
  // The gateway's notifications reaching the controller
  // ---------------------------------------------------------------------

  /** The callback invocations, as controller events. */
  function NotifyAll(delivered: seq<Option<AuthUser>>): (r: seq<AuthSession.Event>)
    ensures |r| == |delivered|
    ensures forall i :: 0 <= i < |delivered| ==> r[i] == AuthSession.Notify(delivered[i])
  {
    seq(|delivered|, i requires 0 <= i < |delivered| => AuthSession.Notify(delivered[i]))
  }

  /** The controller subscribed through the adapter ends on the user of the
      gateway's last notification, not loading. Unconfigured, nothing is
      delivered and the controller is left as it was. */
  lemma ControllerFollowsGateway(s: AuthSession.State, configured: bool, stream: seq<Notification>)
    ensures !configured ==> AuthSession.Replay(s, NotifyAll(Delivered(configured, stream))) == s
    ensures configured && |stream| > 0 ==>
              AuthSession.Replay(s, NotifyAll(Delivered(configured, stream)))
              == AuthSession.State(NotifiedUser(stream[|stream| - 1]), false)
  {
    if configured && |stream| > 0 {
      AuthSession.LastNotificationWins(s, Delivered(configured, stream));
    }
  }

  // ---------------------------------------------------------------------
  // The sign-in page is unmounted while a call is awaited
  // ---------------------------------------------------------------------

  /** The controller call behind a sign-in page call. */
  function OpOf(call: SignInForm.AuthCall): AuthSession.Op {
    match call
    case CallSignIn(_, _) => AuthSession.SignInOp
    case CallSignUp(_, _, _) => AuthSession.SignUpOp
    case CallProvider(p) => AuthSession.ProviderOp(p)
  }

  /** React keeps a component's state only while it stays mounted: a page
      that was replaced by another screen comes back in its initial state. */
  function Remounted(kept: SignInForm.Form, stayedMounted: bool): SignInForm.Form {
    if stayedMounted then kept else SignInForm.Blank
  }

  /** Every call the sign-in page makes sets the controller loading before
      its first await, so the page draws the loading screen and the form is
      unmounted. When the call fails the sign-in page is drawn again, but as
      a blank form: the handler's own reset lands on the discarded one. */
  lemma FailedCallResetsForm(s: AuthSession.State, f: SignInForm.Form, b: SignInForm.Button, message: string)
    requires Shown(s, HomeView.SignIn) == HomeView.SignInScreen
    requires SignInForm.Click(f, b, Fail(message)).call.Some?
    ensures var h := SignInForm.Click(f, b, Fail(message));
            var op := OpOf(h.call.value);
            var during := Shown(AuthSession.Step(s, AuthSession.Begin(op)), HomeView.SignIn);
            && during == HomeView.LoadingScreen
            && Shown(AuthSession.Call(s, op, Fail(message)).state, HomeView.SignIn) == HomeView.SignInScreen
            && Remounted(h.after, during == HomeView.SignInScreen) == SignInForm.Blank
  {
  }
}
