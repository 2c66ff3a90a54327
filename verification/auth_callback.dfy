/** The OAuth callback page of app/auth/callback/page.tsx: after the
    gateway's redirect, query the session once and navigate away. */
module AuthCallback {
  import opened Wrappers

  /** The reply of `getSession()`: `{ data: { session }, error }`, or a
      thrown exception. Only the presence of a session matters here. */
  datatype SessionQuery =
    | SessionReplied(error: Option<string>, hasSession: bool)
    | SessionThrew(thrown: string)

  const ConfigErrorTarget := "/?error=config"
  const AuthErrorTarget := "/?error=auth"
  const RootTarget := "/"
  const SignInTarget := "/?view=signin"
  const UnexpectedTarget := "/?error=unexpected"

  /** One invocation of `handleAuthCallback`: whether the session was
      queried, and the `router.push` calls it made, in order. */
  datatype Visit = Visit(queried: bool, pushes: seq<string>)

  function HandleCallback(configured: bool, query: SessionQuery): (r: Visit)
    ensures |r.pushes| == 1
    ensures r.queried <==> configured
    ensures r.pushes[0] in {ConfigErrorTarget, AuthErrorTarget, RootTarget, SignInTarget, UnexpectedTarget}
  {
    if !configured then Visit(false, [ConfigErrorTarget])
    else match query
      case SessionThrew(_) => Visit(true, [UnexpectedTarget])
      case SessionReplied(error, hasSession) =>
        if error.Some? then Visit(true, [AuthErrorTarget])
        else if hasSession then Visit(true, [RootTarget])
        else Visit(true, [SignInTarget])
  }

  /** The decision table, each row in both directions: every target is
      reached by exactly the inputs listed, and by no others. */
  lemma CallbackDecisionTable(configured: bool, query: SessionQuery)
    ensures HandleCallback(configured, query).pushes == [ConfigErrorTarget] <==> !configured
    ensures HandleCallback(configured, query).pushes == [UnexpectedTarget] <==> configured && query.SessionThrew?
    ensures HandleCallback(configured, query).pushes == [AuthErrorTarget] <==>
              configured && query.SessionReplied? && query.error.Some?
    ensures HandleCallback(configured, query).pushes == [RootTarget] <==>
              configured && query.SessionReplied? && query.error.None? && query.hasSession
    ensures HandleCallback(configured, query).pushes == [SignInTarget] <==>
              configured && query.SessionReplied? && query.error.None? && !query.hasSession
  {
  }

  /** A reported error wins over a session that came with it. */
  lemma ErrorBeatsSession(message: string)
    ensures HandleCallback(true, SessionReplied(Some(message), true)).pushes == [AuthErrorTarget]
  {
  }
}
