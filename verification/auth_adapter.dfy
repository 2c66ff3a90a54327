/** The auth adapter of lib/auth.ts: the one place that talks to the hosted
    auth gateway. Every gateway reply is an input; each operation returns
    what the TypeScript promise settles to together with the gateway
    requests it issued, in order. */
module AuthAdapter {
  import opened Wrappers
  import Text

  // ---------------------------------------------------------------------
  // Data model
  // ---------------------------------------------------------------------

  /** The `profiles` row, reduced to the fields the front end reads; the
      rest of the row is carried opaquely in `rest`. */
  datatype Profile = Profile(id: string, fullName: Option<string>, avatarUrl: Option<string>, rest: string)

  /** `AuthUser`: identity, e-mail, and the profile row when it was found. */
  datatype AuthUser = AuthUser(id: string, email: string, profile: Option<Profile>)

  /** The gateway's user object. */
  datatype GatewayUser = GatewayUser(id: string, email: string)

  /** A gateway call that answers `{ data: { user }, error }` or throws. */
  datatype UserReply =
    | UserReplied(error: Option<string>, user: Option<GatewayUser>)
    | UserThrew(thrown: string)

  /** A gateway call that answers `{ error }` only, or throws. */
  datatype StatusReply =
    | StatusReplied(error: Option<string>)
    | StatusThrew(thrown: string)

  /** The `profiles` lookup: `{ data, error }`, or a thrown exception. */
  datatype ProfileReply =
    | ProfileReplied(error: Option<string>, row: Option<Profile>)
    | ProfileThrew(thrown: string)

  datatype Provider = Google | Github | Apple

  /** The requests the adapter sends to the gateway. */
  datatype Request =
    | GetUser
    | LookupProfile(userId: string)
    | PasswordSignIn(email: string, password: string)
    | CreateAccount(email: string, password: string, fullName: string)
    | EndSession
    | StartOAuth(provider: Provider)
    | SendResetEmail(email: string)
    | ChangePassword(password: string)
    | Subscribe

  /** What an operation settles to, and the requests it issued. */
  datatype Run<T> = Run(result: T, requests: seq<Request>)

  // ---------------------------------------------------------------------
  // Fixed messages
  // ---------------------------------------------------------------------

  const NotConfiguredMessage := "Supabase not configured"
  const CredentialsPhrase := "invalid login credentials"
  const InvalidCredentialsMessage := "Invalid email or password. Please check your credentials and try again."
  const NoUserFromSignIn := "No user returned from sign in"
  const NoUserFromSignUp := "No user returned from sign up"

  // ---------------------------------------------------------------------
  // getCurrentUser
  // ---------------------------------------------------------------------

  /** `auth.getCurrentUser()`. The profile reply is only consulted when the
      gateway returned a user. A returned profile error is tolerated, but
      an exception from the profile query is caught by the same handler as
      the user query and yields null. */
  function GetCurrentUser(configured: bool, user: UserReply, profile: ProfileReply): (r: Run<Option<AuthUser>>)
    ensures !configured ==> r.result == None && r.requests == []
    ensures configured ==> |r.requests| >= 1 && r.requests[0] == GetUser
    ensures configured && user.UserReplied? && user.error.None? && user.user.Some? ==>
              r.requests == [GetUser, LookupProfile(user.user.value.id)]
    ensures configured && !(user.UserReplied? && user.error.None? && user.user.Some?) ==>
              r.requests == [GetUser]
    ensures r.result.Some? <==>
              configured && user.UserReplied? && user.error.None? && user.user.Some?
              && profile.ProfileReplied?
    ensures r.result.Some? ==>
              r.result.value.id == user.user.value.id
              && r.result.value.email == user.user.value.email
              && r.result.value.profile == profile.row
  {
    if !configured then Run(None, [])
    else match user
      case UserThrew(_) => Run(None, [GetUser])
      case UserReplied(error, u) =>
        if error.Some? || u.None? then Run(None, [GetUser])
        else
          var lookup := [GetUser, LookupProfile(u.value.id)];
          match profile
          case ProfileThrew(_) => Run(None, lookup)
          case ProfileReplied(_, row) => Run(Some(AuthUser(u.value.id, u.value.email, row)), lookup)
  }

  /** A failed profile lookup never turns a valid session into "signed out":
      the user keeps the gateway's id and e-mail and has no profile. */
  lemma ProfileErrorTolerated(u: GatewayUser, message: string)
    ensures GetCurrentUser(true, UserReplied(None, Some(u)), ProfileReplied(Some(message), None)).result
            == Some(AuthUser(u.id, u.email, None))
  {
  }

  // ---------------------------------------------------------------------
  // signIn and the credentials rewrite
  // ---------------------------------------------------------------------

  /** The gateway message reports bad credentials, in any letter case. */
  predicate IsCredentialsError(message: string) {
    Text.Contains(Text.ToLower(message), CredentialsPhrase)
  }

  /** The message `signIn` re-raises for a gateway error. */
  function SignInMessage(message: string): (r: string)
    ensures IsCredentialsError(message) ==> r == InvalidCredentialsMessage
    ensures !IsCredentialsError(message) ==> r == message
  {
    if IsCredentialsError(message) then InvalidCredentialsMessage else message
  }

  /** `auth.signIn(email, password)` */
  function SignIn(configured: bool, email: string, password: string, reply: UserReply): (r: Run<Outcome>)
    ensures !configured ==> r == Run(Fail(NotConfiguredMessage), [])
    ensures configured ==> r.requests == [PasswordSignIn(email, password)]
    ensures configured && reply.UserThrew? ==> r.result == Fail(reply.thrown)
    ensures configured && reply.UserReplied? && reply.error.Some? ==>
              (IsCredentialsError(reply.error.value) ==> r.result == Fail(InvalidCredentialsMessage))
              && (!IsCredentialsError(reply.error.value) ==> r.result == Fail(reply.error.value))
    ensures configured && reply.UserReplied? && reply.error.None? ==>
              (r.result == Pass <==> reply.user.Some?)
              && (reply.user.None? ==> r.result == Fail(NoUserFromSignIn))
  {
    if !configured then Run(Fail(NotConfiguredMessage), [])
    else
      var sent := [PasswordSignIn(email, password)];
      match reply
      case UserThrew(m) => Run(Fail(m), sent)
      case UserReplied(error, user) =>
        if error.Some? then Run(Fail(SignInMessage(error.value)), sent)
        else if user.None? then Run(Fail(NoUserFromSignIn), sent)
        else Run(Pass, sent)
  }

  /** The rewrite is case-insensitive and positional-free: the phrase in
      any letter case, anywhere in the gateway message, yields the
      friendly message. */
  lemma CredentialsPhraseAnywhere(pre: string, phrase: string, post: string)
    requires Text.ToLower(phrase) == CredentialsPhrase
    ensures SignInMessage(pre + phrase + post) == InvalidCredentialsMessage
  {
    Text.ToLowerAppend(pre + phrase, post);
    Text.ToLowerAppend(pre, phrase);
    assert CredentialsPhrase <= CredentialsPhrase;
    Text.ContainsInContext(Text.ToLower(pre), CredentialsPhrase, Text.ToLower(post), CredentialsPhrase);
  }

  /** The wording the gateway uses for a wrong password. */
  const GatewayCredentialsWording := "Invalid login credentials"

  lemma GatewayWordingLowers()
    ensures Text.ToLower(GatewayCredentialsWording) == CredentialsPhrase
  {
    var rest := CredentialsPhrase[1..];
    assert GatewayCredentialsWording == "I" + rest;
    Text.ToLowerFixesLower(rest);
    Text.ToLowerAppend("I", rest);
  }

  /** The gateway's usual wording is rewritten. */
  lemma GatewayWordingRewritten()
    ensures SignIn(true, "a@b.com", "pw", UserReplied(Some(GatewayCredentialsWording), None)).result
            == Fail(InvalidCredentialsMessage)
  {
    GatewayWordingLowers();
    CredentialsPhraseAnywhere("", GatewayCredentialsWording, "");
    assert "" + GatewayCredentialsWording + "" == GatewayCredentialsWording;
  }

  // ---------------------------------------------------------------------
  // signUp
  // ---------------------------------------------------------------------

  /** The `full_name` metadata sent on sign-up: `fullName || ""`. */
  function SentFullName(fullName: Option<string>): (r: string)
    ensures fullName.None? ==> r == ""
    ensures fullName.Some? ==> r == fullName.value
  {
    match fullName
    case None => ""
    case Some(n) => n
  }

  /** `auth.signUp(email, password, fullName?)`. Gateway errors are
      re-raised verbatim: there is no credentials rewrite here. */
  function SignUp(configured: bool, email: string, password: string, fullName: Option<string>, reply: UserReply): (r: Run<Outcome>)
    ensures !configured ==> r == Run(Fail(NotConfiguredMessage), [])
    ensures configured ==> r.requests == [CreateAccount(email, password, fullName.GetOr(""))]
    ensures configured && reply.UserThrew? ==> r.result == Fail(reply.thrown)
    ensures configured && reply.UserReplied? && reply.error.Some? ==> r.result == Fail(reply.error.value)
    ensures configured && reply.UserReplied? && reply.error.None? ==>
              (r.result == Pass <==> reply.user.Some?)
              && (reply.user.None? ==> r.result == Fail(NoUserFromSignUp))
  {
    if !configured then Run(Fail(NotConfiguredMessage), [])
    else
      var sent := [CreateAccount(email, password, SentFullName(fullName))];
      match reply
      case UserThrew(m) => Run(Fail(m), sent)
      case UserReplied(error, user) =>
        if error.Some? then Run(Fail(error.value), sent)
        else if user.None? then Run(Fail(NoUserFromSignUp), sent)
        else Run(Pass, sent)
  }

  /** Sign-up and sign-in disagree on a credentials-worded gateway error:
      only sign-in rewrites it. */
  lemma SignUpKeepsCredentialsWording(email: string, password: string, fullName: Option<string>, message: string)
    requires IsCredentialsError(message) && message != InvalidCredentialsMessage
    ensures SignUp(true, email, password, fullName, UserReplied(Some(message), None)).result == Fail(message)
    ensures SignIn(true, email, password, UserReplied(Some(message), None)).result != Fail(message)
  {
  }

  // ---------------------------------------------------------------------
  // The status-only operations
  // ---------------------------------------------------------------------

  /** The shared shape of `signOut`, `signInWithProvider`, `resetPassword`
      and `updatePassword`: fail fast when unconfigured, otherwise send one
      request and re-raise the gateway's message on error. */
  function StatusCall(configured: bool, request: Request, reply: StatusReply): (r: Run<Outcome>)
    ensures !configured ==> r == Run(Fail(NotConfiguredMessage), [])
    ensures configured ==> r.requests == [request]
    ensures configured ==> (r.result == Pass <==> reply == StatusReplied(None))
    ensures configured && reply.StatusThrew? ==> r.result == Fail(reply.thrown)
    ensures configured && reply.StatusReplied? && reply.error.Some? ==> r.result == Fail(reply.error.value)
  {
    if !configured then Run(Fail(NotConfiguredMessage), [])
    else match reply
      case StatusThrew(m) => Run(Fail(m), [request])
      case StatusReplied(error) =>
        if error.Some? then Run(Fail(error.value), [request]) else Run(Pass, [request])
  }

  /** `auth.signOut()` */
  function SignOut(configured: bool, reply: StatusReply): Run<Outcome> {
    StatusCall(configured, EndSession, reply)
  }

  /** `auth.signInWithProvider(provider)`; the redirect itself belongs to
      the gateway. */
  function SignInWithProvider(configured: bool, provider: Provider, reply: StatusReply): Run<Outcome> {
    StatusCall(configured, StartOAuth(provider), reply)
  }

  /** `auth.resetPassword(email)` */
  function ResetPassword(configured: bool, email: string, reply: StatusReply): Run<Outcome> {
    StatusCall(configured, SendResetEmail(email), reply)
  }

  /** `auth.updatePassword(password)` */
  function UpdatePassword(configured: bool, password: string, reply: StatusReply): Run<Outcome> {
    StatusCall(configured, ChangePassword(password), reply)
  }

  /** Without configuration every mutating operation fails with the same
      message and sends nothing, whatever the gateway would have said;
      `getCurrentUser` answers null and `onAuthStateChange` does not
      subscribe, and neither sends anything. */
  lemma UnconfiguredFailsFast(email: string, password: string, fullName: Option<string>, provider: Provider,
                              user: UserReply, profile: ProfileReply, status: StatusReply)
    ensures GetCurrentUser(false, user, profile) == Run(None, [])
    ensures SignIn(false, email, password, user) == Run(Fail(NotConfiguredMessage), [])
    ensures SignUp(false, email, password, fullName, user) == Run(Fail(NotConfiguredMessage), [])
    ensures SignOut(false, status) == Run(Fail(NotConfiguredMessage), [])
    ensures SignInWithProvider(false, provider, status) == Run(Fail(NotConfiguredMessage), [])
    ensures ResetPassword(false, email, status) == Run(Fail(NotConfiguredMessage), [])
    ensures UpdatePassword(false, password, status) == Run(Fail(NotConfiguredMessage), [])
    ensures Subscription(false) == []
  {
  }

  // ---------------------------------------------------------------------
  // onAuthStateChange
  // ---------------------------------------------------------------------

  /** The session delivered with a change notification (`session?.user`). */
  datatype Session = Session(user: Option<GatewayUser>)

  /** One gateway notification: its event tag, its session, and the reply
      of the profile fetch the handler performs when a user is present. */
  datatype Notification = Notification(event: string, session: Option<Session>, profile: ProfileReply)

  /** The value the adapter hands to the subscriber for one notification. */
  function NotifiedUser(n: Notification): (r: Option<AuthUser>)
    ensures r.None? <==> n.session.None? || n.session.value.user.None?
    ensures r.Some? ==>
              r.value.id == n.session.value.user.value.id
              && r.value.email == n.session.value.user.value.email
    ensures r.Some? && n.profile.ProfileThrew? ==> r.value.profile.None?
    ensures r.Some? && n.profile.ProfileReplied? ==> r.value.profile == n.profile.row
  {
    if n.session.None? || n.session.value.user.None? then None
    else
      var u := n.session.value.user.value;
      match n.profile
      case ProfileThrew(_) => Some(AuthUser(u.id, u.email, None))
      case ProfileReplied(_, row) => Some(AuthUser(u.id, u.email, row))
  }

  /** `auth.onAuthStateChange(callback)` as seen by the subscriber: the
      sequence of values the callback receives for a stream of gateway
      notifications. Unconfigured, the subscription is a no-op and the
      callback is never invoked. */
  function Delivered(configured: bool, stream: seq<Notification>): (r: seq<Option<AuthUser>>)
    ensures !configured ==> r == []
    ensures configured ==> |r| == |stream|
    ensures configured ==> forall i :: 0 <= i < |stream| ==> r[i] == NotifiedUser(stream[i])
  {
    if !configured then [] else seq(|stream|, i requires 0 <= i < |stream| => NotifiedUser(stream[i]))
  }

  /** The requests taken by subscribing: one registration, or none when
      unconfigured. */
  function Subscription(configured: bool): (r: seq<Request>)
    ensures |r| <= 1
    ensures configured <==> r == [Subscribe]
    ensures !configured ==> r == []
  {
    if configured then [Subscribe] else []
  }
}
