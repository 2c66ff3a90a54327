/** The auth session controller of hooks/use-auth.tsx (`AuthProvider` and
    `useAuth`): a `{ user, loading }` pair driven by discrete events.

    Each controller call (`signIn`, `signUp`, `signOut`,
    `signInWithProvider`) is two events: `Begin`, the synchronous
    `setLoading(true)` before the await, and `Finish`, when the adapter's
    promise settles. Any other event, notifications included, may arrive
    in between; the controller does no fencing. */
module AuthSession {
  import opened Wrappers
  import opened AuthAdapter

  datatype State = State(user: Option<AuthUser>, loading: bool)

  /** `useState(null)` and `useState(true)`. */
  const Initial := State(None, true)

  datatype Op = SignInOp | SignUpOp | SignOutOp | ProviderOp(provider: Provider)

  datatype Event =
    | Lookup(found: Option<AuthUser>)      // the initial getCurrentUser() resolves
    | Notify(delivered: Option<AuthUser>)  // the onAuthStateChange callback fires
    | Begin(op: Op)                        // a controller call starts
    | Finish(op: Op, outcome: Outcome)     // the adapter call behind it settles

  /** The effect of one event on the controller state. */
  function Step(s: State, e: Event): State {
    match e
    case Lookup(u) => State(u, false)
    case Notify(u) => State(u, false)
    case Begin(_) => s.(loading := true)
    case Finish(op, outcome) =>
      if outcome.Fail? then s.(loading := false)
      else if op == SignOutOp then s.(user := None)
      else s
  }

  /** The state after a trace of events, applied in arrival order. */
  function Replay(s: State, trace: seq<Event>): State
    decreases |trace|
  {
    if trace == [] then s else Replay(Step(s, trace[0]), trace[1..])
  }

  /** The provider starts signed out and loading; the initial lookup
      publishes its result, null included, and ends the loading. */
  lemma InitialLookupSettles(found: Option<AuthUser>)
    ensures Initial.user.None? && Initial.loading
    ensures Replay(Initial, [Lookup(found)]) == State(found, false)
  {
  }

  lemma {:induction false} ReplaySnoc(s: State, trace: seq<Event>, e: Event)
    ensures Replay(s, trace + [e]) == Step(Replay(s, trace), e)
    decreases |trace|
  {
    if trace == [] {
      assert [] + [e] == [e];
    } else {
      assert (trace + [e])[1..] == trace[1..] + [e];
      ReplaySnoc(Step(s, trace[0]), trace[1..], e);
    }
  }

  // ---------------------------------------------------------------------
  // A reference semantics: every field holds its last write
  // ---------------------------------------------------------------------

  /** The value an event writes to `user`, if it writes one. */
  function UserWrite(e: Event): Option<Option<AuthUser>> {
    match e
    case Lookup(u) => Some(u)
    case Notify(u) => Some(u)
    case Begin(_) => None
    case Finish(op, outcome) => if op == SignOutOp && outcome == Pass then Some(None) else None
  }

  /** The value an event writes to `loading`, if it writes one. */
  function LoadingWrite(e: Event): Option<bool> {
    match e
    case Lookup(_) => Some(false)
    case Notify(_) => Some(false)
    case Begin(_) => Some(true)
    case Finish(_, outcome) => if outcome.Fail? then Some(false) else None
  }

  /** The latest value written by the trace, scanning from its end, or
      `default` when nothing in the trace writes. */
  function LastWrite<T>(trace: seq<Event>, write: Event -> Option<T>, default: T): T
    decreases |trace|
  {
    if trace == [] then default
    else
      var w := write(trace[|trace| - 1]);
      if w.Some? then w.value else LastWrite(trace[..|trace| - 1], write, default)
  }

  /** The controller state is exactly the last write of each field: no
      event has an effect that a later write does not erase. */
  lemma {:induction false} ReplayIsLastWrite(s: State, trace: seq<Event>)
    ensures Replay(s, trace) == State(LastWrite(trace, UserWrite, s.user), LastWrite(trace, LoadingWrite, s.loading))
    decreases |trace|
  {
    if trace != [] {
      var init := trace[..|trace| - 1];
      var e := trace[|trace| - 1];
      assert trace == init + [e];
      ReplaySnoc(s, init, e);
      ReplayIsLastWrite(s, init);
    }
  }

  /** After any non-empty stream of notifications, `user` is the last
      delivered value and `loading` is false, whatever came before. */
  lemma LastNotificationWins(s: State, delivered: seq<Option<AuthUser>>)
    requires |delivered| > 0
    ensures Replay(s, seq(|delivered|, i requires 0 <= i < |delivered| => Notify(delivered[i])))
            == State(delivered[|delivered| - 1], false)
  {
    var trace := seq(|delivered|, i requires 0 <= i < |delivered| => Notify(delivered[i]));
    ReplayIsLastWrite(s, trace);
  }

  /** A notification fixes the state completely, so what happened before
      it (in-flight calls included) does not matter afterwards. */
  lemma NotificationResets(s: State, before: seq<Event>, u: Option<AuthUser>, after: seq<Event>)
    requires forall i :: 0 <= i < |after| ==> UserWrite(after[i]).None? && LoadingWrite(after[i]).None?
    ensures Replay(s, before + [Notify(u)] + after) == State(u, false)
  {
    var trace := before + [Notify(u)] + after;
    ReplayIsLastWrite(s, trace);
    LastWriteSkips(before + [Notify(u)], after, UserWrite, s.user);
    LastWriteSkips(before + [Notify(u)], after, LoadingWrite, s.loading);
  }

  lemma {:induction false} LastWriteSkips<T>(prefix: seq<Event>, after: seq<Event>, write: Event -> Option<T>, default: T)
    requires forall i :: 0 <= i < |after| ==> write(after[i]).None?
    ensures LastWrite(prefix + after, write, default) == LastWrite(prefix, write, default)
    decreases |after|
  {
    if after != [] {
      var t := prefix + after;
      assert t[|t| - 1] == after[|after| - 1];
      assert write(t[|t| - 1]).None?;
      assert t[..|t| - 1] == prefix + after[..|after| - 1];
      assert LastWrite(t, write, default) == LastWrite(t[..|t| - 1], write, default);
      LastWriteSkips(prefix, after[..|after| - 1], write, default);
    } else {
      assert prefix + after == prefix;
    }
  }

  // ---------------------------------------------------------------------
  // The controller calls
  // ---------------------------------------------------------------------

  /** What a controller call leaves behind and what it raises to its caller. */
  datatype Settled = Settled(state: State, raised: Outcome)

  /** A controller call run without interleaving: `setLoading(true)`, the
      adapter call, then the success or failure handling. */
  function Call(s: State, op: Op, outcome: Outcome): (r: Settled)
    ensures r.raised == outcome
    ensures outcome.Fail? ==> r.state == State(s.user, false)
    ensures outcome == Pass && op != SignOutOp ==> r.state == State(s.user, true)
    ensures outcome == Pass && op == SignOutOp ==> r.state == State(None, true)
  {
    var inFlight := Step(s, Begin(op));
    Settled(Step(inFlight, Finish(op, outcome)), outcome)
  }

  /** Signing out when already signed out is harmless: the call succeeds
      and the gateway's SIGNED_OUT notification settles on "no user,
      not loading". */
  lemma SignOutTwiceSettles(s: State)
    requires s.user.None?
    ensures Replay(Call(s, SignOutOp, Pass).state, [Notify(None)]) == State(None, false)
  {
  }

  /** A successful sign-in does not itself publish a user: until a
      notification arrives `user` is unchanged, whatever the adapter did. */
  lemma SignInWaitsForNotification(s: State, u: AuthUser)
    ensures Call(s, SignInOp, Pass).state.user == s.user
    ensures Replay(Call(s, SignInOp, Pass).state, [Notify(Some(u))]) == State(Some(u), false)
  {
  }

  /** The race the controller accepts: a sign-out notification applied
      while a sign-in is in flight is not undone by the sign-in settling,
      and the user stays signed out with `loading` false. */
  lemma InFlightSignInAfterSignOut(s: State)
    ensures Replay(s, [Begin(SignInOp), Notify(None), Finish(SignInOp, Pass)]) == State(None, false)
  {
  }

  // ---------------------------------------------------------------------
  // Provider lifecycle and `useAuth`
  // ---------------------------------------------------------------------

  datatype Phase = Unmounted | Live

  /** The provider instance: whether its mount effect is live, its
      controller state, and how many gateway subscriptions it has taken
      and released so far. */
  datatype Instance = Instance(phase: Phase, state: State, taken: nat, released: nat)

  const Fresh := Instance(Unmounted, Initial, 0, 0)

  datatype LifeEvent = Mount | Unmount | Deliver(e: Event)

  /** The mount effect (empty dependency list) subscribes; its cleanup
      unsubscribes. React may run the effect again after its cleanup (a
      remount), which subscribes afresh. Controller events reach the state
      only while mounted. */
  function LifeStep(p: Instance, e: LifeEvent): Instance {
    match e
    case Mount => if p.phase == Unmounted then p.(phase := Live, taken := p.taken + 1) else p
    case Unmount => if p.phase == Live then p.(phase := Unmounted, released := p.released + 1) else p
    case Deliver(ev) => if p.phase == Live then p.(state := Step(p.state, ev)) else p
  }

  function LifeRun(p: Instance, trace: seq<LifeEvent>): Instance
    decreases |trace|
  {
    if trace == [] then p else LifeRun(LifeStep(p, trace[0]), trace[1..])
  }

  /** Every subscription taken has been released, except the one of a
      live mount. */
  ghost predicate Balanced(p: Instance) {
    p.released <= p.taken && p.taken - p.released == (if p.phase == Live then 1 else 0)
  }

  /** Whatever sequence of mounts, cleanups and events the provider goes
      through, at most one gateway subscription is open at a time: exactly
      one while mounted, none otherwise. */
  lemma {:induction false} AtMostOneLiveSubscription(p: Instance, trace: seq<LifeEvent>)
    requires Balanced(p)
    ensures Balanced(LifeRun(p, trace))
    ensures LifeRun(p, trace).taken - LifeRun(p, trace).released <= 1
    ensures LifeRun(p, trace).phase == Unmounted ==> LifeRun(p, trace).taken == LifeRun(p, trace).released
    decreases |trace|
  {
    if trace != [] {
      AtMostOneLiveSubscription(LifeStep(p, trace[0]), trace[1..]);
    }
  }

  const OutsideProviderMessage := "useAuth must be used within an AuthProvider"

  /** `useAuth()`: the nearest provider's value, or an error outside one. */
  function UseAuth(context: Option<State>): (r: Result<State>)
    ensures r.Err? <==> context.None?
    ensures r.Err? ==> r.message == OutsideProviderMessage
    ensures r.Ok? ==> r.value == context.value
  {
    match context
    case None => Err(OutsideProviderMessage)
    case Some(s) => Ok(s)
  }
}
