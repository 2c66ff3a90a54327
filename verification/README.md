# anchorly: authentication and screen-state model

This project models the client side of the anchorly web app in Dafny. It covers:

- the auth adapter that talks to the hosted auth gateway (`lib/auth.ts`);
- the session controller that publishes `{ user, loading }` to the page (`hooks/use-auth.tsx`);
- the OAuth callback router (`app/auth/callback/page.tsx`);
- the top-level view switch (`app/page.tsx`).

It also models the state-holding parts of the screens the page switches between:

- the sign-in form, with its two busy flags;
- the dashboard header, greeting, tabs and sign-out button;
- the onboarding wizard;
- the focus countdown and its `mm:ss` display;
- the mood and dopamine classifiers of the prototype dashboard;
- the landing-page testimonial carousel.

Everything the gateway would answer is an input. `UserReply`, `StatusReply`, `ProfileReply` and `SessionQuery` stand for replies, and a `...Threw` variant stands for a thrown exception. Whether the gateway client exists is the boolean `configured`. Each adapter operation returns what its promise settles to (`Pass` or `Fail(message)`, or an optional user), together with the requests it sent, in order.

The controller is a left fold over events:

- `Lookup` is the initial `getCurrentUser`.
- `Notify` is an `onAuthStateChange` callback.
- `Begin`/`Finish` bracket each controller call.

Notifications may therefore arrive while a call is in flight, as they can in the browser.

Modules, one per source component:

| module | file | models |
|---|---|---|
| `Wrappers` | wrappers.dfy | `Option`, `Outcome` (a settled promise), `Result` |
| `Text` | text.dfy | JavaScript string operations used by the core: `toLowerCase`, `includes`, `trim`, `toString`, `padStart` |
| `AuthAdapter` | auth_adapter.dfy | lib/auth.ts |
| `AuthSession` | auth_session.dfy | hooks/use-auth.tsx |
| `AuthCallback` | auth_callback.dfy | app/auth/callback/page.tsx |
| `HomeView` | home_view.dfy | app/page.tsx |
| `AppFlow` | app_flow.dfy | the controller, the page and the dashboard together |
| `SignInForm` | sign_in_form.dfy | components/sign-in-page.tsx |
| `MainDashboard` | main_dashboard.dfy | components/main-dashboard.tsx |
| `Onboarding` | onboarding.dfy | components/onboarding-flow.tsx |
| `FlowMode` | flow_mode.dfy | components/flow-mode.tsx |
| `MoodDashboard` | mood_dashboard.dfy | dashboard.tsx |
| `Testimonials` | testimonials.dfy | components/landing-page.tsx |

## Model

| member | source | states |
|---|---|---|
| `AuthAdapter.GetCurrentUser` | lib/auth.ts:11-41 | Unconfigured, it answers null and sends nothing. Otherwise it sends the user lookup. Only when a user came back without error does it send one more request: the profile lookup keyed by that user's id. A user comes back exactly when the gateway returned one without error and the profile query did not throw. That user carries the gateway's id and e-mail and the returned profile row. |
| `AuthAdapter.ProfileErrorTolerated` | lib/auth.ts:29-37 | A returned profile error does not sign the user out: the gateway's id and e-mail come back with no profile. |
| `AuthAdapter.SignInMessage` | lib/auth.ts:52-58 | A gateway message containing "invalid login credentials" in any letter case becomes the friendly message. Any other message passes through unchanged. |
| `AuthAdapter.SignIn` | lib/auth.ts:44-64 | Unconfigured, it fails with "Supabase not configured" and sends nothing. Otherwise it sends exactly one password sign-in with the given credentials. A throw, a gateway error (rewritten by `SignInMessage`) and a missing user each fail with their own message. It succeeds exactly when a user came back without error. |
| `AuthAdapter.CredentialsPhraseAnywhere` | lib/auth.ts:55-56 | The rewrite is position- and case-insensitive: the phrase in any letter case, with any text before and after, yields the friendly message. |
| `AuthAdapter.GatewayWordingLowers` | lib/auth.ts:55 | The gateway's own wording "Invalid login credentials" lower-cases to the phrase the adapter looks for. |
| `AuthAdapter.GatewayWordingRewritten` | lib/auth.ts:52-58 | A sign-in answered with the gateway's usual wording fails with the friendly message. |
| `AuthAdapter.SentFullName` | lib/auth.ts:74 | The `full_name` metadata is the given name, or the empty string when none was given. |
| `AuthAdapter.SignUp` | lib/auth.ts:66-89 | Unconfigured, it fails fast and sends nothing. Otherwise it sends one account creation with the e-mail, the password and `SentFullName`. Gateway errors are re-raised verbatim. It succeeds exactly when a user came back without error. |
| `AuthAdapter.SignUpKeepsCredentialsWording` | lib/auth.ts:52-82 | Sign-up and sign-in disagree on a credentials-worded error: sign-up re-raises it and sign-in replaces it. |
| `AuthAdapter.StatusCall` | lib/auth.ts:91-172 | `signOut`, `signInWithProvider`, `resetPassword` and `updatePassword` all fail fast when unconfigured. Otherwise each sends its one request. It succeeds exactly when the gateway answers without error; otherwise it fails with the thrown or returned message. |
| `AuthAdapter.UnconfiguredFailsFast` | lib/auth.ts:12-165 | Without a client, every operation fails with the same message, `getCurrentUser` returns null, and `onAuthStateChange` does not subscribe. No request is sent, whatever the gateway would have said. |
| `AuthAdapter.NotifiedUser` | lib/auth.ts:126-147 | A notification yields a user exactly when its session has one, with the session user's id and e-mail. A thrown profile fetch gives a user without profile; a returned one gives its row. |
| `AppFlow.ControllerFollowsGateway` | lib/auth.ts:121-148 | Through the adapter's subscription, the controller ends on the user the gateway's last notification carries (as `NotifiedUser` derives it), with loading false. Unconfigured, the callback never fires and the controller is left as it was. |
| `AuthAdapter.Subscription` | lib/auth.ts:121-126 | Subscribing registers with the gateway exactly once when configured, and sends nothing at all when not. |
| `AuthSession.InitialLookupSettles` | hooks/use-auth.tsx:19-28 | The provider starts with no user and loading. The initial lookup publishes its result, null included, and ends the loading. |
| `AuthSession.ReplaySnoc` | hooks/use-auth.tsx:22-84 | Applying a trace and then one more event is the same as applying the longer trace: the controller state is a left fold. |
| `AuthSession.ReplayIsLastWrite` | hooks/use-auth.tsx:24-84 | After any interleaving of lookups, notifications and call starts and ends, each field of `{ user, loading }` holds the last value written to it (an independent reference semantics), or its initial value if nothing wrote it. |
| `AuthSession.LastNotificationWins` | hooks/use-auth.tsx:33-37 | After a stream of notifications the user is the last one delivered and loading is false, whatever came before. |
| `AuthSession.NotificationResets` | hooks/use-auth.tsx:33-51 | A notification followed only by events that write nothing (successful sign-in, sign-up or provider starts) fixes the state completely. |
| `AuthSession.LastWriteSkips` | hooks/use-auth.tsx:42-51 | Events that write neither field do not change the last write. |
| `AuthSession.Call` | hooks/use-auth.tsx:42-84 | Each call re-raises the adapter's outcome. A failure clears loading and keeps the user. A success leaves loading on, and only a successful sign-out clears the user. |
| `AuthSession.SignOutTwiceSettles` | hooks/use-auth.tsx:64-73 | Signing out while signed out, then the gateway's sign-out notification, settles on no user and not loading. |
| `AuthSession.SignInWaitsForNotification` | hooks/use-auth.tsx:33-51 | A successful sign-in does not publish a user; the following notification does. |
| `AuthSession.InFlightSignInAfterSignOut` | hooks/use-auth.tsx:33-51 | A sign-out notification arriving while a sign-in is in flight is not undone when the sign-in settles. |
| `AuthSession.AtMostOneLiveSubscription` | hooks/use-auth.tsx:22-40 | Over any sequence of mounts, cleanups (remounts included) and events, every subscription taken is released except that of the live mount: exactly one is open while mounted and none otherwise. |
| `AuthSession.UseAuth` | hooks/use-auth.tsx:102-107 | Outside a provider it fails with "useAuth must be used within an AuthProvider"; inside one it returns that provider's value unchanged. |
| `AuthCallback.HandleCallback` | app/auth/callback/page.tsx:12-39 | Each visit navigates exactly once, to one of the five targets. The session is queried exactly when the client is configured. |
| `AuthCallback.CallbackDecisionTable` | app/auth/callback/page.tsx:13-38 | Each target is reached by exactly its row of the table, both ways. Unconfigured gives `/?error=config`. A throw gives `/?error=unexpected`. A returned error gives `/?error=auth`. A session gives `/`. No session gives `/?view=signin`. |
| `AuthCallback.ErrorBeatsSession` | app/auth/callback/page.tsx:22-30 | A reported error wins over a session that came with it. |
| `HomeView.Redirect` | app/page.tsx:15-23 | While loading, the view is kept. Once settled, a user forces the dashboard. With no user, the dashboard becomes the landing page and the other views are kept. |
| `HomeView.RedirectIdempotent` | app/page.tsx:15-23 | The effect reaches its fixed point in one run, so its own state update does not re-trigger a change. |
| `HomeView.Render` | app/page.tsx:26-66 | The loading screen is drawn exactly while loading. The dashboard is drawn exactly for the dashboard view with a user, and that user is passed to it. The sign-in page is drawn exactly for the sign-in view when not loading. |
| `HomeView.SettledRender` | app/page.tsx:15-66 | Once settled and redirected, a signed-in user sees their dashboard. A signed-out user sees the sign-in page if they were on it, and the landing page otherwise. |
| `HomeView.HandlerTargets` | app/page.tsx:37-55 | Each handler sets its target view whatever the current one. |
| `HomeView.EffectOverridesHandlers` | app/page.tsx:15-55 | The effect overrides the handlers. A reported sign-in without a published user ends on the landing page. A reported sign-out while a user is still published returns to the dashboard. |
| `AppFlow.DashboardSignOut` | components/main-dashboard.tsx:39-54 | Signing out from the dashboard shows the loading screen until the gateway notifies. After that the landing page is shown. A failed sign-out keeps the dashboard. |
| `AppFlow.SignInThenNotified` | components/sign-in-page.tsx:79-86 | After a successful sign-in reported to the page, the loading screen is shown until the notification arrives. After that the notified user's dashboard is shown. |
| `AppFlow.FailedSignInStays` | components/sign-in-page.tsx:88-97 | A failed sign-in re-raises its error and leaves the sign-in page on screen. |
| `AppFlow.FirstScreen` | app/page.tsx:11-35 | The app opens on the loading screen. Once the initial lookup resolves, it shows the dashboard of the user found, or the landing page. |
| `AppFlow.FailedCallResetsForm` | hooks/use-auth.tsx:42-84 | Any call the sign-in page makes replaces the page by the loading screen while awaited. After a failure the sign-in page is drawn again, as a blank form. |
| `SignInForm.HandleSubmit` | components/sign-in-page.tsx:59-98 | With an empty e-mail or password nothing changes and nothing is called. Otherwise only `isLoading` changes: on while the call is awaited, off at the end. A sign-up with a blank name makes no call. Otherwise it makes exactly the sign-up or sign-in call with the form's fields. It reports the credentials to the page exactly when that call succeeded. |
| `SignInForm.BlankNameRejected` | components/sign-in-page.tsx:65-73 | In sign-up mode, the call is skipped exactly when the name is made only of whitespace. |
| `SignInForm.HandleDemoSignIn` | components/sign-in-page.tsx:119-138 | Always signs in with the fixed demo credentials. Only `isLoading` changes: on while the call is awaited, off afterwards. The demo credentials are reported exactly on success. |
| `SignInForm.HandleSocialSignIn` | components/sign-in-page.tsx:100-117 | Starts the chosen provider and marks it busy; nothing else in the form changes. On success the spinner stays on, since the page is left. On failure it is turned off. Nothing is reported to the page. |
| `SignInForm.OneCallAtATime` | components/sign-in-page.tsx:286-447 | While any call is awaited, no button can start another. After a successful social start the page stays locked. |
| `SignInForm.Capitalize` | components/sign-in-page.tsx:106 | Capitalising keeps the length, upper-cases the first character and keeps the rest. |
| `SignInForm.CapitalizeLowersBack` | components/sign-in-page.tsx:106 | Capitalising only changes case: lower-casing undoes it. |
| `SignInForm.RedirectNotices` | components/sign-in-page.tsx:104-107 | The three providers are announced as "Google", "Github" and "Apple". |
| `MainDashboard.AvatarInitial` | components/main-dashboard.tsx:96 | The avatar shows the name's first character as typed. With no name it shows the e-mail's first character upper-cased. It is empty only when both are empty. |
| `MainDashboard.DisplayName` | components/main-dashboard.tsx:100 | The header shows the full name, or "User" when it is missing or empty; never an empty string. |
| `MainDashboard.FirstWordIsLongestSpaceFreePrefix` | components/main-dashboard.tsx:144 | `split(" ")[0]` is the longest prefix without a space. |
| `MainDashboard.GreetingName` | components/main-dashboard.tsx:144 | The greeting uses the first word of the full name, or "there" when that is empty or missing; never an empty string. |
| `MainDashboard.GreetingExamples` | components/main-dashboard.tsx:144 | A name that starts with a space is greeted as "there". Otherwise the greeting starts with the name's first character. |
| `MainDashboard.ExactlyOneTabHighlighted` | components/main-dashboard.tsx:117-127 | After a click, exactly the clicked tab is highlighted. |
| `MainDashboard.OverviewStartsHighlighted` | components/main-dashboard.tsx:35-127 | The dashboard opens with exactly the first item, "overview", highlighted. |
| `MainDashboard.HandleSignOut` | components/main-dashboard.tsx:39-54 | The controller's sign-out is called exactly once, first. The page is told exactly once when it succeeded, after the call, and not at all otherwise. |
| `Onboarding.NextStep` | components/onboarding-flow.tsx:53-59 | Before the last step it advances by one; on the last step it completes without moving. The answers are kept either way. |
| `Onboarding.ContinueGate` | components/onboarding-flow.tsx:117-244 | Continue is enabled on the goal step exactly when a goal is chosen, on the energy step exactly when both blocks are, and on the profile step exactly when both answers are. The welcome and final steps are always enabled. |
| `Onboarding.SetPeak` | components/onboarding-flow.tsx:142 | Choosing a peak block keeps the low block and everything else. |
| `Onboarding.SetLow` | components/onboarding-flow.tsx:161 | Choosing a low block keeps the peak block and everything else. |
| `Onboarding.SetAfternoon` | components/onboarding-flow.tsx:208 | Choosing an afternoon answer keeps the temptation answer and everything else. |
| `Onboarding.SetTemptation` | components/onboarding-flow.tsx:229 | Choosing a temptation keeps the afternoon answer and everything else. |
| `Onboarding.ApplyKeepsCollected` | components/onboarding-flow.tsx:53-244 | An offered action keeps the step within range, never moves back, and keeps every passed step's answers. It completes only from the last step. |
| `Onboarding.PlayKeepsCollected` | components/onboarding-flow.tsx:53-244 | Whatever the user clicks, the step stays in 0..4 and no question step is passed without its answers. `onComplete` is called only from the last step with every answer given. |
| `Onboarding.CompletionScenario` | components/onboarding-flow.tsx:53-282 | Answering the three questions and clicking Continue five times from the welcome screen completes the wizard. |
| `Onboarding.StepLabelReadsBack` | components/onboarding-flow.tsx:303 | On every step, "Step n of 5" is 11 characters and its digit reads back as the 1-based step. |
| `FlowMode.Tick` | components/flow-mode.tsx:20-23 | The interval removes one second while running with time left. Otherwise a second passes without effect. |
| `FlowMode.Settle` | components/flow-mode.tsx:24-27 | At zero the timer is switched off. Time and session type are never touched. |
| `FlowMode.ToggleTimer` | components/flow-mode.tsx:40-42 | Toggling flips running and keeps the time. |
| `FlowMode.RunKeepsValid` | components/flow-mode.tsx:10-42 | Under any clicks and seconds the time stays within 0..1500, is stopped at zero, never grows, and keeps its session type. |
| `FlowMode.Countdown` | components/flow-mode.tsx:17-32 | A running timer loses exactly one second per second, and runs exactly while time is left. |
| `FlowMode.FullSession` | components/flow-mode.tsx:10-32 | A fresh session runs down to zero after 1500 seconds and stops, and nothing moves afterwards. |
| `FlowMode.StoppedStaysStopped` | components/flow-mode.tsx:17-32 | A paused timer never counts down. |
| `FlowMode.ToggleAtZero` | components/flow-mode.tsx:24-42 | Restarting a finished timer is undone by the effect. |
| `FlowMode.FormatTimeRoundTrip` | components/flow-mode.tsx:34-38 | For every non-negative whole second count, the display reads back as that count. The timer only shows 0..1500. |
| `FlowMode.FormatTimeFields` | components/flow-mode.tsx:34-38 | Below 100 minutes the display is `mm:ss`, five characters whose fields read back as the minutes and the seconds. |
| `FlowMode.FormatTimeInjective` | components/flow-mode.tsx:34-38 | Different second counts are displayed differently. |
| `FlowMode.StartDisplay` | components/flow-mode.tsx:10-38 | A fresh session reads "25:00". |
| `MoodDashboard.MoodIconFor` | dashboard.tsx:35-39 | A frown exactly up to 3, a neutral face exactly from 4 to 6, and a smile exactly from 7. |
| `MoodDashboard.MoodIconMonotone` | dashboard.tsx:35-39 | A higher mood never gets a sadder icon. |
| `MoodDashboard.SliderIcons` | dashboard.tsx:14-131 | The slider starts on 7, within 1..10, which is a smile. Values 1..3 frown and values 7..10 smile. |
| `MoodDashboard.BandFor` | dashboard.tsx:191 | Red exactly above 7, yellow exactly for 6 and 7, green exactly up to 5. |
| `MoodDashboard.BarWidth` | dashboard.tsx:193 | The bar is ten percent per level: a multiple of ten whose tenth is the level, within 0..100 for levels 0..10. |
| `MoodDashboard.BandFollowsWidth` | dashboard.tsx:191-193 | A wider bar never has a cooler band. |
| `MoodDashboard.SampleBands` | dashboard.tsx:27-191 | The sample log shows yellow, green, red, green, yellow. |
| `Testimonials.Advance` | components/landing-page.tsx:39-41 | A tick moves to the next testimonial and wraps from the last to the first. |
| `Testimonials.AdvanceByIsRotation` | components/landing-page.tsx:38-43 | `k` ticks rotate a valid index `k` places around the ring. |
| `Testimonials.FullCycleReturns` | components/landing-page.tsx:38-91 | Three ticks return to the same testimonial, and no fewer do. |
| `Testimonials.ClickLightsOnlyThatDot` | components/landing-page.tsx:357-360 | Clicking a dot lights that dot and no other. |
| `Testimonials.CarouselStartsOnFirst` | components/landing-page.tsx:28-360 | The carousel opens on the first testimonial, with only its dot lit. |
| `Testimonials.RunStaysInRange` | components/landing-page.tsx:28-360 | Under any ticks and clicks the index names an existing testimonial. |
| `Text.ToLower` | lib/auth.ts:55 | Lower-casing keeps the length and lower-cases each character. |
| `Text.ToLowerAppend` | lib/auth.ts:55 | Lower-casing distributes over concatenation. |
| `Text.ContainsIffOccurs` | lib/auth.ts:55 | `includes` holds exactly when the text occurs at some position. |
| `Text.TrimEmptyIffAllSpace` | components/sign-in-page.tsx:66 | `trim()` is empty exactly when the text is all whitespace. |
| `Text.DecimalRoundTrip` | components/flow-mode.tsx:37 | `toString()` of a count is non-empty, all digits, and reads back as the count. |
| `Text.PadStartValue` | components/flow-mode.tsx:37 | `padStart` with zeros keeps the digits' value and reaches the width. |

## Left out

- Logging (`console.log`/`console.error`), toasts and their wording are not modelled. This includes the fallbacks `error.message || "..."`; only the social sign-in success notice (`RedirectNotice`) is.
- The "Supabase not configured" branches are kept as written. lib/supabase.ts is not part of this model, and there the client is always created, so in practice `configured` is always true.
- lib/database.ts, lib/supabase.ts and components/reflection-review.tsx are not part of this model.
- The OAuth options (the `redirectTo` URL built from `window.location.origin`, `access_type`, `prompt`) and the reset-password redirect URL are not modelled. Only which provider is started and which e-mail is sent is.
- The gateway's own behaviour (sessions, tokens, the database trigger that creates a profile, row-level security) is not modelled: every reply is an input.
- The event tag of a notification is carried but never inspected, as in the source.
- `session.user.email!` and `user.email!` are copied without a check, as in the source. A missing e-mail is not modelled: `GatewayUser.email` is always a string.
- `AuthSession`: the `async` profile fetch inside the notification handler is treated as atomic. Two overlapping notifications whose fetches settle out of order are not modelled.
- Timers (`setInterval` every second in the flow timer, every five seconds in the carousel) are abstracted into discrete `Second`/`Tick` inputs. Wall-clock time is not modelled.
- The flow timer's progress ring and the onboarding progress bar and percentage use floating point and are left out. So are the skip, volume and exit buttons, which change no modelled state.
- `Text.ToLower`, `Text.UpperChar` and `Text.Trim` work on ASCII only: case conversion maps A-Z and a-z, and the whitespace set is space, tab, line feed, carriage return, vertical tab and form feed. JavaScript's `toLowerCase`, `toUpperCase` and `trim` also act on non-ASCII letters and spaces.
- Markup, animation, mouse tracking, the password-visibility toggle and the sign-up/sign-in mode switch are presentation and are not modelled beyond the form fields they set.
- The dashboard prototype's mood note, the other hard-coded sample data, and the main dashboard's statistics cards are constants with no behaviour and are left out.
- `SignInForm.Disabled` is stated as the shared `disabled` expression of the demo, social and submit buttons. The submit button's spinner text is not modelled.
- JavaScript numbers are modelled as unbounded integers (`int`/`nat`). This is exact for every value the core reaches (0..1500 seconds, mood 1..10, three testimonials). `Text.Decimal` renders plain digits; JavaScript's `toString()` switches to exponent notation from 10^21, which the model does not follow.
- `MainDashboard.AvatarInitial` takes the first Unicode character of the name, whereas JavaScript's `charAt(0)` takes the first UTF-16 code unit. For a name that starts outside the Basic Multilingual Plane the source shows a lone surrogate, and the model shows the whole character. Dafny strings index Unicode scalar values.

## Notes on the source

- The sign-in page does not stay mounted while its calls are awaited. Each controller call sets `loading` before its first await (hooks/use-auth.tsx:43, 54, 65, 76), and app/page.tsx:26-35 then draws the loading screen instead of the page. After a failed call the page is mounted afresh, in sign-in mode with empty fields (`AppFlow.FailedCallResetsForm`). The handlers' own `setIsLoading(false)` and `setSocialLoading(null)` reach the discarded instance. `SignInForm` models one mounted instance. Its busy-flag properties (`OneCallAtATime`, the `after` forms) describe that instance. In the composed app the handler's `setIsLoading(true)` and the controller's `setLoading(true)` run in the same synchronous part of the click. The page is then replaced before the disabled buttons are ever drawn, so a second call is prevented by the unmount rather than by the flags.

- The callback router follows the code: a returned error goes to `/?error=auth`, no session to `/?view=signin`, a throw to `/?error=unexpected`, and a missing client to `/?error=config`.
- The callback router's query strings (`/?error=config`, `/?error=auth`, `/?error=unexpected`, `/?view=signin`) are read by no file of the app. The home page always starts on the landing view (app/page.tsx:11). So the "no session" route shows the landing page, not the sign-in page, and the error routes show no error.
- `getCurrentUser` treats a profile lookup that *returns* an error differently from one that *throws*. The first keeps the user without a profile. The second is caught by the outer handler and yields null, signing the user out. The notification handler instead keeps the user in both cases (`NotifiedUser`).
