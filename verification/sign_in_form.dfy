/** The sign-in page of components/sign-in-page.tsx: the e-mail form, the
    social buttons and the demo button, with the two busy flags that
    disable every button while a call is in flight. */
module SignInForm {
  import opened Wrappers
  import Text
  import opened AuthAdapter

  datatype Form = Form(isSignUp: bool, email: string, password: string, fullName: string,
                       isLoading: bool, socialLoading: Option<Provider>)

  const Blank := Form(false, "", "", "", false, None)

  const DemoEmail := "demo@anchorly.ai"
  const DemoPassword := "demo123456"

  /** The controller call a handler makes. */
  datatype AuthCall =
    | CallSignIn(email: string, password: string)
    | CallSignUp(email: string, password: string, fullName: string)
    | CallProvider(provider: Provider)

  datatype Credentials = Credentials(email: string, password: string)

  /** What a handler did: the form while its call was awaited, the form
      once it settled, the call it made, and the credentials it reported
      to the page through `onSignIn`. */
  datatype Handled = Handled(inFlight: Form, after: Form, call: Option<AuthCall>, reported: Option<Credentials>)

  /** The demo, social and submit buttons share this `disabled` test. */
  predicate Disabled(f: Form) {
    f.isLoading || f.socialLoading.Some?
  }

  /** `handleSubmit`, with `outcome` the settlement of the call it makes. */
  function HandleSubmit(f: Form, outcome: Outcome): (r: Handled)
    ensures (f.email == "" || f.password == "") ==> r == Handled(f, f, None, None)
    ensures f.email != "" && f.password != "" ==> r.inFlight == f.(isLoading := true)
    ensures f.email != "" && f.password != "" ==> r.after == f.(isLoading := false)
    ensures f.isSignUp && Text.Trim(f.fullName) == "" ==> r.call.None? && r.reported.None?
    ensures r.call.Some? ==> Disabled(r.inFlight)
    ensures r.call.Some? <==>
              f.email != "" && f.password != "" && !(f.isSignUp && Text.Trim(f.fullName) == "")
    ensures r.call.Some? ==>
              r.call.value == (if f.isSignUp then CallSignUp(f.email, f.password, f.fullName)
                               else CallSignIn(f.email, f.password))
    ensures r.reported.Some? <==> r.call.Some? && outcome == Pass
    ensures r.reported.Some? ==> r.reported.value == Credentials(f.email, f.password)
  {
    if f.email == "" || f.password == "" then Handled(f, f, None, None)
    else
      var busy := f.(isLoading := true);
      var done := f.(isLoading := false);
      if f.isSignUp && Text.Trim(f.fullName) == "" then Handled(busy, done, None, None)
      else
        var call := if f.isSignUp then CallSignUp(f.email, f.password, f.fullName) else CallSignIn(f.email, f.password);
        Handled(busy, done, Some(call), if outcome == Pass then Some(Credentials(f.email, f.password)) else None)
  }

  /** In sign-up mode a name made only of whitespace is turned away before
      any call, exactly as an empty one. */
  lemma BlankNameRejected(f: Form, outcome: Outcome)
    requires f.isSignUp && f.email != "" && f.password != ""
    ensures HandleSubmit(f, outcome).call.None? <==> forall i :: 0 <= i < |f.fullName| ==> Text.IsSpace(f.fullName[i])
  {
    Text.TrimEmptyIffAllSpace(f.fullName);
  }

  /** `handleDemoSignIn`: always the fixed demo credentials. */
  function HandleDemoSignIn(f: Form, outcome: Outcome): (r: Handled)
    ensures r.call == Some(CallSignIn(DemoEmail, DemoPassword))
    ensures Disabled(r.inFlight) && !r.after.isLoading
    ensures r.inFlight == f.(isLoading := true) && r.after == f.(isLoading := false)
    ensures r.reported.Some? <==> outcome == Pass
    ensures r.reported.Some? ==> r.reported.value == Credentials(DemoEmail, DemoPassword)
  {
    Handled(f.(isLoading := true), f.(isLoading := false), Some(CallSignIn(DemoEmail, DemoPassword)),
            if outcome == Pass then Some(Credentials(DemoEmail, DemoPassword)) else None)
  }

  /** `handleSocialSignIn`: the provider's spinner stays on after a
      successful start, since the page is about to be left for the
      provider; a failure turns it off. */
  function HandleSocialSignIn(f: Form, p: Provider, outcome: Outcome): (r: Handled)
    ensures r.call == Some(CallProvider(p)) && r.reported.None?
    ensures r.inFlight.socialLoading == Some(p) && Disabled(r.inFlight)
    ensures outcome == Pass ==> r.after.socialLoading == Some(p)
    ensures outcome.Fail? ==> r.after.socialLoading.None?
    ensures r.after.isLoading == f.isLoading
    ensures r.inFlight == f.(socialLoading := Some(p))
    ensures r.after == (if outcome == Pass then r.inFlight else f.(socialLoading := None))
  {
    var busy := f.(socialLoading := Some(p));
    Handled(busy, if outcome == Pass then busy else busy.(socialLoading := None), Some(CallProvider(p)), None)
  }

  /** The buttons of the page. */
  datatype Button = Submit | Demo | Social(provider: Provider)

  /** A click: a disabled button does nothing. */
  function Click(f: Form, b: Button, outcome: Outcome): Handled {
    if Disabled(f) then Handled(f, f, None, None)
    else match b
      case Submit => HandleSubmit(f, outcome)
      case Demo => HandleDemoSignIn(f, outcome)
      case Social(p) => HandleSocialSignIn(f, p, outcome)
  }

  /** While any call is awaited no button can start another one, and a
      successful social start keeps the page locked. */
  lemma OneCallAtATime(f: Form, first: Button, firstOutcome: Outcome, second: Button, secondOutcome: Outcome)
    requires Click(f, first, firstOutcome).call.Some?
    ensures Click(Click(f, first, firstOutcome).inFlight, second, secondOutcome).call.None?
    ensures first.Social? && firstOutcome == Pass ==>
              Click(Click(f, first, firstOutcome).after, second, secondOutcome).call.None?
  {
  }

  // ---------------------------------------------------------------------
  // The redirect notice
  // ---------------------------------------------------------------------

  function ProviderName(p: Provider): string {
    match p
    case Google => "google"
    case Github => "github"
    case Apple => "apple"
  }

  /** `s.charAt(0).toUpperCase() + s.slice(1)` */
  function Capitalize(s: string): (r: string)
    ensures |r| == |s|
    ensures |s| > 0 ==> r[0] == Text.UpperChar(s[0]) && r[1..] == s[1..]
  {
    if s == [] then [] else [Text.UpperChar(s[0])] + s[1..]
  }

  /** Capitalising only changes case: lower-casing undoes it. */
  lemma CapitalizeLowersBack(s: string)
    ensures Text.ToLower(Capitalize(s)) == Text.ToLower(s)
  {
    if s != [] {
      var c := Capitalize(s);
      assert Text.LowerChar(Text.UpperChar(s[0])) == Text.LowerChar(s[0]);
      assert forall i :: 1 <= i < |s| ==> c[i] == s[i] by {
        forall i | 1 <= i < |s| ensures c[i] == s[i] {
          assert c[i] == c[1..][i - 1];
        }
      }
    }
  }

  lemma CapitalizeName(name: string, initial: char)
    requires |name| > 0 && Text.IsLower(name[0]) && initial as int == name[0] as int - 32
    ensures Capitalize(name) == [initial] + name[1..]
  {
  }

  /** The toast shown on a successful social start. */
  function RedirectNotice(p: Provider): string {
    "Signing in with " + Capitalize(ProviderName(p))
  }

  lemma RedirectNotices()
    ensures RedirectNotice(Google) == "Signing in with Google"
    ensures RedirectNotice(Github) == "Signing in with Github"
    ensures RedirectNotice(Apple) == "Signing in with Apple"
  {
    CapitalizeName("google", 'G');
    CapitalizeName("github", 'G');
    CapitalizeName("apple", 'A');
  }
}
