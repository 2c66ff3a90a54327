/** The signed-in dashboard of components/main-dashboard.tsx: the name and
    avatar fallbacks in its header and greeting, the sidebar tab, and the
    sign-out button. */
module MainDashboard {
  import opened Wrappers
  import Text
  import opened AuthAdapter

  /** `user.profile?.full_name`, absent when either link is missing. */
  function FullName(u: AuthUser): Option<string> {
    if u.profile.Some? then u.profile.value.fullName else None
  }

  /** The user has a full name JavaScript treats as truthy. */
  predicate Named(u: AuthUser) {
    FullName(u).Some? && FullName(u).value != ""
  }

  /** The avatar fallback: `full_name?.charAt(0) || email.charAt(0).toUpperCase()`.
      The name's initial keeps its case; the e-mail's is upper-cased. */
  function AvatarInitial(u: AuthUser): (r: string)
    ensures |r| <= 1
    ensures Named(u) ==> r == [FullName(u).value[0]]
    ensures !Named(u) && u.email != "" ==> r == [Text.UpperChar(u.email[0])]
    ensures r == "" <==> !Named(u) && u.email == ""
  {
    if Named(u) then FullName(u).value[..1]
    else if u.email == "" then ""
    else [Text.UpperChar(u.email[0])]
  }

  /** The header name: `full_name || "User"`. */
  function DisplayName(u: AuthUser): (r: string)
    ensures r != ""
    ensures Named(u) ==> r == FullName(u).value
    ensures !Named(u) ==> r == "User"
  {
    if Named(u) then FullName(u).value else "User"
  }

  /** `s.split(" ")[0]`: the text before the first space. */
  function FirstWord(s: string): string
    decreases |s|
  {
    if s == [] || s[0] == ' ' then [] else [s[0]] + FirstWord(s[1..])
  }

  /** `FirstWord` is the longest space-free prefix: it is a prefix, holds no
      space, and is followed by a space or the end of the text. */
  lemma {:induction false} FirstWordIsLongestSpaceFreePrefix(s: string)
    ensures FirstWord(s) <= s
    ensures forall i :: 0 <= i < |FirstWord(s)| ==> FirstWord(s)[i] != ' '
    ensures |FirstWord(s)| == |s| || s[|FirstWord(s)|] == ' '
    decreases |s|
  {
    if s != [] && s[0] != ' ' {
      FirstWordIsLongestSpaceFreePrefix(s[1..]);
      var w := FirstWord(s);
      assert w == [s[0]] + FirstWord(s[1..]);
      forall i | 0 <= i < |w| ensures w[i] != ' ' {
        if i > 0 { assert w[i] == FirstWord(s[1..])[i - 1]; }
      }
    }
  }

  /** The greeting's name: `full_name?.split(" ")[0] || "there"`. */
  function GreetingName(u: AuthUser): (r: string)
    ensures r != ""
    ensures r == "there" || (Named(u) && r == FirstWord(FullName(u).value))
    ensures Named(u) && FirstWord(FullName(u).value) != "" ==> r == FirstWord(FullName(u).value)
  {
    if Named(u) && FirstWord(FullName(u).value) != "" then FirstWord(FullName(u).value) else "there"
  }

  /** A name that starts with a space greets "there", and a plain first
      name greets by itself. */
  lemma GreetingExamples(u: AuthUser)
    requires Named(u)
    ensures FullName(u).value[0] == ' ' ==> GreetingName(u) == "there"
    ensures FullName(u).value[0] != ' ' ==> GreetingName(u)[0] == FullName(u).value[0]
  {
  }

  // ---------------------------------------------------------------------
  // Sidebar tab
  // ---------------------------------------------------------------------

  const NavIds := ["overview", "focus", "analytics", "calendar", "settings"]

  const InitialTab := "overview"

  /** Clicking nav item `k` sets the tab to its id. */
  function SelectTab(tab: string, k: nat): string
    requires k < |NavIds|
  {
    NavIds[k]
  }

  /** After a click exactly the clicked item is highlighted, whatever tab
      was active before. */
  lemma ExactlyOneTabHighlighted(tab: string, k: nat)
    requires k < |NavIds|
    ensures forall j :: 0 <= j < |NavIds| ==> (NavIds[j] == SelectTab(tab, k) <==> j == k)
  {
  }

  /** The dashboard opens with the first item, "overview", highlighted. */
  lemma OverviewStartsHighlighted()
    ensures forall j :: 0 <= j < |NavIds| ==> (NavIds[j] == InitialTab <==> j == 0)
  {
  }

  // ---------------------------------------------------------------------
  // Sign out
  // ---------------------------------------------------------------------

  datatype Effect = CallSignOut | ReportSignedOut

  /** `handleSignOut`: the effects it performs, in order, when the
      controller's `signOut` settles with `outcome`. */
  function HandleSignOut(outcome: Outcome): (r: seq<Effect>)
    ensures |r| == (if outcome == Pass then 2 else 1) && r[0] == CallSignOut
    ensures ReportSignedOut in r <==> outcome == Pass
    ensures forall i :: 0 <= i < |r| && r[i] == ReportSignedOut ==> i > 0 && r[i - 1] == CallSignOut
  {
    if outcome == Pass then [CallSignOut, ReportSignedOut] else [CallSignOut]
  }
}
