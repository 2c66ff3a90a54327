/** The onboarding wizard of components/onboarding-flow.tsx: five steps,
    answers collected on three of them, and a Continue button gated on the
    answers of the step on screen. */
module Onboarding {
  import Text

  const Steps := ["Welcome", "Goals", "Energy", "Profile", "Complete"]

  /** Index of the final step; `nextStep` completes from here. */
  const LastStep := |Steps| - 1

  const GoalIds := ["procrastination", "screen", "study", "energy"]
  const TimeBlocks := ["6-9 AM", "9-12 PM", "12-3 PM", "3-6 PM", "6-9 PM", "9-12 AM"]
  const AfternoonOptions := ["Energized and focused", "Slightly tired but manageable",
                             "Very sluggish and unfocused", "Anxious or restless"]
  const TemptationOptions := ["Social Media", "YouTube/TikTok", "News/Reddit", "Messaging", "Gaming", "Shopping"]

  datatype EnergyMap = EnergyMap(peak: string, low: string)
  datatype FocusProfile = FocusProfile(afternoon: string, temptation: string)

  /** The wizard's state; an empty string means "not chosen yet". */
  datatype Wizard = Wizard(step: nat, goal: string, energy: EnergyMap, profile: FocusProfile)

  const Start := Wizard(0, "", EnergyMap("", ""), FocusProfile("", ""))

  /** The wizard after an action, and whether `onComplete` was called. */
  datatype Advanced = Advanced(wizard: Wizard, completed: bool)

  /** `nextStep` */
  function NextStep(w: Wizard): (r: Advanced)
    ensures w.step < LastStep ==> r.wizard.step == w.step + 1 && !r.completed
    ensures w.step >= LastStep ==> r.wizard.step == w.step && r.completed
    ensures r.wizard.goal == w.goal && r.wizard.energy == w.energy && r.wizard.profile == w.profile
  {
    if w.step < LastStep then Advanced(w.(step := w.step + 1), false)
    else Advanced(w, true)
  }

  /** Whether the step's Continue (or Launch) button is enabled. */
  predicate CanContinue(w: Wizard) {
    if w.step == 1 then w.goal != ""
    else if w.step == 2 then w.energy.peak != "" && w.energy.low != ""
    else if w.step == 3 then w.profile.afternoon != "" && w.profile.temptation != ""
    else true
  }

  /** The Continue button of each question step is enabled exactly when
      that step's answers are given; the welcome and final steps are
      always enabled. */
  lemma ContinueGate(w: Wizard)
    ensures w.step == 1 ==> (CanContinue(w) <==> w.goal != "")
    ensures w.step == 2 ==> (CanContinue(w) <==> w.energy.peak != "" && w.energy.low != "")
    ensures w.step == 3 ==> (CanContinue(w) <==> w.profile.afternoon != "" && w.profile.temptation != "")
    ensures w.step == 0 || w.step >= 4 ==> CanContinue(w)
  {
  }

  /** Choosing a peak block keeps the low block (`{ ...energyMap, peak }`). */
  function SetPeak(w: Wizard, block: string): (r: Wizard)
    ensures r.energy.peak == block && r.energy.low == w.energy.low
    ensures r.step == w.step && r.goal == w.goal && r.profile == w.profile
  {
    w.(energy := w.energy.(peak := block))
  }

  /** Choosing a low block keeps the peak block. */
  function SetLow(w: Wizard, block: string): (r: Wizard)
    ensures r.energy.low == block && r.energy.peak == w.energy.peak
    ensures r.step == w.step && r.goal == w.goal && r.profile == w.profile
  {
    w.(energy := w.energy.(low := block))
  }

  /** Choosing an afternoon answer keeps the temptation answer. */
  function SetAfternoon(w: Wizard, option: string): (r: Wizard)
    ensures r.profile.afternoon == option && r.profile.temptation == w.profile.temptation
    ensures r.step == w.step && r.goal == w.goal && r.energy == w.energy
  {
    w.(profile := w.profile.(afternoon := option))
  }

  /** Choosing a temptation answer keeps the afternoon answer. */
  function SetTemptation(w: Wizard, option: string): (r: Wizard)
    ensures r.profile.temptation == option && r.profile.afternoon == w.profile.afternoon
    ensures r.step == w.step && r.goal == w.goal && r.energy == w.energy
  {
    w.(profile := w.profile.(temptation := option))
  }

  datatype Action =
    | ChooseGoal(id: string)
    | ChoosePeak(peak: string)
    | ChooseLow(low: string)
    | ChooseAfternoon(afternoon: string)
    | ChooseTemptation(temptation: string)
    | Continue

  /** The action is on screen and enabled: choices are drawn from their
      fixed lists on their own step, Continue is gated. */
  predicate Offered(w: Wizard, a: Action) {
    match a
    case ChooseGoal(id) => w.step == 1 && id in GoalIds
    case ChoosePeak(b) => w.step == 2 && b in TimeBlocks
    case ChooseLow(b) => w.step == 2 && b in TimeBlocks
    case ChooseAfternoon(o) => w.step == 3 && o in AfternoonOptions
    case ChooseTemptation(o) => w.step == 3 && o in TemptationOptions
    case Continue => CanContinue(w)
  }

  function Apply(w: Wizard, a: Action): Advanced {
    match a
    case ChooseGoal(id) => Advanced(w.(goal := id), false)
    case ChoosePeak(b) => Advanced(SetPeak(w, b), false)
    case ChooseLow(b) => Advanced(SetLow(w, b), false)
    case ChooseAfternoon(o) => Advanced(SetAfternoon(w, o), false)
    case ChooseTemptation(o) => Advanced(SetTemptation(w, o), false)
    case Continue => NextStep(w)
  }

  /** A session of user actions; `completed` records whether `onComplete`
      was called at any point. */
  function Play(w: Wizard, trace: seq<Action>): Advanced
    decreases |trace|
  {
    if trace == [] then Advanced(w, false)
    else
      var first := Apply(w, trace[0]);
      var rest := Play(first.wizard, trace[1..]);
      Advanced(rest.wizard, first.completed || rest.completed)
  }

  /** Every action of the trace was offered when it was taken. */
  ghost predicate Playable(w: Wizard, trace: seq<Action>)
    decreases |trace|
  {
    trace == [] || (Offered(w, trace[0]) && Playable(Apply(w, trace[0]).wizard, trace[1..]))
  }

  /** The answers each step past the question demands have been given. */
  ghost predicate Collected(w: Wizard) {
    && w.step <= LastStep
    && (w.step >= 2 ==> w.goal != "")
    && (w.step >= 3 ==> w.energy.peak != "" && w.energy.low != "")
    && (w.step >= 4 ==> w.profile.afternoon != "" && w.profile.temptation != "")
  }

  ghost predicate AllAnswered(w: Wizard) {
    w.goal != "" && w.energy.peak != "" && w.energy.low != ""
    && w.profile.afternoon != "" && w.profile.temptation != ""
  }

  lemma ApplyKeepsCollected(w: Wizard, a: Action)
    requires Collected(w) && Offered(w, a)
    ensures Collected(Apply(w, a).wizard)
    ensures Apply(w, a).wizard.step >= w.step
    ensures Apply(w, a).completed ==> w.step == LastStep && Apply(w, a).wizard.step == LastStep
  {
  }

  /** Whatever the user clicks, the step stays in 0..4, no step is passed
      without its answers, and `onComplete` is only ever called from the
      last step with every answer given. */
  lemma {:induction false} PlayKeepsCollected(w: Wizard, trace: seq<Action>)
    requires Collected(w) && Playable(w, trace)
    ensures Collected(Play(w, trace).wizard)
    ensures Play(w, trace).wizard.step >= w.step
    ensures Play(w, trace).completed ==>
              Play(w, trace).wizard.step == LastStep && AllAnswered(Play(w, trace).wizard)
    decreases |trace|
  {
    if trace != [] {
      ApplyKeepsCollected(w, trace[0]);
      PlayKeepsCollected(Apply(w, trace[0]).wizard, trace[1..]);
    }
  }

  /** From the welcome screen, five Continue clicks with the three questions
      answered in between reach `onComplete`. */
  lemma CompletionScenario()
    ensures Playable(Start, [Continue, ChooseGoal("study"), Continue, ChoosePeak("9-12 PM"), ChooseLow("3-6 PM"),
                             Continue, ChooseAfternoon("Anxious or restless"), ChooseTemptation("Gaming"),
                             Continue, Continue])
    ensures Play(Start, [Continue, ChooseGoal("study"), Continue, ChoosePeak("9-12 PM"), ChooseLow("3-6 PM"),
                         Continue, ChooseAfternoon("Anxious or restless"), ChooseTemptation("Gaming"),
                         Continue, Continue]).completed
  {
  }

  /** "Step n of 5" above the progress bar. */
  function StepLabel(w: Wizard): string {
    "Step " + Text.Decimal(w.step + 1) + " of " + Text.Decimal(|Steps|)
  }

  /** On every reachable step the label is 11 characters long and its
      number reads back as the 1-based step. */
  lemma StepLabelReadsBack(w: Wizard)
    requires w.step <= LastStep
    ensures |StepLabel(w)| == 11
    ensures StepLabel(w)[..5] == "Step " && StepLabel(w)[6..] == " of 5"
    ensures Text.AllDigits(StepLabel(w)[5..6]) && Text.DigitsValue(StepLabel(w)[5..6]) == w.step + 1
  {
    Text.DecimalRoundTrip(w.step + 1);
    Text.DecimalWidth(w.step + 1);
    var shown := StepLabel(w);
    assert shown[5..6] == Text.Decimal(w.step + 1);
  }
}
