/** The focus countdown of components/flow-mode.tsx: seconds left, a
    run/pause flag, a one-second interval scheduled by an effect, and the
    `mm:ss` display. */
module FlowMode {
  import opened Wrappers
  import Text

  /** 25 minutes, in seconds. */
  const SessionLength := 25 * 60

  datatype Timer = Timer(timeLeft: int, running: bool, sessionType: string)

  const Start := Timer(SessionLength, true, "Focus")

  /** The effect schedules the one-second interval exactly in this case. */
  predicate Ticking(t: Timer) {
    t.running && t.timeLeft > 0
  }

  /** The interval firing: `setTimeLeft(timeLeft - 1)`. Without a
      scheduled interval a second passes with no effect. */
  function Tick(t: Timer): (r: Timer)
    ensures Ticking(t) ==> r.timeLeft == t.timeLeft - 1 && r.running && r.sessionType == t.sessionType
    ensures !Ticking(t) ==> r == t
  {
    if Ticking(t) then t.(timeLeft := t.timeLeft - 1) else t
  }

  /** The effect's other branch: at zero the timer is switched off. */
  function Settle(t: Timer): (r: Timer)
    ensures t.timeLeft == 0 ==> !r.running
    ensures r.timeLeft == t.timeLeft && r.sessionType == t.sessionType
    ensures t.timeLeft != 0 ==> r == t
  {
    if !Ticking(t) && t.timeLeft == 0 then t.(running := false) else t
  }

  /** `toggleTimer` */
  function ToggleTimer(t: Timer): (r: Timer)
    ensures r.running == !t.running
    ensures r.timeLeft == t.timeLeft && r.sessionType == t.sessionType
  {
    t.(running := !t.running)
  }

  datatype Input = Second | Toggle

  /** An input, then the effect that re-runs on the new state. */
  function Step(t: Timer, i: Input): Timer {
    Settle(match i
      case Second => Tick(t)
      case Toggle => ToggleTimer(t))
  }

  function Run(t: Timer, inputs: seq<Input>): Timer
    decreases |inputs|
  {
    if inputs == [] then t else Run(Step(t, inputs[0]), inputs[1..])
  }

  /** The countdown stays within a session and is stopped at zero. */
  ghost predicate Valid(t: Timer) {
    0 <= t.timeLeft <= SessionLength && (t.timeLeft == 0 ==> !t.running)
  }

  /** Whatever the user does, the timer stays valid, never gains time, and
      keeps its session type. */
  lemma {:induction false} RunKeepsValid(t: Timer, inputs: seq<Input>)
    requires Valid(t)
    ensures Valid(Run(t, inputs))
    ensures Run(t, inputs).timeLeft <= t.timeLeft
    ensures Run(t, inputs).sessionType == t.sessionType
    decreases |inputs|
  {
    if inputs != [] {
      RunKeepsValid(Step(t, inputs[0]), inputs[1..]);
    }
  }

  function Seconds(n: nat): (r: seq<Input>)
    ensures |r| == n && forall i :: 0 <= i < n ==> r[i] == Second
  {
    seq(n, _ => Second)
  }

  /** Left running, the timer loses exactly one second per second and
      stops itself on reaching zero. */
  lemma {:induction false} Countdown(t: Timer, n: nat)
    requires t.running && 0 < t.timeLeft && n <= t.timeLeft
    ensures Run(t, Seconds(n)).timeLeft == t.timeLeft - n
    ensures Run(t, Seconds(n)).running <==> t.timeLeft - n > 0
    decreases n
  {
    if n > 0 {
      var next := Step(t, Second);
      assert Seconds(n)[1..] == Seconds(n - 1);
      if n - 1 > 0 {
        Countdown(next, n - 1);
      } else {
        assert Seconds(0) == [];
      }
    }
  }

  /** A whole session runs down to `00:00` and then nothing moves. */
  lemma FullSession(extra: nat)
    ensures Run(Start, Seconds(SessionLength)) == Timer(0, false, "Focus")
    ensures Run(Timer(0, false, "Focus"), Seconds(extra)) == Timer(0, false, "Focus")
  {
    Countdown(Start, SessionLength);
    RunKeepsValid(Start, Seconds(SessionLength));
    StoppedStaysStopped(Timer(0, false, "Focus"), extra);
  }

  /** A paused timer does not count down, however long it waits. */
  lemma {:induction false} StoppedStaysStopped(t: Timer, n: nat)
    requires !t.running
    ensures Run(t, Seconds(n)) == (if n == 0 then t else Settle(t))
    ensures Run(t, Seconds(n)).timeLeft == t.timeLeft
    decreases n
  {
    if n > 0 {
      assert Seconds(n)[1..] == Seconds(n - 1);
      StoppedStaysStopped(Step(t, Second), n - 1);
    }
  }

  /** Starting the timer again at zero is undone by the effect. */
  lemma ToggleAtZero(t: Timer)
    requires t.timeLeft == 0
    ensures Step(t, Toggle) == t.(running := false)
  {
  }

  // ---------------------------------------------------------------------
  // formatTime
  // ---------------------------------------------------------------------

  /** `formatTime(seconds)`: zero-padded minutes, a colon, zero-padded
      seconds. `timeLeft` is never negative, so floor division and `%`
      agree with Dafny's. */
  function FormatTime(seconds: nat): string {
    Text.PadStart(Text.Decimal(seconds / 60), 2) + ":" + Text.PadStart(Text.Decimal(seconds % 60), 2)
  }

  /** Reads an `m…m:ss` display back into seconds. */
  function ParseClock(display: string): Option<nat> {
    if |display| < 4 || display[|display| - 3] != ':' then None
    else
      var mins := display[..|display| - 3];
      var secs := display[|display| - 2..];
      if Text.AllDigits(mins) && Text.AllDigits(secs) && Text.DigitsValue(secs) < 60
      then Some(Text.DigitsValue(mins) * 60 + Text.DigitsValue(secs))
      else None
  }

  lemma FieldFacts(n: nat)
    ensures Text.AllDigits(Text.PadStart(Text.Decimal(n), 2))
    ensures Text.DigitsValue(Text.PadStart(Text.Decimal(n), 2)) == n
    ensures |Text.PadStart(Text.Decimal(n), 2)| >= 2
    ensures n < 100 ==> |Text.PadStart(Text.Decimal(n), 2)| == 2
  {
    Text.DecimalRoundTrip(n);
    Text.DecimalWidth(n);
    Text.PadStartValue(Text.Decimal(n), 2);
  }

  /** The display reads back as the seconds it shows, for every count. */
  lemma FormatTimeRoundTrip(seconds: nat)
    ensures ParseClock(FormatTime(seconds)) == Some(seconds)
  {
    var m := Text.PadStart(Text.Decimal(seconds / 60), 2);
    var s := Text.PadStart(Text.Decimal(seconds % 60), 2);
    FieldFacts(seconds / 60);
    FieldFacts(seconds % 60);
    var d := FormatTime(seconds);
    assert d == m + ":" + s;
    assert d[|d| - 3] == ':';
    assert d[..|d| - 3] == m;
    assert d[|d| - 2..] == s;
  }

  /** Below 100 minutes the display is exactly `mm:ss`, five characters
      whose two fields read back as the minutes and the seconds. */
  lemma FormatTimeFields(seconds: nat)
    requires seconds < 6000
    ensures |FormatTime(seconds)| == 5 && FormatTime(seconds)[2] == ':'
    ensures Text.AllDigits(FormatTime(seconds)[..2]) && Text.DigitsValue(FormatTime(seconds)[..2]) == seconds / 60
    ensures Text.AllDigits(FormatTime(seconds)[3..]) && Text.DigitsValue(FormatTime(seconds)[3..]) == seconds % 60
  {
    var m := Text.PadStart(Text.Decimal(seconds / 60), 2);
    var s := Text.PadStart(Text.Decimal(seconds % 60), 2);
    FieldFacts(seconds / 60);
    FieldFacts(seconds % 60);
    var d := FormatTime(seconds);
    assert d == m + ":" + s;
    assert d[..2] == m;
    assert d[3..] == s;
  }

  /** Distinct second counts are displayed differently. */
  lemma FormatTimeInjective(a: nat, b: nat)
    requires FormatTime(a) == FormatTime(b)
    ensures a == b
  {
    FormatTimeRoundTrip(a);
    FormatTimeRoundTrip(b);
  }

  /** The start of a session reads `25:00`. */
  lemma StartDisplay()
    ensures FormatTime(Start.timeLeft) == "25:00"
  {
    assert Text.Decimal(25) == "25";
    assert Text.Decimal(0) == "0";
  }
}
