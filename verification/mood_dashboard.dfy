/** The integer classifiers of the dashboard.tsx prototype: the mood icon
    chosen from the slider value and the colour band and bar width of each
    dopamine-log entry. */
module MoodDashboard {

  datatype MoodIcon = Frown | Meh | Smile

  /** `getMoodEmoji` */
  function MoodIconFor(value: int): (r: MoodIcon)
    ensures r == Frown <==> value <= 3
    ensures r == Meh <==> 4 <= value <= 6
    ensures r == Smile <==> value >= 7
  {
    if value <= 3 then Frown else if value <= 6 then Meh else Smile
  }

  /** The slider: values 1 to 10 in steps of 1, starting at 7. */
  const MoodMin := 1
  const MoodMax := 10
  const InitialMood := 7

  /** Icons ordered from saddest to happiest. */
  function IconRank(i: MoodIcon): nat {
    match i
    case Frown => 0
    case Meh => 1
    case Smile => 2
  }

  /** A brighter mood never gets a sadder icon. */
  lemma MoodIconMonotone(a: int, b: int)
    requires a <= b
    ensures IconRank(MoodIconFor(a)) <= IconRank(MoodIconFor(b))
  {
  }

  /** Over the slider's range each icon covers a run of three or four
      values, and the slider starts on a smile. */
  lemma SliderIcons()
    ensures MoodIconFor(InitialMood) == Smile && MoodMin <= InitialMood <= MoodMax
    ensures forall v :: MoodMin <= v <= 3 ==> MoodIconFor(v) == Frown
    ensures forall v :: 7 <= v <= MoodMax ==> MoodIconFor(v) == Smile
  {
  }

  datatype Band = Red | Yellow | Green

  /** `level > 7 ? red : level > 5 ? yellow : green` */
  function BandFor(level: int): (r: Band)
    ensures r == Red <==> level > 7
    ensures r == Yellow <==> 5 < level <= 7
    ensures r == Green <==> level <= 5
  {
    if level > 7 then Red else if level > 5 then Yellow else Green
  }

  /** The bar width in percent: `level * 10`. */
  function BarWidth(level: int): (r: int)
    ensures 0 <= level <= 10 ==> 0 <= r <= 100
    ensures r % 10 == 0 && r / 10 == level
  {
    level * 10
  }

  /** Wider bars never fall in a cooler band. */
  lemma BandFollowsWidth(a: int, b: int)
    requires BarWidth(a) <= BarWidth(b)
    ensures BandFor(a) == Red ==> BandFor(b) == Red
    ensures BandFor(b) == Green ==> BandFor(a) == Green
  {
  }

  /** The log the prototype shows: levels 6, 4, 9, 3, 7. */
  const DopamineLevels := [6, 4, 9, 3, 7]

  lemma SampleBands()
    ensures seq(|DopamineLevels|, i requires 0 <= i < |DopamineLevels| => BandFor(DopamineLevels[i]))
            == [Yellow, Green, Red, Green, Yellow]
  {
  }
}
