/** The testimonial carousel of components/landing-page.tsx: an index that
    a five-second interval advances modulo the number of testimonials, and
    dots that jump to an entry. */
module Testimonials {

  /** The landing page lists three testimonials. */
  const Count := 3

  /** `useState(0)` */
  const InitialIndex := 0

  /** One interval tick: `(prev + 1) % testimonials.length`. */
  function Advance(index: nat): (r: nat)
    ensures r < Count
    ensures index < Count - 1 ==> r == index + 1
    ensures index == Count - 1 ==> r == 0
  {
    (index + 1) % Count
  }

  /** `k` ticks in a row. */
  function AdvanceBy(index: nat, k: nat): nat
    decreases k
  {
    if k == 0 then index else AdvanceBy(Advance(index), k - 1)
  }

  /** `k` ticks move a valid index `k` places around the ring. */
  lemma {:induction false} AdvanceByIsRotation(index: nat, k: nat)
    requires index < Count
    ensures AdvanceBy(index, k) == (index + k) % Count
    decreases k
  {
    if k > 0 {
      AdvanceByIsRotation(Advance(index), k - 1);
      assert (Advance(index) + (k - 1)) % Count == (index + k) % Count by {
        ModShift(index, k);
      }
    }
  }

  lemma ModShift(index: nat, k: nat)
    requires index < Count && k > 0
    ensures ((index + 1) % Count + (k - 1)) % Count == (index + k) % Count
  {
    if index + 1 == Count {
      assert (index + 1) % Count == 0;
      assert index + k == (k - 1) + Count;
    }
  }

  /** After as many ticks as there are testimonials the carousel is back
      where it started, and no earlier. */
  lemma FullCycleReturns(index: nat)
    requires index < Count
    ensures AdvanceBy(index, Count) == index
    ensures forall k :: 0 < k < Count ==> AdvanceBy(index, k) != index
  {
    AdvanceByIsRotation(index, Count);
    forall k | 0 < k < Count ensures AdvanceBy(index, k) != index {
      AdvanceByIsRotation(index, k);
    }
  }

  /** Clicking dot `i` shows entry `i`. */
  function SelectDot(index: nat, dot: nat): (r: nat)
    requires dot < Count
    ensures r < Count
  {
    dot
  }

  /** A dot is lit exactly when it is the current index. */
  predicate Lit(index: nat, dot: nat) {
    dot == index
  }

  /** Clicking a dot lights that dot and no other. */
  lemma ClickLightsOnlyThatDot(index: nat, dot: nat)
    requires dot < Count
    ensures forall d :: 0 <= d < Count ==> (Lit(SelectDot(index, dot), d) <==> d == dot)
  {
  }

  /** The carousel opens on the first testimonial, with only its dot lit. */
  lemma CarouselStartsOnFirst()
    ensures InitialIndex < Count
    ensures forall d :: 0 <= d < Count ==> (Lit(InitialIndex, d) <==> d == 0)
  {
  }

  datatype Input = Tick | ClickDot(dot: nat)

  function Run(index: nat, inputs: seq<Input>): nat
    requires forall i :: 0 <= i < |inputs| && inputs[i].ClickDot? ==> inputs[i].dot < Count
    decreases |inputs|
  {
    if inputs == [] then index
    else
      var next := match inputs[0]
        case Tick => Advance(index)
        case ClickDot(d) => SelectDot(index, d);
      Run(next, inputs[1..])
  }

  /** Mixing ticks and clicks, the index always names a testimonial, so
      the entry `testimonials[currentTestimonial]` always exists. */
  lemma {:induction false} RunStaysInRange(index: nat, inputs: seq<Input>)
    requires index < Count
    requires forall i :: 0 <= i < |inputs| && inputs[i].ClickDot? ==> inputs[i].dot < Count
    ensures Run(index, inputs) < Count
    decreases |inputs|
  {
    if inputs != [] {
      var next := match inputs[0]
        case Tick => Advance(index)
        case ClickDot(d) => SelectDot(index, d);
      RunStaysInRange(next, inputs[1..]);
    }
  }
}
