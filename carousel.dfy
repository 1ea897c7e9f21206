/**
 * The statistics carousel: one index into the six visualisations, moved
 * forwards and backwards with wrap-around, or set directly by a dot.
 */
module Carousel {
  import opened Text

  /** The number of visualisations the page cycles through. */
  const Count: nat := 6

  /** JavaScript's `%`: the remainder truncated toward zero, negative for a negative dividend. */
  function JsRem(a: int, n: int): (r: int)
    requires n > 0
    ensures a >= 0 ==> r == a % n
    ensures a < 0 ==> -n < r <= 0
  {
    if a >= 0 then a % n else -((-a) % n)
  }

  /** `goToNext`: `(prev + 1) % visualizations.length`. */
  function NextIndex(i: int): (r: int)
    ensures 0 <= i < Count ==> 0 <= r < Count && (r == i + 1 || (i == Count - 1 && r == 0))
  {
    JsRem(i + 1, Count)
  }

  /** `goToPrevious`: `(prev - 1 + visualizations.length) % visualizations.length`. */
  function PrevIndex(i: int): (r: int)
    ensures 0 <= i < Count ==> 0 <= r < Count && (r == i - 1 || (i == 0 && r == Count - 1))
  {
    JsRem(i - 1 + Count, Count)
  }

  /** Next undoes previous and previous undoes next, on every valid index. */
  lemma NextPrevInverse(i: int)
    requires 0 <= i < Count
    ensures PrevIndex(NextIndex(i)) == i
    ensures NextIndex(PrevIndex(i)) == i
  {
  }

  /** Previous from the first visualisation wraps to the last. */
  lemma PrevFromFirst()
    ensures PrevIndex(0) == Count - 1
  {
  }

  /** `k` presses of next. */
  function NextTimes(i: int, k: nat): int {
    if k == 0 then i else NextIndex(NextTimes(i, k - 1))
  }

  /** From a valid index, `k` presses of next move `k` places round the cycle. */
  lemma {:induction false} NextTimesAdvance(i: int, k: nat)
    requires 0 <= i < Count
    ensures NextTimes(i, k) == (i + k) % Count
  {
    if k > 0 {
      NextTimesAdvance(i, k - 1);
    }
  }

  /** Six presses of next return to the starting visualisation. */
  lemma SixNextsIdentity(i: int)
    requires 0 <= i < Count
    ensures NextTimes(i, Count) == i
  {
    NextTimesAdvance(i, Count);
  }

  /** The dots: one per visualisation, highlighted when its index is the current one. */
  function ActiveDots(current: int): (dots: seq<bool>)
    ensures |dots| == Count
    ensures forall k :: 0 <= k < Count ==> (dots[k] <==> k == current)
  {
    seq(Count, k => k == current)
  }

  /** For a valid index exactly one dot is highlighted: the current one. */
  lemma OneActiveDot(current: int)
    requires 0 <= current < Count
    ensures ActiveDots(current)[current]
    ensures forall k :: 0 <= k < Count && ActiveDots(current)[k] ==> k == current
  {
  }

  /** The counter `{currentIndex + 1} / {visualizations.length}`. */
  function CounterText(current: int): string {
    IntToString(current + 1) + " / " + IntToString(Count)
  }

  /** The counter of a valid index is one digit from "1" to "6", then " / 6". */
  lemma CounterShape(current: int)
    requires 0 <= current < Count
    ensures CounterText(current) == [DigitChar(current + 1)] + " / 6"
  {
  }

  class Carousel {
    var currentIndex: int

    predicate Valid()
      reads this
    {
      0 <= currentIndex < Count
    }

    constructor ()
      ensures currentIndex == 0 && Valid()
    {
      currentIndex := 0;
    }

    method GoToNext()
      modifies this
      ensures currentIndex == NextIndex(old(currentIndex))
      ensures old(Valid()) ==> Valid()
    {
      currentIndex := JsRem(currentIndex + 1, Count);
    }

    method GoToPrevious()
      modifies this
      ensures currentIndex == PrevIndex(old(currentIndex))
      ensures old(Valid()) ==> Valid()
    {
      currentIndex := JsRem(currentIndex - 1 + Count, Count);
    }

    /** `goToIndex`: the index is set as given; the dots only ever pass 0 to 5. */
    method GoToIndex(index: int)
      modifies this
      ensures currentIndex == index
      ensures 0 <= index < Count ==> Valid()
    {
      currentIndex := index;
    }
  }
}
