// HeaderManager's hide-on-scroll header: consecutive scroll samples set a
// direction (two flags), and above a threshold of 50 the header is hidden on
// a downward sample and shown again on an upward one; at or below it the
// header is always shown. Scroll events reach `handleScroll` through the
// 16 ms leading-edge throttle of module Throttle.

module Header {
  import Throttle

  const ScrollThreshold: int := 50

  /** `lastScrollY`, the two direction flags, and whether the header element
      carries the `hidden` class. */
  datatype ScrollState = ScrollState(lastScrollY: int, isScrollingUp: bool, isScrollingDown: bool, hidden: bool)

  /** The state right after construction: no direction yet. */
  function Initial(scrollY: int, hidden: bool): ScrollState
  {
    ScrollState(scrollY, false, false, hidden)
  }

  /** `handleScroll` with the sampled offset `y`. */
  function Scrolled(s: ScrollState, y: int): (r: ScrollState)
    ensures r.lastScrollY == y
    ensures y > s.lastScrollY ==> r.isScrollingDown && !r.isScrollingUp
    ensures y < s.lastScrollY ==> r.isScrollingUp && !r.isScrollingDown
    ensures y == s.lastScrollY ==> r.isScrollingUp == s.isScrollingUp && r.isScrollingDown == s.isScrollingDown
    ensures y <= ScrollThreshold ==> !r.hidden
    ensures y > ScrollThreshold && y > s.lastScrollY ==> r.hidden
    ensures y > ScrollThreshold && y < s.lastScrollY ==> !r.hidden
  {
    var diff := y - s.lastScrollY;
    var down := if diff > 0 then true else if diff < 0 then false else s.isScrollingDown;
    var up := if diff > 0 then false else if diff < 0 then true else s.isScrollingUp;
    var hidden :=
      if y > ScrollThreshold then
        if down && !s.hidden then true
        else if up && s.hidden then false
        else s.hidden
      else false;
    ScrollState(y, up, down, hidden)
  }

  /** The state after a sequence of samples. */
  function Run(s: ScrollState, ys: seq<int>): ScrollState
    decreases ys
  {
    if ys == [] then s else Run(Scrolled(s, ys[0]), ys[1..])
  }

  predicate Exclusive(s: ScrollState)
  {
    !(s.isScrollingUp && s.isScrollingDown)
  }

  /** The two direction flags are never both set, from the initial state on. */
  lemma {:induction false} FlagsStayExclusive(s: ScrollState, ys: seq<int>)
    requires Exclusive(s)
    ensures Exclusive(Run(s, ys))
    decreases ys
  {
    if ys != [] {
      FlagsStayExclusive(Scrolled(s, ys[0]), ys[1..]);
    }
  }

  /** After a sample the state is settled: the header is shown near the top,
      and above the threshold it is hidden exactly when the last direction
      was down and shown when it was up. */
  predicate Settled(s: ScrollState)
  {
    && Exclusive(s)
    && (s.lastScrollY <= ScrollThreshold ==> !s.hidden)
    && (s.lastScrollY > ScrollThreshold && s.isScrollingDown ==> s.hidden)
    && (s.lastScrollY > ScrollThreshold && s.isScrollingUp ==> !s.hidden)
  }

  /** Every sample from a state with exclusive flags leaves a settled state,
      and sampling the same offset again then changes nothing. */
  lemma SampleSettles(s: ScrollState, y: int)
    requires Exclusive(s)
    ensures Settled(Scrolled(s, y))
    ensures Scrolled(Scrolled(s, y), y) == Scrolled(s, y)
  {
  }

  /** Samples that stay at or below the threshold never hide the header,
      whatever their direction: this holds after each of them. */
  predicate NeverHidden(s: ScrollState, ys: seq<int>)
    decreases ys
  {
    ys == [] || (!Scrolled(s, ys[0]).hidden && NeverHidden(Scrolled(s, ys[0]), ys[1..]))
  }

  lemma {:induction false} NearTopNeverHidden(s: ScrollState, ys: seq<int>)
    requires forall i :: 0 <= i < |ys| ==> ys[i] <= ScrollThreshold
    ensures NeverHidden(s, ys)
    decreases ys
  {
    if ys != [] {
      assert ys[0] <= ScrollThreshold;
      NearTopNeverHidden(Scrolled(s, ys[0]), ys[1..]);
    }
  }

  /** A downward direction above the threshold always goes with a hidden
      header; true initially (no direction) and kept by every sample. */
  predicate DownMeansHidden(s: ScrollState)
  {
    Exclusive(s) && (s.isScrollingDown && s.lastScrollY > ScrollThreshold ==> s.hidden)
  }

  /** How many samples take the header from shown to hidden. */
  function Hides(s: ScrollState, ys: seq<int>): nat
    decreases ys
  {
    if ys == [] then 0
    else (if !s.hidden && Scrolled(s, ys[0]).hidden then 1 else 0) + Hides(Scrolled(s, ys[0]), ys[1..])
  }

  /** How many samples move down to an offset above the threshold. */
  function DownSamples(s: ScrollState, ys: seq<int>): nat
    decreases ys
  {
    if ys == [] then 0
    else (if ys[0] > s.lastScrollY && ys[0] > ScrollThreshold then 1 else 0) + DownSamples(Scrolled(s, ys[0]), ys[1..])
  }

  /** The header becomes hidden only on a downward sample above the
      threshold, so it is hidden at most once per such sample. */
  lemma {:induction false} HidesOnlyOnDownSamples(s: ScrollState, ys: seq<int>)
    requires DownMeansHidden(s)
    ensures Hides(s, ys) <= DownSamples(s, ys)
    decreases ys
  {
    if ys != [] {
      var r := Scrolled(s, ys[0]);
      assert DownMeansHidden(r);
      HidesOnlyOnDownSamples(r, ys[1..]);
    }
  }

  predicate StrictlyIncreasing(last: int, ys: seq<int>)
  {
    && (ys != [] ==> last < ys[0])
    && (forall i :: 0 < i < |ys| ==> ys[i - 1] < ys[i])
  }

  /** Continuing downward above the threshold keeps a hidden header hidden
      and never hides it again. */
  lemma {:induction false} ContinuingDownStaysHidden(s: ScrollState, ys: seq<int>)
    requires s.hidden
    requires StrictlyIncreasing(s.lastScrollY, ys)
    requires forall i :: 0 <= i < |ys| ==> ys[i] > ScrollThreshold
    ensures Run(s, ys).hidden
    ensures Hides(s, ys) == 0
    decreases ys
  {
    if ys != [] {
      var r := Scrolled(s, ys[0]);
      assert ys[0] > s.lastScrollY && ys[0] > ScrollThreshold;
      assert StrictlyIncreasing(r.lastScrollY, ys[1..]) by {
        forall i | 0 < i < |ys[1..]|
          ensures ys[1..][i - 1] < ys[1..][i]
        {
          assert ys[1..][i] == ys[i + 1];
        }
        if |ys| > 1 {
          assert ys[0] < ys[1];
        }
      }
      ContinuingDownStaysHidden(r, ys[1..]);
    }
  }

  class HeaderManager {
    var lastScrollY: int
    var isScrollingUp: bool
    var isScrollingDown: bool
    /** Whether the header element carries the `hidden` class. */
    var headerHidden: bool
    /** The throttle wrapped around `handleScroll` for the scroll listener. */
    const gate: Throttle.Gate

    function State(): ScrollState
      reads this
    {
      ScrollState(lastScrollY, isScrollingUp, isScrollingDown, headerHidden)
    }

    /** `scrollY` is the offset when the page script starts; `headerHidden`
        is whether the markup already gives the header the `hidden` class. */
    constructor (scrollY: int, headerHidden: bool)
      ensures State() == Initial(scrollY, headerHidden)
      ensures fresh(gate) && !gate.inThrottle
    {
      lastScrollY := scrollY;
      isScrollingUp := false;
      isScrollingDown := false;
      this.headerHidden := headerHidden;
      gate := new Throttle.Gate();
    }

    method HandleScroll(currentScrollY: int)
      modifies this
      ensures State() == Scrolled(old(State()), currentScrollY)
      ensures lastScrollY == currentScrollY
      ensures currentScrollY <= ScrollThreshold ==> !headerHidden
    {
      var scrollDifference := currentScrollY - lastScrollY;
      if scrollDifference > 0 {
        isScrollingDown := true;
        isScrollingUp := false;
      } else if scrollDifference < 0 {
        isScrollingUp := true;
        isScrollingDown := false;
      }
      if currentScrollY > ScrollThreshold {
        if isScrollingDown && !headerHidden {
          headerHidden := true;
        } else if isScrollingUp && headerHidden {
          headerHidden := false;
        }
      } else {
        headerHidden := false;
      }
      lastScrollY := currentScrollY;
    }

    /** A scroll event at offset `currentScrollY`: handled when the throttle
        is open, which then closes; dropped, changing nothing, when closed. */
    method OnScroll(currentScrollY: int) returns (handled: bool)
      modifies this, gate
      ensures handled <==> !old(gate.inThrottle)
      ensures gate.inThrottle
      ensures State() == if handled then Scrolled(old(State()), currentScrollY) else old(State())
    {
      handled := gate.Enter();
      if handled {
        HandleScroll(currentScrollY);
      }
    }

    /** The throttle's timer fires and reopens the gate; the header is
        untouched. */
    method OnThrottleTimer()
      requires gate.inThrottle
      modifies gate
      ensures !gate.inThrottle
    {
      gate.Expire();
    }
  }
}
