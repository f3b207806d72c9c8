// The leading-edge throttle `HeaderManager.throttle(func, limit)`: a gate
// (the closure variable `inThrottle`, initially undefined and so falsy) that
// a call closes and a timer, scheduled by that call, reopens `limit` ms
// later. The timer expiry is an explicit event; no clock is modelled.

module Throttle {

  datatype Event = Call | Expire

  /** What one event does to the gate: the new `inThrottle` and whether the
      wrapped function ran. */
  datatype Step = Step(closed: bool, ran: bool)

  function Next(closed: bool, e: Event): (r: Step)
    ensures e == Call ==> r.ran == !closed && r.closed
    ensures e == Expire ==> !r.ran && !r.closed
  {
    match e
    case Call => if closed then Step(true, false) else Step(true, true)
    case Expire => Step(false, false)
  }

  /** The gate after a sequence of events. */
  function After(closed: bool, es: seq<Event>): bool
    decreases es
  {
    if es == [] then closed else After(Next(closed, es[0]).closed, es[1..])
  }

  /** How many times the wrapped function runs during a sequence of events. */
  function Runs(closed: bool, es: seq<Event>): nat
    decreases es
  {
    if es == [] then 0
    else (if Next(closed, es[0]).ran then 1 else 0) + Runs(Next(closed, es[0]).closed, es[1..])
  }

  function Expiries(es: seq<Event>): nat
  {
    if es == [] then 0 else (if es[0] == Expire then 1 else 0) + Expiries(es[1..])
  }

  /** Within one window (no expiry): a closed gate runs nothing and stays
      closed; an open gate runs the function exactly once, on the first call,
      and is closed afterwards. */
  lemma {:induction false} OneRunPerWindow(closed: bool, es: seq<Event>)
    requires Expire !in es
    ensures closed ==> Runs(closed, es) == 0 && After(closed, es)
    ensures !closed && es != [] ==> Runs(closed, es) == 1 && After(closed, es)
    decreases es
  {
    if es != [] {
      assert es[0] == Call;
      assert Expire !in es[1..] by {
        forall k | 0 <= k < |es[1..]| ensures es[1..][k] != Expire {
          assert es[1..][k] == es[k + 1];
        }
      }
      OneRunPerWindow(true, es[1..]);
    }
  }

  /** Over any sequence of events the function runs at most once more than
      the timer expires, and not even that once if the gate starts closed. */
  lemma {:induction false} RunsBoundedByExpiries(closed: bool, es: seq<Event>)
    ensures Runs(closed, es) <= Expiries(es) + (if closed then 0 else 1)
    decreases es
  {
    if es != [] {
      RunsBoundedByExpiries(Next(closed, es[0]).closed, es[1..]);
    }
  }

  /** The gate as an object: the wrapped function is not modelled, the caller
      runs it when `Enter` says so. */
  class Gate {
    var inThrottle: bool

    constructor ()
      ensures !inThrottle
    {
      inThrottle := false;
    }

    /** The throttled wrapper is called: run the function when the gate is
        open and close it; when closed, run nothing and change nothing. */
    method Enter() returns (run: bool)
      modifies this
      ensures Step(inThrottle, run) == Next(old(inThrottle), Call)
      ensures run <==> !old(inThrottle)
      ensures inThrottle
    {
      run := !inThrottle;
      if run {
        inThrottle := true;
      }
    }

    /** The timer scheduled by the run fires and reopens the gate. */
    method Expire()
      requires inThrottle
      modifies this
      ensures !inThrottle
    {
      inThrottle := false;
    }
  }
}
