// IntroAnimation: a splash element shown once per browsing session. A
// session flag gates a two-timer sequence: after 3000 ms the element gets the
// `hidden` class, 500 ms later it is removed and the flag is set. The timers
// are events here; no clock is modelled.

module Intro {
  import opened Browser

  const SessionKey: string := "vr-intro-shown"
  const ShownValue: string := "true"

  /** The intro element: absent from the markup, displayed, fading out (it
      carries the `hidden` class), or removed from the page. */
  datatype Element = Missing | Displayed | Fading | Removed

  /** The two scheduled callbacks, in the order they are scheduled. */
  datatype Timer = HideTimer | RemoveTimer

  datatype IntroState = IntroState(element: Element, flag: Option<string>, pending: Option<Timer>)

  predicate Present(e: Element)
  {
    e == Displayed || e == Fading
  }

  /** `init`: with the session flag set the element (if any) is removed at
      once and nothing is scheduled; otherwise an existing element stays
      displayed and the first timer is scheduled. The flag is only read. */
  function Start(hasElement: bool, flag: Option<string>): (s: IntroState)
    ensures s.flag == flag
    ensures Truthy(flag) ==> !Present(s.element) && s.pending == None
    ensures Truthy(flag) && hasElement ==> s.element == Removed
    ensures !Truthy(flag) && hasElement ==> s.element == Displayed && s.pending == Some(HideTimer)
    ensures !hasElement ==> s.element == Missing && s.pending == None
  {
    if Truthy(flag) then
      IntroState(if hasElement then Removed else Missing, flag, None)
    else if hasElement then
      IntroState(Displayed, flag, Some(HideTimer))
    else
      IntroState(Missing, flag, None)
  }

  /** The pending timer fires: the first adds the `hidden` class and
      schedules the second; the second removes the element and then sets the
      flag. With nothing scheduled nothing happens. */
  function Fire(s: IntroState): (r: IntroState)
    ensures s.pending == None ==> r == s
    ensures s.pending == Some(HideTimer) ==>
              r.element == Fading && r.flag == s.flag && r.pending == Some(RemoveTimer)
    ensures s.pending == Some(RemoveTimer) ==>
              r.element == Removed && r.flag == Some(ShownValue) && r.pending == None
    ensures r.flag != s.flag ==> !Present(r.element)
    ensures Consistent(s) ==> Consistent(r)
  {
    match s.pending
    case None => s
    case Some(HideTimer) => s.(element := Fading, pending := Some(RemoveTimer))
    case Some(RemoveTimer) => s.(element := Removed, flag := Some(ShownValue), pending := None)
  }

  /** The state after the scheduled timers have fired `n` times. */
  function FireTimes(s: IntroState, n: nat): IntroState
  {
    if n == 0 then s else Fire(FireTimes(s, n - 1))
  }

  /** The flag is never set while the element is in the page, and the
      pending timer always matches the element's stage. */
  predicate Consistent(s: IntroState)
  {
    && (Present(s.element) ==> !Truthy(s.flag))
    && (s.element == Displayed <==> s.pending == Some(HideTimer))
    && (s.element == Fading <==> s.pending == Some(RemoveTimer))
  }

  /** Every state the intro goes through, from any start, keeps the flag unset
      while the element is present. */
  lemma {:induction false} AlwaysConsistent(hasElement: bool, flag: Option<string>, n: nat)
    ensures Consistent(FireTimes(Start(hasElement, flag), n))
  {
    if n > 0 {
      AlwaysConsistent(hasElement, flag, n - 1);
    }
  }

  /** With the flag unset and the element present: the first timer only adds
      the `hidden` class; from the second timer on the element is gone and
      the flag is set, and nothing further is scheduled. */
  lemma {:induction false} FirstVisitSequence(flag: Option<string>, n: nat)
    requires !Truthy(flag)
    ensures FireTimes(Start(true, flag), 1) == IntroState(Fading, flag, Some(RemoveTimer))
    ensures n >= 2 ==> FireTimes(Start(true, flag), n) == IntroState(Removed, Some(ShownValue), None)
  {
    if n > 2 {
      FirstVisitSequence(flag, n - 1);
    }
  }

  /** Without an intro element nothing is ever scheduled, so the flag keeps
      whatever value it had: an unset flag is never set. */
  lemma {:induction false} NoElementNoFlag(flag: Option<string>, n: nat)
    ensures FireTimes(Start(false, flag), n) == IntroState(Missing, flag, None)
  {
    if n > 0 {
      NoElementNoFlag(flag, n - 1);
    }
  }

  class IntroAnimation {
    var element: Element
    var pending: Option<Timer>
    const store: Storage

    function State(): IntroState
      reads this, store
    {
      IntroState(element, Get(store.session, SessionKey), pending)
    }

    constructor (store: Storage, hasElement: bool)
      ensures this.store == store
      ensures State() == Start(hasElement, Get(store.session, SessionKey))
    {
      this.store := store;
      if Truthy(Get(store.session, SessionKey)) {
        element := if hasElement then Removed else Missing;
        pending := None;
      } else if hasElement {
        element := Displayed;
        pending := Some(HideTimer);
      } else {
        element := Missing;
        pending := None;
      }
    }

    /** The scheduled timer fires; only the intro key of `sessionStorage`
        may change. */
    method FireTimer()
      requires pending.Some?
      modifies this, store
      ensures State() == Fire(old(State()))
      ensures store.local == old(store.local)
      ensures old(pending) == Some(HideTimer) ==> store.session == old(store.session)
      ensures old(pending) == Some(RemoveTimer) ==> store.session == old(store.session)[SessionKey := ShownValue]
    {
      if pending == Some(HideTimer) {
        element := Fading;
        pending := Some(RemoveTimer);
      } else {
        element := Removed;
        pending := None;
        store.SetSession(SessionKey, ShownValue);
      }
    }
  }
}
