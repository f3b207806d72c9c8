// The mobile navigation menu of HeaderManager: a toggle button and a nav
// list whose class lists (`active` on the button, `mobile-menu` and `active`
// on the list) and the body's `overflow` style are driven by three click
// listeners: the button's, every nav link's, and one on the document.

module Menu {

  const NoOverflow: string := ""
  const OverflowHidden: string := "hidden"

  datatype MenuState = MenuState(
    toggleActive: bool,   // `active` on the toggle button
    navMobileMenu: bool,  // `mobile-menu` on the nav list
    navActive: bool,      // `active` on the nav list
    bodyOverflow: string) // `document.body.style.overflow`

  /** Where a click lands: on the toggle button, on a nav link, elsewhere
      inside the nav list, or outside both. */
  datatype Target = ToggleButton | NavLink | InsideNav | Outside

  /** The toggle button's listener: each class flips on its own, and the
      overflow follows the nav list's `active`. */
  function ToggleClicked(m: MenuState): (r: MenuState)
    ensures r.toggleActive == !m.toggleActive
    ensures r.navMobileMenu == !m.navMobileMenu
    ensures r.navActive == !m.navActive
    ensures r.bodyOverflow == (if r.navActive then OverflowHidden else NoOverflow)
  {
    var navActive := !m.navActive;
    MenuState(!m.toggleActive, !m.navMobileMenu, navActive, if navActive then OverflowHidden else NoOverflow)
  }

  /** Everything closed and the page scrollable again. */
  function Closed(): MenuState
  {
    MenuState(false, false, false, NoOverflow)
  }

  /** A nav link's listener: close unconditionally. */
  function LinkClicked(m: MenuState): (r: MenuState)
    ensures !r.toggleActive && !r.navMobileMenu && !r.navActive
    ensures r.bodyOverflow == NoOverflow
    ensures Consistent(r)
  {
    Closed()
  }

  /** The document's listener: close only when the list is open and the click
      is neither inside the nav list nor inside the toggle button. */
  function DocumentClicked(m: MenuState, inNav: bool, inToggle: bool): (r: MenuState)
    ensures m.navActive && !inNav && !inToggle ==> r == Closed()
    ensures !(m.navActive && !inNav && !inToggle) ==> r == m
  {
    if m.navActive && !inNav && !inToggle then Closed() else m
  }

  /** A click on `t`: the target's own listener runs first, then the click
      bubbles up to the document's listener. */
  function Clicked(m: MenuState, t: Target): (r: MenuState)
    ensures t == ToggleButton ==> r == ToggleClicked(m)
    ensures t == NavLink ==> r == Closed()
    ensures t == InsideNav ==> r == m
    ensures t == Outside ==> r == if m.navActive then Closed() else m
  {
    match t
    case ToggleButton => DocumentClicked(ToggleClicked(m), false, true)
    case NavLink => DocumentClicked(LinkClicked(m), true, false)
    case InsideNav => DocumentClicked(m, true, false)
    case Outside => DocumentClicked(m, false, false)
  }

  function ClickAll(m: MenuState, ts: seq<Target>): MenuState
    decreases ts
  {
    if ts == [] then m else ClickAll(Clicked(m, ts[0]), ts[1..])
  }

  /** The three classes agree, and the page is kept from scrolling exactly
      while the menu is open. */
  predicate Consistent(m: MenuState)
  {
    && m.toggleActive == m.navActive
    && m.navMobileMenu == m.navActive
    && m.bodyOverflow == (if m.navActive then OverflowHidden else NoOverflow)
  }

  /** One click: the toggle button opens a closed menu and closes an open
      one; a link closes it; an outside click closes an open menu and
      leaves a closed one as it was; a click elsewhere in the list changes
      nothing. */
  lemma ClickBehaviour(m: MenuState, t: Target)
    requires Consistent(m)
    ensures Consistent(Clicked(m, t))
    ensures t == ToggleButton ==> Clicked(m, t).navActive == !m.navActive
    ensures t == NavLink ==> Clicked(m, t) == Closed()
    ensures t == Outside && m.navActive ==> Clicked(m, t) == Closed()
    ensures t == Outside && !m.navActive ==> Clicked(m, t) == m
    ensures t == InsideNav ==> Clicked(m, t) == m
  {
  }

  /** From a closed menu, every sequence of clicks keeps the classes equal
      and the overflow tied to the nav list's `active`. */
  lemma {:induction false} AlwaysConsistent(m: MenuState, ts: seq<Target>)
    requires Consistent(m)
    ensures Consistent(ClickAll(m, ts))
    ensures ClickAll(m, ts).bodyOverflow == OverflowHidden <==> ClickAll(m, ts).navActive
    decreases ts
  {
    if ts != [] {
      ClickBehaviour(m, ts[0]);
      AlwaysConsistent(Clicked(m, ts[0]), ts[1..]);
    }
  }

  class MobileMenu {
    var toggleActive: bool
    var navMobileMenu: bool
    var navActive: bool
    var bodyOverflow: string
    /** Whether both the toggle button and the nav list exist; without them
        no listener is bound. */
    const bound: bool

    function State(): MenuState
      reads this
    {
      MenuState(toggleActive, navMobileMenu, navActive, bodyOverflow)
    }

    /** The markup gives the initial classes and overflow. */
    constructor (hasToggle: bool, hasNavList: bool, initial: MenuState)
      ensures bound == (hasToggle && hasNavList)
      ensures State() == initial
    {
      bound := hasToggle && hasNavList;
      toggleActive := initial.toggleActive;
      navMobileMenu := initial.navMobileMenu;
      navActive := initial.navActive;
      bodyOverflow := initial.bodyOverflow;
    }

    method OnToggleClick()
      modifies this
      ensures State() == ToggleClicked(old(State()))
    {
      toggleActive := !toggleActive;
      navMobileMenu := !navMobileMenu;
      navActive := !navActive;
      bodyOverflow := if navActive then OverflowHidden else NoOverflow;
    }

    method OnLinkClick()
      modifies this
      ensures State() == LinkClicked(old(State()))
    {
      toggleActive := false;
      navMobileMenu, navActive := false, false;
      bodyOverflow := NoOverflow;
    }

    method OnDocumentClick(inNav: bool, inToggle: bool)
      modifies this
      ensures State() == DocumentClicked(old(State()), inNav, inToggle)
    {
      if navActive && !inNav && !inToggle {
        toggleActive := false;
        navMobileMenu, navActive := false, false;
        bodyOverflow := NoOverflow;
      }
    }

    /** A click dispatched to the bound listeners in bubbling order. */
    method Click(t: Target)
      modifies this
      ensures State() == if bound then Clicked(old(State()), t) else old(State())
    {
      if bound {
        match t
        case ToggleButton =>
          OnToggleClick();
          OnDocumentClick(false, true);
        case NavLink =>
          OnLinkClick();
          OnDocumentClick(true, false);
        case InsideNav =>
          OnDocumentClick(true, false);
        case Outside =>
          OnDocumentClick(false, false);
      }
    }
  }
}
