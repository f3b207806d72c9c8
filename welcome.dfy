// WelcomePopup: the first click on a nav link to the quiz or headset page
// is held back while a one-time video dialog is shown; dismissing the dialog
// sets a flag in `localStorage` and then follows the held-back link. Once the
// flag is set, such clicks are never intercepted again.

module Welcome {
  import opened Browser
  import opened Paths

  const WelcomeKey: string := "welcomeShown"
  const ShownValue: string := "1"

  /** The link filter of `bindTriggers`: the regular expression
      `(?:quiz\.html|headset\.html)$` with the `i` flag, tested on
      `href || ''`. A missing or empty href never matches, and a bare page
      name always does. */
  predicate IsGatedHref(href: Option<string>): (b: bool)
    ensures b ==> Truthy(href)
    ensures href == Some(QuizPage) || href == Some(HeadsetPage) ==> b
  {
    var h := if Truthy(href) then href.value else "";
    EndsWithIgnoringCase(h, QuizPage) || EndsWithIgnoringCase(h, HeadsetPage)
  }

  /** The links `bindTriggers` binds, in page order: exactly the gated ones. */
  function BoundLinks(hrefs: seq<Option<string>>): (r: seq<Option<string>>)
    ensures |r| <= |hrefs|
    ensures forall h :: h in r ==> h in hrefs && IsGatedHref(h)
    ensures forall h :: h in hrefs && IsGatedHref(h) ==> h in r
  {
    if hrefs == [] then []
    else if IsGatedHref(hrefs[0]) then [hrefs[0]] + BoundLinks(hrefs[1..])
    else BoundLinks(hrefs[1..])
  }

  /** A dialog wrapper: shown, fading out after a dismissal (its removal is
      scheduled), or removed from the page. */
  datatype Wrapper = Open | Closing | Removed

  datatype WelcomeState = WelcomeState(
    flag: Option<string>,         // `localStorage.getItem('welcomeShown')`
    pendingHref: Option<string>,  // `this.pendingHref`
    wrappers: seq<Wrapper>,       // every dialog rendered so far
    navigations: seq<string>)     // every `window.location.href = ...`

  /** The state when the page script starts. */
  function Initial(flag: Option<string>): WelcomeState
  {
    WelcomeState(flag, None, [], [])
  }

  /** Whether a click on a nav link with this href is intercepted: only bound
      links have the handler, and it returns early once the flag is set. */
  predicate Intercepts(s: WelcomeState, href: Option<string>): (b: bool)
    ensures Truthy(s.flag) ==> !b
    ensures !Truthy(s.flag) ==> (b <==> href in BoundLinks([href]))
  {
    IsGatedHref(href) && !Truthy(s.flag)
  }

  /** A click on a nav link: when intercepted, navigation is suppressed, the
      href is remembered and a new dialog is rendered; otherwise the script
      does nothing and the browser follows the link. */
  function Clicked(s: WelcomeState, href: Option<string>): (r: WelcomeState)
    ensures Intercepts(s, href) ==> r.pendingHref == href && r.wrappers == s.wrappers + [Open]
    ensures Intercepts(s, href) ==> r.flag == s.flag && r.navigations == s.navigations
    ensures !Intercepts(s, href) ==> r == s
  {
    if Intercepts(s, href) then s.(pendingHref := href, wrappers := s.wrappers + [Open]) else s
  }

  /** Whether dialog `i` is still in the page and can be dismissed. */
  predicate Dismissable(s: WelcomeState, i: nat)
  {
    i < |s.wrappers| && s.wrappers[i] != Removed
  }

  /** `close()` of dialog `i`: it starts fading out, the flag is set, and a
      remembered href is navigated to and forgotten. */
  function Dismissed(s: WelcomeState, i: nat): (r: WelcomeState)
    ensures Dismissable(s, i) ==> r.flag == Some(ShownValue) && r.wrappers == s.wrappers[i := Closing]
    ensures Dismissable(s, i) && Truthy(s.pendingHref) ==>
              r.navigations == s.navigations + [s.pendingHref.value] && r.pendingHref == None
    ensures Dismissable(s, i) && !Truthy(s.pendingHref) ==>
              r.navigations == s.navigations && r.pendingHref == s.pendingHref
    ensures !Dismissable(s, i) ==> r == s
  {
    if !Dismissable(s, i) then s
    else
      var closing := s.(wrappers := s.wrappers[i := Closing], flag := Some(ShownValue));
      if Truthy(s.pendingHref) then
        closing.(navigations := s.navigations + [s.pendingHref.value], pendingHref := None)
      else closing
  }

  /** A removal timer of dialog `i` fires; a second timer (after a second
      dismissal) finds it already removed. */
  function FadedOut(s: WelcomeState, i: nat): (r: WelcomeState)
    ensures r.flag == s.flag && r.pendingHref == s.pendingHref && r.navigations == s.navigations
    ensures |r.wrappers| == |s.wrappers|
    ensures forall j :: 0 <= j < |s.wrappers| && j != i ==> r.wrappers[j] == s.wrappers[j]
    ensures i < |s.wrappers| && s.wrappers[i] != Open ==> r.wrappers[i] == Removed
    ensures i < |s.wrappers| && s.wrappers[i] == Open ==> r == s
  {
    if i < |s.wrappers| && s.wrappers[i] != Open then s.(wrappers := s.wrappers[i := Removed]) else s
  }

  datatype Event = LinkClick(href: Option<string>) | Dismiss(i: nat) | FadeOut(i: nat)

  function Next(s: WelcomeState, e: Event): WelcomeState
  {
    match e
    case LinkClick(href) => Clicked(s, href)
    case Dismiss(i) => Dismissed(s, i)
    case FadeOut(i) => FadedOut(s, i)
  }

  function RunAll(s: WelcomeState, es: seq<Event>): WelcomeState
    decreases es
  {
    if es == [] then s else RunAll(Next(s, es[0]), es[1..])
  }

  /** A remembered href is always a gated one and is only held while the flag
      is unset; the script navigates at most once, to a gated href, and only
      after setting the flag. */
  predicate Consistent(s: WelcomeState)
  {
    && (s.pendingHref.Some? ==> IsGatedHref(s.pendingHref) && !Truthy(s.flag))
    && |s.navigations| <= 1
    && (|s.navigations| == 1 ==> Truthy(s.flag) && IsGatedHref(Some(s.navigations[0])))
  }

  lemma NextConsistent(s: WelcomeState, e: Event)
    requires Consistent(s)
    ensures Consistent(Next(s, e))
    ensures Truthy(s.flag) ==> Truthy(Next(s, e).flag)
  {
  }

  /** Whatever the visitor does, the script navigates at most once, and only
      to a gated link that was clicked while the flag was unset. */
  lemma {:induction false} NavigatesAtMostOnce(flag: Option<string>, es: seq<Event>)
    ensures Consistent(RunAll(Initial(flag), es))
    ensures |RunAll(Initial(flag), es).navigations| <= 1
  {
    AlwaysConsistent(Initial(flag), es);
  }

  lemma {:induction false} AlwaysConsistent(s: WelcomeState, es: seq<Event>)
    requires Consistent(s)
    ensures Consistent(RunAll(s, es))
    decreases es
  {
    if es != [] {
      NextConsistent(s, es[0]);
      AlwaysConsistent(Next(s, es[0]), es[1..]);
    }
  }

  /** Once the flag is set it stays set, no later click is intercepted, and
      the script never navigates again. */
  lemma {:induction false} FlagSetIsFinal(s: WelcomeState, es: seq<Event>, href: Option<string>)
    requires Consistent(s) && Truthy(s.flag)
    ensures Truthy(RunAll(s, es).flag)
    ensures !Intercepts(RunAll(s, es), href)
    ensures RunAll(s, es).navigations == s.navigations
    ensures RunAll(s, es).pendingHref == None
    decreases es
  {
    if es != [] {
      NextConsistent(s, es[0]);
      FlagSetIsFinal(Next(s, es[0]), es[1..], href);
    }
  }

  /** The first visit: a click on a gated link is held back, dismissing the
      dialog navigates to exactly that link and sets the flag, and a second
      dismissal navigates nowhere. */
  lemma FirstVisit(flag: Option<string>, href: string)
    requires !Truthy(flag) && IsGatedHref(Some(href))
    ensures Intercepts(Initial(flag), Some(href))
    ensures Clicked(Initial(flag), Some(href)).navigations == []
    ensures Dismissed(Clicked(Initial(flag), Some(href)), 0).navigations == [href]
    ensures Dismissed(Clicked(Initial(flag), Some(href)), 0).flag == Some(ShownValue)
    ensures Dismissed(Dismissed(Clicked(Initial(flag), Some(href)), 0), 0).navigations == [href]
  {
  }

  class WelcomePopup {
    var pendingHref: Option<string>
    var wrappers: seq<Wrapper>
    var navigations: seq<string>
    /** The hrefs of the page's `a.nav-link` elements. */
    const links: seq<Option<string>>
    const store: Storage

    function State(): WelcomeState
      reads this, store
    {
      WelcomeState(Get(store.local, WelcomeKey), pendingHref, wrappers, navigations)
    }

    constructor (store: Storage, links: seq<Option<string>>)
      ensures this.store == store && this.links == links
      ensures State() == Initial(Get(store.local, WelcomeKey))
    {
      this.store := store;
      this.links := links;
      pendingHref := None;
      wrappers := [];
      navigations := [];
    }

    /** A click on the `k`-th nav link; `prevented` says whether the
        browser's own navigation was suppressed. */
    method ClickLink(k: nat) returns (prevented: bool)
      requires k < |links|
      modifies this
      ensures prevented <==> links[k] in BoundLinks(links) && !Truthy(Get(store.local, WelcomeKey))
      ensures State() == Clicked(old(State()), links[k])
    {
      prevented := IsGatedHref(links[k]) && !Truthy(Get(store.local, WelcomeKey));
      if prevented {
        pendingHref := links[k];
        wrappers := wrappers + [Open];
      }
    }

    /** The dialog's button, or a click on its backdrop, calls `close()`. */
    method Dismiss(i: nat)
      requires i < |wrappers| && wrappers[i] != Removed
      modifies this, store
      ensures State() == Dismissed(old(State()), i)
      ensures store.local == old(store.local)[WelcomeKey := ShownValue]
      ensures store.session == old(store.session)
    {
      wrappers := wrappers[i := Closing];
      store.SetLocal(WelcomeKey, ShownValue);
      if Truthy(pendingHref) {
        navigations := navigations + [pendingHref.value];
        pendingHref := None;
      }
    }

    /** The 300 ms removal timer of dialog `i` fires. */
    method FadeOut(i: nat)
      requires i < |wrappers| && wrappers[i] != Open
      modifies this
      ensures State() == FadedOut(old(State()), i)
    {
      wrappers := wrappers[i := Removed];
    }
  }
}
