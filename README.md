# Page-enhancement script: verified model of its state machines

The repository is one browser script (`script.js`) for a site about VR
headsets. Most of it only applies styles. A few small state machines and
predicates sit inside its event handlers, and this project models them in
Dafny and proves what they promise:

- **ThemeManager** (`theme.dfy`, module `Theme`). The light/dark theme is
  read from `localStorage` at start-up, applied as the root element's
  `data-theme` attribute and announced with a `themechange` event. A click on
  the theme switch toggles it and stores it.
- **IntroAnimation** (`intro.dfy`, module `Intro`). A splash element is shown
  once per browsing session. A `sessionStorage` flag gates a sequence of two
  timers: the element gets the `hidden` class, then it is removed and the flag
  is set.
- **HeaderManager, scrolling** (`header.dfy`, module `Header`). Scroll
  samples set two direction flags. Above a threshold of 50 the header is
  hidden on a downward sample and shown again on an upward one. At or below
  the threshold it is always shown.
- **The throttle** (`throttle.dfy`, module `Throttle`). A leading-edge gate
  lets at most one scroll sample through per 16 ms window.
- **HeaderManager, mobile menu** (`menu.dfy`, module `Menu`). Three class
  flags and the body's `overflow` are driven by the toggle button, the nav
  links and a document-wide click listener.
- **WelcomePopup** (`welcome.dfy`, module `Welcome`). The first click on a nav
  link to `quiz.html` or `headset.html` is held back while a video dialog is
  shown. Dismissing the dialog sets a `localStorage` flag and follows the link.
- **HelpFAB** (`helpfab.dfy`, module `HelpFab`). On those two pages a "?"
  button opens the same kind of dialog on demand. That dialog never navigates
  and never touches storage.

Two helper modules are shared. `browser.dfy` (module `Browser`) holds
`Option`, JavaScript truthiness of `getItem` results, and Web Storage as two
string maps in a `Storage` object. `paths.dfy` (module `Paths`) holds ASCII
lower-casing, suffix tests, and the two page names.

IntroAnimation, the throttle's `Enter`, the scrolling header's
`HandleScroll` and `OnScroll`, the mobile menu and WelcomePopup have two
layers:

- A pure state datatype and transition functions. These are the
  specification, and the lemmas about event sequences are proved over them.
- A class with the source's fields. Its methods change those fields step by
  step, as the handlers do. Each method ensures that its new state is the
  transition function applied to its old state, and that no storage key
  other than its own changes.

ThemeManager, HelpFAB, the throttle's `Expire` and the header's
`OnThrottleTimer` have no transition function. Their methods state the new
value of each field directly, and the lemmas about the theme are proved over
the pure `Toggled`.

The browser is replaced by explicit inputs:

- Timers (`setTimeout`) are explicit "timer fired" method calls. A timer
  method requires that its timer is pending. The delays are not modelled.
- `localStorage` and `sessionStorage` are the two maps of `Storage`.
- `window.location.href = …` appends to a `navigations` record.
- Whether a click target lies inside an element is a boolean input, or one
  of a `Target` enumeration.
- DOM elements are kept as class-list flags. Whether an element exists is a
  constructor argument.

What the code does in a few edge cases:

- The stored theme is not limited to `light`/`dark`. Any non-empty stored
  string is applied as it is at start-up, and the first toggle turns it
  into `light` (`Theme.StoredGarbageIsNeverRestored`).
- Two toggles restore the root attribute and the stored value only when the
  theme was already `light` or `dark` and was already stored. With nothing
  stored, two toggles leave `light` stored where nothing was stored before.
- The welcome popup and the help button use the same pair of page names. The
  regular expression and the lower-cased suffix tests accept exactly the same
  paths (`HelpFab.SamePagesAsWelcome`).
- Dismissing a welcome dialog navigates to the most recently intercepted
  link. A second gated click before the first dismissal replaces
  `pendingHref`. Each click renders one more dialog, and only the first
  dismissal navigates.

## Model

| member | source | states |
|---|---|---|
| `Browser.Get` | script.js:5 | `getItem` gives `null` exactly when the key is absent, and the stored string otherwise |
| `Browser.Truthy` | script.js:5 | the only falsy results of `getItem` are `null` and the empty string |
| `Browser.Storage.SetLocal` | script.js:20 | `localStorage.setItem` changes that key of `localStorage` only and leaves `sessionStorage` alone |
| `Browser.Storage.SetSession` | script.js:60 | `sessionStorage.setItem` changes that key of `sessionStorage` only and leaves `localStorage` alone |
| `Paths.Lower` | script.js:473 | `toLowerCase` keeps the length and lower-cases each character in place |
| `Paths.EndsWith` | script.js:474 | `endsWith` holds exactly when the string is some string followed by the suffix |
| `Paths.EndsWithIgnoringCase` | script.js:423 | the `i` flag accepts every exact suffix match, and a match needs a subject at least as long as the pattern |
| `Theme.Notice` | script.js:25-28 | at most one `themechange` payload, none exactly when the event cannot be dispatched, and it is the applied theme |
| `Theme.InitialTheme` | script.js:5 | a missing or empty stored value gives `light`; any other stored string is used unchanged |
| `Theme.Toggled` | script.js:18 | the result is always `light` or `dark`, and it is `light` exactly when the old theme was not `light`, so stored garbage becomes `light` |
| `Theme.ToggledTimesParity` | script.js:17-21 | from `light` or `dark`, an even number of toggles restores the theme and an odd number gives the other one; two toggles restore it |
| `Theme.StoredGarbageIsNeverRestored` | script.js:5-18 | a stored value that is neither theme becomes `light` on the first toggle, then alternates, and never comes back |
| `Theme.ThemeManager.constructor` | script.js:3-15 | the current theme is the initial theme of the stored value; the root attribute equals it; one notice is dispatched if events can be built; storage is only read |
| `Theme.ThemeManager.ApplyTheme` | script.js:23-29 | sets the root attribute to the theme and appends one notice unless dispatch fails; applying the same theme twice leaves the attribute unchanged |
| `Theme.ThemeManager.ToggleTheme` | script.js:17-21 | the new theme is the toggled old one; the root attribute and the stored `theme` both equal it; no other storage key changes |
| `Theme.ThemeManager.ClickSwitch` | script.js:12-14 | with a switch present a click toggles the theme, sets the root attribute, stores the theme and appends the toggle's notice; without one nothing changes |
| `Intro.Start` | script.js:40-52 | flag set: the element, if any, is removed at once and no timer is scheduled; flag unset with an element: it stays displayed and the first timer is scheduled; no element: nothing is scheduled |
| `Intro.Fire` | script.js:54-62 | the first timer adds `hidden` and schedules the second; the second removes the element, sets the flag to `"true"` and schedules nothing; the flag changes only once the element is gone, and each timer keeps the intro consistent |
| `Intro.AlwaysConsistent` | script.js:40-63 | in every state reached by firing timers, the flag is unset while the element is present, and the pending timer matches the element's stage |
| `Intro.FirstVisitSequence` | script.js:52-63 | on a first visit, the first timer only adds the `hidden` class; from the second timer on, the element is removed, the flag is `"true"` and nothing is pending |
| `Intro.NoElementNoFlag` | script.js:52-63 | without an intro element nothing ever happens, and an unset flag is never set |
| `Intro.IntroAnimation.constructor` | script.js:34-52 | the object's state is `Start` of the element's presence and the stored session flag |
| `Intro.IntroAnimation.FireTimer` | script.js:54-62 | the new state is `Fire` of the old one; only the intro key of `sessionStorage` may change, and only on the second timer |
| `Throttle.Next` | script.js:153-157 | a call runs the function exactly when the gate is open and leaves it closed; an expiry reopens it and runs nothing |
| `Throttle.OneRunPerWindow` | script.js:148-159 | with no expiry, a closed gate runs nothing and stays closed, and an open gate runs exactly once and ends closed |
| `Throttle.RunsBoundedByExpiries` | script.js:148-159 | over any event sequence, runs are at most the expiries plus one, and at most the expiries if the gate starts closed |
| `Throttle.Gate.constructor` | script.js:149 | the gate starts open (`inThrottle` undefined is falsy) |
| `Throttle.Gate.Enter` | script.js:150-158 | runs exactly when the gate was open; the gate is closed afterwards; agrees with `Next` |
| `Throttle.Gate.Expire` | script.js:156 | the timer reopens the gate |
| `Header.Scrolled` | script.js:118-146 | `lastScrollY` becomes the sample; a rise sets down/not-up, a fall sets up/not-down, and no change keeps both flags; at or below 50 the header is shown; above 50 a downward sample hides it and an upward one shows it |
| `Header.FlagsStayExclusive` | script.js:73-74 | the two direction flags are never both set, from the initial state on |
| `Header.SampleSettles` | script.js:118-146 | after any sample, above 50 a down direction goes with a hidden header and an up direction with a shown one; repeating the sample changes nothing |
| `Header.NearTopNeverHidden` | script.js:140-143 | a sequence of samples at or below 50 never hides the header, whatever the directions |
| `Header.HidesOnlyOnDownSamples` | script.js:134-139 | the header goes from shown to hidden at most once per downward sample above the threshold |
| `Header.ContinuingDownStaysHidden` | script.js:134-139 | continuing downward above the threshold keeps a hidden header hidden and never hides it again |
| `Header.HeaderManager.constructor` | script.js:69-78 | starts at the current offset with no direction and a fresh, open throttle |
| `Header.HeaderManager.HandleScroll` | script.js:118-146 | the new state is `Scrolled` of the old one and the sample |
| `Header.HeaderManager.OnScroll` | script.js:114-116 | a scroll event is handled exactly when the throttle is open; a dropped event changes nothing; the throttle ends closed |
| `Header.HeaderManager.OnThrottleTimer` | script.js:156 | the throttle timer reopens the gate |
| `Menu.ToggleClicked` | script.js:85-90 | each of the three classes flips on its own; overflow is `hidden` exactly when the nav list ends active |
| `Menu.DocumentClicked` | script.js:102-110 | closes everything exactly when the list is active and the click is outside both the list and the toggle; otherwise changes nothing |
| `Menu.LinkClicked` | script.js:94-98 | a nav link's listener removes all three classes and clears the overflow, leaving a consistent menu |
| `Menu.Clicked` | script.js:84-110 | in bubbling order, a toggle click is the toggle's listener alone (the document's ignores it), a link click closes everything, a click elsewhere in the list changes nothing, and an outside click closes an open menu and leaves a closed one |
| `Menu.ClickBehaviour` | script.js:84-110 | from a consistent menu, with bubbling order: the toggle flips open/closed, a link or an outside click on an open menu closes everything, and an outside click on a closed menu changes nothing |
| `Menu.AlwaysConsistent` | script.js:84-110 | from a closed menu, every click sequence keeps the three classes equal and the overflow `hidden` exactly when the list is active |
| `Menu.MobileMenu.constructor` | script.js:80-84 | listeners are bound only when both the toggle and the nav list exist |
| `Menu.MobileMenu.OnToggleClick` | script.js:85-90 | the new state is `ToggleClicked` of the old one |
| `Menu.MobileMenu.OnLinkClick` | script.js:94-98 | every class is removed and the overflow is cleared |
| `Menu.MobileMenu.OnDocumentClick` | script.js:102-110 | the new state is `DocumentClicked` of the old one |
| `Menu.MobileMenu.Click` | script.js:84-110 | a click runs the target's listener and then the document's; without bound listeners nothing changes |
| `Welcome.IsGatedHref` | script.js:423 | a missing or empty href is never gated, and `quiz.html` and `headset.html` themselves are |
| `Welcome.Intercepts` | script.js:424-426 | once the flag is set no click is intercepted; while it is unset, a click is intercepted exactly when its link is bound |
| `Welcome.BoundLinks` | script.js:422-423 | the bound links are exactly the page's nav links whose href ends in `quiz.html` or `headset.html`, ignoring case |
| `Welcome.Clicked` | script.js:425-430 | a gated click with the flag unset records the href as pending and opens a new dialog without navigating; otherwise it changes nothing |
| `Welcome.Dismissed` | script.js:449-457 | sets the flag to `"1"` and starts the fade-out; a pending href is navigated to once and cleared; with none pending, nothing is navigated |
| `Welcome.FadedOut` | script.js:451 | the removal timer removes a closing dialog; no other dialog, the flag, the pending href and the navigations are untouched; a dialog still open is left as it is |
| `Welcome.NextConsistent` | script.js:425-457 | each event keeps the pending href gated and present only while the flag is unset, keeps navigations to at most one, and never unsets the flag |
| `Welcome.AlwaysConsistent` | script.js:425-457 | the invariant of `NextConsistent` holds over any event sequence |
| `Welcome.NavigatesAtMostOnce` | script.js:449-457 | from page load, whatever happens, the script navigates at most once, after setting the flag, and only to a gated href |
| `Welcome.FlagSetIsFinal` | script.js:426 | once the flag is set it stays set, no click is intercepted, nothing is pending, and no further navigation happens |
| `Welcome.FirstVisit` | script.js:424-457 | a gated first click does not navigate; dismissing navigates to exactly that link and sets the flag; a second dismissal navigates nowhere |
| `Welcome.WelcomePopup.constructor` | script.js:416-420 | starts with nothing pending, no dialog and no navigation |
| `Welcome.WelcomePopup.ClickLink` | script.js:424-431 | default navigation is prevented exactly when the link is bound and the flag is unset; the new state is `Clicked` of the old one |
| `Welcome.WelcomePopup.Dismiss` | script.js:449-462 | the new state is `Dismissed` of the old one; only the `welcomeShown` key of `localStorage` changes |
| `Welcome.WelcomePopup.FadeOut` | script.js:451 | the fading dialog is removed from the page |
| `Paths.IgnoringCaseIsLowerSuffix` | script.js:423 | matching a lower-case suffix with the `i` flag is the same as lower-casing and testing the suffix exactly |
| `HelpFab.IsTargetPage` | script.js:472-475 | the page is a target exactly when the lower-cased path ends in `quiz.html` or `headset.html`; the `/`-prefixed tests add nothing |
| `HelpFab.SamePagesAsWelcome` | script.js:472-475 | the help button's page test and the welcome popup's link filter accept exactly the same strings |
| `HelpFab.HelpButton.constructor` | script.js:476-485 | exactly one button is injected on a target page and none elsewhere |
| `HelpFab.HelpButton.ClickFab` | script.js:477-483 | a click opens one more dialog exactly when the button was injected; on any other page nothing happens |
| `HelpFab.HelpButton.Open` | script.js:486-500 | called only when the button exists; one more dialog opens and nothing else changes; with no storage in its frame, storage cannot be read or written |
| `HelpFab.HelpButton.Close` | script.js:501-507 | the dialog starts fading out; no flag is set and nothing is navigated |
| `HelpFab.HelpButton.FadeOut` | script.js:503 | the fading dialog is removed |

## Left out

- `BackgroundDots` (script.js:378-412) is not modelled. It draws from
  `Math.random` and formats floating-point numbers. Each descriptor it joins
  also contains commas of its own, so the result is not a list of `n`
  comma-separated items.
- `OrbAnimations` (script.js:278-309) is not modelled. It uses random timings
  and floating-point parallax arithmetic.
- `HoverAnimations`, `SmoothScroll` and `PerformanceManager`
  (script.js:163-337) are not modelled. They only write styles or call the
  browser (`scrollIntoView`, `matchMedia`) and make no decisions worth
  stating. The copy of the throttle at script.js:319-330 is identical to the
  modelled one and is never called.
- `App` (script.js:340-372) is not modelled. It only constructs the
  components in a fixed order and logs a message.
- Wall-clock time is not modelled: timers are events, and the 16, 300, 500
  and 3000 ms delays do not appear. The `requestAnimationFrame` that
  adds the dialogs' `show` class is folded into the dialog's `Open` stage.
- The payload of the `themechange` event is recorded. Its listener
  (`BackgroundDots.regenerate`) is not modelled.
- Dialog markup (`innerHTML`), the embedded video URL and the text are not
  modelled. Only whether a dialog is open, fading out or removed is kept.
- `Header.HeaderManager.HandleScroll`: scroll offsets are integers here. The
  browser may report fractional offsets; the comparisons are the same for
  them.
- `Header.HeaderManager.HandleScroll`: the header element is assumed to
  exist. The source reads `this.header.classList` without a check, so a page
  without a header would raise an error on every scroll. That case is not
  modelled.
- Lower-casing and the regular expression's case folding are modelled on
  ASCII letters. No other character folds onto a letter of the two page
  names in a way that changes these suffix tests, so both page tests are
  exact.
- A welcome link's `href` is read once, when the listeners are bound. Later
  changes to the attribute are not modelled.
- The welcome dialog's backdrop click and its button are both modelled as
  one `Dismiss` event. A click inside the dialog content does nothing, and
  is not modelled.
- Navigation is recorded, not performed. Events that may still arrive
  before the new page loads are modelled like any other.
