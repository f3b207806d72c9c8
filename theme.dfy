// ThemeManager: the light/dark theme, kept in `localStorage` under "theme",
// applied as the root element's `data-theme` attribute and announced with a
// `themechange` event.

module Theme {
  import opened Browser

  const ThemeKey: string := "theme"
  const Light: string := "light"
  const Dark: string := "dark"

  /** The theme at start-up, `localStorage.getItem('theme') || 'light'`: a
      missing or empty stored value gives light, any other stored string is
      used as it is, even one that names neither theme. */
  function InitialTheme(stored: Option<string>): (t: string)
    ensures stored == None || stored == Some("") ==> t == Light
    ensures stored.Some? && stored.value != "" ==> t == stored.value
  {
    if Truthy(stored) then stored.value else Light
  }

  /** The toggle expression: light becomes dark, and every other value,
      dark or whatever was stored, becomes light. */
  function Toggled(t: string): (r: string)
    ensures r == Light || r == Dark
    ensures r == Light <==> t != Light
  {
    if t == Light then Dark else Light
  }

  /** The theme after `n` toggles starting from `t`. */
  function ToggledTimes(t: string, n: nat): string
  {
    if n == 0 then t else Toggled(ToggledTimes(t, n - 1))
  }

  /** From light or dark, an even number of toggles restores the theme and an
      odd number gives the other one; in particular two toggles restore it. */
  lemma {:induction false} ToggledTimesParity(t: string, n: nat)
    requires t == Light || t == Dark
    ensures ToggledTimes(t, n) == if n % 2 == 0 then t else Toggled(t)
  {
    if n > 0 {
      ToggledTimesParity(t, n - 1);
    }
  }

  /** A stored value that is neither theme is never restored: the first
      toggle gives light and from then on the theme alternates. */
  lemma {:induction false} StoredGarbageIsNeverRestored(t: string, n: nat)
    requires t != Light && t != Dark
    requires n > 0
    ensures ToggledTimes(t, n) == if n % 2 == 1 then Light else Dark
    ensures ToggledTimes(t, n) != t
  {
    if n > 1 {
      StoredGarbageIsNeverRestored(t, n - 1);
    }
  }

  /** The payloads of the `themechange` events one `applyTheme` dispatches:
      none where the event cannot be built (the failure is swallowed). */
  function Notice(canDispatch: bool, theme: string): (r: seq<string>)
    ensures |r| <= 1
    ensures r != [] <==> canDispatch
    ensures forall x :: x in r ==> x == theme
  {
    if canDispatch then [theme] else []
  }

  class ThemeManager {
    var currentTheme: string
    /** The root element's `data-theme` attribute. */
    var rootTheme: Option<string>
    /** Payloads of the `themechange` events dispatched so far. */
    var notifications: seq<string>
    /** Whether the page has the theme switch the click handler is bound to. */
    const hasSwitch: bool
    /** Whether `new CustomEvent(...)` succeeds in this browser. */
    const canDispatch: bool
    const store: Storage

    /** Reads the stored theme and applies it; storage is not written. */
    constructor (store: Storage, hasSwitch: bool, canDispatch: bool)
      ensures this.store == store && this.hasSwitch == hasSwitch && this.canDispatch == canDispatch
      ensures currentTheme == InitialTheme(Get(store.local, ThemeKey))
      ensures rootTheme == Some(currentTheme)
      ensures notifications == Notice(canDispatch, currentTheme)
    {
      this.store := store;
      this.hasSwitch := hasSwitch;
      this.canDispatch := canDispatch;
      var theme := InitialTheme(Get(store.local, ThemeKey));
      currentTheme := theme;
      rootTheme := Some(theme);
      notifications := Notice(canDispatch, theme);
    }

    /** Sets the root attribute and announces the theme; applying the same
        theme again leaves the attribute as it was and only adds a notice. */
    method ApplyTheme(theme: string)
      modifies this
      ensures rootTheme == Some(theme)
      ensures notifications == old(notifications) + Notice(canDispatch, theme)
      ensures currentTheme == old(currentTheme)
    {
      rootTheme := Some(theme);
      notifications := notifications + Notice(canDispatch, theme);
    }

    /** Flips the theme, then the root attribute and the stored value both
        equal the new theme; no other storage key changes. */
    method ToggleTheme()
      modifies this, store
      ensures currentTheme == Toggled(old(currentTheme))
      ensures rootTheme == Some(currentTheme)
      ensures Get(store.local, ThemeKey) == Some(currentTheme)
      ensures store.local == old(store.local)[ThemeKey := currentTheme]
      ensures store.session == old(store.session)
      ensures notifications == old(notifications) + Notice(canDispatch, currentTheme)
    {
      currentTheme := if currentTheme == Light then Dark else Light;
      ApplyTheme(currentTheme);
      store.SetLocal(ThemeKey, currentTheme);
    }

    /** A click on the theme switch; without a switch there is no handler. */
    method ClickSwitch()
      modifies this, store
      ensures hasSwitch ==> currentTheme == Toggled(old(currentTheme))
      ensures hasSwitch ==> rootTheme == Some(currentTheme)
      ensures hasSwitch ==> store.local == old(store.local)[ThemeKey := currentTheme]
      ensures hasSwitch ==> notifications == old(notifications) + Notice(canDispatch, currentTheme)
      ensures !hasSwitch ==> currentTheme == old(currentTheme) && rootTheme == old(rootTheme)
      ensures !hasSwitch ==> store.local == old(store.local) && notifications == old(notifications)
      ensures store.session == old(store.session)
    {
      if hasSwitch {
        ToggleTheme();
      }
    }
  }
}
