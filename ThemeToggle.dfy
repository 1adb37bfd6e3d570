/**
 * The light/dark switch. Its own state is `isDark`; it also writes the
 * `dark` class on the document's root element and the `theme` entry of the
 * browser's local storage. The system colour-scheme preference is read once,
 * when the switch mounts, and is a parameter here.
 */
module ThemeToggle {
  import opened Wrappers

  const ThemeKey: string := "theme"
  const DarkClass: string := "dark"

  /** The switch's state together with the two pieces of browser state it writes. */
  datatype ThemeState = ThemeState(isDark: bool, rootClasses: set<string>, storage: map<string, string>)

  /** `localStorage.getItem("theme")`. */
  function SavedTheme(storage: map<string, string>): Option<string>
  {
    if ThemeKey in storage then Some(storage[ThemeKey]) else None
  }

  /** The stored value that stands for a theme. */
  function ThemeName(isDark: bool): string
  {
    if isDark then "dark" else "light"
  }

  /** The class list with `dark` present exactly when `isDark`. */
  function WithDarkClass(classes: set<string>, isDark: bool): set<string>
  {
    if isDark then classes + {DarkClass} else classes - {DarkClass}
  }

  /** The switch and the root element agree. */
  predicate InSync(st: ThemeState)
  {
    DarkClass in st.rootClasses <==> st.isDark
  }

  /**
   * The mount effect: a saved "light" wins; otherwise a saved "dark" or a
   * dark system preference makes the theme dark; otherwise nothing happens.
   */
  function ResolveInitial(st: ThemeState, prefersDark: bool): ThemeState
  {
    var saved := SavedTheme(st.storage);
    if saved == Some("light") then st.(isDark := false, rootClasses := st.rootClasses - {DarkClass})
    else if saved == Some("dark") || prefersDark then st.(isDark := true, rootClasses := st.rootClasses + {DarkClass})
    else st
  }

  /** `toggleTheme`: flip the switch and write the class and the stored value to match. */
  function Toggle(st: ThemeState): ThemeState
  {
    var newIsDark := !st.isDark;
    ThemeState(newIsDark, WithDarkClass(st.rootClasses, newIsDark), st.storage[ThemeKey := ThemeName(newIsDark)])
  }

  /** A saved "light" overrides a dark system preference. */
  lemma SavedLightWins(st: ThemeState, prefersDark: bool)
    requires SavedTheme(st.storage) == Some("light")
    ensures var r := ResolveInitial(st, prefersDark);
      !r.isDark && DarkClass !in r.rootClasses && r.rootClasses == st.rootClasses - {DarkClass}
      && r.storage == st.storage
  {
  }

  /** Without a saved "light", a saved "dark" or a dark system preference gives the dark theme. */
  lemma DarkWhenSavedOrPreferred(st: ThemeState, prefersDark: bool)
    requires SavedTheme(st.storage) != Some("light")
    requires SavedTheme(st.storage) == Some("dark") || prefersDark
    ensures var r := ResolveInitial(st, prefersDark);
      r.isDark && DarkClass in r.rootClasses && r.rootClasses == st.rootClasses + {DarkClass}
      && r.storage == st.storage
  {
  }

  /** With nothing to go on, the mount effect changes nothing. */
  lemma OtherwiseUnchanged(st: ThemeState, prefersDark: bool)
    requires SavedTheme(st.storage) != Some("light") && SavedTheme(st.storage) != Some("dark") && !prefersDark
    ensures ResolveInitial(st, prefersDark) == st
  {
  }

  /**
   * After the mount effect the switch and the root element agree, except in
   * the fall-through case, where they agree only if they already did: the
   * switch then keeps its initial `true` whatever the class list holds.
   */
  lemma ResolvedInSync(st: ThemeState, prefersDark: bool)
    ensures var saved := SavedTheme(st.storage);
      InSync(ResolveInitial(st, prefersDark)) <==>
        saved == Some("light") || saved == Some("dark") || prefersDark || InSync(st)
  {
  }

  /**
   * A toggle negates `isDark`, makes the class list and the stored theme
   * match it, and touches no other class and no other storage key.
   */
  lemma ToggleSyncs(st: ThemeState)
    ensures var r := Toggle(st);
      && r.isDark == !st.isDark
      && InSync(r)
      && SavedTheme(r.storage) == Some(if r.isDark then "dark" else "light")
      && r.storage.Keys == st.storage.Keys + {ThemeKey}
      && (forall k :: k in st.storage && k != ThemeKey ==> r.storage[k] == st.storage[k])
      && r.rootClasses - {DarkClass} == st.rootClasses - {DarkClass}
  {
  }

  /** Two toggles give back `isDark`, and from an agreeing state the whole class list. */
  lemma ToggleTwice(st: ThemeState)
    ensures var r := Toggle(Toggle(st));
      && r.isDark == st.isDark
      && InSync(r)
      && SavedTheme(r.storage) == Some(ThemeName(st.isDark))
      && (InSync(st) ==> r.rootClasses == st.rootClasses)
  {
  }

  /** The browser state the switch writes: the root element's classes and local storage. */
  class Browser {
    var rootClasses: set<string>
    var localStorage: map<string, string>

    constructor (rootClasses: set<string>, localStorage: map<string, string>)
      ensures this.rootClasses == rootClasses && this.localStorage == localStorage
    {
      this.rootClasses := rootClasses;
      this.localStorage := localStorage;
    }
  }

  /** The switch component. */
  class ThemeSwitch {
    var isDark: bool
    const browser: Browser

    function State(): ThemeState
      reads this, browser
    {
      ThemeState(isDark, browser.rootClasses, browser.localStorage)
    }

    /** `useState(true)`: the switch starts dark, before its effect has run. */
    constructor (browser: Browser)
      ensures this.browser == browser && isDark
    {
      this.browser := browser;
      isDark := true;
    }

    /** The mount effect, with the system colour-scheme preference passed in. */
    method ApplySavedTheme(prefersDark: bool)
      modifies this, browser
      ensures State() == ResolveInitial(old(State()), prefersDark)
    {
      var saved := if ThemeKey in browser.localStorage then Some(browser.localStorage[ThemeKey]) else None;
      if saved == Some("light") {
        isDark := false;
        browser.rootClasses := browser.rootClasses - {DarkClass};
      } else if saved == Some("dark") || prefersDark {
        isDark := true;
        browser.rootClasses := browser.rootClasses + {DarkClass};
      }
    }

    /** `toggleTheme`. */
    method ToggleTheme()
      modifies this, browser
      ensures State() == Toggle(old(State()))
      ensures InSync(State())
    {
      var newIsDark := !isDark;
      isDark := newIsDark;
      if newIsDark {
        browser.rootClasses := browser.rootClasses + {DarkClass};
        browser.localStorage := browser.localStorage[ThemeKey := "dark"];
      } else {
        browser.rootClasses := browser.rootClasses - {DarkClass};
        browser.localStorage := browser.localStorage[ThemeKey := "light"];
      }
    }
  }
}
