/**
 * The theme switch (script.js:11-41): a `dark` class on the root element,
 * kept in step with the `theme` entry of `localStorage`.
 */
module Theme {

  const DarkClass := "dark"
  const ThemeKey := "theme"

  /** The root element's class list and the page's local storage. */
  datatype ThemeState = ThemeState(root: set<string>, store: map<string, string>)

  /** The dark palette is applied. */
  predicate IsDark(t: ThemeState)
  {
    DarkClass in t.root
  }

  /** The stored value the other side of the switch writes for the applied theme. */
  function ThemeName(dark: bool): string
  {
    if dark then "dark" else "light"
  }

  /** `localStorage.getItem("theme") || "light"`: a missing or empty entry reads as light. */
  function SavedTheme(store: map<string, string>): (theme: string)
    ensures theme != "light" ==> ThemeKey in store && theme == store[ThemeKey] && theme != ""
    ensures ThemeKey in store && store[ThemeKey] != "" ==> theme == store[ThemeKey]
    ensures ThemeKey !in store ==> theme == "light"
  {
    if ThemeKey in store && store[ThemeKey] != "" then store[ThemeKey] else "light"
  }

  /** The page-load step: apply the dark class exactly when the saved theme is "dark". */
  function LoadTheme(t: ThemeState): (r: ThemeState)
    ensures IsDark(r) <==> ThemeKey in t.store && t.store[ThemeKey] == "dark"
    ensures r.root - {DarkClass} == t.root - {DarkClass}
    ensures r.store == t.store
  {
    if SavedTheme(t.store) == "dark" then ThemeState(t.root + {DarkClass}, t.store)
    else ThemeState(t.root - {DarkClass}, t.store)
  }

  /** The applied theme and the stored one agree. */
  predicate InStep(t: ThemeState)
  {
    ThemeKey in t.store && t.store[ThemeKey] == ThemeName(IsDark(t))
  }

  /**
   * `toggleTheme`: flip the class read from the root element (not from
   * storage) and write the matching name; nothing else changes.
   */
  function Toggled(t: ThemeState): (r: ThemeState)
    ensures IsDark(r) == !IsDark(t)
    ensures InStep(r)
    ensures r.root - {DarkClass} == t.root - {DarkClass}
    ensures forall k | k != ThemeKey :: (k in r.store <==> k in t.store)
    ensures forall k | k != ThemeKey && k in t.store :: r.store[k] == t.store[k]
  {
    if IsDark(t) then ThemeState(t.root - {DarkClass}, t.store[ThemeKey := "light"])
    else ThemeState(t.root + {DarkClass}, t.store[ThemeKey := "dark"])
  }

  /** Toggling twice restores the root's classes, and the storage too when it was in step. */
  lemma ToggleTwice(t: ThemeState)
    ensures Toggled(Toggled(t)).root == t.root
    ensures InStep(t) ==> Toggled(Toggled(t)) == t
  {
  }

  /** A reload after a toggle applies the theme the toggle chose. */
  lemma ReloadKeepsToggle(t: ThemeState)
    ensures LoadTheme(Toggled(t)) == Toggled(t)
  {
  }

  /** The root element and the storage, as the page script sees them. */
  class ThemeToggle {
    var rootClasses: set<string>
    var storage: map<string, string>

    function State(): ThemeState
      reads this
    {
      ThemeState(rootClasses, storage)
    }

    /** `initializeThemeToggle`: read the saved theme and apply it. */
    constructor (rootClasses: set<string>, storage: map<string, string>)
      ensures State() == LoadTheme(ThemeState(rootClasses, storage))
    {
      this.storage := storage;
      var currentTheme := SavedTheme(storage);
      if currentTheme == "dark" {
        this.rootClasses := rootClasses + {DarkClass};
      } else {
        this.rootClasses := rootClasses - {DarkClass};
      }
    }

    /** The click handler of both toggle buttons. */
    method Toggle()
      modifies this
      ensures State() == Toggled(old(State()))
    {
      var isDark := DarkClass in rootClasses;
      if isDark {
        rootClasses := rootClasses - {DarkClass};
        storage := storage[ThemeKey := "light"];
      } else {
        rootClasses := rootClasses + {DarkClass};
        storage := storage[ThemeKey := "dark"];
      }
    }
  }

  /** Two clicks on a toggle button give back the page's appearance. */
  method ToggleTwiceRestores(toggle: ThemeToggle)
    modifies toggle
    ensures toggle.rootClasses == old(toggle.rootClasses)
    ensures InStep(old(toggle.State())) ==> toggle.storage == old(toggle.storage)
  {
    ghost var before := toggle.State();
    toggle.Toggle();
    toggle.Toggle();
    ToggleTwice(before);
  }
}
