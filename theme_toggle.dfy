/** The theme switch of the older page: the theme state, the stored "theme"
    entry and the `dark` class on the document root. The system colour-scheme
    preference is an input of the mount step. */
module ThemeToggle {

  const ThemeKey := "theme"

  /** The theme after a toggle: light becomes dark, anything else light. */
  function NextTheme(theme: string): (r: string)
    ensures r == "dark" <==> theme == "light"
    ensures r == "light" || r == "dark"
  {
    if theme == "light" then "dark" else "light"
  }

  /** From light or dark, two toggles restore the theme. */
  lemma NextThemeTwice(theme: string)
    requires theme == "light" || theme == "dark"
    ensures NextTheme(NextTheme(theme)) == theme
  {
  }

  /** The root carries the `dark` class exactly when the theme is dark. */
  predicate InSync(theme: string, darkClass: bool) {
    darkClass <==> theme == "dark"
  }

  /** A toggle flips the class and steps the theme; from light or dark this
      keeps the class and the theme in step. */
  lemma ToggleKeepsSync(theme: string, darkClass: bool)
    requires InSync(theme, darkClass) && (theme == "light" || theme == "dark")
    ensures InSync(NextTheme(theme), !darkClass)
  {
  }

  /** A stored value other than light or dark (here "blue") is taken over as it
      is and leaves the class off, which is in step; the first toggle then
      turns the theme to light while switching the class on. */
  lemma UnknownSavedThemeBreaksSync(theme: string)
    requires theme == "blue"
    ensures InSync(theme, false)
    ensures NextTheme(theme) == "light" && !InSync(NextTheme(theme), true)
  {
  }

  class ThemeSwitch {
    var theme: string
    /** The browser's local storage. */
    var storage: map<string, string>
    /** Whether the document root has the `dark` class. */
    var darkClass: bool

    constructor (stored: map<string, string>, rootHasDark: bool)
      ensures theme == "light" && storage == stored && darkClass == rootHasDark
    {
      theme := "light";
      storage := stored;
      darkClass := rootHasDark;
    }

    /** The mount effect: a non-empty stored theme wins and sets the class by
        whether it is dark; otherwise a dark system preference selects dark. */
    method Mount(prefersDark: bool)
      modifies this`theme, this`darkClass
      ensures ThemeKey in storage && storage[ThemeKey] != "" ==>
                theme == storage[ThemeKey] && darkClass == (storage[ThemeKey] == "dark")
      ensures !(ThemeKey in storage && storage[ThemeKey] != "") && prefersDark ==>
                theme == "dark" && darkClass
      ensures !(ThemeKey in storage && storage[ThemeKey] != "") && !prefersDark ==>
                theme == old(theme) && darkClass == old(darkClass)
      ensures old(theme) == "light" && !old(darkClass) ==> InSync(theme, darkClass)
    {
      var savedTheme := if ThemeKey in storage then storage[ThemeKey] else "";
      if savedTheme != "" {
        theme := savedTheme;
        darkClass := savedTheme == "dark";
      } else if prefersDark {
        theme := "dark";
        darkClass := true;
      }
    }

    /** `toggleTheme`: step the theme, store it, flip the class. */
    method Toggle()
      modifies this
      ensures theme == NextTheme(old(theme))
      ensures storage == old(storage)[ThemeKey := theme]
      ensures darkClass == !old(darkClass)
      ensures old(theme) == "light" || old(theme) == "dark" ==>
                (old(InSync(theme, darkClass)) ==> InSync(theme, darkClass))
    {
      var newTheme := NextTheme(theme);
      theme := newTheme;
      storage := storage[ThemeKey := newTheme];
      darkClass := !darkClass;
    }

    /** Two toggles from light or dark restore theme and class, and leave the
        original theme stored. */
    method ToggleTwice()
      requires theme == "light" || theme == "dark"
      modifies this
      ensures theme == old(theme) && darkClass == old(darkClass)
      ensures storage == old(storage)[ThemeKey := old(theme)]
    {
      Toggle();
      Toggle();
      NextThemeTwice(old(theme));
    }
  }
}
