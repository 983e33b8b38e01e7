/** The theme provider of `src/context/ThemeContext.js`: the initial choice
    at mount time, the light/dark toggle, and the apply step that writes the
    document's `dark` class and the stored preference. Browser storage and
    the class list are plain fields. */
module ThemeContext {
  import opened Wrappers

  const StorageKey := "theme"

  /** A stored string is truthy unless it is empty. */
  predicate IsTruthy(saved: Option<string>) {
    saved.Some? && saved.value != ""
  }

  /** The theme chosen at mount: a truthy saved value verbatim (even one that
      is neither "light" nor "dark"), otherwise the system preference. */
  function InitialTheme(saved: Option<string>, prefersDark: bool): (theme: string)
    ensures IsTruthy(saved) ==> theme == saved.value
    ensures !IsTruthy(saved) ==> (theme == "dark" <==> prefersDark)
    ensures !IsTruthy(saved) ==> (theme == "light" <==> !prefersDark)
  {
    if IsTruthy(saved) then saved.value
    else if prefersDark then "dark" else "light"
  }

  /** The toggle's updater: "light" becomes "dark"; everything else, an
      unexpected stored string included, becomes "light". */
  function Toggled(previous: string): (next: string)
    ensures next == "dark" <==> previous == "light"
    ensures next == "light" <==> previous != "light"
  {
    if previous == "light" then "dark" else "light"
  }

  /** Toggling twice from either real theme gives it back. */
  lemma ToggleTwice(theme: string)
    requires theme == "light" || theme == "dark"
    ensures Toggled(Toggled(theme)) == theme
  {
  }

  /** After one toggle the theme is always one of the two real themes, and
      from then on toggling alternates between them. */
  lemma ToggleNormalises(theme: string)
    ensures Toggled(theme) == "light" || Toggled(theme) == "dark"
    ensures Toggled(Toggled(Toggled(theme))) == Toggled(theme)
  {
  }

  /** `useTheme()`: outside a provider it throws instead of returning. */
  function UseTheme<C>(context: Option<C>): (r: Result<C, string>)
    ensures r.Ok? <==> context.Some?
    ensures r.Ok? ==> r.value == context.value
    ensures r.Err? ==> r.error == "useTheme must be used within a ThemeProvider"
  {
    match context
    case Some(c) => Ok(c)
    case None => Err("useTheme must be used within a ThemeProvider")
  }

  /** The provider's `theme` and `mounted` state together with the two
      pieces of browser state it writes. */
  class ThemeProvider {
    var theme: string
    var mounted: bool
    var darkClass: bool
    var storage: map<string, string>

    /** The document and the store agree with the theme. */
    predicate Applied()
      reads this
    {
      (darkClass <==> theme == "dark") && StorageKey in storage && storage[StorageKey] == theme
    }

    /** Once mounted, every state the provider settles in is applied. */
    predicate Valid()
      reads this
    {
      mounted ==> Applied()
    }

    /** Before mount: theme "light", and the browser state untouched. */
    constructor (darkClass: bool, storage: map<string, string>)
      ensures Valid()
      ensures theme == "light" && !mounted
      ensures this.darkClass == darkClass && this.storage == storage
    {
      theme := "light";
      mounted := false;
      this.darkClass := darkClass;
      this.storage := storage;
    }

    /** The provider renders its children only once mounted. */
    function RendersChildren(): (r: bool)
      reads this
      ensures r <==> mounted
    {
      mounted
    }

    /** The apply effect: nothing before mount; afterwards the `dark` class
        follows the theme and the theme is stored. */
    method Apply()
      modifies this`darkClass, this`storage
      ensures mounted ==> Applied()
      ensures mounted ==> storage == old(storage)[StorageKey := theme]
      ensures !mounted ==> darkClass == old(darkClass) && storage == old(storage)
    {
      if !mounted {
        return;
      }
      if theme == "dark" {
        darkClass := true;
      } else {
        darkClass := false;
      }
      storage := storage[StorageKey := theme];
    }

    /** The mount effect followed by the apply effect it triggers: the theme
        is the saved value if truthy, else the system preference. */
    method Mount(prefersDark: bool)
      requires !mounted
      modifies this
      ensures mounted && Valid()
      ensures theme == InitialTheme(if StorageKey in old(storage) then Some(old(storage)[StorageKey]) else None,
                                    prefersDark)
      ensures storage == old(storage)[StorageKey := theme]
    {
      mounted := true;
      var savedTheme := if StorageKey in storage then Some(storage[StorageKey]) else None;
      if IsTruthy(savedTheme) {
        theme := savedTheme.value;
      } else {
        var systemPreference := if prefersDark then "dark" else "light";
        theme := systemPreference;
      }
      Apply();
    }

    /** `toggleTheme()` followed by the apply effect it triggers. */
    method ToggleTheme()
      requires Valid() && mounted
      modifies this`theme, this`darkClass, this`storage
      ensures Valid()
      ensures theme == Toggled(old(theme))
      ensures storage == old(storage)[StorageKey := theme]
    {
      theme := Toggled(theme);
      Apply();
    }
  }
}
