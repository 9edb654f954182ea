/**
 * The theme switcher of src/components/ThemeSelect.tsx.
 *
 * The page is one object holding the three pieces of state `applyTheme`
 * touches: the class list of the document element, its `data-theme`
 * attribute and the key/value store of `localStorage`.
 */
module Theme {
  import opened Wrappers

  /** The icons of the menu entries. */
  datatype Icon = Sun | MoonStars | PersonSimpleSki

  /** `themeOptions`: the menu entries, in their insertion order. */
  const ThemeOptions: seq<(string, Icon)> := [("light", Sun), ("dark", MoonStars), ("eighties", PersonSimpleSki)]

  const ThemeKey: string := "theme"

  /** `Map.get` over entries whose names are distinct: the icon of the entry named `name`. */
  function Lookup(entries: seq<(string, Icon)>, name: string): (icon: Option<Icon>)
    ensures icon.Some? <==> exists k :: 0 <= k < |entries| && entries[k].0 == name
    ensures icon.Some? ==> (name, icon.value) in entries
  {
    if entries == [] then None
    else if entries[0].0 == name then Some(entries[0].1)
    else Lookup(entries[1..], name)
  }

  /** `themeOptions.get(name)?.icon`. */
  function IconFor(name: string): Option<Icon>
  {
    Lookup(ThemeOptions, name)
  }

  /** The menu knows exactly the three themes. */
  lemma IconForKnownThemes(name: string)
    ensures IconFor(name).Some? <==> name == "light" || name == "dark" || name == "eighties"
  {
  }

  /** The value `applyTheme` gives `data-theme`, or `None` where its `switch` has no case. */
  function DataThemeFor(theme: string): (value: Option<string>)
    ensures value.Some? <==> IconFor(theme).Some?
  {
    IconForKnownThemes(theme);
    if theme == "dark" then Some("github-dark")
    else if theme == "light" then Some("github-light")
    else if theme == "eighties" then Some("synthwave-84")
    else None
  }

  /** The observable state of the page. */
  datatype PageState = PageState(classes: set<string>, dataTheme: Option<string>, storage: map<string, string>)

  /** `localStorage.getItem(key)`: `null` for a missing key. */
  function GetItem(storage: map<string, string>, key: string): (item: Option<string>)
    ensures item.Some? <==> key in storage
    ensures item.Some? ==> item.value == storage[key]
  {
    if key in storage then Some(storage[key]) else None
  }

  /** The page after `applyTheme(theme)`. */
  function Applied(s: PageState, theme: string): (r: PageState)
    ensures "dark" in r.classes <==> theme == "dark"
    ensures "eighties" in r.classes <==> theme == "eighties"
    ensures !("dark" in r.classes && "eighties" in r.classes)
    ensures forall c :: c != "dark" && c != "eighties" ==> (c in r.classes <==> c in s.classes)
    ensures theme == "dark" ==> r.dataTheme == Some("github-dark")
    ensures theme == "light" ==> r.dataTheme == Some("github-light")
    ensures theme == "eighties" ==> r.dataTheme == Some("synthwave-84")
    ensures IconFor(theme).None? ==> r.dataTheme == s.dataTheme
    ensures GetItem(r.storage, ThemeKey) == Some(theme)
    ensures forall k :: k != ThemeKey ==> GetItem(r.storage, k) == GetItem(s.storage, k)
  {
    var cleared := s.classes - {"dark", "eighties"};
    var classes := if theme == "dark" then cleared + {"dark"}
                   else if theme == "eighties" then cleared + {"eighties"}
                   else cleared;
    var dataTheme := if DataThemeFor(theme).Some? then DataThemeFor(theme) else s.dataTheme;
    PageState(classes, dataTheme, s.storage[ThemeKey := theme])
  }

  /** Applying a theme a second time changes nothing. */
  lemma AppliedIdempotent(s: PageState, theme: string)
    ensures Applied(Applied(s, theme), theme) == Applied(s, theme)
  {
  }

  /**
   * The initial-theme lambda: the stored value unless it is missing or empty
   * (`||` treats `""` as false), else the system's dark-mode preference.
   */
  function InitialTheme(stored: Option<string>, prefersDark: bool): (theme: string)
    ensures theme != ""
    ensures stored.Some? && stored.value != "" ==> theme == stored.value
    ensures !(stored.Some? && stored.value != "") ==> theme == (if prefersDark then "dark" else "light")
    ensures theme == "eighties" ==> stored == Some("eighties")
  {
    if stored.Some? && stored.value != "" then stored.value
    else if prefersDark then "dark" else "light"
  }

  /** Without a stored choice, the initial theme is one of the menu entries. */
  lemma FallbackIsAnOption(prefersDark: bool)
    ensures IconFor(InitialTheme(None, prefersDark)).Some?
  {
  }

  /** A theme applied before a reload is the theme the reloaded page starts with. */
  lemma ReloadRestoresTheme(s: PageState, theme: string, prefersDark: bool)
    requires theme != ""
    ensures InitialTheme(GetItem(Applied(s, theme).storage, ThemeKey), prefersDark) == theme
  {
  }

  /** The document element's class list and attribute, and `localStorage`. */
  class Page {
    var classes: set<string>
    var dataTheme: Option<string>
    var storage: map<string, string>

    constructor (classes: set<string>, dataTheme: Option<string>, storage: map<string, string>)
      ensures State() == PageState(classes, dataTheme, storage)
    {
      this.classes := classes;
      this.dataTheme := dataTheme;
      this.storage := storage;
    }

    function State(): PageState
      reads this
    {
      PageState(classes, dataTheme, storage)
    }

    /** `classList.remove(...)`. */
    method RemoveClasses(names: set<string>)
      modifies this
      ensures State() == old(State()).(classes := old(classes) - names)
    {
      classes := classes - names;
    }

    /** `classList.add(name)`. */
    method AddClass(name: string)
      modifies this
      ensures State() == old(State()).(classes := old(classes) + {name})
    {
      classes := classes + {name};
    }

    /** `setAttribute("data-theme", value)`. */
    method SetDataTheme(value: string)
      modifies this
      ensures State() == old(State()).(dataTheme := Some(value))
    {
      dataTheme := Some(value);
    }

    /** `localStorage.setItem(key, value)`. */
    method SetItem(key: string, value: string)
      modifies this
      ensures State() == old(State()).(storage := old(storage)[key := value])
    {
      storage := storage[key := value];
    }
  }

  /** `applyTheme`: clear both theme classes, apply the chosen theme, persist it. */
  method ApplyTheme(page: Page, newTheme: string)
    modifies page
    ensures page.State() == Applied(old(page.State()), newTheme)
  {
    page.RemoveClasses({"dark", "eighties"});
    if newTheme == "dark" {
      page.AddClass("dark");
      page.SetDataTheme("github-dark");
    } else if newTheme == "light" {
      page.SetDataTheme("github-light");
    } else if newTheme == "eighties" {
      page.AddClass("eighties");
      page.SetDataTheme("synthwave-84");
    }
    page.SetItem(ThemeKey, newTheme);
  }

  /** The component: its `theme` state over the page it styles. */
  class ThemeSelect {
    var theme: string
    const page: Page

    /** Mounting reads the stored choice and the system preference and writes nothing. */
    constructor (page: Page, prefersDark: bool)
      ensures this.page == page
      ensures theme == InitialTheme(GetItem(page.storage, ThemeKey), prefersDark)
      ensures page.State() == old(page.State())
    {
      this.page := page;
      theme := InitialTheme(GetItem(page.storage, ThemeKey), prefersDark);
    }

    /** `handleThemeChange`: remember the choice and apply it. */
    method HandleThemeChange(newTheme: string)
      modifies this, page
      ensures theme == newTheme
      ensures page.State() == Applied(old(page.State()), newTheme)
      ensures GetItem(page.storage, ThemeKey) == Some(theme)
    {
      theme := newTheme;
      ApplyTheme(page, newTheme);
    }
  }
}
