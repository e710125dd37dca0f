/** The light/dark theme store of the `ThemeToggle` component: an in-memory
    theme, persisted under the `theme` key of local storage and applied to the
    document root as the `dark` class. */
module Theme {
  import opened Wrappers
  import opened Browser

  const Light := "light"
  const Dark := "dark"

  /** The two values the component's state type admits. The stored preference
      is not checked against them, so the state itself may hold any string. */
  predicate IsTheme(t: string) {
    t == Light || t == Dark
  }

  /** `localStorage.getItem('theme')`: the stored string, or null. */
  function SavedTheme(storage: map<string, string>): Option<string> {
    if ThemeKey in storage then Some(storage[ThemeKey]) else None
  }

  /** The theme chosen when the component mounts: a non-empty saved string
      wins, taken as it is; otherwise the system colour scheme decides. */
  function InitialTheme(systemPrefersLight: bool, saved: Option<string>): (t: string)
    ensures saved.Some? && saved.value != "" ==> t == saved.value
    ensures saved.None? || saved.value == "" ==> IsTheme(t) && (t == Light <==> systemPrefersLight)
    ensures IsTheme(t) || t == saved.value
  {
    var fromSystem := if systemPrefersLight then Light else Dark;
    match saved
    case Some(s) => if s != "" then s else fromSystem
    case None => fromSystem
  }

  /** The theme a toggle moves to: "dark" from "light", "light" from anything
      else, so an unrecognised stored value toggles to "light". */
  function Opposite(t: string): (next: string)
    ensures IsTheme(next)
    ensures next == Dark <==> t == Light
    ensures IsTheme(t) ==> next != t
  {
    if t == Light then Dark else Light
  }

  /** The root class list after the theme is applied: the `dark` class is
      present exactly when the theme is "dark", and no other class changes. */
  function ApplyTheme(classes: set<string>, t: string): (applied: set<string>)
    ensures DarkClass in applied <==> t == Dark
    ensures applied - {DarkClass} == classes - {DarkClass}
  {
    if t == Dark then classes + {DarkClass} else classes - {DarkClass}
  }

  /** The toggle button's aria-label: it names the mode a click switches to. */
  function AriaLabel(t: string): (text: string)
    ensures t == Light ==> text == "Switch to dark mode"
    ensures t != Light ==> text == "Switch to light mode"
    ensures text == "Switch to " + Opposite(t) + " mode"
    ensures IsTheme(t) ==> text != "Switch to " + t + " mode"
  {
    "Switch to " + (if t == Light then Dark else Light) + " mode"
  }

  datatype Icon = Moon | Sun

  /** The button's icon: a moon while the theme is light, a sun otherwise. */
  function IconFor(t: string): (icon: Icon)
    ensures icon == Moon <==> Opposite(t) == Dark
  {
    if t == Light then Moon else Sun
  }

  /** Two toggles from a recognised theme restore the theme and the root class
      list; storage then holds the original theme, whether or not it held a
      value before. */
  lemma ToggleTwiceRestores(classes: set<string>, storage: map<string, string>, t: string)
    requires IsTheme(t)
    requires DarkClass in classes <==> t == Dark
    ensures Opposite(Opposite(t)) == t
    ensures ApplyTheme(ApplyTheme(classes, Opposite(t)), Opposite(Opposite(t))) == classes
    ensures storage[ThemeKey := Opposite(t)][ThemeKey := Opposite(Opposite(t))] == storage[ThemeKey := t]
  {
  }

  /** One mounted `ThemeToggle`. `doc` is the page it is rendered into. */
  class ThemeToggle {
    /** The React state `theme` */
    var theme: string
    const doc: Document

    /** Before the mount effect runs the state holds its default, "dark". */
    constructor (doc: Document)
      ensures this.doc == doc && theme == Dark
    {
      this.doc := doc;
      theme := Dark;
    }

    /** The root carries the `dark` class exactly when the theme is "dark". */
    predicate Consistent()
      reads this, doc
    {
      DarkClass in doc.rootClasses <==> theme == Dark
    }

    /** The mount effect: pick the theme from storage or the system colour
        scheme and apply it to the root. Storage is read, never written. */
    method Init(systemPrefersLight: bool)
      modifies this`theme, doc`rootClasses
      ensures theme == InitialTheme(systemPrefersLight, SavedTheme(doc.storage))
      ensures doc.rootClasses == ApplyTheme(old(doc.rootClasses), theme)
      ensures Consistent()
    {
      var initialTheme := if systemPrefersLight then Light else Dark;
      var savedTheme := SavedTheme(doc.storage);
      var currentTheme := if savedTheme.Some? && savedTheme.value != "" then savedTheme.value else initialTheme;
      theme := currentTheme;
      if currentTheme == Dark {
        doc.rootClasses := doc.rootClasses + {DarkClass};
      } else {
        doc.rootClasses := doc.rootClasses - {DarkClass};
      }
    }

    /** `toggleTheme`: switch to the opposite theme, overwrite the stored
        preference with it and re-apply it to the root. */
    method ToggleTheme()
      modifies this`theme, doc`rootClasses, doc`storage
      ensures theme == Opposite(old(theme))
      ensures doc.storage == old(doc.storage)[ThemeKey := theme]
      ensures SavedTheme(doc.storage) == Some(theme)
      ensures doc.rootClasses == ApplyTheme(old(doc.rootClasses), theme)
      ensures Consistent()
    {
      var newTheme := if theme == Light then Dark else Light;
      theme := newTheme;
      doc.storage := doc.storage[ThemeKey := newTheme];
      if newTheme == Dark {
        doc.rootClasses := doc.rootClasses + {DarkClass};
      } else {
        doc.rootClasses := doc.rootClasses - {DarkClass};
      }
    }
  }

  /** A fresh session whose system prefers dark and which has nothing stored:
      the root gets the dark class; one toggle moves to light, stores "light"
      and removes the class. */
  method FreshDarkSession(classes: set<string>, style: map<string, string>, matched: set<string>) {
    var doc := new Document(classes, map[], style, matched);
    var toggle := new ThemeToggle(doc);
    toggle.Init(false);
    assert toggle.theme == Dark && DarkClass in doc.rootClasses;
    toggle.ToggleTheme();
    assert toggle.theme == Light && doc.storage[ThemeKey] == Light;
    assert DarkClass !in doc.rootClasses;
  }

  /** A stored "light" wins over a system that prefers dark. */
  method SavedPreferenceWins(classes: set<string>) {
    var doc := new Document(classes, map[ThemeKey := Light], map[], {});
    var toggle := new ThemeToggle(doc);
    toggle.Init(false);
    assert toggle.theme == Light && DarkClass !in doc.rootClasses;
    assert AriaLabel(toggle.theme) == "Switch to dark mode" && IconFor(toggle.theme) == Moon;
  }

  /** An unrecognised stored value is adopted as the theme: the root loses the
      dark class and the button offers light mode; the first toggle goes to
      light, which leaves the root's class list as it was. */
  method UnrecognisedSavedValue(classes: set<string>) {
    var doc := new Document(classes, map[ThemeKey := "blue"], map[], {});
    var toggle := new ThemeToggle(doc);
    toggle.Init(true);
    assert toggle.theme == "blue" && DarkClass !in doc.rootClasses;
    assert AriaLabel(toggle.theme) == "Switch to light mode";
    var before := doc.rootClasses;
    toggle.ToggleTheme();
    assert toggle.theme == Light && doc.rootClasses == before;
  }
}
