/** Optional values, used for `localStorage.getItem`'s nullable result and for
    the harness's not-yet-run theme test. */
module Wrappers {
  datatype Option<+T> = None | Some(value: T)
}

/** The parts of the web view that the theme store and the self-test harness
    read and write, taken as plain state. Nothing here models the browser
    itself: each field is what the application observes through one API. */
module Browser {

  /** Name of the class on `document.documentElement` that selects the dark
      palette. */
  const DarkClass := "dark"

  /** The single `localStorage` key the theme store uses. */
  const ThemeKey := "theme"

  class Document {
    /** `document.documentElement.classList` */
    var rootClasses: set<string>
    /** `window.localStorage`, key to value */
    var storage: map<string, string>
    /** `getComputedStyle(document.documentElement)`: property name to its
        resolved value; a property missing from the map resolves to "" */
    var rootStyle: map<string, string>
    /** CSS selectors for which `document.querySelector` finds an element */
    var matchedSelectors: set<string>

    constructor (classes: set<string>, storage: map<string, string>,
                 style: map<string, string>, matched: set<string>)
      ensures rootClasses == classes && this.storage == storage
      ensures rootStyle == style && matchedSelectors == matched
    {
      rootClasses := classes;
      this.storage := storage;
      rootStyle := style;
      matchedSelectors := matched;
    }
  }
}
