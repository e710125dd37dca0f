/** The `TailwindTestResults` panel: it runs the CSS-variable and
    responsive-class checks once on mount, runs the theme-switch check on
    demand, and shows passed/total counts. */
module TestResults {
  import opened Wrappers
  import opened Browser
  import opened Theme
  import opened SelfTest

  /** A subset is no larger than its superset, and equally large only when it
      is the whole superset. */
  lemma {:induction false} SubsetCardinality<T>(a: set<T>, b: set<T>)
    requires a <= b
    ensures |a| <= |b|
    ensures |a| == |b| ==> a == b
    decreases |b|
  {
    if a != {} {
      var x :| x in a;
      SubsetCardinality(a - {x}, b - {x});
      assert a == (a - {x}) + {x} && b == (b - {x}) + {x};
    }
  }

  /** The keys whose check passed. */
  function PassedKeys(results: map<string, bool>): set<string> {
    set k | k in results && results[k]
  }

  /** The passed keys are all keys exactly when every entry passed, and none
      exactly when no entry did. */
  lemma PassedKeysBounds(results: map<string, bool>)
    ensures PassedKeys(results) == results.Keys <==> forall k | k in results :: results[k]
    ensures PassedKeys(results) == {} <==> forall k | k in results :: !results[k]
  {
    if forall k | k in results :: results[k] {
      assert PassedKeys(results) == results.Keys;
    } else {
      var k :| k in results && !results[k];
      assert k !in PassedKeys(results);
    }
    if forall k | k in results :: !results[k] {
      assert PassedKeys(results) == {};
    } else {
      var k :| k in results && results[k];
      assert k in PassedKeys(results);
    }
  }

  /** `Object.keys(results).length` */
  function Total(results: map<string, bool>): nat {
    |results|
  }

  /** `Object.values(results).filter(Boolean).length`: the number of entries
      that passed. It never exceeds the total, reaches it exactly when every
      entry passed, and is zero exactly when none did. */
  function Passed(results: map<string, bool>): (n: nat)
    ensures n <= Total(results)
    ensures n == Total(results) <==> forall k | k in results :: results[k]
    ensures n == 0 <==> forall k | k in results :: !results[k]
  {
    SubsetCardinality(PassedKeys(results), results.Keys);
    PassedKeysBounds(results);
    |PassedKeys(results)|
  }

  /** One rendered `TailwindTestResults` component and its React state. */
  class TailwindTestResults {
    var cssVarResults: map<string, bool>
    var responsiveResults: map<string, bool>
    var themeTestResult: Option<SwitchReport>

    /** Before the mount effect both result maps are empty and no theme test
        has run, so every count is zero. */
    constructor ()
      ensures cssVarResults == map[] && responsiveResults == map[] && themeTestResult == None
      ensures CssVarsPassed() == 0 && CssVarsTotal() == 0
      ensures ResponsivePassed() == 0 && ResponsiveTotal() == 0
    {
      cssVarResults := map[];
      responsiveResults := map[];
      themeTestResult := None;
    }

    function CssVarsPassed(): nat reads this { Passed(cssVarResults) }
    function CssVarsTotal(): nat reads this { Total(cssVarResults) }
    function ResponsivePassed(): nat reads this { Passed(responsiveResults) }
    function ResponsiveTotal(): nat reads this { Total(responsiveResults) }

    /** The mount effect: store the two checkers' results. The CSS count is
        then out of 24 and counts the expected properties that resolve; the
        responsive count is out of 5 and counts the probes that match. */
    method Mount(doc: Document)
      modifies this`cssVarResults, this`responsiveResults
      ensures cssVarResults.Keys == set v | v in ExpectedVariables
      ensures forall v | v in cssVarResults :: cssVarResults[v] <==> PropertyValue(doc.rootStyle, v) != ""
      ensures responsiveResults.Keys == set p | p in ResponsiveProbes :: p.className
      ensures forall p | p in ResponsiveProbes :: responsiveResults[p.className] <==> p.selector in doc.matchedSelectors
      ensures CssVarsTotal() == 24 && ResponsiveTotal() == 5
      ensures CssVarsPassed() == |set v | v in ExpectedVariables && PropertyValue(doc.rootStyle, v) != ""|
      ensures ResponsivePassed() == |set p | p in ResponsiveProbes && p.selector in doc.matchedSelectors :: p.className|
    {
      cssVarResults := TestCssVariables(doc);
      responsiveResults := TestResponsiveClasses(doc);
      assert PassedKeys(cssVarResults) == set v | v in ExpectedVariables && PropertyValue(doc.rootStyle, v) != "";
      assert PassedKeys(responsiveResults) == set p | p in ResponsiveProbes && p.selector in doc.matchedSelectors :: p.className;
    }

    /** `runThemeTest`: run the theme-switch check and keep its report. With
        a toggle whose root class agrees with its theme, the report is a
        success exactly when that theme was "light" or "dark". */
    method RunThemeTest(doc: Document, control: ThemeToggle?)
      requires control != null ==> control.doc == doc
      modifies this`themeTestResult, doc`rootClasses, doc`storage, control
      ensures themeTestResult.Some?
      ensures themeTestResult.value.initial == ClassTheme(old(doc.rootClasses))
      ensures control == null ==>
        && themeTestResult.value == SwitchReport(themeTestResult.value.initial, themeTestResult.value.initial, false)
        && doc.rootClasses == old(doc.rootClasses)
        && doc.storage == old(doc.storage)
      ensures control != null ==>
        && control.theme == Opposite(old(control.theme))
        && doc.storage == old(doc.storage)[ThemeKey := control.theme]
        && doc.rootClasses == ApplyTheme(old(doc.rootClasses), control.theme)
        && themeTestResult.value.afterToggle == ClassTheme(doc.rootClasses)
        && themeTestResult.value.success == (themeTestResult.value.initial != themeTestResult.value.afterToggle)
      ensures control != null && old(control.Consistent()) ==>
        (themeTestResult.value.success <==> IsTheme(old(control.theme)))
    {
      var result := TestThemeSwitch(doc, control);
      themeTestResult := Some(result);
    }
  }

  /** A page holding the theme toggle and the results panel, with no stored
      preference: after mounting, the theme test succeeds, and it succeeds
      again when run a second time. */
  method ThemeTestOnFreshPage(systemPrefersLight: bool, classes: set<string>,
                              style: map<string, string>, matched: set<string>)
  {
    var doc := new Document(classes, map[], style, matched);
    var toggle := new ThemeToggle(doc);
    toggle.Init(systemPrefersLight);
    var panel := new TailwindTestResults();
    panel.Mount(doc);
    assert panel.CssVarsTotal() == 24 && panel.CssVarsPassed() <= 24;
    panel.RunThemeTest(doc, toggle);
    assert panel.themeTestResult.value.success;
    panel.RunThemeTest(doc, toggle);
    assert panel.themeTestResult.value.success;
  }
}
