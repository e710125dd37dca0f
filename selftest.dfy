/** The self-test utilities: which CSS custom properties resolve, which
    responsive utility classes occur in the markup, and whether clicking the
    theme toggle flips the root's `dark` class. */
module SelfTest {
  import opened Browser
  import opened Theme

  /** The custom properties the stylesheet is expected to define. */
  const ExpectedVariables: seq<string> := [
    "--color-background",
    "--color-foreground",
    "--color-card",
    "--color-card-foreground",
    "--color-primary",
    "--color-primary-foreground",
    "--color-secondary",
    "--color-secondary-foreground",
    "--color-muted",
    "--color-muted-foreground",
    "--color-accent",
    "--color-accent-foreground",
    "--color-destructive",
    "--color-destructive-foreground",
    "--color-border",
    "--color-input",
    "--color-ring",
    "--radius-sm",
    "--radius-base",
    "--radius-md",
    "--radius-lg",
    "--radius-xl",
    "--font-sans",
    "--font-mono"
  ]

  /** A responsive-class probe: the label it is reported under and the CSS
      selector that is looked up. */
  datatype ResponsiveProbe = ResponsiveProbe(className: string, selector: string)

  const ResponsiveProbes: seq<ResponsiveProbe> := [
    ResponsiveProbe("hidden sm:block", ".hidden.sm\\:block"),
    ResponsiveProbe("hidden lg:block", ".hidden.lg\\:block"),
    ResponsiveProbe("grid-cols-1", ".grid-cols-1"),
    ResponsiveProbe("sm:grid-cols-2", ".sm\\:grid-cols-2"),
    ResponsiveProbe("lg:grid-cols-3", ".lg\\:grid-cols-3")
  ]

  /** What `testThemeSwitch` reports. */
  datatype SwitchReport = SwitchReport(initial: string, afterToggle: string, success: bool)

  /** The text a theme-toggle control's aria-label must contain to be found. */
  const SwitchQuery := "Switch to"

  predicate Distinct<T(==)>(s: seq<T>) {
    forall i, j | 0 <= i < j < |s| :: s[i] != s[j]
  }

  /** A sequence without repeats has as many distinct elements as entries. */
  lemma {:induction false} DistinctCardinality<T>(s: seq<T>)
    requires Distinct(s)
    ensures |set x | x in s| == |s|
  {
    if s != [] {
      var rest := s[1..];
      assert Distinct(rest) by {
        forall i, j | 0 <= i < j < |rest| ensures rest[i] != rest[j] {
          assert rest[i] == s[i + 1] && rest[j] == s[j + 1];
        }
      }
      DistinctCardinality(rest);
      assert s[0] !in rest by {
        forall k | 0 <= k < |rest| ensures rest[k] != s[0] {
          assert rest[k] == s[k + 1];
        }
      }
      assert (set x | x in s) == (set x | x in rest) + {s[0]} by {
        assert s == [s[0]] + rest;
      }
    }
  }

  lemma ExpectedVariablesCount()
    ensures |set v | v in ExpectedVariables| == 24
  {
    assert Distinct(ExpectedVariables);
    DistinctCardinality(ExpectedVariables);
  }

  predicate DistinctLabels(probes: seq<ResponsiveProbe>) {
    forall k, j | 0 <= k < j < |probes| :: probes[k].className != probes[j].className
  }

  /** The probe labels are pairwise different. */
  lemma ProbeLabelsDistinct()
    ensures DistinctLabels(ResponsiveProbes)
  {
  }

  /** `getPropertyValue`: the resolved value, "" when the property is unset. */
  function PropertyValue(style: map<string, string>, name: string): string {
    if name in style then style[name] else ""
  }

  /** `testCSSVariables`: one entry per expected property, whatever the
      style holds, true exactly when the property resolves to a non-empty
      value. Only the document is read. */
  method TestCssVariables(doc: Document) returns (results: map<string, bool>)
    ensures results.Keys == set v | v in ExpectedVariables
    ensures |results| == 24
    ensures forall v | v in results :: results[v] <==> PropertyValue(doc.rootStyle, v) != ""
  {
    results := map[];
    var i := 0;
    while i < |ExpectedVariables|
      invariant 0 <= i <= |ExpectedVariables|
      invariant results.Keys == set v | v in ExpectedVariables[..i]
      invariant forall v | v in results :: results[v] <==> PropertyValue(doc.rootStyle, v) != ""
    {
      var variable := ExpectedVariables[i];
      var value := PropertyValue(doc.rootStyle, variable);
      results := results[variable := value != ""];
      assert ExpectedVariables[..i + 1] == ExpectedVariables[..i] + [variable];
      i := i + 1;
    }
    assert ExpectedVariables[..i] == ExpectedVariables;
    ExpectedVariablesCount();
  }

  /** Look up every probe's selector and record, under the probe's label,
      whether an element matches. */
  method ProbeSelectors(doc: Document, probes: seq<ResponsiveProbe>) returns (results: map<string, bool>)
    requires DistinctLabels(probes)
    ensures |results| == |probes|
    ensures results.Keys == set p | p in probes :: p.className
    ensures forall p | p in probes :: results[p.className] <==> p.selector in doc.matchedSelectors
  {
    results := map[];
    var i := 0;
    while i < |probes|
      invariant 0 <= i <= |probes|
      invariant |results| == i
      invariant results.Keys == set k | 0 <= k < i :: probes[k].className
      invariant forall k | 0 <= k < i :: results[probes[k].className] <==> probes[k].selector in doc.matchedSelectors
    {
      var probe := probes[i];
      assert probe.className !in results by {
        forall k | 0 <= k < i ensures probes[k].className != probe.className {
        }
      }
      results := results[probe.className := probe.selector in doc.matchedSelectors];
      i := i + 1;
    }
    ProbedByIndex(results, probes, doc.matchedSelectors);
  }

  /** Facts stated per probe index carry over to every probe in the list. */
  lemma ProbedByIndex(results: map<string, bool>, probes: seq<ResponsiveProbe>, matched: set<string>)
    requires results.Keys == set k | 0 <= k < |probes| :: probes[k].className
    requires forall k | 0 <= k < |probes| :: results[probes[k].className] <==> probes[k].selector in matched
    ensures results.Keys == set p | p in probes :: p.className
    ensures forall p | p in probes :: results[p.className] <==> p.selector in matched
  {
  }

  /** `testResponsiveClasses`: one entry per probe label, true exactly when
      some element matches the probe's selector. Only the document is read. */
  method TestResponsiveClasses(doc: Document) returns (results: map<string, bool>)
    ensures results.Keys == set p | p in ResponsiveProbes :: p.className
    ensures |results| == 5
    ensures forall p | p in ResponsiveProbes :: results[p.className] <==> p.selector in doc.matchedSelectors
  {
    ProbeLabelsDistinct();
    results := ProbeSelectors(doc, ResponsiveProbes);
  }

  /** The theme read back from the root: "dark" when it has the class,
      "light" otherwise. */
  function ClassTheme(classes: set<string>): (t: string)
    ensures IsTheme(t)
    ensures t == Dark <==> DarkClass in classes
  {
    if DarkClass in classes then Dark else Light
  }

  /** The `*=` attribute selector: `part` is non-empty and occurs somewhere
      in `s` (an empty value matches nothing). */
  predicate Contains(s: string, part: string)
    decreases |s|
  {
    part != [] && ((|part| <= |s| && s[..|part|] == part) || (s != [] && Contains(s[1..], part)))
  }

  /** Every label the toggle renders is found by the harness's query. */
  lemma AriaLabelMatchesSwitchQuery(t: string)
    ensures Contains(AriaLabel(t), SwitchQuery)
  {
  }

  /** With the root consistent with the theme, one toggle changes the class
      read back exactly when the theme was "light" or "dark". */
  lemma SwitchDetectedIffTheme(classes: set<string>, t: string)
    requires DarkClass in classes <==> t == Dark
    ensures ClassTheme(classes) != ClassTheme(ApplyTheme(classes, Opposite(t))) <==> IsTheme(t)
  {
  }

  /** `testThemeSwitch`: read the root's theme, click the theme-toggle
      control if the query finds one, read the root again. `control` is the
      `ThemeToggle` rendered into `doc`, or null when the page has none. */
  method TestThemeSwitch(doc: Document, control: ThemeToggle?) returns (report: SwitchReport)
    requires control != null ==> control.doc == doc
    modifies doc`rootClasses, doc`storage, control
    ensures report.initial == ClassTheme(old(doc.rootClasses))
    ensures control == null ==> report == SwitchReport(report.initial, report.initial, false)
    ensures control == null ==> doc.rootClasses == old(doc.rootClasses) && doc.storage == old(doc.storage)
    ensures control != null ==>
      && control.theme == Opposite(old(control.theme))
      && doc.storage == old(doc.storage)[ThemeKey := control.theme]
      && doc.rootClasses == ApplyTheme(old(doc.rootClasses), control.theme)
      && report.afterToggle == ClassTheme(doc.rootClasses)
      && report.success == (report.initial != report.afterToggle)
    ensures control != null && old(control.Consistent()) ==> (report.success <==> IsTheme(old(control.theme)))
  {
    var initial := ClassTheme(doc.rootClasses);
    if control != null {
      AriaLabelMatchesSwitchQuery(control.theme);
    }
    var found := control != null && Contains(AriaLabel(control.theme), SwitchQuery);
    if !found {
      return SwitchReport(initial, initial, false);
    }
    ghost var before := doc.rootClasses;
    ghost var oldTheme := control.theme;
    control.ToggleTheme();
    var afterToggle := ClassTheme(doc.rootClasses);
    report := SwitchReport(initial, afterToggle, initial != afterToggle);
    if DarkClass in before <==> oldTheme == Dark {
      SwitchDetectedIffTheme(before, oldTheme);
    }
  }
}
