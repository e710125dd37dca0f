# Theme toggle and Tailwind self-test, modelled in Dafny

This project models the small piece of logic in the desktop front-end's
web view: the light/dark theme toggle, the self-test utilities that inspect
the page, and the results panel that counts what passed.

- `browser.dfy`: `Browser.Document` holds the browser state the code touches,
  as plain fields. These are the root element's class list, `localStorage`,
  the root's computed style (a property absent from the map resolves to `""`)
  and the set of CSS selectors `querySelector` finds an element for.
  `Wrappers.Option` stands for a nullable value.
- `theme.dfy`: `Theme.ThemeToggle` is the `ThemeToggle` component. Its React
  state `theme` is a field, and it holds a reference to the document it is
  rendered into. `Init` is the mount effect and `ToggleTheme` is the click
  handler. Each method's `modifies` clause names exactly the fields it
  changes, so "nothing else changes" is part of every contract.
- `selftest.dfy`: `SelfTest` covers `testCSSVariables`, `testResponsiveClasses`
  and `testThemeSwitch`. The two read-only checkers are methods without a
  `modifies` clause, so they provably leave the class list and storage alone.
- `results.dfy`: `TestResults.TailwindTestResults` is the results panel. It
  holds the two result maps and the optional theme-test report, and it
  computes the passed/total counters.

The theme is a string, not a two-valued type. The code casts the stored
preference to `'light' | 'dark'` without checking it, and any non-empty
stored string is adopted as the theme. With such a value (say `"blue"`), the
root loses the `dark` class and the button reads "Switch to light mode". The
first toggle then goes to `"light"`, which leaves the class list as it was.
So, with a root whose `dark` class agrees with the theme (as after `Init` or
any toggle), the theme-switch self-test reports success exactly when the theme
before the click was `"light"` or `"dark"` (`SelfTest.TestThemeSwitch`). Before
the mount effect runs the two may disagree (the state is "dark" while the root
may lack the class), and then a click can report failure. On a mounted page
with no stored value, or after any toggle, the theme is one of the two and
agrees with the root, and the test always succeeds. The component declares its state as
`'light' | 'dark'` (src/components/ThemeToggle.tsx:6) and casts the stored
value to that type (src/components/ThemeToggle.tsx:14), but nothing checks the
cast, so the state can hold any non-empty stored string; the model follows
what the code does. The report fields `initial` and `afterToggle` are read
from the root's `dark` class (src/utils/test-css-variables.ts:50 and 61), not
from the theme state, and the model reads them the same way.

The query `[aria-label*="Switch to"]` is modelled as a substring test on the
label of the mounted toggle, passed in as `control`; `null` means the page
renders none. `SelfTest.AriaLabelMatchesSwitchQuery` shows that every label
the toggle renders is found, so a mounted toggle is always clicked.

## Model

| member | source | states |
|---|---|---|
| `Theme.InitialTheme` | src/components/ThemeToggle.tsx:10-15 | a non-empty saved string is taken as it is; with none (or an empty one) the theme is "light" iff the system prefers light, else "dark" |
| `Theme.Opposite` | src/components/ThemeToggle.tsx:27 | the next theme is always "light" or "dark"; it is "dark" iff the current one is "light", so every other value goes to "light", and a recognised theme always changes |
| `Theme.ApplyTheme` | src/components/ThemeToggle.tsx:19-23 | the root has the `dark` class iff the theme is "dark"; every other class is untouched |
| `Theme.AriaLabel` | src/components/ThemeToggle.tsx:44 | the label is "Switch to dark mode" when the theme is "light" and "Switch to light mode" otherwise; it names the theme a click moves to, and never the current recognised theme |
| `Theme.IconFor` | src/components/ThemeToggle.tsx:46 | the icon is the moon iff a click moves to dark, i.e. iff the theme is "light" |
| `Theme.ToggleTwiceRestores` | src/components/ThemeToggle.tsx:26-36 | from "light" or "dark" with a consistent root, two toggles restore the theme and the class list; storage then holds the original theme even if it held nothing before |
| `Theme.ThemeToggle.constructor` | src/components/ThemeToggle.tsx:6 | before the mount effect the theme is "dark" |
| `Theme.ThemeToggle.Init` | src/components/ThemeToggle.tsx:8-24 | the theme is chosen from storage or the system preference, applied to the root, and the root is consistent with it; storage is not written |
| `Theme.ThemeToggle.ToggleTheme` | src/components/ThemeToggle.tsx:26-36 | the theme becomes its opposite, storage key `theme` is overwritten with it and no other key changes, and the root class is re-applied and consistent |
| `SelfTest.ExpectedVariablesCount` | src/utils/test-css-variables.ts:6-31 | the checklist names 24 distinct properties |
| `SelfTest.TestCssVariables` | src/utils/test-css-variables.ts:2-41 | the result's keys are exactly the 24 checklist names whatever the style holds; each entry is true iff the resolved value is not "" |
| `SelfTest.ProbeLabelsDistinct` | src/utils/test-css-variables.ts:75-81 | the five probe labels are pairwise different |
| `SelfTest.ProbeSelectors` | src/utils/test-css-variables.ts:83-85 | one entry per probe label; each is true iff its selector matches an element |
| `SelfTest.TestResponsiveClasses` | src/utils/test-css-variables.ts:71-88 | the keys are exactly the five labels; each entry is true iff an element matches the probe's selector |
| `SelfTest.ClassTheme` | src/utils/test-css-variables.ts:50 | the theme read back is always "light" or "dark", and "dark" iff the root has the `dark` class |
| `SelfTest.AriaLabelMatchesSwitchQuery` | src/utils/test-css-variables.ts:53 | every aria-label the toggle renders contains "Switch to", so the query finds the toggle |
| `SelfTest.SwitchDetectedIffTheme` | src/utils/test-css-variables.ts:59-67 | with a root consistent with the theme, one toggle changes the class read back iff the theme was "light" or "dark" |
| `SelfTest.TestThemeSwitch` | src/utils/test-css-variables.ts:44-68 | `initial` reads the root class; with no toggle nothing is clicked and the report is (initial, initial, false); otherwise the toggle is clicked once, `afterToggle` reads the class again and success is initial ≠ afterToggle, which, with a root consistent with the theme (as after `Init` or any toggle), holds iff the theme was "light" or "dark" |
| `TestResults.PassedKeysBounds` | src/components/TailwindTestResults.tsx:40 | the passed keys are all keys iff every entry is true, and none iff every entry is false |
| `TestResults.Passed` | src/components/TailwindTestResults.tsx:40-43 | the passed count never exceeds the total; it equals the total iff every entry passed, and is 0 iff none did |
| `TestResults.TailwindTestResults.constructor` | src/components/TailwindTestResults.tsx:11-19 | before mounting both maps are empty, every count is 0 and there is no theme report |
| `TestResults.TailwindTestResults.Mount` | src/components/TailwindTestResults.tsx:21-25 | the maps are exactly the checkers' results, so the totals are 24 and 5, and the passed counts are the number of resolving properties and of matching probes |
| `TestResults.TailwindTestResults.RunThemeTest` | src/components/TailwindTestResults.tsx:27-30 | the stored report is the theme-switch check's report: `initial` reads the root class; with no toggle the report is (initial, initial, false) and the class list and storage are unchanged; otherwise the toggle moves to the opposite theme, storage key `theme` is overwritten with it, the class is re-applied, `afterToggle` reads the class again and success is initial ≠ afterToggle, which with a consistent toggle holds iff the theme was "light" or "dark" |

## Left out

- The two-second auto-revert timer in `runThemeTest` (src/components/TailwindTestResults.tsx:31-37) is not modelled. It is a deferred callback that races with user clicks.
- React's asynchronous state updates and re-rendering are not modelled: `theme` changes as soon as the handler runs. Two clicks delivered before a re-render would both read the old `theme` in the source; the model does not capture that.
- The rendered markup of the panel and the toggle is not modelled beyond the label and icon choice. This includes the display order of result entries, which follows object insertion order.
- `querySelector('[aria-label*="Switch to"]')` is modelled for the one mounted theme toggle only. Other elements whose labels contain "Switch to" are not modelled.
- Real browser APIs (`matchMedia`, `localStorage`, `getComputedStyle`, `querySelector`) become fields and parameters. A failing or throwing storage write is not modelled.
- The CSS cascade that makes the computed style depend on the `dark` class is not modelled: the style is an input.
- `src/App.tsx` (`greet` through the command bridge), the presentational components, the build configuration, the repository scripts and the native `ryzenadj` bindings carry no logic this model covers.
- `src/scripts/test-theme.js` is a console script and is not modelled. It repeats `testThemeSwitch`'s steps with a timer.
