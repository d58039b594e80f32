# Mobile navigation menu and its compatibility probe, in Dafny

This project models the two scripts behind a website's mobile navigation.

- **The navigation controller** (`initNav`, js/nav.js) does three things:
  - It puts the `is-scrolled` shadow class on the nav bar.
  - It opens and closes the mobile menu panel from its toggle button, from links inside the panel, from Escape and from clicks outside the panel.
  - It runs a scroll-spy that moves a single `aria-current` marker across the in-page links.
- **The compatibility probe** (`BrowserCompatibilityTest`, js/browser-test.js) does three things:
  - It classifies the device and the browser from the user agent and the screen size.
  - It records pass/fail/warning verdicts about the menu's elements in an append-only log.
  - It tallies that log.

The modules are:

- `NavMenu` (nav_menu.dfy) is the menu as a state machine.
  - The `MenuState` value holds:
    - the button's `aria-expanded`;
    - `panel.hidden`;
    - the `show` class;
    - the two optional icons;
    - the number of 180 ms hide timers that `closeMenu` has scheduled and that have not fired yet.
  - Pure functions give the effect of each handler.
  - The class `Menu` holds the same state in fields. It has one method per handler, and each method is proved to update the fields exactly as its function says.
- `NavScroll` (nav_scroll.dfy) has three parts:
  - the shadow predicate and the `NavBar` class;
  - the `sections` filter;
  - the scroll-spy. Its callback is a method with nested loops over an `array<bool>` of `aria-current` flags, proved against a function on sequences.
- `BrowserDetect` (browser_detect.dfy) holds `detectDevice`, `detectBrowser` and the part of `detectCapabilities` that reads the user agent. The device classifier is also proved equal to an independent priority table.
- `BrowserTest` (browser_test.dfy) holds the verdict logic, the tally and the class `CompatibilityTest`. That class owns the `tests` log, and its methods append to the log as the source does.
- `Text` (text.dfy) holds substring search, the regular-expression capture `token(\d+)` and the way template strings render numbers. `Options` (options.dfy) holds the optional value.

Inputs that come from the browser are parameters:

- the user agent and the screen size;
- the feature probes;
- layout measurements;
- the `isIntersecting` flag of each observer entry;
- where a click lands;
- the key pressed.

A scheduled hide is a counter. Its firing is an explicit step (`HideFired`, `Menu.FireHide`).

In three places the code promises less than one would expect of a menu and a scroll-spy. The model follows the code:

- **Expanded and visible.** One expects `aria-expanded` and `panel.hidden` to agree once every transition has settled. The code keeps only one half: once settled, a menu that is not expanded is hidden. A hide that is still pending when the menu reopens hides an expanded menu (see Findings).
- **Scroll-spy.** One expects the marker to sit on the link of the section that is in view. The code marks the link of the last intersecting entry of each batch that has a link; an entry whose section has no link changes nothing. Entries that stop intersecting do not clear the marker.
- **Toggle clicks.** One expects any run of toggle clicks to leave `panel.hidden` opposite to "expanded" once it settles. That holds only for clicks more than 180 ms apart (`SpacedEventsKeepAgreement`).

## Model

| member | source | states |
|---|---|---|
| `NavMenu.Opened` | js/nav.js:20-26 | opening sets `aria-expanded` to "true", shows the panel, adds `show`, hides the open icon and shows the close icon; pending hides are unchanged and the button side is coherent |
| `NavMenu.Closed` | js/nav.js:27-34 | closing sets `aria-expanded` to "false" at once, removes `show` and swaps the icons back; `panel.hidden` is untouched and one more hide is pending |
| `NavMenu.HideFired` | js/nav.js:33 | a firing hide timer sets `panel.hidden` and removes itself from the pending hides; every other field is unchanged |
| `NavMenu.Toggled` | js/nav.js:36-39 | a toggle click flips "expanded"; it closes only when `aria-expanded` is exactly "true", so any other value or a missing attribute opens; only a close adds a pending hide |
| `NavMenu.PanelClicked` | js/nav.js:42-45 | a click in the panel closes exactly when its target is itself an `A` element, and changes nothing otherwise |
| `NavMenu.KeyPressed` | js/nav.js:48-50 | Escape closes whatever the state; any other key changes nothing |
| `NavMenu.OutsideClickCaptured` | js/nav.js:53-55 | the capture-phase click closes exactly when the panel is not hidden, the target is outside the panel and the target is not the button itself |
| `NavMenu.Clicked` | js/nav.js:36-55 | one click runs the document's capture handler first, then the button's or the panel's handler; a click on a descendant of the button runs the capture handler, which can close, and then the toggle |
| `NavMenu.Step` | js/nav.js:33-55 | one event (a click, a key press or a firing hide timer) schedules at most one hide, and only a firing timer takes one away |
| `NavMenu.Run` | js/nav.js:33-55 | a sequence of events, in order, leaves at most one pending hide per event however fast they come |
| `NavMenu.Settle` | js/nav.js:33 | once every pending hide has fired, no hide is pending and the panel is hidden if it was hidden or any hide was pending; nothing else changes |
| `NavMenu.RunKeepsControls` | js/nav.js:20-34 | after any event sequence, the button side stays coherent: `aria-expanded` is "true" or "false", and `show` and the icons agree with it |
| `NavMenu.RunKeepsClosedSettledHidden` | js/nav.js:27-34 | after any event sequence, a menu that is not expanded and has no hide pending is hidden |
| `NavMenu.CloseThenOpenHidesExpandedMenu` | js/nav.js:33-39 | from an expanded menu, two toggles and then the pending hide give an expanded menu with a hidden panel |
| `NavMenu.SpacedEventsKeepAgreement` | js/nav.js:20-55 | with events more than 180 ms apart and no click on an element inside the button, a settled menu keeps "expanded iff visible" |
| `NavMenu.ButtonClickClosesOpenMenu` | js/nav.js:53-55 | a click on the button itself of an open menu closes it once; the capture handler does not also act on it |
| `NavMenu.IconClickLeavesExpandedHiddenMenu` | js/nav.js:53-55 | a click on an icon inside the button of an open menu leaves it expanded, and once the hide fires its panel is hidden |
| `NavMenu.OpenedCancelling` | js/nav.js:20-26 | corrected open: the result is `openMenu`'s in every field but the pending hides, which are all cancelled; so the menu is expanded, the panel visible, `show` present, the icons show "open", and expanded agrees with visible |
| `NavMenu.ToggledCancelling` | js/nav.js:36-39 | corrected toggle: flips "expanded"; from an expanded menu it is exactly `closeMenu`, otherwise it opens with no hide pending, the panel visible and the button side coherent |
| `NavMenu.ClickedIntended` | js/nav.js:53-55 | corrected dispatch: a click on the button or anything inside it is exactly one toggle |
| `NavMenu.IntendedRunKeepsAgreement` | js/nav.js:20-55 | with both corrections, every event sequence keeps three things: a coherent button side, pending hides only while closed, and "expanded iff visible" whenever no hide is pending |
| `NavMenu.IntendedCloseOpenAndIconClick` | js/nav.js:53-55 | with both corrections, close then open leaves the panel visible, and a click on an icon of an open menu closes it |
| `NavMenu.Menu.constructor` | js/nav.js:16-18 | the menu starts in the state the markup renders |
| `NavMenu.Menu.OpenMenu` | js/nav.js:20-26 | the fields become `Opened` of the old state |
| `NavMenu.Menu.CloseMenu` | js/nav.js:27-34 | the fields become `Closed` of the old state |
| `NavMenu.Menu.FireHide` | js/nav.js:33 | the fields become `HideFired` of the old state |
| `NavMenu.Menu.OnButtonClick` | js/nav.js:36-39 | the fields become `Toggled` of the old state |
| `NavMenu.Menu.OnPanelClick` | js/nav.js:42-45 | the fields become `PanelClicked` of the old state |
| `NavMenu.Menu.OnKeyDown` | js/nav.js:48-50 | the fields become `KeyPressed` of the old state |
| `NavMenu.Menu.OnDocumentClickCapture` | js/nav.js:53-55 | the fields become `OutsideClickCaptured` of the old state |
| `NavMenu.Menu.Click` | js/nav.js:36-55 | a click, through each listener in dispatch order, leaves the fields at `Clicked` of the old state |
| `NavScroll.NavBar.constructor` | js/nav.js:8-12 | the first `onScroll()` at start-up: `is-scrolled` is present iff the offset exceeds 8 |
| `NavScroll.NavBar.OnScroll` | js/nav.js:8-13 | after a scroll event `is-scrolled` is present iff the offset exceeds 8, so a second call at the same offset changes nothing |
| `NavScroll.ShadowThreshold` | js/nav.js:9 | offsets 0 and 8 give no shadow; 8.5, 9 and 1000 do |
| `NavScroll.FindLink` | js/nav.js:65 | `links.find` gives the first link whose href equals the target, and nothing exactly when no link has it |
| `NavScroll.Sections` | js/nav.js:59-60 | a section is observed exactly when some link's href is `#` followed by an existing id; there are never more sections than links |
| `NavScroll.SectionsKeepLinkOrder` | js/nav.js:60 | the sections of a sequence of links are those of its first part followed by those of its second, so link order is kept |
| `NavScroll.SpyEntry` | js/nav.js:63-70 | an intersecting entry with a matching link leaves that link the only one marked; any other entry changes nothing |
| `NavScroll.SpyBatch` | js/nav.js:62-71 | `entries.forEach` processes a batch in order and leaves the flags either as they were or with exactly one link marked |
| `NavScroll.SpyBatchLastQualifyingWins` | js/nav.js:62-71 | after a batch, the link of the last qualifying entry is the only one marked; with no qualifying entry nothing changed |
| `NavScroll.SpyBatchMarksOneLink` | js/nav.js:67-70 | once any entry of a batch qualified, exactly one link carries `aria-current` |
| `NavScroll.ObservedSectionHasLink` | js/nav.js:59-66 | an entry for an observed section always finds its link |
| `NavScroll.ScrollSpy.OnIntersections` | js/nav.js:62-71 | the callback's loops leave the flags at `SpyBatch` of the old flags |
| `NavScroll.ScrollSpy.constructor` | js/nav.js:59 | the spy holds the in-page links of the nav in document order, with their current `aria-current` flags |
| `Text.Contains` | js/browser-test.js:22-39 | a literal-token regular expression matches exactly when the token occurs somewhere in the string |
| `Text.CaptureNumber` | js/browser-test.js:61 | `token(\d+)` matches exactly when some occurrence of the token is followed by a digit; the capture is then a non-empty run of digits |
| `Text.NatTextRoundTrip` | js/browser-test.js:126 | a rendered non-negative number reads back as itself |
| `Text.IntTextRoundTrip` | js/browser-test.js:165 | a rendered integer reads back as its sign and its digits |
| `BrowserDetect.DetectDevice` | js/browser-test.js:13-52 | the device equals the priority table's first matching token; it reports the screen size, landscape iff width > height, one of four types, and `unknown` exactly when no token occurs |
| `BrowserDetect.ClassifiedRulesAgree` | js/browser-test.js:22-42 | the if-chain and the priority table `iPhone`, `iPad`, `Android`(768), `Windows`, `Mac` classify every input alike |
| `BrowserDetect.AndroidTabletThreshold` | js/browser-test.js:28-35 | an Android user agent (without iPhone or iPad) is `Android Tablet`/`tablet` at width 768 and `Android Phone`/`mobile` at 767 |
| `BrowserDetect.SquareIsPortrait` | js/browser-test.js:50 | a square screen is portrait |
| `BrowserDetect.VersionAfter` | js/browser-test.js:61 | the version is never empty; it is `unknown` exactly when no occurrence of the token is followed by a digit, and digits otherwise |
| `BrowserDetect.DetectBrowser` | js/browser-test.js:54-78 | Safari iff Safari and not Chrome; Chrome iff Chrome; Firefox iff Firefox without Safari or Chrome; Edge iff Edge without the other three; each reads its own version token; no browser gives version `unknown` |
| `BrowserDetect.VersionIsLeftmostDigitRun` | js/browser-test.js:61-70 | the version is the maximal digit run after the leftmost occurrence of the token that a digit follows |
| `BrowserDetect.DetectCapabilities` | js/browser-test.js:80-101 | the probe flags are reported as given; `webkit`, `gecko` and `blink` say whether the user agent contains those words |
| `BrowserTest.TouchTargetVerdict` | js/browser-test.js:137-142 | the touch target passes iff both sides are at least 44, and is otherwise a warning, never a failure |
| `BrowserTest.MenuButtonRecords` | js/browser-test.js:114-145 | no button: one failing "Menu Button Exists"; a button: four whole records in order: exists (pass), visibility (pass when there is no `hidden` class and the width is positive, fail otherwise), accessibility (pass when all three ARIA attributes are present, fail otherwise), touch size (`TouchTargetVerdict`), each with its name and its details text |
| `BrowserTest.MenuPanelRecords` | js/browser-test.js:147-173 | no panel: one failing "Menu Panel Exists"; a panel: four whole records in order: exists (pass), initial state (pass when hidden, fail otherwise), positioning (pass when top and left are positive, fail otherwise), backdrop blur (pass with the capability, warning otherwise), each with its name and its details text |
| `BrowserTest.RapidClickVerdict` | js/browser-test.js:291-293 | the rapid-click verdict is pass iff the panel exists; it is never a warning and no menu state can change it |
| `BrowserTest.ResizeVerdict` | js/browser-test.js:301-306 | the resize verdict is pass iff the button exists with a positive width, and otherwise a warning |
| `BrowserTest.EdgeCaseRecords` | js/browser-test.js:277-307 | the edge-case check adds the resize record (`ResizeVerdict`), and after it, only when there is a button, the rapid-click record (`RapidClickVerdict`), each with its name and details text |
| `BrowserTest.Count` | js/browser-test.js:334-336 | `filter(t => t.result === v).length` is at most the number of records, zero exactly when no record has that verdict, and the whole log exactly when every record has it |
| `BrowserTest.Tally` | js/browser-test.js:334-336 | passed + failed + warnings equals the number of records |
| `BrowserTest.CountsPartition` | js/browser-test.js:330-336 | every record is counted by exactly one of the three filters |
| `BrowserTest.TallyAppend` | js/browser-test.js:104-111 | appending one record raises exactly the count of its verdict by one |
| `BrowserTest.ClickedTimes` | js/browser-test.js:284-296 | `n` clicks on the button flip "expanded" exactly when `n` is odd, and every click that closes adds one pending hide: from an expanded menu (n+1)/2 of them, otherwise n/2 |
| `BrowserTest.RapidClicksHideExpandedMenu` | js/browser-test.js:284-296 | from a closed, settled menu the five rapid clicks leave it expanded with two hides pending, so once they fire the expanded menu's panel is hidden, although the check's record only asks whether the panel exists |
| `BrowserTest.CompatibilityTest.constructor` | js/browser-test.js:3-9 | device, browser and capabilities are the classifiers' results, and the log starts empty |
| `BrowserTest.CompatibilityTest.AddTest` | js/browser-test.js:104-111 | exactly one record is appended at the end; earlier records and the fixed facts are unchanged |
| `BrowserTest.CompatibilityTest.TestMenuButton` | js/browser-test.js:114-145 | appends `MenuButtonRecords` and returns whether the button exists |
| `BrowserTest.CompatibilityTest.TestMenuPanel` | js/browser-test.js:147-173 | appends `MenuPanelRecords` with the recorded blur capability and returns whether the panel exists |
| `BrowserTest.CompatibilityTest.TestEdgeCases` | js/browser-test.js:277-307 | clicks the wired menu five times when the button exists, then appends `EdgeCaseRecords` |
| `BrowserTest.CompatibilityTest.Totals` | js/browser-test.js:330-336 | the counts of the current log add up to its length |

## Left out

- DOM lookups, listener registration and propagation are not modelled. `querySelector`, `getElementById` and `contains` become inputs: `ClickTarget` says where a click lands, and the key name comes with `KeyDown`.
- The `btn && panel` guard (js/nav.js:16) and the `'IntersectionObserver' in window` guard (js/nav.js:61) are not modelled as code. A `Menu` or a `ScrollSpy` is built only when its guard holds. The same goes for a missing `nav`, for which no `NavBar` is built.
- Real time is not modelled. A hide is a pending count, and a firing is the explicit step `HideFired`. Every pending hide does the same thing, so their order does not matter.
- The geometry of `IntersectionObserver` (its root margins and threshold) is not modelled. Each entry brings its `isIntersecting` flag.
- `NavScroll.Sections` looks up the text after `#` as a literal element id. It does not model CSS selector syntax. In the source, an href that is not a valid selector (a bare `#`, or `#1abc`) makes `querySelector` throw, which ends `initNav` before any observer exists. An href such as `#a.b` is a compound selector there (id `a` with class `b`), while the model looks up the id `a.b`.
- `detectCapabilities` probes the browser for touch, pointer, passive listeners, `IntersectionObserver`, backdrop filter, grid and flexbox. These answers are inputs (`Probes`).
- `pixelRatio` (`window.devicePixelRatio || 1`) is left out because it is a floating-point value.
- `timestamp` (`toISOString`) is left out because it reads the clock.
- `console.log` output, the emoji, the publication on `window.mobileNavTestResults` and the `mobileNavTestComplete` event are left out as I/O.
- The `DOMContentLoaded` and `module.exports` bootstrapping is left out as I/O.
- `runTests`, `testMenuFunctionality`, `testTouchInteractions`, `testPerformance` and `testAccessibility` are not part of this model. They are outside the modelled core, and `testPerformance` measures floating-point time.
- `BrowserTest.MenuButtonRecords` takes layout sizes as whole CSS pixels, because `getBoundingClientRect` can return fractional values that the model does not carry. Its details texts are exact only for whole-pixel sizes below 10^21; from 10^21 on, a template string writes a number in exponent notation, while `Text.NatText` always writes every digit.
- `BrowserTest.MenuPanelRecords` takes layout sizes as whole CSS pixels, for the same reason.
- `BrowserTest.CompatibilityTest.TestEdgeCases` does not model the 50 ms spacing of the five clicks. It also does not model hides that fall due between them: the clicks run back to back, and pending hides fire only when `FireHide` is called. The records' order assumes the resize timer (100 ms) fires before the fifth click (200 ms). The records that other checks add from their own timers in between are not modelled.
- `NavMenu.Menu` follows the code as written, so neither correction from the Findings table is applied there. The corrected behaviour is stated by the `...Cancelling` and `...Intended` functions next to it, with its properties proved.

## Findings

| source | as written | input that shows it | evidently intended | confidence | as-written member | corrected member |
|---|---|---|---|---|---|---|
| js/nav.js:33 | `closeMenu` schedules `panel.hidden = true` after 180 ms, and `openMenu` never cancels it | open the menu, click the toggle twice within 180 ms (close, then open), wait: `aria-expanded` is "true" and `show` is present, but the panel is hidden | opening cancels pending hides, so "expanded iff visible" holds whenever no hide is pending | not executed; high | `NavMenu.CloseThenOpenHidesExpandedMenu` | `NavMenu.IntendedRunKeepsAgreement` |
| js/nav.js:54 | the outside-click test excludes only `e.target === btn`, not the icons inside the button | with the menu open, click the close icon inside the button: the capture handler closes, then the button handler sees "false" and reopens, and the close's hide then hides the expanded menu | every click on the button or inside it is one toggle, so clicking the close icon closes the menu | not executed; medium (a stylesheet may turn off pointer events on the icons) | `NavMenu.IconClickLeavesExpandedHiddenMenu` | `NavMenu.IntendedCloseOpenAndIconClick` |
