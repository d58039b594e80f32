/** The compatibility probe's result log (class `BrowserCompatibilityTest` in
    js/browser-test.js): an append-only list of named verdicts, the checks that
    turn observations of the menu's elements into verdicts, and the tally. */
module BrowserTest {
  import opened Options
  import opened Text
  import opened BrowserDetect
  import NavMenu

  /** `'pass'`, `'fail'` or `'warning'`: every caller of `addTest` passes one of these. */
  datatype Verdict = Pass | Fail | Warning

  /** One entry of `results.tests`. */
  datatype TestRecord = TestRecord(name: string, result: Verdict, details: string)

  /** What the checks read from the menu button. Sizes are in whole CSS pixels. */
  datatype ButtonProbe = ButtonProbe(hasHiddenClass: bool, offsetWidth: int,
                                     hasAriaExpanded: bool, hasAriaControls: bool, hasAriaLabel: bool,
                                     rectWidth: int, rectHeight: int)

  /** What the checks read from the menu panel. */
  datatype PanelProbe = PanelProbe(hidden: bool, rectLeft: int, rectTop: int)

  /** The minimum touch target, in CSS pixels. */
  const MinTouchSize := 44

  /** The number of clicks of the rapid-click check. */
  const MaxClicks := 5

  function PassOr(ok: bool, otherwise: Verdict): Verdict
  {
    if ok then Pass else otherwise
  }

  /** The verdict of the touch-target check: large enough in both directions passes, anything
      smaller is only a warning. */
  function TouchTargetVerdict(width: int, height: int): (v: Verdict)
    ensures v == Pass <==> width >= MinTouchSize && height >= MinTouchSize
    ensures v != Fail
  {
    PassOr(width >= MinTouchSize && height >= MinTouchSize, Warning)
  }

  // The `details` texts of the checks whose message interpolates observed values.

  function VisibilityDetails(isVisible: bool, offsetWidth: int): string
  {
    "Button visible: " + BoolText(isVisible) + ", width: " + IntText(offsetWidth) + "px"
  }

  function AriaDetails(expanded: bool, controls: bool, labelled: bool): string
  {
    "ARIA: expanded=" + BoolText(expanded) + ", controls=" + BoolText(controls) + ", label=" + BoolText(labelled)
  }

  function SizeDetails(width: int, height: int): string
  {
    "Size: " + IntText(width) + "x" + IntText(height) + "px (min: 44x44)"
  }

  function HiddenDetails(isHidden: bool): string
  {
    "Panel initially hidden: " + BoolText(isHidden)
  }

  function PositionDetails(left: int, top: int): string
  {
    "Panel positioned at (" + IntText(left) + ", " + IntText(top) + ")"
  }

  /** The records `testMenuButton` adds (js/browser-test.js:114-145). */
  function MenuButtonRecords(button: Option<ButtonProbe>): (r: seq<TestRecord>)
    ensures button.None? ==> r == [TestRecord("Menu Button Exists", Fail, "Menu button not found")]
    ensures button.Some? ==> |r| == 4 && r[0] == TestRecord("Menu Button Exists", Pass, "Menu button found")
    ensures button.Some? ==>
      var b := button.value;
      var isVisible := !b.hasHiddenClass && b.offsetWidth > 0;
      r[1] == TestRecord("Menu Button Visibility", if isVisible then Pass else Fail,
                         VisibilityDetails(isVisible, b.offsetWidth))
    ensures button.Some? ==>
      var b := button.value;
      r[2] == TestRecord("Menu Button Accessibility",
                         if b.hasAriaExpanded && b.hasAriaControls && b.hasAriaLabel then Pass else Fail,
                         AriaDetails(b.hasAriaExpanded, b.hasAriaControls, b.hasAriaLabel))
    ensures button.Some? ==>
      r[3] == TestRecord("Touch Target Size", TouchTargetVerdict(button.value.rectWidth, button.value.rectHeight),
                         SizeDetails(button.value.rectWidth, button.value.rectHeight))
  {
    match button
    case None => [TestRecord("Menu Button Exists", Fail, "Menu button not found")]
    case Some(b) =>
      var isVisible := !b.hasHiddenClass && b.offsetWidth > 0;
      var aria := b.hasAriaExpanded && b.hasAriaControls && b.hasAriaLabel;
      [ TestRecord("Menu Button Exists", Pass, "Menu button found"),
        TestRecord("Menu Button Visibility", PassOr(isVisible, Fail), VisibilityDetails(isVisible, b.offsetWidth)),
        TestRecord("Menu Button Accessibility", PassOr(aria, Fail),
                   AriaDetails(b.hasAriaExpanded, b.hasAriaControls, b.hasAriaLabel)),
        TestRecord("Touch Target Size", TouchTargetVerdict(b.rectWidth, b.rectHeight),
                   SizeDetails(b.rectWidth, b.rectHeight)) ]
  }

  /** The records `testMenuPanel` adds (js/browser-test.js:147-173); the blur check reads the
      capability flag gathered at construction. */
  function MenuPanelRecords(panel: Option<PanelProbe>, backdropFilter: bool): (r: seq<TestRecord>)
    ensures panel.None? ==> r == [TestRecord("Menu Panel Exists", Fail, "Menu panel not found")]
    ensures panel.Some? ==> |r| == 4 && r[0] == TestRecord("Menu Panel Exists", Pass, "Menu panel found")
    ensures panel.Some? ==>
      r[1] == TestRecord("Menu Panel Initial State", if panel.value.hidden then Pass else Fail,
                         HiddenDetails(panel.value.hidden))
    ensures panel.Some? ==>
      var p := panel.value;
      r[2] == TestRecord("Menu Panel Positioning", if p.rectTop > 0 && p.rectLeft > 0 then Pass else Fail,
                         PositionDetails(p.rectLeft, p.rectTop))
    ensures panel.Some? ==>
      r[3] == TestRecord("Backdrop Blur Support", if backdropFilter then Pass else Warning,
                         "Backdrop blur may not be supported on this device")
  {
    match panel
    case None => [TestRecord("Menu Panel Exists", Fail, "Menu panel not found")]
    case Some(p) =>
      var isPositioned := p.rectTop > 0 && p.rectLeft > 0;
      [ TestRecord("Menu Panel Exists", Pass, "Menu panel found"),
        TestRecord("Menu Panel Initial State", PassOr(p.hidden, Fail), HiddenDetails(p.hidden)),
        TestRecord("Menu Panel Positioning", PassOr(isPositioned, Fail), PositionDetails(p.rectLeft, p.rectTop)),
        TestRecord("Backdrop Blur Support", PassOr(backdropFilter, Warning),
                   "Backdrop blur may not be supported on this device") ]
  }

  /** The verdict of the rapid-click check: `panel && (panel.hidden || !panel.hidden)`. Its
      only input is whether the panel exists; the menu's state cannot change it. */
  function RapidClickVerdict(panelPresent: bool): (v: Verdict)
    ensures v == Pass <==> panelPresent
    ensures v != Warning
  {
    PassOr(panelPresent, Fail)
  }

  /** The verdict of the resize check: the button exists and has a width. Never a failure. */
  function ResizeVerdict(widthAfterResize: Option<int>): (v: Verdict)
    ensures v == Pass <==> widthAfterResize.Some? && widthAfterResize.value > 0
    ensures v != Fail
  {
    PassOr(widthAfterResize.Some? && widthAfterResize.value > 0, Warning)
  }

  /** The records `testEdgeCases` adds (js/browser-test.js:277-307), in the order their timers
      fire: the resize check after 100 ms, the rapid-click check after the fifth click, 200 ms
      in. Without a button there is no rapid-click check. */
  function EdgeCaseRecords(buttonPresent: bool, panelPresent: bool, widthAfterResize: Option<int>): (r: seq<TestRecord>)
    ensures |r| == if buttonPresent then 2 else 1
    ensures r[0] == TestRecord("Orientation Change Resilience", ResizeVerdict(widthAfterResize),
                               "Menu button remains functional after resize")
    ensures buttonPresent ==>
      r[1] == TestRecord("Rapid Click Stability", RapidClickVerdict(panelPresent),
                         "Menu remains stable under rapid clicking")
  {
    var resilience := TestRecord("Orientation Change Resilience", ResizeVerdict(widthAfterResize),
                                 "Menu button remains functional after resize");
    if buttonPresent then
      [resilience, TestRecord("Rapid Click Stability", RapidClickVerdict(panelPresent),
                              "Menu remains stable under rapid clicking")]
    else [resilience]
  }

  // ---- Tally ----------------------------------------------------------------------------

  /** `tests.filter(t => t.result === v).length`. */
  function Count(tests: seq<TestRecord>, v: Verdict): (c: nat)
    ensures c <= |tests|
    ensures c == 0 <==> forall i :: 0 <= i < |tests| ==> tests[i].result != v
    ensures c == |tests| <==> forall i :: 0 <= i < |tests| ==> tests[i].result == v
  {
    if tests == [] then 0
    else Count(tests[..|tests| - 1], v) + (if tests[|tests| - 1].result == v then 1 else 0)
  }

  datatype Summary = Summary(passed: nat, failed: nat, warnings: nat)

  /** The three counts of `logResults` (js/browser-test.js:334-336). */
  function Tally(tests: seq<TestRecord>): (s: Summary)
    ensures s.passed + s.failed + s.warnings == |tests|
  {
    CountsPartition(tests);
    Summary(Count(tests, Pass), Count(tests, Fail), Count(tests, Warning))
  }

  /** Every record is a pass, a failure or a warning, so the three counts add up to the
      number of records. */
  lemma {:induction false} CountsPartition(tests: seq<TestRecord>)
    ensures Count(tests, Pass) + Count(tests, Fail) + Count(tests, Warning) == |tests|
  {
    if tests != [] {
      CountsPartition(tests[..|tests| - 1]);
    }
  }

  /** Appending one record raises exactly the count of its verdict by one. */
  lemma TallyAppend(tests: seq<TestRecord>, t: TestRecord)
    ensures var before, after := Tally(tests), Tally(tests + [t]);
      after.passed == before.passed + (if t.result == Pass then 1 else 0) &&
      after.failed == before.failed + (if t.result == Fail then 1 else 0) &&
      after.warnings == before.warnings + (if t.result == Warning then 1 else 0)
  {
    assert (tests + [t])[..|tests + [t]| - 1] == tests;
  }

  // ---- The probe ------------------------------------------------------------------------

  /** `BrowserCompatibilityTest` and its `results`: the device, browser and capability facts
      are fixed at construction; `tests` only grows. */
  class CompatibilityTest {
    const device: DeviceInfo
    const browser: BrowserInfo
    const capabilities: Capabilities
    var tests: seq<TestRecord>

    /** The constructor's fact gathering (js/browser-test.js:3-9), from the user agent, the
        screen size and the probes' answers. */
    constructor(userAgent: string, screenWidth: int, screenHeight: int, probes: Probes)
      ensures device == DetectDevice(userAgent, screenWidth, screenHeight)
      ensures browser == DetectBrowser(userAgent)
      ensures capabilities == DetectCapabilities(probes, userAgent)
      ensures tests == []
    {
      device := DetectDevice(userAgent, screenWidth, screenHeight);
      browser := DetectBrowser(userAgent);
      capabilities := DetectCapabilities(probes, userAgent);
      tests := [];
    }

    /** `addTest`: one record more, at the end. */
    method AddTest(name: string, result: Verdict, details: string)
      modifies this
      ensures tests == old(tests) + [TestRecord(name, result, details)]
    {
      tests := tests + [TestRecord(name, result, details)];
    }

    /** `testMenuButton`: `found` is whether the button exists. */
    method TestMenuButton(button: Option<ButtonProbe>) returns (found: bool)
      modifies this
      ensures found == button.Some?
      ensures tests == old(tests) + MenuButtonRecords(button)
    {
      if button.None? {
        AddTest("Menu Button Exists", Fail, "Menu button not found");
        return false;
      }
      var b := button.value;
      AddTest("Menu Button Exists", Pass, "Menu button found");
      var isVisible := !b.hasHiddenClass && b.offsetWidth > 0;
      AddTest("Menu Button Visibility", if isVisible then Pass else Fail, VisibilityDetails(isVisible, b.offsetWidth));
      var hasAriaExpanded, hasAriaControls, hasAriaLabel := b.hasAriaExpanded, b.hasAriaControls, b.hasAriaLabel;
      AddTest("Menu Button Accessibility", if hasAriaExpanded && hasAriaControls && hasAriaLabel then Pass else Fail,
              AriaDetails(hasAriaExpanded, hasAriaControls, hasAriaLabel));
      var isLargeEnough := b.rectWidth >= MinTouchSize && b.rectHeight >= MinTouchSize;
      AddTest("Touch Target Size", if isLargeEnough then Pass else Warning, SizeDetails(b.rectWidth, b.rectHeight));
      return true;
    }

    /** `testMenuPanel`: `found` is whether the panel exists. */
    method TestMenuPanel(panel: Option<PanelProbe>) returns (found: bool)
      modifies this
      ensures found == panel.Some?
      ensures tests == old(tests) + MenuPanelRecords(panel, capabilities.backdropFilter)
    {
      if panel.None? {
        AddTest("Menu Panel Exists", Fail, "Menu panel not found");
        return false;
      }
      var p := panel.value;
      AddTest("Menu Panel Exists", Pass, "Menu panel found");
      var isHidden := p.hidden;
      AddTest("Menu Panel Initial State", if isHidden then Pass else Fail, HiddenDetails(isHidden));
      var isPositioned := p.rectTop > 0 && p.rectLeft > 0;
      AddTest("Menu Panel Positioning", if isPositioned then Pass else Fail, PositionDetails(p.rectLeft, p.rectTop));
      var hasBackdropBlur := capabilities.backdropFilter;
      AddTest("Backdrop Blur Support", if hasBackdropBlur then Pass else Warning,
              "Backdrop blur may not be supported on this device");
      return true;
    }

    /** `testEdgeCases`. When the button exists it is clicked `MaxClicks` times; `menu` is the
        menu the navigation controller wired to it, absent when the page lacks the panel. The
        two records are added in the order their timers fire. */
    method TestEdgeCases(buttonPresent: bool, menu: NavMenu.Menu?, panelPresent: bool,
                         widthAfterResize: Option<int>)
      requires menu != null ==> buttonPresent && panelPresent
      modifies this, menu
      ensures menu != null ==> menu.State() == ClickedTimes(old(menu.State()), MaxClicks)
      ensures tests == old(tests) + EdgeCaseRecords(buttonPresent, panelPresent, widthAfterResize)
    {
      if buttonPresent {
        var clickCount := 0;
        while clickCount < MaxClicks
          invariant 0 <= clickCount <= MaxClicks
          invariant menu != null ==> menu.State() == ClickedTimes(old(menu.State()), clickCount)
          invariant tests == old(tests)
        {
          if menu != null {
            menu.Click(NavMenu.OnButton);
          }
          clickCount := clickCount + 1;
        }
      }
      AddTest("Orientation Change Resilience",
              if widthAfterResize.Some? && widthAfterResize.value > 0 then Pass else Warning,
              "Menu button remains functional after resize");
      if buttonPresent {
        var isStable := panelPresent;
        AddTest("Rapid Click Stability", if isStable then Pass else Fail,
                "Menu remains stable under rapid clicking");
      }
    }

    /** `logResults`'s counts. */
    function Totals(): (s: Summary)
      reads this
      ensures s.passed + s.failed + s.warnings == |tests|
    {
      Tally(tests)
    }
  }

  /** The menu after `n` clicks on its button with no timer firing in between: every click
      flips "expanded", so `n` clicks flip it exactly when `n` is odd, and every click that
      closes leaves one more hide pending. */
  function ClickedTimes(s: NavMenu.MenuState, n: nat): (r: NavMenu.MenuState)
    ensures NavMenu.IsExpanded(r) == (NavMenu.IsExpanded(s) != (n % 2 == 1))
    ensures r.pendingHides == s.pendingHides + (if NavMenu.IsExpanded(s) then (n + 1) / 2 else n / 2)
  {
    if n == 0 then s else NavMenu.Clicked(ClickedTimes(s, n - 1), NavMenu.OnButton)
  }

  /** The rapid-click check on a closed, settled menu: five clicks end with the menu expanded
      and two hides pending, so once they fire the expanded menu's panel is hidden, while the
      check's own record passes whenever the panel exists. */
  lemma RapidClicksHideExpandedMenu(s: NavMenu.MenuState)
    requires !NavMenu.IsExpanded(s) && s.pendingHides == 0
    ensures var r := ClickedTimes(s, MaxClicks);
      NavMenu.IsExpanded(r) && r.pendingHides == 2 &&
      NavMenu.IsExpanded(NavMenu.Settle(r)) && NavMenu.Settle(r).panelHidden
  {
  }
}
