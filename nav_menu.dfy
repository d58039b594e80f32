/** The mobile menu of the navigation controller (`initNav` in js/nav.js):
    a toggle button opens and closes a collapsible panel, and closing hides
    the panel only when a 180 ms timer fires, a timer nothing ever cancels.

    The pure functions below are the transition relation; class `Menu`
    holds the same state in fields and its methods, one per handler, are
    proved against those functions. */
module NavMenu {

  /** An HTML attribute: missing, or present with a text value. */
  datatype Attribute = Absent | Present(text: string)

  /** An icon inside the button (`[data-icon="open"]` or `[data-icon="close"]`), which the
      markup may leave out, and whether it carries the `hidden` class. */
  datatype Icon = NoIcon | IconEl(hidden: bool)

  /** Everything the menu code reads or writes, plus the number of hide timers
      scheduled by a close and not yet fired. */
  datatype MenuState = MenuState(
    ariaExpanded: Attribute,  // the button's `aria-expanded`
    panelHidden: bool,        // `panel.hidden`
    show: bool,               // the panel's `show` class
    iconOpen: Icon,
    iconClose: Icon,
    pendingHides: nat)

  /** The toggle handler's test: `aria-expanded` is exactly "true". */
  predicate IsExpanded(s: MenuState)
  {
    s.ariaExpanded == Present("true")
  }

  /** Adding (`h`) or removing the `hidden` class on an icon that may be missing (`icon?.classList`). */
  function WithHidden(icon: Icon, h: bool): Icon
  {
    match icon
    case NoIcon => NoIcon
    case IconEl(_) => IconEl(h)
  }

  /** The icons that exist show the given menu state: the open icon is hidden and the close
      icon visible exactly when `expanded`. */
  predicate IconsShow(s: MenuState, expanded: bool)
  {
    (s.iconOpen.IconEl? ==> s.iconOpen.hidden == expanded) &&
    (s.iconClose.IconEl? ==> s.iconClose.hidden == !expanded)
  }

  /** No icon appears or disappears between `s` and `r`. */
  predicate SameIcons(s: MenuState, r: MenuState)
  {
    r.iconOpen.IconEl? == s.iconOpen.IconEl? && r.iconClose.IconEl? == s.iconClose.IconEl?
  }

  /** The button side of the menu is coherent: `aria-expanded` is "true" or "false", the
      `show` class and the icons all say the same thing. The panel's `hidden` is not part of it. */
  predicate ControlsAgree(s: MenuState)
  {
    (s.ariaExpanded == Present("true") || s.ariaExpanded == Present("false")) &&
    s.show == IsExpanded(s) && IconsShow(s, IsExpanded(s))
  }

  /** The relation the markup intends: the menu is expanded exactly when the panel is visible. */
  predicate ExpandedIffVisible(s: MenuState)
  {
    IsExpanded(s) == !s.panelHidden
  }

  /** `openMenu` (js/nav.js:20-26). */
  function Opened(s: MenuState): (r: MenuState)
    ensures r.ariaExpanded == Present("true") && !r.panelHidden && r.show
    ensures IconsShow(r, true) && SameIcons(s, r)
    ensures r.pendingHides == s.pendingHides
    ensures ControlsAgree(r) && ExpandedIffVisible(r)
  {
    s.(ariaExpanded := Present("true"), panelHidden := false, show := true,
       iconOpen := WithHidden(s.iconOpen, true), iconClose := WithHidden(s.iconClose, false))
  }

  /** `closeMenu` (js/nav.js:27-34): everything but the panel changes at once; the panel's
      hiding is one more pending timer. */
  function Closed(s: MenuState): (r: MenuState)
    ensures r.ariaExpanded == Present("false") && !r.show
    ensures IconsShow(r, false) && SameIcons(s, r)
    ensures r.panelHidden == s.panelHidden
    ensures r.pendingHides == s.pendingHides + 1
    ensures ControlsAgree(r) && !IsExpanded(r)
  {
    s.(ariaExpanded := Present("false"), show := false,
       iconClose := WithHidden(s.iconClose, true), iconOpen := WithHidden(s.iconOpen, false),
       pendingHides := s.pendingHides + 1)
  }

  /** One pending hide timer fires (js/nav.js:33): it hides the panel and nothing else. */
  function HideFired(s: MenuState): (r: MenuState)
    requires s.pendingHides > 0
    ensures r.panelHidden && r.pendingHides == s.pendingHides - 1
    ensures r.(panelHidden := s.panelHidden, pendingHides := s.pendingHides) == s
  {
    s.(panelHidden := true, pendingHides := s.pendingHides - 1)
  }

  /** The button's click handler (js/nav.js:36-39): it closes only when `aria-expanded` is
      exactly "true"; any other value, and a missing attribute, opens. */
  function Toggled(s: MenuState): (r: MenuState)
    ensures IsExpanded(r) == !IsExpanded(s)
    ensures ControlsAgree(r) && SameIcons(s, r)
    ensures r.pendingHides == if IsExpanded(s) then s.pendingHides + 1 else s.pendingHides
    ensures !IsExpanded(s) ==> !r.panelHidden
    ensures IsExpanded(s) ==> r.panelHidden == s.panelHidden
  {
    if IsExpanded(s) then Closed(s) else Opened(s)
  }

  /** The panel's click handler (js/nav.js:42-45): only a target that is itself an `A`
      element closes the menu. */
  function PanelClicked(s: MenuState, targetIsElement: bool, tagName: string): (r: MenuState)
    ensures targetIsElement && tagName == "A" ==> r == Closed(s)
    ensures !(targetIsElement && tagName == "A") ==> r == s
  {
    if targetIsElement && tagName == "A" then Closed(s) else s
  }

  /** The document's keydown handler (js/nav.js:48-50): Escape closes, whatever the state. */
  function KeyPressed(s: MenuState, key: string): (r: MenuState)
    ensures key == "Escape" ==> r == Closed(s)
    ensures key != "Escape" ==> r == s
  {
    if key == "Escape" then Closed(s) else s
  }

  /** The document's capture-phase click handler (js/nav.js:53-55). It excludes the button
      itself but not the elements inside it. */
  function OutsideClickCaptured(s: MenuState, targetInPanel: bool, targetIsButton: bool): (r: MenuState)
    ensures !s.panelHidden && !targetInPanel && !targetIsButton ==> r == Closed(s)
    ensures s.panelHidden || targetInPanel || targetIsButton ==> r == s
  {
    if !s.panelHidden && !targetInPanel && !targetIsButton then Closed(s) else s
  }

  /** Where a click lands, as far as the three click handlers can tell. The button and the
      panel are disjoint. */
  datatype ClickTarget =
    | OnButton                                       // the button element itself
    | InsideButton                                   // an icon or other descendant of the button
    | InPanel(targetIsElement: bool, tagName: string) // the panel or anything inside it
    | Elsewhere

  /** One click as the browser dispatches it: the document's capture listener first, then
      the listener of the button or of the panel when the target lies inside it. */
  function Clicked(s: MenuState, t: ClickTarget): (r: MenuState)
    ensures t == OnButton ==> r == Toggled(s)
    ensures t.InPanel? ==> r == PanelClicked(s, t.targetIsElement, t.tagName)
    ensures t == Elsewhere ==> r == OutsideClickCaptured(s, false, false)
    ensures t == InsideButton ==> r == Toggled(OutsideClickCaptured(s, false, false))
  {
    var captured := OutsideClickCaptured(s, t.InPanel?, t == OnButton);
    match t
    case OnButton => Toggled(captured)
    case InsideButton => Toggled(captured)
    case InPanel(isElement, tag) => PanelClicked(captured, isElement, tag)
    case Elsewhere => captured
  }

  /** What can happen to the menu: a click, a key press, or a pending hide timer firing. */
  datatype Event = Click(target: ClickTarget) | KeyDown(key: string) | HideTimer

  /** One event. A timer can only fire when one is pending; otherwise nothing happens. An
      event schedules at most one hide, and only a firing timer takes one away. */
  function Step(s: MenuState, e: Event): (r: MenuState)
    ensures r.pendingHides <= s.pendingHides + 1
    ensures !e.HideTimer? ==> r.pendingHides >= s.pendingHides
  {
    match e
    case Click(t) => Clicked(s, t)
    case KeyDown(k) => KeyPressed(s, k)
    case HideTimer => if s.pendingHides > 0 then HideFired(s) else s
  }

  /** A sequence of events, in order. However fast the events come, they leave at most one
      pending hide each. */
  function Run(s: MenuState, events: seq<Event>): (r: MenuState)
    ensures r.pendingHides <= s.pendingHides + |events|
    decreases |events|
  {
    if events == [] then s else Run(Step(s, events[0]), events[1..])
  }

  /** Let every pending hide timer fire: the state once 180 ms have passed with no event. */
  function Settle(s: MenuState): (r: MenuState)
    decreases s.pendingHides
    ensures r.pendingHides == 0
    ensures r.panelHidden == (s.panelHidden || s.pendingHides > 0)
    ensures r.(panelHidden := s.panelHidden, pendingHides := s.pendingHides) == s
  {
    if s.pendingHides == 0 then s else Settle(HideFired(s))
  }

  /** Once the button side is coherent, every event sequence keeps it coherent. */
  lemma {:induction false} RunKeepsControls(s: MenuState, events: seq<Event>)
    requires ControlsAgree(s)
    ensures ControlsAgree(Run(s, events))
    decreases |events|
  {
    if events != [] {
      RunKeepsControls(Step(s, events[0]), events[1..]);
    }
  }

  /** The half of "expanded iff visible" that does survive: once no hide is pending, a
      menu that is not expanded is hidden. */
  predicate ClosedSettledIsHidden(s: MenuState)
  {
    s.pendingHides == 0 && !IsExpanded(s) ==> s.panelHidden
  }

  lemma {:induction false} RunKeepsClosedSettledHidden(s: MenuState, events: seq<Event>)
    requires ClosedSettledIsHidden(s)
    ensures ClosedSettledIsHidden(Run(s, events))
    decreases |events|
  {
    if events != [] {
      RunKeepsClosedSettledHidden(Step(s, events[0]), events[1..]);
    }
  }

  /** The other half holds only while no hide is pending at an open: close then open before
      the timer fires, and once it fires the menu is expanded with its panel hidden. */
  lemma CloseThenOpenHidesExpandedMenu(s: MenuState)
    requires IsExpanded(s)
    ensures var r := Settle(Toggled(Toggled(s)));
      IsExpanded(r) && r.panelHidden && r.show && !ExpandedIffVisible(r)
  {
  }

  /** Events that come more than 180 ms apart: each one is followed by every pending hide. */
  function RunSpaced(s: MenuState, events: seq<Event>): MenuState
    decreases |events|
  {
    if events == [] then s else RunSpaced(Settle(Step(s, events[0])), events[1..])
  }

  /** No event of the sequence is a click on an element inside the button. */
  predicate NoClickInsideButton(events: seq<Event>)
  {
    forall i :: 0 <= i < |events| ==> events[i] != Click(InsideButton)
  }

  /** With events spaced further apart than the hide delay and no click on an element inside
      the button, a settled menu whose panel agrees with its button keeps agreeing. */
  lemma {:induction false} SpacedEventsKeepAgreement(s: MenuState, events: seq<Event>)
    requires ControlsAgree(s) && ExpandedIffVisible(s) && s.pendingHides == 0
    requires NoClickInsideButton(events)
    ensures var r := RunSpaced(s, events);
      ControlsAgree(r) && ExpandedIffVisible(r) && r.pendingHides == 0
    decreases |events|
  {
    if events != [] {
      var next := Settle(Step(s, events[0]));
      assert events[0] != Click(InsideButton);
      assert NoClickInsideButton(events[1..]) by {
        forall i | 0 <= i < |events| - 1 ensures events[1..][i] != Click(InsideButton) {
          assert events[1..][i] == events[i + 1];
        }
      }
      SpacedEventsKeepAgreement(next, events[1..]);
    }
  }

  /** A click on the button itself of an open menu closes it: the capture-phase handler
      excludes the button, so the click is not also taken as an outside click. */
  lemma ButtonClickClosesOpenMenu(s: MenuState)
    requires IsExpanded(s) && !s.panelHidden
    ensures Clicked(s, OnButton) == Closed(s)
  {
  }

  /** A click on an icon inside the button of an open, visible menu: the capture handler
      closes, the button handler then finds "false" and reopens, and the hide scheduled by
      the close fires afterwards. The menu ends expanded with its panel hidden. */
  lemma IconClickLeavesExpandedHiddenMenu(s: MenuState)
    requires IsExpanded(s) && !s.panelHidden
    ensures IsExpanded(Clicked(s, InsideButton))
    ensures var r := Settle(Clicked(s, InsideButton));
      IsExpanded(r) && r.panelHidden
  {
  }

  // ---- Corrected behaviour ------------------------------------------------------------

  /** `openMenu` that also cancels every pending hide (`clearTimeout`). */
  function OpenedCancelling(s: MenuState): (r: MenuState)
    ensures IsExpanded(r) && !r.panelHidden && r.show && IconsShow(r, true) && SameIcons(s, r)
    ensures r.pendingHides == 0 && ExpandedIffVisible(r) && ControlsAgree(r)
    ensures r.(pendingHides := s.pendingHides) == Opened(s)
  {
    Opened(s).(pendingHides := 0)
  }

  function ToggledCancelling(s: MenuState): (r: MenuState)
    ensures IsExpanded(r) == !IsExpanded(s)
    ensures IsExpanded(s) ==> r == Closed(s)
    ensures !IsExpanded(s) ==> r.pendingHides == 0 && !r.panelHidden && ControlsAgree(r)
  {
    if IsExpanded(s) then Closed(s) else OpenedCancelling(s)
  }

  /** The dispatch with both corrections: the outside-click check excludes every target inside
      the button, and opening cancels pending hides. */
  function ClickedIntended(s: MenuState, t: ClickTarget): (r: MenuState)
    ensures t == OnButton || t == InsideButton ==> r == ToggledCancelling(s)
  {
    var inButton := t == OnButton || t == InsideButton;
    var captured := OutsideClickCaptured(s, t.InPanel?, inButton);
    match t
    case OnButton => ToggledCancelling(captured)
    case InsideButton => ToggledCancelling(captured)
    case InPanel(isElement, tag) => PanelClicked(captured, isElement, tag)
    case Elsewhere => captured
  }

  function StepIntended(s: MenuState, e: Event): MenuState
  {
    match e
    case Click(t) => ClickedIntended(s, t)
    case KeyDown(k) => KeyPressed(s, k)
    case HideTimer => if s.pendingHides > 0 then HideFired(s) else s
  }

  function RunIntended(s: MenuState, events: seq<Event>): MenuState
    decreases |events|
  {
    if events == [] then s else RunIntended(StepIntended(s, events[0]), events[1..])
  }

  /** The corrected menu's invariant: the button side is coherent, a pending hide only
      exists while the menu is closed, and with none pending the panel agrees. */
  predicate IntendedInvariant(s: MenuState)
  {
    ControlsAgree(s) &&
    (s.pendingHides > 0 ==> !IsExpanded(s)) &&
    (s.pendingHides == 0 ==> ExpandedIffVisible(s))
  }

  /** With the corrections, every event sequence, however fast, keeps the invariant; so
      whenever no hide is pending the menu is expanded exactly when its panel is visible. */
  lemma {:induction false} IntendedRunKeepsAgreement(s: MenuState, events: seq<Event>)
    requires IntendedInvariant(s)
    ensures IntendedInvariant(RunIntended(s, events))
    decreases |events|
  {
    if events != [] {
      IntendedRunKeepsAgreement(StepIntended(s, events[0]), events[1..]);
    }
  }

  /** With the corrections, close then open never hides the expanded menu, and a click on an
      icon of an open menu closes it as a click on the button does. */
  lemma IntendedCloseOpenAndIconClick(s: MenuState)
    requires IntendedInvariant(s) && IsExpanded(s)
    ensures var r := Settle(ToggledCancelling(ToggledCancelling(s)));
      IsExpanded(r) && !r.panelHidden
    ensures !IsExpanded(ClickedIntended(s, InsideButton))
    ensures ClickedIntended(s, InsideButton) == ClickedIntended(s, OnButton)
  {
  }

  // ---- The handlers on the live elements ----------------------------------------------

  /** The button, panel and icons of one page, with the hide timers scheduled on them. It
      exists only when the page has both the button and the panel (js/nav.js:16). */
  class Menu {
    var ariaExpanded: Attribute
    var panelHidden: bool
    var show: bool
    var iconOpen: Icon
    var iconClose: Icon
    var pendingHides: nat

    function State(): MenuState
      reads this
    {
      MenuState(ariaExpanded, panelHidden, show, iconOpen, iconClose, pendingHides)
    }

    /** The elements as the markup renders them. */
    constructor(initial: MenuState)
      ensures State() == initial
    {
      ariaExpanded := initial.ariaExpanded;
      panelHidden := initial.panelHidden;
      show := initial.show;
      iconOpen := initial.iconOpen;
      iconClose := initial.iconClose;
      pendingHides := initial.pendingHides;
    }

    method OpenMenu()
      modifies this
      ensures State() == Opened(old(State()))
    {
      ariaExpanded := Present("true");
      panelHidden := false;
      show := true;
      iconOpen := WithHidden(iconOpen, true);
      iconClose := WithHidden(iconClose, false);
    }

    method CloseMenu()
      modifies this
      ensures State() == Closed(old(State()))
    {
      ariaExpanded := Present("false");
      show := false;
      iconClose := WithHidden(iconClose, true);
      iconOpen := WithHidden(iconOpen, false);
      pendingHides := pendingHides + 1;
    }

    /** The oldest pending `panel.hidden = true` timer runs. */
    method FireHide()
      requires pendingHides > 0
      modifies this
      ensures State() == HideFired(old(State()))
    {
      panelHidden := true;
      pendingHides := pendingHides - 1;
    }

    method OnButtonClick()
      modifies this
      ensures State() == Toggled(old(State()))
    {
      var expanded := ariaExpanded == Present("true");
      if expanded {
        CloseMenu();
      } else {
        OpenMenu();
      }
    }

    method OnPanelClick(targetIsElement: bool, tagName: string)
      modifies this
      ensures State() == PanelClicked(old(State()), targetIsElement, tagName)
    {
      if targetIsElement && tagName == "A" {
        CloseMenu();
      }
    }

    method OnKeyDown(key: string)
      modifies this
      ensures State() == KeyPressed(old(State()), key)
    {
      if key == "Escape" {
        CloseMenu();
      }
    }

    method OnDocumentClickCapture(targetInPanel: bool, targetIsButton: bool)
      modifies this
      ensures State() == OutsideClickCaptured(old(State()), targetInPanel, targetIsButton)
    {
      if !panelHidden && !targetInPanel && !targetIsButton {
        CloseMenu();
      }
    }

    /** A click, through every listener it reaches, in dispatch order. */
    method Click(target: ClickTarget)
      modifies this
      ensures State() == Clicked(old(State()), target)
    {
      OnDocumentClickCapture(target.InPanel?, target == OnButton);
      match target
      case OnButton => OnButtonClick();
      case InsideButton => OnButtonClick();
      case InPanel(isElement, tag) => OnPanelClick(isElement, tag);
      case Elsewhere =>
    }
  }
}
