/** The environment facts the compatibility probe gathers on construction
    (js/browser-test.js): the device and browser, classified from the user-agent
    string and the screen size, and the capability flags. */
module BrowserDetect {
  import opened Options
  import opened Text

  // ---- Device ---------------------------------------------------------------------------

  /** `results.device`; `type` is spelled `deviceType` here. */
  datatype DeviceInfo = DeviceInfo(name: string, deviceType: string, width: int, height: int, orientation: string)

  /** The if-chain of `detectDevice` (js/browser-test.js:13-52). */
  function DetectDeviceChain(userAgent: string, screenWidth: int, screenHeight: int): DeviceInfo
  {
    var (name, deviceType) :=
      if Contains(userAgent, "iPhone") then ("iPhone", "mobile")
      else if Contains(userAgent, "iPad") then ("iPad", "tablet")
      else if Contains(userAgent, "Android") then
        (if screenWidth >= 768 then ("Android Tablet", "tablet") else ("Android Phone", "mobile"))
      else if Contains(userAgent, "Windows") then ("Windows", "desktop")
      else if Contains(userAgent, "Mac") then ("Mac", "desktop")
      else ("unknown", "unknown");
    DeviceInfo(name, deviceType, screenWidth, screenHeight,
               if screenWidth > screenHeight then "landscape" else "portrait")
  }

  /** `detectDevice`: the first token of `iPhone`, `iPad`, `Android`, `Windows`, `Mac` found
      in the user agent decides, as the priority table `DeviceRules` states; an Android device
      is a tablet from a screen width of 768 on. */
  function DetectDevice(userAgent: string, screenWidth: int, screenHeight: int): (r: DeviceInfo)
    ensures r == Classified(DeviceRules, 0, userAgent, screenWidth, screenHeight)
    ensures r.width == screenWidth && r.height == screenHeight
    ensures r.orientation == (if screenWidth > screenHeight then "landscape" else "portrait")
    ensures r.deviceType in {"mobile", "tablet", "desktop", "unknown"}
    ensures (r.name == "unknown") == (r.deviceType == "unknown")
    ensures r.name == "unknown" <==> forall k :: 0 <= k < |DeviceRules| ==> !Contains(userAgent, DeviceRules[k].token)
  {
    ClassifiedRulesAgree(userAgent, screenWidth, screenHeight);
    DetectDeviceChain(userAgent, screenWidth, screenHeight)
  }

  /** An independent statement of the classification as a priority table: a rule names a
      token and the (name, type) it yields, with a different pair below a minimum width. */
  datatype DeviceRule = DeviceRule(token: string, minWidth: int, name: string, deviceType: string,
                                   narrowName: string, narrowType: string)

  function Fixed(token: string, name: string, deviceType: string): DeviceRule
  {
    DeviceRule(token, 0, name, deviceType, name, deviceType)
  }

  const DeviceRules: seq<DeviceRule> := [
    Fixed("iPhone", "iPhone", "mobile"),
    Fixed("iPad", "iPad", "tablet"),
    DeviceRule("Android", 768, "Android Tablet", "tablet", "Android Phone", "mobile"),
    Fixed("Windows", "Windows", "desktop"),
    Fixed("Mac", "Mac", "desktop")
  ]

  /** The first rule, from index `k` on, whose token occurs in the user agent decides; with
      none, `unknown`. */
  function Classified(rules: seq<DeviceRule>, k: nat, userAgent: string, w: int, h: int): DeviceInfo
    decreases |rules| - k
  {
    var orientation := if w > h then "landscape" else "portrait";
    if k >= |rules| then DeviceInfo("unknown", "unknown", w, h, orientation)
    else if Contains(userAgent, rules[k].token) then
      if w >= rules[k].minWidth then DeviceInfo(rules[k].name, rules[k].deviceType, w, h, orientation)
      else DeviceInfo(rules[k].narrowName, rules[k].narrowType, w, h, orientation)
    else Classified(rules, k + 1, userAgent, w, h)
  }

  /** The if-chain of `detectDevice` and the priority table classify alike. */
  lemma ClassifiedRulesAgree(userAgent: string, w: int, h: int)
    ensures DetectDeviceChain(userAgent, w, h) == Classified(DeviceRules, 0, userAgent, w, h)
  {
    var rs := DeviceRules;
    var o := if w > h then "landscape" else "portrait";
    assert Classified(rs, 5, userAgent, w, h) == DeviceInfo("unknown", "unknown", w, h, o);
    assert rs[4].token == "Mac" && rs[3].token == "Windows" && rs[2].token == "Android";
    assert rs[1].token == "iPad" && rs[0].token == "iPhone";
  }

  /** Android devices split at a screen width of 768: 768 is a tablet, 767 a phone. */
  lemma AndroidTabletThreshold(userAgent: string, h: int)
    requires Contains(userAgent, "Android")
    requires !Contains(userAgent, "iPhone") && !Contains(userAgent, "iPad")
    ensures DetectDevice(userAgent, 768, h).name == "Android Tablet"
    ensures DetectDevice(userAgent, 768, h).deviceType == "tablet"
    ensures DetectDevice(userAgent, 767, h).name == "Android Phone"
    ensures DetectDevice(userAgent, 767, h).deviceType == "mobile"
  {
  }

  /** A square screen is portrait. */
  lemma SquareIsPortrait(userAgent: string, side: int)
    ensures DetectDevice(userAgent, side, side).orientation == "portrait"
  {
  }

  // ---- Browser --------------------------------------------------------------------------

  /** `results.browser`. */
  datatype BrowserInfo = BrowserInfo(name: string, version: string, userAgent: string)

  /** `userAgent.match(/token(\d+)/)?.[1] || 'unknown'`. */
  function VersionAfter(userAgent: string, token: string): (v: string)
    ensures v != ""
    ensures v == "unknown" <==> !exists i :: NumberAfterAt(userAgent, token, i)
    ensures v != "unknown" ==> AllDigits(v)
  {
    match CaptureNumber(userAgent, token)
    case None => "unknown"
    case Some(digits) => digits
  }

  /** `detectBrowser` (js/browser-test.js:54-78): the branches are tried in the order Safari
      (without Chrome), Chrome, Firefox, Edge, each reading its own version token. */
  function DetectBrowser(userAgent: string): (r: BrowserInfo)
    ensures r.userAgent == userAgent
    ensures r.name == "Safari" <==> Contains(userAgent, "Safari") && !Contains(userAgent, "Chrome")
    ensures r.name == "Chrome" <==> Contains(userAgent, "Chrome")
    ensures r.name == "Firefox" <==>
      Contains(userAgent, "Firefox") && !Contains(userAgent, "Safari") && !Contains(userAgent, "Chrome")
    ensures r.name == "Edge" <==>
      Contains(userAgent, "Edge") && !Contains(userAgent, "Firefox") &&
      !Contains(userAgent, "Safari") && !Contains(userAgent, "Chrome")
    ensures r.name in {"Safari", "Chrome", "Firefox", "Edge", "unknown"}
    ensures r.version != "" && (r.version == "unknown" || AllDigits(r.version))
    ensures r.name == "unknown" ==> r.version == "unknown"
    ensures r.name == "Safari" ==> r.version == VersionAfter(userAgent, "Version/")
    ensures r.name == "Chrome" ==> r.version == VersionAfter(userAgent, "Chrome/")
    ensures r.name == "Firefox" ==> r.version == VersionAfter(userAgent, "Firefox/")
    ensures r.name == "Edge" ==> r.version == VersionAfter(userAgent, "Edge/")
  {
    if Contains(userAgent, "Safari") && !Contains(userAgent, "Chrome") then
      BrowserInfo("Safari", VersionAfter(userAgent, "Version/"), userAgent)
    else if Contains(userAgent, "Chrome") then
      BrowserInfo("Chrome", VersionAfter(userAgent, "Chrome/"), userAgent)
    else if Contains(userAgent, "Firefox") then
      BrowserInfo("Firefox", VersionAfter(userAgent, "Firefox/"), userAgent)
    else if Contains(userAgent, "Edge") then
      BrowserInfo("Edge", VersionAfter(userAgent, "Edge/"), userAgent)
    else
      BrowserInfo("unknown", "unknown", userAgent)
  }

  /** The version is the whole digit run after the leftmost `token` that a digit follows. */
  lemma VersionIsLeftmostDigitRun(userAgent: string, token: string, i: nat)
    requires NumberAfterAt(userAgent, token, i)
    requires forall j :: 0 <= j < i ==> !NumberAfterAt(userAgent, token, j)
    ensures VersionAfter(userAgent, token) == DigitRun(userAgent[i + |token|..])
    ensures i + |token| + |VersionAfter(userAgent, token)| < |userAgent| ==>
      !IsDigit(userAgent[i + |token| + |VersionAfter(userAgent, token)|])
  {
    var k := NumberAfterFrom(userAgent, token, 0);
    assert k == Some(i);
  }

  // ---- Capabilities ---------------------------------------------------------------------

  /** The feature probes of `detectCapabilities` that ask the browser itself (`'x' in
      window`, `CSS.supports`, the passive-listener getter). They are inputs. */
  datatype Probes = Probes(touch: bool, pointer: bool, passive: bool, intersectionObserver: bool,
                           backdropFilter: bool, cssGrid: bool, flexbox: bool)

  /** `results.capabilities`. */
  datatype Capabilities = Capabilities(touch: bool, pointer: bool, passive: bool,
                                       intersectionObserver: bool, backdropFilter: bool,
                                       cssGrid: bool, flexbox: bool,
                                       webkit: bool, gecko: bool, blink: bool)

  /** `detectCapabilities` (js/browser-test.js:80-101): the probes as given, and the three
      engine flags read from the user agent. */
  function DetectCapabilities(p: Probes, userAgent: string): (c: Capabilities)
    ensures c.webkit <==> exists i :: OccursAt(userAgent, "WebKit", i)
    ensures c.gecko <==> exists i :: OccursAt(userAgent, "Gecko", i)
    ensures c.blink <==> exists i :: OccursAt(userAgent, "Blink", i)
    ensures c.touch == p.touch && c.pointer == p.pointer && c.passive == p.passive
    ensures c.intersectionObserver == p.intersectionObserver && c.backdropFilter == p.backdropFilter
    ensures c.cssGrid == p.cssGrid && c.flexbox == p.flexbox
  {
    Capabilities(p.touch, p.pointer, p.passive, p.intersectionObserver, p.backdropFilter,
                 p.cssGrid, p.flexbox,
                 Contains(userAgent, "WebKit"), Contains(userAgent, "Gecko"), Contains(userAgent, "Blink"))
  }
}
