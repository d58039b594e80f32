/** The scroll side of the navigation controller (`initNav` in js/nav.js): the
    shadow class on the nav bar, the sections the scroll-spy observes, and the
    scroll-spy callback that moves the `aria-current` marker across the links. */
module NavScroll {
  import opened Options

  // ---- Scroll shadow --------------------------------------------------------------------

  /** The nav bar carries `is-scrolled` exactly when the page is scrolled past 8 pixels. */
  predicate ShadowShown(scrollY: real)
  {
    scrollY > 8.0
  }

  lemma ShadowThreshold()
    ensures !ShadowShown(0.0) && !ShadowShown(8.0)
    ensures ShadowShown(8.5) && ShadowShown(9.0) && ShadowShown(1000.0)
  {
  }

  /** The `nav` element; the controller touches it only when the page has one (`nav?.`). */
  class NavBar {
    var isScrolled: bool

    /** `onScroll()` runs once at start-up, before any scroll event. */
    constructor(scrollY: real)
      ensures isScrolled == ShadowShown(scrollY)
    {
      isScrolled := scrollY > 8.0;
    }

    /** The passive scroll listener. Its result depends on the offset alone, so a second call
        at the same offset changes nothing. */
    method OnScroll(scrollY: real)
      modifies this
      ensures isScrolled == ShadowShown(scrollY)
    {
      if scrollY > 8.0 {
        isScrolled := true;
      } else {
        isScrolled := false;
      }
    }
  }

  // ---- Links and sections ---------------------------------------------------------------

  /** `links.find(a => a.getAttribute('href') === href)`: the first link with that href. */
  function FindLink(hrefs: seq<string>, href: string): (r: Option<nat>)
    ensures r.Some? ==> r.value < |hrefs| && hrefs[r.value] == href
    ensures r.Some? ==> forall j :: 0 <= j < r.value ==> hrefs[j] != href
    ensures r.None? <==> href !in hrefs
  {
    if hrefs == [] then None
    else if hrefs[0] == href then Some(0)
    else match FindLink(hrefs[1..], href)
      case None => None
      case Some(k) => Some(k + 1)
  }

  /** `document.querySelector(href)` finds an element: the href is `#` followed by the id of
      an element of the page. */
  predicate Resolves(href: string, ids: set<string>)
  {
    |href| > 1 && href[0] == '#' && href[1..] in ids
  }

  /** `links.map(a => document.querySelector(a.getAttribute('href'))).filter(Boolean)`: the
      ids of the sections the scroll-spy observes, one per link whose href resolves. */
  function Sections(hrefs: seq<string>, ids: set<string>): (r: seq<string>)
    ensures |r| <= |hrefs|
    ensures forall id :: id in r <==> exists i :: 0 <= i < |hrefs| && Resolves(hrefs[i], ids) && hrefs[i] == "#" + id
  {
    if hrefs == [] then []
    else
      var rest := Sections(hrefs[1..], ids);
      assert forall i :: 0 <= i < |hrefs| - 1 ==> hrefs[1..][i] == hrefs[i + 1];
      if Resolves(hrefs[0], ids) then
        assert hrefs[0] == "#" + hrefs[0][1..];
        [hrefs[0][1..]] + rest
      else rest
  }

  /** The sections keep the order of the links: the sections of two runs of links are the
      sections of the first run followed by those of the second. */
  lemma {:induction false} SectionsKeepLinkOrder(a: seq<string>, b: seq<string>, ids: set<string>)
    ensures Sections(a + b, ids) == Sections(a, ids) + Sections(b, ids)
  {
    if a == [] {
      assert a + b == b;
    } else {
      assert (a + b)[0] == a[0];
      assert (a + b)[1..] == a[1..] + b;
      SectionsKeepLinkOrder(a[1..], b, ids);
    }
  }

  // ---- Scroll-spy -----------------------------------------------------------------------

  /** One `IntersectionObserverEntry`: the id of the observed section and whether it lies
      in the observed band. */
  datatype Entry = Entry(targetId: string, isIntersecting: bool)

  /** The link an entry is about, if any: `'#' + entry.target.id` looked up among the hrefs. */
  function EntryLink(hrefs: seq<string>, e: Entry): Option<nat>
  {
    FindLink(hrefs, "#" + e.targetId)
  }

  /** An entry that moves the marker: it intersects and some link points to its section. */
  predicate Qualifies(hrefs: seq<string>, e: Entry)
  {
    e.isIntersecting && EntryLink(hrefs, e).Some?
  }

  /** `n` links of which only the `k`-th carries `aria-current`. */
  function OnlyMarked(n: nat, k: nat): (r: seq<bool>)
    requires k < n
    ensures |r| == n
    ensures forall i :: 0 <= i < n ==> (r[i] <==> i == k)
  {
    seq(n, i => i == k)
  }

  /** The callback's effect of one entry on the links' `aria-current` flags. */
  function SpyEntry(current: seq<bool>, hrefs: seq<string>, e: Entry): (r: seq<bool>)
    requires |current| == |hrefs|
    ensures |r| == |current|
    ensures !Qualifies(hrefs, e) ==> r == current
    ensures Qualifies(hrefs, e) ==> r == OnlyMarked(|current|, EntryLink(hrefs, e).value)
  {
    match EntryLink(hrefs, e)
    case None => current
    case Some(k) => if e.isIntersecting then OnlyMarked(|current|, k) else current
  }

  /** The callback's effect of a batch of entries, processed in order: the flags are either
      left as they were or exactly one link is marked. */
  function SpyBatch(current: seq<bool>, hrefs: seq<string>, entries: seq<Entry>): (r: seq<bool>)
    requires |current| == |hrefs|
    ensures |r| == |current|
    ensures r == current || exists k: nat :: k < |current| && r == OnlyMarked(|current|, k)
    decreases |entries|
  {
    if entries == [] then current
    else SpyEntry(SpyBatch(current, hrefs, entries[..|entries| - 1]), hrefs, entries[|entries| - 1])
  }

  /** After a batch, the last qualifying entry decides: its link is the only one marked.
      When no entry qualifies, nothing changed. */
  lemma {:induction false} SpyBatchLastQualifyingWins(current: seq<bool>, hrefs: seq<string>, entries: seq<Entry>)
    requires |current| == |hrefs|
    ensures (forall i :: 0 <= i < |entries| ==> !Qualifies(hrefs, entries[i])) ==>
      SpyBatch(current, hrefs, entries) == current
    ensures forall i :: (0 <= i < |entries| && Qualifies(hrefs, entries[i]) &&
                         (forall j :: i < j < |entries| ==> !Qualifies(hrefs, entries[j]))) ==>
      SpyBatch(current, hrefs, entries) == OnlyMarked(|current|, EntryLink(hrefs, entries[i]).value)
    decreases |entries|
  {
    if entries != [] {
      var init := entries[..|entries| - 1];
      var last := entries[|entries| - 1];
      assert forall i :: 0 <= i < |init| ==> init[i] == entries[i];
      SpyBatchLastQualifyingWins(current, hrefs, init);
    }
  }

  /** Once any entry of a batch qualified, exactly one link carries the marker. */
  lemma SpyBatchMarksOneLink(current: seq<bool>, hrefs: seq<string>, entries: seq<Entry>, i: nat)
    requires |current| == |hrefs|
    requires i < |entries| && Qualifies(hrefs, entries[i])
    ensures exists k :: 0 <= k < |hrefs| && SpyBatch(current, hrefs, entries) == OnlyMarked(|hrefs|, k)
  {
    var last := i;
    while last + 1 < |entries| && exists j :: last < j < |entries| && Qualifies(hrefs, entries[j])
      invariant i <= last < |entries| && Qualifies(hrefs, entries[last])
      decreases |entries| - last
    {
      var j :| last < j < |entries| && Qualifies(hrefs, entries[j]);
      last := j;
    }
    SpyBatchLastQualifyingWins(current, hrefs, entries);
  }

  /** An entry for a section the spy observes always finds its link. */
  lemma ObservedSectionHasLink(hrefs: seq<string>, ids: set<string>, e: Entry)
    requires e.targetId in Sections(hrefs, ids)
    ensures EntryLink(hrefs, e).Some?
  {
    var i :| 0 <= i < |hrefs| && Resolves(hrefs[i], ids) && hrefs[i] == "#" + e.targetId;
  }

  /** The desktop nav links, in document order, with their `aria-current` flags. */
  class ScrollSpy {
    const hrefs: seq<string>
    const current: array<bool>

    ghost predicate Valid()
      reads this
    {
      current.Length == |hrefs|
    }

    constructor(hrefs: seq<string>, marked: seq<bool>)
      requires |marked| == |hrefs|
      ensures Valid() && this.hrefs == hrefs && current[..] == marked && fresh(current)
    {
      this.hrefs := hrefs;
      current := new bool[|hrefs|](i requires 0 <= i < |marked| => marked[i]);
    }

    /** The observer callback: for each entry in turn, when it intersects and a link points
        to its section, remove `aria-current` from every link, then set it on that link. */
    method OnIntersections(entries: seq<Entry>)
      requires Valid()
      modifies current
      ensures current[..] == SpyBatch(old(current[..]), hrefs, entries)
    {
      var n := 0;
      while n < |entries|
        invariant 0 <= n <= |entries|
        invariant current[..] == SpyBatch(old(current[..]), hrefs, entries[..n])
      {
        var entry := entries[n];
        var link := EntryLink(hrefs, entry);
        if link.Some? && entry.isIntersecting {
          var j := 0;
          while j < current.Length
            invariant 0 <= j <= current.Length
            invariant forall m :: 0 <= m < j ==> !current[m]
          {
            current[j] := false;
            j := j + 1;
          }
          current[link.value] := true;
          assert current[..] == OnlyMarked(current.Length, link.value);
        }
        assert entries[..n + 1][..n] == entries[..n];
        n := n + 1;
      }
      assert entries[..n] == entries;
    }
  }
}
