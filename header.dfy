/** The fixed navigation header: the scrolled style, the scroll-spy that
    picks the active section, the nav-link click handler, the highlighted
    item and the mobile menu. */
module Header {
  import opened Strings
  import opened Browser

  /** The sections the scroll-spy looks at, in the order it looks. */
  const Sections: seq<string> := ["home", "whoweare", "failure-analysis", "services"]

  /** The hrefs of the four nav items, in display order. */
  const NavHrefs: seq<string> := ["#/", "#whoweare", "#failure-analysis", "#services"]

  /** The viewport line (in pixels from the top) a section must span. */
  const SpyLine: int := 150

  /** The scroll offset past which the header takes its scrolled style. */
  const ScrolledAfter: int := 50

  /** The element with this id exists and spans the spy line. */
  predicate Spans(dom: Dom, id: string)
  {
    id in dom && dom[id].top <= SpyLine && dom[id].bottom >= SpyLine
  }

  /** The scroll-spy loop: the index of the first section that spans the
      spy line, or `|Sections|` when none does. */
  method FirstSpanning(dom: Dom) returns (k: nat)
    ensures k <= |Sections|
    ensures forall j :: 0 <= j < k ==> !Spans(dom, Sections[j])
    ensures k < |Sections| ==> Spans(dom, Sections[k])
  {
    k := |Sections|;
    var i := 0;
    while i < |Sections|
      invariant 0 <= i <= |Sections|
      invariant forall j :: 0 <= j < i ==> !Spans(dom, Sections[j])
    {
      var section := Sections[i];
      if section in dom {
        var rect := dom[section];
        if rect.top <= SpyLine && rect.bottom >= SpyLine {
          k := i;
          break;
        }
      }
      i := i + 1;
    }
  }

  /** Whether the nav item with `href` is highlighted: the active section is
      the href without its "#", or it is "home" and the item is the home
      route. */
  function IsHighlighted(activeSection: string, href: string): (lit: bool)
    ensures StartsWith(href, "#") && href != "#/" ==> (lit <==> activeSection == href[1..])
    ensures href == "#/" ==> (lit <==> activeSection == "home" || activeSection == "/")
  {
    var target := RemoveFirst(href, '#');
    assert StartsWith(href, "#") ==> target == href[1..] by {
      if StartsWith(href, "#") {
        assert href[0] == href[..1][0];
        RemoveFirstOfLeading(href, '#');
      }
    }
    activeSection == target || (activeSection == "home" && href == "#/")
  }

  /** Each section highlights exactly its own nav item. */
  lemma HighlightMatchesSection(i: nat, j: nat)
    requires i < |Sections| && j < |NavHrefs|
    ensures IsHighlighted(Sections[i], NavHrefs[j]) <==> i == j
  {
    var href := NavHrefs[j];
    assert href[..1] == "#";
    if j == 0 {
      assert href == "#/";
    } else {
      assert href != "#/" && href[1..] == Sections[j];
    }
  }

  class NavHeader {
    const location: Location
    var isScrolled: bool
    var isMenuOpen: bool
    var activeSection: string

    /** The active section is always one of the spied sections. */
    ghost predicate Valid()
      reads this
    {
      activeSection in Sections
    }

    constructor (location: Location)
      ensures this.location == location && Valid()
      ensures !isScrolled && !isMenuOpen && activeSection == "home"
    {
      this.location := location;
      isScrolled := false;
      isMenuOpen := false;
      activeSection := "home";
    }

    /** `handleScroll`: the scrolled style past 50 px, and the first
        section spanning the spy line becomes active; with none, the active
        section stays. */
    method HandleScroll(scrollY: int, dom: Dom)
      requires Valid()
      modifies this`isScrolled, this`activeSection
      ensures Valid()
      ensures isScrolled <==> scrollY > ScrolledAfter
      ensures (forall j :: 0 <= j < |Sections| ==> !Spans(dom, Sections[j])) ==> activeSection == old(activeSection)
      ensures (exists j :: 0 <= j < |Sections| && Spans(dom, Sections[j])) ==>
        exists k :: 0 <= k < |Sections| && activeSection == Sections[k] && Spans(dom, Sections[k])
          && forall j :: 0 <= j < k ==> !Spans(dom, Sections[j])
    {
      isScrolled := scrollY > ScrolledAfter;
      var k := FirstSpanning(dom);
      if k < |Sections| {
        activeSection := Sections[k];
      }
    }

    /** `handleNavClick`. A result with `prevented` false leaves the click to
        the browser, which follows the link. */
    method HandleNavClick(href: string, dom: Dom) returns (prevented: bool, scroll: ScrollAction)
      modifies this`isMenuOpen, location
      ensures href == "#/" ==> prevented && scroll == ScrollTop && location.hash == "#/" && isMenuOpen == old(isMenuOpen)
      ensures StartsWith(href, "#/") && href != "#/" ==>
        !prevented && scroll == NoScroll && location.hash == old(location.hash) && isMenuOpen == old(isMenuOpen)
      ensures !StartsWith(href, "#/") && RemoveFirst(href, '#') in dom ==>
        prevented && scroll == ScrollIntoView(RemoveFirst(href, '#')) && !isMenuOpen && location.hash == old(location.hash)
      ensures !StartsWith(href, "#/") && RemoveFirst(href, '#') !in dom ==>
        !prevented && scroll == NoScroll && location.hash == href && isMenuOpen == old(isMenuOpen)
    {
      prevented, scroll := false, NoScroll;
      if StartsWith(href, "#/") {
        if href == "#/" {
          prevented := true;
          location.hash := "#/";
          scroll := ScrollTop;
        }
        return;
      }
      var targetId := RemoveFirst(href, '#');
      if targetId in dom {
        prevented := true;
        scroll := ScrollIntoView(targetId);
        isMenuOpen := false;
      } else {
        location.hash := href;
      }
    }

    /** The mobile menu button. */
    method ToggleMenu()
      modifies this`isMenuOpen
      ensures isMenuOpen == !old(isMenuOpen)
    {
      isMenuOpen := !isMenuOpen;
    }

    /** "Get Strategy" in the desktop nav. */
    method GetStrategy()
      modifies location
      ensures location.hash == "#/booking"
    {
      location.hash := "#/booking";
    }

    /** "Book Strategy" in the mobile menu: go to booking and close the
        menu. */
    method BookFromMenu()
      modifies this`isMenuOpen, location
      ensures location.hash == "#/booking" && !isMenuOpen
    {
      location.hash := "#/booking";
      isMenuOpen := false;
    }
  }
}
