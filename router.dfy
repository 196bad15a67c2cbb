/** The hash router of the single-page site: which view a fragment selects,
    whether the header and footer show, and what scrolling a fragment change
    asks for. */
module Router {
  import opened Strings
  import opened Browser

  /** `getNormalizedPath`: a fragment that starts with "#/" is a route and
      kept; anything else (empty, "#", an in-page anchor) means home. */
  function NormalizePath(hash: string): (r: string)
    ensures StartsWith(r, "#/")
    ensures r == hash <==> StartsWith(hash, "#/")
    ensures !StartsWith(hash, "#/") ==> r == "#/"
  {
    if hash == "" || hash == "#" || !StartsWith(hash, "#/") then "#/" else hash
  }

  lemma NormalizeIdempotent(hash: string)
    ensures NormalizePath(NormalizePath(hash)) == NormalizePath(hash)
  {
  }

  datatype View = Landing | BookingPage | InternalDashboard

  /** `renderContent`: two routes have their own view; every other path,
      known or not, renders the landing page. */
  function RenderContent(path: string): (v: View)
    ensures v == BookingPage <==> path == "#/booking"
    ensures v == InternalDashboard <==> path == "#/internal"
  {
    if path == "#/booking" then BookingPage
    else if path == "#/internal" then InternalDashboard
    else Landing
  }

  /** The header and the footer are rendered everywhere but on the
      dashboard route. */
  function ShowChrome(path: string): (shown: bool)
    ensures shown <==> RenderContent(path) != InternalDashboard
  {
    path != "#/internal"
  }

  /** The view a fragment leads to: the booking flow and the dashboard for
      exactly their routes, the landing page for everything else. */
  lemma ViewOfHash(hash: string)
    ensures RenderContent(NormalizePath(hash)) == BookingPage <==> hash == "#/booking"
    ensures RenderContent(NormalizePath(hash)) == InternalDashboard <==> hash == "#/internal"
    ensures RenderContent(NormalizePath(hash)) == Landing <==> hash != "#/booking" && hash != "#/internal"
  {
  }

  /** An in-page anchor: starts with "#" but is not a route. */
  predicate IsAnchor(hash: string)
  {
    StartsWith(hash, "#") && !StartsWith(hash, "#/")
  }

  /** The scrolling `handleHashChange` requests: an anchor scrolls to the
      element named after the "#" (100 ms later, if it exists), the home
      route scrolls to the top, any other route does not scroll. */
  function ScrollDecision(hash: string): (r: ScrollAction)
    ensures IsAnchor(hash) ==> r == ScrollIntoView(hash[1..]) && NormalizePath(hash) == "#/"
    ensures r == ScrollTop <==> !IsAnchor(hash) && NormalizePath(hash) == "#/"
    ensures r == NoScroll <==> StartsWith(hash, "#/") && hash != "#/"
  {
    if IsAnchor(hash) then
      RemoveFirstOfLeading(hash, '#');
      ScrollIntoView(RemoveFirst(hash, '#'))
    else if NormalizePath(hash) == "#/" then ScrollTop
    else NoScroll
  }

  /** An unknown route such as "#/bogus" is kept as the path, shows the
      landing page with header and footer, and does not scroll. */
  lemma UnknownRoute()
    ensures NormalizePath("#/bogus") == "#/bogus"
    ensures RenderContent("#/bogus") == Landing && ShowChrome("#/bogus")
    ensures ScrollDecision("#/bogus") == NoScroll
  {
  }

  /** The application shell: the current path and the location it follows. */
  class App {
    const location: Location
    var currentPath: string

    constructor (location: Location)
      ensures this.location == location && StartsWith(currentPath, "#/")
      ensures currentPath == NormalizePath(location.hash)
    {
      this.location := location;
      currentPath := NormalizePath(location.hash);
    }

    /** `handleHashChange`, run on mount and on every `hashchange`. */
    method HandleHashChange() returns (scroll: ScrollAction)
      modifies this`currentPath
      ensures StartsWith(currentPath, "#/")
      ensures currentPath == NormalizePath(location.hash)
      ensures scroll == ScrollDecision(location.hash)
    {
      currentPath := NormalizePath(location.hash);
      scroll := ScrollDecision(location.hash);
    }

    /** "Return Home" on the booking page. */
    method ReturnHome()
      modifies location
      ensures location.hash == "#/"
    {
      location.hash := "#/";
    }

    /** "Get Your Strategy" on the landing page. */
    method GetStrategy()
      modifies location
      ensures location.hash == "#/booking"
    {
      location.hash := "#/booking";
    }
  }
}
