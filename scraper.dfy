/** The Scraper class of index.js: its run state lives in fields that
    handleParse and handleCategorySearch update in place. The browser is
    replaced by the scripted site behaviour each method takes as parameters. */
module Index {
  import opened Wrappers
  import opened Browser
  import opened Listing
  import opened Collection

  class Scraper {
    var categories: seq<Category>
    var searchUrls: seq<Url>
    /** How many 'request' handlers have been installed on the page. */
    var requestHandlers: nat

    constructor ()
      ensures categories == [] && searchUrls == [] && requestHandlers == 0
    {
      categories := [];
      searchUrls := [];
      requestHandlers := 0;
    }

    function State(): RunState
      reads this
    {
      RunState(categories, searchUrls)
    }

    /** Turns on request interception and adds the OnRequest handler. */
    method SetPageInterceptions()
      modifies this`requestHandlers
      ensures requestHandlers == old(requestHandlers) + 1
    {
      requestHandlers := requestHandlers + 1;
    }

    /** Looks up one ASIN's category and, when the category is new, records it
        and then the search link the site gives for it. Returns the error the
        source would throw instead of throwing it. */
    method HandleCategorySearch(asin: Asin, site: Asin -> ProductVisit) returns (outcome: Outcome)
      modifies this`categories, this`searchUrls
      ensures Step(State(), outcome) == Visit(old(State()), site(asin))
    {
      var visit := site(asin);
      var arrived := Goto(visit.nav);
      if arrived.Err? {
        return Caught(arrived.error);
      }
      if visit.breadcrumb.None? {
        return Caught(BreadcrumbMissing);
      }
      var category := visit.breadcrumb.value;
      if category !in categories {
        categories := categories + [category];
        if visit.searchUrl.None? {
          return Caught(SearchFailed);
        }
        searchUrls := searchUrls + [visit.searchUrl.value];
      }
      return Done;
    }

    /** The `while (true)` listing loop of handleParse: reads each page's ids,
        installs interception on the first listing page only, and stops after
        a page whose next control is missing or disabled. */
    method WalkListing(pages: seq<ListingPage>) returns (r: Result<seq<Asin>>)
      modifies this`requestHandlers
      ensures r == Walk(pages)
      ensures requestHandlers == old(requestHandlers) + (if pages == [] then 0 else 1)
    {
      var allAsinList: seq<Asin> := [];
      var firstAsinListFound := false;
      var i := 0;
      while true
        invariant 0 <= i <= |pages|
        invariant allAsinList == Flatten(pages[..i])
        invariant forall j :: 0 <= j < i ==> pages[j].pagination.Enabled?
        invariant firstAsinListFound <==> i > 0
        invariant requestHandlers == old(requestHandlers) + (if i > 0 then 1 else 0)
        decreases |pages| - i
      {
        if i == |pages| {
          // the listing container does not appear: waitForSelector throws
          return Err(ListingMissing);
        }
        if !firstAsinListFound {
          SetPageInterceptions();
          firstAsinListFound := true;
        }
        assert pages[..i + 1][..i] == pages[..i];
        allAsinList := allAsinList + pages[i].ids;
        i := i + 1;
        if !pages[i - 1].pagination.Enabled? {
          break;
        }
      }
      r := Ok(allAsinList);
    }

    /** The ASIN loop of handleParse: stops once MaxSearchLinks links are
        found, and goes on past an ASIN whose handling throws. Returns how
        many ASINs were handled. */
    method CollectSearchUrls(allAsinList: seq<Asin>, site: Asin -> ProductVisit) returns (handled: nat)
      modifies this`categories, this`searchUrls
      ensures Collected(State(), handled) == Collect(allAsinList, site, old(State()))
    {
      ghost var goal := Collect(allAsinList, site, State());
      var i := 0;
      while i < |allAsinList|
        invariant 0 <= i <= |allAsinList|
        invariant Collect(allAsinList[i..], site, State()).state == goal.state
        invariant Collect(allAsinList[i..], site, State()).handled + i == goal.handled
      {
        if |searchUrls| >= MaxSearchLinks {
          break;
        }
        var _ := HandleCategorySearch(allAsinList[i], site);
        assert allAsinList[i..][1..] == allAsinList[i + 1..];
        i := i + 1;
      }
      handled := i;
    }

    /** handleParse: the home page, the listing walk, then the ASIN loop.
        Returns the number of ASINs handled, or the error that escapes. */
    method HandleParse(homeNav: seq<Response>, pages: seq<ListingPage>, site: Asin -> ProductVisit)
      returns (r: Result<nat>)
      modifies this
      ensures r.Ok? <==> Goto(homeNav).Ok? && Walk(pages).Ok?
      ensures r.Ok? ==> Collected(State(), r.value) == Collect(Walk(pages).value, site, old(State()))
      ensures r.Err? ==> State() == old(State())
      ensures requestHandlers == old(requestHandlers) + (if Goto(homeNav).Ok? && pages != [] then 1 else 0)
    {
      var home := Goto(homeNav);
      if home.Err? {
        return Err(home.error);
      }
      var asins := WalkListing(pages);
      if asins.Err? {
        return Err(asins.error);
      }
      var handled := CollectSearchUrls(asins.value, site);
      return Ok(handled);
    }

    /** start(): runs handleParse and yields the lines it writes to
        output.txt, or None when an error escaped and nothing is written. */
    method Start(homeNav: seq<Response>, pages: seq<ListingPage>, site: Asin -> ProductVisit)
      returns (output: Option<seq<Url>>)
      modifies this
      ensures output == Run(homeNav, pages, site, old(State()))
      ensures output.Some? ==> State() == Collect(Walk(pages).value, site, old(State())).state
      ensures output.None? ==> State() == old(State())
      ensures old(State()) == Fresh && output.Some? ==>
        |output.value| <= MaxSearchLinks && |output.value| <= |categories| && NoDuplicates(categories)
    {
      var parsed := HandleParse(homeNav, pages, site);
      if parsed.Err? {
        return None;
      }
      RunFromFresh(homeNav, pages, site);
      return Some(searchUrls);
    }
  }
}
