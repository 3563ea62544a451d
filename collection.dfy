/** The run state of the scraper (the categories seen and the search links
    found) and how the ASIN loop of handleParse changes it. */
module Collection {
  import opened Wrappers
  import opened Browser
  import opened Listing

  /** A breadcrumb label, already trimmed. */
  type Category = string
  type Url = string

  const MaxSearchLinks := 10

  /** How the site behaves while one ASIN is handled: the responses to the
      navigations to its product page, the breadcrumb found there (None when
      the selector never appears), and the URL the search-and-department flow
      ends on (None when that flow throws). */
  datatype ProductVisit = ProductVisit(nav: seq<Response>, breadcrumb: Option<Category>, searchUrl: Option<Url>)

  /** The fields `categories` and `searchUrls` of the scraper. */
  datatype RunState = RunState(categories: seq<Category>, searchUrls: seq<Url>)

  /** The state of a freshly constructed scraper. */
  const Fresh := RunState([], [])

  /** Whether handling one ASIN returned normally or threw. */
  datatype Outcome = Done | Caught(error: ScrapeError)

  datatype Step = Step(state: RunState, outcome: Outcome)

  predicate NoDuplicates<T(==)>(s: seq<T>) {
    forall i, j :: 0 <= i < j < |s| ==> s[i] != s[j]
  }

  /** What every state reached from a fresh scraper satisfies: no category
      twice, and no more links than categories. */
  predicate Sound(s: RunState) {
    NoDuplicates(s.categories) && |s.searchUrls| <= |s.categories|
  }

  /** handleCategorySearch for one ASIN. */
  function Visit(s: RunState, v: ProductVisit): (r: Step)
    // both sequences only grow, at their ends
    ensures s.categories <= r.state.categories && s.searchUrls <= r.state.searchUrls
    // at most one new category, and a new link only together with a new category
    ensures |r.state.categories| <= |s.categories| + 1
    ensures |r.state.searchUrls| - |s.searchUrls| <= |r.state.categories| - |s.categories|
    // a new category is the page's breadcrumb and was not seen before
    ensures |r.state.categories| == |s.categories| + 1 ==>
      v.breadcrumb.Some? && v.breadcrumb.value !in s.categories &&
      r.state.categories[|s.categories|] == v.breadcrumb.value
    ensures NoDuplicates(s.categories) ==> NoDuplicates(r.state.categories)
    // a new link is the URL the search flow ended on
    ensures |r.state.searchUrls| == |s.searchUrls| + 1 ==>
      v.searchUrl.Some? && r.state.searchUrls[|s.searchUrls|] == v.searchUrl.value
    // a category already seen leaves the state as it was
    ensures v.breadcrumb.Some? && v.breadcrumb.value in s.categories ==> r.state == s
    // a thrown error adds no link; a failed search keeps its category marked as seen
    ensures r.outcome.Caught? ==> r.state.searchUrls == s.searchUrls
    ensures r.outcome == Caught(SearchFailed) ==>
      v.breadcrumb.Some? && r.state.categories == s.categories + [v.breadcrumb.value]
    // a product page that fails to load, or has no breadcrumb, throws and changes nothing
    ensures Goto(v.nav).Err? || v.breadcrumb.None? ==> r.state == s && r.outcome.Caught?
    // a new category is recorded, then its search link if the search succeeds;
    // a search that throws leaves the category recorded and adds no link
    ensures Goto(v.nav).Ok? && v.breadcrumb.Some? && v.breadcrumb.value !in s.categories ==>
      r.state.categories == s.categories + [v.breadcrumb.value] &&
      r.state.searchUrls == s.searchUrls + (if v.searchUrl.Some? then [v.searchUrl.value] else []) &&
      (r.outcome == Done <==> v.searchUrl.Some?)
  {
    match Goto(v.nav)
    case Err(e) => Step(s, Caught(e))
    case Ok(_) =>
      match v.breadcrumb
      case None => Step(s, Caught(BreadcrumbMissing))
      case Some(category) =>
        if category in s.categories then Step(s, Done)
        else
          var seen := s.(categories := s.categories + [category]);
          match v.searchUrl
          case None => Step(seen, Caught(SearchFailed))
          case Some(url) => Step(seen.(searchUrls := s.searchUrls + [url]), Done)
  }

  /** The run state after the loop, and how many ASINs it handled. */
  datatype Collected = Collected(state: RunState, handled: nat)

  /** The ASIN loop of handleParse: ASINs in list order, stopping before the
      first one met with MaxSearchLinks links already found. A thrown error is
      caught and the loop goes on. */
  function Collect(asins: seq<Asin>, site: Asin -> ProductVisit, s: RunState): (r: Collected)
    ensures r.handled <= |asins|
    // the cap holds at the end whenever it held at the start
    ensures |s.searchUrls| <= MaxSearchLinks ==> |r.state.searchUrls| <= MaxSearchLinks
    decreases |asins|
  {
    if asins == [] || |s.searchUrls| >= MaxSearchLinks then Collected(s, 0)
    else
      var rest := Collect(asins[1..], site, Visit(s, site(asins[0])).state);
      Collected(rest.state, rest.handled + 1)
  }

  /** Handling every ASIN of a list in order, with no cap: the reference the
      capped loop is compared with. */
  function Fold(asins: seq<Asin>, site: Asin -> ProductVisit, s: RunState): RunState
    decreases |asins|
  {
    if asins == [] then s else Fold(asins[1..], site, Visit(s, site(asins[0])).state)
  }

  /** The loop keeps the state sound, and the seen categories and the links
      only grow. */
  lemma {:induction false} CollectKeepsSound(asins: seq<Asin>, site: Asin -> ProductVisit, s: RunState)
    requires Sound(s)
    ensures var t := Collect(asins, site, s).state;
      Sound(t) && s.categories <= t.categories && s.searchUrls <= t.searchUrls
    decreases |asins|
  {
    if asins != [] && |s.searchUrls| < MaxSearchLinks {
      var next := Visit(s, site(asins[0])).state;
      CollectKeepsSound(asins[1..], site, next);
    }
  }

  /** The loop handles a prefix of the list, exactly as the uncapped
      reference would; before each ASIN it handles the cap was not yet
      reached, and it stops early only because the cap was reached. */
  lemma {:induction false} CollectIsCappedFold(asins: seq<Asin>, site: Asin -> ProductVisit, s: RunState)
    ensures var r := Collect(asins, site, s);
      r.state == Fold(asins[..r.handled], site, s) &&
      (forall k :: 0 <= k < r.handled ==> |Fold(asins[..k], site, s).searchUrls| < MaxSearchLinks) &&
      (r.handled == |asins| || |r.state.searchUrls| >= MaxSearchLinks)
    decreases |asins|
  {
    var r := Collect(asins, site, s);
    if asins == [] || |s.searchUrls| >= MaxSearchLinks {
      assert asins[..0] == [];
    } else {
      var next := Visit(s, site(asins[0])).state;
      var tail := asins[1..];
      CollectIsCappedFold(tail, site, next);
      var h := r.handled;
      assert asins[..h][1..] == tail[..h - 1];
      forall k | 0 <= k < h
        ensures |Fold(asins[..k], site, s).searchUrls| < MaxSearchLinks
      {
        if k == 0 {
          assert asins[..0] == [];
        } else {
          assert asins[..k][1..] == tail[..k - 1];
        }
      }
    }
  }

  /** The lines start() writes to output.txt, or None when handleParse threw
      (the home page navigation or the listing walk failed). */
  function Run(homeNav: seq<Response>, pages: seq<ListingPage>, site: Asin -> ProductVisit, s: RunState): Option<seq<Url>> {
    if Goto(homeNav).Err? then None
    else match Walk(pages)
      case Err(_) => None
      case Ok(asins) => Some(Collect(asins, site, s).state.searchUrls)
  }

  /** A run from a fresh scraper writes output exactly when the home page and
      the listing load, and then at most MaxSearchLinks links, no more than
      the distinct categories it saw. */
  lemma RunFromFresh(homeNav: seq<Response>, pages: seq<ListingPage>, site: Asin -> ProductVisit)
    ensures Run(homeNav, pages, site, Fresh).Some? <==> Goto(homeNav).Ok? && Walk(pages).Ok?
    ensures Run(homeNav, pages, site, Fresh).Some? ==>
      var t := Collect(Walk(pages).value, site, Fresh).state;
      |t.searchUrls| <= MaxSearchLinks && |t.searchUrls| <= |t.categories| && NoDuplicates(t.categories)
  {
    if Goto(homeNav).Ok? && Walk(pages).Ok? {
      CollectKeepsSound(Walk(pages).value, site, Fresh);
    }
  }

  /** Listing yields A, B, C; A and B are in "Electronics", C in "Books".
      B's category is already seen, so the links are A's and C's. */
  lemma SameCategoryOnce()
    ensures var site := (a: Asin) =>
        ProductVisit([Response(200, false)],
                     Some(if a == "C" then "Books" else "Electronics"),
                     Some(if a == "A" then "url-A" else if a == "B" then "url-B" else "url-C"));
      Collect(["A", "B", "C"], site, Fresh) ==
        Collected(RunState(["Electronics", "Books"], ["url-A", "url-C"]), 3)
  {
    var site := (a: Asin) =>
        ProductVisit([Response(200, false)],
                     Some(if a == "C" then "Books" else "Electronics"),
                     Some(if a == "A" then "url-A" else if a == "B" then "url-B" else "url-C"));
    GotoArrivesAt([Response(200, false)], 0);
    var s1 := RunState(["Electronics"], ["url-A"]);
    var s3 := RunState(["Electronics", "Books"], ["url-A", "url-C"]);
    assert Visit(Fresh, site("A")).state == s1;
    assert Visit(s1, site("B")).state == s1;
    assert Visit(s1, site("C")).state == s3;
    assert ["A", "B", "C"][1..] == ["B", "C"];
    assert ["B", "C"][1..] == ["C"];
    assert ["C"][1..] == [];
  }
}
