/** The paginated listing: what each page offers and which ASINs a walk over
    the pages collects. */
module Listing {
  import opened Wrappers

  /** A product identifier, as read from the listing's embedded JSON. */
  type Asin = string

  /** The state of the "next page" control (`.a-pagination .a-last`) on a page. */
  datatype Pagination =
    | Missing   // not found within the 3000 ms wait, or following it failed
    | Disabled  // present and carrying the `a-disabled` class: the last page
    | Enabled   // present and usable: clicking it loads the next page

  /** One listing page: the ids of its `data-client-recs-list` records, in
      order, and its pagination control. */
  datatype ListingPage = ListingPage(ids: seq<Asin>, pagination: Pagination)

  /** The id lists of the pages, concatenated in page order. */
  function Flatten(pages: seq<ListingPage>): seq<Asin> {
    if pages == [] then [] else Flatten(pages[..|pages| - 1]) + pages[|pages| - 1].ids
  }

  /** How many pages a walk reads: up to and including the first page whose
      control does not lead on. None when every page leads on, so that the walk
      reaches a page that is not there. */
  function PagesRead(pages: seq<ListingPage>): (n: Option<nat>)
    ensures n.Some? ==>
      1 <= n.value <= |pages| && !pages[n.value - 1].pagination.Enabled? &&
      forall j :: 0 <= j < n.value - 1 ==> pages[j].pagination.Enabled?
    ensures n.None? ==> forall j :: 0 <= j < |pages| ==> pages[j].pagination.Enabled?
    decreases |pages|
  {
    if pages == [] then None
    else if !pages[0].pagination.Enabled? then Some(1)
    else match PagesRead(pages[1..])
      case None => None
      case Some(n) => Some(n + 1)
  }

  /** The listing walk of handleParse: the ids of every page read, or the
      error raised when a page has no listing container. */
  function Walk(pages: seq<ListingPage>): Result<seq<Asin>> {
    match PagesRead(pages)
    case None => Err(ListingMissing)
    case Some(n) => Ok(Flatten(pages[..n]))
  }

  /** Flattening distributes over concatenation of page sequences. */
  lemma {:induction false} FlattenAppend(a: seq<ListingPage>, b: seq<ListingPage>)
    ensures Flatten(a + b) == Flatten(a) + Flatten(b)
    decreases |b|
  {
    if b == [] {
      assert a + b == a;
    } else {
      var last := b[|b| - 1];
      assert (a + b)[..|a + b| - 1] == a + b[..|b| - 1];
      FlattenAppend(a, b[..|b| - 1]);
    }
  }

  /** Every page's ids appear in the walk's output as one contiguous block, in
      their own order, after the blocks of all earlier pages and before those
      of all later ones. */
  lemma PageBlock(pages: seq<ListingPage>, i: nat)
    requires i < |pages|
    ensures Flatten(pages) == Flatten(pages[..i]) + pages[i].ids + Flatten(pages[i + 1..])
  {
    var front, back := pages[..i + 1], pages[i + 1..];
    assert pages == front + back;
    FlattenAppend(front, back);
    assert front[..|front| - 1] == pages[..i];
    assert Flatten(front) == Flatten(pages[..i]) + pages[i].ids;
  }

  /** A listing of N pages where only the last page's control does not lead
      on is read in full: N pages, every id, in page order. */
  lemma WalkReadsAllPages(pages: seq<ListingPage>)
    requires pages != [] && !pages[|pages| - 1].pagination.Enabled?
    requires forall j :: 0 <= j < |pages| - 1 ==> pages[j].pagination.Enabled?
    ensures PagesRead(pages) == Some(|pages|)
    ensures Walk(pages) == Ok(Flatten(pages))
  {
    assert pages[..|pages|] == pages;
  }
}
