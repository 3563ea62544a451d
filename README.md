# Amazon category scraper: a Dafny model of its control logic

The scraper (`index.js`) opens amazon.ca and walks a paginated listing to collect
product ASINs. For each ASIN it then opens the product page, reads the breadcrumb
category, and, when the category is new, types it into the site search and
follows the department link. The URL it lands on is recorded as a search link.
It stops once 10 links are found and writes them to `output.txt`, one per line.

This model keeps the control logic and replaces the browser with scripted
behaviour:

- `Browser`: the request filter (`OnRequest`), plus `Goto`, the navigation
  retry that repeats after a 429 response or a CAPTCHA page. `Goto` runs over a
  finite script of responses.
- `Listing`: listing pages, given as records `(ids, pagination)`. `Walk` is the
  ASIN list a walk over them collects.
- `Collection`: the run state (`categories`, `searchUrls`). `Visit` is
  `handleCategorySearch` and `Collect` is the capped ASIN loop. `Fold` is an
  uncapped reference loop, and `Run` is what `start()` writes.
- `Index.Scraper`: the class itself. Its fields are updated in place by
  methods, and each method is proved equal to the functions above.

The site is passed in as parameters:
- the responses to the home-page navigation;
- the sequence of listing pages;
- a function from ASIN to `ProductVisit`, which holds the responses to the
  product-page navigation, the breadcrumb (absent when the selector never
  appears) and the search URL (absent when the search flow throws).

Points of the code's behaviour that the model keeps as written in index.js:
- It blocks exactly `image`, `stylesheet` and `font`. `media` and every other
  type go through, and no request is blocked by its URL.
- There is a single storefront domain, so each new category yields at most one link.
- A new category is marked as seen before its search runs. It stays seen if the
  search throws.

## Model

| member | source | states |
|---|---|---|
| `Browser.OnRequest` | index.js:53-60 | a request is aborted exactly when its resource type is image, stylesheet or font; every other type (media, document, script, ...) continues |
| `Browser.Goto` | index.js:63-75 | on return, the attempt count n points at a response that is neither 429 nor a CAPTCHA page, and all n-1 earlier responses were 429 or CAPTCHA; the only failures are a navigation that throws or a script that runs out while retrying |
| `Browser.GotoArrivesAt` | index.js:63-75 | if the first clean response is at index k and every earlier one is a retry, goto makes exactly k+1 navigations and returns |
| `Browser.GotoFailsAt` | index.js:63-64 | a navigation that throws before any clean response makes goto throw |
| `Browser.GotoKeepsRetrying` | index.js:66-74 | a script made only of 429 and CAPTCHA responses never lets goto return |
| `Browser.GotoScenarios` | index.js:66-74 | [429, 429, 200] takes exactly 3 navigations; a 200 carrying the CAPTCHA input is followed by one more navigation before goto returns |
| `Listing.PagesRead` | index.js:128-147 | the walk reads pages up to and including the first one whose next control is missing or disabled, and every earlier page had a usable next control; if no page ends the walk, it runs off the listing |
| `Listing.PageBlock` | index.js:120-125 | each page's ids form one contiguous block of the collected list, in their own order, after all earlier pages' ids and before all later ones |
| `Listing.WalkReadsAllPages` | index.js:108-148 | on N pages where only the last page's control is missing or disabled, the walk reads exactly N pages and yields every page's ids in page order |
| `Collection.Visit` | index.js:90-102 | a product page that fails to load or has no breadcrumb throws and changes nothing; a breadcrumb already seen changes nothing; a new breadcrumb is appended to the categories, then the search URL to the links when the search succeeds, and a throwing search leaves the category recorded with no link; in every case both sequences only grow at their ends, at most by one each, and no duplicate category is introduced |
| `Collection.Collect` | index.js:153-163 | the loop handles at most as many ASINs as the list holds, and, starting with at most 10 links, never ends with more than 10 |
| `Collection.CollectKeepsSound` | index.js:96-101 | the loop keeps categories duplicate-free and no more links than categories, and both sequences only grow |
| `Collection.CollectIsCappedFold` | index.js:153-163 | the loop handles a prefix of the ASIN list in order, each ASIN exactly as the uncapped loop would, with fewer than 10 links before each one; it stops early only because 10 links were reached, and a thrown error never stops it |
| `Collection.RunFromFresh` | index.js:30-43 | a run writes output exactly when the home page and the listing load (a product page whose scripted responses run out counts as a caught error, see Left out); the output then has at most 10 links, no more than the distinct categories seen |
| `Collection.SameCategoryOnce` | index.js:96-102 | listing A, B, C with A and B in "Electronics" and C in "Books" yields the links of A and C only, and categories [Electronics, Books] |
| `Index.Scraper.constructor` | index.js:23-28 | a new scraper has no categories, no links and no request handler |
| `Index.Scraper.SetPageInterceptions` | index.js:51-61 | installs one more request handler |
| `Index.Scraper.HandleCategorySearch` | index.js:90-103 | the new categories, links and the outcome (normal or thrown error) are those of Visit on the old state |
| `Index.Scraper.WalkListing` | index.js:108-148 | returns the ids Walk gives, or the error when a page has no listing; interception is installed exactly once, on the first listing page, and not at all if that page has no listing |
| `Index.Scraper.CollectSearchUrls` | index.js:153-163 | the new state and the number of ASINs handled are those of Collect on the old state |
| `Index.Scraper.HandleParse` | index.js:105-165 | succeeds exactly when the home page and the listing load, and then leaves the state Collect gives; on an error the state is unchanged |
| `Index.Scraper.Start` | index.js:30-43 | the lines written are those of Run and the state is then Collect's (unchanged when nothing is written); from a fresh scraper they number at most 10, no more than the duplicate-free categories seen |

## Left out

- Browser launch, the stealth plugin, the viewport, closing the browser and `process.exit` (index.js:1-7, 30-49): process and browser lifecycle.
- DOM work (selectors, `waitForSelector`, `type`, `click`, `waitForNavigation`) and the search-and-department flow of `getCategorySearchUrl` (index.js:77-88). The model has only its result: a URL, or a thrown error.
- `JSON.parse` of `data-client-recs-list` and the `.trim()` of the breadcrumb text. Each page's id list and each trimmed category are given as input.
- Timeouts (the 3000 ms pagination wait, default selector waits), `networkidle2`, and the pairing of navigation and click in `Promise.all`. A pagination wait that times out, or a click that fails, is the `Missing` state of the control.
- Logging, `console.time`, and the file write in `start()`. `Run` and `Start` give the lines written. The file holds these lines joined with `'\n'`.
- Browser.Goto: the source retries without bound. The model runs over a finite response script, and a script exhausted while still retrying ends in `RetriesExhausted`, where the source would go on navigating.
- Collection.Visit: a product page whose scripted responses run out while still retrying is treated as a caught error, and the loop skips that ASIN. The source would retry forever there, so handleParse would never return and output.txt would never be written.
- Collection.Visit: the site's behaviour for an ASIN is a function of the ASIN. If the same ASIN appears twice in the listing, the model gives it the same behaviour both times.
- Listing.PagesRead: a walk that runs past the last scripted page counts as a page without a listing container, which fails the run.
