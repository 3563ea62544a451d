/** The page-level behaviour of the scraper: which outgoing requests the page
    lets through, and how a navigation is repeated until it lands on a page
    that is neither rate-limited nor a CAPTCHA challenge. */
module Browser {
  import opened Wrappers

  /** The resource type Puppeteer reports for a request ("document", "image", ...). */
  type ResourceType = string

  const BlockedResourceTypes: seq<ResourceType> := ["image", "stylesheet", "font"]

  datatype Decision = Abort | Continue

  /** The request handler installed by setPageInterceptions. */
  function OnRequest(kind: ResourceType): (d: Decision)
    ensures d == Abort <==> kind == "image" || kind == "stylesheet" || kind == "font"
  {
    if kind in BlockedResourceTypes then Abort else Continue
  }

  /** What one page.goto call yields: a response with its status code and
      whether the CAPTCHA input is on the loaded page, or no response at all
      (the call rejected, or resolved to null so that reading its status throws). */
  datatype Response = Response(status: int, captcha: bool) | NoResponse

  const TooManyRequests := 429

  /** A response after which goto navigates to the same URL again. */
  predicate Retries(r: Response) {
    r.Response? && (r.status == TooManyRequests || r.captcha)
  }

  /** A response after which goto returns. */
  predicate Arrives(r: Response) {
    r.Response? && r.status != TooManyRequests && !r.captcha
  }

  /** goto(url) over the responses the site gives to successive navigations
      to that one URL. On success the result is the number of navigations
      made; the source retries without bound, so a script that runs out while
      still retrying ends in RetriesExhausted. */
  function Goto(script: seq<Response>): (r: Result<nat>)
    ensures r.Ok? ==>
      1 <= r.value <= |script| && Arrives(script[r.value - 1]) &&
      forall j :: 0 <= j < r.value - 1 ==> Retries(script[j])
    ensures r.Err? ==> r.error == NavigationFailed || r.error == RetriesExhausted
    decreases |script|
  {
    if script == [] then Err(RetriesExhausted)
    else match script[0]
      case NoResponse => Err(NavigationFailed)
      case Response(status, captcha) =>
        if status == TooManyRequests then OneMoreAttempt(Goto(script[1..]))
        else if captcha then OneMoreAttempt(Goto(script[1..]))
        else Ok(1)
  }

  /** The outcome of a retry, seen from the navigation that caused it. */
  function OneMoreAttempt(r: Result<nat>): Result<nat> {
    match r
    case Ok(n) => Ok(n + 1)
    case Err(e) => Err(e)
  }

  /** The first response that is neither a 429 nor a CAPTCHA page decides
      how many navigations goto makes. */
  lemma {:induction false} GotoArrivesAt(script: seq<Response>, k: nat)
    requires k < |script| && Arrives(script[k])
    requires forall j :: 0 <= j < k ==> Retries(script[j])
    ensures Goto(script) == Ok(k + 1)
  {
    if k > 0 {
      GotoArrivesAt(script[1..], k - 1);
    }
  }

  /** A navigation that throws before any clean response ends goto with that error. */
  lemma {:induction false} GotoFailsAt(script: seq<Response>, k: nat)
    requires k < |script| && script[k] == NoResponse
    requires forall j :: 0 <= j < k ==> Retries(script[j])
    ensures Goto(script) == Err(NavigationFailed)
  {
    if k > 0 {
      GotoFailsAt(script[1..], k - 1);
    }
  }

  /** Responses that all call for a retry never let goto return. */
  lemma {:induction false} GotoKeepsRetrying(script: seq<Response>)
    requires forall j :: 0 <= j < |script| ==> Retries(script[j])
    ensures Goto(script) == Err(RetriesExhausted)
    decreases |script|
  {
    if script != [] {
      GotoKeepsRetrying(script[1..]);
    }
  }

  /** Two 429 responses and then a 200: exactly three navigations. A 200
      carrying the CAPTCHA input: at least one navigation more. */
  lemma GotoScenarios()
    ensures Goto([Response(429, false), Response(429, false), Response(200, false)]) == Ok(3)
    ensures Goto([Response(200, true), Response(200, false)]) == Ok(2)
    ensures Goto([Response(429, true), Response(200, false)]) == Ok(2)
  {
    GotoArrivesAt([Response(429, false), Response(429, false), Response(200, false)], 2);
    GotoArrivesAt([Response(200, true), Response(200, false)], 1);
    GotoArrivesAt([Response(429, true), Response(200, false)], 1);
  }
}
