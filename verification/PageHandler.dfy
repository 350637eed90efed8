/** What the response handlers of job.go decide for one response: which page is
    shipped, and whose links are followed. */
module PageHandler {
  import opened CrawlTypes

  predicate ErrorStatus(status: Int32) {
    399 < status < 600
  }

  /** The fetchbot mux hands a response to the job's handler only when its
      content type is the job's mimetype, if the job has one. */
  predicate Dispatched(o: Options, res: Response) {
    o.mimetype == "" || o.mimetype == res.mime
  }

  predicate Follows(o: Options, c: Command) {
    && !o.noFollow
    && Passes(o.followUrl, c.url)
    && (o.depth < 0 || c.urlDepth < o.depth)
  }

  predicate AllXpathsEqual(w: World, body: Bytes, kvps: seq<KVP>) {
    forall i :: 0 <= i < |kvps| ==> w.xpath(body, kvps[i].key) == kvps[i].value
  }

  /** A page is shipped when any one of its filters lets it through; an XPath
      list lets it through when all its entries match. */
  predicate Ships(w: World, o: Options, c: Command, body: Bytes) {
    || (o.callbackSeedUrl && c.urlDepth == 0)
    || (o.callbackUrl.None? && o.callbackXpathMatch == [] && o.callbackXpathRegexp == [])
    || Matches(o.callbackUrl, c.url)
    || Matches(o.callbackAnchorText, c.anchorText)
    || (o.callbackXpathMatch != [] && AllXpathsEqual(w, body, o.callbackXpathMatch))
    || (o.callbackXpathRegexp != [] && AllXpathsEqual(w, body, o.callbackXpathRegexp))
  }

  /** The page shows that the session has ended; the comparison ignores case. */
  predicate LoggedOut(w: World, o: Options, body: Bytes) {
    o.loginCheck.Some? && w.lowercase(w.xpath(body, o.loginCheck.value.key)) != w.lowercase(o.loginCheck.value.value)
  }

  // The anchors handed to enqueueLinks, if it is called, the page given to
  // sendPageHTML, if any, and whether the job is asked to cancel.
  datatype Effect = Effect(expand: Option<seq<Anchor>>, ship: Option<Page>, cancel: bool)

  const NOTHING := Effect(None, None, false)

  function ShipOnly(page: Page): Effect {
    Effect(None, Some(page), false)
  }

  function FailurePage(c: Command, url: string, status: Int32, error: string, metaStr: string): Page {
    Page(false, error, "", url, status, [], metaStr, c.urlDepth, "")
  }

  function SuccessPage(w: World, jobID: string, c: Command, res: Response, body: Bytes): Page {
    Page(true, "", jobID, w.shippingUrl(c.url), res.status, body, c.metaStr, c.urlDepth, c.anchorText)
  }

  function FetchErrorPage(c: Command, error: string): Page {
    FailurePage(c, c.url, FETCHBOT_ERROR, error, c.metaStr)
  }

  /** The rest of the GET handler, for a body that was read and passed the login check. */
  function BodyEffect(w: World, o: Options, jobID: string, c: Command, res: Response, body: Bytes): Effect {
    var ship := if Ships(w, o, c, body) then Some(SuccessPage(w, jobID, c, res, body)) else None;
    if !Follows(o, c) then Effect(None, ship, false)
    else
      match w.links(res.requestUrl, body)
      case None => ShipOnly(FailurePage(c, "", FOLLOW_PARSE_ERROR, "unparseable body", ""))
      case Some(anchors) => Effect(Some(anchors), ship, false)
  }

  /** fetchHTTPGetHandler of a job that is not done. */
  function GetEffect(w: World, o: Options, jobID: string, c: Command, res: Response): Effect {
    if c.noCallback then NOTHING
    else if ErrorStatus(res.status) then
      if c.urlDepth == 0
      then ShipOnly(FailurePage(c, res.requestUrl, res.status, res.statusText, c.metaStr))
      else NOTHING
    else if res.body.None? then
      ShipOnly(FailurePage(c, res.requestUrl, RESPONSE_ERROR, "unreadable body", c.metaStr))
    else if LoggedOut(w, o, res.body.value) then
      Effect(None, Some(FailurePage(c, "", NO_LONGER_LOGGED_IN, "not logged in", "")), true)
    else
      BodyEffect(w, o, jobID, c, res, res.body.value)
  }

  /** What becomes of a GET command: fetchErrorHandler, the GET handler, or
      nothing when the mux matches no handler. */
  function Visit(w: World, o: Options, jobID: string, c: Command, out: Outcome): Effect {
    match out
    case Failed(error) => ShipOnly(FetchErrorPage(c, error))
    case Got(res) => if Dispatched(o, res) then GetEffect(w, o, jobID, c, res) else NOTHING
  }

  // ---- link eligibility ------------------------------------------------------

  /** checkEnqueueEligibility. */
  predicate Eligible(o: Options, nurl: string, anchorText: string) {
    || (Passes(o.callbackUrl, nurl) && Passes(o.callbackAnchorText, anchorText))
    || Passes(o.followUrl, nurl)
  }

  predicate NoXpathFilters(o: Options) {
    o.callbackXpathMatch == [] && o.callbackXpathRegexp == []
  }

  /** How the handler can end without wasting the fetch of an eligible page: it
      ships the page, or the page passes the follow filter and is expanded unless
      NoFollow, the depth limit or an unparseable body stops that, or the page
      reveals the end of the session. */
  predicate NotWasted(o: Options, c: Command, e: Effect) {
    || (e.ship.Some? && e.ship.value.success)
    || (Passes(o.followUrl, c.url)
        && (|| e.expand.Some? || o.noFollow || 0 <= o.depth <= c.urlDepth
            || (e.ship.Some? && e.ship.value.httpStatusCode == FOLLOW_PARSE_ERROR)))
    || e.cancel
  }

  /** The enqueue filter never admits a page that the later stages would drop,
      when there are no XPath filters. The command `c` is
      the one link-following sent, or the one the HEAD handler rebuilt from it
      without its anchor text. */
  lemma FiltersAgree(w: World, o: Options, jobID: string, c: Command, anchorText: string, res: Response)
    requires NoXpathFilters(o)
    requires Eligible(o, c.url, anchorText)
    requires c.anchorText == anchorText || c.anchorText == ""
    requires !c.noCallback && !ErrorStatus(res.status) && res.body.Some?
    ensures var e := GetEffect(w, o, jobID, c, res);
            NotWasted(o, c, e) && (e.cancel <==> LoggedOut(w, o, res.body.value))
  {
  }
}
