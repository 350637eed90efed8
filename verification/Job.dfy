/** The job object of job.go and the handlers that update it. Choices that Go
    leaves to other goroutines are parameters: whether the queue is open for
    each Send, and whether a stop signal wins a select. */
module JobObject {
  import opened CrawlTypes
  import opened PageHandler
  import opened LinkExpansion

  datatype UrlList = UrlList(urls: seq<string>, metaStr: string, urlDepth: Int32)

  function Marked(duplicates: map<string, bool>): set<string> {
    set u | u in duplicates && duplicates[u]
  }

  ghost predicate Lists(s: seq<string>, urls: set<string>) {
    NoRepeats(s) && forall u :: u in s <==> u in urls
  }

  class Job {
    const w: World
    const o: Options
    const id: string

    var duplicates: map<string, bool>
    var queue: seq<Command>          // commands accepted by Send, oldest first
    var sendChan: seq<Page>          // pages accepted for the client, oldest first
    var connected: bool
    var done: bool                   // doneChan is closed
    var cancelRequested: bool
    var analyzedURLConnected: bool
    var analyzedURLChan: seq<UrlList>

    constructor (w: World, o: Options, id: string)
      ensures this.w == w && this.o == o && this.id == id
      ensures duplicates == map[] && queue == [] && sendChan == [] && analyzedURLChan == []
      ensures connected && !done && !cancelRequested && !analyzedURLConnected
    {
      this.w, this.o, this.id := w, o, id;
      duplicates, queue, sendChan, analyzedURLChan := map[], [], [], [];
      connected, done, cancelRequested, analyzedURLConnected := true, false, false, false;
    }

    ghost function AsFrontier(): Frontier reads this`duplicates, this`queue {
      Frontier(Marked(duplicates), queue)
    }

    /** What a page's expansion does to the analyzed-URL listener: a connected one
        gets one report naming each resolved link once, unless it is found gone. */
    twostate predicate Reports(c: Command, anchors: seq<Anchor>, analyzedStop: bool)
      reads this`analyzedURLConnected, this`analyzedURLChan
    {
      var tried := old(analyzedURLConnected && connected);
      && analyzedURLConnected == (old(analyzedURLConnected) && !(tried && analyzedStop))
      && old(analyzedURLChan) <= analyzedURLChan
      && if tried && !analyzedStop
         then
           && |analyzedURLChan| == |old(analyzedURLChan)| + 1
           && var report := analyzedURLChan[|old(analyzedURLChan)|];
              && Lists(report.urls, LinkedUrls(anchors))
              && report.metaStr == c.metaStr && report.urlDepth == NextDepth(c.urlDepth)
         else analyzedURLChan == old(analyzedURLChan)
    }

    /** Offering `page` to the client: exactly one of accepted, refused, or found
        disconnected, in which case cancellation may be asked for; `cancel` asks
        for it anyway. */
    twostate predicate Offers(page: Option<Page>, stop: bool, cancel: bool)
      reads this`connected, this`cancelRequested, this`sendChan
    {
      var open := page.Some? && old(connected && !done);
      && sendChan == old(sendChan) + (if open && !stop then [page.value] else [])
      && connected == (old(connected) && !(open && stop))
      && cancelRequested == (old(cancelRequested) || (open && stop && o.cancelOnDisconnect) || cancel)
    }

    /** Only a page offered to a connected client of an unfinished job, with no
        stop signal, reaches the channel. */
    method SendPageHTML(page: Page, stop: bool)
      modifies this`connected, this`cancelRequested, this`sendChan
      ensures Offers(Some(page), stop, false)
      ensures old(connected) && !done && !stop ==> sendChan == old(sendChan) + [page] && connected
      ensures old(connected) && !done && stop ==> sendChan == old(sendChan) && !connected
      ensures old(connected) && !done && stop && o.cancelOnDisconnect ==> cancelRequested
      ensures !stop || !o.cancelOnDisconnect ==> cancelRequested == old(cancelRequested)
      ensures !old(connected) || done ==>
                sendChan == old(sendChan) && connected == old(connected) && cancelRequested == old(cancelRequested)
    {
      if !connected { return; }
      if done { return; }
      if stop {
        connected := false;
        if o.cancelOnDisconnect { cancelRequested := true; }
      } else {
        sendChan := sendChan + [page];
      }
    }

    /** One element of the document: mark or send its URL, unless it is
        ineligible or already marked. */
    method EnqueueLink(c: Command, a: Anchor, ok: bool)
      modifies this`duplicates, this`queue
      ensures AsFrontier() == FollowLink(w, o, c, a, ok, old(AsFrontier()))
    {
      if a.Unresolved? { return; }
      var eligible := CheckEnqueueEligibility(a.nurl, a.text);
      if !eligible { return; }
      if !(a.nurl in duplicates && duplicates[a.nurl]) {
        if o.seedUrl != "" && !o.followOtherDomains && w.host(a.nurl) != w.host(o.seedUrl) {
          duplicates := duplicates[a.nurl := true];
          return;
        }
        if !w.parses(a.nurl) { return; }
        if ok && w.hasHost(a.nurl) {
          queue := queue + [LinkCommand(o, c, a)];
          duplicates := duplicates[a.nurl := true];
        }
      }
    }

    /** Link expansion in place agrees with FollowLinks, and a report to the
        analyzed-URL listener names each resolved link once. */
    method EnqueueLinks(c: Command, anchors: seq<Anchor>, oks: seq<bool>, analyzedStop: bool)
      requires |oks| == |anchors|
      modifies this`duplicates, this`queue, this`analyzedURLConnected, this`analyzedURLChan
      ensures AsFrontier() == FollowLinks(w, o, c, anchors, oks, old(AsFrontier()))
      ensures Reports(c, anchors, analyzedStop)
    {
      var urlMap: set<string> := {};
      for i := 0 to |anchors|
        invariant AsFrontier() == FollowLinks(w, o, c, anchors[..i], oks[..i], old(AsFrontier()))
        invariant urlMap == if analyzedURLConnected then LinkedUrls(anchors[..i]) else {}
        invariant analyzedURLConnected == old(analyzedURLConnected) && analyzedURLChan == old(analyzedURLChan)
      {
        FollowLinksNext(w, o, c, anchors, oks, old(AsFrontier()), i);
        if analyzedURLConnected && anchors[i].Anchor? { urlMap := urlMap + {anchors[i].nurl}; }
        EnqueueLink(c, anchors[i], oks[i]);
      }
      assert anchors[..|anchors|] == anchors && oks[..|oks|] == oks;
      if analyzedURLConnected && connected {
        ReportLinks(c, anchors, urlMap, analyzedStop);
      }
    }

    method ReportLinks(c: Command, anchors: seq<Anchor>, urlMap: set<string>, analyzedStop: bool)
      requires analyzedURLConnected && connected && urlMap == LinkedUrls(anchors)
      modifies this`analyzedURLConnected, this`analyzedURLChan
      ensures Reports(c, anchors, analyzedStop)
    {
      var urls := ListOf(urlMap);
      if analyzedStop {
        analyzedURLConnected := false;
      } else {
        analyzedURLChan := analyzedURLChan + [UrlList(urls, c.metaStr, NextDepth(c.urlDepth))];
      }
    }

    /** The two-flag test of the source is the eligibility predicate. */
    method CheckEnqueueEligibility(nurl: string, anchorText: string) returns (eligible: bool)
      ensures eligible == Eligible(o, nurl, anchorText)
    {
      var reqMatch, followMatch := true, true;
      if (o.callbackUrl.Some? && !o.callbackUrl.value(nurl))
         || (o.callbackAnchorText.Some? && !o.callbackAnchorText.value(anchorText)) {
        reqMatch := false;
      }
      if o.followUrl.Some? && !o.followUrl.value(nurl) {
        followMatch := false;
      }
      if !reqMatch && !followMatch { return false; }
      return true;
    }

    method XpathsPassThru(body: Bytes, kvps: seq<KVP>) returns (passthru: bool)
      ensures passthru == AllXpathsEqual(w, body, kvps)
    {
      passthru := true;
      for i := 0 to |kvps|
        invariant passthru
        invariant forall k :: 0 <= k < i ==> w.xpath(body, kvps[k].key) == kvps[k].value
      {
        if w.xpath(body, kvps[i].key) != kvps[i].value {
          passthru := false;
          break;
        }
      }
    }

    /** The staged callback flag is the disjunction of the job's filters. */
    method CallbackPage(c: Command, body: Bytes) returns (callbackPage: bool)
      ensures callbackPage == Ships(w, o, c, body)
    {
      callbackPage := false;
      if o.callbackSeedUrl && c.urlDepth == 0 {
        callbackPage := true;
      }
      if o.callbackUrl.None? && |o.callbackXpathMatch| == 0 && |o.callbackXpathRegexp| == 0 {
        callbackPage := true;
      }
      if o.callbackUrl.Some? && o.callbackUrl.value(c.url) {
        callbackPage := true;
      }
      if o.callbackAnchorText.Some? && o.callbackAnchorText.value(c.anchorText) {
        callbackPage := true;
      }
      if !callbackPage && |o.callbackXpathMatch| > 0 {
        callbackPage := XpathsPassThru(body, o.callbackXpathMatch);
      }
      if !callbackPage && |o.callbackXpathRegexp| > 0 {
        callbackPage := XpathsPassThru(body, o.callbackXpathRegexp);
      }
    }

    /** What link-following changes: the frontier by the links of the page, if they
        are expanded, and the analyzed-URL listener. */
    twostate predicate Expands(c: Command, expand: Option<seq<Anchor>>, oks: seq<bool>, analyzedStop: bool)
      requires expand.Some? ==> |oks| == |expand.value|
      reads this`duplicates, this`queue, this`analyzedURLConnected, this`analyzedURLChan
    {
      match expand
      case Some(anchors) =>
        && AsFrontier() == FollowLinks(w, o, c, anchors, oks, old(AsFrontier()))
        && Reports(c, anchors, analyzedStop)
      case None =>
        && AsFrontier() == old(AsFrontier())
        && analyzedURLConnected == old(analyzedURLConnected) && analyzedURLChan == old(analyzedURLChan)
    }

    /** The job after a handler with effect `e`. */
    twostate predicate Performs(c: Command, e: Effect, oks: seq<bool>, analyzedStop: bool, stop: bool)
      requires e.expand.Some? ==> |oks| == |e.expand.value|
      reads this
    {
      done == old(done) && Offers(e.ship, stop, e.cancel) && Expands(c, e.expand, oks, analyzedStop)
    }

    /** The GET handler does what GetEffect says, and nothing once the job is done. */
    method FetchHTTPGetHandler(c: Command, res: Response, oks: seq<bool>, analyzedStop: bool, stop: bool)
      requires var e := GetEffect(w, o, id, c, res);
               e.expand.Some? ==> |oks| == |e.expand.value|
      modifies this
      ensures Performs(c, if old(done) then NOTHING else GetEffect(w, o, id, c, res), oks, analyzedStop, stop)
    {
      if done { return; }
      if c.noCallback { return; }
      if 399 < res.status < 600 {
        if c.urlDepth == 0 {
          SendPageHTML(FailurePage(c, res.requestUrl, res.status, res.statusText, c.metaStr), stop);
        }
        return;
      }
      if res.body.None? {
        SendPageHTML(FailurePage(c, res.requestUrl, RESPONSE_ERROR, "unreadable body", c.metaStr), stop);
        return;
      }
      var body := res.body.value;
      if o.loginCheck.Some? {
        var check := o.loginCheck.value;
        if w.lowercase(w.xpath(body, check.key)) != w.lowercase(check.value) {
          SendPageHTML(FailurePage(c, "", NO_LONGER_LOGGED_IN, "not logged in", ""), stop);
          cancelRequested := true;
          return;
        }
      }
      HandleBody(c, res, body, oks, analyzedStop, stop);
    }

    /** The rest of the GET handler, for a page that was read and passed the login check. */
    method HandleBody(c: Command, res: Response, body: Bytes, oks: seq<bool>, analyzedStop: bool, stop: bool)
      requires var e := BodyEffect(w, o, id, c, res, body);
               e.expand.Some? ==> |oks| == |e.expand.value|
      modifies this
      ensures Performs(c, BodyEffect(w, o, id, c, res, body), oks, analyzedStop, stop)
    {
      var parsed := FollowBody(c, res, body, oks, analyzedStop);
      if !parsed {
        SendPageHTML(FailurePage(c, "", FOLLOW_PARSE_ERROR, "unparseable body", ""), stop);
        return;
      }
      ShipBody(c, res, body, stop);
    }

    method FollowBody(c: Command, res: Response, body: Bytes, oks: seq<bool>, analyzedStop: bool) returns (parsed: bool)
      requires var expand := if Follows(o, c) then w.links(res.requestUrl, body) else None;
               expand.Some? ==> |oks| == |expand.value|
      modifies this`duplicates, this`queue, this`analyzedURLConnected, this`analyzedURLChan
      ensures var expand := if Follows(o, c) then w.links(res.requestUrl, body) else None;
              Expands(c, expand, oks, analyzedStop) && parsed == (Follows(o, c) ==> expand.Some?)
    {
      if !o.noFollow && (o.followUrl.None? || o.followUrl.value(c.url)) && (o.depth < 0 || c.urlDepth < o.depth) {
        var doc := w.links(res.requestUrl, body);
        if doc.None? { return false; }
        EnqueueLinks(c, doc.value, oks, analyzedStop);
      }
      return true;
    }

    method ShipBody(c: Command, res: Response, body: Bytes, stop: bool)
      modifies this`connected, this`cancelRequested, this`sendChan
      ensures Offers(if Ships(w, o, c, body) then Some(SuccessPage(w, id, c, res, body)) else None, stop, false)
    {
      var callbackPage := CallbackPage(c, body);
      if !callbackPage { return; }
      SendPageHTML(SuccessPage(w, id, c, res, body), stop);
    }

    /** A failed fetch is reported with the command's own metaStr and depth. */
    method FetchErrorHandler(c: Command, error: string, stop: bool)
      modifies this`connected, this`cancelRequested, this`sendChan
      ensures Offers(Some(FetchErrorPage(c, error)), stop, false)
    {
      if done { return; }
      SendPageHTML(FailurePage(c, c.url, FETCHBOT_ERROR, error, c.metaStr), stop);
    }

    /** RunJob with a seed: its raw form is marked whether or not it can be sent,
        and the job goes on only if it was. */
    method EnqueueSeed(ok: bool) returns (goesOn: bool)
      modifies this`duplicates, this`queue
      ensures Marked(duplicates) == old(Marked(duplicates)) + (if o.seedUrl == "" then {} else {o.seedUrl})
      ensures goesOn == (o.seedUrl == "" || (w.parses(o.seedUrl) && ok && w.hasHost(o.seedUrl)))
      ensures queue == old(queue) + (if o.seedUrl != "" && goesOn then [SeedCommand(o)] else [])
      ensures o.seedUrl != "" && goesOn ==>
                var c := queue[|old(queue)|];
                c.verb.GET? && c.url == o.seedUrl && !c.noCallback && c.metaStr == "" && c.urlDepth == 0
    {
      goesOn := true;
      if |o.seedUrl| > 0 {
        duplicates := duplicates[o.seedUrl := true];
        if !w.parses(o.seedUrl) { return false; }
        if !(ok && w.hasHost(o.seedUrl)) { return false; }
        queue := queue + [Command(GET, o.seedUrl, false, "", 0, "")];
      }
    }

    /** A page request becomes a depth-0 command and marks nothing; the first one
        that cannot be sent ends the handling of page requests. */
    method HandlePageRequest(pr: PageRequest, ok: bool) returns (goesOn: bool)
      modifies this`queue
      ensures var c := RequestCommand(w, pr);
              && goesOn == (w.parses(pr.url) && ok && w.hasHost(c.url))
              && queue == old(queue) + (if goesOn then [c] else [])
              && (goesOn ==> RootShape(w, c))
      ensures goesOn ==> AsRequested(w, pr, queue[|old(queue)|])
    {
      if !w.parses(pr.url) { return false; }
      var c: Command;
      match pr.reqtype {
        case GetReq => c := Command(GET, pr.url, false, pr.metaStr, 0, "");
        case HeadReq => c := Command(HEAD, pr.url, false, pr.metaStr, 0, "");
        case BuiltinJS => c := Command(GET, w.scriptUrl(true, pr.url, pr.js), pr.noCallback, pr.metaStr, 0, "");
        case JScript => c := Command(GET, w.scriptUrl(false, pr.url, pr.js), pr.noCallback, pr.metaStr, 0, "");
      }
      if !(ok && w.hasHost(c.url)) { return false; }
      queue := queue + [c];
      return true;
    }

    /** The HEAD handler sends a fresh GET for the same URL and metaStr; the
        depth and the anchor text of the HEAD command are lost. */
    method FetchHTTPHeadHandler(c: Command, ok: bool)
      modifies this`queue
      ensures queue == old(queue)
                       + (if !done && ok && w.hasHost(c.url) then [GetAfterHead(c)] else [])
      ensures !done && ok && w.hasHost(c.url) ==>
                var get := queue[|old(queue)|];
                && get.verb.GET? && get.url == c.url && get.metaStr == c.metaStr && !get.noCallback
                && get.urlDepth == 0 && get.anchorText == ""
    {
      if done { return; }
      if ok && w.hasHost(c.url) {
        queue := queue + [Command(GET, c.url, false, c.metaStr, 0, "")];
      }
    }
  }

  function SeedCommand(o: Options): Command {
    Command(GET, o.seedUrl, false, "", 0, "")
  }

  /** A command made by AddPage or AddJS: depth 0, no anchor text, and
      noCallback only on script requests, which are GETs. */
  predicate RootShape(w: World, c: Command) {
    c.urlDepth == 0 && c.anchorText == "" && (c.noCallback ==> c.verb.GET?) && w.hasHost(c.url)
  }

  /** The command does what the client asked: a HEAD only where asked for, its own
      metaStr, the URL itself or that of the script, and noCallback for scripts only. */
  predicate AsRequested(w: World, pr: PageRequest, c: Command) {
    && (c.verb.HEAD? <==> pr.reqtype.HeadReq?)
    && c.metaStr == pr.metaStr && c.urlDepth == 0
    && (c.noCallback <==> (pr.reqtype.BuiltinJS? || pr.reqtype.JScript?) && pr.noCallback)
    && (pr.reqtype.BuiltinJS? ==> c.url == w.scriptUrl(true, pr.url, pr.js))
    && (pr.reqtype.JScript? ==> c.url == w.scriptUrl(false, pr.url, pr.js))
    && (pr.reqtype.GetReq? || pr.reqtype.HeadReq? ==> c.url == pr.url)
  }

  lemma RequestRule(w: World, pr: PageRequest)
    ensures AsRequested(w, pr, RequestCommand(w, pr))
  {
  }

  /** The command for a page request of the client. */
  function RequestCommand(w: World, pr: PageRequest): Command {
    match pr.reqtype
    case GetReq => Command(GET, pr.url, false, pr.metaStr, 0, "")
    case HeadReq => Command(HEAD, pr.url, false, pr.metaStr, 0, "")
    case BuiltinJS => Command(GET, w.scriptUrl(true, pr.url, pr.js), pr.noCallback, pr.metaStr, 0, "")
    case JScript => Command(GET, w.scriptUrl(false, pr.url, pr.js), pr.noCallback, pr.metaStr, 0, "")
  }

  function GetAfterHead(c: Command): Command {
    Command(GET, c.url, false, c.metaStr, 0, "")
  }

  /** The keys of a Go map, in some order, each once. */
  method ListOf(urls: set<string>) returns (s: seq<string>)
    ensures Lists(s, urls)
  {
    s := [];
    var rest := urls;
    while rest != {}
      invariant rest <= urls && Lists(s, urls - rest)
      decreases rest
    {
      var u :| u in rest;
      s, rest := s + [u], rest - {u};
    }
  }
}
