/** The job options, each read off the whole program: what an option field, a status
    code or a filter decides about pages, links and finished crawls. The rules speak
    of the fields and of the world only, not of the predicates the model is built of. */
module Rules {
  import opened CrawlTypes
  import opened PageHandler
  import opened LinkExpansion
  import opened JobObject
  import opened Crawl
  import opened Provenance
  import opened Closure
  import opened Budget
  import opened SmallWebs

  // ---- what is shipped ------------------------------------------------------------------

  predicate ReportsFailure(e: Effect, c: Command, url: string, code: int, metaStr: string) {
    && e.ship.Some?
    && var p := e.ship.value;
       && !p.success && p.url == url && p.httpStatusCode == code && p.metaStr == metaStr
       && p.content == [] && p.urlDepth == c.urlDepth
  }

  /** A script request that wants no callback yields nothing at all. */
  lemma NoCallbackRule(w: World, o: Options, jobID: string, c: Command, res: Response)
    requires c.noCallback
    ensures var e := GetEffect(w, o, jobID, c, res); e.ship.None? && e.expand.None? && !e.cancel
  {
  }

  /** A fetch error is reported as code 1520; a page of another mime type than the
      job's is ignored. */
  lemma OutcomeRule(w: World, o: Options, jobID: string, c: Command, out: Outcome)
    ensures var e := Visit(w, o, jobID, c, out);
            && (out.Failed? ==> ReportsFailure(e, c, c.url, 1520, c.metaStr) && e.expand.None? && !e.cancel)
            && (out.Got? && o.mimetype != "" && o.mimetype != out.res.mime ==>
                  e.ship.None? && e.expand.None? && !e.cancel)
            && (out.Got? && (o.mimetype == "" || o.mimetype == out.res.mime) ==>
                  e == GetEffect(w, o, jobID, c, out.res))
  {
  }

  /** HTTP errors end the handling of a page, and are reported for depth 0 only. */
  lemma ErrorStatusRule(w: World, o: Options, jobID: string, c: Command, res: Response)
    requires !c.noCallback && 400 <= res.status <= 599
    ensures var e := GetEffect(w, o, jobID, c, res);
            && e.expand.None? && !e.cancel
            && (e.ship.Some? <==> c.urlDepth == 0)
            && (e.ship.Some? ==> ReportsFailure(e, c, res.requestUrl, res.status, c.metaStr))
  {
  }

  lemma UnreadableRule(w: World, o: Options, jobID: string, c: Command, res: Response)
    requires !c.noCallback && !(400 <= res.status <= 599) && res.body.None?
    ensures var e := GetEffect(w, o, jobID, c, res);
            e.expand.None? && !e.cancel && ReportsFailure(e, c, res.requestUrl, 1530, c.metaStr)
  {
  }

  /** A page the handler looks into: wanted, no HTTP error, and read. */
  predicate Readable(c: Command, res: Response, body: Bytes) {
    !c.noCallback && !(400 <= res.status <= 599) && res.body == Some(body)
  }

  /** The login check, where one is to be made, finds its value up to case. */
  predicate LoginHolds(w: World, o: Options, body: Bytes) {
    match o.loginCheck
    case None => true
    case Some(check) => w.lowercase(w.xpath(body, check.key)) == w.lowercase(check.value)
  }

  /** The job is asked to cancel exactly when a login check is to be made and fails;
      then code 1502 is reported and no link followed. */
  lemma LoginRule(w: World, o: Options, jobID: string, c: Command, res: Response, body: Bytes)
    requires Readable(c, res, body)
    ensures var e := GetEffect(w, o, jobID, c, res);
            && (e.cancel <==> !LoginHolds(w, o, body))
            && (e.cancel ==> e.expand.None? && ReportsFailure(e, c, "", 1502, ""))
  {
  }

  predicate WantsLinks(o: Options, c: Command) {
    !o.noFollow && (o.followUrl.Some? ==> o.followUrl.value(c.url)) && (o.depth >= 0 ==> c.urlDepth < o.depth)
  }

  /** Links are followed exactly from pages that NoFollow, the follow regexp and
      Depth let through and that parse; an unparseable one is reported as code 1550. */
  lemma FollowRule(w: World, o: Options, jobID: string, c: Command, res: Response, body: Bytes)
    requires Readable(c, res, body) && LoginHolds(w, o, body)
    ensures var e := GetEffect(w, o, jobID, c, res);
            && e.expand == (if WantsLinks(o, c) then w.links(res.requestUrl, body) else None)
            && (WantsLinks(o, c) && w.links(res.requestUrl, body).None? ==> ReportsFailure(e, c, "", 1550, ""))
  {
  }

  /** One of the listed XPaths does not have the listed value. */
  predicate SomeXpathDiffers(w: World, body: Bytes, kvps: seq<KVP>) {
    exists i :: 0 <= i < |kvps| && w.xpath(body, kvps[i].key) != kvps[i].value
  }

  /** A page is kept back exactly when it fails every filter: the seed option does
      not cover it, there is a URL or XPath filter, its URL and its anchor text are
      not matched, and each XPath list that is given has a value that differs. */
  lemma ShipRule(w: World, o: Options, jobID: string, c: Command, res: Response, body: Bytes)
    requires Readable(c, res, body) && LoginHolds(w, o, body)
    requires WantsLinks(o, c) ==> w.links(res.requestUrl, body).Some?
    ensures var e := GetEffect(w, o, jobID, c, res);
            && (e.ship.None? <==>
                && !(o.callbackSeedUrl && c.urlDepth == 0)
                && (o.callbackUrl.Some? || |o.callbackXpathMatch| + |o.callbackXpathRegexp| > 0)
                && (o.callbackUrl.Some? ==> !o.callbackUrl.value(c.url))
                && (o.callbackAnchorText.Some? ==> !o.callbackAnchorText.value(c.anchorText))
                && (|o.callbackXpathMatch| > 0 ==> SomeXpathDiffers(w, body, o.callbackXpathMatch))
                && (|o.callbackXpathRegexp| > 0 ==> SomeXpathDiffers(w, body, o.callbackXpathRegexp)))
            && (e.ship.Some? ==>
                  e.ship.value == Page(true, "", jobID, w.shippingUrl(c.url), res.status, body,
                                       c.metaStr, c.urlDepth, c.anchorText))
  {
  }

  /** With CheckContent off and a Depth, no page that link-following found is ever
      reported for its HTTP error status. */
  lemma LinkErrorsAreSilent(w: World, o: Options, jobID: string, s: State, c: Command, res: Response)
    requires Reachable(w, o, s) && !o.checkContent && o.depth >= 0 && c in s.f.sent
    requires w.get(c.url) == Got(res) && 400 <= res.status <= 599
    ensures Visit(w, o, jobID, c, w.get(c.url)).ship.None?
  {
    ReachableInvariants(w, o, s);
    Confinement(w, o, s, c);
    SentAreCallbacks(w, o, s, c);
    ErrorStatusRule(w, o, jobID, c, res);
  }

  /** With CheckContent on every one is, because the HEAD handler drops the depth. */
  lemma LinkErrorsAfterHead(w: World, o: Options, jobID: string, k: Command, res: Response)
    requires 400 <= res.status <= 599 && (o.mimetype == "" || o.mimetype == res.mime)
    ensures var c := GetAfterHead(k);
            ReportsFailure(Visit(w, o, jobID, c, Got(res)), c, res.requestUrl, res.status, k.metaStr)
  {
    ErrorStatusRule(w, o, jobID, GetAfterHead(k), res);
  }

  // ---- which links are sent -----------------------------------------------------------------

  /** Every filter that could let the link through is there and rejects it: the follow
      regexp its URL, and a callback regexp its URL or its anchor text. */
  predicate Refused(o: Options, u: string, text: string) {
    && o.followUrl.Some? && !o.followUrl.value(u)
    && (|| (o.callbackUrl.Some? && !o.callbackUrl.value(u))
        || (o.callbackAnchorText.Some? && !o.callbackAnchorText.value(text)))
  }

  ghost predicate Offers(o: Options, anchors: seq<Anchor>, u: string) {
    exists a :: a in anchors && a.Anchor? && a.nurl == u && !Refused(o, u, a.text)
  }

  lemma OffersIsLinksTo(o: Options, anchors: seq<Anchor>, u: string)
    ensures Offers(o, anchors, u) <==> LinksTo(o, anchors, u)
  {
    if a :| a in anchors && a.Anchor? && a.nurl == u && !Refused(o, u, a.text) {
      assert EligibleAnchor(o, a);
    }
    if a :| a in anchors && EligibleAnchor(o, a) && a.nurl == u {
      assert !Refused(o, u, a.text);
    }
  }

  /** What an open-queue expansion does to an unmarked URL. */
  ghost predicate Sends(
      w: World, o: Options, c: Command, anchors: seq<Anchor>, oks: seq<bool>, f: Frontier, u: string)
    requires |oks| == |anchors|
  {
    var r := FollowLinks(w, o, c, anchors, oks, f);
    |f.sent| <= |r.sent| && u in Urls(r.sent[|f.sent|..])
  }

  /** The filters: a URL that can be requested and lies on an allowed host is left
      unsent exactly when every link to it is refused. */
  lemma FilterRule(w: World, o: Options, c: Command, anchors: seq<Anchor>, oks: seq<bool>, f: Frontier, u: string)
    requires |oks| == |anchors| && AllTrue(oks) && u !in f.marked
    requires w.parses(u) && w.hasHost(u)
    requires o.seedUrl == "" || o.followOtherDomains || w.host(u) == w.host(o.seedUrl)
    ensures !Sends(w, o, c, anchors, oks, f, u) <==>
            forall a :: a in anchors && a.Anchor? && a.nurl == u ==> Refused(o, u, a.text)
  {
    ExpansionExact(w, o, c, anchors, oks, f, u);
    OffersIsLinksTo(o, anchors, u);
  }

  /** A link that the follow regexp matches, or that no callback filter rejects, is sent. */
  lemma PassingLinkIsSent(
      w: World, o: Options, c: Command, anchors: seq<Anchor>, oks: seq<bool>, f: Frontier, a: Anchor)
    requires |oks| == |anchors| && AllTrue(oks) && a in anchors && a.Anchor? && a.nurl !in f.marked
    requires w.parses(a.nurl) && w.hasHost(a.nurl)
    requires o.seedUrl == "" || o.followOtherDomains || w.host(a.nurl) == w.host(o.seedUrl)
    requires || (o.followUrl.Some? ==> o.followUrl.value(a.nurl))
             || ((o.callbackUrl.Some? ==> o.callbackUrl.value(a.nurl))
                 && (o.callbackAnchorText.Some? ==> o.callbackAnchorText.value(a.text)))
    ensures Sends(w, o, c, anchors, oks, f, a.nurl)
  {
    FilterRule(w, o, c, anchors, oks, f, a.nurl);
  }

  /** The hosts: without a seed or with FollowOtherDomains every host is allowed.
      Otherwise a link to another host is marked and never sent, and one to the
      seed's host is sent if it can be requested, and not marked if it cannot. */
  lemma HostRule(w: World, o: Options, c: Command, anchors: seq<Anchor>, oks: seq<bool>, f: Frontier, u: string)
    requires |oks| == |anchors| && AllTrue(oks) && u !in f.marked && Offers(o, anchors, u)
    ensures var sent, marked := Sends(w, o, c, anchors, oks, f, u), u in FollowLinks(w, o, c, anchors, oks, f).marked;
            && (o.seedUrl == "" || o.followOtherDomains || w.host(u) == w.host(o.seedUrl) ==>
                  (sent <==> w.parses(u) && w.hasHost(u)) && (marked <==> sent))
            && (o.seedUrl != "" && !o.followOtherDomains && w.host(u) != w.host(o.seedUrl) ==> marked && !sent)
  {
    OffersIsLinksTo(o, anchors, u);
    ExpansionExact(w, o, c, anchors, oks, f, u);
    FollowLinksSpec(w, o, c, anchors, oks, f);
  }

  /** The command sent for a link. */
  lemma SentCommandRule(w: World, o: Options, c: Command, anchors: seq<Anchor>, oks: seq<bool>, f: Frontier, k: Command)
    requires |oks| == |anchors| && f.sent <= FollowLinks(w, o, c, anchors, oks, f).sent
    requires k in FollowLinks(w, o, c, anchors, oks, f).sent[|f.sent|..]
    ensures k.verb == (if o.checkContent then HEAD else GET) && !k.noCallback && k.metaStr == c.metaStr
    ensures (k.urlDepth - c.urlDepth - 1) % 0x1_0000_0000 == 0
    ensures Anchor(k.url, k.anchorText) in anchors
  {
    FollowLinksSpec(w, o, c, anchors, oks, f);
    var a :| a in anchors && EligibleAnchor(o, a) && k == LinkCommand(o, c, a);
  }

  // ---- whole crawls ---------------------------------------------------------------------------

  /** The page at `u` has links to follow: it is fetched, of the job's mime type,
      without HTTP error, read, with the login intact, and passes the follow regexp. */
  ghost predicate Followed(w: World, o: Options, u: string, res: Response, body: Bytes, anchors: seq<Anchor>) {
    && w.get(u) == Got(res) && (o.mimetype != "" ==> res.mime == o.mimetype)
    && (res.status < 400 || res.status > 599) && res.body == Some(body) && LoginHolds(w, o, body)
    && !o.noFollow && (o.followUrl.Some? ==> o.followUrl.value(u))
    && w.links(res.requestUrl, body) == Some(anchors)
  }

  /** One of them leads to `v`, which can be requested and lies on an allowed host. */
  ghost predicate LinkRule(w: World, o: Options, u: string, v: string) {
    && (exists res, body, anchors :: Followed(w, o, u, res, body, anchors) && Offers(o, anchors, v))
    && w.parses(v) && w.hasHost(v)
    && (o.seedUrl != "" && !o.followOtherDomains ==> w.host(v) == w.host(o.seedUrl))
  }

  /** The graph on which all theorems about whole crawls rest is the rule's. */
  lemma EdgeRule(w: World, o: Options, u: string, v: string)
    ensures Edge(w, o, u, v) <==> LinkRule(w, o, u, v)
  {
    if res, body, anchors :| Followed(w, o, u, res, body, anchors) && Offers(o, anchors, v) {
      assert PageLinks(w, o, u) == Some(anchors);
      OffersIsLinksTo(o, anchors, v);
    }
    if Edge(w, o, u, v) {
      var res := w.get(u).res;
      var anchors := PageLinks(w, o, u).value;
      assert Followed(w, o, u, res, res.body.value, anchors);
      OffersIsLinksTo(o, anchors, v);
    }
  }

  ghost predicate RulePath(w: World, o: Options, path: seq<string>) {
    path != [] && forall i :: 0 <= i < |path| - 1 ==> LinkRule(w, o, path[i], path[i + 1])
  }

  /** A finished crawl has fetched exactly the URLs that the rule leads to from its roots. */
  lemma FetchedByRule(w: World, o: Options, ss: seq<State>, es: seq<Event>, u: string)
    requires UndisturbedRun(w, o, ss, es) && FollowsFreely(o) && Finished(o, ss[|es|])
    ensures u in Fetched(ss[|es|]) <==>
            exists path :: RulePath(w, o, path) && path[0] in RootUrls(ss[|es|]) && path[|path| - 1] == u
  {
    var s := ss[|es|];
    ScheduleIndependence(w, o, ss, es);
    if u in Fetched(s) {
      var path := FetchedHasPath(w, o, ss, es, u);
      forall i | 0 <= i < |path| - 1 ensures LinkRule(w, o, path[i], path[i + 1]) {
        EdgeRule(w, o, path[i], path[i + 1]);
      }
    }
    if path :| RulePath(w, o, path) && path[0] in RootUrls(s) && path[|path| - 1] == u {
      forall i | 0 <= i < |path| - 1 ensures Edge(w, o, path[i], path[i + 1]) {
        EdgeRule(w, o, path[i], path[i + 1]);
      }
      ChainStaysInside(w, o, path, Infinite(Fetched(s)));
    }
  }

  lemma FetchedHasPath(w: World, o: Options, ss: seq<State>, es: seq<Event>, u: string) returns (path: seq<string>)
    requires IsRun(w, o, ss, es) && u in Fetched(ss[|es|])
    ensures Chain(w, o, path) && path[0] in RootUrls(ss[|es|]) && path[|path| - 1] == u
  {
    var s := ss[|es|];
    InvariantsAt(w, o, ss, es, |es|);
    var c :| c in s.gets && !c.noCallback && c.url == u;
    assert Known(s, c);
    var r, p :| Traced(w, o, s.roots, r, p, c);
    path := p;
  }

  // ---- another host -----------------------------------------------------------------------------

  function LinkToB(u: string): seq<Anchor> {
    if u == "a" then [Anchor("b", "")] else []
  }

  function OwnHost(u: string): string {
    u
  }

  /** With FollowOtherDomains a finished crawl has fetched a page on another host than
      its seed's; the same crawl without it has not. */
  lemma OtherHost(followOtherDomains: bool) returns (w: World, o: Options, ss: seq<State>, es: seq<Event>)
    ensures UndisturbedRun(w, o, ss, es) && Finished(o, ss[|es|]) && ss[|es|].roots == {SeedCommand(o)}
    ensures o.seedUrl == "a" && w.host("b") != w.host("a") && o.followOtherDomains == followOtherDomains
    ensures "b" in Fetched(ss[|es|]) <==> followOtherDomains
  {
    w, o := SmallWeb(LinkToB, OwnHost), PlainJob("a", -1, false, followOtherDomains);
    forall u, v ensures Edge(w, o, u, v) <==> u == "a" && v == "b" && followOtherDomains {
      SmallWebEdge(LinkToB, OwnHost, o, u, v);
      if u == "a" { assert Anchor("b", "") in LinkToB(u); }
    }
    ss, es := CrawlFinishes(w, o, [Init()], [], {"b"});
    var fetched := Fetched(ss[|es|]);
    assert SeedCommand(o) in AllRoots(o, Init()) && "a" in fetched;
    if followOtherDomains {
      assert Edge(w, o, "a", "b");
    } else {
      assert Closed(w, o, iset{"a"});
      assert "a" in iset{"a"};
    }
  }
}
