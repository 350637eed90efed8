/** enqueueLinks (job.go): which links of one page are sent to the queue and
    which URLs are marked in `duplicates`. */
module LinkExpansion {
  import opened CrawlTypes
  import opened PageHandler

  // The URLs marked in `duplicates`, and the commands link-following has sent.
  datatype Frontier = Frontier(marked: set<string>, sent: seq<Command>)

  predicate OnDomain(w: World, o: Options, nurl: string) {
    o.seedUrl == "" || o.followOtherDomains || w.host(nurl) == w.host(o.seedUrl)
  }

  /** The URLs that can become commands: on the domain, parseable, and with a
      host (Send refuses a command without one). */
  predicate Crawlable(w: World, o: Options, nurl: string) {
    OnDomain(w, o, nurl) && w.parses(nurl) && w.hasHost(nurl)
  }

  function LinkCommand(o: Options, c: Command, a: Anchor): Command
    requires a.Anchor?
  {
    Command(if o.checkContent then HEAD else GET, a.nurl, false, c.metaStr, NextDepth(c.urlDepth), a.text)
  }

  predicate EligibleAnchor(o: Options, a: Anchor) {
    a.Anchor? && Eligible(o, a.nurl, a.text)
  }

  /** One round of the loop; `ok` says whether the queue is open. */
  function FollowLink(w: World, o: Options, c: Command, a: Anchor, ok: bool, f: Frontier): Frontier {
    if !EligibleAnchor(o, a) || a.nurl in f.marked then f
    else if !OnDomain(w, o, a.nurl) then f.(marked := f.marked + {a.nurl})
    else if w.parses(a.nurl) && w.hasHost(a.nurl) && ok then
      Frontier(f.marked + {a.nurl}, f.sent + [LinkCommand(o, c, a)])
    else f
  }

  function FollowLinks(w: World, o: Options, c: Command, anchors: seq<Anchor>, oks: seq<bool>, f: Frontier): Frontier
    requires |oks| == |anchors|
    decreases |anchors|
  {
    if anchors == [] then f
    else
      var n := |anchors| - 1;
      FollowLink(w, o, c, anchors[n], oks[n], FollowLinks(w, o, c, anchors[..n], oks[..n], f))
  }

  lemma FollowLinksNext(w: World, o: Options, c: Command, anchors: seq<Anchor>, oks: seq<bool>, f: Frontier, i: nat)
    requires |oks| == |anchors| && i < |anchors|
    ensures FollowLinks(w, o, c, anchors[..i + 1], oks[..i + 1], f)
            == FollowLink(w, o, c, anchors[i], oks[i], FollowLinks(w, o, c, anchors[..i], oks[..i], f))
  {
    assert anchors[..i + 1][..i] == anchors[..i] && oks[..i + 1][..i] == oks[..i];
  }

  /** The page has an eligible link to `u`. */
  ghost predicate LinksTo(o: Options, anchors: seq<Anchor>, u: string) {
    exists a :: a in anchors && EligibleAnchor(o, a) && a.nurl == u
  }

  predicate AllTrue(oks: seq<bool>) {
    forall i :: 0 <= i < |oks| ==> oks[i]
  }

  ghost predicate SentFrom(w: World, o: Options, c: Command, anchors: seq<Anchor>, k: Command) {
    Crawlable(w, o, k.url) && exists a :: a in anchors && EligibleAnchor(o, a) && k == LinkCommand(o, c, a)
  }

  ghost predicate SentSpec(w: World, o: Options, c: Command, anchors: seq<Anchor>, f: Frontier, r: Frontier) {
    && f.sent <= r.sent
    && var added := r.sent[|f.sent|..];
       && DistinctUrls(added)
       && forall k :: k in added ==> SentFrom(w, o, c, anchors, k) && k.url !in f.marked && k.url in r.marked
  }

  ghost predicate MarkedSpec(w: World, o: Options, anchors: seq<Anchor>, f: Frontier, r: Frontier)
    requires f.sent <= r.sent
  {
    forall u :: u in r.marked <==>
                u in f.marked || u in Urls(r.sent[|f.sent|..]) || (LinksTo(o, anchors, u) && !OnDomain(w, o, u))
  }

  lemma LinksToSnoc(o: Options, anchors: seq<Anchor>, a: Anchor)
    ensures forall u :: LinksTo(o, anchors + [a], u) <==> LinksTo(o, anchors, u) || (EligibleAnchor(o, a) && a.nurl == u)
  {
  }

  lemma FollowLinkSent(w: World, o: Options, c: Command, anchors: seq<Anchor>, a: Anchor, ok: bool, f: Frontier, m: Frontier)
    requires SentSpec(w, o, c, anchors, f, m) && f.marked <= m.marked
    ensures var r := FollowLink(w, o, c, a, ok, m); SentSpec(w, o, c, anchors + [a], f, r) && f.marked <= r.marked
  {
    var r := FollowLink(w, o, c, a, ok, m);
    var before, added := m.sent[|f.sent|..], r.sent[|f.sent|..];
    if r.sent == m.sent {
      assert added == before;
    } else {
      assert added == before + [LinkCommand(o, c, a)];
    }
    forall k | k in added ensures SentFrom(w, o, c, anchors + [a], k) {
      if k in before {
        assert SentFrom(w, o, c, anchors, k);
        var b :| b in anchors && EligibleAnchor(o, b) && k == LinkCommand(o, c, b);
        assert b in anchors + [a];
      } else {
        assert a in anchors + [a];
      }
    }
  }

  lemma FollowLinkMarked(w: World, o: Options, c: Command, anchors: seq<Anchor>, a: Anchor, ok: bool, f: Frontier, m: Frontier)
    requires f.sent <= m.sent && MarkedSpec(w, o, anchors, f, m)
    ensures var r := FollowLink(w, o, c, a, ok, m);
            f.sent <= r.sent && MarkedSpec(w, o, anchors + [a], f, r)
  {
    var r := FollowLink(w, o, c, a, ok, m);
    LinksToSnoc(o, anchors, a);
    var before, added := m.sent[|f.sent|..], r.sent[|f.sent|..];
    assert added == before + r.sent[|m.sent|..];
    if r.sent != m.sent {
      assert Urls(added) == Urls(before) + {a.nurl};
    }
  }

  /** What one expansion does, whichever sends fail: it only appends commands,
      each made from an eligible crawlable link of the page, all for different
      URLs none of which was marked; and it marks exactly the URLs it sent and
      the eligible off-domain URLs of the page. */
  lemma {:induction false} FollowLinksSpec(
      w: World, o: Options, c: Command, anchors: seq<Anchor>, oks: seq<bool>, f: Frontier)
    requires |oks| == |anchors|
    ensures var r := FollowLinks(w, o, c, anchors, oks, f);
            && SentSpec(w, o, c, anchors, f, r)
            && MarkedSpec(w, o, anchors, f, r)
            && f.marked <= r.marked
    decreases |anchors|
  {
    if anchors != [] {
      var n := |anchors| - 1;
      var m := FollowLinks(w, o, c, anchors[..n], oks[..n], f);
      FollowLinksSpec(w, o, c, anchors[..n], oks[..n], f);
      FollowLinkSent(w, o, c, anchors[..n], anchors[n], oks[n], f, m);
      FollowLinkMarked(w, o, c, anchors[..n], anchors[n], oks[n], f, m);
      assert anchors == anchors[..n] + [anchors[n]];
    }
  }

  /** While the queue is open, every crawlable linked URL ends up marked. */
  lemma {:induction false} OpenQueueMarks(
      w: World, o: Options, c: Command, anchors: seq<Anchor>, oks: seq<bool>, f: Frontier, u: string)
    requires |oks| == |anchors| && AllTrue(oks)
    requires LinksTo(o, anchors, u) && Crawlable(w, o, u)
    ensures u in FollowLinks(w, o, c, anchors, oks, f).marked
    decreases |anchors|
  {
    var n := |anchors| - 1;
    assert anchors == anchors[..n] + [anchors[n]];
    LinksToSnoc(o, anchors[..n], anchors[n]);
    if LinksTo(o, anchors[..n], u) {
      OpenQueueMarks(w, o, c, anchors[..n], oks[..n], f, u);
    }
  }

  /** The URLs sent for a page do not depend on the order of its links: with an
      open queue they are exactly the crawlable URLs with an eligible link that
      were not marked before. */
  lemma ExpansionExact(w: World, o: Options, c: Command, anchors: seq<Anchor>, oks: seq<bool>, f: Frontier, u: string)
    requires |oks| == |anchors| && AllTrue(oks)
    ensures var r := FollowLinks(w, o, c, anchors, oks, f);
            && f.sent <= r.sent
            && (u in Urls(r.sent[|f.sent|..]) <==>
                LinksTo(o, anchors, u) && Crawlable(w, o, u) && u !in f.marked)
  {
    var r := FollowLinks(w, o, c, anchors, oks, f);
    FollowLinksSpec(w, o, c, anchors, oks, f);
    var added := r.sent[|f.sent|..];
    if u in Urls(added) {
      var k :| k in added && k.url == u;
      assert SentFrom(w, o, c, anchors, k);
    } else if LinksTo(o, anchors, u) && Crawlable(w, o, u) {
      OpenQueueMarks(w, o, c, anchors, oks, f, u);
    }
  }

  lemma ExpansionOrderIndependent(
      w: World, o: Options, c: Command, f: Frontier,
      anchors: seq<Anchor>, oks: seq<bool>, anchors': seq<Anchor>, oks': seq<bool>)
    requires |oks| == |anchors| && AllTrue(oks) && |oks'| == |anchors'| && AllTrue(oks')
    requires multiset(anchors) == multiset(anchors')
    ensures var r, r' := FollowLinks(w, o, c, anchors, oks, f), FollowLinks(w, o, c, anchors', oks', f);
            && f.sent <= r.sent && f.sent <= r'.sent
            && Urls(r.sent[|f.sent|..]) == Urls(r'.sent[|f.sent|..])
            && r.marked == r'.marked
  {
    var r, r' := FollowLinks(w, o, c, anchors, oks, f), FollowLinks(w, o, c, anchors', oks', f);
    FollowLinksSpec(w, o, c, anchors, oks, f);
    FollowLinksSpec(w, o, c, anchors', oks', f);
    assert forall a :: a in anchors <==> a in multiset(anchors);
    assert forall a :: a in anchors' <==> a in multiset(anchors');
    assert forall u :: LinksTo(o, anchors, u) <==> LinksTo(o, anchors', u);
    forall u ensures u in Urls(r.sent[|f.sent|..]) <==> u in Urls(r'.sent[|f.sent|..]) {
      ExpansionExact(w, o, c, anchors, oks, f, u);
      ExpansionExact(w, o, c, anchors', oks', f, u);
    }
  }

  /** The URLs reported on the analyzed-URL channel: every resolved link. */
  function LinkedUrls(anchors: seq<Anchor>): set<string> {
    set a | a in anchors && a.Anchor? :: a.nurl
  }

  /** Every URL an expansion sends is among the page's analyzed URLs. */
  lemma SentAreAnalyzed(w: World, o: Options, c: Command, anchors: seq<Anchor>, oks: seq<bool>, f: Frontier)
    requires |oks| == |anchors|
    ensures var r := FollowLinks(w, o, c, anchors, oks, f);
            f.sent <= r.sent && Urls(r.sent[|f.sent|..]) <= LinkedUrls(anchors)
  {
    var r := FollowLinks(w, o, c, anchors, oks, f);
    FollowLinksSpec(w, o, c, anchors, oks, f);
    forall k | k in r.sent[|f.sent|..] ensures k.url in LinkedUrls(anchors) {
      assert SentFrom(w, o, c, anchors, k);
    }
  }
}
