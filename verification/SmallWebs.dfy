/** Small concrete webs, on which runs with a given behaviour can be shown. */
module SmallWebs {
  import opened CrawlTypes
  import opened LinkExpansion
  import opened Crawl

  /** A web of readable text/html pages with the given links and hosts. */
  function SmallWeb(links: string -> seq<Anchor>, host: string -> string): World {
    var answer := (u: string) => Got(Response(u, 200, "OK", "text/html", Some([])));
    World(
      get := answer, head := answer,
      links := (u: string, _: Bytes) => Some(links(u)),
      xpath := (_: Bytes, _: string) => "",
      host := host,
      parses := (_: string) => true, hasHost := (_: string) => true,
      shippingUrl := (u: string) => u, lowercase := (u: string) => u,
      scriptUrl := (_: bool, u: string, _: string) => u,
      statusText := (_: Int32) => "")
  }

  function OneHost(u: string): string {
    "host"
  }

  /** A job without filters. */
  function PlainJob(seedUrl: string, depth: Int32, checkContent: bool, followOtherDomains: bool): Options {
    Options(
      seedUrl := seedUrl, noFollow := false, depth := depth, followOtherDomains := followOtherDomains,
      checkContent := checkContent, mimetype := "", cancelOnDisconnect := false, callbackSeedUrl := false,
      callbackUrl := None, followUrl := None, callbackAnchorText := None,
      callbackXpathMatch := [], callbackXpathRegexp := [], loginCheck := None)
  }

  lemma SmallWebEdge(links: string -> seq<Anchor>, host: string -> string, o: Options, u: string, v: string)
    requires o == PlainJob(o.seedUrl, o.depth, o.checkContent, o.followOtherDomains)
    ensures Edge(SmallWeb(links, host), o, u, v) <==>
            && (exists a :: a in links(u) && a.Anchor? && a.nurl == v)
            && (o.seedUrl == "" || o.followOtherDomains || host(v) == host(o.seedUrl))
  {
    var w := SmallWeb(links, host);
    assert PageLinks(w, o, u) == Some(links(u));
    if a :| a in links(u) && a.Anchor? && a.nurl == v {
      assert EligibleAnchor(o, a);
    }
  }
}
