/** Two things a reader of the job options would not expect: with CheckContent on a
    positive Depth limits nothing, and a seed can be fetched twice. */
module DepthAndSeed {
  import opened CrawlTypes
  import opened LinkExpansion
  import opened JobObject
  import opened Crawl
  import opened Provenance
  import opened Closure
  import opened Budget
  import opened BreadthFirst
  import opened SmallWebs

  // ---- depth ---------------------------------------------------------------------------

  /** With CheckContent on and a positive Depth, a finished undisturbed crawl has
      fetched every URL that a follow path of any length reaches from a root. */
  lemma DepthLimitsNothing(w: World, o: Options, ss: seq<State>, es: seq<Event>, path: seq<string>)
    requires UndisturbedRun(w, o, ss, es) && Finished(o, ss[|es|])
    requires !o.noFollow && o.checkContent && o.depth > 0
    requires Chain(w, o, path) && path[0] in RootUrls(ss[|es|])
    ensures path[|path| - 1] in Fetched(ss[|es|])
  {
    ScheduleIndependence(w, o, ss, es);
    ChainStaysInside(w, o, path, Infinite(Fetched(ss[|es|])));
  }

  /** The web "a" to "b" to "c". */
  function ThreePages(u: string): seq<Anchor> {
    if u == "a" then [Anchor("b", "")] else if u == "b" then [Anchor("c", "")] else []
  }

  lemma ThreePagesEdges(o: Options, u: string, v: string)
    requires o == PlainJob(o.seedUrl, o.depth, o.checkContent, o.followOtherDomains)
    ensures Edge(SmallWeb(ThreePages, OneHost), o, u, v) <==> (u == "a" && v == "b") || (u == "b" && v == "c")
  {
    SmallWebEdge(ThreePages, OneHost, o, u, v);
    if u == "a" { assert Anchor("b", "") in ThreePages(u); }
    if u == "b" { assert Anchor("c", "") in ThreePages(u); }
  }

  lemma ThirdPageIsTwoAway(w: World, o: Options)
    requires w == SmallWeb(ThreePages, OneHost) && o == PlainJob("a", o.depth, o.checkContent, o.followOtherDomains)
    ensures Distance(w, o, "a", "c", 2)
  {
    ThreePagesEdges(o, "a", "b");
    ThreePagesEdges(o, "b", "c");
    ThreePagesEdges(o, "a", "c");
    assert Chain(w, o, ["a", "b", "c"]);
    forall m: nat | ReachIn(w, o, "a", "c", m) ensures 2 <= m {
      var path :| Chain(w, o, path) && |path| == m + 1 && path[0] == "a" && path[m] == "c";
    }
  }

  /** A finished crawl with Depth 1 that fetched a page two links from its seed. */
  lemma BeyondDepth() returns (w: World, o: Options, ss: seq<State>, es: seq<Event>)
    ensures UndisturbedRun(w, o, ss, es) && Finished(o, ss[|es|]) && ss[|es|].roots == {SeedCommand(o)}
    ensures o.checkContent && o.depth == 1
    ensures Distance(w, o, o.seedUrl, "c", 2) && "c" in Fetched(ss[|es|])
  {
    w, o := SmallWeb(ThreePages, OneHost), PlainJob("a", 1, true, false);
    var universe := {"b", "c"};
    ss, es := [Init()], [];
    forall u, v | Edge(w, o, u, v) ensures v in universe {
      ThreePagesEdges(o, u, v);
    }
    ss, es := CrawlFinishes(w, o, ss, es, universe);
    ThirdPageIsTwoAway(w, o);
    var path :| Chain(w, o, path) && |path| == 3 && path[0] == "a" && path[2] == "c";
    assert SeedCommand(o) in ss[|es|].roots;
    DepthLimitsNothing(w, o, ss, es, path);
  }

  // ---- the seed -------------------------------------------------------------------------

  /** If no page is added before the seed is marked, link-following never sends the seed. */
  lemma SeedSentOnce(w: World, o: Options, ss: seq<State>, es: seq<Event>)
    requires IsRun(w, o, ss, es) && o.seedUrl != ""
    requires forall i :: 0 <= i < |es| && es[i].AddRoot? ==> !ss[i].stage.Unmarked?
    ensures o.seedUrl !in Urls(ss[|es|].f.sent)
  {
    NothingEarly(w, o, ss, es, |es|);
    InvariantsAt(w, o, ss, es, |es|);
  }

  lemma {:induction false} NothingEarly(w: World, o: Options, ss: seq<State>, es: seq<Event>, n: nat)
    requires IsRun(w, o, ss, es) && n <= |es|
    requires forall i :: 0 <= i < |es| && es[i].AddRoot? ==> !ss[i].stage.Unmarked?
    ensures ss[n].early == 0 && (ss[n].stage.Unmarked? ==> ss[n].pending == ss[n].f.sent == [])
  {
    if n > 0 {
      NothingEarly(w, o, ss, es, n - 1);
      var e := es[n - 1];
      if e.VisitGet? { ExpandStep(w, o, ss[n - 1], e.i, e.oks); }
    }
  }

  /** Link-following has sent the seed exactly when it had done so before RunJob
      marked it, and then once. */
  lemma SeedByLinkIffEarly(w: World, o: Options, s: State)
    requires Reachable(w, o, s) && o.seedUrl != "" && !s.stage.Unmarked?
    ensures s.early <= |s.f.sent|
    ensures o.seedUrl in Urls(s.f.sent) <==> o.seedUrl in Urls(s.f.sent[..s.early])
    ensures DistinctUrls(s.f.sent)
  {
    ReachableInvariants(w, o, s);
    UrlsOfSplit(s.f.sent, s.early);
  }

  function LinkToSeed(u: string): seq<Anchor> {
    if u == "page" then [Anchor("seed", "")] else []
  }

  const SeedJob := PlainJob("seed", -1, false, false)
  const AddedPage := Command(GET, "page", false, "", 0, "")
  const FoundSeed := Command(GET, "seed", false, "", 1, "")

  /** Handling the added page while the seed is unmarked sends the seed. */
  lemma EarlyExpansion(s: State)
    requires s == Root(Init(), AddedPage)
    ensures var w, e := SmallWeb(LinkToSeed, OneHost), VisitGet(0, [true]);
            && Enabled(w, SeedJob, s, e) && Undisturbed(w, SeedJob, s, e)
            && var t := Apply(w, SeedJob, s, e); t.pending == t.f.sent == [FoundSeed] && t.stage.Unmarked?
  {
    var w, oks, anchors := SmallWeb(LinkToSeed, OneHost), [true], LinkToSeed("page");
    assert Expansion(w, SeedJob, AddedPage) == Some(anchors);
    assert FollowLink(w, SeedJob, AddedPage, anchors[0], true, s.f) == Frontier({"seed"}, [FoundSeed]);
    assert FollowLinks(w, SeedJob, AddedPage, anchors, oks, s.f) == Frontier({"seed"}, [FoundSeed]) by {
      assert anchors[..0] == [] && oks[..0] == [];
    }
    ExpandStep(w, SeedJob, s, 0, oks);
  }

  lemma EarlyRun(w: World) returns (ss: seq<State>, es: seq<Event>)
    requires w == SmallWeb(LinkToSeed, OneHost)
    ensures UndisturbedRun(w, SeedJob, ss, es)
    ensures ss[|es|].pending == ss[|es|].f.sent == [FoundSeed] && ss[|es|].stage.Unmarked?
  {
    assert Apply(w, SeedJob, Init(), AddRoot(AddedPage)) == Root(Init(), AddedPage);
    ss, es := Continue(w, SeedJob, [Init()], [], AddRoot(AddedPage));
    EarlyExpansion(Root(Init(), AddedPage));
    ss, es := Continue(w, SeedJob, ss, es, VisitGet(0, [true]));
  }

  /** An added page that links to the seed and is handled before RunJob marks it has
      the seed sent twice. */
  lemma SeedSentTwice() returns (w: World, o: Options, ss: seq<State>, es: seq<Event>)
    ensures UndisturbedRun(w, o, ss, es) && o.seedUrl != "" && Seeded(o, ss[|es|])
    ensures var s := ss[|es|];
            |s.pending| == 2 && s.pending[0].url == s.pending[1].url == o.seedUrl && o.seedUrl in Urls(s.f.sent)
  {
    w, o := SmallWeb(LinkToSeed, OneHost), SeedJob;
    ss, es := EarlyRun(w);
    ss, es := FinishSeeding(w, o, ss, es);
    assert FoundSeed in ss[|es|].f.sent;
  }
}
