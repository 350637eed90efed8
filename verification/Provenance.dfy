/** Where every command of a crawl comes from. */
module Provenance {
  import opened CrawlTypes
  import opened PageHandler
  import opened LinkExpansion
  import opened JobObject
  import opened Crawl

  /** `path` is a discovery chain from root `r` to command `c`: each URL is an
      eligible, crawlable link of the page before it, and `c` carries the root's
      metaStr. With CheckContent off its depth is the length of the chain, which
      a non-negative Depth bounds. A noCallback root discovers nothing. */
  ghost predicate Traced(w: World, o: Options, roots: set<Command>, r: Command, path: seq<string>, c: Command) {
    && r in roots
    && Chain(w, o, path) && path[0] == r.url && path[|path| - 1] == c.url
    && c.metaStr == r.metaStr
    && (r.noCallback ==> c == r)
    && (|path| > 1 ==> Crawlable(w, o, c.url) && !c.noCallback)
    && (!o.checkContent ==>
          && c.urlDepth == DepthAfter(|path| - 1)
          && (o.depth >= 0 ==> |path| - 1 <= o.depth))
  }

  ghost predicate HasOrigin(w: World, o: Options, roots: set<Command>, c: Command) {
    exists r, path :: Traced(w, o, roots, r, path, c)
  }

  /** The chain of a command found by link-following has at least one link. */
  ghost predicate FoundByLink(w: World, o: Options, roots: set<Command>, c: Command) {
    exists r, path :: Traced(w, o, roots, r, path, c) && |path| > 1
  }

  predicate Known(s: State, c: Command) {
    c in s.pending || c in s.gets || c in s.f.sent
  }

  ghost predicate AllTraced(w: World, o: Options, s: State) {
    && (forall c :: Known(s, c) ==> HasOrigin(w, o, s.roots, c))
    && (forall c :: c in s.f.sent ==> FoundByLink(w, o, s.roots, c))
  }

  lemma RootIsTraced(w: World, o: Options, roots: set<Command>, r: Command)
    requires r in roots && r.urlDepth == 0
    ensures HasOrigin(w, o, roots, r)
  {
    assert Traced(w, o, roots, r, [r.url], r);
  }

  lemma MoreRoots(w: World, o: Options, roots: set<Command>, more: set<Command>, c: Command)
    requires HasOrigin(w, o, roots, c) && roots <= more
    ensures HasOrigin(w, o, more, c)
  {
    var r, path :| Traced(w, o, roots, r, path, c);
    assert Traced(w, o, more, r, path, c);
  }

  lemma MoreRootsByLink(w: World, o: Options, roots: set<Command>, more: set<Command>, c: Command)
    requires FoundByLink(w, o, roots, c) && roots <= more
    ensures FoundByLink(w, o, more, c)
  {
    var r, path :| Traced(w, o, roots, r, path, c) && |path| > 1;
    assert Traced(w, o, more, r, path, c);
  }

  lemma LinkIsTraced(w: World, o: Options, roots: set<Command>, c: Command, k: Command)
    requires HasOrigin(w, o, roots, c)
    requires Expansion(w, o, c).Some? && SentFrom(w, o, c, Expansion(w, o, c).value, k)
    ensures HasOrigin(w, o, roots, k) && FoundByLink(w, o, roots, k)
  {
    var r, path :| Traced(w, o, roots, r, path, c);
    var longer := path + [k.url];
    ExpansionIsPageLinks(w, o, c);
    assert Edge(w, o, c.url, k.url);
    assert forall i :: 0 <= i < |longer| - 1 ==> Edge(w, o, longer[i], longer[i + 1]);
    if o.depth >= 0 && !o.checkContent {
      DepthAfterExact(|path| - 1);
    }
    assert Traced(w, o, roots, r, longer, k);
  }

  lemma GetAfterHeadIsTraced(w: World, o: Options, roots: set<Command>, c: Command)
    requires HasOrigin(w, o, roots, c) && c.verb.HEAD?
    requires o.checkContent || c.urlDepth == 0
    requires forall r :: r in roots && r.noCallback ==> r.verb.GET?
    ensures HasOrigin(w, o, roots, GetAfterHead(c))
  {
    var r, path :| Traced(w, o, roots, r, path, c);
    assert Traced(w, o, roots, r, path, GetAfterHead(c));
  }

  /** Facts about roots and HEAD commands that the chains rely on. */
  ghost predicate Shapes(w: World, o: Options, s: State) {
    && (forall r :: r in s.roots ==> RootShape(w, r))
    && (s.stage.SeedSent? ==> SeedCommand(o) in s.roots)
    && (forall c :: Known(s, c) && c.verb.HEAD? ==> c in s.roots || (o.checkContent && c in s.f.sent))
    && (forall c :: Known(s, c) && c.verb.GET? && o.checkContent ==> c.urlDepth == 0)
    && (forall c :: Known(s, c) ==> w.hasHost(c.url))
    && (forall c :: Known(s, c) && c.noCallback ==> c.verb.GET? && c in s.roots)
  }

  ghost predicate Traceable(w: World, o: Options, s: State) {
    Shapes(w, o, s) && AllTraced(w, o, s)
  }

  /** Every command known after a step was known before, or is new in one of four ways. */
  lemma NewlyKnown(w: World, o: Options, s: State, e: Event, c: Command)
    requires Enabled(w, o, s, e) && Known(Apply(w, o, s, e), c) && !Known(s, c)
    ensures e.SendSeed? || e.AddRoot? || e.VisitGet? || e.VisitHead?
    ensures e.SendSeed? ==> c == SeedCommand(o)
    ensures e.AddRoot? ==> c == e.c
    ensures e.SendSeed? || e.AddRoot? ==> c in Apply(w, o, s, e).roots && RootShape(w, c)
    ensures e.VisitHead? ==> c == GetAfterHead(s.pending[e.i]) && w.hasHost(c.url)
    ensures e.VisitGet? ==>
              var d := s.pending[e.i];
              && Expansion(w, o, d).Some? && SentFrom(w, o, d, Expansion(w, o, d).value, c)
              && c in Apply(w, o, s, e).f.sent
  {
    var t := Apply(w, o, s, e);
    match e
    case MarkSeed =>
    case SendSeed(_) =>
    case AddRoot(_) =>
    case VisitGet(i, oks) => NewlyKnownGet(w, o, s, i, oks, c);
    case VisitHead(i, ok) =>
      assert forall k :: k in Without(s.pending, i) ==> k in s.pending;
    case Drop(i) =>
    case Cancel =>
  }

  lemma NewlyKnownGet(w: World, o: Options, s: State, i: nat, oks: seq<bool>, c: Command)
    requires Enabled(w, o, s, VisitGet(i, oks)) && Known(Apply(w, o, s, VisitGet(i, oks)), c) && !Known(s, c)
    ensures var d := s.pending[i];
            && Expansion(w, o, d).Some? && SentFrom(w, o, d, Expansion(w, o, d).value, c)
            && c in Apply(w, o, s, VisitGet(i, oks)).f.sent
  {
    var t := Apply(w, o, s, VisitGet(i, oks));
    ExpandStep(w, o, s, i, oks);
    assert t.f.sent == s.f.sent + t.f.sent[|s.f.sent|..];
    assert forall k :: k in Without(s.pending, i) ==> k in s.pending;
    assert c in t.f.sent[|s.f.sent|..];
  }

  lemma RootsGrow(w: World, o: Options, s: State, e: Event)
    requires Enabled(w, o, s, e)
    ensures var t := Apply(w, o, s, e);
            && s.roots <= t.roots
            && (forall r :: r in t.roots && r !in s.roots ==> RootShape(w, r))
            && (t.stage.SeedSent? ==> s.stage.SeedSent? || SeedCommand(o) in t.roots)
    ensures s.f.sent <= Apply(w, o, s, e).f.sent
  {
    if e.VisitGet? { ExpandStep(w, o, s, e.i, e.oks); }
  }

  lemma ShapesStep(w: World, o: Options, s: State, e: Event)
    requires Enabled(w, o, s, e) && Shapes(w, o, s)
    ensures Shapes(w, o, Apply(w, o, s, e))
  {
    var t := Apply(w, o, s, e);
    RootsGrow(w, o, s, e);
    assert forall c :: c in s.f.sent ==> c in t.f.sent;
    forall c | Known(t, c) && !Known(s, c)
      ensures c.verb.HEAD? ==> c in t.roots || (o.checkContent && c in t.f.sent)
      ensures c.verb.GET? && o.checkContent ==> c.urlDepth == 0
      ensures w.hasHost(c.url)
      ensures c.noCallback ==> c.verb.GET? && c in t.roots
    {
      NewlyKnown(w, o, s, e, c);
    }
  }

  lemma TraceableStep(w: World, o: Options, s: State, e: Event)
    requires Enabled(w, o, s, e) && Traceable(w, o, s)
    ensures Traceable(w, o, Apply(w, o, s, e))
  {
    var t := Apply(w, o, s, e);
    ShapesStep(w, o, s, e);
    RootsGrow(w, o, s, e);
    forall c | c in t.f.sent ensures FoundByLink(w, o, t.roots, c) {
      SentTracedStep(w, o, s, e, c);
    }
    forall c | Known(t, c) ensures HasOrigin(w, o, t.roots, c) {
      if Known(s, c) {
        MoreRoots(w, o, s.roots, t.roots, c);
      } else {
        NewlyKnown(w, o, s, e, c);
        match e
        case SendSeed(_) => RootIsTraced(w, o, t.roots, c);
        case AddRoot(_) => RootIsTraced(w, o, t.roots, c);
        case VisitGet(i, _) =>
          assert Known(s, s.pending[i]);
          LinkIsTraced(w, o, s.roots, s.pending[i], c);
        case VisitHead(i, _) =>
          assert Known(s, s.pending[i]);
          GetAfterHeadIsTraced(w, o, s.roots, s.pending[i]);
      }
    }
  }

  lemma SentTracedStep(w: World, o: Options, s: State, e: Event, c: Command)
    requires Enabled(w, o, s, e) && Traceable(w, o, s) && c in Apply(w, o, s, e).f.sent
    ensures FoundByLink(w, o, Apply(w, o, s, e).roots, c)
  {
    var t := Apply(w, o, s, e);
    RootsGrow(w, o, s, e);
    if c in s.f.sent {
      MoreRootsByLink(w, o, s.roots, t.roots, c);
    } else {
      assert e.VisitGet?;
      ExpandStep(w, o, s, e.i, e.oks);
      assert t.f.sent == s.f.sent + t.f.sent[|s.f.sent|..];
      assert Known(s, s.pending[e.i]);
      LinkIsTraced(w, o, s.roots, s.pending[e.i], c);
    }
  }

  lemma {:induction false} InvariantsAt(w: World, o: Options, ss: seq<State>, es: seq<Event>, n: nat)
    requires IsRun(w, o, ss, es) && n <= |es|
    ensures Dedup(w, o, ss[n]) && Traceable(w, o, ss[n])
  {
    if n > 0 {
      InvariantsAt(w, o, ss, es, n - 1);
      DedupStep(w, o, ss[n - 1], es[n - 1]);
      TraceableStep(w, o, ss[n - 1], es[n - 1]);
    }
  }

  /** Provenance and dedup in every reachable state. */
  lemma ReachableInvariants(w: World, o: Options, s: State)
    requires Reachable(w, o, s)
    ensures Dedup(w, o, s)
    ensures AllTraced(w, o, s)
    ensures Shapes(w, o, s)
  {
    var ss, es :| IsRun(w, o, ss, es) && ss[|es|] == s;
    InvariantsAt(w, o, ss, es, |es|);
  }

  // Every GET command of the crawl has been handled or still waits.
  ghost predicate NoneLost(s: State) {
    forall c :: (c in s.roots || c in s.f.sent) && c.verb.GET? ==> c in s.gets || c in s.pending
  }

  lemma WithoutKeeps(cmds: seq<Command>, i: nat, c: Command)
    requires i < |cmds| && c in cmds && c != cmds[i]
    ensures c in Without(cmds, i)
  {
    var j :| 0 <= j < |cmds| && cmds[j] == c;
    assert Without(cmds, i)[if j < i then j else j - 1] == c;
  }

  lemma NoneLostGet(w: World, o: Options, s: State, i: nat, oks: seq<bool>)
    requires Enabled(w, o, s, VisitGet(i, oks)) && NoneLost(s)
    ensures NoneLost(Apply(w, o, s, VisitGet(i, oks)))
  {
    var t := Apply(w, o, s, VisitGet(i, oks));
    ExpandStep(w, o, s, i, oks);
    assert t.f.sent == s.f.sent + t.f.sent[|s.f.sent|..];
    forall c | (c in t.roots || c in t.f.sent) && c.verb.GET? ensures c in t.gets || c in t.pending {
      if c in s.pending && c != s.pending[i] { WithoutKeeps(s.pending, i, c); }
    }
  }

  lemma NoneLostStep(w: World, o: Options, s: State, e: Event)
    requires Enabled(w, o, s, e) && !s.done && NoneLost(s)
    ensures NoneLost(Apply(w, o, s, e))
  {
    if e.VisitGet? {
      NoneLostGet(w, o, s, e.i, e.oks);
    } else if e.VisitHead? {
      forall c | c in s.pending && c.verb.GET? ensures c in Apply(w, o, s, e).pending {
        WithoutKeeps(s.pending, e.i, c);
      }
    }
  }

  /** As long as the job is not done no GET command is lost: each one the client asked
      for or link-following sent has been handled or still waits. */
  lemma {:induction false} NothingIsLost(w: World, o: Options, ss: seq<State>, es: seq<Event>, n: nat)
    requires IsRun(w, o, ss, es) && n <= |es| && !ss[n].done
    ensures NoneLost(ss[n])
  {
    if n > 0 {
      assert !ss[n - 1].done by {
        if es[n - 1].VisitGet? { ExpandStep(w, o, ss[n - 1], es[n - 1].i, es[n - 1].oks); }
      }
      NothingIsLost(w, o, ss, es, n - 1);
      NoneLostStep(w, o, ss[n - 1], es[n - 1]);
    }
  }

  /** Host confinement and the depth bound, read off the chains. */
  lemma Confinement(w: World, o: Options, s: State, c: Command)
    requires Reachable(w, o, s) && c in s.f.sent
    ensures o.seedUrl != "" && !o.followOtherDomains ==> w.host(c.url) == w.host(o.seedUrl)
    ensures exists r :: r in s.roots && r.metaStr == c.metaStr
    ensures !o.checkContent && o.depth >= 0 ==> 1 <= c.urlDepth <= o.depth
  {
    ReachableInvariants(w, o, s);
    var r, path :| Traced(w, o, s.roots, r, path, c) && |path| > 1;
    if o.depth >= 0 && !o.checkContent { DepthAfterExact(|path| - 1); }
  }

  /** The filters of the two stages agree over a whole crawl: without XPath
      filters, every page that link-following found and that was fetched and read
      is shipped, or passes the follow filter and is then expanded unless NoFollow,
      Depth or an unparseable body stops it, or shows that the login has lapsed. */
  lemma NoWastedFetch(w: World, o: Options, jobID: string, s: State, k: Command, c: Command, res: Response)
    requires Reachable(w, o, s) && NoXpathFilters(o)
    requires k in s.f.sent && c in s.gets && (c == k || c == GetAfterHead(k))
    requires w.get(c.url) == Got(res) && Dispatched(o, res) && !ErrorStatus(res.status) && res.body.Some?
    ensures var e := Visit(w, o, jobID, c, w.get(c.url));
            NotWasted(o, c, e) && (e.cancel <==> LoggedOut(w, o, res.body.value))
  {
    ReachableInvariants(w, o, s);
    var r, path :| Traced(w, o, s.roots, r, path, k) && |path| > 1;
    assert Eligible(o, k.url, k.anchorText);
    FiltersAgree(w, o, jobID, c, k.anchorText, res);
  }
}
