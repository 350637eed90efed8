/** How much work a crawl can do: the termination measure of link-following. */
module Budget {
  import opened CrawlTypes
  import opened JobObject
  import opened Crawl
  import opened Provenance
  import opened Closure

  /** Requests that `n` URLs found by link-following cost: a GET each, or a HEAD and a GET. */
  function LinkCost(o: Options, n: nat): nat {
    if o.checkContent then 2 * n else n
  }

  lemma {:induction false} TotalCostOne(c: Command)
    ensures TotalCost([c]) == Cost(c)
  {
  }

  lemma {:induction false} TotalCostConcat(a: seq<Command>, b: seq<Command>)
    ensures TotalCost(a + b) == TotalCost(a) + TotalCost(b)
    decreases |b|
  {
    if b == [] {
      assert a + b == a;
    } else {
      var n := |b| - 1;
      TotalCostConcat(a, b[..n]);
      assert (a + b)[..|a + b| - 1] == a + b[..n];
    }
  }

  lemma {:induction false} TotalCostWithout(cmds: seq<Command>, i: nat)
    requires i < |cmds|
    ensures TotalCost(cmds) == TotalCost(Without(cmds, i)) + Cost(cmds[i])
  {
    var a, c, b := cmds[..i], cmds[i], cmds[i + 1..];
    calc {
      TotalCost(cmds);
      { assert cmds == (a + [c]) + b; }
      TotalCost((a + [c]) + b);
      { TotalCostConcat(a + [c], b); TotalCostConcat(a, [c]); TotalCostOne(c); }
      TotalCost(a) + Cost(c) + TotalCost(b);
      { TotalCostConcat(a, b); }
      TotalCost(a + b) + Cost(c);
    }
  }

  lemma {:induction false} TotalCostOfLinks(o: Options, cmds: seq<Command>)
    requires forall k :: k in cmds ==> k.verb == if o.checkContent then HEAD else GET
    ensures TotalCost(cmds) == LinkCost(o, |cmds|)
  {
    if cmds != [] {
      TotalCostOfLinks(o, cmds[..|cmds| - 1]);
    }
  }

  /** Commands handled and still to be handled never exceed what the roots and
      the links sent so far pay for. */
  ghost predicate WithinBudget(o: Options, s: State) {
    s.visits + TotalCost(s.pending) <= s.budget + LinkCost(o, |s.f.sent|)
  }

  lemma {:induction false} BudgetGet(w: World, o: Options, s: State, i: nat, oks: seq<bool>)
    requires Enabled(w, o, s, VisitGet(i, oks)) && WithinBudget(o, s)
    ensures WithinBudget(o, Apply(w, o, s, VisitGet(i, oks)))
  {
    var t := Apply(w, o, s, VisitGet(i, oks));
    ExpandStep(w, o, s, i, oks);
    var added := t.f.sent[|s.f.sent|..];
    TotalCostWithout(s.pending, i);
    TotalCostConcat(Without(s.pending, i), added);
    NewLinksAreLinks(w, o, s, i, oks);
    TotalCostOfLinks(o, added);
  }

  lemma NewLinksAreLinks(w: World, o: Options, s: State, i: nat, oks: seq<bool>)
    requires Enabled(w, o, s, VisitGet(i, oks))
    ensures var t := Apply(w, o, s, VisitGet(i, oks));
            s.f.sent <= t.f.sent
            && forall k :: k in t.f.sent[|s.f.sent|..] ==> k.verb == if o.checkContent then HEAD else GET
  {
    ExpandStep(w, o, s, i, oks);
  }

  lemma {:induction false} BudgetStep(w: World, o: Options, s: State, e: Event)
    requires Enabled(w, o, s, e) && WithinBudget(o, s)
    ensures WithinBudget(o, Apply(w, o, s, e))
  {
    match e
    case MarkSeed =>
    case SendSeed(_) =>
      TotalCostConcat(s.pending, [SeedCommand(o)]);
      TotalCostOne(SeedCommand(o));
    case AddRoot(c) =>
      TotalCostConcat(s.pending, [c]);
      TotalCostOne(c);
    case VisitGet(i, oks) => BudgetGet(w, o, s, i, oks);
    case VisitHead(i, ok) =>
      var get := GetAfterHead(s.pending[i]);
      TotalCostWithout(s.pending, i);
      TotalCostConcat(Without(s.pending, i), [get]);
      TotalCostOne(get);
    case Drop(i) => TotalCostWithout(s.pending, i);
    case Cancel =>
  }

  lemma {:induction false} BudgetAt(w: World, o: Options, ss: seq<State>, es: seq<Event>, n: nat)
    requires IsRun(w, o, ss, es) && n <= |es|
    ensures WithinBudget(o, ss[n])
  {
    if n > 0 {
      BudgetAt(w, o, ss, es, n - 1);
      BudgetStep(w, o, ss[n - 1], es[n - 1]);
    }
  }

  /** `universe` holds every URL that following links from the roots can reach. */
  ghost predicate Universe(w: World, o: Options, roots: set<string>, universe: set<string>) {
    forall u, v :: (u in roots || u in universe) && Edge(w, o, u, v) ==> v in universe
  }

  lemma SentInUniverse(w: World, o: Options, s: State, universe: set<string>, k: Command)
    requires AllTraced(w, o, s) && k in s.f.sent && Universe(w, o, RootUrls(s), universe)
    ensures k.url in universe
  {
    SentAreCallbacks(w, o, s, k);
    var r, path :| Traced(w, o, s.roots, r, path, k) && |path| > 1;
    var n := |path| - 1;
    assert r.url in RootUrls(s);
    assert Chain(w, o, path[..n]);
    ChainStaysInside(w, o, path[..n], Infinite(RootUrls(s) + universe));
    assert Edge(w, o, path[n - 1], path[n]);
  }

  lemma {:induction false} DistinctUrlsCount(cmds: seq<Command>)
    requires DistinctUrls(cmds)
    ensures |Urls(cmds)| == |cmds|
  {
    if cmds != [] {
      var n := |cmds| - 1;
      DistinctUrlsCount(cmds[..n]);
      UrlsOfSplit(cmds, n);
      assert cmds[n..] == [cmds[n]];
      assert Urls([cmds[n]]) == {cmds[n].url};
      assert cmds[n].url !in Urls(cmds[..n]);
    }
  }

  /** Every crawl is finite work: with a universe of n URLs, link-following sends
      at most n commands, so the queue hands out at most the roots' own requests
      plus n more (2n with CheckContent), in every run and however sends fail. */
  lemma CrawlIsBounded(w: World, o: Options, s: State, universe: set<string>)
    requires Reachable(w, o, s) && Universe(w, o, RootUrls(s), universe)
    ensures |s.f.sent| <= |universe|
    ensures |s.gets| <= s.visits <= s.budget + LinkCost(o, |universe|)
  {
    ReachableInvariants(w, o, s);
    forall k | k in s.f.sent ensures k.url in universe {
      SentInUniverse(w, o, s, universe, k);
    }
    DistinctUrlsCount(s.f.sent);
    SubsetSize(Urls(s.f.sent), universe);
    var ss, es :| IsRun(w, o, ss, es) && ss[|es|] == s;
    BudgetAt(w, o, ss, es, |es|);
    GetsAreVisits(w, o, ss, es, |es|);
  }

  lemma {:induction false} GetsAreVisits(w: World, o: Options, ss: seq<State>, es: seq<Event>, n: nat)
    requires IsRun(w, o, ss, es) && n <= |es|
    ensures |ss[n].gets| <= ss[n].visits
  {
    if n > 0 {
      GetsAreVisits(w, o, ss, es, n - 1);
      var e := es[n - 1];
      if e.VisitGet? { ExpandStep(w, o, ss[n - 1], e.i, e.oks); }
    }
  }

  // ---- termination ---------------------------------------------------------------------

  /** The events of a run that take a command from the queue. */
  function Handlings(es: seq<Event>): nat {
    if es == [] then 0
    else Handlings(es[..|es| - 1]) + (if Handles(es[|es| - 1]) then 1 else 0)
  }

  predicate Handles(e: Event) {
    e.VisitGet? || e.VisitHead? || e.Drop?
  }

  lemma {:induction false} HandlingsAreVisits(w: World, o: Options, ss: seq<State>, es: seq<Event>, n: nat)
    requires IsRun(w, o, ss, es) && n <= |es|
    ensures Handlings(es[..n]) == ss[n].visits
  {
    if n > 0 {
      HandlingsAreVisits(w, o, ss, es, n - 1);
      assert es[..n][..n - 1] == es[..n - 1];
      var e := es[n - 1];
      if e.VisitGet? { ExpandStep(w, o, ss[n - 1], e.i, e.oks); }
    }
  }

  /** No schedule handles commands for ever: a run takes at most as many commands
      as its roots and its universe of URLs pay for. */
  lemma CrawlEnds(w: World, o: Options, ss: seq<State>, es: seq<Event>, universe: set<string>)
    requires IsRun(w, o, ss, es) && Universe(w, o, RootUrls(ss[|es|]), universe)
    ensures Handlings(es) <= ss[|es|].budget + LinkCost(o, |universe|)
  {
    HandlingsAreVisits(w, o, ss, es, |es|);
    assert es[..|es|] == es;
    assert Reachable(w, o, ss[|es|]);
    CrawlIsBounded(w, o, ss[|es|], universe);
  }

  /** Every HEAD request the crawl may make reaches its handler: those the client
      asked for and, with CheckContent on, those for links. */
  ghost predicate HeadsReach(w: World, o: Options, roots: set<Command>, universe: set<string>) {
    && (forall r :: r in roots && r.verb.HEAD? ==> HeadReaches(w, o, r.url))
    && (o.checkContent ==> forall u :: u in universe ==> HeadReaches(w, o, u))
  }

  /** While commands wait, the crawl can go on undisturbed. */
  function NextEvent(w: World, o: Options, s: State): Event
    requires s.pending != []
  {
    if s.pending[0].verb.HEAD? then VisitHead(0, true)
    else
      var x := Expansion(w, o, s.pending[0]);
      VisitGet(0, seq(if x.Some? then |x.value| else 0, _ => true))
  }

  lemma NextEventIsUndisturbed(w: World, o: Options, s: State)
    requires s.pending != []
    requires s.pending[0].verb.HEAD? ==> HeadReaches(w, o, s.pending[0].url)
    ensures var e := NextEvent(w, o, s); Enabled(w, o, s, e) && Undisturbed(w, o, s, e)
  {
  }

  lemma Continue(w: World, o: Options, ss: seq<State>, es: seq<Event>, e: Event)
    returns (ss': seq<State>, es': seq<Event>)
    requires UndisturbedRun(w, o, ss, es) && Enabled(w, o, ss[|es|], e) && Undisturbed(w, o, ss[|es|], e)
    ensures UndisturbedRun(w, o, ss', es') && es' == es + [e] && ss' == ss + [Apply(w, o, ss[|es|], e)]
  {
    ss', es' := ss + [Apply(w, o, ss[|es|], e)], es + [e];
  }

  /** The roots of the crawl once RunJob has sent its seed. */
  function AllRoots(o: Options, s: State): set<Command> {
    s.roots + (if o.seedUrl == "" then {} else {SeedCommand(o)})
  }

  /** What those roots may cost. */
  function AllBudget(o: Options, s: State): nat {
    s.budget + (if Seeded(o, s) then 0 else 1)
  }

  /** RunJob can always go on to send its seed. */
  lemma FinishSeeding(w: World, o: Options, ss: seq<State>, es: seq<Event>) returns (ss': seq<State>, es': seq<Event>)
    requires UndisturbedRun(w, o, ss, es) && (o.seedUrl != "" ==> SeedSendable(w, o))
    ensures UndisturbedRun(w, o, ss', es') && es <= es' && Seeded(o, ss'[|es'|])
    ensures ss'[|es'|].roots == AllRoots(o, ss[|es|]) && ss'[|es'|].budget == AllBudget(o, ss[|es|])
    ensures ss'[|es'|].pending == ss[|es|].pending + (if Seeded(o, ss[|es|]) then [] else [SeedCommand(o)])
    ensures ss'[|es'|].f.sent == ss[|es|].f.sent
  {
    InvariantsAt(w, o, ss, es, |es|);
    NeverRefused(w, o, ss, es, |es|);
    ss', es' := ss, es;
    if o.seedUrl != "" && ss'[|es'|].stage.Unmarked? {
      ss', es' := Continue(w, o, ss', es', MarkSeed);
    }
    if ss'[|es'|].stage.SeedMarked? {
      ss', es' := Continue(w, o, ss', es', SendSeed(true));
    }
  }

  lemma {:induction false} NeverRefused(w: World, o: Options, ss: seq<State>, es: seq<Event>, n: nat)
    requires UndisturbedRun(w, o, ss, es) && n <= |es|
    ensures !ss[n].stage.SeedRefused? && (o.seedUrl == "" ==> ss[n].stage.Unmarked?)
  {
    if n > 0 {
      NeverRefused(w, o, ss, es, n - 1);
      var e := es[n - 1];
      assert Undisturbed(w, o, ss[n - 1], e);
      if e.VisitGet? { ExpandStep(w, o, ss[n - 1], e.i, e.oks); }
    }
  }

  /** Total correctness: any undisturbed run over a finite universe of URLs, the
      HEAD requests of which reach their handler, can be continued until RunJob has
      sent its seed and the queue is empty, within the bound, and has then fetched
      exactly the least closed set. */
  lemma CrawlFinishes(w: World, o: Options, ss: seq<State>, es: seq<Event>, universe: set<string>)
    returns (ss': seq<State>, es': seq<Event>)
    requires UndisturbedRun(w, o, ss, es) && (o.seedUrl != "" ==> SeedSendable(w, o))
    requires Universe(w, o, UrlsToFetch(AllRoots(o, ss[|es|])), universe)
    requires HeadsReach(w, o, AllRoots(o, ss[|es|]), universe)
    ensures UndisturbedRun(w, o, ss', es') && es <= es' && Finished(o, ss'[|es'|])
    ensures ss'[|es'|].roots == AllRoots(o, ss[|es|])
    ensures Handlings(es') <= AllBudget(o, ss[|es|]) + LinkCost(o, |universe|)
    ensures FollowsFreely(o) ==> LeastClosed(w, o, UrlsToFetch(AllRoots(o, ss[|es|])), Fetched(ss'[|es'|]))
  {
    ss', es' := FinishSeeding(w, o, ss, es);
    ss', es' := EmptyQueue(w, o, ss', es', universe);
    CrawlEnds(w, o, ss', es', universe);
    if FollowsFreely(o) { ScheduleIndependence(w, o, ss', es'); }
  }

  lemma {:induction false} EmptyQueue(w: World, o: Options, ss: seq<State>, es: seq<Event>, universe: set<string>)
    returns (ss': seq<State>, es': seq<Event>)
    requires UndisturbedRun(w, o, ss, es) && Universe(w, o, RootUrls(ss[|es|]), universe)
    requires HeadsReach(w, o, ss[|es|].roots, universe)
    ensures UndisturbedRun(w, o, ss', es') && es <= es' && ss'[|es'|].pending == []
    ensures var s, t := ss[|es|], ss'[|es'|]; t.roots == s.roots && t.budget == s.budget && t.stage == s.stage
    decreases ss[|es|].budget + LinkCost(o, |universe|) - ss[|es|].visits
  {
    var s := ss[|es|];
    if s.pending == [] {
      ss', es' := ss, es;
    } else {
      var e := NextEvent(w, o, s);
      if s.pending[0].verb.HEAD? { HeadOfQueueReaches(w, o, ss, es, universe); }
      NextEventIsUndisturbed(w, o, s);
      ss', es' := Continue(w, o, ss, es, e);
      var t := ss'[|es'|];
      VisitCosts(w, o, s, e);
      assert Reachable(w, o, t);
      CrawlIsBounded(w, o, t, universe);
      ss', es' := EmptyQueue(w, o, ss', es', universe);
    }
  }

  lemma HeadOfQueueReaches(w: World, o: Options, ss: seq<State>, es: seq<Event>, universe: set<string>)
    requires IsRun(w, o, ss, es) && Universe(w, o, RootUrls(ss[|es|]), universe)
    requires HeadsReach(w, o, ss[|es|].roots, universe)
    requires ss[|es|].pending != [] && ss[|es|].pending[0].verb.HEAD?
    ensures HeadReaches(w, o, ss[|es|].pending[0].url)
  {
    InvariantsAt(w, o, ss, es, |es|);
    var s, c := ss[|es|], ss[|es|].pending[0];
    assert Known(s, c);
    if c !in s.roots { SentInUniverse(w, o, s, universe, c); }
  }

  lemma VisitCosts(w: World, o: Options, s: State, e: Event)
    requires Enabled(w, o, s, e) && (e.VisitGet? || e.VisitHead?)
    ensures var t := Apply(w, o, s, e);
            t.visits == s.visits + 1 && t.roots == s.roots && t.budget == s.budget && t.stage == s.stage
  {
  }
}
