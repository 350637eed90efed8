/** What a finished crawl has fetched, whatever order its commands were handled in. */
module Closure {
  import opened CrawlTypes
  import opened LinkExpansion
  import opened JobObject
  import opened Crawl
  import opened Provenance

  // ---- schedule independence ----------------------------------------------------

  /** Following is on and Depth stops nothing. A HEAD request resets the depth to
      0, so with CheckContent on any positive Depth is no limit either. */
  predicate FollowsFreely(o: Options) {
    !o.noFollow && (o.depth < 0 || (o.checkContent && o.depth > 0))
  }

  /** The queue stays open, the seed can be sent, nothing is cancelled and each
      HEAD reaches its handler. */
  predicate Undisturbed(w: World, o: Options, s: State, e: Event) {
    match e
    case MarkSeed => true
    case SendSeed(ok) => ok && SeedSendable(w, o)
    case AddRoot(_) => true
    case VisitGet(i, oks) => AllTrue(oks)
    case VisitHead(i, ok) => ok && (i < |s.pending| ==> HeadReaches(w, o, s.pending[i].url))
    case Drop(_) => false
    case Cancel => false
  }

  ghost predicate UndisturbedRun(w: World, o: Options, ss: seq<State>, es: seq<Event>) {
    IsRun(w, o, ss, es) && forall i :: 0 <= i < |es| ==> Undisturbed(w, o, ss[i], es[i])
  }

  /** RunJob has sent its seed, if it has one. */
  predicate Seeded(o: Options, s: State) {
    o.seedUrl != "" ==> s.stage.SeedSent?
  }

  /** RunJob waits in Block and no command is left. */
  predicate Finished(o: Options, s: State) {
    Seeded(o, s) && s.pending == []
  }

  /** The URLs that roots ask to have fetched for the client's sake. */
  function UrlsToFetch(roots: set<Command>): set<string> {
    set r | r in roots && !r.noCallback :: r.url
  }

  function RootUrls(s: State): set<string> {
    UrlsToFetch(s.roots)
  }

  ghost predicate Closed(w: World, o: Options, urls: iset<string>) {
    forall u, v :: u in urls && Edge(w, o, u, v) ==> v in urls
  }

  ghost function Infinite(urls: set<string>): iset<string> {
    iset u | u in urls
  }

  /** `fetched` is the least set that has the roots and is closed under the
      eligible crawlable links of its follow-matching pages. */
  ghost predicate LeastClosed(w: World, o: Options, roots: set<string>, fetched: set<string>) {
    && roots <= fetched
    && Closed(w, o, Infinite(fetched))
    && forall urls: iset<string> ::
         (forall u :: u in roots ==> u in urls) && Closed(w, o, urls) ==> forall u :: u in fetched ==> u in urls
  }

  ghost predicate Served(s: State, u: string) {
    u in Fetched(s) || exists k :: k in s.pending && k.url == u && !k.noCallback
  }

  ghost predicate Complete(w: World, o: Options, s: State) {
    && !s.done
    && (forall c :: (c in s.roots || c in s.f.sent) && !c.noCallback ==> Served(s, c.url))
    && (forall u, v :: u in Fetched(s) && Edge(w, o, u, v) ==>
          (IsSeed(o, v) && !s.stage.Unmarked?) || v in Urls(s.f.sent))
  }

  lemma ServedAfterGet(s: State, i: nat, t: State, u: string)
    requires i < |s.pending| && t.gets == s.gets + [s.pending[i]]
    requires Without(s.pending, i) <= t.pending
    requires Served(s, u)
    ensures Served(t, u)
  {
    if u !in Fetched(s) {
      var k :| k in s.pending && k.url == u && !k.noCallback;
      if k == s.pending[i] {
        assert k in t.gets;
      } else {
        assert k in Without(s.pending, i);
      }
    }
  }

  lemma GetKeepsServed(w: World, o: Options, s: State, i: nat, oks: seq<bool>)
    requires Enabled(w, o, s, VisitGet(i, oks)) && Complete(w, o, s)
    ensures var t := Apply(w, o, s, VisitGet(i, oks));
            forall c :: (c in t.roots || c in t.f.sent) && !c.noCallback ==> Served(t, c.url)
  {
    var t := Apply(w, o, s, VisitGet(i, oks));
    ExpandStep(w, o, s, i, oks);
    forall c | (c in t.roots || c in t.f.sent) && !c.noCallback ensures Served(t, c.url) {
      if c in s.roots || c in s.f.sent {
        ServedAfterGet(s, i, t, c.url);
      } else {
        assert t.f.sent == s.f.sent + t.f.sent[|s.f.sent|..];
        assert c in t.pending;
      }
    }
  }

  lemma GetClosesPage(w: World, o: Options, s: State, i: nat, oks: seq<bool>, v: string)
    requires Enabled(w, o, s, VisitGet(i, oks)) && AllTrue(oks) && FollowsFreely(o)
    requires !s.done && Dedup(w, o, s) && Shapes(w, o, s)
    requires !s.pending[i].noCallback && Edge(w, o, s.pending[i].url, v)
    ensures (IsSeed(o, v) && !s.stage.Unmarked?) || v in Urls(Apply(w, o, s, VisitGet(i, oks)).f.sent)
  {
    var c := s.pending[i];
    assert Known(s, c);
    ExpansionIsPageLinks(w, o, c);
    OpenQueueMarks(w, o, c, Expansion(w, o, c).value, oks, s.f, v);
    DedupStep(w, o, s, VisitGet(i, oks));
  }

  lemma CompleteGet(w: World, o: Options, s: State, i: nat, oks: seq<bool>)
    requires Enabled(w, o, s, VisitGet(i, oks)) && AllTrue(oks) && FollowsFreely(o)
    requires Dedup(w, o, s) && Shapes(w, o, s) && Complete(w, o, s)
    ensures Complete(w, o, Apply(w, o, s, VisitGet(i, oks)))
  {
    var t := Apply(w, o, s, VisitGet(i, oks));
    ExpandStep(w, o, s, i, oks);
    GetKeepsServed(w, o, s, i, oks);
    UrlsOfSplit(t.f.sent, |s.f.sent|);
    assert t.f.sent[..|s.f.sent|] == s.f.sent;
    forall u, v | u in Fetched(t) && Edge(w, o, u, v)
      ensures (IsSeed(o, v) && !t.stage.Unmarked?) || v in Urls(t.f.sent)
    {
      if u !in Fetched(s) {
        GetClosesPage(w, o, s, i, oks, v);
      }
    }
  }

  lemma CompleteOther(w: World, o: Options, s: State, e: Event)
    requires Enabled(w, o, s, e) && Undisturbed(w, o, s, e) && !e.VisitGet?
    requires Shapes(w, o, s) && Complete(w, o, s)
    ensures Complete(w, o, Apply(w, o, s, e))
  {
  }

  lemma {:induction false} CompleteAt(w: World, o: Options, ss: seq<State>, es: seq<Event>, n: nat)
    requires UndisturbedRun(w, o, ss, es) && FollowsFreely(o) && n <= |es|
    ensures Complete(w, o, ss[n])
  {
    if n > 0 {
      CompleteAt(w, o, ss, es, n - 1);
      InvariantsAt(w, o, ss, es, n - 1);
      var e := es[n - 1];
      if e.VisitGet? {
        CompleteGet(w, o, ss[n - 1], e.i, e.oks);
      } else {
        CompleteOther(w, o, ss[n - 1], e);
      }
    }
  }

  lemma {:induction false} ChainStaysInside(w: World, o: Options, path: seq<string>, urls: iset<string>)
    requires Chain(w, o, path) && path[0] in urls && Closed(w, o, urls)
    ensures path[|path| - 1] in urls
    decreases |path|
  {
    if |path| > 1 {
      var n := |path| - 1;
      ChainStaysInside(w, o, path[..n], urls);
      assert Edge(w, o, path[n - 1], path[n]);
    }
  }

  /** Nothing is ever fetched that a closed set with the roots leaves out. */
  lemma FetchedIsLeast(w: World, o: Options, s: State, urls: iset<string>, u: string)
    requires Shapes(w, o, s) && AllTraced(w, o, s)
    requires (forall r :: r in RootUrls(s) ==> r in urls) && Closed(w, o, urls)
    requires u in Fetched(s)
    ensures u in urls
  {
    var c :| c in s.gets && !c.noCallback && c.url == u;
    assert Known(s, c);
    var r, path :| Traced(w, o, s.roots, r, path, c);
    ChainStaysInside(w, o, path, urls);
  }

  /** A crawl that empties its queue has fetched exactly the least closed set,
      whatever the order in which commands were handled. */
  lemma ScheduleIndependence(w: World, o: Options, ss: seq<State>, es: seq<Event>)
    requires UndisturbedRun(w, o, ss, es) && FollowsFreely(o) && Finished(o, ss[|es|])
    ensures LeastClosed(w, o, RootUrls(ss[|es|]), Fetched(ss[|es|]))
  {
    var s := ss[|es|];
    InvariantsAt(w, o, ss, es, |es|);
    CompleteAt(w, o, ss, es, |es|);
    forall u | u in RootUrls(s) ensures u in Fetched(s) {
      assert Served(s, u);
    }
    forall u, v | u in Fetched(s) && Edge(w, o, u, v) ensures v in Fetched(s) {
      if v in Urls(s.f.sent) {
        var k :| k in s.f.sent && k.url == v;
        assert Known(s, k);
        SentAreCallbacks(w, o, s, k);
        assert Served(s, v);
      } else {
        assert SeedCommand(o) in s.roots;
        assert Served(s, v);
      }
    }
    forall urls: iset<string>, u | (forall r :: r in RootUrls(s) ==> r in urls) && Closed(w, o, urls) && u in Fetched(s)
      ensures u in urls
    {
      FetchedIsLeast(w, o, s, urls, u);
    }
  }

  /** Link-following never sends a noCallback command. */
  lemma SentAreCallbacks(w: World, o: Options, s: State, k: Command)
    requires AllTraced(w, o, s) && k in s.f.sent
    ensures !k.noCallback
  {
  }

  /** Two undisturbed crawls with the same roots fetch the same URLs. */
  lemma SameRootsSameFetch(
      w: World, o: Options, ss: seq<State>, es: seq<Event>, ss': seq<State>, es': seq<Event>)
    requires UndisturbedRun(w, o, ss, es) && Finished(o, ss[|es|])
    requires UndisturbedRun(w, o, ss', es') && Finished(o, ss'[|es'|])
    requires FollowsFreely(o) && RootUrls(ss[|es|]) == RootUrls(ss'[|es'|])
    ensures Fetched(ss[|es|]) == Fetched(ss'[|es'|])
  {
    ScheduleIndependence(w, o, ss, es);
    ScheduleIndependence(w, o, ss', es');
    var f, f' := Fetched(ss[|es|]), Fetched(ss'[|es'|]);
    assert forall u :: u in f ==> u in Infinite(f');
    assert forall u :: u in f' ==> u in Infinite(f);
  }
}
