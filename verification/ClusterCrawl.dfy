/** Whole crawls through a cluster are whole direct crawls. */
module ClusterCrawl {
  import opened CrawlTypes
  import opened PageHandler
  import opened LinkExpansion
  import opened Crawl
  import opened ClusterMode

  /** The page at `u` is served as text/html, without a redirect, and its body is
      readable unless its status is an error. */
  predicate PlainPage(w: World, u: string) {
    && w.get(u).Got? && w.get(u).res.mime == "text/html" && w.get(u).res.requestUrl == u
    && (ErrorStatus(w.get(u).res.status) || w.get(u).res.body.Some?)
  }

  /** The step meets the web only where both modes see the same: a GET at a plain
      page, a HEAD at a URL whose HEAD and GET both reach a handler. */
  predicate PlainStep(w: World, o: Options, s: State, e: Event) {
    match e
    case VisitGet(i, _) => i < |s.pending| ==> PlainPage(w, s.pending[i].url)
    case VisitHead(i, _) =>
      i < |s.pending| ==> HeadReaches(w, o, s.pending[i].url) && Answered(w.get(s.pending[i].url))
    case _ => true
  }

  /** What workerManager.Do returns for a URL; it asks for a GET whatever the
      method of the request was. For a page no worker handler takes Do waits for
      ever (ClusterDo.DoReturnsIffAnswered); the failure written here stands for
      that, and no step that PlainStep admits meets it. */
  function ThroughWorker(w: World, u: string): Outcome {
    var page := WorkerAnswer(w, "worker", u, "id", w.get(u));
    if page.Some? then Got(DoResponse(w, u, page.value.httpStatusCode, page.value.content)) else Failed("no answer")
  }

  /** The web as a server job in cluster mode sees it. */
  function ClusterWorld(w: World): World {
    w.(get := (u: string) => ThroughWorker(w, u), head := (u: string) => ThroughWorker(w, u))
  }

  lemma SameExpansion(w: World, o: Options, c: Command)
    requires PlainPage(w, c.url) && o.mimetype in {"", "text/html"}
    ensures Expansion(ClusterWorld(w), o, c) == Expansion(w, o, c)
  {
  }

  lemma {:induction false} SameLinks(
      w: World, o: Options, c: Command, anchors: seq<Anchor>, oks: seq<bool>, f: Frontier)
    requires |oks| == |anchors|
    ensures FollowLinks(ClusterWorld(w), o, c, anchors, oks, f) == FollowLinks(w, o, c, anchors, oks, f)
    decreases |anchors|
  {
    if anchors != [] {
      SameLinks(w, o, c, anchors[..|anchors| - 1], oks[..|anchors| - 1], f);
    }
  }

  lemma SameStep(w: World, o: Options, s: State, e: Event)
    requires o.mimetype in {"", "text/html"} && PlainStep(w, o, s, e)
    ensures Enabled(ClusterWorld(w), o, s, e) <==> Enabled(w, o, s, e)
    ensures Enabled(w, o, s, e) ==> Apply(ClusterWorld(w), o, s, e) == Apply(w, o, s, e)
  {
    match e
    case VisitGet(i, oks) =>
      if i < |s.pending| {
        var c := s.pending[i];
        SameExpansion(w, o, c);
        if Expansion(w, o, c).Some? && |oks| == |Expansion(w, o, c).value| {
          SameLinks(w, o, c, Expansion(w, o, c).value, oks, s.f);
        }
      }
    case VisitHead(i, ok) =>
      if i < |s.pending| {
        var u := s.pending[i].url;
        ExactlyOneAnswer(w, "worker", u, "id", w.get(u));
        assert HeadReaches(ClusterWorld(w), o, u);
      }
    case _ =>
  }

  ghost predicate StepAt(w: World, o: Options, ss: seq<State>, es: seq<Event>, i: nat)
    requires |ss| == |es| + 1 && i < |es|
  {
    Enabled(w, o, ss[i], es[i]) && ss[i + 1] == Apply(w, o, ss[i], es[i])
  }

  /** Where every step of a sequence of states meets only plain pages, it is a run
      of the crawl through workers if and only if it is a run of the same crawl
      fetching directly. The rest of the web may do as it likes. */
  lemma ClusterCrawlsTheSame(w: World, o: Options, ss: seq<State>, es: seq<Event>)
    requires o.mimetype in {"", "text/html"} && |ss| == |es| + 1
    requires forall i :: 0 <= i < |es| ==> PlainStep(w, o, ss[i], es[i])
    ensures IsRun(ClusterWorld(w), o, ss, es) <==> IsRun(w, o, ss, es)
  {
    forall i: nat | i < |es| ensures StepAt(ClusterWorld(w), o, ss, es, i) <==> StepAt(w, o, ss, es, i) {
      SameStep(w, o, ss[i], es[i]);
    }
    RunIsSteps(ClusterWorld(w), o, ss, es);
    RunIsSteps(w, o, ss, es);
  }

  lemma RunIsSteps(w: World, o: Options, ss: seq<State>, es: seq<Event>)
    requires |ss| == |es| + 1
    ensures IsRun(w, o, ss, es) <==> ss[0] == Init() && forall i: nat :: i < |es| ==> StepAt(w, o, ss, es, i)
  {
    if forall i: nat :: i < |es| ==> StepAt(w, o, ss, es, i) {
      forall i | 0 <= i < |es| ensures Enabled(w, o, ss[i], es[i]) && ss[i + 1] == Apply(w, o, ss[i], es[i]) {
        assert StepAt(w, o, ss, es, i);
      }
    }
  }
}
