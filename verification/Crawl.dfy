/** A whole crawl as a state machine: commands wait in the queue and any waiting
    one may be handled next. The handlers are the ones of job.go; a GET handler's
    expansion is one step because enqueueLinks holds the job's mutex. */
module Crawl {
  import opened CrawlTypes
  import opened PageHandler
  import opened LinkExpansion
  import opened JobObject

  datatype State = State(
    f: Frontier,              // `duplicates`, and every command link-following sent
    pending: seq<Command>,    // commands accepted by the queue and not yet handled
    roots: set<Command>,      // the seed and the pages added by the client
    gets: seq<Command>,       // the GET commands handled so far
    expanded: set<Command>,   // the commands whose links were expanded
    visits: nat,              // commands taken from the queue so far
    budget: nat,              // what the roots alone may cost in requests
    done: bool,
    stage: Stage,
    early: nat)               // commands link-following had sent when the seed was marked

  // RunJob marks the seed and then sends it, while pages added by the client may
  // already be under way. A job without a seed stays Unmarked.
  datatype Stage = Unmarked | SeedMarked | SeedSent | SeedRefused

  datatype Event =
    | MarkSeed
    | SendSeed(ok: bool)
    | AddRoot(c: Command)
    | VisitGet(i: nat, oks: seq<bool>)
    | VisitHead(i: nat, ok: bool)
    | Drop(i: nat)
    | Cancel

  function Cost(c: Command): nat {
    if c.verb.GET? then 1 else 2
  }

  function TotalCost(cmds: seq<Command>): nat {
    if cmds == [] then 0 else TotalCost(cmds[..|cmds| - 1]) + Cost(cmds[|cmds| - 1])
  }

  function Init(): State {
    State(Frontier({}, []), [], {}, [], {}, 0, 0, false, Unmarked, 0)
  }

  /** The anchors that handling a GET command expands, if any. */
  function Expansion(w: World, o: Options, c: Command): Option<seq<Anchor>> {
    Visit(w, o, "", c, w.get(c.url)).expand
  }

  predicate HeadReaches(w: World, o: Options, url: string) {
    w.head(url).Got? && Dispatched(o, w.head(url).res)
  }

  predicate Enabled(w: World, o: Options, s: State, e: Event) {
    match e
    case MarkSeed => o.seedUrl != "" && s.stage.Unmarked?
    case SendSeed(_) => s.stage.SeedMarked?
    case AddRoot(c) => RootShape(w, c)
    case VisitGet(i, oks) =>
      && i < |s.pending| && s.pending[i].verb.GET?
      && var x := Expansion(w, o, s.pending[i]); (x.Some? ==> |oks| == |x.value|)
    case VisitHead(i, ok) => i < |s.pending| && s.pending[i].verb.HEAD?
    case Drop(i) => i < |s.pending| && s.done
    case Cancel => true
  }

  function Without(cmds: seq<Command>, i: nat): seq<Command>
    requires i < |cmds|
  {
    cmds[..i] + cmds[i + 1..]
  }

  function Take(s: State, i: nat): State
    requires i < |s.pending|
  {
    s.(pending := Without(s.pending, i), visits := s.visits + 1)
  }

  function Expand(w: World, o: Options, s: State, c: Command, anchors: seq<Anchor>, oks: seq<bool>): State
    requires |oks| == |anchors|
  {
    var f := FollowLinks(w, o, c, anchors, oks, s.f);
    FollowLinksSpec(w, o, c, anchors, oks, s.f);
    s.(f := f, pending := s.pending + f.sent[|s.f.sent|..], expanded := s.expanded + {c})
  }

  function Root(s: State, c: Command): State {
    s.(pending := s.pending + [c], roots := s.roots + {c}, budget := s.budget + Cost(c))
  }

  predicate SeedSendable(w: World, o: Options) {
    w.parses(o.seedUrl) && w.hasHost(o.seedUrl)
  }

  /** One step. A seed that cannot be sent ends the job. */
  function Apply(w: World, o: Options, s: State, e: Event): State
    requires Enabled(w, o, s, e)
  {
    match e
    case MarkSeed => s.(f := s.f.(marked := s.f.marked + {o.seedUrl}), stage := SeedMarked, early := |s.f.sent|)
    case SendSeed(ok) =>
      if ok && SeedSendable(w, o) then Root(s, SeedCommand(o)).(stage := SeedSent)
      else s.(done := true, stage := SeedRefused)
    case AddRoot(c) => Root(s, c)
    case VisitGet(i, oks) =>
      var c, t := s.pending[i], Take(s, i);
      var t := t.(gets := t.gets + [c]);
      var x := Expansion(w, o, c);
      if !s.done && x.Some? then Expand(w, o, t, c, x.value, oks) else t
    case VisitHead(i, ok) =>
      var c, t := s.pending[i], Take(s, i);
      if !s.done && HeadReaches(w, o, c.url) && ok && w.hasHost(c.url)
      then t.(pending := t.pending + [GetAfterHead(c)])
      else t
    case Drop(i) => Take(s, i)
    case Cancel => s.(done := true)
  }

  /** A run of the crawl: `ss[0]` is the start and `es[i]` leads from `ss[i]` to `ss[i + 1]`. */
  ghost predicate IsRun(w: World, o: Options, ss: seq<State>, es: seq<Event>) {
    && |ss| == |es| + 1
    && ss[0] == Init()
    && forall i :: 0 <= i < |es| ==> Enabled(w, o, ss[i], es[i]) && ss[i + 1] == Apply(w, o, ss[i], es[i])
  }

  ghost predicate Reachable(w: World, o: Options, s: State) {
    exists ss, es :: IsRun(w, o, ss, es) && ss[|es|] == s
  }

  /** The URLs fetched with GET for the client's sake. */
  function Fetched(s: State): set<string> {
    set c | c in s.gets && !c.noCallback :: c.url
  }

  // ---- the follow graph --------------------------------------------------------

  /** The links of the page at `u` that a crawl may follow, whatever command fetched it. */
  function PageLinks(w: World, o: Options, u: string): Option<seq<Anchor>> {
    match w.get(u)
    case Failed(_) => None
    case Got(res) =>
      if && Dispatched(o, res) && !ErrorStatus(res.status) && res.body.Some? && !LoggedOut(w, o, res.body.value)
         && !o.noFollow && Passes(o.followUrl, u)
      then w.links(res.requestUrl, res.body.value)
      else None
  }

  ghost predicate Edge(w: World, o: Options, u: string, v: string) {
    PageLinks(w, o, u).Some? && LinksTo(o, PageLinks(w, o, u).value, v) && Crawlable(w, o, v)
  }

  ghost predicate Chain(w: World, o: Options, path: seq<string>) {
    path != [] && forall i :: 0 <= i < |path| - 1 ==> Edge(w, o, path[i], path[i + 1])
  }

  lemma ExpansionIsPageLinks(w: World, o: Options, c: Command)
    ensures Expansion(w, o, c) ==
            if !c.noCallback && (o.depth < 0 || c.urlDepth < o.depth) then PageLinks(w, o, c.url) else None
  {
  }

  /** What a GET step does to the state, for use in the invariants below. */
  ghost predicate Expanded(w: World, o: Options, s: State, t: State, c: Command, anchors: seq<Anchor>) {
    && s.f.sent <= t.f.sent
    && SentSpec(w, o, c, anchors, s.f, t.f)
    && MarkedSpec(w, o, anchors, s.f, t.f)
    && s.f.marked <= t.f.marked
    && t.expanded == s.expanded + {c}
    && t.stage == s.stage && t.early == s.early
  }

  lemma ExpandStep(w: World, o: Options, s: State, i: nat, oks: seq<bool>)
    requires Enabled(w, o, s, VisitGet(i, oks))
    ensures var c, t, x := s.pending[i], Apply(w, o, s, VisitGet(i, oks)), Expansion(w, o, s.pending[i]);
            && t.gets == s.gets + [c] && t.visits == s.visits + 1
            && t.roots == s.roots && t.budget == s.budget && t.done == s.done
            && t.stage == s.stage && t.early == s.early
            && s.f.sent <= t.f.sent
            && t.pending == Without(s.pending, i) + t.f.sent[|s.f.sent|..]
            && (if !s.done && x.Some? then Expanded(w, o, s, t, c, x.value) else t.f == s.f && t.expanded == s.expanded)
  {
    var c, x := s.pending[i], Expansion(w, o, s.pending[i]);
    if !s.done && x.Some? {
      FollowLinksSpec(w, o, c, x.value, oks, s.f);
    } else {
      assert s.f.sent[|s.f.sent|..] == [];
    }
  }

  // ---- dedup -----------------------------------------------------------------

  ghost predicate Seen(w: World, o: Options, s: State, u: string) {
    exists c :: c in s.expanded && Expansion(w, o, c).Some? && LinksTo(o, Expansion(w, o, c).value, u)
  }

  ghost predicate IsSeed(o: Options, u: string) {
    o.seedUrl != "" && u == o.seedUrl
  }

  /** `duplicates` is exactly the seed once marked, the URLs link-following sent and
      the eligible off-domain URLs seen. No URL is sent twice, and the seed is not
      sent by link-following after it was marked. */
  ghost predicate Dedup(w: World, o: Options, s: State) {
    && DistinctUrls(s.f.sent)
    && (forall k :: k in s.f.sent ==> Crawlable(w, o, k.url) && Eligible(o, k.url, k.anchorText))
    && s.early <= |s.f.sent| && (s.stage.Unmarked? ==> s.early == 0)
    && (!s.stage.Unmarked? ==> forall i :: s.early <= i < |s.f.sent| ==> !IsSeed(o, s.f.sent[i].url))
    && forall u :: u in s.f.marked <==>
                   || (IsSeed(o, u) && !s.stage.Unmarked?)
                   || u in Urls(s.f.sent)
                   || (!OnDomain(w, o, u) && Seen(w, o, s, u))
  }

  lemma UrlsOfSplit(cmds: seq<Command>, n: nat)
    requires n <= |cmds|
    ensures Urls(cmds) == Urls(cmds[..n]) + Urls(cmds[n..])
  {
  }

  lemma DedupExpand(w: World, o: Options, s: State, t: State, c: Command)
    requires Dedup(w, o, s) && Expansion(w, o, c).Some?
    requires Expanded(w, o, s, t, c, Expansion(w, o, c).value)
    ensures Dedup(w, o, t)
  {
  }

  lemma DedupStep(w: World, o: Options, s: State, e: Event)
    requires Enabled(w, o, s, e) && Dedup(w, o, s)
    ensures Dedup(w, o, Apply(w, o, s, e))
  {
    var t := Apply(w, o, s, e);
    if !e.VisitGet? || s.done || Expansion(w, o, s.pending[e.i]).None? {
      assert t.f.sent == s.f.sent && t.expanded == s.expanded;
      assert forall u :: Seen(w, o, t, u) <==> Seen(w, o, s, u);
    } else {
      ExpandStep(w, o, s, e.i, e.oks);
      DedupExpand(w, o, s, t, s.pending[e.i]);
    }
  }
}
