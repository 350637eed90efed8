/** A crawl handled one page at a time in send order is a breadth-first search. */
module BreadthFirst {
  import opened CrawlTypes
  import opened LinkExpansion
  import opened JobObject
  import opened Crawl
  import opened Closure

  /** The seed is the only root, the queue stays open, HEAD requests are off, and
      the oldest pending command is always the next one handled. */
  ghost predicate FifoRun(w: World, o: Options, ss: seq<State>, es: seq<Event>) {
    && UndisturbedRun(w, o, ss, es)
    && o.seedUrl != "" && !o.checkContent
    && forall i :: 0 <= i < |es| ==> es[i].MarkSeed? || es[i].SendSeed? || (es[i].VisitGet? && es[i].i == 0)
  }

  /** There is a follow path of exactly `n` links from `u` to `v`. */
  ghost predicate ReachIn(w: World, o: Options, u: string, v: string, n: nat) {
    exists path :: Chain(w, o, path) && |path| == n + 1 && path[0] == u && path[n] == v
  }

  ghost predicate Distance(w: World, o: Options, u: string, v: string, n: nat) {
    ReachIn(w, o, u, v, n) && forall m: nat :: ReachIn(w, o, u, v, m) ==> n <= m
  }

  predicate Within(o: Options, n: nat) {
    o.depth >= 0 ==> n <= o.depth
  }

  function Log(s: State): seq<Command> {
    s.gets + s.pending
  }

  ghost predicate FoundBy(log: seq<Command>, levels: seq<nat>, u: string, level: nat)
    requires |log| == |levels|
  {
    exists j :: 0 <= j < |log| && log[j].url == u && levels[j] <= level
  }

  // The commands in send order, each with its level.
  ghost predicate LevelsFit(w: World, o: Options, log: seq<Command>, levels: seq<nat>) {
    && |levels| == |log|
    && forall i :: 0 <= i < |log| ==>
         && log[i].urlDepth == DepthAfter(levels[i]) && Within(o, levels[i])
         && !log[i].noCallback && log[i].verb.GET?
         && ReachIn(w, o, o.seedUrl, log[i].url, levels[i])
  }

  // Levels never fall, and nothing sent lies more than one level past the
  // oldest pending command.
  ghost predicate LevelsSorted(s: State, levels: seq<nat>)
    requires |levels| == |Log(s)|
  {
    && (forall i, j :: 0 <= i < j < |levels| ==> levels[i] <= levels[j])
    && (s.pending != [] ==> forall j :: 0 <= j < |levels| ==> levels[j] <= levels[|s.gets|] + 1)
  }

  ghost predicate LevelsClosed(w: World, o: Options, s: State, levels: seq<nat>)
    requires |levels| == |Log(s)|
  {
    forall i, v :: 0 <= i < |s.gets| && Edge(w, o, s.gets[i].url, v) && Within(o, levels[i] + 1) ==>
                     FoundBy(Log(s), levels, v, levels[i] + 1)
  }

  ghost predicate Layered(w: World, o: Options, s: State, levels: seq<nat>) {
    && Log(s) == [SeedCommand(o)] + s.f.sent
    && LevelsFit(w, o, Log(s), levels)
    && levels[0] == 0
    && LevelsSorted(s, levels)
    && LevelsClosed(w, o, s, levels)
  }

  function Repeat(x: nat, n: nat): seq<nat> {
    seq(n, _ => x)
  }

  lemma ReachOneMore(w: World, o: Options, u: string, v: string, x: string, n: nat)
    requires ReachIn(w, o, u, v, n) && Edge(w, o, v, x)
    ensures ReachIn(w, o, u, x, n + 1)
  {
    var path :| Chain(w, o, path) && |path| == n + 1 && path[0] == u && path[n] == v;
    var longer := path + [x];
    assert forall i :: 0 <= i < |longer| - 1 ==> Edge(w, o, longer[i], longer[i + 1]);
  }

  /** Within the depth limit, the handler expands exactly the page's links. */
  lemma ExpandsWithin(w: World, o: Options, c: Command, level: nat)
    requires c.urlDepth == DepthAfter(level) && Within(o, level) && !c.noCallback
    ensures Expansion(w, o, c) == if Within(o, level + 1) then PageLinks(w, o, c.url) else None
  {
    ExpansionIsPageLinks(w, o, c);
    if o.depth >= 0 { DepthAfterExact(level); }
  }

  lemma NewLinksFit(w: World, o: Options, s: State, oks: seq<bool>, level: nat)
    requires Enabled(w, o, s, VisitGet(0, oks)) && !s.done && !o.checkContent
    requires var c := s.pending[0];
             c.urlDepth == DepthAfter(level) && Within(o, level) && !c.noCallback
             && ReachIn(w, o, o.seedUrl, c.url, level)
    ensures var t := Apply(w, o, s, VisitGet(0, oks));
            s.f.sent <= t.f.sent
            && var added := t.f.sent[|s.f.sent|..];
               LevelsFit(w, o, added, Repeat(level + 1, |added|))
  {
    var c, t := s.pending[0], Apply(w, o, s, VisitGet(0, oks));
    ExpandStep(w, o, s, 0, oks);
    var added := t.f.sent[|s.f.sent|..];
    if added == [] { return; }
    ExpandsWithin(w, o, c, level);
    forall i | 0 <= i < |added|
      ensures added[i].urlDepth == DepthAfter(level + 1) && !added[i].noCallback && added[i].verb.GET?
      ensures ReachIn(w, o, o.seedUrl, added[i].url, level + 1)
    {
      var k := added[i];
      assert SentFrom(w, o, c, Expansion(w, o, c).value, k);
      assert Edge(w, o, c.url, k.url);
      ReachOneMore(w, o, o.seedUrl, c.url, k.url, level);
    }
  }

  /** Handling a command leaves its page's links marked, so they are in the log. */
  lemma HeadLinksLogged(w: World, o: Options, s: State, oks: seq<bool>, level: nat, v: string)
    requires Enabled(w, o, s, VisitGet(0, oks)) && AllTrue(oks) && !s.done && Dedup(w, o, s)
    requires var c := s.pending[0]; c.urlDepth == DepthAfter(level) && Within(o, level) && !c.noCallback
    requires Edge(w, o, s.pending[0].url, v) && Within(o, level + 1)
    ensures v in Urls([SeedCommand(o)] + Apply(w, o, s, VisitGet(0, oks)).f.sent)
  {
    var t, c := Apply(w, o, s, VisitGet(0, oks)), s.pending[0];
    ExpandsWithin(w, o, c, level);
    OpenQueueMarks(w, o, c, Expansion(w, o, c).value, oks, s.f, v);
    DedupStep(w, o, s, VisitGet(0, oks));
    assert SeedCommand(o) in [SeedCommand(o)] + t.f.sent;
  }

  /** If the links of the newly handled command are in the log, the log stays closed. */
  lemma StaysClosed(w: World, o: Options, s: State, t: State, levels: seq<nat>, all: seq<nat>)
    requires |levels| == |Log(s)| && LevelsClosed(w, o, s, levels) && s.pending != []
    requires t.gets == s.gets + [s.pending[0]] && Log(s) <= Log(t)
    requires |all| == |Log(t)| && levels <= all
    requires forall j :: 0 <= j < |all| ==> all[j] <= levels[|s.gets|] + 1
    requires forall v :: Edge(w, o, s.pending[0].url, v) && Within(o, levels[|s.gets|] + 1) ==> v in Urls(Log(t))
    ensures LevelsClosed(w, o, t, all)
  {
  }

  /** Handling the oldest command moves it to the handled ones and appends its links. */
  lemma FifoShape(w: World, o: Options, s: State, oks: seq<bool>)
    requires Enabled(w, o, s, VisitGet(0, oks))
    ensures var t := Apply(w, o, s, VisitGet(0, oks));
            && t.gets == s.gets + [s.pending[0]]
            && s.f.sent <= t.f.sent
            && t.pending == s.pending[1..] + t.f.sent[|s.f.sent|..]
            && Log(t) == Log(s) + t.f.sent[|s.f.sent|..]
  {
    ExpandStep(w, o, s, 0, oks);
  }

  lemma StaysSorted(s: State, t: State, levels: seq<nat>, all: seq<nat>)
    requires |levels| == |Log(s)| && s.pending != [] && LevelsSorted(s, levels)
    requires |all| == |Log(t)| && |t.gets| == |s.gets| + 1
    requires levels <= all && forall j :: |levels| <= j < |all| ==> all[j] == levels[|s.gets|] + 1
    ensures LevelsSorted(t, all)
    ensures forall j :: 0 <= j < |all| ==> all[j] <= levels[|s.gets|] + 1
  {
  }

  /** What handling the oldest command at level `level` does to the log. */
  ghost predicate HandledAt(w: World, o: Options, s: State, t: State, level: nat) {
    && s.pending != [] && t.gets == s.gets + [s.pending[0]]
    && s.f.sent <= t.f.sent
    && var added := t.f.sent[|s.f.sent|..];
       && Log(t) == Log(s) + added
       && LevelsFit(w, o, added, Repeat(level + 1, |added|))
       && forall v :: Edge(w, o, s.pending[0].url, v) && Within(o, level + 1) ==>
                        v in Urls([SeedCommand(o)] + t.f.sent)
  }

  lemma HandleHead(w: World, o: Options, s: State, oks: seq<bool>, level: nat)
    requires Enabled(w, o, s, VisitGet(0, oks)) && AllTrue(oks) && !s.done && !o.checkContent && Dedup(w, o, s)
    requires var c := s.pending[0];
             c.urlDepth == DepthAfter(level) && Within(o, level) && !c.noCallback
             && ReachIn(w, o, o.seedUrl, c.url, level)
    ensures HandledAt(w, o, s, Apply(w, o, s, VisitGet(0, oks)), level)
  {
    FifoShape(w, o, s, oks);
    NewLinksFit(w, o, s, oks, level);
    forall v | Edge(w, o, s.pending[0].url, v) && Within(o, level + 1)
      ensures v in Urls([SeedCommand(o)] + Apply(w, o, s, VisitGet(0, oks)).f.sent)
    {
      HeadLinksLogged(w, o, s, oks, level, v);
    }
  }

  lemma OrderStep(w: World, o: Options, s: State, t: State, levels: seq<nat>, all: seq<nat>)
    requires s.pending != [] && |levels| == |Log(s)| && LevelsSorted(s, levels) && LevelsClosed(w, o, s, levels)
    requires HandledAt(w, o, s, t, levels[|s.gets|]) && Log(t) == [SeedCommand(o)] + t.f.sent
    requires all == levels + Repeat(levels[|s.gets|] + 1, |t.f.sent| - |s.f.sent|)
    ensures |all| == |Log(t)| && LevelsSorted(t, all) && LevelsClosed(w, o, t, all)
  {
    StaysSorted(s, t, levels, all);
    StaysClosed(w, o, s, t, levels, all);
  }

  lemma FitStep(w: World, o: Options, s: State, t: State, levels: seq<nat>, all: seq<nat>)
    requires s.pending != [] && LevelsFit(w, o, Log(s), levels)
    requires HandledAt(w, o, s, t, levels[|s.gets|])
    requires all == levels + Repeat(levels[|s.gets|] + 1, |t.f.sent| - |s.f.sent|)
    ensures LevelsFit(w, o, Log(t), all)
  {
  }

  /** The layers after handling the oldest command: its links come one level
      below it, at the end. */
  lemma LayeredStep(w: World, o: Options, s: State, t: State, levels: seq<nat>) returns (all: seq<nat>)
    requires s.pending != [] && Layered(w, o, s, levels)
    requires HandledAt(w, o, s, t, levels[|s.gets|])
    ensures Layered(w, o, t, all)
  {
    all := levels + Repeat(levels[|s.gets|] + 1, |t.f.sent| - |s.f.sent|);
    assert Log(t) == [SeedCommand(o)] + t.f.sent;
    FitStep(w, o, s, t, levels, all);
    OrderStep(w, o, s, t, levels, all);
  }

  // What holds of a breadth-first search, before the seed is sent and after.
  ghost predicate Searching(w: World, o: Options, s: State, levels: seq<nat>) {
    && !s.done && o.seedUrl != "" && !o.checkContent && Dedup(w, o, s) && s.early == 0
    && if s.stage.SeedSent? then Layered(w, o, s, levels) else Log(s) == s.f.sent == [] && levels == []
  }

  ghost predicate Underway(w: World, o: Options, s: State, levels: seq<nat>) {
    Searching(w, o, s, levels) && s.stage.SeedSent?
  }

  lemma SearchNext(w: World, o: Options, s: State, oks: seq<bool>, levels: seq<nat>) returns (all: seq<nat>)
    requires Searching(w, o, s, levels) && Enabled(w, o, s, VisitGet(0, oks)) && AllTrue(oks)
    ensures Searching(w, o, Apply(w, o, s, VisitGet(0, oks)), all)
  {
    assert s.pending[0] == Log(s)[|s.gets|];
    ExpandStep(w, o, s, 0, oks);
    DedupStep(w, o, s, VisitGet(0, oks));
    HandleHead(w, o, s, oks, levels[|s.gets|]);
    all := LayeredStep(w, o, s, Apply(w, o, s, VisitGet(0, oks)), levels);
  }

  lemma SearchSeed(w: World, o: Options, s: State, e: Event, levels: seq<nat>) returns (all: seq<nat>)
    requires Searching(w, o, s, levels) && Enabled(w, o, s, e) && Undisturbed(w, o, s, e)
    requires e.MarkSeed? || e.SendSeed?
    ensures Searching(w, o, Apply(w, o, s, e), all)
  {
    DedupStep(w, o, s, e);
    all := if e.SendSeed? then [0] else [];
    assert Chain(w, o, [o.seedUrl]);
    assert ReachIn(w, o, o.seedUrl, o.seedUrl, 0);
  }

  lemma FifoEvent(w: World, o: Options, ss: seq<State>, es: seq<Event>, i: nat)
    requires FifoRun(w, o, ss, es) && i < |es|
    ensures es[i].MarkSeed? || es[i].SendSeed? || es[i] == VisitGet(0, es[i].oks)
    ensures Undisturbed(w, o, ss[i], es[i]) && Enabled(w, o, ss[i], es[i]) && ss[i + 1] == Apply(w, o, ss[i], es[i])
  {
  }

  lemma {:induction false} SearchAt(w: World, o: Options, ss: seq<State>, es: seq<Event>, n: nat)
    returns (levels: seq<nat>)
    requires FifoRun(w, o, ss, es) && n <= |es|
    ensures Searching(w, o, ss[n], levels)
  {
    if n == 0 {
      levels := [];
    } else {
      var before := SearchAt(w, o, ss, es, n - 1);
      FifoEvent(w, o, ss, es, n - 1);
      if es[n - 1].VisitGet? {
        levels := SearchNext(w, o, ss[n - 1], es[n - 1].oks, before);
      } else {
        levels := SearchSeed(w, o, ss[n - 1], es[n - 1], before);
      }
    }
  }

  // Paths no longer than the level of the oldest pending command, if there is one.
  ghost predicate Covered(s: State, levels: seq<nat>, n: nat)
    requires |levels| == |Log(s)|
  {
    s.pending != [] ==> n <= levels[|s.gets|]
  }

  lemma OneLinkOn(w: World, o: Options, s: State, levels: seq<nat>, u: string, v: string, n: nat)
    requires |levels| == |Log(s)| && LevelsSorted(s, levels) && LevelsClosed(w, o, s, levels)
    requires n > 0 && Covered(s, levels, n) && Within(o, n)
    requires FoundBy(Log(s), levels, u, n - 1) && Edge(w, o, u, v)
    ensures FoundBy(Log(s), levels, v, n)
  {
  }

  /** Every URL that a covered path reaches within the depth limit has been found,
      at a level no larger than the path: the page before it lies below the head
      of the queue, so it has been handled. */
  lemma {:induction false} PathIsFound(w: World, o: Options, s: State, levels: seq<nat>, v: string, n: nat)
    requires Layered(w, o, s, levels) && Covered(s, levels, n)
    requires ReachIn(w, o, o.seedUrl, v, n) && Within(o, n)
    ensures FoundBy(Log(s), levels, v, n)
    decreases n
  {
    var path :| Chain(w, o, path) && |path| == n + 1 && path[0] == o.seedUrl && path[n] == v;
    if n == 0 {
      assert Log(s)[0].url == v;
    } else {
      var u := path[n - 1];
      assert Chain(w, o, path[..n]);
      assert ReachIn(w, o, o.seedUrl, u, n - 1);
      PathIsFound(w, o, s, levels, u, n - 1);
      OneLinkOn(w, o, s, levels, u, v, n);
    }
  }

  lemma LogDistinct(w: World, o: Options, s: State, levels: seq<nat>, i: nat, j: nat)
    requires Underway(w, o, s, levels)
    requires i < |Log(s)| && j < |Log(s)| && Log(s)[i].url == Log(s)[j].url
    ensures i == j
  {
  }

  /** A level is a shortest distance as soon as its command is sent. */
  lemma LevelIsDistance(w: World, o: Options, s: State, levels: seq<nat>, i: nat)
    requires Underway(w, o, s, levels) && i < |Log(s)|
    ensures Distance(w, o, o.seedUrl, Log(s)[i].url, levels[i])
  {
    forall m: nat | ReachIn(w, o, o.seedUrl, Log(s)[i].url, m) ensures levels[i] <= m {
      if m < levels[i] {
        PathIsFound(w, o, s, levels, Log(s)[i].url, m);
        var j :| 0 <= j < |Log(s)| && Log(s)[j].url == Log(s)[i].url && levels[j] <= m;
        LogDistinct(w, o, s, levels, i, j);
      }
    }
  }

  ghost predicate DepthIsDistance(w: World, o: Options, c: Command) {
    exists d: nat :: Distance(w, o, o.seedUrl, c.url, d) && Within(o, d) && c.urlDepth == DepthAfter(d)
  }

  lemma CommandDepth(w: World, o: Options, s: State, levels: seq<nat>, c: Command)
    requires Underway(w, o, s, levels) && c in Log(s)
    ensures DepthIsDistance(w, o, c)
  {
    var i :| 0 <= i < |Log(s)| && Log(s)[i] == c;
    LevelIsDistance(w, o, s, levels, i);
  }

  /** A URL nearer to the seed than the head of the queue has been fetched. */
  lemma NearerIsFetched(w: World, o: Options, s: State, levels: seq<nat>, u: string, d: nat)
    requires Layered(w, o, s, levels) && ReachIn(w, o, o.seedUrl, u, d) && Within(o, d)
    requires s.pending != [] ==> d < levels[|s.gets|]
    ensures u in Fetched(s)
  {
    PathIsFound(w, o, s, levels, u, d);
    var j :| 0 <= j < |Log(s)| && Log(s)[j].url == u && levels[j] <= d;
    assert j < |s.gets|;
    assert Log(s)[j] == s.gets[j] && s.gets[j] in s.gets;
  }

  /** A first-in first-out crawl is a breadth-first search, at every moment and
      whether or not it ever ends: the depth of every command handled or waiting
      is the shortest follow distance of its URL from the seed, within Depth, and
      every URL nearer to the seed than the next command's has been fetched. */
  lemma BreadthFirstAlways(w: World, o: Options, ss: seq<State>, es: seq<Event>, n: nat)
    requires FifoRun(w, o, ss, es) && n <= |es|
    ensures forall c :: c in ss[n].gets || c in ss[n].pending ==> DepthIsDistance(w, o, c)
    ensures ss[n].pending != [] ==>
              forall u, d: nat, h: nat ::
                Distance(w, o, o.seedUrl, ss[n].pending[0].url, h) && Distance(w, o, o.seedUrl, u, d) && d < h ==>
                  u in Fetched(ss[n])
  {
    var s := ss[n];
    var levels := SearchAt(w, o, ss, es, n);
    forall c | c in s.gets || c in s.pending ensures DepthIsDistance(w, o, c) {
      assert c in Log(s);
      CommandDepth(w, o, s, levels, c);
    }
    if s.pending != [] {
      assert Log(s)[|s.gets|] == s.pending[0];
      LevelIsDistance(w, o, s, levels, |s.gets|);
      forall u, d: nat, h: nat |
        Distance(w, o, o.seedUrl, s.pending[0].url, h) && Distance(w, o, o.seedUrl, u, d) && d < h
        ensures u in Fetched(s)
      {
        assert h <= levels[|s.gets|];
        NearerIsFetched(w, o, s, levels, u, d);
      }
    }
  }

  /** And once its queue is empty, it has fetched exactly the URLs within
      distance Depth of the seed. */
  lemma BreadthFirstExact(w: World, o: Options, ss: seq<State>, es: seq<Event>)
    requires FifoRun(w, o, ss, es) && Finished(o, ss[|es|])
    ensures forall u :: u in Fetched(ss[|es|]) <==>
              exists d: nat :: Distance(w, o, o.seedUrl, u, d) && Within(o, d)
  {
    var s := ss[|es|];
    BreadthFirstAlways(w, o, ss, es, |es|);
    var levels := SearchAt(w, o, ss, es, |es|);
    forall u | u in Fetched(s) ensures exists d: nat :: Distance(w, o, o.seedUrl, u, d) && Within(o, d) {
      var c :| c in s.gets && !c.noCallback && c.url == u;
      assert DepthIsDistance(w, o, c);
    }
    forall u, d: nat | Distance(w, o, o.seedUrl, u, d) && Within(o, d) ensures u in Fetched(s) {
      NearerIsFetched(w, o, s, levels, u, d);
    }
  }
}
