/** A job at work: its object, the handlers that fetchbot calls for each waiting
    command, and the proof that every call is one step of the crawl (job.go). */
module CrawlerObject {
  import opened CrawlTypes
  import opened PageHandler
  import opened LinkExpansion
  import opened JobObject
  import opened Crawl

  /** Expansion does not look at what was sent before. */
  lemma {:induction false} SameAppended(
      w: World, o: Options, c: Command, anchors: seq<Anchor>, oks: seq<bool>, f: Frontier, g: Frontier)
    requires |oks| == |anchors| && f.marked == g.marked
    ensures var r, t := FollowLinks(w, o, c, anchors, oks, f), FollowLinks(w, o, c, anchors, oks, g);
            && r.marked == t.marked && f.sent <= r.sent && g.sent <= t.sent
            && r.sent[|f.sent|..] == t.sent[|g.sent|..]
    decreases |anchors|
  {
    if anchors != [] {
      var n := |anchors| - 1;
      SameAppended(w, o, c, anchors[..n], oks[..n], f, g);
      var r, t := FollowLinks(w, o, c, anchors[..n], oks[..n], f), FollowLinks(w, o, c, anchors[..n], oks[..n], g);
      SameAppendedOne(w, o, c, anchors[n], oks[n], f, g, r, t);
    }
  }

  lemma SameAppendedOne(
      w: World, o: Options, c: Command, a: Anchor, ok: bool, f: Frontier, g: Frontier, r: Frontier, t: Frontier)
    requires r.marked == t.marked && f.sent <= r.sent && g.sent <= t.sent
    requires r.sent[|f.sent|..] == t.sent[|g.sent|..]
    ensures var r', t' := FollowLink(w, o, c, a, ok, r), FollowLink(w, o, c, a, ok, t);
            && r'.marked == t'.marked && f.sent <= r'.sent && g.sent <= t'.sent
            && r'.sent[|f.sent|..] == t'.sent[|g.sent|..]
  {
    var r', t' := FollowLink(w, o, c, a, ok, r), FollowLink(w, o, c, a, ok, t);
    if r' != r && OnDomain(w, o, a.nurl) {
      var k := LinkCommand(o, c, a);
      assert r'.sent[|f.sent|..] == r.sent[|f.sent|..] + [k];
      assert t'.sent[|g.sent|..] == t.sent[|g.sent|..] + [k];
    }
  }

  /** The id of the job has no part in what is expanded. */
  lemma ExpansionOfAnyJob(w: World, o: Options, jobID: string, c: Command)
    ensures Visit(w, o, jobID, c, w.get(c.url)).expand == Expansion(w, o, c)
  {
  }

  class Crawler {
    const job: Job
    var pending: seq<Command>   // commands of the queue that no handler has had
    ghost var s: State          // the crawl so far

    constructor (w: World, o: Options, id: string)
      ensures Valid() && fresh(job) && s == Init() && job.w == w && job.o == o
    {
      job := new Job(w, o, id);
      pending, s := [], Init();
    }

    ghost predicate Valid()
      reads this, job
    {
      pending == s.pending && Marked(job.duplicates) == s.f.marked && job.done == s.done
    }

    /** What handlers have put into the queue now waits. */
    method Collect(from: nat)
      requires from <= |job.queue|
      modifies this`pending
      ensures pending == old(pending) + job.queue[from..]
    {
      pending := pending + job.queue[from..];
    }

    /** RunJob marks its seed and sends it, and ends the job if that fails. */
    method StartSeed(ok: bool)
      requires Valid() && Enabled(job.w, job.o, s, MarkSeed)
      modifies this, job
      ensures Valid()
      ensures s == Apply(job.w, job.o, Apply(job.w, job.o, old(s), MarkSeed), SendSeed(ok))
    {
      var from := |job.queue|;
      var goesOn := job.EnqueueSeed(ok);
      Collect(from);
      if !goesOn { job.done := true; }
      s := Apply(job.w, job.o, s, MarkSeed);
      s := Apply(job.w, job.o, s, SendSeed(ok));
    }

    /** A page request of the client becomes a root of the crawl, or ends the
        handling of page requests. */
    method AddPage(pr: PageRequest, ok: bool) returns (goesOn: bool)
      requires Valid()
      modifies this, job
      ensures Valid()
      ensures var c := RequestCommand(job.w, pr);
              if goesOn then Enabled(job.w, job.o, old(s), AddRoot(c)) && s == Apply(job.w, job.o, old(s), AddRoot(c))
              else s == old(s)
    {
      var from := |job.queue|;
      goesOn := job.HandlePageRequest(pr, ok);
      Collect(from);
      if goesOn { s := Apply(job.w, job.o, s, AddRoot(RequestCommand(job.w, pr))); }
    }

    /** Fetching a GET command and calling its handler. */
    method FetchGet(c: Command, oks: seq<bool>, analyzedStop: bool, stop: bool)
      requires var x := Expansion(job.w, job.o, c); x.Some? ==> |oks| == |x.value|
      modifies job
      ensures job.done == old(job.done)
      ensures var x := Expansion(job.w, job.o, c);
              job.AsFrontier() == if !job.done && x.Some?
                                  then FollowLinks(job.w, job.o, c, x.value, oks, old(job.AsFrontier()))
                                  else old(job.AsFrontier())
    {
      ExpansionOfAnyJob(job.w, job.o, job.id, c);
      match job.w.get(c.url) {
        case Failed(error) => job.FetchErrorHandler(c, error, stop);
        case Got(res) =>
          if job.o.mimetype == "" || job.o.mimetype == res.mime {
            job.FetchHTTPGetHandler(c, res, oks, analyzedStop, stop);
          }
      }
    }

    /** That is one step of the crawl. */
    method HandleGet(i: nat, oks: seq<bool>, analyzedStop: bool, stop: bool)
      requires Valid() && Enabled(job.w, job.o, s, VisitGet(i, oks))
      modifies this, job
      ensures Valid() && s == Apply(job.w, job.o, old(s), VisitGet(i, oks))
    {
      var c, from := pending[i], |job.queue|;
      ghost var x, before := Expansion(job.w, job.o, c), job.AsFrontier();
      FetchGet(c, oks, analyzedStop, stop);
      if !s.done && x.Some? {
        SameAppended(job.w, job.o, c, x.value, oks, before, s.f);
      }
      pending := pending[..i] + pending[i + 1..];
      Collect(from);
      s := Apply(job.w, job.o, s, VisitGet(i, oks));
    }

    /** So is a HEAD command: its handler puts a GET into the queue, but not in a job
        that is done. */
    method HandleHead(i: nat, ok: bool, stop: bool)
      requires Valid() && Enabled(job.w, job.o, s, VisitHead(i, ok))
      modifies this, job
      ensures Valid() && s == Apply(job.w, job.o, old(s), VisitHead(i, ok))
    {
      var c, from := pending[i], |job.queue|;
      match job.w.head(c.url) {
        case Failed(error) => job.FetchErrorHandler(c, error, stop);
        case Got(res) =>
          if job.o.mimetype == "" || job.o.mimetype == res.mime {
            job.FetchHTTPHeadHandler(c, ok);
          }
      }
      pending := pending[..i] + pending[i + 1..];
      Collect(from);
      s := Apply(job.w, job.o, s, VisitHead(i, ok));
    }

    method Cancel()
      requires Valid()
      modifies this, job
      ensures Valid() && s == Apply(job.w, job.o, old(s), Event.Cancel)
    {
      job.done := true;
      s := Apply(job.w, job.o, s, Event.Cancel);
    }
  }

  /** Once a job is done nothing its handlers do reaches the queue, and it stays done. */
  lemma DoneIsFinal(w: World, o: Options, s: State, e: Event)
    requires Enabled(w, o, s, e) && s.done
    ensures var t := Apply(w, o, s, e);
            && t.done && t.f.sent == s.f.sent
            && (e.VisitGet? || e.VisitHead? || e.Drop? ==>
                  t.pending == s.pending[..e.i] + s.pending[e.i + 1..] && t.f == s.f)
  {
  }

  /** A seed that cannot be sent ends the job, leaves no root and stays marked. */
  lemma RefusedSeedEnds(w: World, o: Options, s: State, ok: bool)
    requires Enabled(w, o, s, SendSeed(ok)) && !(ok && w.parses(o.seedUrl) && w.hasHost(o.seedUrl))
    ensures var t := Apply(w, o, s, SendSeed(ok));
            t.done && t.pending == s.pending && t.roots == s.roots && t.f == s.f
  {
  }
}
