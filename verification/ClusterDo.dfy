/** The protocol of Do and what the workers answer, put together: a Do call that
    returns got the worker's answer for its own URL (workermanager.go). */
module ClusterDo {
  import opened CrawlTypes
  import opened PageHandler
  import opened ClusterMode
  import opened ClusterCrawl
  import C = Correlation

  /** The workers of a cluster: the web their raw and chrome jobs see. */
  datatype Cluster = Cluster(raw: World, chrome: World, workerJob: string)

  function WebOf(k: Cluster, call: C.Call): World {
    if call.chrome then k.chrome else k.raw
  }

  /** The page a worker ships for the request of `call`, if its mux finds a handler. */
  function AnswerTo(k: Cluster, call: C.Call): Option<Page> {
    var w := WebOf(k, call);
    WorkerAnswer(w, k.workerJob, call.url, call.id, w.get(call.url))
  }

  predicate Carries(k: Cluster, call: C.Call, httpStatusCode: Int32, content: Bytes) {
    var a := AnswerTo(k, call);
    a.Some? && httpStatusCode == a.value.httpStatusCode && content == a.value.content
  }

  /** A worker answers a request with the page its job ships for it. */
  ghost predicate Truthful(k: Cluster, s: C.State, e: C.Event) {
    e.Answer? ==>
      forall c :: c in s.calls && s.calls[c].id == e.id ==> Carries(k, s.calls[c], e.httpStatusCode, e.content)
  }

  /** A run with workers that answer each request once, with what their job ships. */
  ghost predicate ClusterRun(k: Cluster, ss: seq<C.State>, es: seq<C.Event>) {
    && C.IsRun(ss, es) && C.WorkersBehave(es)
    && forall i :: 0 <= i < |es| ==> Truthful(k, ss[i], es[i])
  }

  /** If the page answers the call, it is the worker's answer for the call's URL. */
  ghost predicate Faithful(k: Cluster, call: C.Call, m: C.Msg) {
    m.Msg? && m.metaStr == call.id ==> Carries(k, call, m.httpStatusCode, m.content)
  }

  ghost predicate AllFaithful(k: Cluster, s: C.State) {
    forall c :: c in s.calls ==>
      && (forall i :: 0 <= i < |s.pageChan| ==> Faithful(k, s.calls[c], s.pageChan[i]))
      && (s.held.Some? ==> Faithful(k, s.calls[c], s.held.value))
      && (C.Done(s, c) ==> Faithful(k, s.calls[c], s.calls[c].phase.page))
  }

  lemma FaithfulBegin(k: Cluster, s: C.State, e: C.Event)
    requires AllFaithful(k, s) && C.OnePlace(s) && C.Enabled(s, e) && e.Begin?
    ensures AllFaithful(k, C.Apply(s, e))
  {
  }

  /** A call keeps its URL and its id, so what answers it stays the same. */
  lemma SameCall(k: Cluster, call: C.Call, phase: C.Phase, m: C.Msg)
    ensures Faithful(k, call.(phase := phase), m) <==> Faithful(k, call, m)
  {
  }

  lemma FaithfulRegister(k: Cluster, s: C.State, c: C.Caller)
    requires AllFaithful(k, s) && C.Enabled(s, C.Register(c))
    ensures AllFaithful(k, C.Apply(s, C.Register(c)))
  {
    forall m: C.Msg { SameCall(k, s.calls[c], C.Waiting, m); }
  }

  lemma FaithfulDeliver(k: Cluster, s: C.State)
    requires AllFaithful(k, s) && C.Enabled(s, C.Deliver)
    ensures AllFaithful(k, C.Apply(s, C.Deliver))
  {
    var c := s.waitingList[s.held.value.metaStr];
    forall m: C.Msg { SameCall(k, s.calls[c], C.Returned(s.held.value), m); }
  }

  lemma FaithfulStep(k: Cluster, s: C.State, e: C.Event)
    requires AllFaithful(k, s) && C.OnePlace(s) && C.Enabled(s, e) && !e.Stray? && Truthful(k, s, e)
    ensures AllFaithful(k, C.Apply(s, e))
  {
    match e
    case Begin(_, _, _, _) => FaithfulBegin(k, s, e);
    case Register(c) => FaithfulRegister(k, s, c);
    case Deliver => FaithfulDeliver(k, s);
    case _ =>
  }

  lemma {:induction false} FaithfulAt(k: Cluster, ss: seq<C.State>, es: seq<C.Event>, n: nat)
    requires ClusterRun(k, ss, es) && n <= |es|
    ensures AllFaithful(k, ss[n])
  {
    if n > 0 {
      FaithfulAt(k, ss, es, n - 1);
      assert C.OnePlace(ss[n - 1]) by { C.OnePlaceAt(ss, es, n - 1); }
      FaithfulStep(k, ss[n - 1], es[n - 1]);
    }
  }

  // ---- what Do returns -------------------------------------------------------------------

  /** A worker ships a page exactly when its mux hands the response to a handler. */
  lemma AnswersIffDispatched(w: World, workerJob: string, url: string, id: string, out: Outcome)
    ensures WorkerAnswer(w, workerJob, url, id, out).Some? <==> Answered(out)
  {
  }

  /** In every interleaving of calls, answers, registrations and deliveries, a call
      that has returned got the worker's answer for its own URL, which then was one
      a worker answers. What a raw call makes of it is what the crawl through
      workers takes it to be. */
  lemma DoGetsItsAnswer(k: Cluster, ss: seq<C.State>, es: seq<C.Event>, n: nat, c: C.Caller)
    requires ClusterRun(k, ss, es) && n <= |es| && C.Done(ss[n], c)
    ensures var call := ss[n].calls[c];
            var m, w := call.phase.page, WebOf(k, call);
            && m.Msg? && Carries(k, call, m.httpStatusCode, m.content) && Answered(w.get(call.url))
            && (!call.chrome ==> Got(DoResponse(w, call.url, m.httpStatusCode, m.content)) == ThroughWorker(w, call.url))
  {
    FaithfulAt(k, ss, es, n);
    C.CorrelationSafety(ss, es, n);
    var call := ss[n].calls[c];
    var w := WebOf(k, call);
    AnswersIffDispatched(w, k.workerJob, call.url, call.id, w.get(call.url));
    SameForAnyWaiter(w, k.workerJob, "worker", call.url, call.id, "id", w.get(call.url));
  }

  /** The status and the content of an answer depend on neither the worker nor the waiter. */
  lemma SameForAnyWaiter(w: World, job: string, job': string, url: string, id: string, id': string, out: Outcome)
    ensures var a, b := WorkerAnswer(w, job, url, id, out), WorkerAnswer(w, job', url, id', out);
            a.Some? == b.Some?
            && (a.Some? ==> a.value.httpStatusCode == b.value.httpStatusCode && a.value.content == b.value.content)
  {
  }

  /** End to end: the handler of a server job that fetched through Do expands and
      ships what it would have after a direct fetch, exactly when the worker fetched
      and read the page. */
  lemma ClusterEndToEnd(
      k: Cluster, ss: seq<C.State>, es: seq<C.Event>, n: nat, c: C.Caller, o: Options, jobID: string, cmd: Command)
    requires ClusterRun(k, ss, es) && n <= |es| && C.Done(ss[n], c)
    requires var call := ss[n].calls[c]; !call.chrome && call.url == cmd.url
    requires NotRedirected(cmd, k.raw.get(cmd.url)) && o.mimetype in {"", "text/html"}
    ensures var m := ss[n].calls[c].phase.page;
            m.Msg? && (Agree(Visit(k.raw, o, jobID, cmd, Got(DoResponse(k.raw, cmd.url, m.httpStatusCode, m.content))),
                             Visit(k.raw, o, jobID, cmd, k.raw.get(cmd.url)))
                       <==> FetchedAndRead(cmd, k.raw.get(cmd.url)))
  {
    DoGetsItsAnswer(k, ss, es, n, c);
    var id := ss[n].calls[c].id;
    ClusterRefinesDirect(k.raw, o, jobID, cmd, k.workerJob, id, k.raw.get(cmd.url));
  }

  ghost predicate CanReturn(k: Cluster, url: string, chrome: bool) {
    exists ss, es, c :: Returns(k, ss, es, c, url, chrome)
  }

  ghost predicate Returns(k: Cluster, ss: seq<C.State>, es: seq<C.Event>, c: C.Caller, url: string, chrome: bool) {
    && ClusterRun(k, ss, es) && C.Done(ss[|es|], c)
    && ss[|es|].calls[c].url == url && ss[|es|].calls[c].chrome == chrome
  }

  /** A page that no worker handler takes is never answered, and Do waits for ever:
      some run has a Do for this URL return if and only if the fetch fails or the
      page is served as text/html. */
  lemma DoReturnsIffAnswered(k: Cluster, url: string, chrome: bool)
    ensures var out := (if chrome then k.chrome else k.raw).get(url);
            CanReturn(k, url, chrome) <==> out.Failed? || out.res.mime == "text/html"
  {
    AnsweredRule((if chrome then k.chrome else k.raw).get(url));
    if ss, es, c :| Returns(k, ss, es, c, url, chrome) {
      DoGetsItsAnswer(k, ss, es, |es|, c);
    }
    if Answered((if chrome then k.chrome else k.raw).get(url)) {
      var ss, es := OneCall(k, url, chrome);
      assert Returns(k, ss, es, 0, url, chrome);
    }
  }

  lemma OneCall(k: Cluster, url: string, chrome: bool) returns (ss: seq<C.State>, es: seq<C.Event>)
    requires Answered((if chrome then k.chrome else k.raw).get(url))
    ensures Returns(k, ss, es, 0, url, chrome)
  {
    var call := C.Call("id", url, chrome, C.Waiting);
    var w := WebOf(k, call);
    AnswersIffDispatched(w, k.workerJob, url, "id", w.get(url));
    var a := AnswerTo(k, call).value;
    ss, es := C.ServedCall("id", url, chrome, C.Msg(0, "id", a.httpStatusCode, a.content));
    assert Truthful(k, ss[2], es[2]);
  }
}
