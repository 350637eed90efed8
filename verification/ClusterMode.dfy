/** Cluster mode: the server's Do (workermanager.go) has a worker job fetch the
    page, and turns the page that comes back into a response for the server's
    own GET handler. */
module ClusterMode {
  import opened CrawlTypes
  import opened PageHandler
  import opened JobObject

  /** newWorkerJob on top of the defaults of NewJobSpec: NoFollow, no filters, text/html only. */
  function WorkerOptions(): Options {
    Options(
      seedUrl := "", noFollow := true, depth := -1, followOtherDomains := false,
      checkContent := false, mimetype := "text/html", cancelOnDisconnect := false, callbackSeedUrl := false,
      callbackUrl := None, followUrl := None, callbackAnchorText := None,
      callbackXpathMatch := [], callbackXpathRegexp := [], loginCheck := None)
  }

  /** The command AddPage makes on the worker, with the waiter's id as metaStr. */
  function WorkerCommand(url: string, id: string): Command {
    Command(GET, url, false, id, 0, "")
  }

  /** It is the command the worker's job makes of a GET request of its client. */
  lemma WorkerCommandIsRequest(w: World, url: string, id: string)
    ensures WorkerCommand(url, id) == RequestCommand(w, PageRequest(GetReq, url, "", false, id))
    ensures AsRequested(w, PageRequest(GetReq, url, "", false, id), WorkerCommand(url, id))
  {
    RequestRule(w, PageRequest(GetReq, url, "", false, id));
  }

  /** What the worker job ships for one request. */
  function WorkerAnswer(w: World, workerJob: string, url: string, id: string, out: Outcome): Option<Page> {
    Visit(w, WorkerOptions(), workerJob, WorkerCommand(url, id), out).ship
  }

  /** The response that workerManager.Do builds from the page it waited for. */
  function DoResponse(w: World, url: string, httpStatusCode: Int32, content: Bytes): Response {
    Response(url, httpStatusCode, w.statusText(httpStatusCode), "text/html", Some(content))
  }

  /** The outcome is handed to a handler of the worker job. */
  predicate Answered(out: Outcome) {
    out.Got? ==> Dispatched(WorkerOptions(), out.res)
  }

  /** That is a fetch error, or a page served as text/html. */
  lemma AnsweredRule(out: Outcome)
    ensures Answered(out) <==> out.Failed? || out.res.mime == "text/html"
  {
  }

  /** Exactly one answer: whatever the web returned, a dispatched request makes
      the worker ship one page, it carries the request's metaStr, and the worker
      expands no links. Its code is the web's own or one of two error codes. */
  lemma ExactlyOneAnswer(w: World, workerJob: string, url: string, id: string, out: Outcome)
    requires Answered(out)
    ensures var a := WorkerAnswer(w, workerJob, url, id, out);
            && a.Some? && a.value.metaStr == id
            && (out.Got? ==> a.value.httpStatusCode in {out.res.status, RESPONSE_ERROR})
            && (out.Failed? ==> a.value.httpStatusCode == FETCHBOT_ERROR)
    ensures Visit(w, WorkerOptions(), workerJob, WorkerCommand(url, id), out).expand.None?
  {
  }

  /** The server's GET handler behind the cluster Do. */
  function ClusterEffect(
      w: World, o: Options, jobID: string, c: Command, workerJob: string, id: string, out: Outcome): Effect
    requires Answered(out)
  {
    ExactlyOneAnswer(w, workerJob, c.url, id, out);
    var page := WorkerAnswer(w, workerJob, c.url, id, out).value;
    Visit(w, o, jobID, c, Got(DoResponse(w, c.url, page.httpStatusCode, page.content)))
  }

  /** Two handler runs agree when they expand the same links and ship the same
      page, up to the wording of its error. */
  predicate Agree(e: Effect, e': Effect) {
    && e.expand == e'.expand && e.cancel == e'.cancel
    && e.ship.Some? == e'.ship.Some?
    && (e.ship.Some? ==> e.ship.value.(error := "") == e'.ship.value.(error := ""))
  }

  predicate NotRedirected(c: Command, out: Outcome) {
    out.Got? ==> out.res.requestUrl == c.url
  }

  /** The response was fetched, and as far as the handler looks at its body, read. */
  predicate FetchedAndRead(c: Command, out: Outcome) {
    out.Got? && (c.noCallback || ErrorStatus(out.res.status) || out.res.body.Some?)
  }

  /** Cluster mode makes the same follow, enqueue and ship decisions as a direct
      fetch, and ships the same status and content, exactly when the response
      was fetched and read. */
  lemma ClusterRefinesDirect(
      w: World, o: Options, jobID: string, c: Command, workerJob: string, id: string, out: Outcome)
    requires Answered(out) && NotRedirected(c, out)
    requires o.mimetype in {"", "text/html"}
    ensures Agree(ClusterEffect(w, o, jobID, c, workerJob, id, out), Visit(w, o, jobID, c, out))
            <==> FetchedAndRead(c, out)
  {
  }

  /** How it fails on a fetch error: the worker's error page has a code outside
      400..599, so the server takes it for a fetched page with an empty body. A
      direct job always reports the failure; the cluster job never does. */
  lemma FetchErrorLooksFetched(w: World, o: Options, jobID: string, c: Command, workerJob: string, id: string, error: string)
    requires o.mimetype in {"", "text/html"}
    ensures var e := ClusterEffect(w, o, jobID, c, workerJob, id, Failed(error));
            && (e.ship.Some? ==> e.ship.value.success || e.ship.value.httpStatusCode in {FOLLOW_PARSE_ERROR, NO_LONGER_LOGGED_IN})
            && (!c.noCallback && !LoggedOut(w, o, []) && !Follows(o, c) && Ships(w, o, c, []) ==>
                  e.ship.Some? && e.ship.value.success && e.ship.value.content == []
                  && e.ship.value.httpStatusCode == FETCHBOT_ERROR)
    ensures var d := Visit(w, o, jobID, c, Failed(error));
            d.ship.Some? && !d.ship.value.success && d.ship.value.httpStatusCode == FETCHBOT_ERROR
  {
  }
}
