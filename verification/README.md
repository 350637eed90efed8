# A verified model of IdeaCrawler

IdeaCrawler is a client/server crawler. This Dafny 4.11 project models the parts of it
that decide what is crawled, what reaches the client, and at what pace, and proves
properties of those parts over all inputs and all runs.

    dafny verify dfyconfig.toml

* **The crawl frontier** (`job.go`). `Job.dfy` has the job object with its handlers, in
  place; `PageHandler.dfy` and `LinkExpansion.dfy` are the decisions they take;
  `Crawl.dfy` is a whole crawl, in which any waiting command may be handled next, and
  `Crawler.dfy` proves that the job object's methods are its steps. `Rules.dfy` states
  what each option decides, in terms of the option fields alone.
  `Provenance.dfy`, `Closure.dfy`, `Budget.dfy` and `BreadthFirst.dfy` prove where
  commands come from, what a finished crawl has fetched, that every crawl ends,
  and that a first-in first-out crawl is a breadth-first search. `DepthAndSeed.dfy`
  shows where a depth limit and the seed's mark do not do what one would expect.
* **Cluster mode** (`workerqueue.go`, `workermanager.go`). `WorkerQueue.dfy` is the
  round-robin queue, `Handshake.dfy` the request/reply protocol around it,
  `Correlation.dfy` the matching of pages to waiting calls, `ClusterMode.dfy` and
  `ClusterCrawl.dfy` the comparison of cluster mode with direct fetching, and
  `ClusterDo.dfy` the two put together.
* **Delivery and cancellation** (`worker.go`, `goclient/ideacrawlerclient.go`, `job.go`):
  `Delivery.dfy` and `Quiescence.dfy`.
* **Rate control** (`doer.go`): `RateControl.dfy` and `DelayGenerator.dfy`.

## How the model reads the source

* The web is a fixed function from URL to outcome. Regular expressions, XPath lookups,
  link extraction, URL parsing and host names are arbitrary functions in the value `World`
  or `Options`; nothing is assumed about them. A URL is the string it was parsed from, so
  a seed and its normalised form are different URLs, as they are in `duplicates`.
* Choices made by other goroutines, by the network or by `select` are parameters or events.
* A GET handler's link expansion is one step, because `enqueueLinks` holds the job's mutex.
* A request to cancel takes effect by a separate `Cancel` event at any later time; a run is
  undisturbed when that does not happen, sends succeed and HEADs reach their handler.
* The `int32` depth counter wraps (`NextDepth`); a non-negative Depth keeps it exact.

Points where the code differs from what its documentation says or a reader would expect;
the model follows the code:

* `callbackXpathRegexp` entries are compared for equality, like `callbackXpathMatch`.
* HTTP errors of linked pages are not reported, except with CheckContent on, when all
  of them are (`Rules.LinkErrorsAreSilent`, `Rules.LinkErrorsAfterHead`).
* The HEAD handler drops the depth, so with CheckContent on a positive Depth limits
  nothing (`DepthAndSeed.DepthLimitsNothing`, `DepthAndSeed.BeyondDepth`), and the depth
  claims need CheckContent off.
* RunJob listens for added pages before it marks its seed, so an added page that links to
  the seed can have it sent twice (`DepthAndSeed.SeedSentTwice`). This happens only to a
  link sent before the marking (`DepthAndSeed.SeedByLinkIffEarly`).
* A fetch error on a worker reaches the server's handler as a fetched page with code 1520
  (`ClusterMode.FetchErrorLooksFetched`). Cluster mode and direct mode agree exactly when
  the page was fetched and read (`ClusterMode.ClusterRefinesDirect`).
* `Do` sends its request before it registers, so a page can arrive first; then
  `respHandler` is stuck for good (`Correlation.StuckForever`). A second page for a call
  that was already served does the same (`Correlation.SecondPageSticks`). It never blocks
  exactly when every page it takes has a waiter (`Correlation.NeverBlocksIffWelcome`); with
  workers that answer once, when every registration is processed before its page
  (`Correlation.NeverBlocksIffTimely`).
* With MinDelay below 1 and MaxDelay above 1 the generator sends delays of 0, so the
  one-second minimum does not hold (`RateControl.DelayIsMinimum`), and any number of
  requests can succeed at once (`RateControl.RateBoundIff`). In all other cases it holds.

## Model

| member | source | states |
|---|---|---|
| `JobObject.Job.SendPageHTML` | job.go:52-75 | a page is accepted exactly when the client is connected, the job is not done and no stop signal wins; a stop signal disconnects and, with CancelOnDisconnect, asks for cancellation |
| `JobObject.Job.FetchErrorHandler` | job.go:91-109 | a failed fetch of an unfinished job offers the client one failure page with the command's own metaStr and depth |
| `JobObject.Job.CallbackPage` | job.go:210-273 | the staged callback flag with its breaking XPath loops is the disjunction of the job's filters, each XPath list read as "all entries match" |
| `JobObject.Job.FetchHTTPGetHandler` | job.go:111-300 | the handler, login check included, changes the frontier only by the links GetEffect expands, offers the client exactly the page GetEffect ships, and asks for cancellation when the page shows that the session has ended; a finished job changes nothing |
| `JobObject.Job.FetchHTTPHeadHandler` | job.go:302-315 | a HEAD of an unfinished job becomes one GET for the same URL and metaStr, with depth 0, no anchor text and a callback |
| `JobObject.Job.CheckEnqueueEligibility` | job.go:792-806 | a link is eligible when all callback filters pass it or the follow filter does |
| `JobObject.Job.EnqueueLink` | job.go:816-872 | one anchor marks or sends its URL as FollowLink says: nothing if ineligible or already marked, mark only if off-domain, mark only after a successful send otherwise |
| `JobObject.Job.EnqueueLinks` | job.go:808-894 | expansion in place equals FollowLinks on `duplicates` and the queue; an analyzed-URL report lists each resolved link once, and is made only to a connected listener |
| `JobObject.Job.EnqueueSeed` | job.go:774-788 | the raw seed is marked whether or not it can be sent, the job goes on exactly when it was sent, and what is sent is a GET of the seed at depth 0 |
| `JobObject.Job.HandlePageRequest` | job.go:692-773 | a client request becomes one depth-0 command that is a HEAD only where a HEAD was asked for and carries the client's metaStr, URL or script URL, and noCallback for scripts only; it marks nothing, and a request that cannot be sent ends request handling |
| `JobObject.ListOf` | job.go:879-882 | listing a URL map gives each key once and nothing else |
| `CrawlerObject.Crawler.HandleGet` | job.go:91-300 | fetching a waiting GET command and calling its handler on the job object is exactly the GET step of the crawl machine |
| `CrawlerObject.Crawler.HandleHead` | job.go:302-315 | a HEAD command likewise is exactly its HEAD step, which sends nothing in a job that is done |
| `CrawlerObject.Crawler.StartSeed` | job.go:774-788 | marking and sending the seed on the job object are exactly the two seed steps, and a seed that cannot be sent ends the job |
| `CrawlerObject.Crawler.AddPage` | job.go:692-773 | a page request is exactly the step that adds its command as a root, or changes nothing |
| `CrawlerObject.DoneIsFinal` | job.go:302-305 | once a job is done, its handlers put nothing into the queue and mark nothing, and it stays done |
| `LinkExpansion.FollowLinksSpec` | job.go:815-872 | whichever sends fail, an expansion only appends commands for distinct, previously unmarked, eligible crawlable links, and marks exactly the URLs it sent and the eligible off-domain ones |
| `LinkExpansion.OpenQueueMarks` | job.go:841-870 | while the queue is open every crawlable eligible link of the page ends up marked |
| `LinkExpansion.ExpansionExact` | job.go:792-872 | with an open queue the URLs sent are exactly the crawlable, unmarked URLs with at least one eligible link |
| `LinkExpansion.ExpansionOrderIndependent` | job.go:816-872 | any permutation of a page's links sends the same URLs and marks the same URLs |
| `LinkExpansion.SentAreAnalyzed` | job.go:833-835 | every URL sent for a page is among its analyzed URLs |
| `Rules.FilterRule` | job.go:792-806 | with an open queue an unmarked requestable URL on an allowed host is left unsent if and only if, for every link to it, the follow regexp rejects the URL and a callback regexp rejects the URL or the anchor text |
| `Rules.PassingLinkIsSent` | job.go:792-806 | a link that the follow regexp matches, or that no callback filter rejects, is sent |
| `Rules.HostRule` | job.go:841-870 | without a seed or with FollowOtherDomains every host is allowed; otherwise a link to another host is marked and never sent; on an allowed host a link is sent, and then marked, if and only if it can be requested |
| `Rules.SentCommandRule` | job.go:855-868 | the command for a link is a HEAD exactly with CheckContent on, carries the page's metaStr, a link's anchor text, and a depth one more modulo 2^32 |
| `Rules.EdgeRule` | job.go:111-206 | the graph of all whole-crawl theorems is the rule read off the option fields: the page is fetched, of the job's mime type, without HTTP error, read, logged in and follow-matching, and has a link that is not refused to a requestable URL on an allowed host |
| `Rules.FetchedByRule` | job.go:188-206 | a finished undisturbed crawl with following on and no depth limit has fetched exactly the URLs that rule leads to from its roots |
| `Rules.OtherHost` | job.go:841-852 | a finished crawl fetches a linked page on another host than its seed's with FollowOtherDomains and not without |
| `PageHandler.FiltersAgree` | job.go:188-273 | without XPath filters a fetched page whose link was eligible is shipped as a success, or passes the follow filter and is expanded unless NoFollow, Depth or an unparseable body stops it, or shows that the session has ended, which is exactly when the job is cancelled |
| `Rules.LoginRule` | job.go:156-185 | a read page without HTTP error cancels the job exactly when a login check is to be made and its XPath value differs, ignoring case; then code 1502 is reported and no link followed |
| `Rules.ErrorStatusRule` | job.go:120-137 | a status from 400 to 599 follows nothing and is reported exactly at depth 0 |
| `Rules.LinkErrorsAreSilent` | job.go:120-137 | with CheckContent off and a Depth, no link-found command in any reachable state reports an HTTP error status |
| `Rules.LinkErrorsAfterHead` | job.go:302-315 | with CheckContent on every one does, because the HEAD handler drops the depth |
| `Rules.ShipRule` | job.go:210-300 | a page is kept back exactly when it fails every filter, each given XPath list having a value that differs; a shipped page carries the body, status, metaStr, depth and anchor text |
| `Rules.FollowRule` | job.go:188-206 | exactly the pages that NoFollow, the follow regexp and Depth let through have their links followed, and an unparseable one is reported as code 1550 |
| `Rules.OutcomeRule` | job.go:91-109 | a fetch error is reported as code 1520 with the command's metaStr and depth; a page of another mime type is ignored |
| `Provenance.NoWastedFetch` | job.go:792-806 | the same for every page link-following found, in every reachable state of a crawl, also after a HEAD has dropped the anchor text |
| `Provenance.ReachableInvariants` | job.go:690-872 | in every run, also one that handles added pages before RunJob has marked its seed, `duplicates` is exactly the seed once marked, the URLs link-following sent and the eligible off-domain URLs seen, no URL is sent twice, the seed is not sent by link-following once marked, and every command has a discovery chain to a root whose metaStr it carries, with depth equal to chain length when CheckContent is off |
| `Provenance.Confinement` | job.go:841-870 | link-found commands have the seed's host unless other domains are followed, carry a root's metaStr, and with CheckContent off have depth between 1 and a non-negative Depth |
| `Provenance.NothingIsLost` | job.go:188-206 | until the job is done, every GET command asked for or sent has been handled or still waits |
| `Crawl.DedupStep` | job.go:841-870 | every event keeps the exact description of `duplicates` and the at-most-once sending |
| `Provenance.TraceableStep` | job.go:188-206 | every event keeps a discovery chain for every command known to the crawl |
| `Closure.ScheduleIndependence` | job.go:188-206 | with following on and no depth limit, any undisturbed run that has sent its seed and emptied its queue has fetched exactly the least set with the roots that is closed under eligible crawlable links of follow-matching pages |
| `Closure.SameRootsSameFetch` | job.go:792-872 | two such runs with the same roots fetch the same URLs, whatever the handling order |
| `Closure.FetchedIsLeast` | job.go:841-859 | in any run nothing is fetched that a closed set with the roots leaves out |
| `Budget.CrawlIsBounded` | job.go:808-872 | with n reachable URLs, in every run link-following sends at most n commands and the queue hands out at most the roots' own requests plus n (2n with CheckContent) |
| `Budget.CrawlEnds` | job.go:808-872 | no schedule handles commands for ever: every run takes at most as many handling steps as the roots and n reachable URLs pay for |
| `Budget.CrawlFinishes` | job.go:188-206 | total correctness: any undisturbed run over finitely many URLs whose HEAD requests reach a handler can be continued until its seed is sent and its queue empty, within that bound, and with following on and no depth limit has then fetched exactly the least closed set |
| `Budget.BudgetStep` | job.go:302-315 | commands handled plus the cost of those waiting never exceed what roots and sent links pay for: the termination measure |
| `BreadthFirst.BreadthFirstAlways` | job.go:188-206 | with the seed as only root, CheckContent off and commands handled in send order, in every state of every run, finished or not, each command handled or waiting has its URL's shortest follow distance as depth, within Depth, and every URL nearer than the next command's has been fetched |
| `BreadthFirst.BreadthFirstExact` | job.go:188-206 | once the queue of such a crawl is empty it has fetched exactly the URLs within follow distance Depth of the seed |
| `BreadthFirst.LayeredStep` | job.go:841-870 | handling the oldest command keeps the levels sorted, within one of each other, reached by real paths and closed under links |
| `DepthAndSeed.DepthLimitsNothing` | job.go:302-315 | with CheckContent on and Depth positive a finished undisturbed crawl has fetched every URL that a follow path of any length reaches from a root |
| `DepthAndSeed.BeyondDepth` | job.go:302-315 | a finished crawl with Depth 1 that fetched a page at distance 2 |
| `DepthAndSeed.SeedSentOnce` | job.go:692-788 | in every run that adds no page before the seed is marked, link-following never sends the seed |
| `DepthAndSeed.SeedByLinkIffEarly` | job.go:774-788 | in every reachable state link-following has sent the seed if and only if it had done so before the seed was marked, and then once |
| `DepthAndSeed.SeedSentTwice` | job.go:692-788 | a run with an added page that links to the seed sends the seed twice |
| `ClusterMode.ExactlyOneAnswer` | job.go:91-154 | whatever the web returned, a dispatched request makes a worker job ship exactly one page, carrying the request's metaStr |
| `ClusterMode.WorkerCommandIsRequest` | workermanager.go:95-104 | the command a worker handles is the one its job makes of a GET page request with the waiter's id |
| `ClusterMode.ClusterRefinesDirect` | workermanager.go:95-120 | for non-redirected text/html, cluster mode expands the same links and ships the same page up to error wording as direct mode, if and only if the response was fetched and read |
| `ClusterMode.FetchErrorLooksFetched` | workermanager.go:109-119 | after a fetch error on the worker the cluster job never reports a fetch failure, and ships an empty page as a success where it would ship a fetched one, while a direct job always reports the failure |
| `ClusterCrawl.ClusterCrawlsTheSame` | workermanager.go:95-120 | whenever every URL a step visits is a plain page (and a HEAD reaches a handler where one is made), a sequence of states is a run of the crawl through workers if and only if it is a run of the direct crawl; unvisited URLs may do anything |
| `ClusterDo.DoGetsItsAnswer` | workermanager.go:73-150 | with workers that answer each request once with what their job ships, in every interleaving a Do call that returned got the status and content of the worker's answer for its own URL |
| `ClusterDo.ClusterEndToEnd` | workermanager.go:95-120 | for a non-redirected page, the server's handler behind such a call expands and ships as after a direct fetch if and only if the worker fetched and read the page |
| `ClusterDo.DoReturnsIffAnswered` | workermanager.go:95-120 | some run has a Do for a URL return if and only if the worker's fetch fails or the page is served as text/html; otherwise Do waits for ever |
| `WorkerQueues.DeadPrefix` | workerqueue.go:25-37 | the discarded workers are exactly the non-ready ones in front of the first ready one |
| `WorkerQueues.WorkerQueue.Push` | workerqueue.go:7-12 | a worker goes to the back; nil is ignored |
| `WorkerQueues.WorkerQueue.Pop` | workerqueue.go:14-23 | the front worker leaves; an empty queue gives nil |
| `WorkerQueues.WorkerQueue.Next` | workerqueue.go:25-37 | the popping loop returns the first ready worker or none; what stays queued is exactly the workers from the returned one on, that one now at the back, and nothing if none was ready |
| `WorkerQueues.Run` | workermanager.go:56-66 | the select loop makes one reply per request, in order, each the next serving of the queue |
| `WorkerQueues.GoneForGood` | workerqueue.go:25-37 | over any run a worker that has left the queue is never returned again |
| `WorkerQueues.PassedOverIsGone` | workerqueue.go:25-37 | a worker that a call passes over, in front of the one returned or anywhere when none was, is never served later in the run |
| `WorkerQueues.ServedSoon` | workerqueue.go:25-37 | a ready worker at position p is served within p+1 calls, under any additions and deaths |
| `WorkerQueues.Fairness` | workerqueue.go:25-37 | between two consecutive servings of a worker every other worker queued and ready throughout is served exactly once |
| `WorkerQueues.Rotation` | workerqueue.go:25-37 | with n workers always ready, call i returns initial entry i mod n |
| `Handshake.InvAt` | workermanager.go:34-66 | in every reachable state callers awaiting equal requests plus replies plus a held reply, replies reach distinct callers in the order made, and reply i is the i-th serving of the worker queue |
| `Handshake.AddsInOrder` | workermanager.go:47-66 | workers enter the queue in the order in which they were added and none is lost |
| `Handshake.DeadlockFree` | workermanager.go:51-66 | despite the 10-slot buffers some step is enabled exactly when a caller waits |
| `Handshake.EveryCallerServed` | workermanager.go:51-66 | in every run, with calls arriving and workers being added at any time, the internal steps never exceed four per call plus what was left at the start, and reach that number exactly when nobody waits |
| `Correlation.CorrelationSafety` | workermanager.go:73-150 | in every interleaving of raw and chrome calls, and whatever pages arrive, a call that returned got a page with its own id and no page went to two calls |
| `Correlation.NeverBlocksIffTimely` | workermanager.go:73-109 | with workers that answer each request once, respHandler never blocks if and only if every registration is processed before its page |
| `Correlation.NeverBlocksIffWelcome` | workermanager.go:73-93 | whatever pages arrive, respHandler never blocks if and only if every routable page it takes has a registered waiter that has not been served |
| `Correlation.StuckForever` | workermanager.go:88-109 | once respHandler holds a page whose waiter is not registered or was already served, it holds it for ever: no call registers or returns again, and later calls stay unregistered |
| `Correlation.RaceIsReachable` | workermanager.go:95-109 | with well-behaved workers a stuck state is reached by request, answer, take |
| `Correlation.SecondPageSticks` | workermanager.go:77-89 | so does a second page for a call already served, although its id is registered |
| `Correlation.RespHandler` | workermanager.go:73-93 | the loop hands every routable page to the channel registered under its id, up to the first page whose waiter is missing or already served, where it blocks |
| `Correlation.HandedToItsWaiter` | workermanager.go:77-89 | a page only goes to a channel registered under the id it carries |
| `Correlation.HandedOnce` | workermanager.go:77-89 | no call is handed two pages |
| `Correlation.LoopMatchesMachine` | workermanager.go:73-93 | in every interleaving, the loop on the inputs received so far hands over exactly the pages that calls have or are about to get, and stops exactly when the state machine is blocked |
| `Delivery.PipelineIsFifo` | worker.go:322-358 | the client stream is the subscription page and a prefix of the accepted pages; if the listener returned nil it is all of them; the job's pages on PageChan are a prefix in the same order without the subscription page |
| `Delivery.RestsOnlyWhenDelivered` | worker.go:322-358 | with bounded channels and Sends that succeed, the pipeline comes to rest if and only if every accepted page has reached the client program, and the listener has returned if the job closed its channel |
| `Delivery.ClientStep` | goclient/ideacrawlerclient.go:257-288 | every step keeps relayed plus buffered pages equal to what was received after the subscription page |
| `Delivery.AddDomainAndListen` | worker.go:333-357 | the listener streams the subscription page and then the pages in order up to the first failed Send, and returns nil exactly when none fails |
| `Quiescence.QuiescenceAfterCancel` | job.go:52-75 | after doneChan is closed the pages still accepted number at most the handlers already past the done check of sendPageHTML, one each, and the expansions at most the handlers that had not yet enqueued |
| `Quiescence.LateHandlerIsSilent` | job.go:111-114 | a handler started after the close never ships and never enqueues |
| `Quiescence.BoundsAreReached` | job.go:52-75 | these bounds are exact: after any run doneChan can be closed and then every handler past the matching point ships, or enqueues |
| `Quiescence.HandlerShips` | job.go:111-300 | a handler that starts before the close can enqueue and ship; one that starts after it ends at once |
| `RateControl.DelayIsMinimum` | doer.go:62-71 | every int32 value the generator sends, on every random source, holds a slot for max(MinDelay, 1) seconds if and only if MinDelay is positive or MaxDelay at most 1; otherwise the first value of every source holds it for 0 seconds |
| `RateControl.GeneratedDelaysHold` | doer.go:62-71 | under that condition each such value holds its slot at least max(MinDelay, 1) seconds |
| `RateControl.HoldExact` | doer.go:62-71 | the hold is exactly max(MinDelay, 1) when MaxDelay is no larger, and otherwise the value drawn modulo 2^32 |
| `RateControl.ConcurrencyBound` | doer.go:35-91 | with N slots at most N main requests are in progress in every state of every schedule |
| `RateControl.OneValueEach` | doer.go:62-71 | in every run each request takes at most one value of the generator |
| `RateControl.RateBound` | doer.go:35-91 | in every run whose timers come from MinDelay, MaxDelay and the values taken in order from the generator, whatever the order in which the timers start, if that condition holds and the values drawn fit int32, at most k*N main requests succeed in any half-open window of k*max(MinDelay, 1) seconds |
| `RateControl.RateBoundIff` | doer.go:62-71 | runs that take the generator's values in order, all fitting int32, can break the bound if and only if there is a slot, MinDelay is below 1 and MaxDelay above 1; in exactly these cases there is, for every n, a run with n requests that succeed at one instant |
| `DelayGenerator.GenRand` | doer.go:96-102 | the result is the first draw that is at least min, or 0 without drawing when min is not positive |
| `DelayGenerator.RandomGenerator` | doer.go:93-112 | the loop sends exactly the delays of Delays |
| `DelayGenerator.GeneratorShape` | doer.go:93-112 | for any random source every value is at least min and every long pause at least max, the first long pause is the sixth value, long pauses are at least 5 apart, and the first n values hold at most (n-1)/5 of them |
| `DelayGenerator.NextPause` | doer.go:104-109 | at a long pause the gap is the first draw of at least 5 and the pause the first draw after it of at least max, and the next long pause comes exactly the gap later |

## Left out

- Chrome control, DevTools sessions and JavaScript evaluation are foreign calls and timing.
- Login flows and cookie jars, HTTP plumbing around the handlers; the login check after each page is modelled, and a run of the rate machine may start after the one value a login flow can take from `randChan`.
- The internals of fetchbot, purell, goquery, regexp, xpath and net/url are arbitrary functions; that `URL.String` gives back the parsed string is built into the identification of URLs with strings.
- That `doneChan` is closed at most once, and that every send on `cancelChan` completes, are not claimed.
- Prefetch requests bypass the semaphore and are not counted as requests by the rate bound.
- The network-interface check in `Do`, which only ends a request early.
- `addNewJob` validation, `jobManager`, `AddPages`, `CancelJob` and `IsAlive` would only add easy members.
- Buffer capacities appear in the handshake and delivery machines; in the sequential methods a send is taken as completed.
- GetEffect: the wording of read and parse error messages is fixed text, because no decision depends on it; nil and empty job ids are not told apart.
- Delivery: the channel is not sent to after RunJob closes it, which fetchbot's waiting for its workers is taken to guarantee.
- `prefetchurl`, generated protobuf code, the Python client, command line and listeners.
