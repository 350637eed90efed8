/** The path of a page from the job to the client: sendPageHTML puts it into
    sendChan (job.go), AddDomainAndListen streams it (worker.go), and the client's
    run relays it to PageChan (goclient/ideacrawlerclient.go). */
module Delivery {
  import opened CrawlTypes

  const SEND_CAPACITY: nat := 1000
  const RELAY_CAPACITY: nat := 1000
  const PAGE_CAPACITY: nat := 100

  datatype Listener = Starting | Relaying | Broken | Finished

  // PageChan may be shared by several jobs.
  datatype Item = Item(mine: bool, page: Page)

  datatype State = State(
    accepted: seq<Page>,      // every page sendPageHTML accepted, oldest first
    sendChan: seq<Page>,
    closed: bool,             // RunJob has closed sendChan
    listener: Listener,
    stream: seq<Page>,        // every page streamed to the client
    received: nat,            // how many of them the client has received
    phChan: seq<Page>,
    pageChan: seq<Item>,      // everything ever put on PageChan
    consumed: nat)            // how much of it the client program has read

  datatype Event =
    | Accept(p: Page)
    | Subscribe(ok: bool)
    | Forward(ok: bool)
    | Close
    | Finish
    | FirstReceive
    | Receive
    | Relay
    | Other(p: Page)
    | Consume

  function Init(): State {
    State([], [], false, Starting, [], 0, [], [], 0)
  }

  predicate Enabled(s: State, e: Event) {
    match e
    case Accept(_) => !s.closed && |s.sendChan| < SEND_CAPACITY
    case Subscribe(_) => s.listener.Starting?
    case Forward(_) => s.listener.Relaying? && s.sendChan != []
    case Close => !s.closed
    case Finish => s.listener.Relaying? && s.sendChan == [] && s.closed
    case FirstReceive => s.received == 0 && s.stream != []
    case Receive => 0 < s.received < |s.stream| && |s.phChan| < RELAY_CAPACITY
    case Relay => s.phChan != [] && |s.pageChan| - s.consumed < PAGE_CAPACITY
    case Other(_) => |s.pageChan| - s.consumed < PAGE_CAPACITY
    case Consume => s.consumed < |s.pageChan|
  }

  function Apply(sub: Page, s: State, e: Event): State
    requires Enabled(s, e)
  {
    match e
    case Accept(p) => s.(accepted := s.accepted + [p], sendChan := s.sendChan + [p])
    case Subscribe(ok) => if ok then s.(stream := [sub], listener := Relaying) else s.(listener := Broken)
    case Forward(ok) =>
      var p, t := s.sendChan[0], s.(sendChan := s.sendChan[1..]);
      if ok then t.(stream := s.stream + [p]) else t.(listener := Broken)
    case Close => s.(closed := true)
    case Finish => s.(listener := Finished)
    case FirstReceive => s.(received := 1)
    case Receive => s.(received := s.received + 1, phChan := s.phChan + [s.stream[s.received]])
    case Relay => s.(phChan := s.phChan[1..], pageChan := s.pageChan + [Item(true, s.phChan[0])])
    case Other(p) => s.(pageChan := s.pageChan + [Item(false, p)])
    case Consume => s.(consumed := s.consumed + 1)
  }

  /** A page waits only for a full channel: 1000 pages for the client, 1000 in its
      relay, 100 in PageChan. */
  lemma Capacities(s: State, p: Page)
    ensures !s.closed ==> Enabled(s, Close) && (Enabled(s, Accept(p)) <==> |s.sendChan| < 1000)
    ensures 0 < s.received < |s.stream| ==> (Enabled(s, Receive) <==> |s.phChan| < 1000)
    ensures s.phChan != [] ==> (Enabled(s, Relay) <==> |s.pageChan| - s.consumed < 100)
  {
  }

  ghost predicate IsRun(sub: Page, ss: seq<State>, es: seq<Event>) {
    && |ss| == |es| + 1 && ss[0] == Init()
    && forall i :: 0 <= i < |es| ==> Enabled(ss[i], es[i]) && ss[i + 1] == Apply(sub, ss[i], es[i])
  }

  /** This job's pages on PageChan, in order. */
  function Mine(items: seq<Item>): seq<Page> {
    if items == [] then []
    else
      var n := |items| - 1;
      Mine(items[..n]) + (if items[n].mine then [items[n].page] else [])
  }

  ghost predicate ServerSide(sub: Page, s: State) {
    && (s.listener.Starting? ==> s.stream == [] && s.accepted == s.sendChan)
    && (s.listener.Relaying? || s.listener.Finished? ==>
          s.stream != [] && s.stream[0] == sub && s.accepted == s.stream[1..] + s.sendChan)
    && (s.listener.Finished? ==> s.closed && s.sendChan == [])
    && (s.stream != [] ==> s.stream[0] == sub && s.stream[1..] <= s.accepted)
  }

  ghost predicate ClientSide(s: State) {
    && s.received <= |s.stream| && s.consumed <= |s.pageChan|
    && (s.received == 0 ==> Mine(s.pageChan) + s.phChan == [])
    && (s.received > 0 ==> Mine(s.pageChan) + s.phChan == s.stream[1..s.received])
  }

  lemma ServerForward(sub: Page, s: State, ok: bool)
    requires ServerSide(sub, s) && Enabled(s, Forward(ok))
    ensures ServerSide(sub, Apply(sub, s, Forward(ok)))
  {
  }

  lemma ServerAccept(sub: Page, s: State, p: Page)
    requires ServerSide(sub, s) && Enabled(s, Accept(p))
    ensures ServerSide(sub, Apply(sub, s, Accept(p)))
  {
  }

  lemma ServerStep(sub: Page, s: State, e: Event)
    requires ServerSide(sub, s) && Enabled(s, e)
    ensures ServerSide(sub, Apply(sub, s, e))
  {
    match e
    case Accept(p) => ServerAccept(sub, s, p);
    case Forward(ok) => ServerForward(sub, s, ok);
    case _ =>
  }

  lemma MineSnoc(items: seq<Item>, item: Item)
    ensures Mine(items + [item]) == Mine(items) + (if item.mine then [item.page] else [])
  {
  }

  lemma ClientReceive(sub: Page, s: State)
    requires ClientSide(s) && Enabled(s, Receive)
    ensures ClientSide(Apply(sub, s, Receive))
  {
    var n := s.received;
    assert s.stream[1..n + 1] == s.stream[1..n] + [s.stream[n]];
    assert Mine(s.pageChan) + (s.phChan + [s.stream[n]]) == (Mine(s.pageChan) + s.phChan) + [s.stream[n]];
  }

  lemma ClientRelay(sub: Page, s: State)
    requires ClientSide(s) && Enabled(s, Relay)
    ensures ClientSide(Apply(sub, s, Relay))
  {
    var p, rest := s.phChan[0], s.phChan[1..];
    MineSnoc(s.pageChan, Item(true, p));
    assert s.phChan == [p] + rest;
    assert (Mine(s.pageChan) + [p]) + rest == Mine(s.pageChan) + ([p] + rest);
  }

  lemma ClientForward(sub: Page, s: State, ok: bool)
    requires ClientSide(s) && Enabled(s, Forward(ok))
    ensures ClientSide(Apply(sub, s, Forward(ok)))
  {
  }

  lemma ClientSubscribe(sub: Page, s: State, ok: bool)
    requires ServerSide(sub, s) && ClientSide(s) && Enabled(s, Subscribe(ok))
    ensures ClientSide(Apply(sub, s, Subscribe(ok)))
  {
  }

  lemma ClientStep(sub: Page, s: State, e: Event)
    requires ServerSide(sub, s) && ClientSide(s) && Enabled(s, e)
    ensures ClientSide(Apply(sub, s, e))
  {
    match e
    case Receive => ClientReceive(sub, s);
    case Relay => ClientRelay(sub, s);
    case Forward(ok) => ClientForward(sub, s, ok);
    case Other(p) => MineSnoc(s.pageChan, Item(false, p));
    case Subscribe(ok) => ClientSubscribe(sub, s, ok);
    case FirstReceive => assert s.stream[1..1] == [];
    case _ => assert Apply(sub, s, e).stream == s.stream;
  }

  lemma {:induction false} SidesAt(sub: Page, ss: seq<State>, es: seq<Event>, n: nat)
    requires IsRun(sub, ss, es) && n <= |es|
    ensures ServerSide(sub, ss[n]) && ClientSide(ss[n])
  {
    if n > 0 {
      SidesAt(sub, ss, es, n - 1);
      ServerStep(sub, ss[n - 1], es[n - 1]);
      ClientStep(sub, ss[n - 1], es[n - 1]);
    }
  }

  /** The whole pipeline is one FIFO. In every reachable state the client stream
      is the subscription page followed by a prefix of the accepted pages, and
      this job's pages on PageChan are a prefix of them too, in acceptance order
      and without the subscription page. If the listener returned nil nothing was
      lost, and once the client has caught up PageChan has had every page. */
  lemma PipelineIsFifo(sub: Page, ss: seq<State>, es: seq<Event>, n: nat)
    requires IsRun(sub, ss, es) && n <= |es|
    ensures var s := ss[n];
            && (s.stream != [] ==> s.stream[0] == sub && s.stream[1..] <= s.accepted)
            && Mine(s.pageChan) <= s.accepted
            && (s.listener.Finished? ==> s.stream == [sub] + s.accepted)
            && (s.listener.Finished? && s.received == |s.stream| && s.phChan == [] ==> Mine(s.pageChan) == s.accepted)
  {
    SidesAt(sub, ss, es, n);
    var s := ss[n];
    if s.received > 0 {
      assert Mine(s.pageChan) <= s.stream[1..s.received];
      assert s.stream[1..s.received] == s.stream[1..][..s.received - 1];
    }
    if s.listener.Finished? {
      assert s.stream == [s.stream[0]] + s.stream[1..];
    }
  }

  predicate CanMove(s: State) {
    || Enabled(s, Forward(true)) || Enabled(s, Finish)
    || Enabled(s, FirstReceive) || Enabled(s, Receive) || Enabled(s, Relay) || Enabled(s, Consume)
  }

  /** Despite the bounded channels the pipeline never gets stuck: once the listener
      has subscribed and while its Sends succeed, it comes to rest only when PageChan
      has had every accepted page and the client program has read them all; and the
      listener has then returned if the job has closed its channel. */
  lemma RestsOnlyWhenDelivered(sub: Page, ss: seq<State>, es: seq<Event>, n: nat)
    requires IsRun(sub, ss, es) && n <= |es|
    requires ss[n].listener.Relaying? || ss[n].listener.Finished?
    ensures !CanMove(ss[n]) <==>
            && Mine(ss[n].pageChan) == ss[n].accepted && ss[n].consumed == |ss[n].pageChan|
            && ss[n].received > 0 && (ss[n].closed ==> ss[n].listener.Finished?)
  {
    SidesAt(sub, ss, es, n);
    var s := ss[n];
    assert s.accepted == s.stream[1..] + s.sendChan;
    if !CanMove(s) {
      assert s.received == |s.stream|;
      assert s.stream[1..s.received] == s.stream[1..];
    } else if s.received > 0 && Mine(s.pageChan) == s.accepted {
      assert |Mine(s.pageChan) + s.phChan| == s.received - 1;
      assert |s.accepted| == |s.stream| - 1 + |s.sendChan|;
    }
  }

  /** The listener's own loop over a closed sendChan, when its Sends succeed up
      to the one numbered `failAt`: it returns nil exactly when none fails. */
  method AddDomainAndListen(sub: Page, pages: seq<Page>, failAt: nat) returns (stream: seq<Page>, ok: bool)
    ensures ok <==> failAt > |pages|
    ensures stream == ([sub] + pages)[..if ok then |pages| + 1 else failAt]
  {
    if failAt == 0 { return [], false; }
    stream := [sub];
    for i := 0 to |pages|
      invariant i < failAt
      invariant stream == ([sub] + pages)[..i + 1]
    {
      if i + 1 == failAt { return stream, false; }
      stream := stream + [pages[i]];
    }
    ok := true;
  }
}
