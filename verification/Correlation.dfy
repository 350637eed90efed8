/** Do and respHandler (workermanager.go): concurrent Do calls share one page
    channel and one waiting list, and a single loop hands each page to the call
    whose id it carries. */
module Correlation {
  import opened CrawlTypes

  type Caller = nat

  // A page instance: its place in the arrival order of pageChan, and the parts of
  // the page that respHandler and Do read.
  datatype Msg = Nil(serial: nat) | Msg(serial: nat, metaStr: string, httpStatusCode: Int32, content: Bytes)

  // A Do call has sent its request, then registered, then returned with a page.
  datatype Phase = Requested | Waiting | Returned(page: Msg)
  datatype Call = Call(id: string, url: string, chrome: bool, phase: Phase)

  datatype State = State(
    calls: map<Caller, Call>,
    used: set<string>,               // every id made so far
    outstanding: set<string>,        // requests a worker has not answered yet
    pageChan: seq<Msg>,
    waitingList: map<string, Caller>,
    held: Option<Msg>,               // the page respHandler is sending
    taken: nat)                      // pages respHandler has taken so far

  datatype Event =
    | Begin(c: Caller, id: string, url: string, chrome: bool)
    | Answer(id: string, httpStatusCode: Int32, content: Bytes)
    | Stray(m: Msg)
    | Register(c: Caller)
    | Take
    | Deliver

  function Init(): State {
    State(map[], {}, {}, [], map[], None, 0)
  }

  function Arrived(s: State): nat {
    s.taken + |s.pageChan|
  }

  predicate Enabled(s: State, e: Event) {
    match e
    case Begin(c, id, _, _) => c !in s.calls && id !in s.used && id != ""
    case Answer(id, _, _) => id in s.outstanding
    case Stray(m) => m.serial == Arrived(s)
    case Register(c) => s.held.None? && c in s.calls && s.calls[c].phase.Requested?
    case Take => s.held.None? && s.pageChan != []
    case Deliver =>
      && s.held.Some? && s.held.value.Msg? && s.held.value.metaStr in s.waitingList
      && var c := s.waitingList[s.held.value.metaStr]; c in s.calls && s.calls[c].phase.Waiting?
  }

  function Apply(s: State, e: Event): State
    requires Enabled(s, e)
  {
    match e
    case Begin(c, id, url, chrome) =>
      s.(calls := s.calls[c := Call(id, url, chrome, Requested)], used := s.used + {id}, outstanding := s.outstanding + {id})
    case Answer(id, status, content) =>
      s.(outstanding := s.outstanding - {id}, pageChan := s.pageChan + [Msg(Arrived(s), id, status, content)])
    case Stray(m) => s.(pageChan := s.pageChan + [m])
    case Register(c) =>
      s.(waitingList := s.waitingList[s.calls[c].id := c], calls := s.calls[c := s.calls[c].(phase := Waiting)])
    case Take =>
      var m := s.pageChan[0];
      s.(pageChan := s.pageChan[1..], taken := s.taken + 1,
         held := if m.Nil? || m.metaStr == "" then None else Some(m))
    case Deliver =>
      var c := s.waitingList[s.held.value.metaStr];
      s.(calls := s.calls[c := s.calls[c].(phase := Returned(s.held.value))], held := None)
  }

  ghost predicate IsRun(ss: seq<State>, es: seq<Event>) {
    && |ss| == |es| + 1 && ss[0] == Init()
    && forall i :: 0 <= i < |es| ==> Enabled(ss[i], es[i]) && ss[i + 1] == Apply(ss[i], es[i])
  }

  // ---- safety --------------------------------------------------------------------

  predicate Done(s: State, c: Caller) {
    c in s.calls && s.calls[c].phase.Returned?
  }

  /** Each call that returned got a page with its own id, and no page went to two calls. */
  ghost predicate Correlated(s: State) {
    && (forall c :: Done(s, c) ==> s.calls[c].phase.page.Msg? && s.calls[c].phase.page.metaStr == s.calls[c].id)
    && (forall c, d :: Done(s, c) && Done(s, d) && c != d ==>
          s.calls[c].phase.page.serial != s.calls[d].phase.page.serial)
  }

  ghost predicate Safe(s: State) {
    && Correlated(s)
    && (forall id :: id in s.waitingList ==>
          var c := s.waitingList[id]; c in s.calls && s.calls[c].id == id && !s.calls[c].phase.Requested?)
    && (forall i :: 0 <= i < |s.pageChan| ==> s.pageChan[i].serial == s.taken + i)
    && (s.held.Some? ==> s.held.value.Msg? && s.held.value.metaStr != "" && s.held.value.serial < s.taken)
    && (forall c :: Done(s, c) ==>
          && s.calls[c].phase.page.serial < s.taken
          && (s.held.Some? ==> s.calls[c].phase.page.serial != s.held.value.serial))
    && (forall c :: c in s.calls ==> s.calls[c].id in s.used)
    && (forall c, d :: c in s.calls && d in s.calls && c != d ==> s.calls[c].id != s.calls[d].id)
  }

  lemma SafeBegin(s: State, e: Event)
    requires Safe(s) && Enabled(s, e) && e.Begin?
    ensures Safe(Apply(s, e))
  {
  }

  lemma SafeRegister(s: State, c: Caller)
    requires Safe(s) && Enabled(s, Register(c))
    ensures Safe(Apply(s, Register(c)))
  {
    var t := Apply(s, Register(c));
    assert forall d :: d in s.calls && d != c ==> t.calls[d] == s.calls[d];
    assert forall d :: Done(t, d) <==> Done(s, d);
  }

  lemma SafeArrive(s: State, e: Event)
    requires Safe(s) && Enabled(s, e) && (e.Answer? || e.Stray? || e.Take?)
    ensures Safe(Apply(s, e))
  {
    var t := Apply(s, e);
    assert t.calls == s.calls;
    assert forall d :: Done(t, d) <==> Done(s, d);
  }

  /** A delivery completes one call, and changes no other. */
  lemma DoneAfterDeliver(s: State, d: Caller)
    requires Enabled(s, Deliver)
    ensures var t, c := Apply(s, Deliver), s.waitingList[s.held.value.metaStr];
            && (Done(t, d) <==> d == c || Done(s, d))
            && (d != c && d in s.calls ==> t.calls[d] == s.calls[d])
  {
  }

  lemma SafeDeliver(s: State)
    requires Safe(s) && Enabled(s, Deliver)
    ensures Safe(Apply(s, Deliver))
  {
    forall d { DoneAfterDeliver(s, d); }
  }

  lemma SafeStep(s: State, e: Event)
    requires Safe(s) && Enabled(s, e)
    ensures Safe(Apply(s, e))
  {
    match e
    case Begin(_, _, _, _) => SafeBegin(s, e);
    case Register(c) => SafeRegister(s, c);
    case Deliver => SafeDeliver(s);
    case _ => SafeArrive(s, e);
  }

  /** Correlation safety, in every interleaving and whatever pages arrive. */
  lemma {:induction false} CorrelationSafety(ss: seq<State>, es: seq<Event>, n: nat)
    requires IsRun(ss, es) && n <= |es|
    ensures Safe(ss[n]) && Correlated(ss[n])
  {
    if n > 0 {
      CorrelationSafety(ss, es, n - 1);
      SafeStep(ss[n - 1], es[n - 1]);
    }
  }

  // ---- when respHandler blocks -------------------------------------------------------

  /** The workers answer each request with exactly one page and send nothing else. */
  ghost predicate WorkersBehave(es: seq<Event>) {
    forall i :: 0 <= i < |es| ==> !es[i].Stray?
  }

  /** A page is taken only after the call it answers has registered. */
  predicate Timely(s: State, e: Event) {
    e.Take? && s.pageChan != [] && s.pageChan[0].Msg? ==> s.pageChan[0].metaStr in s.waitingList
  }

  predicate Blocked(s: State) {
    s.held.Some? && !Enabled(s, Deliver)
  }

  /** Every id is in one place: asked for, in the channel, held, or returned. */
  ghost predicate OnePlace(s: State) {
    && (forall i :: 0 <= i < |s.pageChan| ==>
          s.pageChan[i].Msg? && s.pageChan[i].metaStr in s.used - s.outstanding && s.pageChan[i].metaStr != "")
    && (forall i, j :: 0 <= i < j < |s.pageChan| ==> s.pageChan[i].metaStr != s.pageChan[j].metaStr)
    && (s.held.Some? ==> s.held.value.Msg? && s.held.value.metaStr in s.used - s.outstanding)
    && (s.held.Some? ==> forall i :: 0 <= i < |s.pageChan| ==> s.pageChan[i].metaStr != s.held.value.metaStr)
    && (forall c :: Done(s, c) ==>
          && s.calls[c].id in s.used - s.outstanding
          && (s.held.Some? ==> s.held.value.metaStr != s.calls[c].id)
          && forall i :: 0 <= i < |s.pageChan| ==> s.pageChan[i].metaStr != s.calls[c].id)
    && s.outstanding <= s.used && "" !in s.used
  }

  lemma OnePlaceBegin(s: State, e: Event)
    requires Safe(s) && OnePlace(s) && Enabled(s, e) && e.Begin?
    ensures OnePlace(Apply(s, e))
  {
  }

  lemma OnePlaceRegister(s: State, c: Caller)
    requires OnePlace(s) && Enabled(s, Register(c))
    ensures OnePlace(Apply(s, Register(c)))
  {
  }

  lemma OnePlaceAnswer(s: State, e: Event)
    requires OnePlace(s) && Enabled(s, e) && e.Answer?
    ensures OnePlace(Apply(s, e))
  {
  }

  lemma OnePlaceTake(s: State)
    requires OnePlace(s) && Enabled(s, Take)
    ensures OnePlace(Apply(s, Take))
  {
  }

  lemma OnePlaceDeliver(s: State)
    requires Safe(s) && OnePlace(s) && Enabled(s, Deliver)
    ensures OnePlace(Apply(s, Deliver))
  {
    forall d { DoneAfterDeliver(s, d); }
  }

  lemma OnePlaceStep(s: State, e: Event)
    requires Safe(s) && OnePlace(s) && Enabled(s, e) && !e.Stray?
    ensures OnePlace(Apply(s, e))
  {
    match e
    case Begin(_, _, _, _) => OnePlaceBegin(s, e);
    case Register(c) => OnePlaceRegister(s, c);
    case Answer(_, _, _) => OnePlaceAnswer(s, e);
    case Take => OnePlaceTake(s);
    case Deliver => OnePlaceDeliver(s);
  }

  lemma {:induction false} OnePlaceAt(ss: seq<State>, es: seq<Event>, n: nat)
    requires IsRun(ss, es) && n <= |es| && WorkersBehave(es)
    ensures OnePlace(ss[n]) && Safe(ss[n])
  {
    if n > 0 {
      OnePlaceAt(ss, es, n - 1);
      SafeStep(ss[n - 1], es[n - 1]);
      OnePlaceStep(ss[n - 1], es[n - 1]);
    }
  }

  /** With well-behaved workers a held page whose waiter is registered can be
      delivered: the waiter is never one already served. */
  lemma RegisteredMeansWaiting(s: State)
    requires Safe(s) && OnePlace(s) && s.held.Some? && s.held.value.metaStr in s.waitingList
    ensures Enabled(s, Deliver)
  {
  }

  ghost predicate AllTimely(ss: seq<State>, es: seq<Event>)
    requires |ss| == |es| + 1
  {
    forall i :: 0 <= i < |es| ==> Timely(ss[i], es[i])
  }

  lemma {:induction false} HeldIsRegistered(ss: seq<State>, es: seq<Event>, n: nat)
    requires IsRun(ss, es) && n <= |es| && WorkersBehave(es) && AllTimely(ss, es)
    ensures ss[n].held.Some? ==> ss[n].held.value.Msg? && ss[n].held.value.metaStr in ss[n].waitingList
  {
    if n > 0 {
      HeldIsRegistered(ss, es, n - 1);
      OnePlaceAt(ss, es, n - 1);
      assert Timely(ss[n - 1], es[n - 1]);
    }
  }

  /** With well-behaved workers, respHandler never blocks exactly when every
      registration is processed before its page is taken. */
  lemma NeverBlocksIffTimely(ss: seq<State>, es: seq<Event>)
    requires IsRun(ss, es) && WorkersBehave(es)
    ensures (forall n :: 0 <= n <= |es| ==> !Blocked(ss[n])) <==> AllTimely(ss, es)
  {
    if AllTimely(ss, es) {
      forall n | 0 <= n <= |es| ensures !Blocked(ss[n]) {
        HeldIsRegistered(ss, es, n);
        OnePlaceAt(ss, es, n);
        if ss[n].held.Some? { RegisteredMeansWaiting(ss[n]); }
      }
    } else {
      var i :| 0 <= i < |es| && !Timely(ss[i], es[i]);
      OnePlaceAt(ss, es, i);
      assert Blocked(ss[i + 1]);
    }
  }

  /** The page has a waiter registered under its id that has not been served. */
  predicate HasWaiter(s: State, m: Msg) {
    && Routable(m) && m.metaStr in s.waitingList
    && var c := s.waitingList[m.metaStr]; c in s.calls && s.calls[c].phase.Waiting?
  }

  /** A page is taken only while it has a waiter; unroutable pages are dropped. */
  predicate Welcome(s: State, e: Event) {
    e.Take? && s.pageChan != [] && Routable(s.pageChan[0]) ==> HasWaiter(s, s.pageChan[0])
  }

  lemma UnblockedStep(s: State, e: Event)
    requires Safe(s) && !Blocked(s) && Enabled(s, e) && Welcome(s, e)
    ensures !Blocked(Apply(s, e))
  {
  }

  lemma {:induction false} UnblockedAt(ss: seq<State>, es: seq<Event>, n: nat)
    requires IsRun(ss, es) && n <= |es| && forall i :: 0 <= i < |es| ==> Welcome(ss[i], es[i])
    ensures !Blocked(ss[n])
  {
    if n > 0 {
      UnblockedAt(ss, es, n - 1);
      assert Safe(ss[n - 1]) by { CorrelationSafety(ss, es, n - 1); }
      UnblockedStep(ss[n - 1], es[n - 1]);
    }
  }

  /** Whatever pages arrive, respHandler never blocks exactly when every routable
      page it takes has a registered waiter that has not been served yet. */
  lemma NeverBlocksIffWelcome(ss: seq<State>, es: seq<Event>)
    requires IsRun(ss, es)
    ensures (forall n :: 0 <= n <= |es| ==> !Blocked(ss[n])) <==> forall i :: 0 <= i < |es| ==> Welcome(ss[i], es[i])
  {
    if forall i :: 0 <= i < |es| ==> Welcome(ss[i], es[i]) {
      forall n | 0 <= n <= |es| ensures !Blocked(ss[n]) {
        UnblockedAt(ss, es, n);
      }
    } else {
      var i :| 0 <= i < |es| && !Welcome(ss[i], es[i]);
      assert Blocked(ss[i + 1]);
    }
  }

  lemma BlockedStep(s: State, e: Event)
    requires Blocked(s) && Enabled(s, e)
    ensures var t := Apply(s, e);
            && Blocked(t) && t.held == s.held && t.waitingList == s.waitingList
            && forall c :: c in s.calls ==> c in t.calls && t.calls[c] == s.calls[c]
    ensures forall c :: c in Apply(s, e).calls && c !in s.calls ==> Apply(s, e).calls[c].phase.Requested?
  {
  }

  /** A respHandler that holds a page without a waiter, because none registered yet
      or because it was served before, is stuck for good: in every continuation no
      call registers, none returns, and calls begun later stay unregistered. */
  lemma {:induction false} StuckForever(ss: seq<State>, es: seq<Event>, a: nat, b: nat)
    requires IsRun(ss, es) && a <= b <= |es| && Blocked(ss[a])
    ensures Blocked(ss[b]) && ss[b].held == ss[a].held && ss[b].waitingList == ss[a].waitingList
    ensures forall c :: c in ss[a].calls ==> c in ss[b].calls && ss[b].calls[c] == ss[a].calls[c]
    ensures forall c :: c in ss[b].calls && c !in ss[a].calls ==> ss[b].calls[c].phase.Requested?
    decreases b - a
  {
    if a < b {
      BlockedStep(ss[a], es[a]);
      StuckForever(ss, es, a + 1, b);
    }
  }

  /** Do sends its request before it registers, so the page can come first: the
      shortest run to a stuck respHandler is request, answer, take. */
  lemma RaceIsReachable(id: string) returns (ss: seq<State>, es: seq<Event>)
    requires id != ""
    ensures IsRun(ss, es) && WorkersBehave(es) && |es| == 3 && Blocked(ss[3])
  {
    es := [Begin(0, id, "", false), Answer(id, 200, []), Take];
    var s1 := Apply(Init(), es[0]);
    var s2 := Apply(s1, es[1]);
    var s3 := Apply(s2, es[2]);
    ss := [Init(), s1, s2, s3];
  }

  /** Waiters are never removed, so a second page for a call that was served sticks
      respHandler too, although the id is registered. */
  lemma SecondPageSticks(id: string) returns (ss: seq<State>, es: seq<Event>)
    requires id != ""
    ensures IsRun(ss, es) && |es| == 7 && Blocked(ss[7]) && Done(ss[7], 0)
    ensures id in ss[7].waitingList && ss[7].held == Some(Msg(1, id, 200, []))
  {
    var page, again := Msg(0, id, 200, []), Msg(1, id, 200, []);
    ss, es := ServedCall(id, "", false, page);
    var s := ss[5];
    ss, es := Extend(ss, es, Stray(again));
    assert ss[6] == s.(pageChan := [again]);
    ss, es := Extend(ss, es, Take);
    assert ss[7] == s.(held := Some(again), taken := 2);
  }

  lemma Extend(ss: seq<State>, es: seq<Event>, e: Event) returns (ss': seq<State>, es': seq<Event>)
    requires IsRun(ss, es) && Enabled(ss[|es|], e)
    ensures IsRun(ss', es') && es' == es + [e] && ss' == ss + [Apply(ss[|es|], e)]
  {
    ss', es' := ss + [Apply(ss[|es|], e)], es + [e];
  }

  /** The undisturbed life of one call: it registers before its page is taken. */
  lemma ServedCall(id: string, url: string, chrome: bool, page: Msg) returns (ss: seq<State>, es: seq<Event>)
    requires id != "" && page.Msg? && page == Msg(0, id, page.httpStatusCode, page.content)
    ensures IsRun(ss, es)
    ensures es == [Begin(0, id, url, chrome), Register(0), Answer(id, page.httpStatusCode, page.content), Take, Deliver]
    ensures ss[2].calls == map[0 := Call(id, url, chrome, Waiting)]
    ensures ss[5] == State(map[0 := Call(id, url, chrome, Returned(page))], {id}, {}, [], map[id := 0], None, 1)
  {
    var call := Call(id, url, chrome, Waiting);
    ss, es := [Init()], [];
    ss, es := Extend(ss, es, Begin(0, id, url, chrome));
    assert ss[1] == State(map[0 := call.(phase := Requested)], {id}, {id}, [], map[], None, 0);
    ss, es := Extend(ss, es, Register(0));
    assert ss[2] == State(map[0 := call], {id}, {id}, [], map[id := 0], None, 0);
    ss, es := Extend(ss, es, Answer(id, page.httpStatusCode, page.content));
    assert ss[3] == State(map[0 := call], {id}, {}, [page], map[id := 0], None, 0);
    ss, es := Extend(ss, es, Take);
    assert ss[4] == State(map[0 := call], {id}, {}, [], map[id := 0], Some(page), 1);
    ss, es := Extend(ss, es, Deliver);
  }

  // ---- the loop itself ---------------------------------------------------------------

  // What respHandler receives: a registration with its response channel, or a page.
  // A call receives once on the channel it made, so a channel takes one page.
  datatype Input = Registration(id: string, channel: Caller) | Arrival(m: Msg)
  datatype Handover = Handover(channel: Caller, m: Msg)

  predicate Routable(m: Msg) {
    m.Msg? && m.metaStr != ""
  }

  function Channels(hs: seq<Handover>): set<Caller> {
    set h | h in hs :: h.channel
  }

  function WaitingAfter(inputs: seq<Input>): map<string, Caller> {
    if inputs == [] then map[]
    else
      var n := |inputs| - 1;
      var before := WaitingAfter(inputs[..n]);
      if inputs[n].Registration? then before[inputs[n].id := inputs[n].channel] else before
  }

  /** After `inputs`, page `m` finds a channel under its id that still has a receiver. */
  predicate CanHand(inputs: seq<Input>, m: Msg)
    decreases |inputs|, 1
  {
    && Routable(m) && m.metaStr in WaitingAfter(inputs)
    && WaitingAfter(inputs)[m.metaStr] !in Channels(Handed(inputs))
  }

  function Handed(inputs: seq<Input>): seq<Handover>
    decreases |inputs|, 0
  {
    if inputs == [] then []
    else
      var n := |inputs| - 1;
      Handed(inputs[..n])
      + (if inputs[n].Arrival? && CanHand(inputs[..n], inputs[n].m)
         then [Handover(WaitingAfter(inputs[..n])[inputs[n].m.metaStr], inputs[n].m)] else [])
  }

  /** Input `k` blocks the loop: a routable page with no channel registered under
      its id, or with one whose call has already been served. */
  predicate Stops(inputs: seq<Input>, k: nat)
    requires k < |inputs|
  {
    inputs[k].Arrival? && Routable(inputs[k].m) && !CanHand(inputs[..k], inputs[k].m)
  }

  lemma HandedSnoc(inputs: seq<Input>, m: Msg)
    ensures WaitingAfter(inputs + [Arrival(m)]) == WaitingAfter(inputs)
    ensures Handed(inputs + [Arrival(m)])
            == Handed(inputs) + if CanHand(inputs, m) then [Handover(WaitingAfter(inputs)[m.metaStr], m)] else []
    ensures Stops(inputs + [Arrival(m)], |inputs|) <==> Routable(m) && !CanHand(inputs, m)
  {
  }

  lemma RegistrationSnoc(inputs: seq<Input>, id: string, channel: Caller)
    ensures WaitingAfter(inputs + [Registration(id, channel)]) == WaitingAfter(inputs)[id := channel]
    ensures Handed(inputs + [Registration(id, channel)]) == Handed(inputs)
  {
  }

  /** The loop hands every routable page to the channel registered under its id,
      until the first page without a receiver, where it blocks. */
  method RespHandler(inputs: seq<Input>) returns (handed: seq<Handover>, stop: nat)
    ensures stop <= |inputs| && handed == Handed(inputs[..stop])
    ensures forall k :: 0 <= k < stop ==> !Stops(inputs, k)
    ensures stop < |inputs| ==> Stops(inputs, stop)
  {
    var waitingList: map<string, Caller> := map[];
    var served: set<Caller> := {};  // channels nobody receives from any more
    handed, stop := [], 0;
    while stop < |inputs|
      invariant stop <= |inputs| && handed == Handed(inputs[..stop]) && waitingList == WaitingAfter(inputs[..stop])
      invariant served == Channels(handed)
      invariant forall k :: 0 <= k < stop ==> !Stops(inputs, k)
    {
      assert inputs[..stop + 1] == inputs[..stop] + [inputs[stop]];
      match inputs[stop] {
        case Registration(id, channel) =>
          RegistrationSnoc(inputs[..stop], id, channel);
          waitingList := waitingList[id := channel];
        case Arrival(m) =>
          HandedSnoc(inputs[..stop], m);
          if m.Msg? && m.metaStr != "" {
            if m.metaStr !in waitingList || waitingList[m.metaStr] in served { return; }
            var channel := waitingList[m.metaStr];
            ChannelsSnoc(handed, Handover(channel, m));
            handed, served := handed + [Handover(channel, m)], served + {channel};
          }
      }
      stop := stop + 1;
    }
  }

  lemma ChannelsSnoc(hs: seq<Handover>, h: Handover)
    ensures Channels(hs + [h]) == Channels(hs) + {h.channel}
  {
  }

  lemma {:induction false} WaitingIsRegistered(inputs: seq<Input>, id: string)
    requires id in WaitingAfter(inputs)
    ensures Registration(id, WaitingAfter(inputs)[id]) in inputs
  {
    var n := |inputs| - 1;
    if inputs[n].Registration? && inputs[n].id == id {
      assert inputs[n] in inputs;
    } else {
      WaitingIsRegistered(inputs[..n], id);
    }
  }

  /** Whatever the order of registrations and pages, a page only ever goes to a
      channel that was registered under the id it carries. */
  lemma {:induction false} HandedToItsWaiter(inputs: seq<Input>, h: Handover)
    requires h in Handed(inputs)
    ensures Routable(h.m) && Registration(h.m.metaStr, h.channel) in inputs && Arrival(h.m) in inputs
    decreases |inputs|
  {
    var n := |inputs| - 1;
    if h in Handed(inputs[..n]) {
      HandedToItsWaiter(inputs[..n], h);
    } else {
      WaitingIsRegistered(inputs[..n], h.m.metaStr);
      assert inputs[n] in inputs;
    }
  }

  /** And no call is handed two pages. */
  lemma {:induction false} HandedOnce(inputs: seq<Input>, i: nat, j: nat)
    requires i < j < |Handed(inputs)|
    ensures Handed(inputs)[i].channel != Handed(inputs)[j].channel
    decreases |inputs|
  {
    var n := |inputs| - 1;
    var before := Handed(inputs[..n]);
    if j < |before| {
      HandedOnce(inputs[..n], i, j);
    } else {
      assert before[i] in before;
    }
  }

  // ---- the loop is the one of the state machine ------------------------------------------

  function NewInput(s: State, e: Event): seq<Input>
    requires Enabled(s, e)
  {
    match e
    case Register(c) => [Registration(s.calls[c].id, c)]
    case Take => [Arrival(s.pageChan[0])]
    case _ => []
  }

  /** What respHandler has received in the first `n` steps of a run. */
  ghost function Inputs(ss: seq<State>, es: seq<Event>, n: nat): seq<Input>
    requires IsRun(ss, es) && n <= |es|
  {
    if n == 0 then [] else Inputs(ss, es, n - 1) + NewInput(ss[n - 1], es[n - 1])
  }

  /** The call has the page, or is about to get it. */
  ghost predicate Gets(s: State, h: Handover) {
    || (Done(s, h.channel) && s.calls[h.channel].phase.page == h.m)
    || (s.held == Some(h.m) && HasWaiter(s, h.m) && s.waitingList[h.m.metaStr] == h.channel)
  }

  ghost predicate Matches(s: State, inputs: seq<Input>) {
    && WaitingAfter(inputs) == s.waitingList
    && (forall h :: h in Handed(inputs) <==> Gets(s, h))
    && (forall k :: 0 <= k < |inputs| && Stops(inputs, k) ==> k == |inputs| - 1)
    && (Blocked(s) <==> inputs != [] && Stops(inputs, |inputs| - 1))
  }

  lemma MatchQuiet(s: State, e: Event, inputs: seq<Input>)
    requires Safe(s) && Matches(s, inputs) && Enabled(s, e) && (e.Begin? || e.Answer? || e.Stray?)
    ensures Matches(Apply(s, e), inputs)
  {
    var t := Apply(s, e);
    assert forall m :: HasWaiter(t, m) <==> HasWaiter(s, m);
    assert forall c :: Done(t, c) <==> Done(s, c);
    assert forall h :: Gets(t, h) <==> Gets(s, h);
  }

  lemma GetsAfterDeliver(s: State, h: Handover)
    requires Safe(s) && Enabled(s, Deliver)
    ensures Gets(Apply(s, Deliver), h) <==> Gets(s, h)
  {
  }

  lemma MatchDeliver(s: State, inputs: seq<Input>)
    requires Safe(s) && Matches(s, inputs) && Enabled(s, Deliver)
    ensures Matches(Apply(s, Deliver), inputs)
  {
    forall h ensures Gets(Apply(s, Deliver), h) <==> Gets(s, h) {
      GetsAfterDeliver(s, h);
    }
  }

  lemma InputsSnoc(inputs: seq<Input>, x: Input)
    ensures (inputs + [x])[..|inputs|] == inputs
    ensures forall k :: 0 <= k < |inputs| ==> (Stops(inputs + [x], k) <==> Stops(inputs, k))
  {
    assert (inputs + [x])[..|inputs|] == inputs;
    forall k | 0 <= k < |inputs| ensures Stops(inputs + [x], k) <==> Stops(inputs, k) {
      assert (inputs + [x])[..k] == inputs[..k];
    }
  }

  lemma MatchRegister(s: State, c: Caller, inputs: seq<Input>)
    requires Safe(s) && Matches(s, inputs) && Enabled(s, Register(c))
    ensures Matches(Apply(s, Register(c)), inputs + [Registration(s.calls[c].id, c)])
  {
    var t := Apply(s, Register(c));
    InputsSnoc(inputs, Registration(s.calls[c].id, c));
    assert forall d :: Done(t, d) <==> Done(s, d);
    assert forall h :: Gets(t, h) <==> Gets(s, h);
  }

  /** A page the loop takes can be handed over exactly when its waiter waits. */
  lemma CanHandIffWaiter(s: State, inputs: seq<Input>, m: Msg)
    requires Safe(s) && Matches(s, inputs) && s.held.None?
    ensures CanHand(inputs, m) <==> HasWaiter(s, m)
  {
    if Routable(m) && m.metaStr in s.waitingList {
      var c := s.waitingList[m.metaStr];
      if c in Channels(Handed(inputs)) {
        var h :| h in Handed(inputs) && h.channel == c;
        assert Gets(s, h);
      } else if Done(s, c) {
        assert Gets(s, Handover(c, s.calls[c].phase.page));
      }
    }
  }

  /** Taking a page gives it to its waiter, if it has one, and to nobody else. */
  lemma GetsAfterTake(s: State, h: Handover)
    requires Safe(s) && Enabled(s, Take)
    ensures var m := s.pageChan[0];
            Gets(Apply(s, Take), h) <==>
            Gets(s, h) || (HasWaiter(s, m) && h == Handover(s.waitingList[m.metaStr], m))
  {
  }

  lemma BlockedAfterTake(s: State)
    requires Safe(s) && Enabled(s, Take)
    ensures Blocked(Apply(s, Take)) <==> Routable(s.pageChan[0]) && !HasWaiter(s, s.pageChan[0])
  {
  }

  lemma HandedAfterTake(s: State, inputs: seq<Input>, h: Handover)
    requires Safe(s) && Matches(s, inputs) && Enabled(s, Take)
    ensures h in Handed(inputs + [Arrival(s.pageChan[0])]) <==> Gets(Apply(s, Take), h)
  {
    CanHandIffWaiter(s, inputs, s.pageChan[0]);
    HandedSnoc(inputs, s.pageChan[0]);
    GetsAfterTake(s, h);
  }

  /** An unblocked handler has received nothing the loop would stop at. */
  lemma NoStopsYet(s: State, inputs: seq<Input>, k: nat)
    requires Matches(s, inputs) && !Blocked(s) && k < |inputs|
    ensures !Stops(inputs, k)
  {
  }

  lemma StopsAfterTake(s: State, inputs: seq<Input>, k: nat)
    requires Safe(s) && Matches(s, inputs) && Enabled(s, Take) && k <= |inputs|
    ensures Stops(inputs + [Arrival(s.pageChan[0])], k) <==> k == |inputs| && Blocked(Apply(s, Take))
  {
    var m := s.pageChan[0];
    if k < |inputs| {
      NoStopsYet(s, inputs, k);
      assert (inputs + [Arrival(m)])[..k] == inputs[..k];
    } else {
      assert (inputs + [Arrival(m)])[..k] == inputs;
      CanHandIffWaiter(s, inputs, m);
      BlockedAfterTake(s);
    }
  }

  lemma MatchTake(s: State, inputs: seq<Input>)
    requires Safe(s) && Matches(s, inputs) && Enabled(s, Take)
    ensures Matches(Apply(s, Take), inputs + [Arrival(s.pageChan[0])])
  {
    var all := inputs + [Arrival(s.pageChan[0])];
    assert WaitingAfter(all) == s.waitingList by { HandedSnoc(inputs, s.pageChan[0]); }
    forall h ensures h in Handed(all) <==> Gets(Apply(s, Take), h) {
      HandedAfterTake(s, inputs, h);
    }
    forall k: nat | k < |all| ensures Stops(all, k) <==> k == |inputs| && Blocked(Apply(s, Take)) {
      StopsAfterTake(s, inputs, k);
    }
  }

  /** In every run of the state machine, what respHandler does is what the loop does
      on the inputs it has received: a call has its page or is about to get it
      exactly when the loop hands it over, and the handler is blocked exactly when
      the loop stops. */
  lemma {:induction false} LoopMatchesMachine(ss: seq<State>, es: seq<Event>, n: nat)
    requires IsRun(ss, es) && n <= |es|
    ensures Matches(ss[n], Inputs(ss, es, n))
  {
    if n == 0 {
      assert forall h :: !Gets(Init(), h);
    } else {
      var s, e, before := ss[n - 1], es[n - 1], Inputs(ss, es, n - 1);
      LoopMatchesMachine(ss, es, n - 1);
      CorrelationSafety(ss, es, n - 1);
      match e
      case Register(c) => MatchRegister(s, c, before);
      case Take => MatchTake(s, before);
      case Deliver =>
        MatchDeliver(s, before);
        assert before + [] == before;
      case _ =>
        MatchQuiet(s, e, before);
        assert before + [] == before;
    }
  }
}
