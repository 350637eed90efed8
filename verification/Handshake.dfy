/** nextWorker and run (workermanager.go): callers ask for a worker over one
    buffered channel and receive one over another; a single loop serves them. */
module Handshake {
  import opened CrawlTypes
  import Q = WorkerQueues

  type Caller = nat

  const CAPACITY: nat := 10

  datatype Reply = Reply(serial: nat, worker: Option<Q.Worker>)
  datatype Delivery = Delivery(caller: Caller, reply: Reply)

  datatype State = State(
    wanting: set<Caller>,          // in nextWorker, request not yet in nextReqChan
    awaiting: set<Caller>,         // request sent, no reply received
    requests: nat,                 // requests in nextReqChan
    held: Option<Reply>,           // the reply `run` is about to send
    replies: seq<Reply>,           // nextChan
    delivered: seq<Delivery>,
    adds: seq<Q.Worker>,           // addChan
    pools: seq<Q.State>,           // the worker queue after each operation of `run`
    ops: seq<Q.Op>)

  datatype Event =
    | Call(c: Caller)
    | SendRequest(c: Caller)
    | TakeRequest(ready: set<Q.Worker>)
    | SendReply
    | Receive(c: Caller)
    | AddWorker(w: Q.Worker)
    | TakeAdd

  function Init(): State {
    State({}, {}, 0, None, [], [], [], [Q.State([], {})], [])
  }

  function Pool(s: State): Q.State
    requires s.pools != []
  {
    s.pools[|s.pools| - 1]
  }

  function Callers(ds: seq<Delivery>): set<Caller> {
    set d | d in ds :: d.caller
  }

  predicate Enabled(s: State, e: Event) {
    s.pools != [] &&
    match e
    case Call(c) => c !in s.wanting && c !in s.awaiting && c !in Callers(s.delivered)
    case SendRequest(c) => c in s.wanting && s.requests < CAPACITY
    case TakeRequest(_) => s.held.None? && s.requests > 0
    case SendReply => s.held.Some? && |s.replies| < CAPACITY
    case Receive(c) => c in s.awaiting && s.replies != []
    case AddWorker(w) => |s.adds| < CAPACITY && w !in s.adds && w !in Pool(s).seen
    case TakeAdd => s.held.None? && s.adds != []
  }

  function Do(s: State, op: Q.Op): State
    requires s.pools != []
  {
    s.(pools := s.pools + [Q.Apply(Pool(s), op)], ops := s.ops + [op])
  }

  function Apply(s: State, e: Event): State
    requires Enabled(s, e)
  {
    match e
    case Call(c) => s.(wanting := s.wanting + {c})
    case SendRequest(c) => s.(wanting := s.wanting - {c}, awaiting := s.awaiting + {c}, requests := s.requests + 1)
    case TakeRequest(ready) =>
      var reply := Reply(Made(s), Q.Served(Pool(s), Q.Serve(ready)));
      Do(s, Q.Serve(ready)).(requests := s.requests - 1, held := Some(reply))
    case SendReply => s.(replies := s.replies + [s.held.value], held := None)
    case Receive(c) =>
      s.(awaiting := s.awaiting - {c},
         delivered := s.delivered + [Delivery(c, s.replies[0])],
         replies := s.replies[1..])
    case AddWorker(w) => s.(adds := s.adds + [w])
    case TakeAdd => Do(s, Q.Add(s.adds[0])).(adds := s.adds[1..])
  }

  function Holding(s: State): nat {
    if s.held.Some? then 1 else 0
  }

  /** How many replies `run` has made. */
  function Made(s: State): nat {
    |s.delivered| + |s.replies| + Holding(s)
  }

  ghost predicate IsRun(ss: seq<State>, es: seq<Event>) {
    && |ss| == |es| + 1 && Inv(ss[0])
    && forall i :: 0 <= i < |es| ==> Enabled(ss[i], es[i]) && ss[i + 1] == Apply(ss[i], es[i])
  }

  // ---- conservation ----------------------------------------------------------------

  /** Every caller awaiting a worker is accounted for by exactly one request,
      queued reply or held reply. */
  ghost predicate Conserved(s: State) {
    && |s.awaiting| == s.requests + |s.replies| + Holding(s)
    && s.requests <= CAPACITY && |s.replies| <= CAPACITY
    && s.wanting !! s.awaiting
  }

  /** Replies are delivered in the order they were made, each to its own caller. */
  ghost predicate Ordered(s: State) {
    && (forall i :: 0 <= i < |s.delivered| ==> s.delivered[i].reply.serial == i)
    && (forall i :: 0 <= i < |s.replies| ==> s.replies[i].serial == |s.delivered| + i)
    && (s.held.Some? ==> s.held.value.serial == |s.delivered| + |s.replies|)
    && (forall i, j :: 0 <= i < j < |s.delivered| ==> s.delivered[i].caller != s.delivered[j].caller)
    && (forall i :: 0 <= i < |s.delivered| ==>
          s.delivered[i].caller !in s.wanting && s.delivered[i].caller !in s.awaiting)
  }

  function ReplyAt(s: State, i: nat): Reply
    requires i < Made(s)
  {
    if i < |s.delivered| then s.delivered[i].reply
    else if i < |s.delivered| + |s.replies| then s.replies[i - |s.delivered|]
    else s.held.value
  }

  /** The worker queue behaves as a queue run, and reply `i` is its i-th serving. */
  ghost predicate Dealt(s: State) {
    && Q.IsRun(s.pools, s.ops)
    && (forall i :: 0 <= i < |s.adds| ==> s.adds[i] !in Pool(s).seen)
    && NoRepeats(s.adds)
    && |Q.ServedLog(s.pools, s.ops)| == Made(s)
    && forall i :: 0 <= i < Made(s) ==> ReplyAt(s, i).worker == Q.ServedLog(s.pools, s.ops)[i]
  }

  ghost predicate Inv(s: State) {
    Conserved(s) && Ordered(s) && Dealt(s)
  }

  lemma InitInv()
    ensures Inv(Init())
  {
  }

  lemma ConservedStep(s: State, e: Event)
    requires Conserved(s) && Enabled(s, e)
    ensures Conserved(Apply(s, e))
  {
  }

  lemma OrderedStep(s: State, e: Event)
    requires Conserved(s) && Ordered(s) && Enabled(s, e)
    ensures Ordered(Apply(s, e))
  {
    if e.Call? {
      forall i | 0 <= i < |s.delivered| ensures s.delivered[i].caller != e.c {
        assert s.delivered[i] in s.delivered;
      }
    }
  }

  lemma DoRuns(s: State, op: Q.Op)
    requires Q.IsRun(s.pools, s.ops) && Q.Enabled(Pool(s), op)
    ensures var t := Do(s, op);
            && Q.IsRun(t.pools, t.ops)
            && Q.ServedLog(t.pools, t.ops)
               == Q.ServedLog(s.pools, s.ops) + (if op.Serve? then [Q.Served(Pool(s), op)] else [])
  {
  }

  lemma SameReplies(s: State, t: State)
    requires Dealt(s) && t.pools == s.pools && t.ops == s.ops && Made(t) == Made(s)
    requires forall i :: 0 <= i < Made(s) ==> ReplyAt(t, i) == ReplyAt(s, i)
    requires (forall i :: 0 <= i < |t.adds| ==> t.adds[i] !in Pool(s).seen) && NoRepeats(t.adds)
    ensures Dealt(t)
  {
  }

  lemma DealtTakeRequest(s: State, ready: set<Q.Worker>)
    requires Dealt(s) && Enabled(s, TakeRequest(ready))
    ensures Dealt(Apply(s, TakeRequest(ready)))
  {
  }

  lemma AddsAfterTake(s: State)
    requires Enabled(s, TakeAdd) && NoRepeats(s.adds)
    requires forall i :: 0 <= i < |s.adds| ==> s.adds[i] !in Pool(s).seen
    ensures var t := Apply(s, TakeAdd);
            NoRepeats(t.adds) && forall i :: 0 <= i < |t.adds| ==> t.adds[i] !in Pool(t).seen
  {
    var t := Apply(s, TakeAdd);
    assert Pool(t) == Q.Apply(Pool(s), Q.Add(s.adds[0]));
    assert forall i :: 0 <= i < |t.adds| ==> t.adds[i] == s.adds[i + 1];
  }

  lemma DealtTakeAdd(s: State)
    requires Dealt(s) && Enabled(s, TakeAdd)
    ensures Dealt(Apply(s, TakeAdd))
  {
    var t := Apply(s, TakeAdd);
    AddsAfterTake(s);
    assert Q.IsRun(t.pools, t.ops) && Q.ServedLog(t.pools, t.ops) == Q.ServedLog(s.pools, s.ops) by {
      DoRuns(s, Q.Add(s.adds[0]));
    }
    assert Made(t) == Made(s);
    forall i | 0 <= i < Made(t) ensures ReplyAt(t, i).worker == Q.ServedLog(t.pools, t.ops)[i] {
      assert ReplyAt(t, i) == ReplyAt(s, i);
    }
  }

  lemma DealtStep(s: State, e: Event)
    requires Dealt(s) && Enabled(s, e)
    ensures Dealt(Apply(s, e))
  {
    match e
    case TakeRequest(ready) => DealtTakeRequest(s, ready);
    case TakeAdd => DealtTakeAdd(s);
    case SendReply => DealtMove(s, e);
    case Receive(_) => DealtMove(s, e);
    case _ => SameReplies(s, Apply(s, e));
  }

  lemma DealtMove(s: State, e: Event)
    requires Dealt(s) && Enabled(s, e) && (e.SendReply? || e.Receive?)
    ensures Dealt(Apply(s, e))
  {
    var t := Apply(s, e);
    assert Made(t) == Made(s);
    forall i | 0 <= i < Made(s) ensures ReplyAt(t, i) == ReplyAt(s, i) { }
    SameReplies(s, t);
  }

  /** Conservation, in-order exactly-once delivery and faithful round robin hold
      in every reachable state. */
  lemma {:induction false} InvAt(ss: seq<State>, es: seq<Event>, n: nat)
    requires IsRun(ss, es) && n <= |es|
    ensures Inv(ss[n])
  {
    if n > 0 {
      InvAt(ss, es, n - 1);
      ConservedStep(ss[n - 1], es[n - 1]);
      OrderedStep(ss[n - 1], es[n - 1]);
      DealtStep(ss[n - 1], es[n - 1]);
    }
  }

  // ---- the channels -------------------------------------------------------------------

  /** The workers `run` has put into the queue, oldest first. */
  function Added(ops: seq<Q.Op>): seq<Q.Worker> {
    if ops == [] then [] else Added(ops[..|ops| - 1]) + (if ops[|ops| - 1].Add? then [ops[|ops| - 1].w] else [])
  }

  function AddCalls(es: seq<Event>): seq<Q.Worker> {
    if es == [] then [] else AddCalls(es[..|es| - 1]) + (if es[|es| - 1].AddWorker? then [es[|es| - 1].w] else [])
  }

  lemma AddedSnoc(ops: seq<Q.Op>, op: Q.Op)
    ensures Added(ops + [op]) == Added(ops) + (if op.Add? then [op.w] else [])
  {
    assert (ops + [op])[..|ops|] == ops;
  }

  lemma AddedStep(s: State, e: Event)
    requires Enabled(s, e)
    ensures var t := Apply(s, e);
            Added(t.ops) + t.adds == Added(s.ops) + s.adds + (if e.AddWorker? then [e.w] else [])
  {
    match e
    case TakeRequest(ready) => AddedSnoc(s.ops, Q.Serve(ready));
    case TakeAdd =>
      AddedSnoc(s.ops, Q.Add(s.adds[0]));
      assert s.adds == [s.adds[0]] + s.adds[1..];
    case _ =>
  }

  /** Workers enter the queue in the order in which addWorker was called, none is
      lost, and those not yet there wait in addChan. */
  lemma {:induction false} AddsInOrder(ss: seq<State>, es: seq<Event>, n: nat)
    requires IsRun(ss, es) && n <= |es|
    ensures Added(ss[n].ops) + ss[n].adds == Added(ss[0].ops) + ss[0].adds + AddCalls(es[..n])
  {
    if n > 0 {
      AddsInOrder(ss, es, n - 1);
      AddedStep(ss[n - 1], es[n - 1]);
      assert es[..n][..n - 1] == es[..n - 1];
    }
  }

  /** Each of the three channels holds ten; only then does its sender wait. */
  lemma TenFit(s: State, c: Caller, w: Q.Worker)
    requires Inv(s)
    ensures c in s.wanting ==> (Enabled(s, SendRequest(c)) <==> s.requests != 10)
    ensures s.held.Some? ==> (Enabled(s, SendReply) <==> |s.replies| != 10)
    ensures w !in Pool(s).seen && w !in s.adds ==> (Enabled(s, AddWorker(w)) <==> |s.adds| < 10)
  {
  }

  // ---- deadlock freedom and progress ---------------------------------------------------

  predicate Internal(e: Event) {
    e.SendRequest? || e.TakeRequest? || e.SendReply? || e.Receive?
  }

  predicate Waiting(s: State) {
    s.wanting != {} || s.awaiting != {}
  }

  ghost predicate CanMove(s: State) {
    exists e :: Internal(e) && Enabled(s, e)
  }

  /** The buffers never deadlock: some internal step is enabled exactly when a caller waits. */
  lemma DeadlockFree(s: State)
    requires Inv(s)
    ensures CanMove(s) <==> Waiting(s)
  {
    if s.awaiting != {} {
      var c :| c in s.awaiting;
      if s.replies != [] {
        assert Internal(Receive(c)) && Enabled(s, Receive(c));
      } else if s.held.Some? {
        assert Internal(SendReply) && Enabled(s, SendReply);
      } else {
        assert Internal(TakeRequest({})) && Enabled(s, TakeRequest({}));
      }
    } else if s.wanting != {} {
      var c :| c in s.wanting;
      assert Internal(SendRequest(c)) && Enabled(s, SendRequest(c));
    }
  }

  /** Steps still needed until nobody waits. */
  function Remaining(s: State): nat {
    4 * |s.wanting| + 3 * s.requests + 2 * Holding(s) + |s.replies|
  }

  function Steps(es: seq<Event>): nat {
    if es == [] then 0 else Steps(es[..|es| - 1]) + (if Internal(es[|es| - 1]) then 1 else 0)
  }

  function Calls(es: seq<Event>): nat {
    if es == [] then 0 else Calls(es[..|es| - 1]) + (if es[|es| - 1].Call? then 1 else 0)
  }

  /** A call needs four steps, an internal step is one of them, and adding workers
      changes nothing. */
  lemma RemainingStep(s: State, e: Event)
    requires Enabled(s, e)
    ensures Remaining(Apply(s, e)) == Remaining(s) + (if e.Call? then 4 else 0) - (if Internal(e) then 1 else 0)
  {
  }

  lemma {:induction false} RemainingAt(ss: seq<State>, es: seq<Event>, n: nat)
    requires IsRun(ss, es) && n <= |es|
    ensures Remaining(ss[n]) == Remaining(ss[0]) + 4 * Calls(es[..n]) - Steps(es[..n])
  {
    if n > 0 {
      RemainingAt(ss, es, n - 1);
      RemainingStep(ss[n - 1], es[n - 1]);
      assert es[..n][..n - 1] == es[..n - 1];
    }
  }

  /** In every run, with callers arriving and workers being added at any time, the
      internal steps never exceed four per call plus what was left at the start,
      and they reach that number exactly when every caller has its worker. */
  lemma EveryCallerServed(ss: seq<State>, es: seq<Event>)
    requires IsRun(ss, es)
    ensures Steps(es) <= Remaining(ss[0]) + 4 * Calls(es)
    ensures Steps(es) == Remaining(ss[0]) + 4 * Calls(es) <==> !Waiting(ss[|es|])
  {
    RemainingAt(ss, es, |es|);
    InvAt(ss, es, |es|);
    assert es[..|es|] == es;
    var s := ss[|es|];
    if Remaining(s) == 0 {
      assert |s.awaiting| == 0 && |s.wanting| == 0;
    }
  }
}
