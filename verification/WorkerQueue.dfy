/** The round-robin worker queue (workerqueue.go). A worker is its pointer, and
    `ready` holds the workers whose connection reports Ready when polled. */
module WorkerQueues {
  import opened CrawlTypes

  type Worker = nat

  /** The number of queued workers in front of the first ready one. */
  function DeadPrefix(q: seq<Worker>, ready: set<Worker>): (n: nat)
    ensures n <= |q|
    ensures forall i :: 0 <= i < n ==> q[i] !in ready
    ensures n < |q| ==> q[n] in ready
  {
    if q == [] || q[0] in ready then 0 else 1 + DeadPrefix(q[1..], ready)
  }

  datatype NextResult = NextResult(worker: Option<Worker>, queue: seq<Worker>)

  /** The first ready worker moves to the back; those before it are discarded. */
  function NextOf(q: seq<Worker>, ready: set<Worker>): NextResult {
    var n := DeadPrefix(q, ready);
    if n == |q| then NextResult(None, []) else NextResult(Some(q[n]), q[n + 1..] + [q[n]])
  }

  /** What a call of next leaves behind: nothing if it found nobody, and otherwise
      exactly the workers from the returned one on, that one now at the back. */
  predicate LeavesTail(q: seq<Worker>, ready: set<Worker>, w: Option<Worker>, after: seq<Worker>) {
    if w.None? then after == [] && forall i :: 0 <= i < |q| ==> q[i] !in ready
    else exists n :: 0 <= n < |q| && q[n] == w.value && ReturnsAt(q, ready, n, after)
  }

  predicate ReturnsAt(q: seq<Worker>, ready: set<Worker>, n: nat, after: seq<Worker>)
    requires n < |q|
  {
    && q[n] in ready && (forall i :: 0 <= i < n ==> q[i] !in ready)
    && |after| == |q| - n && after[|after| - 1] == q[n]
    && forall i :: n < i < |q| ==> after[i - n - 1] == q[i]
  }

  class WorkerQueue {
    var q: seq<Worker>

    constructor ()
      ensures q == []
    {
      q := [];
    }

    method Push(w: Option<Worker>)
      modifies this
      ensures q == old(q) + (if w.Some? then [w.value] else [])
    {
      if w.None? { return; }
      q := q + [w.value];
    }

    method Pop() returns (w: Option<Worker>)
      modifies this
      ensures old(q) == [] ==> w == None && q == []
      ensures old(q) != [] ==> w == Some(old(q)[0]) && q == old(q)[1..]
    {
      if |q| == 0 { return None; }
      w := Some(q[0]);
      q := q[1..];
    }

    /** The popping loop computes the simple spec. */
    method Next(ready: set<Worker>) returns (w: Option<Worker>)
      modifies this
      ensures NextResult(w, q) == NextOf(old(q), ready)
      ensures LeavesTail(old(q), ready, w, q)
    {
      ghost var n := 0;
      while true
        invariant n <= |old(q)| && q == old(q)[n..]
        invariant DeadPrefix(old(q), ready) == n + DeadPrefix(q, ready)
        decreases |q|
      {
        w := Pop();
        if w.None? { return; }
        if w.value in ready {
          Push(w);
          assert ReturnsAt(old(q), ready, n, q);
          return;
        }
        n := n + 1;
      }
    }
  }

  // ---- runs of the queue ---------------------------------------------------------

  datatype Op = Add(w: Worker) | Serve(ready: set<Worker>)

  // `seen` holds every worker ever queued: each connection makes a new pointer.
  datatype State = State(q: seq<Worker>, seen: set<Worker>)

  predicate Valid(s: State) {
    NoRepeats(s.q) && forall i :: 0 <= i < |s.q| ==> s.q[i] in s.seen
  }

  predicate Enabled(s: State, op: Op) {
    op.Add? ==> op.w !in s.seen
  }

  function Apply(s: State, op: Op): State {
    match op
    case Add(w) => State(s.q + [w], s.seen + {w})
    case Serve(ready) => State(NextOf(s.q, ready).queue, s.seen)
  }

  function Served(s: State, op: Op): Option<Worker> {
    match op
    case Add(_) => None
    case Serve(ready) => NextOf(s.q, ready).worker
  }

  ghost predicate IsRun(ss: seq<State>, ops: seq<Op>) {
    && |ss| == |ops| + 1 && Valid(ss[0])
    && forall i :: 0 <= i < |ops| ==> Enabled(ss[i], ops[i]) && ss[i + 1] == Apply(ss[i], ops[i])
  }

  /** The workers handed out by a run of the queue, in order. */
  function ServedLog(pools: seq<State>, ops: seq<Op>): seq<Option<Worker>>
    requires |pools| == |ops| + 1
  {
    if ops == [] then []
    else
      var n := |ops| - 1;
      ServedLog(pools[..n + 1], ops[..n]) + (if ops[n].Serve? then [Served(pools[n], ops[n])] else [])
  }

  /** The select loop of `run`, given which channel each round chose: it makes one
      reply per request, in order, and each is the next serving of the queue. */
  method Run(wq: WorkerQueue, ops: seq<Op>, ghost seen: set<Worker>)
    returns (nextChan: seq<Option<Worker>>, ghost ss: seq<State>)
    modifies wq
    ensures |ss| == |ops| + 1 && ss[0] == State(old(wq.q), seen) && ss[|ops|].q == wq.q
    ensures forall i :: 0 <= i < |ops| ==> ss[i + 1] == Apply(ss[i], ops[i])
    ensures nextChan == ServedLog(ss, ops)
  {
    nextChan, ss := [], [State(wq.q, seen)];
    for k := 0 to |ops|
      invariant |ss| == k + 1 && ss[0] == State(old(wq.q), seen) && ss[k].q == wq.q
      invariant forall i :: 0 <= i < k ==> ss[i + 1] == Apply(ss[i], ops[i])
      invariant nextChan == ServedLog(ss, ops[..k])
    {
      ghost var before := ss;
      ss := ss + [Apply(ss[k], ops[k])];
      assert ss[..k + 1] == before && ops[..k + 1][..k] == ops[..k];
      match ops[k]
      case Add(w) =>
        wq.Push(Some(w));
      case Serve(ready) =>
        var w := wq.Next(ready);
        nextChan := nextChan + [w];
    }
    assert ops[..|ops|] == ops;
  }

  lemma ValidStep(s: State, op: Op)
    requires Valid(s) && Enabled(s, op)
    ensures Valid(Apply(s, op))
    ensures forall w :: w in s.seen && w !in s.q ==> w in Apply(s, op).seen && w !in Apply(s, op).q
    ensures forall w :: w in s.seen && w !in s.q ==> Served(s, op) != Some(w)
  {
  }

  lemma {:induction false} ValidAt(ss: seq<State>, ops: seq<Op>, n: nat)
    requires IsRun(ss, ops) && n <= |ops|
    ensures Valid(ss[n])
  {
    if n > 0 {
      ValidAt(ss, ops, n - 1);
      ValidStep(ss[n - 1], ops[n - 1]);
    }
  }

  /** A worker that has left the queue is never served again. */
  lemma {:induction false} GoneForGood(ss: seq<State>, ops: seq<Op>, a: nat, b: nat, w: Worker)
    requires IsRun(ss, ops) && a <= b < |ops|
    requires w in ss[a].seen && w !in ss[a].q
    ensures Served(ss[b], ops[b]) != Some(w)
    decreases b - a
  {
    ValidAt(ss, ops, a);
    ValidStep(ss[a], ops[a]);
    if a < b { GoneForGood(ss, ops, a + 1, b, w); }
  }

  lemma ServeLeavesTail(s: State, ready: set<Worker>)
    ensures LeavesTail(s.q, ready, Served(s, Serve(ready)), Apply(s, Serve(ready)).q)
  {
    var n := DeadPrefix(s.q, ready);
    if n < |s.q| { assert ReturnsAt(s.q, ready, n, Apply(s, Serve(ready)).q); }
  }

  /** A worker that a call passes over is never served again: one that stood, not
      ready, in front of the worker returned, or anywhere in the queue when nobody
      was. */
  lemma PassedOverIsGone(ss: seq<State>, ops: seq<Op>, a: nat, b: nat, i: nat)
    requires IsRun(ss, ops) && a < b < |ops| && ops[a].Serve? && i < |ss[a].q|
    requires Served(ss[a], ops[a]).Some? ==>
               exists n :: i < n < |ss[a].q| && ss[a].q[n] == Served(ss[a], ops[a]).value
    ensures ss[a].q[i] !in ss[a + 1].q
    ensures Served(ss[b], ops[b]) != Some(ss[a].q[i])
  {
    ValidAt(ss, ops, a);
    ServeLeavesTail(ss[a], ops[a].ready);
    GoneForGood(ss, ops, a + 1, b, ss[a].q[i]);
  }

  // ---- bounded waiting -------------------------------------------------------------

  function Calls(ops: seq<Op>, a: nat, b: nat): nat
    requires a <= b <= |ops|
    decreases b - a
  {
    if a == b then 0 else (if ops[a].Serve? then 1 else 0) + Calls(ops, a + 1, b)
  }

  ghost predicate ReadyThroughout(ops: seq<Op>, a: nat, b: nat, w: Worker)
    requires a <= b <= |ops|
  {
    forall i :: a <= i < b && ops[i].Serve? ==> w in ops[i].ready
  }

  /** A ready worker at position `p` is served within `p + 1` calls. */
  lemma {:induction false} ServedSoon(ss: seq<State>, ops: seq<Op>, a: nat, b: nat, p: nat, w: Worker)
    requires IsRun(ss, ops) && a <= b <= |ops|
    requires p < |ss[a].q| && ss[a].q[p] == w && ReadyThroughout(ops, a, b, w)
    requires Calls(ops, a, b) >= p + 1
    ensures exists i :: a <= i < b && Served(ss[i], ops[i]) == Some(w)
    decreases b - a
  {
    match ops[a]
    case Add(_) => ServedSoon(ss, ops, a + 1, b, p, w);
    case Serve(ready) =>
      var n := DeadPrefix(ss[a].q, ready);
      assert n <= p;
      if n < p {
        assert ss[a + 1].q[p - n - 1] == w;
        CallsAtLeast(ops, a + 1, b, p - n);
        ServedSoon(ss, ops, a + 1, b, p - n - 1, w);
      } else {
        assert Served(ss[a], ops[a]) == Some(w);
      }
  }

  lemma CallsAtLeast(ops: seq<Op>, a: nat, b: nat, n: nat)
    requires 0 < a <= b <= |ops| && ops[a - 1].Serve? && Calls(ops, a - 1, b) >= n + 1
    ensures Calls(ops, a, b) >= n
  {
  }

  // ---- fairness --------------------------------------------------------------------

  ghost predicate Before(q: seq<Worker>, x: Worker, y: Worker) {
    exists i, j :: 0 <= i < j < |q| && q[i] == x && q[j] == y
  }

  function Servings(ss: seq<State>, ops: seq<Op>, w: Worker, a: nat, b: nat): nat
    requires |ss| == |ops| + 1 && a <= b <= |ops|
    decreases b - a
  {
    if a == b then 0
    else (if Served(ss[a], ops[a]) == Some(w) then 1 else 0) + Servings(ss, ops, w, a + 1, b)
  }

  lemma BeforeStep(s: State, op: Op, x: Worker, y: Worker)
    requires Valid(s) && Enabled(s, op) && Before(s.q, x, y)
    requires Served(s, op) != Some(x)
    ensures Before(Apply(s, op).q, x, y) || (op.Serve? && x !in op.ready && x !in Apply(s, op).q)
  {
    var i, j :| 0 <= i < j < |s.q| && s.q[i] == x && s.q[j] == y;
    match op
    case Add(w) => assert Apply(s, op).q[i] == x && Apply(s, op).q[j] == y;
    case Serve(ready) => BeforeServe(s, ready, x, y, i, j);
  }

  lemma BeforeServe(s: State, ready: set<Worker>, x: Worker, y: Worker, i: nat, j: nat)
    requires Valid(s) && i < j < |s.q| && s.q[i] == x && s.q[j] == y
    requires Served(s, Serve(ready)) != Some(x)
    ensures var t := Apply(s, Serve(ready)); Before(t.q, x, y) || (x !in ready && x !in t.q)
  {
    var n, t := DeadPrefix(s.q, ready), Apply(s, Serve(ready));
    if n < i {
      assert t.q[i - n - 1] == x && t.q[j - n - 1] == y;
    } else {
      assert n > i && x !in ready;
      assert forall k :: 0 <= k < |t.q| ==> t.q[k] in s.q[n..];
    }
  }

  lemma ServedPasses(s: State, op: Op, x: Worker, y: Worker)
    requires Valid(s) && Enabled(s, op) && Before(s.q, x, y) && Served(s, op) == Some(x)
    ensures Before(Apply(s, op).q, y, x)
  {
    var i, j :| 0 <= i < j < |s.q| && s.q[i] == x && s.q[j] == y;
    var n := DeadPrefix(s.q, op.ready);
    assert n == i;
    var t := Apply(s, op);
    assert t.q[j - n - 1] == y && t.q[|t.q| - 1] == x;
  }

  /** While `y` waits behind `x`, it is not served before `x` is served again. */
  lemma {:induction false} NoOvertaking(ss: seq<State>, ops: seq<Op>, a: nat, b: nat, x: Worker, y: Worker)
    requires IsRun(ss, ops) && a <= b < |ops| && Before(ss[a].q, x, y)
    requires Served(ss[b], ops[b]) == Some(x)
    requires forall i :: a <= i < b ==> Served(ss[i], ops[i]) != Some(x)
    ensures Servings(ss, ops, y, a, b) == 0
    decreases b - a
  {
    if a == b { return; }
    ValidAt(ss, ops, a);
    ValidStep(ss[a], ops[a]);
    BeforeStep(ss[a], ops[a], x, y);
    if Before(ss[a + 1].q, x, y) {
      NoOvertaking(ss, ops, a + 1, b, x, y);
      NotServedBehind(ss[a], ops[a], x, y);
    } else {
      GoneForGood(ss, ops, a + 1, b, x);
    }
  }

  lemma NotServedBehind(s: State, op: Op, x: Worker, y: Worker)
    requires Valid(s) && Before(s.q, x, y) && Before(Apply(s, op).q, x, y) && Served(s, op) != Some(x)
    ensures Served(s, op) != Some(y)
  {
  }

  /** While `y` waits in front of `x` and stays ready, it is served exactly once
      before `x` is. */
  lemma {:induction false} ServedOnceBefore(ss: seq<State>, ops: seq<Op>, a: nat, b: nat, x: Worker, y: Worker)
    requires IsRun(ss, ops) && a <= b < |ops| && Before(ss[a].q, y, x)
    requires Served(ss[b], ops[b]) == Some(x)
    requires forall i :: a <= i < b ==> Served(ss[i], ops[i]) != Some(x)
    requires ReadyThroughout(ops, a, b + 1, y)
    ensures Servings(ss, ops, y, a, b) == 1
    decreases b - a
  {
    ValidAt(ss, ops, a);
    ValidStep(ss[a], ops[a]);
    if a == b {
      ReadyInFront(ss[a], ops[a], y, x);
    } else if Served(ss[a], ops[a]) == Some(y) {
      ServedPasses(ss[a], ops[a], y, x);
      NoOvertaking(ss, ops, a + 1, b, x, y);
    } else {
      BeforeStep(ss[a], ops[a], y, x);
      ServedOnceBefore(ss, ops, a + 1, b, x, y);
    }
  }

  lemma ReadyInFront(s: State, op: Op, y: Worker, x: Worker)
    requires Valid(s) && Before(s.q, y, x) && (op.Serve? ==> y in op.ready)
    ensures Served(s, op) != Some(x)
  {
  }

  /** Round-robin fairness under churn: between two consecutive servings of `x`,
      every other worker that was queued and stayed ready is served exactly once,
      whatever was added and whoever died meanwhile. */
  lemma Fairness(ss: seq<State>, ops: seq<Op>, a: nat, b: nat, x: Worker, y: Worker)
    requires IsRun(ss, ops) && a < b < |ops|
    requires Served(ss[a], ops[a]) == Some(x) && Served(ss[b], ops[b]) == Some(x)
    requires forall i :: a < i < b ==> Served(ss[i], ops[i]) != Some(x)
    requires y != x && y in ss[a + 1].q && ReadyThroughout(ops, a + 1, b + 1, y)
    ensures Servings(ss, ops, y, a + 1, b) == 1
  {
    ValidAt(ss, ops, a);
    var q := ss[a + 1].q;
    var i :| 0 <= i < |q| && q[i] == y;
    assert q[|q| - 1] == x;
    assert Before(q, y, x);
    ServedOnceBefore(ss, ops, a + 1, b, x, y);
  }

  /** One call with every worker ready turns a rotation into the next one. */
  lemma RotateOnce(q: seq<Worker>, k: nat, ready: set<Worker>)
    requires k < |q| && forall w :: w in q ==> w in ready
    ensures var k' := if k + 1 == |q| then 0 else k + 1;
            NextOf(q[k..] + q[..k], ready) == NextResult(Some(q[k]), q[k'..] + q[..k'])
  {
  }

  ghost predicate AllReady(q: seq<Worker>, ops: seq<Op>) {
    forall k :: 0 <= k < |ops| ==> ops[k].Serve? && forall w :: w in q ==> w in ops[k].ready
  }

  lemma {:induction false} RotatedAt(ss: seq<State>, ops: seq<Op>, i: nat)
    requires IsRun(ss, ops) && i <= |ops| && ss[0].q != [] && AllReady(ss[0].q, ops)
    ensures ss[i].q == ss[0].q[i % |ss[0].q|..] + ss[0].q[..i % |ss[0].q|]
  {
    var q := ss[0].q;
    if i == 0 {
      assert q[0..] + q[..0] == q;
    } else {
      RotatedAt(ss, ops, i - 1);
      RotateOnce(q, (i - 1) % |q|, ops[i - 1].ready);
      ModStep(i, |q|);
    }
  }

  /** With all `n` workers always ready, call `i` returns entry `i mod n`. */
  lemma Rotation(ss: seq<State>, ops: seq<Op>, i: nat)
    requires IsRun(ss, ops) && i < |ops| && ss[0].q != [] && AllReady(ss[0].q, ops)
    ensures Served(ss[i], ops[i]) == Some(ss[0].q[i % |ss[0].q|])
  {
    RotatedAt(ss, ops, i);
    RotateOnce(ss[0].q, i % |ss[0].q|, ops[i].ready);
  }

  lemma ModStep(i: nat, n: nat)
    requires i > 0 && n > 0
    ensures i % n == if (i - 1) % n + 1 == n then 0 else (i - 1) % n + 1
  {
    var a, k := (i - 1) / n, (i - 1) % n;
    assert i == a * n + k + 1;
    if k + 1 == n {
      assert i == (a + 1) * n + 0;
      DivisionUnique(i, n, a + 1, 0);
    } else {
      DivisionUnique(i, n, a, k + 1);
    }
  }

  lemma DivisionUnique(i: nat, n: nat, a: nat, k: nat)
    requires n > 0 && i == a * n + k && k < n
    ensures i % n == k
  {
    var b := i / n;
    var m := i - b * n;
    assert 0 <= m < n;
    if a < b { AtLeastOnce(b - a, n); } else if a > b { AtLeastOnce(a - b, n); }
  }

  lemma AtLeastOnce(d: nat, n: nat)
    requires d > 0
    ensures d * n >= n
  {
  }
}
