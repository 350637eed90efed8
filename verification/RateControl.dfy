/** Doer.Do (doer.go): a semaphore of N slots, each held by a main request for at
    least its delay when the request succeeds. Time is real, in seconds. */
module RateControl {
  import opened CrawlTypes
  import opened DelayGenerator

  type Id = nat

  // ---- the delay ------------------------------------------------------------------

  /** Conversion of a Go int to int32. */
  function ToInt32(x: int): Int32 {
    (x + 0x8000_0000) % 0x1_0000_0000 - 0x8000_0000
  }

  /** The hold time of one request: the minimum delay but at least a second, or a
      draw of the generator when the maximum exceeds that. */
  function AfterTime(minDelay: Int32, maxDelay: Int32, draw: int): Int32 {
    var afterTime := if minDelay < 1 then 1 else minDelay;
    if maxDelay > afterTime then ToInt32(draw) else afterTime
  }

  /** What is promised: the minimum delay, but at least a second. */
  function Minimum(minDelay: Int32): nat {
    if minDelay < 1 then 1 else minDelay
  }

  /** The number of values the generator of this job sends on a random source. */
  function Values(minDelay: Int32, maxDelay: Int32, source: seq<int>): nat {
    |Delays(minDelay, maxDelay, 0, 5, source)|
  }

  function Draw(minDelay: Int32, maxDelay: Int32, source: seq<int>, i: nat): int
    requires i < Values(minDelay, maxDelay, source)
  {
    Delays(minDelay, maxDelay, 0, 5, source)[i].seconds
  }

  /** Value `i` exists and fits int32. */
  predicate Fits(minDelay: Int32, maxDelay: Int32, source: seq<int>, i: nat) {
    i < Values(minDelay, maxDelay, source) && Draw(minDelay, maxDelay, source, i) <= 0x7fff_ffff
  }

  function HoldTime(minDelay: Int32, maxDelay: Int32, source: seq<int>, i: nat): Int32
    requires i < Values(minDelay, maxDelay, source)
  {
    AfterTime(minDelay, maxDelay, Draw(minDelay, maxDelay, source, i))
  }

  /** The hold is exact: max(MinDelay, 1) seconds when MaxDelay is no larger, and
      otherwise the value drawn, reduced to int32. */
  lemma HoldExact(minDelay: Int32, maxDelay: Int32, draw: int)
    ensures maxDelay <= 1 && minDelay <= 1 ==> AfterTime(minDelay, maxDelay, draw) == 1
    ensures maxDelay <= minDelay && minDelay > 1 ==> AfterTime(minDelay, maxDelay, draw) == minDelay
    ensures maxDelay > 1 && maxDelay > minDelay ==> (AfterTime(minDelay, maxDelay, draw) - draw) % 0x1_0000_0000 == 0
    ensures maxDelay > 1 && maxDelay > minDelay && -0x8000_0000 <= draw <= 0x7fff_ffff ==>
              AfterTime(minDelay, maxDelay, draw) == draw
  {
  }

  /** The options under which the minimum is kept. */
  predicate KeepsMinimum(minDelay: Int32, maxDelay: Int32) {
    minDelay >= 1 || maxDelay <= 1
  }

  lemma GeneratedDelaysHold(minDelay: Int32, maxDelay: Int32, source: seq<int>, i: nat)
    requires KeepsMinimum(minDelay, maxDelay) && Fits(minDelay, maxDelay, source, i)
    ensures HoldTime(minDelay, maxDelay, source, i) >= Minimum(minDelay)
  {
    DelayShape(minDelay, maxDelay, 0, 5, source);
    var draw := Draw(minDelay, maxDelay, source, i);
    if maxDelay > Minimum(minDelay) {
      assert draw >= minDelay;
      assert ToInt32(draw) == draw;
    }
  }

  /** Every value the generator sends holds its slot for the promised minimum, for
      every random source, if and only if MinDelay is positive or MaxDelay is at
      most 1. Otherwise the very first value of any source is 0. */
  lemma DelayIsMinimum(minDelay: Int32, maxDelay: Int32)
    ensures (forall source: seq<int>, i: nat :: Fits(minDelay, maxDelay, source, i) ==>
               HoldTime(minDelay, maxDelay, source, i) >= Minimum(minDelay))
            <==> KeepsMinimum(minDelay, maxDelay)
    ensures !KeepsMinimum(minDelay, maxDelay) ==>
              forall source: seq<int> ::
                Fits(minDelay, maxDelay, source, 0) && HoldTime(minDelay, maxDelay, source, 0) == 0
  {
    if KeepsMinimum(minDelay, maxDelay) {
      forall source: seq<int>, i: nat | Fits(minDelay, maxDelay, source, i)
        ensures HoldTime(minDelay, maxDelay, source, i) >= Minimum(minDelay)
      {
        GeneratedDelaysHold(minDelay, maxDelay, source, i);
      }
    } else {
      forall source: seq<int>
        ensures Fits(minDelay, maxDelay, source, 0) && HoldTime(minDelay, maxDelay, source, 0) == 0
      {
        assert FirstAtLeast(minDelay, source) == Some((0, source));
        assert Delays(minDelay, maxDelay, 0, 5, source)[0] == Delay(0, false);
      }
      assert HoldTime(minDelay, maxDelay, [], 0) < Minimum(minDelay);
    }
  }

  // ---- the slots ------------------------------------------------------------------

  // The options of a job that govern its pace, and the random source of its generator.
  datatype Pace = Pace(slots: nat, minDelay: Int32, maxDelay: Int32, source: seq<int>)

  // A request that has a slot: since when, the value it took from randChan, and
  // when its timer runs out.
  datatype Hold = Hold(acquired: real, draw: Option<int>, due: Option<real>)

  // `drawn` counts the values taken from randChan so far.
  datatype State = State(now: real, holders: map<Id, Hold>, drawn: nat)

  // The time of each event, and which request it concerns. Waiting for a slot is
  // not yet in progress; a request may fail at any time. Taking a value from
  // randChan and starting the timer with it are separate steps, so timers may
  // start in another order than their values were taken.
  datatype Event =
    | Acquire(at: real, id: Id)
    | TakeDraw(at: real, id: Id)
    | StartTimer(at: real, id: Id)
    | Succeed(at: real, id: Id)
    | Fail(at: real, id: Id)

  predicate UsesDraw(p: Pace) {
    p.maxDelay > Minimum(p.minDelay)
  }

  predicate Enabled(p: Pace, s: State, e: Event) {
    e.at >= s.now &&
    match e
    case Acquire(_, id) => |s.holders| < p.slots && id !in s.holders
    case TakeDraw(_, id) =>
      && UsesDraw(p) && s.drawn < Values(p.minDelay, p.maxDelay, p.source)
      && id in s.holders && s.holders[id].draw.None? && s.holders[id].due.None?
    case StartTimer(_, id) =>
      id in s.holders && s.holders[id].due.None? && (UsesDraw(p) ==> s.holders[id].draw.Some?)
    case Succeed(at, id) => id in s.holders && s.holders[id].due.Some? && at >= s.holders[id].due.value
    case Fail(_, id) => id in s.holders
  }

  /** How long the timer of a request runs. */
  function TimerOf(p: Pace, h: Hold): Int32
    requires UsesDraw(p) ==> h.draw.Some?
  {
    AfterTime(p.minDelay, p.maxDelay, if UsesDraw(p) then h.draw.value else 0)
  }

  function Apply(p: Pace, s: State, e: Event): State
    requires Enabled(p, s, e)
  {
    match e
    case Acquire(at, id) => s.(now := at, holders := s.holders[id := Hold(at, None, None)])
    case TakeDraw(at, id) =>
      var value := Draw(p.minDelay, p.maxDelay, p.source, s.drawn);
      State(at, s.holders[id := s.holders[id].(draw := Some(value))], s.drawn + 1)
    case StartTimer(at, id) =>
      s.(now := at, holders := s.holders[id := s.holders[id].(due := Some(at + TimerOf(p, s.holders[id]) as real))])
    case Succeed(at, id) => s.(now := at, holders := s.holders - {id})
    case Fail(at, id) => s.(now := at, holders := s.holders - {id})
  }

  /** A timer runs for exactly the value its request took, or max(MinDelay, 1)
      seconds when values are not used. */
  lemma TimerExact(p: Pace, s: State, e: Event)
    requires Enabled(p, s, e) && e.StartTimer?
    ensures var h, due := s.holders[e.id], Apply(p, s, e).holders[e.id].due;
            && (p.maxDelay <= 1 && p.minDelay <= 1 ==> due == Some(e.at + 1.0))
            && (p.maxDelay <= p.minDelay && p.minDelay > 1 ==> due == Some(e.at + p.minDelay as real))
            && (p.maxDelay > 1 && p.maxDelay > p.minDelay ==>
                  h.draw.Some? && (-0x8000_0000 <= h.draw.value <= 0x7fff_ffff ==> due == Some(e.at + h.draw.value as real)))
  {
    if UsesDraw(p) { HoldExact(p.minDelay, p.maxDelay, s.holders[e.id].draw.value); }
  }

  predicate Step(p: Pace, s: State, e: Event, t: State) {
    Enabled(p, s, e) && t == Apply(p, s, e)
  }

  /** The login flow, which comes before any request, takes at most one value. */
  ghost predicate IsRun(p: Pace, ss: seq<State>, es: seq<Event>) {
    && |ss| == |es| + 1 && ss[0].holders == map[] && ss[0].drawn <= 1
    && forall i :: 0 <= i < |es| ==> Step(p, ss[i], es[i], ss[i + 1])
  }

  /** At most N requests are in progress, and none was acquired in the future. */
  ghost predicate Bounded(p: Pace, s: State) {
    |s.holders| <= p.slots && forall id :: id in s.holders ==> s.holders[id].acquired <= s.now
  }

  /** A due time is at least the promised minimum after the acquisition, and a
      value taken promises it. */
  ghost predicate Spread(p: Pace, s: State) {
    forall id :: id in s.holders ==>
                   var h := s.holders[id];
                   && (h.due.Some? ==> h.due.value >= h.acquired + Minimum(p.minDelay) as real)
                   && (h.draw.Some? ==> AfterTime(p.minDelay, p.maxDelay, h.draw.value) >= Minimum(p.minDelay))
  }

  /** The value taken by the event, if any, fits int32. */
  predicate DrawFits(p: Pace, s: State, e: Event) {
    e.TakeDraw? ==> Fits(p.minDelay, p.maxDelay, p.source, s.drawn)
  }

  ghost predicate FittingRun(p: Pace, ss: seq<State>, es: seq<Event>) {
    IsRun(p, ss, es) && forall i :: 0 <= i < |es| ==> DrawFits(p, ss[i], es[i])
  }

  lemma BoundedStep(p: Pace, s: State, e: Event)
    requires Bounded(p, s) && Enabled(p, s, e)
    ensures Bounded(p, Apply(p, s, e))
  {
  }

  lemma SpreadStep(p: Pace, s: State, e: Event)
    requires KeepsMinimum(p.minDelay, p.maxDelay)
    requires Bounded(p, s) && Spread(p, s) && Enabled(p, s, e) && DrawFits(p, s, e)
    ensures Spread(p, Apply(p, s, e))
  {
    if e.TakeDraw? {
      GeneratedDelaysHold(p.minDelay, p.maxDelay, p.source, s.drawn);
    }
  }

  /** A request that ends, well or not, gives its slot back and leaves the others be. */
  lemma SlotComesBack(p: Pace, s: State, e: Event)
    requires Enabled(p, s, e) && (e.Succeed? || e.Fail?)
    ensures var t := Apply(p, s, e);
            && |t.holders| == |s.holders| - 1 && e.id !in t.holders
            && forall id :: id in s.holders && id != e.id ==> id in t.holders && t.holders[id] == s.holders[id]
  {
    var t := Apply(p, s, e);
    assert s.holders.Keys == t.holders.Keys + {e.id};
  }

  lemma {:induction false} BoundedAt(p: Pace, ss: seq<State>, es: seq<Event>, n: nat)
    requires IsRun(p, ss, es) && n <= |es|
    ensures Bounded(p, ss[n])
  {
    if n > 0 {
      BoundedAt(p, ss, es, n - 1);
      assert Step(p, ss[n - 1], es[n - 1], ss[n]);
      BoundedStep(p, ss[n - 1], es[n - 1]);
    }
  }

  /** A run of a job whose options keep the minimum, all of whose draws fit int32. */
  ghost predicate PacedRun(p: Pace, ss: seq<State>, es: seq<Event>) {
    KeepsMinimum(p.minDelay, p.maxDelay) && FittingRun(p, ss, es)
  }

  lemma {:induction false} SpreadAt(p: Pace, ss: seq<State>, es: seq<Event>, n: nat)
    requires PacedRun(p, ss, es) && n <= |es|
    ensures Bounded(p, ss[n]) && Spread(p, ss[n])
  {
    BoundedAt(p, ss, es, n);
    if n > 0 {
      SpreadAt(p, ss, es, n - 1);
      assert Step(p, ss[n - 1], es[n - 1], ss[n]);
      SpreadStep(p, ss[n - 1], es[n - 1]);
    }
  }

  function Acquisitions(es: seq<Event>): nat {
    if es == [] then 0 else Acquisitions(es[..|es| - 1]) + (if es[|es| - 1].Acquire? then 1 else 0)
  }

  /** The requests in progress that have taken no value yet. */
  function Undrawn(s: State): set<Id> {
    set id | id in s.holders && s.holders[id].draw.None?
  }

  lemma UndrawnStep(p: Pace, s: State, e: Event)
    requires Enabled(p, s, e)
    ensures var t := Apply(p, s, e);
            t.drawn + |Undrawn(t)| <= s.drawn + |Undrawn(s)| + (if e.Acquire? then 1 else 0)
  {
    var t := Apply(p, s, e);
    match e
    case Acquire(_, id) => assert Undrawn(t) == Undrawn(s) + {id};
    case TakeDraw(_, id) => assert Undrawn(t) == Undrawn(s) - {id};
    case _ =>
      assert Undrawn(t) <= Undrawn(s);
      SubsetSize(Undrawn(t), Undrawn(s));
  }

  /** Each request takes at most one value of randChan. */
  lemma {:induction false} OneValueEach(p: Pace, ss: seq<State>, es: seq<Event>, n: nat)
    requires IsRun(p, ss, es) && n <= |es|
    ensures ss[n].drawn - ss[0].drawn + |Undrawn(ss[n])| <= Acquisitions(es[..n])
  {
    if n > 0 {
      OneValueEach(p, ss, es, n - 1);
      assert Step(p, ss[n - 1], es[n - 1], ss[n]);
      UndrawnStep(p, ss[n - 1], es[n - 1]);
      assert es[..n][..n - 1] == es[..n - 1];
    }
  }

  // ---- the rate -------------------------------------------------------------------

  predicate InWindow(e: Event, lo: real, hi: real) {
    e.Succeed? && lo <= e.at < hi
  }

  /** Requests that succeed in the half-open window [lo, hi). */
  function Successes(es: seq<Event>, lo: real, hi: real): nat {
    if es == [] then 0
    else Successes(es[..|es| - 1], lo, hi) + (if InWindow(es[|es| - 1], lo, hi) then 1 else 0)
  }

  /** The slots in use that were acquired before `lo`. */
  function Old(s: State, lo: real): set<Id> {
    set id | id in s.holders && s.holders[id].acquired < lo
  }

  /** The end of the window of `k` promised minimums from `lo`. */
  function After(p: Pace, lo: real, k: nat): real {
    if k == 0 then lo else After(p, lo, k - 1) + Minimum(p.minDelay) as real
  }

  /** From `lo` on, old slots are only given back, and within one minimum of `lo`
      every success gives one back. */
  lemma OldShrinks(p: Pace, s: State, e: Event, lo: real)
    requires Bounded(p, s) && Spread(p, s) && Enabled(p, s, e) && e.at >= lo
    ensures |Old(Apply(p, s, e), lo)| + (if InWindow(e, lo, After(p, lo, 1)) then 1 else 0) <= |Old(s, lo)|
  {
    var t := Apply(p, s, e);
    assert After(p, lo, 1) == After(p, lo, 0) + Minimum(p.minDelay) as real;
    if InWindow(e, lo, After(p, lo, 1)) {
      assert e.id in Old(s, lo);
      assert Old(t, lo) == Old(s, lo) - {e.id};
    } else {
      assert Old(t, lo) <= Old(s, lo);
      SubsetSize(Old(t, lo), Old(s, lo));
    }
  }

  /** Successes so far plus old slots stay within the slots; before `lo` nothing counts. */
  ghost predicate WindowInv(p: Pace, s: State, es: seq<Event>, lo: real) {
    var n := Successes(es, lo, After(p, lo, 1));
    n + |Old(s, lo)| <= p.slots && (s.now < lo ==> n == 0)
  }

  lemma WindowStep(p: Pace, s: State, es: seq<Event>, e: Event, lo: real)
    requires Bounded(p, s) && Spread(p, s) && Enabled(p, s, e)
    requires WindowInv(p, s, es, lo)
    ensures WindowInv(p, Apply(p, s, e), es + [e], lo)
  {
    var t := Apply(p, s, e);
    SuccessesSnoc(es, e, lo, After(p, lo, 1));
    if e.at >= lo {
      OldShrinks(p, s, e, lo);
    } else {
      BoundedStep(p, s, e);
      SubsetSize(Old(t, lo), t.holders.Keys);
    }
  }

  lemma {:induction false} OneWindowAt(p: Pace, ss: seq<State>, es: seq<Event>, lo: real, n: nat)
    requires PacedRun(p, ss, es) && n <= |es|
    ensures WindowInv(p, ss[n], es[..n], lo)
  {
    if n == 0 {
      assert Old(ss[0], lo) == {};
    } else {
      OneWindowAt(p, ss, es, lo, n - 1);
      SpreadAt(p, ss, es, n - 1);
      assert Step(p, ss[n - 1], es[n - 1], ss[n]);
      WindowStep(p, ss[n - 1], es[..n - 1], es[n - 1], lo);
      assert es[..n] == es[..n - 1] + [es[n - 1]];
    }
  }

  lemma {:induction false} SuccessesSplit(es: seq<Event>, lo: real, mid: real, hi: real)
    requires lo <= mid <= hi
    ensures Successes(es, lo, hi) == Successes(es, lo, mid) + Successes(es, mid, hi)
  {
    if es != [] { SuccessesSplit(es[..|es| - 1], lo, mid, hi); }
  }

  lemma {:induction false} AfterIsProduct(p: Pace, lo: real, k: nat)
    ensures After(p, lo, k) == lo + (k * Minimum(p.minDelay)) as real
  {
    if k > 0 {
      AfterIsProduct(p, lo, k - 1);
      MulStep(k, Minimum(p.minDelay));
    }
  }

  lemma {:induction false} AfterGrows(p: Pace, lo: real, k: nat)
    ensures After(p, lo, k) >= lo
  {
    if k > 0 { AfterGrows(p, lo, k - 1); }
  }

  lemma MulStep(k: nat, n: nat)
    requires k > 0
    ensures k * n == (k - 1) * n + n
  {
  }

  lemma {:induction false} EmptyWindow(es: seq<Event>, lo: real)
    ensures Successes(es, lo, lo) == 0
  {
    if es != [] { EmptyWindow(es[..|es| - 1], lo); }
  }

  lemma OneWindow(p: Pace, ss: seq<State>, es: seq<Event>, lo: real)
    requires PacedRun(p, ss, es)
    ensures Successes(es, lo, After(p, lo, 1)) <= p.slots
  {
    OneWindowAt(p, ss, es, lo, |es|);
    assert es[..|es|] == es;
  }

  /** `k` times the number of slots. */
  function Allowance(p: Pace, k: nat): nat {
    if k == 0 then 0 else Allowance(p, k - 1) + p.slots
  }

  lemma {:induction false} AllowanceIsProduct(p: Pace, k: nat)
    ensures Allowance(p, k) == k * p.slots
  {
    if k > 0 {
      AllowanceIsProduct(p, k - 1);
      MulStep(k, p.slots);
    }
  }

  /** At most N requests succeed in any window of one promised minimum. */
  ghost predicate Limited(p: Pace, es: seq<Event>) {
    forall lo: real :: Successes(es, lo, After(p, lo, 1)) <= p.slots
  }

  lemma {:induction false} AfterNext(p: Pace, lo: real, k: nat)
    ensures After(p, lo, k + 1) == After(p, After(p, lo, k), 1)
  {
  }

  lemma {:induction false} ManyWindows(p: Pace, es: seq<Event>, lo: real, k: nat)
    requires Limited(p, es)
    ensures Successes(es, lo, After(p, lo, k)) <= Allowance(p, k)
    decreases k
  {
    if k == 0 {
      EmptyWindow(es, lo);
    } else {
      var mid, hi := After(p, lo, k - 1), After(p, lo, k);
      AfterGrows(p, lo, k - 1);
      AfterNext(p, lo, k - 1);
      AfterGrows(p, mid, 1);
      ManyWindows(p, es, lo, k - 1);
      assert Successes(es, mid, hi) <= p.slots;
      SuccessesSplit(es, lo, mid, hi);
    }
  }

  /** Under every schedule at most MaxConcurrentRequests main requests are in
      progress at once. */
  lemma ConcurrencyBound(p: Pace, ss: seq<State>, es: seq<Event>, n: nat)
    requires IsRun(p, ss, es) && n <= |es|
    ensures |ss[n].holders| <= p.slots
  {
    BoundedAt(p, ss, es, n);
  }

  /** The rate bound: in every run of a job whose timers take their delays from
      MinDelay, MaxDelay and the values its generator sends, at most k*N requests
      succeed in any half-open window of k times max(MinDelay, 1) seconds, provided
      MinDelay is positive or MaxDelay at most 1, and the values drawn fit int32. */
  lemma {:induction false} RateBound(p: Pace, ss: seq<State>, es: seq<Event>, lo: real, k: nat)
    requires PacedRun(p, ss, es)
    ensures Successes(es, lo, lo + (k * Minimum(p.minDelay)) as real) <= k * p.slots
  {
    forall t: real ensures Successes(es, t, After(p, t, 1)) <= p.slots {
      OneWindow(p, ss, es, t);
    }
    assert Limited(p, es);
    LimitedRate(p, es, lo, k);
  }

  lemma {:induction false} LimitedRate(p: Pace, es: seq<Event>, lo: real, k: nat)
    requires Limited(p, es)
    ensures Successes(es, lo, lo + (k * Minimum(p.minDelay)) as real) <= k * p.slots
  {
    AfterIsProduct(p, lo, k);
    AllowanceIsProduct(p, k);
    ManyWindows(p, es, lo, k);
  }

  // ---- without the proviso --------------------------------------------------------

  /** A run that is at the instant `at` with no slot in use, has taken the first
      `drawn` values of randChan, and never skipped one. */
  ghost predicate Idle(p: Pace, ss: seq<State>, es: seq<Event>, at: real, drawn: nat) {
    FittingRun(p, ss, es) && ss[0].drawn == 0 && ss[|es|] == State(at, map[], drawn)
  }

  // The life of one request that begins at `at` and succeeds `seconds` later.
  function Request(at: real, seconds: nat): seq<Event> {
    [Acquire(at, 0), TakeDraw(at, 0), StartTimer(at, 0), Succeed(at + seconds as real, 0)]
  }

  /** From an idle state, a request whose draw is `seconds` passes through these states. */
  lemma RequestSteps(p: Pace, at: real, k: nat, seconds: nat)
    requires p.slots >= 1 && UsesDraw(p) && Fits(p.minDelay, p.maxDelay, p.source, k)
    requires Draw(p.minDelay, p.maxDelay, p.source, k) == seconds
    ensures var es, end := Request(at, seconds), at + seconds as real;
            var s1 := State(at, map[0 := Hold(at, None, None)], k);
            var s2 := State(at, map[0 := Hold(at, Some(seconds), None)], k + 1);
            var s3 := State(at, map[0 := Hold(at, Some(seconds), Some(end))], k + 1);
            && Step(p, State(at, map[], k), es[0], s1) && Step(p, s1, es[1], s2)
            && Step(p, s2, es[2], s3) && Step(p, s3, es[3], State(end, map[], k + 1))
  {
    var h := Hold(at, None, None);
    assert map[0 := h][0 := h.(draw := Some(seconds))] == map[0 := h.(draw := Some(seconds))];
    RequestEnds(p, at, k + 1, seconds);
  }

  lemma RequestEnds(p: Pace, at: real, drawn: nat, seconds: nat)
    requires UsesDraw(p) && seconds <= 0x7fff_ffff
    ensures var es, end := Request(at, seconds), at + seconds as real;
            var s2 := State(at, map[0 := Hold(at, Some(seconds), None)], drawn);
            var s3 := State(at, map[0 := Hold(at, Some(seconds), Some(end))], drawn);
            Step(p, s2, es[2], s3) && Step(p, s3, es[3], State(end, map[], drawn))
  {
    var h, end := Hold(at, Some(seconds), None), at + seconds as real;
    assert TimerOf(p, h) == seconds by { HoldExact(p.minDelay, p.maxDelay, seconds); }
    assert map[0 := h][0 := h.(due := Some(end))] == map[0 := h.(due := Some(end))];
    assert map[0 := h.(due := Some(end))] - {0} == map[];
  }

  lemma SuccessesOfRequest(es: seq<Event>, at: real, seconds: nat, lo: real, hi: real)
    ensures var end := at + seconds as real;
            Successes(es + Request(at, seconds), lo, hi) == Successes(es, lo, hi) + (if lo <= end < hi then 1 else 0)
  {
    var q := Request(at, seconds);
    SuccessesSnoc(es, q[0], lo, hi);
    SuccessesSnoc(es + [q[0]], q[1], lo, hi);
    SuccessesSnoc(es + [q[0]] + [q[1]], q[2], lo, hi);
    SuccessesSnoc(es + [q[0]] + [q[1]] + [q[2]], q[3], lo, hi);
    assert es + q == es + [q[0]] + [q[1]] + [q[2]] + [q[3]];
  }

  /** One more request, which takes the next value. */
  lemma OneMore(p: Pace, ss: seq<State>, es: seq<Event>, at: real, k: nat, seconds: nat)
    returns (ss': seq<State>, es': seq<Event>)
    requires p.slots >= 1 && UsesDraw(p) && Idle(p, ss, es, at, k)
    requires Fits(p.minDelay, p.maxDelay, p.source, k) && Draw(p.minDelay, p.maxDelay, p.source, k) == seconds
    ensures Idle(p, ss', es', at + seconds as real, k + 1) && es' == es + Request(at, seconds)
  {
    var q := Request(at, seconds);
    RequestSteps(p, at, k, seconds);
    ss', es' := Extend(p, ss, es, q[0]);
    ss', es' := Extend(p, ss', es', q[1]);
    ss', es' := Extend(p, ss', es', q[2]);
    ss', es' := Extend(p, ss', es', q[3]);
    assert es' == es + q;
  }

  /** With the next `n` values all zero, `n` requests on one slot, one after the
      other, all succeed at the instant `at`. */
  lemma {:induction false} Burst(p: Pace, ss: seq<State>, es: seq<Event>, at: real, first: nat, n: nat)
    returns (ss': seq<State>, es': seq<Event>)
    requires p.slots >= 1 && UsesDraw(p) && Idle(p, ss, es, at, first)
    requires forall k :: first <= k < first + n ==> ZeroDraw(p, k)
    ensures Idle(p, ss', es', at, first + n)
    ensures forall lo, hi :: lo <= at < hi ==> Successes(es', lo, hi) >= n
    decreases n
  {
    if n == 0 {
      ss', es' := ss, es;
    } else {
      var ss1, es1 := Burst(p, ss, es, at, first, n - 1);
      assert ZeroDraw(p, first + n - 1);
      ss', es' := OneMore(p, ss1, es1, at, first + n - 1, 0);
      forall lo, hi | lo <= at < hi ensures Successes(es', lo, hi) >= n {
        SuccessesOfRequest(es1, at, 0, lo, hi);
      }
    }
  }

  predicate ZeroDraw(p: Pace, k: nat) {
    k < Values(p.minDelay, p.maxDelay, p.source) && Draw(p.minDelay, p.maxDelay, p.source, k) == 0
  }

  lemma Extend(p: Pace, ss: seq<State>, es: seq<Event>, e: Event) returns (ss': seq<State>, es': seq<Event>)
    requires FittingRun(p, ss, es) && Enabled(p, ss[|es|], e) && DrawFits(p, ss[|es|], e)
    ensures FittingRun(p, ss', es') && ss'[0] == ss[0]
    ensures es' == es + [e] && ss'[|es'|] == Apply(p, ss[|es|], e)
  {
    var t := Apply(p, ss[|es|], e);
    assert Step(p, ss[|es|], e, t);
    ss', es' := ss + [t], es + [e];
    forall i | 0 <= i < |es'| ensures Step(p, ss'[i], es'[i], ss'[i + 1]) && DrawFits(p, ss'[i], es'[i]) {
      if i < |es| {
        assert Step(p, ss[i], es[i], ss[i + 1]) && DrawFits(p, ss[i], es[i]);
      }
    }
  }

  lemma {:induction false} SuccessesSnoc(es: seq<Event>, e: Event, lo: real, hi: real)
    ensures Successes(es + [e], lo, hi) == Successes(es, lo, hi) + (if InWindow(e, lo, hi) then 1 else 0)
  {
  }

  /** With a MinDelay that is not positive the generator sends zeros, without
      drawing, until the next long pause. */
  lemma {:induction false} ZerosUntilPause(min: int, max: int, ii: nat, jj: int, source: seq<int>, k: nat)
    requires min <= 0 && ii + k < jj
    ensures var ds := Delays(min, max, ii, jj, source); k < |ds| && ds[k] == Delay(0, false)
    decreases k
  {
    if k > 0 { ZerosUntilPause(min, max, ii + 1, jj, source, k - 1); }
  }

  lemma {:induction false} PauseAfterZeros(min: int, max: int, ii: nat, jj: int, source: seq<int>, k: nat)
    requires min <= 0 && ii <= jj && k < |Delays(min, max, jj, jj, source)|
    ensures var ds := Delays(min, max, ii, jj, source);
            jj - ii + k < |ds| && ds[jj - ii + k] == Delays(min, max, jj, jj, source)[k]
    decreases jj - ii
  {
    if ii < jj { PauseAfterZeros(min, max, ii + 1, jj, source, k); }
  }

  /** A source on which the first five values are zeros, the sixth is MaxDelay and
      the next n are zeros. */
  function BurstSource(maxDelay: Int32, n: nat): seq<int> {
    [n + 6, maxDelay]
  }

  lemma BurstValues(minDelay: Int32, maxDelay: Int32, n: nat, k: nat)
    requires !KeepsMinimum(minDelay, maxDelay) && k < 6 + n
    ensures var source := BurstSource(maxDelay, n);
            && k < Values(minDelay, maxDelay, source)
            && Draw(minDelay, maxDelay, source, k) == if k == 5 then maxDelay else 0
  {
    var source := BurstSource(maxDelay, n);
    assert FirstAtLeast(5, source) == Some((n + 6, [maxDelay])) by { assert source[1..] == [maxDelay]; }
    assert FirstAtLeast(maxDelay, [maxDelay]) == Some((maxDelay as int, [])) by { assert [maxDelay][1..] == []; }
    assert Delays(minDelay, maxDelay, 5, 5, source)
           == [Delay(maxDelay, true)] + Delays(minDelay, maxDelay, 1, n + 6, []);
    if k < 5 {
      ZerosUntilPause(minDelay, maxDelay, 0, 5, source, k);
    } else {
      if k > 5 { ZerosUntilPause(minDelay, maxDelay, 1, n + 6, [], k - 6); }
      PauseAfterZeros(minDelay, maxDelay, 0, 5, source, k - 5);
    }
  }

  /** `n` requests succeed at the instant `at` of some run that takes the values of
      randChan in order, from the first, and all of them fit int32. */
  ghost predicate AllAtOnce(p: Pace, ss: seq<State>, es: seq<Event>, at: real, n: nat) {
    && FittingRun(p, ss, es) && ss[0].drawn == 0
    && forall lo, hi :: lo <= at < hi ==> Successes(es, lo, hi) >= n
  }

  ghost predicate CanBurst(slots: nat, minDelay: Int32, maxDelay: Int32, n: nat) {
    exists source, ss, es, at :: AllAtOnce(Pace(slots, minDelay, maxDelay, source), ss, es, at, n)
  }

  /** Five requests at time 0, one that waits out the long pause, then `n` at once. */
  lemma BurstRun(p: Pace, n: nat) returns (ss: seq<State>, es: seq<Event>)
    requires p.slots >= 1 && !KeepsMinimum(p.minDelay, p.maxDelay) && p.source == BurstSource(p.maxDelay, n)
    ensures AllAtOnce(p, ss, es, p.maxDelay as real, n)
  {
    forall k | 0 <= k < 6 + n && k != 5 ensures ZeroDraw(p, k) {
      BurstValues(p.minDelay, p.maxDelay, n, k);
    }
    BurstValues(p.minDelay, p.maxDelay, n, 5);
    ss, es := [State(0.0, map[], 0)], [];
    ss, es := Burst(p, ss, es, 0.0, 0, 5);
    ss, es := OneMore(p, ss, es, 0.0, 5, p.maxDelay);
    ss, es := Burst(p, ss, es, p.maxDelay as real, 6, n);
  }

  lemma NoSlotsNoRequests(p: Pace, ss: seq<State>, es: seq<Event>)
    requires p.slots == 0 && IsRun(p, ss, es)
    ensures es == []
  {
    assert es != [] ==> Step(p, ss[0], es[0], ss[1]);
  }

  /** Some run of a job with these options lets more than N requests succeed within
      one promised minimum. */
  ghost predicate RateFails(slots: nat, minDelay: Int32, maxDelay: Int32) {
    exists source, ss, es, lo ::
      BreaksBound(Pace(slots, minDelay, maxDelay, source), ss, es, lo)
  }

  ghost predicate BreaksBound(p: Pace, ss: seq<State>, es: seq<Event>, lo: real) {
    FittingRun(p, ss, es) && Successes(es, lo, After(p, lo, 1)) > p.slots
  }

  lemma BoundKept(p: Pace, ss: seq<State>, es: seq<Event>, lo: real)
    requires FittingRun(p, ss, es) && (p.slots == 0 || KeepsMinimum(p.minDelay, p.maxDelay))
    ensures !BreaksBound(p, ss, es, lo)
  {
    if p.slots == 0 {
      NoSlotsNoRequests(p, ss, es);
    } else {
      OneWindow(p, ss, es, lo);
    }
  }

  /** The proviso is exact: draws that fit int32 can break the rate bound if and only
      if there is a slot, MinDelay is below 1 and MaxDelay above 1. Then no bound
      holds at all: for every n, some run has n requests succeed at one instant. */
  lemma RateBoundIff(slots: nat, minDelay: Int32, maxDelay: Int32)
    ensures RateFails(slots, minDelay, maxDelay) <==> slots >= 1 && !KeepsMinimum(minDelay, maxDelay)
    ensures (forall n: nat :: CanBurst(slots, minDelay, maxDelay, n)) <==> slots >= 1 && !KeepsMinimum(minDelay, maxDelay)
  {
    if slots >= 1 && !KeepsMinimum(minDelay, maxDelay) {
      forall n: nat ensures CanBurst(slots, minDelay, maxDelay, n) {
        var p := Pace(slots, minDelay, maxDelay, BurstSource(maxDelay, n));
        var ss, es := BurstRun(p, n);
      }
      assert CanBurst(slots, minDelay, maxDelay, slots + 1);
    } else {
      forall source, ss, es, lo ensures !BreaksBound(Pace(slots, minDelay, maxDelay, source), ss, es, lo) {
        var p := Pace(slots, minDelay, maxDelay, source);
        if FittingRun(p, ss, es) { BoundKept(p, ss, es, lo); }
      }
    }
    if CanBurst(slots, minDelay, maxDelay, slots + 1) { BurstBreaks(slots, minDelay, maxDelay); }
  }

  lemma BurstBreaks(slots: nat, minDelay: Int32, maxDelay: Int32)
    requires CanBurst(slots, minDelay, maxDelay, slots + 1)
    ensures RateFails(slots, minDelay, maxDelay)
  {
    var source, ss, es, at :| AllAtOnce(Pace(slots, minDelay, maxDelay, source), ss, es, at, slots + 1);
    var p := Pace(slots, minDelay, maxDelay, source);
    assert After(p, at, 1) == After(p, at, 0) + Minimum(minDelay) as real;
    assert BreaksBound(p, ss, es, at);
  }
}
