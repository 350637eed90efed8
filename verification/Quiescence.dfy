/** What can still happen after a job is cancelled (job.go): the check of
    doneChan and the send it guards are separate steps of each handler. */
module Quiescence {
  import opened CrawlTypes

  type Handler = nat

  // A handler has passed its own done check, then may enqueue links, then may
  // pass the done check of sendPageHTML, and then may send its page.
  datatype Phase = Running | Enqueued | Checked | Ended

  datatype State = State(
    done: bool,
    phases: map<Handler, Phase>,
    shipped: seq<Handler>,        // whose page sendChan accepted, oldest first
    enqueued: seq<Handler>,       // who sent commands to the queue
    shippedBefore: nat,           // how much of each happened before doneChan was closed
    enqueuedBefore: nat,
    checkedAtClose: set<Handler>,
    runningAtClose: set<Handler>)

  datatype Event =
    | Start(h: Handler)
    | Enqueue(h: Handler)
    | CheckDone(h: Handler)
    | Send(h: Handler)
    | Quit(h: Handler)
    | CloseDone

  function Init(): State {
    State(false, map[], [], [], 0, 0, {}, {})
  }

  predicate In(s: State, h: Handler, p: Phase) {
    h in s.phases && s.phases[h] == p
  }

  function Those(s: State, p: Phase): set<Handler> {
    set h | h in s.phases && s.phases[h] == p
  }

  predicate Enabled(s: State, e: Event) {
    match e
    case Start(h) => h !in s.phases
    case Enqueue(h) => In(s, h, Running)
    case CheckDone(h) => In(s, h, Running) || In(s, h, Enqueued)
    case Send(h) => In(s, h, Checked)
    case Quit(h) => h in s.phases && !In(s, h, Ended)
    case CloseDone => !s.done
  }

  function Apply(s: State, e: Event): State
    requires Enabled(s, e)
  {
    match e
    case Start(h) => s.(phases := s.phases[h := if s.done then Ended else Running])
    case Enqueue(h) => s.(phases := s.phases[h := Enqueued], enqueued := s.enqueued + [h])
    case CheckDone(h) => s.(phases := s.phases[h := if s.done then Ended else Checked])
    case Send(h) => s.(phases := s.phases[h := Ended], shipped := s.shipped + [h])
    case Quit(h) => s.(phases := s.phases[h := Ended])
    case CloseDone =>
      s.(done := true, shippedBefore := |s.shipped|, enqueuedBefore := |s.enqueued|,
         checkedAtClose := Those(s, Checked), runningAtClose := Those(s, Running))
  }

  ghost predicate IsRun(ss: seq<State>, es: seq<Event>) {
    && |ss| == |es| + 1 && ss[0] == Init()
    && forall i :: 0 <= i < |es| ==> Enabled(ss[i], es[i]) && ss[i + 1] == Apply(ss[i], es[i])
  }

  /** A handler ships and enqueues at most once each, and after the close only
      those past the matching point when doneChan was closed still can. */
  ghost predicate Quiet(s: State) {
    && NoRepeats(s.shipped) && NoRepeats(s.enqueued)
    && (forall h :: h in s.shipped ==> In(s, h, Ended))
    && (forall h :: h in s.enqueued ==> h in s.phases && s.phases[h] != Running)
    && s.shippedBefore <= |s.shipped| && s.enqueuedBefore <= |s.enqueued|
    && (s.done ==>
          && (forall h :: In(s, h, Checked) ==> h in s.checkedAtClose)
          && (forall h :: In(s, h, Running) ==> h in s.runningAtClose)
          && (forall i :: s.shippedBefore <= i < |s.shipped| ==> s.shipped[i] in s.checkedAtClose)
          && (forall i :: s.enqueuedBefore <= i < |s.enqueued| ==> s.enqueued[i] in s.runningAtClose))
  }

  lemma QuietStep(s: State, e: Event)
    requires Quiet(s) && Enabled(s, e)
    ensures Quiet(Apply(s, e))
  {
    var t := Apply(s, e);
    if e.Send? {
      assert forall i :: 0 <= i < |s.shipped| ==> s.shipped[i] in s.shipped;
    } else if e.Enqueue? {
      assert forall i :: 0 <= i < |s.enqueued| ==> s.enqueued[i] in s.enqueued;
    }
  }

  lemma {:induction false} QuietAt(ss: seq<State>, es: seq<Event>, n: nat)
    requires IsRun(ss, es) && n <= |es|
    ensures Quiet(ss[n])
  {
    if n > 0 {
      QuietAt(ss, es, n - 1);
      QuietStep(ss[n - 1], es[n - 1]);
    }
  }

  lemma {:induction false} DistinctFit(hs: seq<Handler>, bound: set<Handler>)
    requires NoRepeats(hs) && forall i :: 0 <= i < |hs| ==> hs[i] in bound
    ensures |hs| <= |bound|
  {
    if hs != [] {
      var n := |hs| - 1;
      DistinctFit(hs[..n], bound - {hs[n]});
    }
  }

  /** After doneChan is closed, the pages still accepted number at most the
      handlers that had passed the done check of sendPageHTML by then, one each,
      and the expansions still enqueued at most the handlers that had not yet
      enqueued. */
  lemma QuiescenceAfterCancel(ss: seq<State>, es: seq<Event>, n: nat)
    requires IsRun(ss, es) && n <= |es| && ss[n].done
    ensures |ss[n].shipped| - ss[n].shippedBefore <= |ss[n].checkedAtClose|
    ensures |ss[n].enqueued| - ss[n].enqueuedBefore <= |ss[n].runningAtClose|
    ensures ss[n].shippedBefore <= |ss[n].shipped|
    ensures NoRepeats(ss[n].shipped[ss[n].shippedBefore..])
  {
    QuietAt(ss, es, n);
    var s := ss[n];
    DistinctFit(s.shipped[s.shippedBefore..], s.checkedAtClose);
    DistinctFit(s.enqueued[s.enqueuedBefore..], s.runningAtClose);
  }

  /** A handler that starts after the close neither ships nor enqueues, ever. */
  lemma LateHandlerIsSilent(ss: seq<State>, es: seq<Event>, a: nat, n: nat)
    requires IsRun(ss, es) && a < n <= |es| && ss[a].done && es[a].Start?
    ensures es[a].h !in ss[n].shipped && es[a].h !in ss[n].enqueued
  {
    QuietAt(ss, es, a);
    StaysSilent(ss, es, a + 1, n, es[a].h);
  }

  lemma {:induction false} StaysSilent(ss: seq<State>, es: seq<Event>, a: nat, n: nat, h: Handler)
    requires IsRun(ss, es) && a <= n <= |es|
    requires In(ss[a], h, Ended) && h !in ss[a].shipped && h !in ss[a].enqueued
    ensures In(ss[n], h, Ended) && h !in ss[n].shipped && h !in ss[n].enqueued
    decreases n - a
  {
    if a < n {
      assert ss[a + 1] == Apply(ss[a], es[a]);
      StaysSilent(ss, es, a + 1, n, h);
    }
  }

  // ---- the bounds are reached ---------------------------------------------------------

  lemma Extend(ss: seq<State>, es: seq<Event>, e: Event) returns (ss': seq<State>, es': seq<Event>)
    requires IsRun(ss, es) && Enabled(ss[|es|], e)
    ensures IsRun(ss', es') && es' == es + [e] && ss' == ss + [Apply(ss[|es|], e)]
  {
    ss', es' := ss + [Apply(ss[|es|], e)], es + [e];
  }

  /** Until doneChan is closed, a handler that starts can enqueue, pass the check of
      sendPageHTML and have its page accepted; after the close it ends at once. */
  lemma HandlerShips(ss: seq<State>, es: seq<Event>, h: Handler) returns (ss': seq<State>, es': seq<Event>)
    requires IsRun(ss, es) && h !in ss[|es|].phases
    ensures IsRun(ss', es') && es <= es'
    ensures var s, t := ss[|es|], ss'[|es'|];
            if s.done then In(t, h, Ended) && t.shipped == s.shipped && t.enqueued == s.enqueued
            else In(t, h, Ended) && t.shipped == s.shipped + [h] && t.enqueued == s.enqueued + [h]
  {
    var done := ss[|es|].done;
    ss', es' := Extend(ss, es, Start(h));
    if !done {
      ss', es' := Extend(ss', es', Enqueue(h));
      ss', es' := Extend(ss', es', CheckDone(h));
      ss', es' := Extend(ss', es', Send(h));
    }
  }

  /** Both states agree on everything but the handlers in `hs` and the two logs. */
  ghost predicate SameElsewhere(s: State, t: State, hs: set<Handler>) {
    && t == s.(phases := t.phases, shipped := t.shipped, enqueued := t.enqueued)
    && s.phases.Keys == t.phases.Keys
    && forall h :: h in s.phases && h !in hs ==> t.phases[h] == s.phases[h]
  }

  /** Handlers that have passed the check of sendPageHTML can all have their pages
      accepted, whether or not doneChan has been closed meanwhile. */
  lemma {:induction false} AllShip(ss: seq<State>, es: seq<Event>, hs: set<Handler>)
    returns (ss': seq<State>, es': seq<Event>)
    requires IsRun(ss, es) && forall h :: h in hs ==> In(ss[|es|], h, Checked)
    ensures IsRun(ss', es') && es <= es' && SameElsewhere(ss[|es|], ss'[|es'|], hs)
    ensures |ss'[|es'|].shipped| == |ss[|es|].shipped| + |hs| && ss'[|es'|].enqueued == ss[|es|].enqueued
    decreases hs
  {
    if hs == {} {
      ss', es' := ss, es;
    } else {
      var h :| h in hs;
      ss', es' := Extend(ss, es, Send(h));
      ss', es' := AllShip(ss', es', hs - {h});
    }
  }

  lemma {:induction false} AllEnqueue(ss: seq<State>, es: seq<Event>, hs: set<Handler>)
    returns (ss': seq<State>, es': seq<Event>)
    requires IsRun(ss, es) && forall h :: h in hs ==> In(ss[|es|], h, Running)
    ensures IsRun(ss', es') && es <= es' && SameElsewhere(ss[|es|], ss'[|es'|], hs)
    ensures |ss'[|es'|].enqueued| == |ss[|es|].enqueued| + |hs| && ss'[|es'|].shipped == ss[|es|].shipped
    decreases hs
  {
    if hs == {} {
      ss', es' := ss, es;
    } else {
      var h :| h in hs;
      ss', es' := Extend(ss, es, Enqueue(h));
      ss', es' := AllEnqueue(ss', es', hs - {h});
    }
  }

  /** The bounds of QuiescenceAfterCancel are exact: doneChan can be closed after any
      run, and then every handler past the check can still ship, and every one that
      had not enqueued can still do so. */
  lemma BoundsAreReached(ss: seq<State>, es: seq<Event>) returns (ss': seq<State>, es': seq<Event>)
    requires IsRun(ss, es) && !ss[|es|].done
    ensures IsRun(ss', es') && es + [CloseDone] <= es'
    ensures var s, t := ss[|es|], ss'[|es'|];
            && t.done && t.shippedBefore == |s.shipped| && t.enqueuedBefore == |s.enqueued|
            && |t.shipped| == |s.shipped| + |Those(s, Checked)|
            && |t.enqueued| == |s.enqueued| + |Those(s, Running)|
  {
    ss', es' := Extend(ss, es, CloseDone);
    var s := ss'[|es'|];
    ss', es' := AllShip(ss', es', s.checkedAtClose);
    ss', es' := AllEnqueue(ss', es', s.runningAtClose);
  }
}
