/** randomGenerator (doer.go): short delays with long pauses spaced among them.
    `source` is what successive evaluations of the random expression yield; the
    generator is followed until the source runs out. */
module DelayGenerator {
  import opened CrawlTypes

  /** The first draw that is at least `min`; without drawing, 0 when `min` is not
      positive, because the source's loop variable starts at 0. */
  function FirstAtLeast(min: int, source: seq<int>): Option<(int, seq<int>)> {
    if min <= 0 then Some((0, source))
    else if source == [] then None
    else if source[0] >= min then Some((source[0], source[1..]))
    else FirstAtLeast(min, source[1..])
  }

  method GenRand(min: int, source: seq<int>) returns (drawn: Option<(int, seq<int>)>)
    ensures drawn == FirstAtLeast(min, source)
    ensures drawn.Some? ==> drawn.value.0 >= min && |drawn.value.1| <= |source|
    ensures drawn.Some? && min > 0 ==> |drawn.value.1| < |source|
  {
    var v, rest := 0, source;
    while v < min
      invariant min <= 0 ==> v == 0 && rest == source
      invariant v < min ==> FirstAtLeast(min, source) == FirstAtLeast(min, rest)
      invariant v >= min ==> FirstAtLeast(min, source) == Some((v, rest))
      invariant |rest| <= |source| && (v >= min > 0 ==> |rest| < |source|)
      decreases |rest|
    {
      if rest == [] { return None; }
      v, rest := rest[0], rest[1..];
    }
    return Some((v, rest));
  }

  function Count(long: seq<bool>): nat {
    if long == [] then 0 else Count(long[..|long| - 1]) + (if long[|long| - 1] then 1 else 0)
  }

  /** The first long pause is at position `k`, and two long pauses are at least
      five positions apart. */
  ghost predicate SpacedFrom(long: seq<bool>, k: nat) {
    && (forall i :: 0 <= i < |long| && i < k ==> !long[i])
    && (|long| > k ==> long[k])
    && (forall i, j :: 0 <= i < j < |long| && long[i] && long[j] ==> j - i >= 5)
  }

  /** The first long pause is the sixth value. */
  ghost predicate Spaced(long: seq<bool>) {
    SpacedFrom(long, 5)
  }

  datatype Delay = Delay(seconds: int, long: bool)

  function Longs(ds: seq<Delay>): seq<bool> {
    seq(|ds|, i requires 0 <= i < |ds| => ds[i].long)
  }

  /** Everything the generator sends from counters `ii` and `jj` on: a value is a
      long pause when `ii` has reached `jj`, and then a new gap is drawn. */
  function Delays(min: int, max: int, ii: nat, jj: int, source: seq<int>): seq<Delay>
    decreases |source|, jj - ii
  {
    if ii >= jj then
      match FirstAtLeast(5, source)
      case None => []
      case Some((gap, rest)) =>
        FirstAtLeastShrinks(5, source);
        match FirstAtLeast(max, rest)
        case None => []
        case Some((v, rest')) => FirstAtLeastShrinks(max, rest); [Delay(v, true)] + Delays(min, max, 1, gap, rest')
    else
      match FirstAtLeast(min, source)
      case None => []
      case Some((v, rest)) => FirstAtLeastShrinks(min, source); [Delay(v, false)] + Delays(min, max, ii + 1, jj, rest)
  }

  lemma {:induction false} FirstAtLeastShrinks(min: int, source: seq<int>)
    ensures var r := FirstAtLeast(min, source);
            r.Some? ==> r.value.0 >= min && |r.value.1| <= |source| && (min > 0 ==> |r.value.1| < |source|)
    decreases |source|
  {
    if min > 0 && source != [] { FirstAtLeastShrinks(min, source[1..]); }
  }

  /** The generator loop sends exactly Delays. */
  method RandomGenerator(min: int, max: int, source: seq<int>) returns (sent: seq<Delay>)
    ensures sent == Delays(min, max, 0, 5, source)
  {
    sent := [];
    var ii, jj, rest := 0, 5, source;
    while true
      invariant 0 <= ii <= jj && jj >= 5
      invariant sent + Delays(min, max, ii, jj, rest) == Delays(min, max, 0, 5, source)
      decreases |rest|, jj - ii
    {
      ghost var before, todo := sent, Delays(min, max, ii, jj, rest);
      if ii >= jj {
        var gap := GenRand(5, rest);
        if gap.None? { return; }
        jj, rest := gap.value.0, gap.value.1;
        ii := 0;
        var pause := GenRand(max, rest);
        if pause.None? { return; }
        rest := pause.value.1;
        sent := sent + [Delay(pause.value.0, true)];
        assert todo == [Delay(pause.value.0, true)] + Delays(min, max, 1, jj, rest);
      } else {
        var delay := GenRand(min, rest);
        if delay.None? { return; }
        rest := delay.value.1;
        sent := sent + [Delay(delay.value.0, false)];
        assert todo == [Delay(delay.value.0, false)] + Delays(min, max, ii + 1, jj, rest);
      }
      ii := ii + 1;
      assert before + todo == sent + Delays(min, max, ii, jj, rest);
    }
  }

  /** For any random source every value is at least min, every long pause at least
      max, and the next long pause comes `jj - ii` values on, the later ones at
      least five apart. */
  lemma {:induction false} DelayShape(min: int, max: int, ii: nat, jj: int, source: seq<int>)
    requires ii <= jj && jj >= 5
    ensures var ds := Delays(min, max, ii, jj, source);
            && SpacedFrom(Longs(ds), jj - ii)
            && forall i :: 0 <= i < |ds| ==> ds[i].seconds >= if ds[i].long then max else min
    decreases |source|, jj - ii
  {
    var ds := Delays(min, max, ii, jj, source);
    if ds == [] { return; }
    if ii >= jj {
      FirstAtLeastShrinks(5, source);
      var (gap, rest) := FirstAtLeast(5, source).value;
      FirstAtLeastShrinks(max, rest);
      var rest' := FirstAtLeast(max, rest).value.1;
      DelayShape(min, max, 1, gap, rest');
      SpacedCons(ds[0], Delays(min, max, 1, gap, rest'), gap - 1);
    } else {
      FirstAtLeastShrinks(min, source);
      var rest := FirstAtLeast(min, source).value.1;
      DelayShape(min, max, ii + 1, jj, rest);
      SpacedCons(ds[0], Delays(min, max, ii + 1, jj, rest), jj - ii - 1);
    }
  }

  /** From counters `ii` and `jj` exactly `jj - ii` short delays come before the next
      long pause. With `jj` the gap drawn at the last pause and `ii` at 1, pauses are
      exactly the drawn gap apart. */
  lemma {:induction false} PauseAfterGap(min: int, max: int, ii: nat, jj: int, source: seq<int>, k: nat)
    requires ii <= jj && k < |Delays(min, max, ii, jj, source)| && k <= jj - ii
    ensures Delays(min, max, ii, jj, source)[k].long <==> k == jj - ii
    decreases k
  {
    if k > 0 {
      var rest := FirstAtLeast(min, source).value.1;
      PauseAfterGap(min, max, ii + 1, jj, rest, k - 1);
    }
  }

  /** At a long pause the first draw of at least 5 is the gap, the first draw of at
      least max after it is the pause, and the next pause comes exactly the gap later. */
  lemma NextPause(min: int, max: int, jj: nat, source: seq<int>, k: nat)
    requires k < |Delays(min, max, jj, jj, source)|
    ensures var ds := Delays(min, max, jj, jj, source);
            && FirstAtLeast(5, source).Some?
            && var (gap, rest) := FirstAtLeast(5, source).value;
               && gap >= 5 && FirstAtLeast(max, rest).Some?
               && ds[0] == Delay(FirstAtLeast(max, rest).value.0, true)
               && (1 <= k <= gap ==> (ds[k].long <==> k == gap))
  {
    FirstAtLeastShrinks(5, source);
    var (gap, rest) := FirstAtLeast(5, source).value;
    var rest' := FirstAtLeast(max, rest).value.1;
    if 1 <= k <= gap { PauseAfterGap(min, max, 1, gap, rest', k - 1); }
  }

  /** The draw used is a draw of the source, and every earlier one was too small. */
  lemma {:induction false} FirstDraw(min: int, source: seq<int>) returns (i: nat)
    requires min > 0 && FirstAtLeast(min, source).Some?
    ensures i < |source| && FirstAtLeast(min, source) == Some((source[i], source[i + 1..]))
    ensures source[i] >= min && forall j :: 0 <= j < i ==> source[j] < min
    decreases |source|
  {
    if source[0] >= min {
      i := 0;
    } else {
      var k := FirstDraw(min, source[1..]);
      i := k + 1;
    }
  }

  lemma SpacedCons(d: Delay, ds: seq<Delay>, k: nat)
    requires SpacedFrom(Longs(ds), k) && (d.long ==> k >= 4)
    ensures SpacedFrom(Longs([d] + ds), if d.long then 0 else k + 1)
  {
    var all := Longs([d] + ds);
    assert all == [d.long] + Longs(ds);
  }

  /** The shape of all delays of a job, from the start. */
  lemma GeneratorShape(min: int, max: int, source: seq<int>, n: nat)
    requires 1 <= n <= |Delays(min, max, 0, 5, source)|
    ensures var ds := Delays(min, max, 0, 5, source);
            && Spaced(Longs(ds))
            && (forall i :: 0 <= i < |ds| ==> ds[i].seconds >= if ds[i].long then max else min)
            && Count(Longs(ds)[..n]) <= (n - 1) / 5
  {
    DelayShape(min, max, 0, 5, source);
    FewPauses(Longs(Delays(min, max, 0, 5, source)), n);
  }

  lemma {:induction false} CountSplit(long: seq<bool>, k: nat)
    requires k <= |long|
    ensures Count(long) == Count(long[..k]) + Count(long[k..])
  {
    var n := |long| - 1;
    if k == |long| {
      assert long[..k] == long && long[k..] == [];
    } else {
      CountSplit(long[..n], k);
      assert long[..n][..k] == long[..k];
      assert long[k..][..|long[k..]| - 1] == long[..n][k..];
    }
  }

  lemma {:induction false} CountNone(long: seq<bool>)
    requires forall i :: 0 <= i < |long| ==> !long[i]
    ensures Count(long) == 0
  {
    if long != [] { CountNone(long[..|long| - 1]); }
  }

  lemma {:induction false} CountAtMostOne(long: seq<bool>)
    requires forall i, j :: 0 <= i < j < |long| ==> !(long[i] && long[j])
    ensures Count(long) <= 1
  {
    if long != [] {
      var init := long[..|long| - 1];
      if long[|long| - 1] { CountNone(init); } else { CountAtMostOne(init); }
    }
  }

  /** Among the first `n` values of a spaced sequence at most (n - 1) / 5 are long pauses. */
  lemma {:induction false} FewPauses(long: seq<bool>, n: nat)
    requires Spaced(long) && 1 <= n <= |long|
    ensures Count(long[..n]) <= (n - 1) / 5
    decreases n
  {
    if n <= 5 {
      CountNone(long[..n]);
    } else {
      var first := long[..n];
      CountSplit(first, n - 5);
      assert first[..n - 5] == long[..n - 5];
      var tail := first[n - 5..];
      forall i, j | 0 <= i < j < |tail| ensures !(tail[i] && tail[j]) {
        assert tail[i] == long[n - 5 + i] && tail[j] == long[n - 5 + j];
      }
      CountAtMostOne(tail);
      FewPauses(long, n - 5);
    }
  }
}
