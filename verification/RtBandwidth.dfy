/** The bandwidth limiter of the real-time class in its flat form (hw4/sched_rt.c): charging, throttling,
    the period timer, and the borrowing of runtime between CPUs.
 */
module RtBandwidth {
  import opened RtLimits
  import opened Words

  /** The consumed time and the throttling flag of an `rt_rq`. */
  datatype Budget = Budget(time: nat, throttled: bool)

  /** Charging `delta` throttles a queue that is over its runtime. */
  function Charged(b: Budget, runtime: nat, delta: nat): Budget {
    Budget(b.time + delta, b.throttled || b.time + delta > runtime)
  }

  /** `overrun` elapsed periods give back up to that many runtimes. */
  function Drained(b: Budget, runtime: nat, overrun: nat): Budget {
    var left := b.time - Min(b.time, overrun * runtime);
    Budget(left, b.throttled && !(b.time > 0 && left < runtime))
  }

  /** A throttled queue has used its runtime, one that is not has not overrun it, and no queue overran it
      by more than one chunk. */
  ghost predicate BudgetOk(b: Budget, runtime: nat, chunk: nat) {
    && (b.throttled ==> b.time >= runtime && b.time > 0)
    && (!b.throttled ==> b.time <= runtime)
    && b.time <= runtime + chunk
  }

  class RtRq {
    const runtime: nat
    const period: nat
    var rtTime: nat
    var throttled: bool
    var nrRunning: nat

    ghost function B(): Budget
      reads this
    {
      Budget(rtTime, throttled)
    }

    constructor (runtime: nat, period: nat)
      requires runtime < period && runtime != RUNTIME_INF
      ensures this.runtime == runtime && this.period == period && B() == Budget(0, false) && nrRunning == 0
    {
      this.runtime, this.period := runtime, period;
      rtTime, throttled, nrRunning := 0, false, 0;
    }

    /** `sched_rt_runtime_exceeded`, without borrowing. */
    method RuntimeExceeded() returns (exceeded: bool)
      requires runtime < period && runtime != RUNTIME_INF
      modifies this`throttled
      ensures throttled == (old(throttled) || rtTime > runtime) && exceeded == throttled
    {
      if runtime == RUNTIME_INF {
        return false;
      }
      if throttled {
        return true;
      }
      if runtime >= period {
        return false;
      }
      if rtTime > runtime {
        throttled := true;
        return true;
      }
      return false;
    }

    /** `update_curr_rt`: the running task is charged; returns whether it has to go. */
    method UpdateCurrRt(delta: nat) returns (resched: bool)
      requires runtime < period && runtime != RUNTIME_INF
      modifies this`rtTime, this`throttled
      ensures B() == Charged(old(B()), runtime, delta) && resched == throttled
      ensures rtTime == old(rtTime) + delta && throttled == (old(throttled) || rtTime > runtime)
    {
      rtTime := rtTime + delta;
      resched := RuntimeExceeded();
    }

    /** One CPU's part of `do_sched_rt_period_timer`. It never reports idle while the queue is throttled. */
    method PeriodTimer(overrun: nat, ghost chunk: nat) returns (idle: bool)
      requires BudgetOk(B(), runtime, chunk)
      modifies this`rtTime, this`throttled
      ensures B() == Drained(old(B()), runtime, overrun) && BudgetOk(B(), runtime, chunk)
      ensures rtTime == old(rtTime) - Min(old(rtTime), overrun * runtime)
      ensures throttled <==> old(throttled) && rtTime >= runtime
      ensures idle <==> rtTime == 0 && nrRunning == 0
      ensures throttled ==> !idle
    {
      idle := true;
      DrainedOk(B(), runtime, chunk, overrun);
      if rtTime != 0 {
        rtTime := rtTime - Min(rtTime, overrun * runtime);
        if throttled && rtTime < runtime {
          throttled := false;
        }
        if rtTime != 0 || nrRunning != 0 {
          idle := false;
        }
      } else if nrRunning != 0 {
        idle := false;
      }
    }
  }

  lemma ChargedOk(b: Budget, runtime: nat, chunk: nat, delta: nat)
    requires BudgetOk(b, runtime, chunk) && !b.throttled && delta <= chunk
    ensures BudgetOk(Charged(b, runtime, delta), runtime, chunk)
  {
  }

  lemma DrainedOk(b: Budget, runtime: nat, chunk: nat, overrun: nat)
    requires BudgetOk(b, runtime, chunk)
    ensures BudgetOk(Drained(b, runtime, overrun), runtime, chunk)
  {
    if runtime == 0 {
      assert overrun * runtime == 0;
    }
  }

  // ----- runs -----

  /** Real-time tasks run for a while, or the period timer finds that some periods have elapsed. */
  datatype Event = Ran(delta: nat) | Elapsed(overrun: nat)

  function After(b: Budget, runtime: nat, events: seq<Event>): Budget {
    if events == [] then b
    else
      var last := |events| - 1;
      var m := After(b, runtime, events[..last]);
      match events[last]
      case Ran(delta) => Charged(m, runtime, delta)
      case Elapsed(overrun) => Drained(m, runtime, overrun)
  }

  /** Real-time tasks run in chunks of at most `chunk`, and never while the queue is throttled. */
  ghost predicate Obeys(b: Budget, runtime: nat, chunk: nat, events: seq<Event>) {
    forall i {:trigger events[i]} :: 0 <= i < |events| && events[i].Ran? ==>
      events[i].delta <= chunk && !After(b, runtime, events[..i]).throttled
  }

  function TotalRun(events: seq<Event>): nat {
    if events == [] then 0
    else TotalRun(events[..|events| - 1]) + if events[|events| - 1].Ran? then events[|events| - 1].delta else 0
  }

  function Periods(events: seq<Event>): nat {
    if events == [] then 0
    else Periods(events[..|events| - 1]) + if events[|events| - 1].Elapsed? then events[|events| - 1].overrun else 0
  }

  lemma ObeysPrefix(b: Budget, runtime: nat, chunk: nat, events: seq<Event>)
    requires Obeys(b, runtime, chunk, events) && events != []
    ensures Obeys(b, runtime, chunk, events[..|events| - 1])
  {
    var front := events[..|events| - 1];
    forall i | 0 <= i < |front| && front[i].Ran?
      ensures front[i].delta <= chunk && !After(b, runtime, front[..i]).throttled
    {
      assert front[i] == events[i] && front[..i] == events[..i];
    }
  }

  /** Every chunk is either still accounted or was given back by an elapsed period. */
  lemma {:induction false} Accounted(b: Budget, runtime: nat, chunk: nat, events: seq<Event>)
    requires BudgetOk(b, runtime, chunk) && Obeys(b, runtime, chunk, events)
    ensures BudgetOk(After(b, runtime, events), runtime, chunk)
    ensures b.time + TotalRun(events) <= After(b, runtime, events).time + Periods(events) * runtime
  {
    if events != [] {
      var last, front := events[|events| - 1], events[..|events| - 1];
      ObeysPrefix(b, runtime, chunk, events);
      Accounted(b, runtime, chunk, front);
      var m := After(b, runtime, front);
      match last {
        case Ran(delta) =>
          assert !After(b, runtime, events[..|events| - 1]).throttled;
          ChargedOk(m, runtime, chunk, delta);
        case Elapsed(overrun) =>
          DrainedOk(m, runtime, chunk, overrun);
          GivenBack(m, runtime, Periods(front), overrun);
      }
    }
  }

  lemma GivenBack(m: Budget, runtime: nat, periods: nat, overrun: nat)
    ensures m.time + periods * runtime <= Drained(m, runtime, overrun).time + (periods + overrun) * runtime
  {
    assert (periods + overrun) * runtime == periods * runtime + overrun * runtime;
  }

  /** Over `k` elapsed periods real-time tasks run at most (k + 1) * runtime + chunk. */
  ghost predicate Bounded(runtime: nat, chunk: nat, events: seq<Event>) {
    TotalRun(events) <= (Periods(events) + 1) * runtime + chunk
  }

  lemma BandwidthBound(runtime: nat, chunk: nat, events: seq<Event>)
    requires Obeys(Budget(0, false), runtime, chunk, events)
    ensures Bounded(runtime, chunk, events)
  {
    Accounted(Budget(0, false), runtime, chunk, events);
    assert (Periods(events) + 1) * runtime == Periods(events) * runtime + runtime;
  }

  /** Draining `m` and then `n` periods is draining `m + n`, as far as the release is concerned. */
  lemma DrainedTwice(b: Budget, runtime: nat, chunk: nat, m: nat, n: nat)
    requires BudgetOk(b, runtime, chunk)
    ensures var two, one := Drained(Drained(b, runtime, m), runtime, n), Drained(b, runtime, m + n);
            two.time == one.time && (two.throttled ==> one.throttled)
  {
    assert (m + n) * runtime == m * runtime + n * runtime;
  }

  lemma {:induction false} TimersOnly(b: Budget, runtime: nat, chunk: nat, events: seq<Event>)
    requires BudgetOk(b, runtime, chunk) && forall i {:trigger events[i]} :: 0 <= i < |events| ==> events[i].Elapsed?
    ensures var after, once := After(b, runtime, events), Drained(b, runtime, Periods(events));
            && BudgetOk(after, runtime, chunk) && after.time == once.time
            && (after.throttled ==> once.throttled || events == [])
  {
    if events != [] {
      var last, front := events[|events| - 1], events[..|events| - 1];
      TimersOnly(b, runtime, chunk, front);
      var m := After(b, runtime, front);
      DrainedOk(m, runtime, chunk, last.overrun);
      DrainedTwice(b, runtime, chunk, Periods(front), last.overrun);
    } else {
      assert 0 * runtime == 0;
    }
  }

  /** A throttled queue is released within chunk / runtime + 1 periods. */
  lemma ReleasedInTime(b: Budget, runtime: nat, chunk: nat, events: seq<Event>)
    requires BudgetOk(b, runtime, chunk) && runtime > 0
    requires forall i {:trigger events[i]} :: 0 <= i < |events| ==> events[i].Elapsed?
    requires Periods(events) >= chunk / runtime + 1
    ensures !After(b, runtime, events).throttled
  {
    TimersOnly(b, runtime, chunk, events);
    EnoughPeriods(runtime, chunk, Periods(events));
  }

  lemma DivMul(x: nat, d: nat)
    requires d > 0
    ensures x / d * d <= x < (x / d + 1) * d
  {
    assert x == x / d * d + x % d;
  }

  lemma MulAtLeast(a: nat, b: nat, c: nat)
    requires a <= b
    ensures a * c <= b * c
  {
    assert b * c - a * c == (b - a) * c;
    assert (b - a) * c >= 0;
  }

  lemma EnoughPeriods(runtime: nat, chunk: nat, k: nat)
    requires runtime > 0 && k >= chunk / runtime + 1
    ensures k * runtime > chunk
  {
    DivMul(chunk, runtime);
    MulAtLeast(chunk / runtime + 1, k, runtime);
  }

  // ----- borrowing runtime -----

  function SumIn(s: seq<nat>, span: set<nat>): nat {
    if s == [] then 0
    else SumIn(s[..|s| - 1], span) + if |s| - 1 in span then s[|s| - 1] else 0
  }

  lemma {:induction false} SumUpdate(s: seq<nat>, span: set<nat>, i: nat, v: nat)
    requires i < |s|
    ensures SumIn(s[i := v], span) == SumIn(s, span) + if i in span then v - s[i] else 0
  {
    var n := |s| - 1;
    if i == n {
      assert s[i := v][..n] == s[..n];
    } else {
      SumUpdate(s[..n], span, i, v);
      assert s[i := v][..n] == s[..n][i := v];
    }
  }

  /** An unlimited queue looks as if it had nothing to lend, and so does one that has used its runtime. */
  predicate CanLend(runtime: nat, time: nat) {
    time < runtime < time + TWO_63
  }

  lemma LendsIf(runtime: nat, time: nat)
    requires runtime < TWO_64 && time < TWO_63
    ensures SignedDifference(runtime, time) > 0 <==> CanLend(runtime, time)
    ensures CanLend(runtime, time) ==> SignedDifference(runtime, time) == runtime - time
  {
    if runtime >= time {
      assert (runtime - time) % TWO_64 == runtime - time;
    } else {
      assert (runtime - time) % TWO_64 == runtime - time + TWO_64;
    }
  }

  /** What CPU `i` offers to lend: its share of what it has not used. */
  function Offer(before: seq<nat>, time: seq<nat>, span: set<nat>, me: nat, i: nat): nat
    requires |before| == |time| && i < |before|
  {
    if i in span && i != me && CanLend(before[i], time[i]) then (before[i] - time[i]) / |span| else 0
  }

  /** The offers of the first `k` CPUs. */
  function Offers(before: seq<nat>, time: seq<nat>, span: set<nat>, me: nat, k: nat): nat
    requires |before| == |time| && k <= |before|
  {
    if k == 0 then 0 else Offers(before, time, span, me, k - 1) + Offer(before, time, span, me, k - 1)
  }

  /** The runtime of the borrower once the first `k` CPUs have lent: what they offer, up to the period. */
  function Level(before: seq<nat>, time: seq<nat>, span: set<nat>, me: nat, period: nat, k: nat): nat
    requires |before| == |time| && k <= |before| && me < |before|
  {
    Min(before[me] + Offers(before, time, span, me, k), period)
  }

  lemma OneMoreOffer(before: seq<nat>, time: seq<nat>, span: set<nat>, me: nat, k: nat)
    requires |before| == |time| && k < |before|
    ensures Offers(before, time, span, me, k) <= Offers(before, time, span, me, k + 1)
  {
    assert Offer(before, time, span, me, k) >= 0;
  }

  lemma {:induction false} OffersGrow(before: seq<nat>, time: seq<nat>, span: set<nat>, me: nat, j: nat, k: nat)
    requires |before| == |time| && j <= k <= |before|
    ensures Offers(before, time, span, me, j) <= Offers(before, time, span, me, k)
  {
    if j < k {
      OneMoreOffer(before, time, span, me, k - 1);
      OffersGrow(before, time, span, me, j, k - 1);
    }
  }

  /** One of the first `k` CPUs of the span has something to lend. */
  ghost predicate SomeLend(before: seq<nat>, time: seq<nat>, span: set<nat>, me: nat, k: nat)
    requires |before| == |time| && k <= |before|
  {
    exists i :: 0 <= i < k && i in span && i != me && CanLend(before[i], time[i])
  }

  lemma NoneLent(before: seq<nat>, time: seq<nat>, span: set<nat>, me: nat, period: nat)
    requires |before| == |time| && me < |before| && before[me] <= period
    ensures LentTo(before, before, time, span, me, period, 0) && !SomeLend(before, time, span, me, 0)
  {
  }

  lemma MoreLend(before: seq<nat>, time: seq<nat>, span: set<nat>, me: nat, k: nat)
    requires |before| == |time| && k < |before|
    ensures SomeLend(before, time, span, me, k + 1)
         == (SomeLend(before, time, span, me, k) || (k in span && k != me && CanLend(before[k], time[k])))
    ensures SomeLend(before, time, span, me, k + 1) ==> SomeLend(before, time, span, me, |before|)
  {
  }

  /** The first `k` CPUs have lent what raises the level, the others nothing. */
  ghost predicate LentTo(before: seq<nat>, after: seq<nat>, time: seq<nat>, span: set<nat>,
      me: nat, period: nat, k: nat)
    requires |before| == |after| == |time| && me < |before| && k <= |before|
  {
    && after[me] == Level(before, time, span, me, period, k)
    && (forall i :: 0 <= i < k && i != me ==>
          after[i] == before[i]
             - (Level(before, time, span, me, period, i + 1) - Level(before, time, span, me, period, i)))
    && (forall i :: k <= i < |before| && i != me ==> after[i] == before[i])
  }

  /** Once the borrower has the whole period, the other CPUs need not be asked. */
  lemma FullEarly(before: seq<nat>, after: seq<nat>, time: seq<nat>, span: set<nat>, me: nat, period: nat, k: nat)
    requires |before| == |after| == |time| && me < |before| && k <= |before|
    requires LentTo(before, after, time, span, me, period, k) && after[me] == period
    ensures LentTo(before, after, time, span, me, period, |before|)
  {
    forall i | k <= i <= |before|
      ensures Level(before, time, span, me, period, i) == period
    {
      OffersGrow(before, time, span, me, k, i);
    }
  }

  /** No lender goes below the time it has used, nor lends more than its share; the rest lend nothing. */
  lemma LendersKeepUsed(before: seq<nat>, after: seq<nat>, time: seq<nat>, span: set<nat>, me: nat, period: nat, i: nat)
    requires |before| == |after| == |time| && me < |before| && i < |before| && i != me && span != {}
    requires LentTo(before, after, time, span, me, period, |before|)
    ensures after[i] <= before[i] && before[i] - after[i] <= Offer(before, time, span, me, i)
    ensures after[i] != before[i] ==> i in span && CanLend(before[i], time[i]) && time[i] <= after[i]
  {
    OfferFits(before, time, span, me, i);
    LevelRises(before, time, span, me, period, i);
  }

  /** A queue of the span with more than it used offers the share of the rest, rounded down; others nothing. */
  lemma OfferIs(before: seq<nat>, time: seq<nat>, span: set<nat>, me: nat, i: nat)
    requires |before| == |time| && i < |before| && span != {}
    ensures var offer := Offer(before, time, span, me, i);
            if i in span && i != me && time[i] < before[i] < time[i] + TWO_63
            then offer * |span| <= before[i] - time[i] < (offer + 1) * |span|
            else offer == 0
  {
    if i in span && i != me && CanLend(before[i], time[i]) {
      DivMul(before[i] - time[i], |span|);
    }
  }

  lemma OfferFits(before: seq<nat>, time: seq<nat>, span: set<nat>, me: nat, i: nat)
    requires |before| == |time| && i < |before| && span != {}
    ensures Offer(before, time, span, me, i) > 0 ==> i in span && CanLend(before[i], time[i])
    ensures CanLend(before[i], time[i]) ==> Offer(before, time, span, me, i) <= before[i] - time[i]
  {
    if CanLend(before[i], time[i]) {
      Share(before[i] - time[i], |span|);
    }
  }

  lemma LevelRises(before: seq<nat>, time: seq<nat>, span: set<nat>, me: nat, period: nat, k: nat)
    requires |before| == |time| && k < |before| && me < |before|
    ensures var now, next := Level(before, time, span, me, period, k), Level(before, time, span, me, period, k + 1);
            && next == Min(now + Offer(before, time, span, me, k), period)
            && now <= next <= now + Offer(before, time, span, me, k)
  {
  }

  /** One more CPU has lent what it offers, up to the period. */
  lemma LentOne(was: seq<nat>, mid: seq<nat>, after: seq<nat>, time: seq<nat>,
      span: set<nat>, me: nat, period: nat, i: nat)
    requires |was| == |mid| == |after| == |time| && me < |was| && i < |was| && i != me
    requires LentTo(was, mid, time, span, me, period, i)
    requires forall k :: 0 <= k < |was| && k != me && k != i ==> after[k] == mid[k]
    requires after[me] == Min(mid[me] + Offer(was, time, span, me, i), period)
    requires after[me] + after[i] == mid[me] + mid[i]
    ensures LentTo(was, after, time, span, me, period, i + 1)
  {
    LevelRises(was, time, span, me, period, i);
  }

  lemma LentSkips(was: seq<nat>, mid: seq<nat>, time: seq<nat>, span: set<nat>, me: nat, period: nat, i: nat)
    requires |was| == |mid| == |time| && me < |was| && i < |was| && (i !in span || i == me)
    requires LentTo(was, mid, time, span, me, period, i)
    ensures LentTo(was, mid, time, span, me, period, i + 1)
  {
    LevelRises(was, time, span, me, period, i);
  }

  class RootDomain {
    const span: set<nat>
    const rtRuntime: array<nat>
    const rtTime: array<nat>
    const period: nat

    ghost predicate Valid()
      reads this, rtRuntime, rtTime
    {
      && rtRuntime != rtTime && rtRuntime.Length == rtTime.Length && period < TWO_63 && span != {}
      && (forall i :: i in span ==> i < rtRuntime.Length)
      && (forall i :: 0 <= i < rtRuntime.Length ==> rtRuntime[i] < TWO_64 && rtTime[i] < TWO_63)
    }

    constructor (span: set<nat>, n: nat, runtime: nat, period: nat)
      requires span != {} && (forall i :: i in span ==> i < n) && period < TWO_63 && runtime < TWO_64
      ensures Valid() && this.span == span && this.period == period && fresh(rtRuntime) && fresh(rtTime)
    {
      this.span, this.period := span, period;
      rtRuntime := new nat[n](_ => runtime);
      rtTime := new nat[n](_ => 0);
    }

    /** What changes hands: the share of what is left, as far as the period allows. */
    method Lend(left: nat, runtime: nat, weight: nat) returns (diff: nat)
      requires weight > 0 && runtime <= period
      ensures diff <= left && runtime + diff == Min(runtime + left / weight, period)
    {
      Share(left, weight);
      diff := left / weight;
      if runtime + diff > period {
        diff := period - runtime;
      }
    }

    /** One CPU's turn in the loop of `balance_runtime`. */
    method Borrow(me: nat, i: nat, weight: nat) returns (lent: bool)
      requires Valid() && me < rtRuntime.Length && i < rtRuntime.Length && i != me && weight > 0
      requires rtRuntime[me] <= period
      modifies rtRuntime
      ensures lent <==> CanLend(old(rtRuntime[i]), rtTime[i])
      ensures forall k :: 0 <= k < rtRuntime.Length && k != me && k != i ==> rtRuntime[k] == old(rtRuntime[k])
      ensures rtRuntime[me] + rtRuntime[i] == old(rtRuntime[me]) + old(rtRuntime[i])
      ensures rtRuntime[me] == if lent then Min(old(rtRuntime[me]) + (old(rtRuntime[i]) - rtTime[i]) / weight, period)
                               else old(rtRuntime[me])
      ensures rtRuntime[i] <= old(rtRuntime[i])
    {
      LendsIf(rtRuntime[i], rtTime[i]);
      var diff := SignedDifference(rtRuntime[i], rtTime[i]);
      lent := false;
      if diff > 0 {
        diff := Lend(diff, rtRuntime[me], weight);
        rtRuntime[i] := rtRuntime[i] - diff;
        rtRuntime[me] := rtRuntime[me] + diff;
        lent := true;
      }
    }

    /** The loop body of `balance_runtime`. */
    method AskOne(me: nat, i: nat, ghost was: seq<nat>) returns (lent: bool)
      requires Valid() && me in span && rtRuntime[me] <= period && i < rtRuntime.Length == |was|
      requires LentTo(was, rtRuntime[..], rtTime[..], span, me, period, i)
      modifies rtRuntime
      ensures Valid() && rtRuntime[me] <= period
      ensures LentTo(was, rtRuntime[..], rtTime[..], span, me, period, i + 1)
      ensures SumIn(rtRuntime[..], span) == SumIn(old(rtRuntime[..]), span)
      ensures lent <==> i in span && i != me && CanLend(was[i], rtTime[i])
    {
      ghost var mid := rtRuntime[..];
      lent := false;
      if i in span && i != me {
        lent := Borrow(me, i, |span|);
        Transferred(mid, rtRuntime[..], span, me, i);
        LentOne(was, mid, rtRuntime[..], rtTime[..], span, me, period, i);
      } else {
        LentSkips(was, mid, rtTime[..], span, me, period, i);
      }
    }

    /** ... as the next one of the span. */
    method AskNext(me: nat, i: nat, ghost was: seq<nat>) returns (lent: bool)
      requires Valid() && me in span && rtRuntime[me] <= period && i < rtRuntime.Length == |was|
      requires LentTo(was, rtRuntime[..], rtTime[..], span, me, period, i)
      modifies rtRuntime
      ensures Valid() && rtRuntime[me] <= period
      ensures LentTo(was, rtRuntime[..], rtTime[..], span, me, period, i + 1)
      ensures SumIn(rtRuntime[..], span) == SumIn(old(rtRuntime[..]), span)
      ensures SomeLend(was, rtTime[..], span, me, i + 1) == (SomeLend(was, rtTime[..], span, me, i) || lent)
      ensures lent ==> SomeLend(was, rtTime[..], span, me, |was|)
      ensures rtRuntime[me] == period ==> LentTo(was, rtRuntime[..], rtTime[..], span, me, period, |was|)
    {
      lent := AskOne(me, i, was);
      MoreLend(was, rtTime[..], span, me, i);
      if rtRuntime[me] == period {
        FullEarly(was, rtRuntime[..], rtTime[..], span, me, period, i + 1);
      }
    }

    /** `balance_runtime`: the borrower is lifted by every share it is offered, up to the period, and the
        total over the span is conserved. */
    method BalanceRuntime(me: nat) returns (more: bool)
      requires Valid() && me in span && rtRuntime[me] <= period
      modifies rtRuntime
      ensures Valid()
      ensures SumIn(rtRuntime[..], span) == SumIn(old(rtRuntime[..]), span)
      ensures LentTo(old(rtRuntime[..]), rtRuntime[..], rtTime[..], span, me, period, rtRuntime.Length)
      ensures more == SomeLend(old(rtRuntime[..]), rtTime[..], span, me, rtRuntime.Length)
    {
      ghost var was, time := rtRuntime[..], rtTime[..];
      NoneLent(was, time, span, me, period);
      more := false;
      var i := 0;
      while i < rtRuntime.Length
        invariant 0 <= i <= rtRuntime.Length && Valid() && rtTime[..] == time && rtRuntime[me] <= period
        invariant SumIn(rtRuntime[..], span) == SumIn(was, span)
        invariant LentTo(was, rtRuntime[..], rtTime[..], span, me, period, i)
        invariant more == SomeLend(was, time, span, me, i)
      {
        var lent := AskNext(me, i, was);
        if lent {
          more := true;
          if rtRuntime[me] == period {
            return;
          }
        }
        i := i + 1;
      }
    }
  }

  lemma Share(diff: nat, weight: nat)
    requires weight > 0
    ensures diff / weight <= diff
  {
    if diff / weight > diff {
      DivMul(diff, weight);
      MulAtLeast(diff + 1, diff / weight, weight);
      MulAtLeast(1, weight, diff + 1);
    }
  }

  lemma Transferred(mid: seq<nat>, after: seq<nat>, span: set<nat>, me: nat, i: nat)
    requires |mid| == |after| && me < |mid| && i < |mid| && i != me && me in span && i in span
    requires forall k :: 0 <= k < |mid| && k != me && k != i ==> after[k] == mid[k]
    requires after[me] + after[i] == mid[me] + mid[i]
    ensures SumIn(after, span) == SumIn(mid, span)
  {
    SumUpdate(mid, span, me, after[me]);
    SumUpdate(mid[me := after[me]], span, i, after[i]);
    assert after == mid[me := after[me]][i := after[i]];
  }
}
