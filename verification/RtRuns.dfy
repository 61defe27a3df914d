/** Runs of charges and period timers over a hierarchy of groups (hw4/sched_rt.c): the laws of the flat
    bandwidth limiter hold for every group.
 */
module RtRuns {
  import opened GroupTree
  import opened RtCharges
  import opened RtLimits
  import opened RtQueues
  import opened Words
  import Flat = RtBandwidth

  function BudgetOf(q: RtRq): Flat.Budget {
    Flat.Budget(q.rtTime, q.throttled)
  }

  /** A task runs for a while, or the period timer of a group finds that some periods have elapsed. */
  datatype Event = Ran(p: Node, delta: nat) | Timer(n: Node, overrun: nat)

  /** What `update_curr_rt` and the period timer promise of the budgets; anything else moves entities only. */
  ghost predicate Step(t: Topology, s: State, e: Event, period: Node -> nat, s': State) {
    && WellTyped(t, s) && WellTyped(t, s')
    && match e
       case Ran(p, delta) => t.IsTask(p) && Charging(t, s, ChargedAbove(t, p), delta, period, s')
       case Timer(n, overrun) => n in t.groups && TimerRan(t, s, n, overrun, s')
  }

  /** Whether the event concerns group `g`, and as what. */
  ghost function SeenBy(t: Topology, e: Event, g: Node): seq<Flat.Event>
    requires t.Valid()
  {
    match e
    case Ran(p, delta) => if t.IsTask(p) && g in ChargedAbove(t, p) then [Flat.Ran(delta)] else []
    case Timer(n, overrun) => if n == g then [Flat.Elapsed(overrun)] else []
  }

  ghost function AllSeen(t: Topology, events: seq<Event>, g: Node): seq<Flat.Event>
    requires t.Valid()
  {
    if events == [] then [] else AllSeen(t, events[..|events| - 1], g) + SeenBy(t, events[|events| - 1], g)
  }

  /** The group has a limited runtime, below its period. */
  ghost predicate Limited(t: Topology, s: State, period: Node -> nat, g: Node)
    requires WellTyped(t, s)
  {
    g in t.groups && s.rq[g].rtRuntime != RUNTIME_INF && s.rq[g].rtRuntime < period(g)
  }

  ghost predicate StepAt(t: Topology, run: seq<State>, events: seq<Event>, period: Node -> nat, i: nat)
    requires i < |events| && |run| == |events| + 1
  {
    Step(t, run[i], events[i], period, run[i + 1])
  }

  ghost predicate Run(t: Topology, run: seq<State>, events: seq<Event>, period: Node -> nat) {
    && |run| == |events| + 1 && WellTyped(t, run[0])
    && forall i {:trigger StepAt(t, run, events, period, i)} :: 0 <= i < |events| ==>
         StepAt(t, run, events, period, i)
  }

  lemma AfterOne(b: Flat.Budget, runtime: nat, e: Flat.Event)
    ensures Flat.After(b, runtime, [e]) ==
              if e.Ran? then Flat.Charged(b, runtime, e.delta) else Flat.Drained(b, runtime, e.overrun)
  {
    assert [e][..0] == [];
    assert Flat.After(b, runtime, [e][..0]) == b;
  }

  lemma DrainedMeans(b: Flat.Budget, runtime: nat, overrun: nat)
    ensures var d := Flat.Drained(b, runtime, overrun);
            && d.time == b.time - Min(b.time, overrun * runtime)
            && (d.throttled <==> b.throttled && (b.time == 0 || b.time >= (overrun + 1) * runtime))
  {
    assert (overrun + 1) * runtime == overrun * runtime + runtime;
    assert overrun * runtime >= 0;
  }

  /** One step does to the budget of a group what the flat limiter does. */
  lemma StepIsFlat(t: Topology, s: State, e: Event, period: Node -> nat, s': State, g: Node)
    requires Step(t, s, e, period, s') && Limited(t, s, period, g)
    ensures Limited(t, s', period, g) && s'.rq[g].rtRuntime == s.rq[g].rtRuntime
    ensures BudgetOf(s'.rq[g]) == Flat.After(BudgetOf(s.rq[g]), s.rq[g].rtRuntime, SeenBy(t, e, g))
  {
    var b, seen, runtime := BudgetOf(s.rq[g]), SeenBy(t, e, g), s.rq[g].rtRuntime;
    if seen != [] {
      AfterOne(b, runtime, seen[0]);
      assert seen == [seen[0]];
      if e.Timer? {
        DrainedMeans(b, runtime, e.overrun);
      }
    }
  }

  lemma {:induction false} AfterBoth(b: Flat.Budget, runtime: nat, a: seq<Flat.Event>, c: seq<Flat.Event>)
    ensures Flat.After(b, runtime, a + c) == Flat.After(Flat.After(b, runtime, a), runtime, c)
  {
    if c == [] {
      assert a + c == a;
    } else {
      var n := |c| - 1;
      assert (a + c)[..|a + c| - 1] == a + c[..n];
      AfterBoth(b, runtime, a, c[..n]);
    }
  }

  /** Over any run, the budget of every group is that of the flat limiter for the events it sees. */
  lemma {:induction false} RunIsFlat(t: Topology, run: seq<State>, events: seq<Event>, period: Node -> nat, g: Node)
    requires Run(t, run, events, period) && Limited(t, run[0], period, g)
    ensures var q, q' := run[0].rq[g], run[|events|];
            && WellTyped(t, q') && Limited(t, q', period, g) && q'.rq[g].rtRuntime == q.rtRuntime
            && BudgetOf(q'.rq[g]) == Flat.After(BudgetOf(q), q.rtRuntime, AllSeen(t, events, g))
  {
    if events != [] {
      var n := |events| - 1;
      RunPrefix(t, run, events, period);
      RunIsFlat(t, run[..n + 1], events[..n], period, g);
      assert StepAt(t, run, events, period, n);
      StepIsFlat(t, run[n], events[n], period, run[n + 1], g);
      AfterBoth(BudgetOf(run[0].rq[g]), run[0].rq[g].rtRuntime, AllSeen(t, events[..n], g), SeenBy(t, events[n], g));
    }
  }

  lemma RunPrefix(t: Topology, run: seq<State>, events: seq<Event>, period: Node -> nat)
    requires Run(t, run, events, period) && events != []
    ensures Run(t, run[..|events|], events[..|events| - 1], period)
  {
    var run', events' := run[..|events|], events[..|events| - 1];
    forall i | 0 <= i < |events'|
      ensures StepAt(t, run', events', period, i)
    {
      assert StepAt(t, run, events, period, i);
    }
  }

  /** Tasks below `g` run in chunks of at most `chunk`, and never while `g` is throttled. */
  ghost predicate Obeying(t: Topology, run: seq<State>, events: seq<Event>, g: Node, chunk: nat)
    requires t.Valid() && |run| == |events| + 1
  {
    forall i {:trigger events[i]} :: 0 <= i < |events| && SeenBy(t, events[i], g) != [] && events[i].Ran? ==>
      events[i].delta <= chunk && g in run[i].rq && !run[i].rq[g].throttled
  }

  lemma {:induction false} ObeysFlat(t: Topology, run: seq<State>, events: seq<Event>, period: Node -> nat, g: Node,
                                     chunk: nat)
    requires Run(t, run, events, period) && Limited(t, run[0], period, g) && Obeying(t, run, events, g, chunk)
    ensures Flat.Obeys(BudgetOf(run[0].rq[g]), run[0].rq[g].rtRuntime, chunk, AllSeen(t, events, g))
  {
    if events != [] {
      var n := |events| - 1;
      var b, runtime := BudgetOf(run[0].rq[g]), run[0].rq[g].rtRuntime;
      var front, seen := AllSeen(t, events[..n], g), AllSeen(t, events, g);
      RunPrefix(t, run, events, period);
      assert Obeying(t, run[..n + 1], events[..n], g, chunk) by {
        assert forall i :: 0 <= i < n ==> events[..n][i] == events[i] && run[..n + 1][i] == run[i];
      }
      ObeysFlat(t, run[..n + 1], events[..n], period, g, chunk);
      RunIsFlat(t, run[..n + 1], events[..n], period, g);
      forall i | 0 <= i < |seen| && seen[i].Ran?
        ensures seen[i].delta <= chunk && !Flat.After(b, runtime, seen[..i]).throttled
      {
        if i < |front| {
          assert seen[i] == front[i] && seen[..i] == front[..i];
        } else {
          assert seen[..i] == front;
          assert events[n].Ran?;
        }
      }
    }
  }

  /** Below every group of the hierarchy, real-time tasks use at most (K + 1) * runtime + D over K elapsed
      periods of the group, if they run in chunks of at most D and not while the group is throttled. */
  lemma GroupBandwidthBound(t: Topology, run: seq<State>, events: seq<Event>, period: Node -> nat, g: Node,
                            chunk: nat)
    requires Run(t, run, events, period) && Limited(t, run[0], period, g) && Obeying(t, run, events, g, chunk)
    requires BudgetOf(run[0].rq[g]) == Flat.Budget(0, false)
    ensures var seen, runtime := AllSeen(t, events, g), run[0].rq[g].rtRuntime;
            Flat.Bounded(runtime, chunk, seen)
  {
    var seen, runtime := AllSeen(t, events, g), run[0].rq[g].rtRuntime;
    assert Flat.Obeys(Flat.Budget(0, false), runtime, chunk, seen) by {
      ObeysFlat(t, run, events, period, g, chunk);
    }
    Flat.BandwidthBound(runtime, chunk, seen);
  }

  // ----- the timer alone -----

  function Sum(overruns: seq<nat>): nat {
    if overruns == [] then 0 else Sum(overruns[..|overruns| - 1]) + overruns[|overruns| - 1]
  }

  /** A throttled group after some runs of its timer. */
  function RefreshedAll(q: RtRq, overruns: seq<nat>): RtRq {
    if overruns == [] then q
    else Refreshed(RefreshedAll(q, overruns[..|overruns| - 1]), overruns[|overruns| - 1])
  }

  /** One run more, after runs that gave back `given`. */
  lemma OneMoreRun(q: RtRq, m: RtRq, given: nat, overrun: nat)
    requires q.throttled && q.rtTime > 0 && m.rtRuntime == q.rtRuntime && (q.rtRuntime == 0 ==> given == 0)
    requires m.rtTime == q.rtTime - Min(q.rtTime, given)
    requires m == q || (m.throttled <==> q.rtTime >= given + q.rtRuntime)
    requires m == q ==> given == 0
    ensures var r, all := Refreshed(m, overrun), given + overrun * q.rtRuntime;
            && all >= 0 && r.rtRuntime == q.rtRuntime && r.rtTime == q.rtTime - Min(q.rtTime, all)
            && (r.throttled <==> q.rtTime >= all + q.rtRuntime)
  {
    RefreshedMeans(m, overrun);
    var back := overrun * q.rtRuntime;
    assert (overrun + 1) * m.rtRuntime == back + q.rtRuntime;
    assert back >= 0 && (q.rtRuntime == 0 ==> back == 0);
  }

  lemma GivenBack(a: nat, b: nat, runtime: nat)
    ensures (a + b) * runtime == a * runtime + b * runtime && a * runtime >= 0
    ensures runtime == 0 ==> a * runtime == 0
  {
  }

  /** However the elapsed periods are spread over the runs of the timer, a throttled group is released exactly
      when they leave less than one runtime of what it consumed. */
  lemma {:induction false} ReleasedExactly(q: RtRq, overruns: seq<nat>)
    requires q.throttled && q.rtTime > 0 && overruns != []
    ensures var r, given := RefreshedAll(q, overruns), Sum(overruns) * q.rtRuntime;
            && r.rtTime == q.rtTime - Min(q.rtTime, given) && r.rtRuntime == q.rtRuntime
            && (r.throttled <==> q.rtTime >= given + q.rtRuntime)
  {
    var n := |overruns| - 1;
    var front, last := overruns[..n], overruns[n];
    var m := RefreshedAll(q, front);
    if front != [] {
      ReleasedExactly(q, front);
    }
    GivenBack(Sum(front), last, q.rtRuntime);
    OneMoreRun(q, m, Sum(front) * q.rtRuntime, last);
  }
}
