/** How far apart the virtual runtimes of the fair class can be (hw4/sched_fair.c).
 */
module CfsFairness {
  import opened CfsClimbs
  import opened CfsQueues
  import opened CfsTimeline
  import opened GroupTree
  import opened Options
  import opened Words

  // ----- fairness -----

  /** Nothing is queued or dequeued, `r` is a fair pick on every level, and only the entities of its path are
      charged, whatever `charge` says. */
  ghost predicate TurnOf(cf: Config, s: State, r: Node, s': State, charge: Node -> nat)
    requires WellTyped(cf.t, s)
  {
    && WellTyped(cf.t, s') && cf.t.IsTask(r) && s'.onRq == s.onRq && s'.weight == s.weight && s.clock <= s'.clock
    && (forall a {:trigger FairPick(cf, s, cf.t.parent(a), a)} :: a in Path(cf.t, r) ==>
          FairPick(cf, s, cf.t.parent(a), a))
    && (forall x {:trigger s'.vruntime[x]} :: cf.t.IsEntity(x) ==>
          s'.vruntime[x] == s.vruntime[x] + if x in Path(cf.t, r) then charge(x) else 0)
  }

  function ClockAfter(clock: nat, times: seq<nat>): nat {
    if times == [] then clock else times[|times| - 1]
  }

  ghost predicate Rising(clock: nat, times: seq<nat>) {
    times == [] || (ClockAfter(clock, times[..|times| - 1]) <= times[|times| - 1]
                    && Rising(clock, times[..|times| - 1]))
  }

  /** The charge of an entity of this weight that is updated at these times: a portion at each. */
  function Portions(cf: Config, clock: nat, times: seq<nat>, weight: nat): nat {
    if times == [] then 0
    else
      var front, now := times[..|times| - 1], times[|times| - 1];
      var since := ClockAfter(clock, front);
      Portions(cf, clock, front, weight) + Weighted(cf, if now >= since then now - since else 0, weight)
  }

  /** Each time is no earlier than the one before. */
  lemma {:induction false} RisingAt(clock: nat, times: seq<nat>, k: nat)
    requires Rising(clock, times) && k < |times|
    ensures ClockAfter(clock, times[..k]) <= times[k]
  {
    var front := times[..|times| - 1];
    if k < |front| {
      RisingAt(clock, front, k);
      assert front[..k] == times[..k];
    } else {
      assert times[..k] == front;
    }
  }

  lemma NextTick(clock: nat, times: seq<nat>, k: nat, done: seq<nat>)
    requires Rising(clock, times) && k < |times| && done == times[..k]
    ensures ClockAfter(clock, done) <= times[k] && done + [times[k]] == times[..k + 1]
  {
    RisingAt(clock, times, k);
  }

  function PortionsOf(cf: Config, s: State, times: seq<nat>): Node -> nat {
    (x: Node) => Portions(cf, s.clock, times, if x in s.weight then s.weight[x] else 0)
  }

  /** The virtual runtime of `x` while `r` runs and was updated at these times. */
  ghost function RunTime(cf: Config, s: State, r: Node, times: seq<nat>, x: Node): int
    requires WellTyped(cf.t, s) && cf.t.IsTask(r) && cf.t.IsEntity(x)
  {
    s.vruntime[x] + if x in Path(cf.t, r) then Portions(cf, s.clock, times, s.weight[x]) else 0
  }

  /** `r` runs since `s` and was updated at these times. */
  ghost predicate Running(cf: Config, s: State, r: Node, times: seq<nat>, m: State)
    requires WellTyped(cf.t, s)
  {
    && WellTyped(cf.t, m) && cf.t.IsTask(r) && Path(cf.t, r) <= s.onRq
    && m.onRq == s.onRq && m.weight == s.weight && m.clock == ClockAfter(s.clock, times) && s.clock <= m.clock
    && (forall x {:trigger m.vruntime[x]} :: cf.t.IsEntity(x) ==> m.vruntime[x] == RunTime(cf, s, r, times, x))
    && (forall x {:trigger m.execStart[x]} :: x in Path(cf.t, r) ==> m.execStart[x] == m.clock)
  }

  ghost predicate FairPath(cf: Config, s: State, r: Node)
    requires WellTyped(cf.t, s) && cf.t.IsTask(r)
  {
    forall a {:trigger FairPick(cf, s, cf.t.parent(a), a)} :: a in Path(cf.t, r) ==> FairPick(cf, s, cf.t.parent(a), a)
  }

  lemma RunningStarts(cf: Config, s: State, r: Node, picked: State)
    requires WellTyped(cf.t, s) && cf.t.IsTask(r) && Picking(cf, s, r, picked)
    ensures Running(cf, s, r, [], picked) && FairPath(cf, s, r)
  {
    assert Above(cf.t, r) == Path(cf.t, r);
    forall a | a in Path(cf.t, r)
      ensures a in s.onRq
    {
      assert FairPick(cf, s, cf.t.parent(a), a);
    }
  }

  /** One portion more. */
  lemma PortionAdded(cf: Config, clock: nat, times: seq<nat>, now: nat, weight: nat)
    requires now >= ClockAfter(clock, times)
    ensures Portions(cf, clock, times + [now], weight)
         == Portions(cf, clock, times, weight) + Weighted(cf, now - ClockAfter(clock, times), weight)
  {
    assert (times + [now])[..|times|] == times;
  }

  lemma RunningTicks(cf: Config, s: State, r: Node, times: seq<nat>, m: State, now: nat, m': State)
    requires WellTyped(cf.t, s) && Running(cf, s, r, times, m) && now >= m.clock
    requires WellTyped(cf.t, m.(clock := now)) && Ticking(cf, m.(clock := now), r, cf.t.root, m')
    ensures Running(cf, s, r, times + [now], m')
  {
    TickedTimes(cf, s, r, times, m, now, m');
  }

  lemma TickedTimes(cf: Config, s: State, r: Node, times: seq<nat>, m: State, now: nat, m': State)
    requires WellTyped(cf.t, s) && Running(cf, s, r, times, m) && now >= m.clock && WellTyped(cf.t, m')
    requires WellTyped(cf.t, m.(clock := now)) && Ticking(cf, m.(clock := now), r, cf.t.root, m')
    ensures forall x {:trigger m'.vruntime[x]} :: cf.t.IsEntity(x) ==>
              m'.vruntime[x] == RunTime(cf, s, r, times + [now], x)
    ensures forall x {:trigger m'.execStart[x]} :: x in Path(cf.t, r) ==> m'.execStart[x] == now
  {
    forall x | cf.t.IsEntity(x)
      ensures m'.vruntime[x] == RunTime(cf, s, r, times + [now], x)
      ensures x in Path(cf.t, r) ==> m'.execStart[x] == now
    {
      TickedTime(cf, s, r, times, m, now, m', x);
    }
  }

  lemma TickedTime(cf: Config, s: State, r: Node, times: seq<nat>, m: State, now: nat, m': State, x: Node)
    requires WellTyped(cf.t, s) && WellTyped(cf.t, m) && WellTyped(cf.t, m') && WellTyped(cf.t, m.(clock := now))
    requires cf.t.IsTask(r) && cf.t.IsEntity(x) && now >= m.clock
    requires m.weight == s.weight && m.clock == ClockAfter(s.clock, times)
    requires m.vruntime[x] == RunTime(cf, s, r, times, x) && (x in Path(cf.t, r) ==> m.execStart[x] == m.clock)
    requires m'.vruntime[x] == TickTime(cf, m.(clock := now), r, cf.t.root, x)
    requires m'.execStart[x] == TickStart(cf, m.(clock := now), r, cf.t.root, x)
    ensures m'.vruntime[x] == RunTime(cf, s, r, times + [now], x)
    ensures x in Path(cf.t, r) ==> m'.execStart[x] == now
  {
    TimeAdded(cf, s, r, times, m, now, x);
  }

  lemma PutBackTime(cf: Config, s: State, r: Node, times: seq<nat>, m: State, now: nat, s': State, x: Node)
    requires WellTyped(cf.t, s) && WellTyped(cf.t, m) && WellTyped(cf.t, s') && WellTyped(cf.t, m.(clock := now))
    requires cf.t.IsTask(r) && cf.t.IsEntity(x) && now >= m.clock && (x in Path(cf.t, r) ==> x in m.onRq)
    requires m.weight == s.weight && m.clock == ClockAfter(s.clock, times)
    requires m.vruntime[x] == RunTime(cf, s, r, times, x) && (x in Path(cf.t, r) ==> m.execStart[x] == m.clock)
    requires s'.vruntime[x] == PutTime(cf, m.(clock := now), r, cf.t.root, x)
    ensures s'.vruntime[x] == RunTime(cf, s, r, times + [now], x)
  {
    TimeAdded(cf, s, r, times, m, now, x);
  }

  /** A portion more for the entities of the path. */
  lemma TimeAdded(cf: Config, s: State, r: Node, times: seq<nat>, m: State, now: nat, x: Node)
    requires WellTyped(cf.t, s) && WellTyped(cf.t, m) && cf.t.IsTask(r) && cf.t.IsEntity(x) && now >= m.clock
    requires m.weight == s.weight && m.clock == ClockAfter(s.clock, times)
    requires m.vruntime[x] == RunTime(cf, s, r, times, x)
    ensures RunTime(cf, s, r, times + [now], x)
         == m.vruntime[x] + if x in Path(cf.t, r) then Weighted(cf, now - m.clock, m.weight[x]) else 0
  {
    PortionAdded(cf, s.clock, times, now, s.weight[x]);
  }

  lemma TurnEnds(cf: Config, s: State, r: Node, s': State, times: seq<nat>)
    requires WellTyped(cf.t, s) && WellTyped(cf.t, s') && cf.t.IsTask(r) && FairPath(cf, s, r)
    requires s'.onRq == s.onRq && s'.weight == s.weight && s.clock <= s'.clock
    requires forall x {:trigger s'.vruntime[x]} :: cf.t.IsEntity(x) ==> s'.vruntime[x] == RunTime(cf, s, r, times, x)
    ensures TurnOf(cf, s, r, s', PortionsOf(cf, s, times))
  {
  }

  lemma RunningEnds(cf: Config, s: State, r: Node, times: seq<nat>, m: State, now: nat, s': State)
    requires WellTyped(cf.t, s) && Running(cf, s, r, times, m) && FairPath(cf, s, r) && now >= m.clock
    requires WellTyped(cf.t, m.(clock := now)) && Putting(cf, m.(clock := now), r, cf.t.root, s')
    ensures TurnOf(cf, s, r, s', PortionsOf(cf, s, times + [now]))
  {
    forall x | cf.t.IsEntity(x)
      ensures s'.vruntime[x] == RunTime(cf, s, r, times + [now], x)
    {
      PutBackTime(cf, s, r, times, m, now, s', x);
    }
    TurnEnds(cf, s, r, s', times + [now]);
  }

  /** The on_rq entities of `g` lie within `spread` of each other. */
  ghost predicate SpreadWithin(t: Topology, s: State, g: Node, spread: int)
    requires WellTyped(t, s)
  {
    forall a, b {:trigger Child(t, g, a), Child(t, g, b)} ::
      Child(t, g, a) && a in s.onRq && Child(t, g, b) && b in s.onRq ==> s.vruntime[a] - s.vruntime[b] <= spread
  }

  /** A dispatch charges nobody more than `slice` in all, and no wake-up granularity exceeds `gran`. */
  ghost predicate Bounded(cf: Config, s: State, charge: Node -> nat, gran: nat, slice: nat)
    requires WellTyped(cf.t, s)
  {
    forall x {:trigger s.weight[x]} :: cf.t.IsEntity(x) ==>
      WakeupGran(cf, s.weight[x]) <= gran && charge(x) <= slice
  }

  /** One turn keeps the spread of every `cfs_rq` below any bound of at least `gran + slice`. */
  lemma TurnKeepsSpread(cf: Config, s: State, r: Node, s': State, charge: Node -> nat, g: Node, gran: nat, slice: nat,
                        spread: int)
    requires WellTyped(cf.t, s) && TurnOf(cf, s, r, s', charge) && g in cf.t.groups
    requires Bounded(cf, s, charge, gran, slice)
    requires SpreadWithin(cf.t, s, g, spread) && gran + slice <= spread
    ensures SpreadWithin(cf.t, s', g, spread)
  {
    forall a, b | Child(cf.t, g, a) && a in s.onRq && Child(cf.t, g, b) && b in s.onRq
      ensures s'.vruntime[a] - s'.vruntime[b] <= spread
    {
      assert s.vruntime[a] - s.vruntime[b] <= spread;
      assert s.vruntime[b] <= s'.vruntime[b];
      if a in Path(cf.t, r) && a != b {
        assert FairPick(cf, s, cf.t.parent(a), a);
        assert s.vruntime[a] <= s.vruntime[b] + WakeupGran(cf, s.weight[a]);
        assert s.weight[a] > 0;
      }
    }
  }

  /** A dispatch: who is picked, and what it charges the entities of its path in all. */
  datatype Dispatch = Dispatch(pick: Node, charge: Node -> nat)

  ghost predicate TurnAt(cf: Config, run: seq<State>, turns: seq<Dispatch>, gran: nat, slice: nat, i: nat) {
    && i + 1 < |run| && i < |turns|
    && WellTyped(cf.t, run[i]) && TurnOf(cf, run[i], turns[i].pick, run[i + 1], turns[i].charge)
    && Bounded(cf, run[i], turns[i].charge, gran, slice)
  }

  /** Fixed membership: every step of the run is a turn. */
  ghost predicate Turns(cf: Config, run: seq<State>, turns: seq<Dispatch>, gran: nat, slice: nat) {
    && |run| == |turns| + 1 && WellTyped(cf.t, run[0])
    && forall i: nat {:trigger TurnAt(cf, run, turns, gran, slice, i)} :: i < |turns| ==>
         TurnAt(cf, run, turns, gran, slice, i)
  }

  lemma SpreadWeaken(t: Topology, s: State, g: Node, spread: int, spread': int)
    requires WellTyped(t, s) && SpreadWithin(t, s, g, spread) && spread <= spread'
    ensures SpreadWithin(t, s, g, spread')
  {
  }

  lemma SpreadNext(cf: Config, run: seq<State>, turns: seq<Dispatch>,
      gran: nat, slice: nat, g: Node, spread: int, i: nat)
    requires TurnAt(cf, run, turns, gran, slice, i) && g in cf.t.groups && gran + slice <= spread
    requires SpreadWithin(cf.t, run[i], g, spread)
    ensures WellTyped(cf.t, run[i + 1]) && SpreadWithin(cf.t, run[i + 1], g, spread)
  {
    TurnKeepsSpread(cf, run[i], turns[i].pick, run[i + 1], turns[i].charge, g, gran, slice, spread);
  }

  /** Over any number of dispatches of at most `slice` weighted time, however it is charged, the spread of a
      `cfs_rq` never exceeds max(initial spread, gran + slice). */
  lemma {:induction false} SpreadOverRuns(cf: Config, run: seq<State>, turns: seq<Dispatch>, gran: nat, slice: nat,
                                          g: Node, initial: int, i: nat)
    requires Turns(cf, run, turns, gran, slice) && i < |run| && g in cf.t.groups
    requires SpreadWithin(cf.t, run[0], g, initial)
    ensures WellTyped(cf.t, run[i]) && SpreadWithin(cf.t, run[i], g, Max(initial, gran + slice))
  {
    if i > 0 {
      SpreadOverRuns(cf, run, turns, gran, slice, g, initial, i - 1);
      assert TurnAt(cf, run, turns, gran, slice, i - 1);
      SpreadNext(cf, run, turns, gran, slice, g, Max(initial, gran + slice), i - 1);
    } else {
      SpreadWeaken(cf.t, run[0], g, initial, Max(initial, gran + slice));
    }
  }
}
