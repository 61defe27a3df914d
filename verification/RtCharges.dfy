/** Consumed time, budgets and throttling of the groups (hw4/sched_rt.c).
 */
module RtCharges {
  import opened GroupTree
  import opened RtLimits
  import opened RtQueues
  import opened RtStacks
  import opened Words

  /** The `rt_rq` of `n` with another throttling flag and consumed time. */
  function Charged(s: State, n: Node, throttled: bool, rtTime: nat): State
    requires n in s.rq
  {
    Put(s, n, s.rq[n].(throttled := throttled, rtTime := rtTime))
  }

  /** ... and after `delta` more consumed time. */
  function Timed(s: State, n: Node, delta: nat): State
    requires n in s.rq
  {
    Put(s, n, s.rq[n].(rtTime := s.rq[n].rtTime + delta))
  }

  /** No task was queued or unqueued, and no priority changed. */
  ghost predicate TasksKept(t: Topology, s: State, s': State)
    requires WellTyped(t, s) && WellTyped(t, s')
  {
    && s'.prio == s.prio && s'.normalPrio == s.normalPrio
    && forall x :: t.IsTask(x) ==> (Linked(t, s', x) <==> Linked(t, s, x))
  }

  /** Exactly the `rt_rq`s of `charged` consumed `delta` more; no budget changed. */
  ghost predicate ChargedTo(t: Topology, s: State, charged: set<Node>, delta: nat, s': State)
    requires WellTyped(t, s) && WellTyped(t, s')
  {
    forall g {:trigger s'.rq[g]} :: g in t.groups ==>
      && s'.rq[g].rtRuntime == s.rq[g].rtRuntime
      && s'.rq[g].rtTime == s.rq[g].rtTime + if g in charged then delta else 0
  }

  /** The budget test of `sched_rt_runtime_exceeded`, for a group that is not throttled yet. */
  predicate OverBudget(q: RtRq, period: nat) {
    q.rtRuntime != RUNTIME_INF && q.rtRuntime < period && q.rtTime > q.rtRuntime
  }

  /** Of the `charged` groups those that then overran the runtime of their own period became throttled, and
      nobody else. */
  ghost predicate ThrottledIfOver(t: Topology, s: State, charged: set<Node>, delta: nat, period: Node -> nat,
                                  s': State)
    requires WellTyped(t, s) && WellTyped(t, s')
  {
    forall g {:trigger s'.rq[g]} :: g in t.groups ==>
      (s'.rq[g].throttled <==>
         s.rq[g].throttled
         || (g in charged && OverBudget(s.rq[g].(rtTime := s.rq[g].rtTime + delta), period(g))))
  }

  /** The `rt_rq`s of `done` are charged, and throttled if they overran. */
  ghost predicate Charging(t: Topology, s: State, done: set<Node>, delta: nat, period: Node -> nat, s': State) {
    && WellTyped(t, s) && WellTyped(t, s') && TasksKept(t, s, s')
    && ChargedTo(t, s, done, delta, s') && ThrottledIfOver(t, s, done, delta, period, s')
  }

  lemma NothingCharged(t: Topology, s: State, delta: nat, period: Node -> nat)
    requires WellTyped(t, s)
    ensures Charging(t, s, {}, delta, period, s)
  {
  }

  lemma OneMoreCharged(t: Topology, s: State, done: set<Node>, m: State, n: Node, delta: nat, period: Node -> nat,
                       s': State)
    requires Charging(t, s, done, delta, period, m) && Charging(t, m, {n}, delta, period, s') && n !in done
    ensures Charging(t, s, done + {n}, delta, period, s')
  {
    forall g | g in t.groups
      ensures s'.rq[g].rtTime == s.rq[g].rtTime + if g in done + {n} then delta else 0
      ensures s'.rq[g].rtRuntime == s.rq[g].rtRuntime
      ensures s'.rq[g].throttled <==>
                s.rq[g].throttled
                || (g in done + {n} && OverBudget(s.rq[g].(rtTime := s.rq[g].rtTime + delta), period(g)))
    {
      assert m.rq[g].rtRuntime == s.rq[g].rtRuntime;
    }
  }

  /** The nodes whose `rt_rq` is charged when `e` runs. */
  ghost function ChargedAbove(t: Topology, e: Node): (above: set<Node>)
    requires t.Valid() && t.IsEntity(e)
    ensures forall g :: g in above ==> t.depth(g) < t.depth(e)
    decreases t.depth(e)
  {
    if t.parent(e) == t.root then {t.root}
    else
      assert t.IsEntity(t.parent(e));
      {t.parent(e)} + ChargedAbove(t, t.parent(e))
  }

  /** That is the root and every group above it. */
  lemma {:induction false} ChargedAboveIs(t: Topology, e: Node)
    requires t.Valid() && t.IsEntity(e)
    ensures ChargedAbove(t, e) == (Path(t, e) - {e}) + {t.root}
    decreases t.depth(e)
  {
    AboveStep(t, e);
    if t.parent(e) != t.root {
      ChargedAboveIs(t, t.parent(e));
      assert Path(t, e) - {e} == Path(t, t.parent(e));
    } else {
      assert Path(t, e) == {e};
    }
  }

  /** What the loop of `update_curr_rt` at `cur` still has to charge. */
  ghost function ToCharge(t: Topology, cur: Node): set<Node>
    requires t.Valid() && (cur == t.root || t.IsEntity(cur))
  {
    if cur == t.root then {} else ChargedAbove(t, cur)
  }

  lemma NextToCharge(t: Topology, cur: Node)
    requires t.Valid() && t.IsEntity(cur)
    ensures var n := t.parent(cur);
            && (n == t.root || (t.IsEntity(n) && t.depth(n) < t.depth(cur)))
            && ToCharge(t, cur) == {n} + ToCharge(t, n) && n !in ToCharge(t, n)
  {
  }

  lemma FlagKeepsTasks(t: Topology, s: State, n: Node, m: State)
    requires WellTyped(t, s) && n in t.groups && m == Charged(s, n, true, s.rq[n].rtTime)
    ensures WellTyped(t, m) && TasksKept(t, s, m) && ChargedTo(t, s, {}, 0, m)
    ensures forall g :: g in t.groups && g != n ==> m.rq[g].throttled == s.rq[g].throttled
  {
  }

  /** Throttling moves no task, charges nothing, and touches the flag of `n` only. */
  lemma ThrottledKeeps(t: Topology, s: State, n: Node, s': State)
    requires WellTyped(t, s) && WellTyped(t, s') && n in t.groups
    requires var m := Charged(s, n, true, s.rq[n].rtTime);
             if n != t.root && t.IsEntity(n) && Linked(t, m, n) && m.rq[n].Throttled()
             then Restacked(t, m, Path(t, n), Path(t, n), s')
             else s' == m
    ensures TasksKept(t, s, s') && ChargedTo(t, s, {}, 0, s')
    ensures s'.rq[n] == s.rq[n].(throttled := true)
    ensures forall g :: g in t.groups && g != n ==> s'.rq[g].throttled == s.rq[g].throttled
  {
    var m := Charged(s, n, true, s.rq[n].rtTime);
    FlagKeepsTasks(t, s, n, m);
    if s' != m {
      GroupMoveKeepsTasks(t, m, n, s');
    }
  }

  /** Moving entities between lists changes no budget. */
  lemma BudgetsKept(t: Topology, s: State, path: set<Node>, s': State)
    requires WellTyped(t, s) && WellTyped(t, s') && (forall c :: c in path ==> t.IsEntity(c))
    requires Restacked(t, s, path, path, s')
    ensures forall g :: g in t.groups ==> SameBudget(s.rq[g], s'.rq[g])
  {
    forall g | g in t.groups
      ensures SameBudget(s.rq[g], s'.rq[g])
    {
      if c :| c in path && t.parent(c) == g {
        assert Relinked(s.rq[g], c, true, s'.rq[g]);
      } else {
        assert s'.rq[g] == s.rq[g];
      }
    }
  }

  /** Moving a group and its ancestors moves no task. */
  lemma GroupMoveKeepsTasks(t: Topology, s: State, n: Node, s': State)
    requires WellTyped(t, s) && WellTyped(t, s') && n in t.groups && t.IsEntity(n)
    requires Restacked(t, s, Path(t, n), Path(t, n), s')
    ensures TasksKept(t, s, s') && s'.rq[n] == s.rq[n]
    ensures forall g :: g in t.groups ==> SameBudget(s.rq[g], s'.rq[g])
  {
    forall x | t.IsTask(x)
      ensures Linked(t, s', x) <==> Linked(t, s, x)
    {
      UnlinkedElsewhere(t, s, Path(t, n), Path(t, n), s', x);
    }
    BudgetsKept(t, s, Path(t, n), s');
    forall c | c in Path(t, n)
      ensures t.parent(c) != n
    {
      assert t.depth(c) <= t.depth(n);
    }
  }

  /** What one run of the period timer leaves of the consumed time and of the throttling flag. */
  function Refreshed(q: RtRq, overrun: nat): RtRq {
    if q.rtTime == 0 then q
    else
      var left := if q.rtTime <= overrun * q.rtRuntime then 0 else q.rtTime - overrun * q.rtRuntime;
      q.(rtTime := left, throttled := q.throttled && left >= q.rtRuntime)
  }

  /** A run gives back the elapsed runtimes, up to what was consumed, and releases a throttled group that
      consumed something exactly when less than one runtime is left. */
  lemma RefreshedMeans(q: RtRq, overrun: nat)
    ensures var r := Refreshed(q, overrun);
            && r.rtTime == q.rtTime - Min(q.rtTime, overrun * q.rtRuntime)
            && (r.throttled <==> q.throttled && (q.rtTime == 0 || q.rtTime >= (overrun + 1) * q.rtRuntime))
            && r == q.(rtTime := r.rtTime, throttled := r.throttled)
  {
    assert (overrun + 1) * q.rtRuntime == overrun * q.rtRuntime + q.rtRuntime;
    assert overrun * q.rtRuntime >= 0;
  }

  /** The period timer of `n` has run: nobody else's budget changed, and no task moved. */
  ghost predicate TimerRan(t: Topology, s: State, n: Node, overrun: nat, s': State)
    requires WellTyped(t, s) && WellTyped(t, s') && n in t.groups
  {
    var q, q' := s.rq[n], s'.rq[n];
    && q'.rtTime == q.rtTime - Min(q.rtTime, overrun * q.rtRuntime) && q'.rtRuntime == q.rtRuntime
    && (q'.throttled <==> q.throttled && (q.rtTime == 0 || q.rtTime >= (overrun + 1) * q.rtRuntime))
    && TasksKept(t, s, s')
    && forall g :: g in t.groups && g != n ==> SameBudget(s.rq[g], s'.rq[g])
  }

  lemma RefreshedPut(t: Topology, s: State, n: Node, overrun: nat)
    requires WellTyped(t, s) && n in t.groups
    ensures var q := Refreshed(s.rq[n], overrun);
            var m := Charged(s, n, q.throttled, q.rtTime);
            WellTyped(t, m) && TimerRan(t, s, n, overrun, m) && m.rq[n].nrRunning == s.rq[n].nrRunning
  {
    RefreshedMeans(s.rq[n], overrun);
  }

  lemma RefreshedRuns(t: Topology, s: State, n: Node, overrun: nat, s': State)
    requires WellTyped(t, s) && WellTyped(t, s') && n in t.groups
    requires var q := Refreshed(s.rq[n], overrun);
             var m := Charged(s, n, q.throttled, q.rtTime);
             s' == m || (t.IsEntity(n) && Restacked(t, m, Path(t, n), Path(t, n), s'))
    ensures TimerRan(t, s, n, overrun, s') && s'.rq[n].nrRunning == s.rq[n].nrRunning
  {
    var q := Refreshed(s.rq[n], overrun);
    var m := Charged(s, n, q.throttled, q.rtTime);
    RefreshedPut(t, s, n, overrun);
    if s' != m {
      GroupMoveKeepsTasks(t, m, n, s');
    }
  }

  lemma ChargedKeepsQueues(t: Topology, s: State, n: Node, throttled: bool, rtTime: nat)
    requires QueuesOk(t, s) && n in t.groups
    ensures QueuesOk(t, Charged(s, n, throttled, rtTime))
  {
    var s' := Charged(s, n, throttled, rtTime);
    assert RqOk(s.rq[n]);
    PutKeepsRqs(t, s, n, s'.rq[n]);
    forall m | m in t.groups
      ensures MembersOk(t, s', m)
    {
      assert MembersOk(t, s, m);
      assert BoostedIn(t, s', s.rq[m].linked.Keys) == BoostedIn(t, s, s.rq[m].linked.Keys);
    }
  }

  /** Only the presence of `n` itself can depend on its own throttling flag. */
  lemma ChargedPresent(t: Topology, s: State, n: Node, throttled: bool, rtTime: nat)
    requires WellTyped(t, s) && n in t.groups && PresentOff(t, s, {})
    ensures var s' := Charged(s, n, throttled, rtTime);
            WellTyped(t, s') && PresentOff(t, s', {n})
  {
    var s' := Charged(s, n, throttled, rtTime);
    forall g | g in t.groups && g != t.root && g != n
      ensures Present(t, s', g)
    {
      assert t.IsEntity(g) && Present(t, s, g);
    }
  }

  lemma TimedKeepsConsistent(t: Topology, s: State, n: Node, delta: nat)
    requires Consistent(t, s) && n in t.groups
    ensures Consistent(t, Timed(s, n, delta))
  {
    var throttled, rtTime := s.rq[n].throttled, s.rq[n].rtTime + delta;
    assert Timed(s, n, delta) == Charged(s, n, throttled, rtTime);
    ChargedKeepsQueues(t, s, n, throttled, rtTime);
    ChargedPresent(t, s, n, throttled, rtTime);
    assert n != t.root ==> t.IsEntity(n) && Present(t, s, n);
  }

  /** Charging one `rt_rq` and then charging nothing more. */
  lemma ChargedThenChecked(t: Topology, s: State, m: State, s': State, n: Node, delta: nat, period: Node -> nat)
    requires WellTyped(t, s) && WellTyped(t, m) && WellTyped(t, s') && n in t.groups
    requires m == Timed(s, n, delta)
    requires TasksKept(t, m, s') && ChargedTo(t, m, {}, 0, s')
    requires forall g :: g in t.groups && g != n ==> s'.rq[g].throttled == m.rq[g].throttled
    requires s'.rq[n].throttled <==> m.rq[n].throttled || OverBudget(m.rq[n], period(n))
    ensures Charging(t, s, {n}, delta, period, s')
  {
    assert m.rq[n] == s.rq[n].(rtTime := s.rq[n].rtTime + delta);
  }
}
