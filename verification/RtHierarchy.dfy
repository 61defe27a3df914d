/** The real-time class with group scheduling, on one CPU (hw4/sched_rt.c): the loops up and down the
    hierarchy, on the runqueues of all groups.
 */
module RtHierarchy {
  import opened GroupTree
  import opened Options
  import opened RtCharges
  import opened RtLimits
  import opened RtPicks
  import opened RtQueues
  import opened RtStacks

  class RtRunqueue {
    const t: Topology
    var rq: map<Node, RtRq>
    var prio: map<Node, nat>
    var normalPrio: map<Node, nat>

    function S(): State
      reads this
    {
      State(rq, prio, normalPrio)
    }

    ghost predicate Valid()
      reads this
    {
      Consistent(t, S())
    }

    /** `init_rt_rq` for every group. */
    constructor (topology: Topology, runtime: Node -> nat, prio: map<Node, nat>, normalPrio: map<Node, nat>)
      requires topology.Valid()
      requires forall p :: topology.IsTask(p) ==> p in prio && p in normalPrio && prio[p] < MAX_RT_PRIO
      ensures t == topology && Valid()
      ensures forall e :: t.IsEntity(e) ==> !OnRtRq(e)
    {
      t := topology;
      this.prio := prio;
      this.normalPrio := normalPrio;
      rq := map g | g in topology.groups ::
        RtRq(seq(MAX_RT_PRIO, _ => []), map[], {}, 0, MAX_RT_PRIO, 0, false, 0, runtime(g));
      new;
      EmptyConsistent(t, S());
    }

    /** `rt_se_prio` */
    function PrioOf(e: Node): nat
      reads this
      requires if e in t.groups then e in rq else e in prio
    {
      Prio(t, S(), e)
    }

    /** `rt_se_boosted` */
    predicate IsBoosted(e: Node)
      reads this
      requires if e in t.groups then e in rq else e in prio && e in normalPrio
    {
      Boosted(t, S(), e)
    }

    /** `on_rt_rq` */
    predicate OnRtRq(e: Node)
      reads this
      requires t.IsEntity(e) && t.parent(e) in rq
    {
      Linked(t, S(), e)
    }

    method IncRtTasks(e: Node, n: Node)
      requires WellTyped(t, S()) && t.IsEntity(e) && n == t.parent(e)
      modifies this`rq
      ensures rq == old(rq)[n := CountedIn(old(rq[n]), old(PrioOf(e)), old(IsBoosted(e)))]
    {
      rq := rq[n := rq[n].(nrRunning := rq[n].nrRunning + 1)];
      if PrioOf(e) < rq[n].highestPrio {
        rq := rq[n := rq[n].(highestPrio := PrioOf(e))];
      }
      if IsBoosted(e) {
        rq := rq[n := rq[n].(nrBoosted := rq[n].nrBoosted + 1)];
      }
    }

    /** `__enqueue_rt_entity` */
    method EnqueueOne(e: Node)
      requires QueuesOk(t, S()) && t.IsEntity(e) && !OnRtRq(e)
      requires t.parent(e) == t.root || !OnRtRq(t.parent(e))
      modifies this`rq
      ensures S() == Enqueued(t, old(S()), e) && QueuesOk(t, S())
    {
      ghost var after := Enqueued(t, S(), e);
      if e in t.groups && (rq[e].Throttled() || rq[e].nrRunning == 0) {
        return;
      }
      EnqueueHasPrio(t, S(), e);
      var n := t.parent(e);
      ghost var q := LinkedIn(rq[n], e, PrioOf(e));
      PutTwice(rq, n, q, CountedIn(q, PrioOf(e), IsBoosted(e)));
      LinkTail(e, n);
      IncRtTasks(e, n);
      assert S() == after;
      EnqueuedKeepsQueues(t, old(S()), e);
    }

    /** `list_add_tail` and `__set_bit` */
    method LinkTail(e: Node, n: Node)
      requires WellTyped(t, S()) && t.IsEntity(e) && n == t.parent(e) && PrioOf(e) < |rq[n].queue|
      modifies this`rq
      ensures rq == old(rq)[n := LinkedIn(old(rq[n]), e, old(PrioOf(e)))]
      ensures WellTyped(t, S()) && PrioOf(e) == old(PrioOf(e)) && IsBoosted(e) == old(IsBoosted(e))
    {
      assert t.depth(n) < t.depth(e);
      var p := PrioOf(e);
      rq := rq[n := rq[n].(queue := rq[n].queue[p := rq[n].queue[p] + [e]], linked := rq[n].linked[e := p])];
      rq := rq[n := rq[n].(bitmap := rq[n].bitmap + {PrioOf(e)})];
    }

    method DecRtTasks(e: Node, n: Node)
      requires WellTyped(t, S()) && t.IsEntity(e) && n == t.parent(e) && rq[n].nrRunning > 0
      requires IsBoosted(e) ==> rq[n].nrBoosted > 0
      modifies this`rq
      ensures rq == old(rq)[n := Uncounted(old(rq[n]), old(PrioOf(e)), old(IsBoosted(e)))]
    {
      rq := rq[n := rq[n].(nrRunning := rq[n].nrRunning - 1)];
      if rq[n].nrRunning != 0 {
        if PrioOf(e) == rq[n].highestPrio {
          rq := rq[n := rq[n].(highestPrio := FirstBit(rq[n].bitmap, 0))];
        }
      } else {
        rq := rq[n := rq[n].(highestPrio := MAX_RT_PRIO)];
      }
      if IsBoosted(e) {
        rq := rq[n := rq[n].(nrBoosted := rq[n].nrBoosted - 1)];
      }
    }

    method Unlink(e: Node, n: Node)
      requires WellTyped(t, S()) && t.IsEntity(e) && n == t.parent(e) && e in rq[n].linked
      requires rq[n].linked[e] < |rq[n].queue| && PrioOf(e) < |rq[n].queue|
      modifies this`rq
      ensures rq == old(rq)[n := Unlinked(old(rq[n]), e, old(PrioOf(e)))]
      ensures WellTyped(t, S()) && PrioOf(e) == old(PrioOf(e)) && IsBoosted(e) == old(IsBoosted(e))
    {
      assert t.depth(n) < t.depth(e);
      var i := rq[n].linked[e];
      rq := rq[n := rq[n].(queue := rq[n].queue[i := FilterOut(rq[n].queue[i], {e})],
                           linked := rq[n].linked - {e})];
      if rq[n].queue[PrioOf(e)] == [] {
        rq := rq[n := rq[n].(bitmap := rq[n].bitmap - {PrioOf(e)})];
      }
    }

    /** `__dequeue_rt_entity` */
    method DequeueOne(e: Node)
      requires QueuesOk(t, S()) && t.IsEntity(e) && OnRtRq(e)
      requires t.parent(e) == t.root || !OnRtRq(t.parent(e))
      modifies this`rq
      ensures S() == Dequeued(t, old(S()), e) && QueuesOk(t, S())
    {
      DequeueHasCounts(t, S(), e);
      ghost var after := Dequeued(t, S(), e);
      var n := t.parent(e);
      ghost var q := Unlinked(rq[n], e, PrioOf(e));
      PutTwice(rq, n, q, Uncounted(q, PrioOf(e), IsBoosted(e)));
      Unlink(e, n);
      DecRtTasks(e, n);
      assert S() == after;
      DequeuedKeepsQueues(t, old(S()), e);
    }
  
    /** The first loop of `dequeue_rt_stack`: chain `e` and its ancestors by `back` pointers. */
    method BackPointers(e: Node) returns (back: seq<Node>)
      requires t.Valid() && t.IsEntity(e)
      ensures Chain(t, back, t.root) && Elements(back) == Path(t, e)
    {
      back := [];
      var cur := e;
      while cur != t.root
        invariant Backing(t, e, back, cur)
        decreases if cur == t.root then 0 else t.depth(cur) + 1
      {
        BackNext(t, e, back, cur);
        back := [cur] + back;
        cur := t.parent(cur);
      }
    }

    /** The body of the second loop of `dequeue_rt_stack`. */
    method DequeueIfQueued(e: Node, ghost s: State, ghost gone: set<Node>)
      requires QueuesOk(t, S()) && WellTyped(t, s) && t.IsEntity(e)
      requires forall c :: c in gone ==> t.IsEntity(c) && t.parent(c) != t.parent(e)
      requires Restacked(t, s, gone, {}, S())
      requires t.parent(e) == t.root || t.parent(e) in gone
      modifies this`rq
      ensures QueuesOk(t, S()) && Restacked(t, s, gone + {e}, {}, S())
    {
      if OnRtRq(e) {
        RestackedDequeue(t, s, gone, S(), e);
        DequeueOne(e);
      } else {
        RestackedSkip(t, s, gone, S(), e);
      }
    }

    /** One round of the second loop of `dequeue_rt_stack`. */
    method UnlinkNext(back: seq<Node>, k: nat, ghost s: State, ghost e: Node)
      requires k < |back| && Unwinding(t, s, e, back, k, S())
      modifies this`rq
      ensures Unwinding(t, s, e, back, k + 1, S())
    {
      ChainDistinct(t, e, back, k);
      assert k > 0 ==> back[k - 1] == back[..k][k - 1];
      ElementsNext(back, k);
      DequeueIfQueued(back[k], s, Elements(back[..k]));
    }

    /** `dequeue_rt_stack`: unlink `e` and its ancestors, the outermost first. */
    method DequeueRtStack(e: Node)
      requires QueuesOk(t, S()) && t.IsEntity(e)
      modifies this`rq
      ensures QueuesOk(t, S()) && Restacked(t, old(S()), Path(t, e), {}, S())
    {
      var back := BackPointers(e);
      var k := 0;
      while k < |back|
        invariant k <= |back| && Unwinding(t, old(S()), e, back, k, S())
      {
        UnlinkNext(back, k, old(S()), e);
        k := k + 1;
      }
      assert back[..k] == back;
    }
  
    /** One round of the climb: `__enqueue_rt_entity` on `cur`. */
    method EnqueueNext(e: Node, cur: Node, ghost s: State)
      requires Climbing(t, s, e, cur, S()) && cur != t.root && PresentOff(t, S(), Above(t, cur))
      requires t.IsTask(e) && cur != e ==> OnRtRq(e)
      modifies this`rq
      ensures t.IsEntity(cur) && Climbing(t, s, e, t.parent(cur), S())
      ensures PresentOff(t, S(), Above(t, t.parent(cur)))
      ensures t.IsTask(e) ==> OnRtRq(e)
    {
      ClimbUnlinked(t, s, e, cur, S());
      ClimbPresent(t, s, e, cur, S());
      ClimbStep(t, s, e, cur, S());
      if t.IsTask(e) {
        EnqueuedTask(t, S(), cur, e);
      }
      EnqueueOne(cur);
    }

    /** `enqueue_rt_entity`: the whole stack is unlinked, then re-enqueued bottom-up. */
    method EnqueueRtEntity(e: Node)
      requires QueuesOk(t, S()) && t.IsEntity(e) && PresentOff(t, S(), Path(t, e))
      modifies this`rq
      ensures Valid() && (t.IsTask(e) ==> OnRtRq(e))
      ensures Restacked(t, old(S()), Path(t, e), Path(t, e), S())
    {
      ghost var s := S();
      DequeueRtStack(e);
      ClimbStart(t, s, e, S());
      StackPresent(t, s, e, S());
      var cur := e;
      while cur != t.root
        invariant Climbing(t, s, e, cur, S())
        invariant PresentOff(t, S(), Above(t, cur))
        invariant t.IsTask(e) && cur != e ==> OnRtRq(e)
        decreases if cur == t.root then 0 else t.depth(cur) + 1
      {
        EnqueueNext(e, cur, s);
        cur := t.parent(cur);
      }
      assert Path(t, e) - {} == Path(t, e);
    }
  
    /** One round of `dequeue_rt_entity`: only a non-empty group is re-enqueued. */
    method ReenqueueGroup(e: Node, cur: Node, ghost s: State)
      requires Climbing(t, s, e, cur, S()) && cur != t.root && PresentOff(t, S(), Above(t, cur))
      requires cur == e || cur in t.groups
      requires t.IsTask(e) ==> !OnRtRq(e)
      modifies this`rq
      ensures t.IsEntity(cur) && Climbing(t, s, e, t.parent(cur), S())
      ensures PresentOff(t, S(), Above(t, t.parent(cur)))
      ensures t.IsTask(e) ==> !OnRtRq(e)
    {
      ClimbUnlinked(t, s, e, cur, S());
      if cur in t.groups {
        ClimbPresent(t, s, e, cur, S());
        ClimbStep(t, s, e, cur, S());
        if t.IsTask(e) {
          EnqueuedTask(t, S(), cur, e);
        }
        if rq[cur].nrRunning != 0 {
          EnqueueOne(cur);
        }
      } else {
        ClimbSkip(t, s, e, cur, S());
      }
    }

    /** `dequeue_rt_entity` */
    method DequeueRtEntity(e: Node)
      requires QueuesOk(t, S()) && t.IsEntity(e) && PresentOff(t, S(), Path(t, e))
      modifies this`rq
      ensures Valid() && (t.IsTask(e) ==> !OnRtRq(e))
      ensures Restacked(t, old(S()), Path(t, e), Path(t, e), S())
    {
      ghost var s := S();
      DequeueRtStack(e);
      ClimbStart(t, s, e, S());
      StackPresent(t, s, e, S());
      ClimbTaskGone(t, s, e, S());
      var cur := e;
      while cur != t.root
        invariant Climbing(t, s, e, cur, S())
        invariant PresentOff(t, S(), Above(t, cur))
        invariant cur == e || cur in t.groups
        invariant t.IsTask(e) ==> !OnRtRq(e)
        decreases if cur == t.root then 0 else t.depth(cur) + 1
      {
        ReenqueueGroup(e, cur, s);
        cur := t.parent(cur);
      }
      assert Path(t, e) - {} == Path(t, e);
    }
  
    /** `enqueue_task_rt` */
    method EnqueueTaskRt(p: Node)
      requires Valid() && t.IsTask(p)
      modifies this`rq
      ensures Valid() && OnRtRq(p)
      ensures Restacked(t, old(S()), Path(t, p), Path(t, p), S())
      ensures forall x :: t.IsTask(x) && x != p ==> (OnRtRq(x) <==> Linked(t, old(S()), x))
      ensures AtTail(rq[t.parent(p)], p, prio[p])
    {
      ghost var s := S();
      EnqueueRtEntity(p);
      forall x | t.IsTask(x) && x != p
        ensures OnRtRq(x) <==> Linked(t, s, x)
      {
        UnlinkedElsewhere(t, s, Path(t, p), Path(t, p), S(), x);
      }
      JoinsTail(t, s, p, S());
    }

    /** `rt_throttled = 1`, then `sched_rt_rq_dequeue` if that throttles the group. */
    method Throttle(n: Node)
      requires Valid() && n in t.groups
      modifies this`rq
      ensures Valid()
      ensures var s := Charged(old(S()), n, true, old(rq[n]).rtTime);
              if n != t.root && Linked(t, s, n) && s.rq[n].Throttled()
              then Restacked(t, s, Path(t, n), Path(t, n), S())
              else S() == s
    {
      ChargedKeepsQueues(t, S(), n, true, rq[n].rtTime);
      ChargedPresent(t, S(), n, true, rq[n].rtTime);
      rq := rq[n := rq[n].(throttled := true)];
      if rq[n].Throttled() && n != t.root && OnRtRq(n) {
        DequeueRtEntity(n);
      }
    }
  
    /** One CPU's part of `do_sched_rt_period_timer`; returns the `idle` verdict for it. Nothing happens for
        a bandwidth that is not limited. */
    method PeriodTimer(n: Node, overrun: nat, bandwidth: nat) returns (idle: bool)
      requires Valid() && n in t.groups
      modifies this`rq
      ensures Valid()
      ensures idle <==> bandwidth == RUNTIME_INF
                        || (old(rq[n]).nrRunning == 0 && old(rq[n]).rtTime <= overrun * old(rq[n]).rtRuntime)
      ensures bandwidth == RUNTIME_INF ==> S() == old(S())
      ensures bandwidth != RUNTIME_INF ==> TimerRan(t, old(S()), n, overrun, S())
      ensures bandwidth != RUNTIME_INF && n != t.root && !rq[n].throttled ==>
                (OnRtRq(n) <==> old(rq[n]).nrRunning > 0)
      ensures bandwidth != RUNTIME_INF ==>
                var q := Refreshed(old(rq[n]), overrun);
                var s := Charged(old(S()), n, q.throttled, q.rtTime);
                if n != t.root && !Linked(t, s, n) && q.nrRunning > 0 && old(rq[n]).throttled && !q.throttled
                then Restacked(t, s, Path(t, n), Path(t, n), S())
                else S() == s
    {
      if bandwidth == RUNTIME_INF {
        return true;
      }
      ghost var s := S();
      RefreshedMeans(rq[n], overrun);
      idle := Refresh(n, overrun);
      RefreshedRuns(t, s, n, overrun, S());
      assert n != t.root ==> t.IsEntity(n) && Present(t, S(), n);
    }

    /** The loop body of `do_sched_rt_period_timer`. */
    method Refresh(n: Node, overrun: nat) returns (idle: bool)
      requires Valid() && n in t.groups
      modifies this`rq
      ensures Valid()
      ensures idle <==> old(rq[n]).nrRunning == 0 && Refreshed(old(rq[n]), overrun).rtTime == 0
      ensures var q := Refreshed(old(rq[n]), overrun);
              var s := Charged(old(S()), n, q.throttled, q.rtTime);
              if n != t.root && !Linked(t, s, n) && q.nrRunning > 0 && old(rq[n]).throttled && !q.throttled
              then Restacked(t, s, Path(t, n), Path(t, n), S())
              else S() == s
    {
      ghost var after := Refreshed(rq[n], overrun);
      ChargedKeepsQueues(t, S(), n, after.throttled, after.rtTime);
      ChargedPresent(t, S(), n, after.throttled, after.rtTime);
      assert n != t.root ==> t.IsEntity(n) && Present(t, S(), n);
      var q, enqueue;
      q, enqueue, idle := Drain(rq[n], overrun);
      rq := rq[n := q];
      assert S() == Charged(old(S()), n, after.throttled, after.rtTime);
      if enqueue && n != t.root && !OnRtRq(n) && rq[n].nrRunning != 0 {
        EnqueueRtEntity(n);
      }
    }

    /** What the period timer does to one `rt_rq`. */
    method Drain(q0: RtRq, overrun: nat) returns (q: RtRq, enqueue: bool, idle: bool)
      ensures q == Refreshed(q0, overrun) && (enqueue <==> q0.throttled && !q.throttled)
      ensures idle <==> q.rtTime == 0 && q.nrRunning == 0
    {
      q, enqueue, idle := q0, false, true;
      if q.rtTime != 0 {
        var runtime := q.rtRuntime;
        q := q.(rtTime := q.rtTime - if q.rtTime <= overrun * runtime then q.rtTime else overrun * runtime);
        if q.throttled && q.rtTime < runtime {
          q := q.(throttled := false);
          enqueue := true;
        }
        if q.rtTime != 0 || q.nrRunning != 0 {
          idle := false;
        }
      } else if q.nrRunning != 0 {
        idle := false;
      }
    }

    /** `update_curr_rt`: charge `delta` to every `rt_rq` above the running task `p`; each task group has a
        period of its own. */
    method UpdateCurrRt(p: Node, delta: nat, period: Node -> nat)
      requires Valid() && t.IsTask(p)
      modifies this`rq
      ensures Valid() && TasksKept(t, old(S()), S())
      ensures ChargedTo(t, old(S()), ChargedAbove(t, p), delta, S())
      ensures ThrottledIfOver(t, old(S()), ChargedAbove(t, p), delta, period, S())
    {
      ghost var s := S();
      NothingCharged(t, s, delta, period);
      var cur := p;
      ghost var done: set<Node> := {};
      while cur != t.root
        invariant cur == t.root || t.IsEntity(cur)
        invariant Valid() && Charging(t, s, done, delta, period, S())
        invariant ChargedAbove(t, p) == done + ToCharge(t, cur) && done !! ToCharge(t, cur)
        decreases if cur == t.root then 0 else t.depth(cur) + 1
      {
        NextToCharge(t, cur);
        ChargeMore(cur, delta, period, s, done);
        done := done + {t.parent(cur)};
        cur := t.parent(cur);
      }
    }

    /** `rt_time += delta_exec` */
    method AddTime(n: Node, delta: nat)
      requires Valid() && n in t.groups
      modifies this`rq
      ensures Valid() && S() == Timed(old(S()), n, delta)
    {
      ghost var after := Timed(S(), n, delta);
      rq := rq[n := rq[n].(rtTime := rq[n].rtTime + delta)];
      assert S() == after;
      TimedKeepsConsistent(t, old(S()), n, delta);
    }

    /** The budget check after a charge of `delta`, which led here from `s`. */
    method CheckBudget(n: Node, delta: nat, period: Node -> nat, ghost s: State)
      requires Valid() && WellTyped(t, s) && n in t.groups
      requires S() == Timed(s, n, delta)
      modifies this`rq
      ensures Valid() && Charging(t, s, {n}, delta, period, S())
    {
      ghost var m := S();
      var _ := SchedRtRuntimeExceeded(n, period(n));
      ChargedThenChecked(t, s, m, S(), n, delta, period);
    }

    /** One round of `update_curr_rt`. */
    method ChargeRound(cur: Node, delta: nat, period: Node -> nat)
      requires Valid() && t.IsEntity(cur)
      modifies this`rq
      ensures Valid() && Charging(t, old(S()), {t.parent(cur)}, delta, period, S())
    {
      var n := t.parent(cur);
      ghost var s := S();
      AddTime(n, delta);
      CheckBudget(n, delta, period, s);
    }

    method ChargeMore(cur: Node, delta: nat, period: Node -> nat, ghost s: State, ghost done: set<Node>)
      requires Valid() && t.IsEntity(cur) && Charging(t, s, done, delta, period, S()) && t.parent(cur) !in done
      modifies this`rq
      ensures Valid() && Charging(t, s, done + {t.parent(cur)}, delta, period, S())
    {
      ghost var m := S();
      ChargeRound(cur, delta, period);
      OneMoreCharged(t, s, done, m, t.parent(cur), delta, period, S());
    }

    /** `sched_rt_runtime_exceeded`, without borrowing from other CPUs. */
    method SchedRtRuntimeExceeded(n: Node, period: nat) returns (exceeded: bool)
      requires Valid() && n in t.groups
      modifies this`rq
      ensures Valid() && TasksKept(t, old(S()), S()) && ChargedTo(t, old(S()), {}, 0, S())
      ensures forall g :: g in t.groups && g != n ==> rq[g].throttled == old(rq)[g].throttled
      ensures var q := old(rq[n]);
              && (rq[n].throttled <==>
                    q.throttled || (q.rtRuntime != RUNTIME_INF && q.rtRuntime < period && q.rtTime > q.rtRuntime))
              && (exceeded <==> q.rtRuntime != RUNTIME_INF && rq[n].throttled && rq[n].nrBoosted == 0)
    {
      var runtime := rq[n].rtRuntime;
      if runtime == RUNTIME_INF {
        return false;
      }
      if rq[n].throttled {
        return rq[n].Throttled();
      }
      if runtime >= period {
        return false;
      }
      if rq[n].rtTime > runtime {
        ghost var s := S();
        Throttle(n);
        ThrottledKeeps(t, s, n, S());
        return rq[n].Throttled();
      }
      return false;
    }

    /** `dequeue_task_rt`: the running task `curr` is charged first. */
    method DequeueTaskRt(p: Node, curr: Node, delta: nat, period: Node -> nat)
      requires Valid() && t.IsTask(p) && t.IsTask(curr)
      modifies this`rq
      ensures Valid() && !OnRtRq(p)
      ensures forall x :: t.IsTask(x) && x != p ==> (OnRtRq(x) <==> Linked(t, old(S()), x))
      ensures ChargedTo(t, old(S()), ChargedAbove(t, curr), delta, S())
      ensures ThrottledIfOver(t, old(S()), ChargedAbove(t, curr), delta, period, S())
    {
      UpdateCurrRt(curr, delta, period);
      ghost var s := S();
      DequeueRtEntity(p);
      forall x | t.IsTask(x) && x != p
        ensures OnRtRq(x) <==> Linked(t, s, x)
      {
        UnlinkedElsewhere(t, s, Path(t, p), Path(t, p), S(), x);
      }
      BudgetsKept(t, s, Path(t, p), S());
    }

    /** A dequeued task may get another priority (`rt_mutex_setprio`, `sched_setscheduler`). */
    method SetPrio(p: Node, newPrio: nat, newNormal: nat)
      requires Valid() && t.IsTask(p) && !OnRtRq(p) && newPrio < MAX_RT_PRIO
      modifies this`prio, this`normalPrio
      ensures Valid() && prio == old(prio)[p := newPrio] && normalPrio == old(normalPrio)[p := newNormal]
    {
      PrioKeepsQueues(t, S(), p, newPrio, newNormal);
      prio := prio[p := newPrio];
      normalPrio := normalPrio[p := newNormal];
    }
  
    /** `pick_next_rt_entity`: its BUG_ON never fires. */
    method PickNextRtEntity(n: Node) returns (next: Node)
      requires QueuesOk(t, S()) && n in t.groups && rq[n].nrRunning > 0
      ensures t.IsEntity(next) && t.parent(next) == n && OnRtRq(next) && PrioOf(next) == rq[n].highestPrio
      ensures var q := rq[n];
        q.highestPrio < |q.queue| && q.queue[q.highestPrio] != [] && q.queue[q.highestPrio][0] == next
    {
      HeadIsLinked(t, S(), n);
      assert RqOk(rq[n]);
      var idx := FirstBit(rq[n].bitmap, 0);
      assert idx < MAX_RT_PRIO;
      next := rq[n].queue[idx][0];
    }

    /** `pick_next_task_rt` */
    method PickNextTaskRt() returns (r: Option<Node>)
      requires Valid()
      ensures r.None? <==>
                (rq[t.root].throttled && rq[t.root].nrBoosted == 0) || forall u :: !Runnable(t, S(), u)
      ensures r.Some? ==> Runnable(t, S(), r.value) && HeadsItsLists(t, S(), r.value)
      ensures r.Some? ==> forall u :: Runnable(t, S(), u) ==> prio[r.value] <= prio[u]
    {
      forall u | Runnable(t, S(), u)
        ensures rq[t.root].highestPrio <= prio[u] && rq[t.root].nrRunning > 0
      {
        RunnableBounded(t, S(), u);
      }
      if rq[t.root].nrRunning == 0 {
        return None;
      }
      if rq[t.root].Throttled() {
        return None;
      }
      var e := PickNextRtEntity(t.root);
      while e in t.groups
        invariant t.IsEntity(e) && PrioOf(e) == rq[t.root].highestPrio
        invariant forall a :: a in Path(t, e) ==> Linked(t, S(), a)
        invariant HeadsItsLists(t, S(), e)
        decreases t.maxDepth - t.depth(e)
      {
        assert e in Path(t, e) && Present(t, S(), e);
        var next := PickNextRtEntity(e);
        assert t.parent(next) != t.root && t.depth(t.parent(next)) < t.depth(next) <= t.maxDepth;
        e := next;
      }
      assert Reachable(t, S(), e);
      ReachableIffRunnable(t, S(), e);
      return Some(e);
    }
  }
}
