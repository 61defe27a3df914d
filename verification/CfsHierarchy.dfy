/** The fair class with group scheduling, on one CPU (hw4/sched_fair.c).
 */
module CfsHierarchy {
  import opened CfsClimbs
  import opened CfsFairness
  import opened CfsQueues
  import opened CfsTimeline
  import opened GroupTree
  import opened Options
  import opened Words

  class CfsRunqueue {
    const cf: Config
    var rq: map<Node, CfsRq>
    var vruntime: map<Node, int>
    var weight: map<Node, nat>
    var execStart: map<Node, nat>
    var onRq: set<Node>
    var clock: nat
    /** The running task, when it is of the fair class. */
    var running: Option<Node>

    ghost function S(): State
      reads this
    {
      State(rq, vruntime, weight, execStart, onRq, clock)
    }

    /** The entities that are current on their `cfs_rq`. */
    ghost function RunPath(): set<Node>
      reads this
      requires cf.t.Valid() && (running.Some? ==> cf.t.IsTask(running.value))
    {
      if running.None? then {} else Path(cf.t, running.value)
    }

    ghost predicate Valid()
      reads this
    {
      && WellTyped(cf.t, S()) && (running.Some? ==> cf.t.IsTask(running.value))
      && Consistent(cf.t, S(), RunPath(), cf.t.root)
    }

    /** `init_cfs_rq` for every group. */
    constructor (config: Config, weight: map<Node, nat>, vruntime: map<Node, int>)
      requires config.t.Valid()
      requires forall e :: config.t.IsEntity(e) ==> e in weight && weight[e] > 0 && e in vruntime
      ensures cf == config && Valid() && running == None && onRq == {}
    {
      cf := config;
      rq := map g | g in config.t.groups :: CfsRq(Leaf, None, None, None, [], 0, 0, -0x10_0000);
      this.vruntime := vruntime;
      this.weight := weight;
      execStart := map e | e in config.t.entities :: 0;
      onRq := {};
      clock := 0;
      running := None;
      new;
      forall g | g in cf.t.groups
        ensures RqOk(cf.t, S(), g, {})
      {
        assert InOrder(rq[g].tree) == [];
      }
    }

    /** `update_curr` */
    method UpdateCurr(g: Node, ghost path: set<Node>)
      requires WellTyped(cf.t, S()) && AllRqsOk(cf.t, S(), path) && g in cf.t.groups
      modifies this`vruntime, this`execStart
      ensures rq[g].curr.Some? ==> cf.t.IsEntity(rq[g].curr.value)
      ensures S() == UpdatedCurr(cf, old(S()), g)
      ensures rq[g].curr.Some? ==>
                var c := rq[g].curr.value;
                var delta := clock - old(execStart)[c];
                && vruntime[c] == old(vruntime)[c]
                     + (if weight[c] == 1024 then delta else cf.calcDelta(delta, weight[c]))
                && execStart[c] == clock
    {
      UpdatedCurrKeeps(cf, S(), g, path);
      var curr := rq[g].curr;
      if curr.None? {
        return;
      }
      var c := curr.value;
      var deltaExec := clock - execStart[c];
      var deltaExecWeighted := deltaExec;
      if weight[c] != NICE_0_LOAD {
        deltaExecWeighted := cf.calcDelta(deltaExec, weight[c]);
      }
      vruntime := vruntime[c := vruntime[c] + deltaExecWeighted];
      execStart := execStart[c := clock];
    }

    /** `__enqueue_entity` */
    method InsertEntity(g: Node, e: Node)
      requires g in rq && e in vruntime && Keyed(InOrder(rq[g].tree), vruntime)
      modifies this`rq
      ensures S() == Put(old(S()), g, Inserted(old(rq)[g], vruntime, e))
    {
      var q := rq[g];
      var path: seq<Turn>, link, leftmost := [], q.tree, true;
      var key := vruntime[e] - q.minVruntime;
      while link.Fork?
        invariant rq == old(rq)
        invariant Searches(q.tree, path, vruntime, vruntime[e]) && At(q.tree, path) == Some(link)
        invariant leftmost <==> Right !in path
        decreases link
      {
        AtKeyed(q.tree, path, vruntime);
        if key < vruntime[link.e] - q.minVruntime {
          SearchStep(q.tree, path, vruntime, vruntime[e], Left);
          path, link := path + [Left], link.left;
        } else {
          SearchStep(q.tree, path, vruntime, vruntime[e], Right);
          path, link := path + [Right], link.right;
          leftmost := false;
        }
      }
      SearchEnds(q.tree, path, vruntime, vruntime[e], e);
      if leftmost {
        rq := rq[g := rq[g].(leftmost := Some(e), minVruntime := Max(q.minVruntime, vruntime[e]))];
      }
      rq := rq[g := rq[g].(tree := LinkNode(q.tree, path, Fork(Leaf, e, Leaf)))];
    }

    /** `__dequeue_entity` */
    method EraseEntity(g: Node, e: Node)
      requires g in rq && Keyed(InOrder(rq[g].tree), vruntime) && e in InOrder(rq[g].tree)
      modifies this`rq
      ensures S() == Put(old(S()), g, Erased(old(rq)[g], vruntime, e))
    {
      if rq[g].leftmost == Some(e) {
        var nextNode := Second(rq[g].tree);
        rq := rq[g := rq[g].(leftmost := nextNode)];
        if nextNode.Some? {
          rq := rq[g := rq[g].(minVruntime := Max(rq[g].minVruntime, vruntime[nextNode.value]))];
        }
      }
      if rq[g].next == Some(e) {
        rq := rq[g := rq[g].(next := None)];
      }
      rq := rq[g := rq[g].(tree := Erase(rq[g].tree, e))];
    }

    method AccountEntityEnqueue(g: Node, e: Node)
      requires g in rq && e in weight
      modifies this`rq, this`onRq
      ensures S() == Accounted(old(S()), g, e)
    {
      var q := rq[g];
      rq := rq[g := q.(load := q.load + weight[e], nrRunning := q.nrRunning + 1, tasks := [e] + q.tasks)];
      onRq := onRq + {e};
    }

    method AccountEntityDequeue(g: Node, e: Node)
      requires g in rq && e in weight && e in rq[g].tasks && rq[g].load >= weight[e] && rq[g].nrRunning > 0
      modifies this`rq, this`onRq
      ensures S() == Unaccounted(old(S()), g, e)
    {
      var q := rq[g];
      rq := rq[g := q.(load := q.load - weight[e], nrRunning := q.nrRunning - 1, tasks := ListDel(q.tasks, e))];
      onRq := onRq - {e};
    }

    /** `place_entity` for a woken entity. */
    method PlaceEntity(g: Node, e: Node)
      requires g in rq && e in vruntime && e in execStart && (rq[g].leftmost.Some? ==> rq[g].leftmost.value in vruntime)
      modifies this`vruntime
      ensures S() == PlacedAwake(cf, old(S()), g, e)
      ensures TimelineOk(rq[g], old(vruntime)) ==>
                vruntime[e] == Max(old(vruntime)[e],
                                   (if rq[g].leftmost.Some? then old(vruntime)[rq[g].leftmost.value]
                                    else rq[g].minVruntime) - cf.sleeperCredit)
    {
      var v := rq[g].minVruntime;
      if rq[g].leftmost.Some? {
        v := Min(v, vruntime[rq[g].leftmost.value]);
      }
      v := v - cf.sleeperCredit;
      vruntime := vruntime[e := Max(vruntime[e], v)];
    }

    /** `enqueue_entity` */
    method EnqueueEntity(g: Node, e: Node, wakeup: bool, ghost path: set<Node>)
      requires WellTyped(cf.t, S()) && AllRqsOk(cf.t, S(), path) && g in cf.t.groups && Child(cf.t, g, e)
      requires e !in onRq
      modifies this`rq, this`vruntime, this`execStart, this`onRq
      ensures S() == EnqueuedEntity(cf, old(S()), g, e, wakeup, path)
    {
      EnqueuedIs(cf, S(), g, e, wakeup, path);
      UpdateCurr(g, path);
      ghost var m := S();
      AccountEntityEnqueue(g, e);
      if wakeup {
        PlacedAccounted(cf, m, g, e);
        PlaceEntity(g, e);
      }
      if rq[g].curr != Some(e) {
        InsertEntity(g, e);
      }
    }

    /** `dequeue_entity` */
    method DequeueEntity(g: Node, e: Node, ghost path: set<Node>)
      requires WellTyped(cf.t, S()) && AllRqsOk(cf.t, S(), path) && g in cf.t.groups && Child(cf.t, g, e)
      requires e in onRq
      modifies this`rq, this`vruntime, this`execStart, this`onRq
      ensures S() == DequeuedEntity(cf, old(S()), g, e, path)
    {
      DequeuedIs(cf, S(), g, e, path);
      UpdateCurr(g, path);
      if rq[g].curr != Some(e) {
        EraseEntity(g, e);
      }
      AccountEntityDequeue(g, e);
    }

    /** One round of `enqueue_task_fair`. */
    method EnqueueNext(p: Node, ghost first: bool, cur: Node, wakeup: bool, ghost s: State, ghost path: set<Node>)
      requires WellTyped(cf.t, s) && cf.t.IsTask(p) && Enqueuing(cf, s, p, first, cur, S(), path)
      requires cur != cf.t.root && cur !in onRq && wakeup == (first || cur != p)
      requires PlacedBelow(cf, s, p, first, cur, S(), path)
      modifies this`rq, this`vruntime, this`execStart, this`onRq
      ensures Enqueuing(cf, s, p, first, cf.t.parent(cur), S(), path) && cf.t.IsEntity(cur)
      ensures PlacedBelow(cf, s, p, first, cf.t.parent(cur), S(), path)
      ensures cf.t.depth(cf.t.parent(cur)) < cf.t.depth(cur)
    {
      EnqueuingStep(cf, s, p, first, cur, S(), path);
      PlacedStep(cf, s, p, first, cur, S(), path);
      EnqueueEntity(cf.t.parent(cur), cur, wakeup, path);
    }

    /** The loop of `enqueue_task_fair`. */
    method EnqueueUpwards(p: Node, wakeup: bool, ghost path: set<Node>)
      requires Consistent(cf.t, S(), path, cf.t.root) && cf.t.IsTask(p) && p !in onRq
      modifies this`rq, this`vruntime, this`execStart, this`onRq
      ensures Consistent(cf.t, S(), path, cf.t.root) && p in onRq && Forward(cf.t, old(S()), S())
      ensures OthersKept(cf.t, old(S()), S(), p, path + Path(cf.t, p))
      ensures p !in path ==> HasKeys(old(S()), cf.t.parent(p)) && vruntime[p] == ArrivalTime(cf, old(S()), p, wakeup)
      ensures JoinedWoken(cf, old(S()), p, path, S())
    {
      ghost var s := S();
      EnqueuingStarts(cf, s, p, wakeup, path);
      PlacedStarts(cf, s, p, wakeup, path);
      var cur, wake := p, wakeup;
      while cur != cf.t.root && cur !in onRq
        invariant Enqueuing(cf, s, p, wakeup, cur, S(), path) && wake == (wakeup || cur != p)
        invariant PlacedBelow(cf, s, p, wakeup, cur, S(), path)
        decreases if cur == cf.t.root then 0 else cf.t.depth(cur) + 1
      {
        EnqueueNext(p, wakeup, cur, wake, s, path);
        wake := true;
        cur := cf.t.parent(cur);
      }
      EnqueuingEnds(cf, s, p, wakeup, cur, S(), path);
      JoinedEnds(cf, s, p, wakeup, cur, S(), path);
    }

    /** `enqueue_task_fair`: a woken task is at most `sleeperCredit` behind the others, and never gains
        time by being placed back. */
    method EnqueueTaskFair(p: Node, wakeup: bool)
      requires Valid() && cf.t.IsTask(p) && p !in onRq
      modifies this`rq, this`vruntime, this`execStart, this`onRq
      ensures Valid() && p in onRq && Forward(cf.t, old(S()), S())
      ensures OthersKept(cf.t, old(S()), S(), p, RunPath() + Path(cf.t, p))
      ensures running != Some(p) ==>
                HasKeys(old(S()), cf.t.parent(p)) && vruntime[p] == ArrivalTime(cf, old(S()), p, wakeup)
      ensures running != Some(p) ==>
                var q, v := old(rq)[cf.t.parent(p)], old(vruntime);
                vruntime[p] == if !wakeup then v[p]
                               else Max(v[p], (if q.leftmost.Some? then v[q.leftmost.value] else q.minVruntime)
                                              - cf.sleeperCredit)
      ensures JoinedWoken(cf, old(S()), p, RunPath(), S())
    {
      ParentTimeline(cf, S(), p, RunPath());
      EnqueueUpwards(p, wakeup, RunPath());
    }

    /** One round of `dequeue_task_fair`. */
    method DequeueNext(p: Node, cur: Node, ghost s: State, ghost path: set<Node>)
      requires WellTyped(cf.t, s) && cf.t.IsTask(p) && Dequeuing(cf.t, s, p, cur, S(), path)
      modifies this`rq, this`vruntime, this`execStart, this`onRq
      ensures WellTyped(cf.t, S()) && cf.t.parent(cur) in cf.t.groups && cf.t.depth(cf.t.parent(cur)) < cf.t.depth(cur)
      ensures Forward(cf.t, s, S()) && OthersKept(cf.t, s, S(), p, path) && p !in onRq
      ensures rq[cf.t.parent(cur)].load != 0 || cf.t.parent(cur) == cf.t.root ==> Consistent(cf.t, S(), path, cf.t.root)
      ensures rq[cf.t.parent(cur)].load == 0 && cf.t.parent(cur) != cf.t.root ==>
                Dequeuing(cf.t, s, p, cf.t.parent(cur), S(), path)
    {
      DequeuedPresent(cf, S(), cf.t.parent(cur), cur, path);
      DequeuingStep(cf, s, p, cur, S(), path);
      DequeueEntity(cf.t.parent(cur), cur, path);
    }

    /** The loop of `dequeue_task_fair`. */
    method DequeueUpwards(p: Node, ghost path: set<Node>)
      requires Consistent(cf.t, S(), path, cf.t.root) && cf.t.IsTask(p) && p in onRq
      modifies this`rq, this`vruntime, this`execStart, this`onRq
      ensures Consistent(cf.t, S(), path, cf.t.root) && p !in onRq && Forward(cf.t, old(S()), S())
      ensures OthersKept(cf.t, old(S()), S(), p, path)
    {
      ghost var s := S();
      DequeuingStarts(cf.t, s, p, path);
      var cur := p;
      while true
        invariant Dequeuing(cf.t, s, p, cur, S(), path)
        decreases cf.t.depth(cur)
      {
        DequeueNext(p, cur, s, path);
        var g := cf.t.parent(cur);
        if rq[g].load != 0 || g == cf.t.root {
          return;
        }
        cur := g;
      }
    }

    /** `dequeue_task_fair` */
    method DequeueTaskFair(p: Node)
      requires Valid() && cf.t.IsTask(p) && p in onRq
      modifies this`rq, this`vruntime, this`execStart, this`onRq
      ensures Valid() && p !in onRq && Forward(cf.t, old(S()), S())
      ensures OthersKept(cf.t, old(S()), S(), p, RunPath())
    {
      DequeueUpwards(p, RunPath());
    }

    /** `update_rq_clock` */
    method UpdateRqClock(now: nat)
      requires Valid() && now >= clock
      modifies this`clock
      ensures Valid() && clock == now
    {
      ClockKeeps(cf.t, S(), now, RunPath());
      clock := now;
    }

    /** `set_next_entity` */
    method SetNextEntity(g: Node, e: Node, ghost path: set<Node>)
      requires WellTyped(cf.t, S()) && AllRqsOk(cf.t, S(), path) && g in cf.t.groups && Child(cf.t, g, e)
      requires rq[g].curr == None
      modifies this`rq, this`execStart
      ensures S() == NextSet(cf, old(S()), g, e, path)
    {
      TakenKeeps(cf.t, S(), g, e, path);
      if e in onRq {
        EraseEntity(g, e);
      }
      execStart := execStart[e := clock];
      rq := rq[g := rq[g].(curr := Some(e))];
    }

    /** `pick_next` after `__pick_next_entity` */
    method PickNext(g: Node, ghost path: set<Node>) returns (se: Node)
      requires WellTyped(cf.t, S()) && AllRqsOk(cf.t, S(), path) && g in cf.t.groups && rq[g].curr == None
      requires rq[g].leftmost.Some? && rq[g].nrRunning > 0
      ensures FairPick(cf, S(), g, se) && PickRule(cf, S(), g, se)
    {
      ChosenIsFair(cf, S(), g, path);
      se := rq[g].leftmost.value;
      if rq[g].next.Some? {
        var next := rq[g].next.value;
        if WakeupPreempt(cf, vruntime[next], weight[next], vruntime[se]) == 0 {
          se := next;
        }
      }
      assert se == Chosen(cf, rq[g], S());
    }

    /** `pick_next_entity` */
    method PickNextEntity(g: Node, ghost path: set<Node>) returns (r: Option<Node>)
      requires WellTyped(cf.t, S()) && AllRqsOk(cf.t, S(), path) && g in cf.t.groups && rq[g].curr == None
      modifies this`rq, this`execStart
      ensures r.None? <==> old(rq[g].nrRunning) == 0
      ensures r.None? ==> S() == old(S())
      ensures r.Some? ==> FairPick(cf, old(S()), g, r.value) && S() == NextSet(cf, old(S()), g, r.value, path)
      ensures r.Some? ==> PickRule(cf, old(S()), g, r.value)
    {
      LeftmostCounted(cf.t, S(), g, path);
      if rq[g].nrRunning > 0 {
        ChosenIsFair(cf, S(), g, path);
      }
      r := None;
      if rq[g].leftmost.Some? {
        var se := PickNext(g, path);
        SetNextEntity(g, se, path);
        r := Some(se);
      }
    }

    /** `pick_next_task_fair`: the descent always reaches a task. */
    method PickNextTaskFair() returns (r: Option<Node>)
      requires Valid() && running == None
      modifies this`rq, this`execStart, this`running
      ensures Valid() && running == r
      ensures r.None? <==> old(rq[cf.t.root].nrRunning) == 0
      ensures r.None? ==> S() == old(S())
      ensures r.Some? ==> cf.t.IsTask(r.value) && r.value in onRq && Picking(cf, old(S()), r.value, S())
    {
      if rq[cf.t.root].nrRunning == 0 {
        return None;
      }
      ghost var s := S();
      var p := Descend(s);
      PickingEnds(cf, s, p, S());
      ghost var picked := S();
      running := Some(p);
      r := Some(p);
      assert S() == picked;
    }

    /** The descent of `pick_next_task_fair`. */
    method Descend(ghost s: State) returns (se: Node)
      requires WellTyped(cf.t, s) && Picking(cf, s, cf.t.root, S()) && rq[cf.t.root].nrRunning > 0
      modifies this`rq, this`execStart
      ensures cf.t.IsTask(se) && Picking(cf, s, se, S())
    {
      var g := cf.t.root;
      se := PickRound(g, s);
      while se in cf.t.groups
        invariant cf.t.IsEntity(se) && Picking(cf, s, se, S()) && rq[cf.t.root].nrRunning > 0
        decreases cf.t.maxDepth - cf.t.depth(se)
      {
        g := se;
        se := PickRound(g, s);
      }
    }

    /** One round of the descent. */
    method PickRound(g: Node, ghost s: State) returns (se: Node)
      requires WellTyped(cf.t, s) && g in cf.t.groups && (g == cf.t.root || cf.t.IsEntity(g)) && Picking(cf, s, g, S())
      requires rq[cf.t.root].nrRunning > 0
      modifies this`rq, this`execStart
      ensures cf.t.IsEntity(se) && cf.t.depth(g) < cf.t.depth(se) <= cf.t.maxDepth && Picking(cf, s, se, S())
      ensures rq[cf.t.root].nrRunning > 0
    {
      PickingCanStep(cf, s, g, S());
      ghost var m := S();
      var r := PickNextEntity(g, Above(cf.t, g));
      se := r.value;
      PickingStep(cf, s, g, se, m);
      assert cf.t.parent(se) == g;
    }

    /** `put_prev_entity` */
    method PutPrevEntity(g: Node, prev: Node, ghost path: set<Node>)
      requires WellTyped(cf.t, S()) && AllRqsOk(cf.t, S(), path) && g in cf.t.groups && Child(cf.t, g, prev)
      requires rq[g].curr == Some(prev)
      modifies this`rq, this`vruntime, this`execStart
      ensures S() == PrevPut(cf, old(S()), g, prev, path)
    {
      PrevPutIs(cf, S(), g, prev, path);
      if prev in onRq {
        UpdateCurr(g, path);
        InsertEntity(g, prev);
      }
      rq := rq[g := rq[g].(curr := None)];
    }

    /** `put_prev_task_fair` */
    method PutPrevTaskFair(prev: Node)
      requires Valid() && running == Some(prev)
      modifies this`rq, this`vruntime, this`execStart, this`running
      ensures Valid() && running == None && Putting(cf, old(S()), prev, cf.t.root, S())
      ensures PathCharged(cf, old(S()), prev, S())
    {
      ghost var s := S();
      assert Above(cf.t, prev) == Path(cf.t, prev);
      var cur := prev;
      while cur != cf.t.root
        invariant running == old(running)
        invariant (cur == cf.t.root || cf.t.IsEntity(cur)) && Putting(cf, s, prev, cur, S())
        decreases if cur == cf.t.root then 0 else cf.t.depth(cur) + 1
      {
        PutRound(prev, cur, s);
        cur := cf.t.parent(cur);
      }
      ghost var put := S();
      PutCharges(cf, s, prev, put);
      running := None;
      assert S() == put;
    }

    /** One round of `put_prev_task_fair`. */
    method PutRound(prev: Node, cur: Node, ghost s: State)
      requires WellTyped(cf.t, s) && cf.t.IsTask(prev) && cf.t.IsEntity(cur) && Putting(cf, s, prev, cur, S())
      modifies this`rq, this`vruntime, this`execStart
      ensures cf.t.parent(cur) == cf.t.root ||
        (cf.t.IsEntity(cf.t.parent(cur)) && cf.t.depth(cf.t.parent(cur)) < cf.t.depth(cur))
      ensures Putting(cf, s, prev, cf.t.parent(cur), S())
    {
      PuttingCanStep(cf, s, prev, cur, S());
      PuttingStep(cf, s, prev, cur, S());
      PutPrevEntity(cf.t.parent(cur), cur, Above(cf.t, cur));
    }

    /** The loop of `set_curr_task_fair`. */
    method SetCurrUpwards(p: Node)
      requires Consistent(cf.t, S(), {}, cf.t.root) && cf.t.IsTask(p)
      modifies this`rq, this`execStart
      ensures Setting(cf.t, old(S()), p, cf.t.root, S())
    {
      ghost var s := S();
      SettingStarts(cf.t, s, p);
      var cur := p;
      while cur != cf.t.root
        invariant (cur == cf.t.root || cf.t.IsEntity(cur)) && Setting(cf.t, s, p, cur, S())
        decreases if cur == cf.t.root then 0 else cf.t.depth(cur) + 1
      {
        SettingCanStep(cf.t, s, p, cur, S());
        SettingStep(cf, s, p, cur, S());
        SetNextEntity(cf.t.parent(cur), cur, Path(cf.t, p) - Above(cf.t, cur));
        cur := cf.t.parent(cur);
      }
    }

    /** `set_curr_task_fair`, when nothing of the class is current. */
    method SetCurrTaskFair(p: Node)
      requires Valid() && running == None && cf.t.IsTask(p)
      modifies this`rq, this`execStart, this`running
      ensures Valid() && running == Some(p) && Forward(cf.t, old(S()), S())
      ensures onRq == old(onRq) && vruntime == old(vruntime)
    {
      SetCurrUpwards(p);
      ghost var made := S();
      running := Some(p);
      assert S() == made && Path(cf.t, p) - Above(cf.t, cf.t.root) == Path(cf.t, p);
    }

    /** The new task gets `v`, or changes places with the running task if that one is earlier and the child
        is to run first. */
    method SetTimes(g: Node, p: Node, v: int, childRunsFirst: bool, ghost path: set<Node>)
      requires Consistent(cf.t, S(), path, cf.t.root) && cf.t.IsTask(p) && cf.t.parent(p) == g && g in cf.t.groups
      requires p !in onRq && p !in path && (rq[g].curr.Some? ==> Child(cf.t, g, rq[g].curr.value))
      modifies this`vruntime
      ensures Consistent(cf.t, S(), path, cf.t.root)
      ensures var was, curr := old(vruntime), rq[g].curr;
              vruntime == if childRunsFirst && curr.Some? && was[curr.value] < v
                          then was[p := was[curr.value]][curr.value := v] else was[p := v]
    {
      var curr := rq[g].curr;
      if childRunsFirst && curr.Some? && vruntime[curr.value] < v {
        TwoTimes(cf.t, S(), p, vruntime[curr.value], curr.value, v, path);
        vruntime := vruntime[p := vruntime[curr.value]][curr.value := v];
      } else {
        OneTime(cf.t, S(), p, v, path);
        vruntime := vruntime[p := v];
      }
    }

    /** `task_new_fair` up to the enqueueing. */
    method PlaceNewTask(p: Node, debit: nat, childRunsFirst: bool, ghost path: set<Node>)
      requires Consistent(cf.t, S(), path, cf.t.root) && cf.t.IsTask(p) && cf.t.parent(p) in cf.t.groups && p !in onRq
      requires p !in path
      modifies this`vruntime, this`execStart
      ensures Consistent(cf.t, S(), path, cf.t.root)
      ensures NewlyPlaced(cf, old(S()), p, debit, childRunsFirst, S())
    {
      var g := cf.t.parent(p);
      UpdatedCurrKeeps(cf, S(), g, path);
      ghost var s := S();
      UpdateCurr(g, path);
      NewTaskPlaced(cf, s, S(), g, p, path);
      var v := rq[g].minVruntime;
      if rq[g].leftmost.Some? {
        v := Min(v, vruntime[rq[g].leftmost.value]);
      }
      v := v + debit;
      ghost var m := S();
      assert m == UpdatedCurr(cf, s, g) && v == PlaceBase(rq[g], vruntime) + debit;
      SetTimes(g, p, v, childRunsFirst, path);
      assert S() == m.(vruntime := vruntime);
    }

    /** `task_new_fair`: place a new task behind the others, and let it run before its parent if wanted.
        `placed` is the state in between. */
    method TaskNewFair(p: Node, debit: nat, childRunsFirst: bool) returns (ghost placed: State)
      requires Valid() && cf.t.IsTask(p) && p !in onRq && running != Some(p)
      modifies this`rq, this`vruntime, this`execStart, this`onRq
      ensures Valid() && p in onRq
      ensures NewlyPlaced(cf, old(S()), p, debit, childRunsFirst, placed) && vruntime[p] == placed.vruntime[p]
      ensures StartsBehind(cf, old(S()), p, debit, childRunsFirst, placed)
      ensures Forward(cf.t, placed, S()) && OthersKept(cf.t, placed, S(), p, RunPath() + Path(cf.t, p))
      ensures childRunsFirst && running.Some? && cf.t.parent(running.value) == cf.t.parent(p) ==>
                vruntime[p] <= vruntime[running.value]
    {
      RunningIsCurr(cf, S(), p, running, RunPath());
      ghost var s := S();
      PlaceNewTask(p, debit, childRunsFirst, RunPath());
      placed := S();
      NewTaskStarts(cf, s, p, debit, childRunsFirst, placed, RunPath());
      EnqueueTaskFair(p, false);
      assert vruntime[p] == placed.vruntime[p];
    }

    /** `entity_tick` for the running task and its groups, as far as it accounts: each of them is charged
        with the time since its last update, once, and nobody else is. */
    method TaskTickFair()
      requires Valid() && running.Some?
      modifies this`vruntime, this`execStart
      ensures Valid() && Ticking(cf, old(S()), running.value, cf.t.root, S())
      ensures PathCharged(cf, old(S()), running.value, S())
    {
      ghost var s := S();
      var cur := running.value;
      assert Above(cf.t, cur) == Path(cf.t, cur);
      while cur != cf.t.root
        invariant (cur == cf.t.root || cf.t.IsEntity(cur)) && Ticking(cf, s, running.value, cur, S())
        decreases if cur == cf.t.root then 0 else cf.t.depth(cur) + 1
      {
        TickingStep(cf, s, running.value, cur, S());
        UpdateCurr(cf.t.parent(cur), RunPath());
        cur := cf.t.parent(cur);
      }
      TickCharges(cf, s, running.value, S());
    }

    /** `depth_se` */
    method DepthSe(e: Node) returns (depth: nat)
      requires cf.t.Valid() && cf.t.IsEntity(e)
      ensures depth == Height(cf.t, e)
    {
      depth := 0;
      var cur := e;
      while cur != cf.t.root
        invariant cur == cf.t.root || cf.t.IsEntity(cur)
        invariant Height(cf.t, e) == depth + Height(cf.t, cur)
        decreases if cur == cf.t.root then 0 else cf.t.depth(cur) + 1
      {
        AboveStep(cf.t, cur);
        depth := depth + 1;
        cur := cf.t.parent(cur);
      }
    }

    /** The walk of `check_preempt_wakeup`: the ancestors of two tasks that are siblings. */
    method MatchingSiblings(p: Node, q: Node) returns (se: Node, pse: Node)
      requires cf.t.Valid() && cf.t.IsTask(p) && cf.t.IsTask(q) && p != q
      ensures se in Path(cf.t, p) && pse in Path(cf.t, q) && se != pse && cf.t.parent(se) == cf.t.parent(pse)
    {
      se, pse := p, q;
      var seDepth := DepthSe(se);
      var pseDepth := DepthSe(pse);
      while seDepth > pseDepth
        invariant se in Path(cf.t, p) && seDepth == Height(cf.t, se) && se != pse
        invariant se == p || seDepth >= pseDepth
      {
        ParentAbove(cf.t, p, se);
        HeightPositive(cf.t, q);
        seDepth, se := seDepth - 1, cf.t.parent(se);
      }
      while pseDepth > seDepth
        invariant pse in Path(cf.t, q) && pseDepth == Height(cf.t, pse) && se != pse
        invariant seDepth <= pseDepth && (pseDepth > seDepth ==> se == p)
      {
        ParentAbove(cf.t, q, pse);
        HeightPositive(cf.t, se);
        pseDepth, pse := pseDepth - 1, cf.t.parent(pse);
      }
      while cf.t.parent(se) != cf.t.parent(pse)
        invariant se in Path(cf.t, p) && pse in Path(cf.t, q) && se != pse && Height(cf.t, se) == Height(cf.t, pse)
        decreases cf.t.depth(se)
      {
        ParentAbove(cf.t, p, se);
        ParentAbove(cf.t, q, pse);
        se, pse := cf.t.parent(se), cf.t.parent(pse);
      }
    }

    /** `check_preempt_wakeup` for a woken fair task; returns whether the running one is to be preempted. */
    method CheckPreemptWakeup(p: Node, batch: bool) returns (resched: bool)
      requires Valid() && running.Some? && cf.t.IsTask(p) && p in onRq
      modifies this`rq
      ensures Valid() && Forward(cf.t, old(S()), S())
      ensures p == running.value ==> !resched && rq == old(rq)
      ensures p != running.value ==> rq[cf.t.parent(p)].next == Some(p) && (batch ==> !resched)
      ensures p != running.value && !batch ==>
                exists se, pse :: Siblings(cf.t, running.value, p, se, pse)
                  && (resched <==> vruntime[se] > vruntime[pse] + WakeupGran(cf, weight[se]))
    {
      var curr := running.value;
      if curr == p {
        return false;
      }
      NextKeeps(cf.t, S(), p, curr);
      rq := rq[cf.t.parent(p) := rq[cf.t.parent(p)].(next := Some(p))];
      if batch {
        return false;
      }
      var se, pse := MatchingSiblings(curr, p);
      assert Siblings(cf.t, running.value, p, se, pse);
      resched := WakeupPreempt(cf, vruntime[se], weight[se], vruntime[pse]) == 1;
    }

    /** A tick at time `now`. */
    method TickAt(now: nat, ghost s: State, ghost times: seq<nat>)
      requires Valid() && running.Some? && now >= clock
      requires WellTyped(cf.t, s) && Running(cf, s, running.value, times, S())
      modifies this`vruntime, this`execStart, this`clock
      ensures Valid() && clock == now && Running(cf, s, running.value, times + [now], S())
    {
      ghost var m := S();
      UpdateRqClock(now);
      assert S() == m.(clock := now);
      TaskTickFair();
      RunningTicks(cf, s, running.value, times, m, now, S());
    }

    method NextTickAt(ticks: seq<nat>, k: nat, ghost s: State, ghost done: seq<nat>) returns (ghost done': seq<nat>)
      requires Valid() && running.Some? && Rising(s.clock, ticks) && k < |ticks| && done == ticks[..k]
      requires WellTyped(cf.t, s) && Running(cf, s, running.value, done, S())
      modifies this`vruntime, this`execStart, this`clock
      ensures done' == ticks[..k + 1]
      ensures Valid() && Running(cf, s, running.value, done', S())
    {
      NextTick(s.clock, ticks, k, done);
      TickAt(ticks[k], s, done);
      done' := done + [ticks[k]];
    }

    /** Run with ticks at these times. */
    method RunFor(ticks: seq<nat>, ghost s: State)
      requires Valid() && running.Some? && Rising(clock, ticks)
      requires WellTyped(cf.t, s) && s.clock == clock && Running(cf, s, running.value, [], S())
      modifies this`vruntime, this`execStart, this`clock
      ensures Valid() && Running(cf, s, running.value, ticks, S())
    {
      var k := 0;
      ghost var done: seq<nat> := [];
      while k < |ticks|
        invariant k <= |ticks| && done == ticks[..k] && running == old(running)
        invariant Valid() && Running(cf, s, running.value, done, S())
      {
        done := NextTickAt(ticks, k, s, done);
        k := k + 1;
      }
      assert done == ticks;
    }

    /** Run until `now`, then put back. */
    method RunOut(now: nat, ghost s: State, ghost times: seq<nat>)
      requires Valid() && running.Some? && now >= clock
      requires WellTyped(cf.t, s) && Running(cf, s, running.value, times, S()) && FairPath(cf, s, running.value)
      modifies this`rq, this`vruntime, this`execStart, this`running, this`clock
      ensures Valid() && running == None && clock == now
      ensures TurnOf(cf, s, old(running).value, S(), PortionsOf(cf, s, times + [now]))
    {
      ghost var m := S();
      UpdateRqClock(now);
      assert S() == m.(clock := now);
      var prev := running.value;
      PutPrevTaskFair(prev);
      RunningEnds(cf, s, prev, times, m, now, S());
    }

    /** One turn of the CPU: pick, run with ticks at `ticks` until `now`, put back. */
    method Turn(ticks: seq<nat>, now: nat) returns (r: Option<Node>)
      requires Valid() && running == None && Rising(clock, ticks + [now])
      modifies this`rq, this`vruntime, this`execStart, this`running, this`clock
      ensures Valid() && running == None
      ensures r.None? <==> old(rq[cf.t.root].nrRunning) == 0
      ensures r.Some? ==>
                TurnOf(cf, old(S()), r.value, S(), PortionsOf(cf, old(S()), ticks + [now])) && clock == now
    {
      ghost var s := S();
      r := PickNextTaskFair();
      if r.Some? {
        RunningStarts(cf, s, r.value, S());
        assert (ticks + [now])[..|ticks|] == ticks;
        RunFor(ticks, s);
        RunOut(now, s, ticks);
      }
    }
  }
}
