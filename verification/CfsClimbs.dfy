/** The loops of the fair class up and down the hierarchy (hw4/sched_fair.c): what they keep, picking and
    putting back, new tasks, wake-up preemption.
 */
module CfsClimbs {
  import opened CfsQueues
  import opened CfsTimeline
  import opened GroupTree
  import opened Options
  import opened Words

  // ----- what the loops up the hierarchy keep -----

  /** Another task's on_rq and another entity's virtual runtime do not change. */
  ghost predicate OthersKept(t: Topology, s: State, s': State, p: Node, moved: set<Node>)
    requires WellTyped(t, s) && WellTyped(t, s')
  {
    && (forall x {:trigger x in s'.onRq} :: t.IsTask(x) && x != p ==> (x in s'.onRq <==> x in s.onRq))
    && OnlyTimes(s, s', moved)
    && s'.weight == s.weight && s'.clock == s.clock
  }

  /** The loop of `enqueue_task_fair` has put everything below `cur` on its queue. */
  ghost predicate Enqueuing(cf: Config, s: State, p: Node, wakeup: bool, cur: Node, s': State, path: set<Node>)
    requires WellTyped(cf.t, s) && cf.t.IsTask(p)
  {
    var t := cf.t;
    && Consistent(t, s', path, cur) && Forward(t, s, s') && OthersKept(t, s, s', p, path + Path(t, p))
    && (cur == t.root || (t.IsEntity(cur) && cur in Path(t, p)))
    && (cur == p ==> p !in s'.onRq && s' == s)
    && (cur != p ==> p in s'.onRq && cur in t.groups && s'.rq[cur].nrRunning > 0)
    && (cur != p && p !in path ==> HasKeys(s, t.parent(p)) && s'.vruntime[p] == ArrivalTime(cf, s, p, wakeup))
  }

  lemma EnqueuingStep(cf: Config, s: State, p: Node, wakeup: bool, cur: Node, m: State, path: set<Node>)
    requires WellTyped(cf.t, s) && cf.t.IsTask(p) && Enqueuing(cf, s, p, wakeup, cur, m, path)
    requires cur != cf.t.root && cur !in m.onRq
    ensures Enqueuing(cf, s, p, wakeup, cf.t.parent(cur),
                      EnqueuedEntity(cf, m, cf.t.parent(cur), cur, wakeup || cur != p, path), path)
  {
    var t, g := cf.t, cf.t.parent(cur);
    assert t.depth(g) < t.depth(cur) && g in t.groups && g != p;
    var s' := EnqueuedEntity(cf, m, g, cur, wakeup || cur != p, path);
    PresentMovesUp(t, m, g, cur, path, s');
    ForwardTrans(t, s, m, s');
    OthersTrans(t, s, m, s', p, path + Path(t, p), if wakeup || cur != p then path + {cur} else path, cur);
    ArrivalKept(cf, s, p, wakeup, cur, m, path);
  }

  lemma ArrivalKept(cf: Config, s: State, p: Node, wakeup: bool, cur: Node, m: State, path: set<Node>)
    requires WellTyped(cf.t, s) && cf.t.IsTask(p) && Enqueuing(cf, s, p, wakeup, cur, m, path)
    requires cur != cf.t.root && cur !in m.onRq
    ensures cf.t.parent(cur) in cf.t.groups
    ensures var s' := EnqueuedEntity(cf, m, cf.t.parent(cur), cur, wakeup || cur != p, path);
            p !in path ==> HasKeys(s, cf.t.parent(p)) && s'.vruntime[p] == ArrivalTime(cf, s, p, wakeup)
  {
    var g := cf.t.parent(cur);
    assert g in cf.t.groups;
    var s' := EnqueuedEntity(cf, m, g, cur, wakeup || cur != p, path);
    if p !in path {
      if cur == p {
        LeftmostKeyed(s.rq[g], s.vruntime);
      } else {
        assert s'.vruntime[p] == m.vruntime[p];
      }
    }
  }

  /** What is above `cur` is as it was before the loop. */
  ghost predicate Untouched(t: Topology, s: State, cur: Node, m: State, path: set<Node>)
    requires WellTyped(t, s) && WellTyped(t, m) && (cur == t.root || t.IsEntity(cur))
  {
    && (forall h {:trigger m.rq[h]} :: h in t.groups && cur != t.root && t.depth(h) < t.depth(cur) ==>
          m.rq[h] == s.rq[h])
    && (forall x {:trigger m.vruntime[x]} :: x in Above(t, cur) && x !in path ==> m.vruntime[x] == s.vruntime[x])
    && (forall x {:trigger x in m.onRq} :: x in Above(t, cur) ==> (x in m.onRq <==> x in s.onRq))
  }

  /** What the loop has enqueued below `cur` entered at its arrival time, groups as woken ones. */
  ghost predicate PlacedBelow(cf: Config, s: State, p: Node, wakeup: bool, cur: Node, m: State, path: set<Node>)
    requires WellTyped(cf.t, s) && WellTyped(cf.t, m) && cf.t.IsTask(p) && (cur == cf.t.root || cf.t.IsEntity(cur))
  {
    && Untouched(cf.t, s, cur, m, path)
    && (forall x {:trigger m.vruntime[x]} :: x in Path(cf.t, p) && x !in Above(cf.t, cur) && x !in path ==>
          && cf.t.parent(x) in s.rq && HasKeys(s, cf.t.parent(x))
          && m.vruntime[x] == ArrivalTime(cf, s, x, wakeup || x != p))
  }

  /** Every group that went on_rq with `p` entered its queue as a woken entity: at the later of its own time and
      the earliest time there less the sleeper credit. */
  ghost predicate JoinedWoken(cf: Config, s: State, p: Node, path: set<Node>, s': State)
    requires WellTyped(cf.t, s) && WellTyped(cf.t, s') && cf.t.IsTask(p)
  {
    forall x {:trigger s'.vruntime[x]} :: x in Path(cf.t, p) && x != p && x !in s.onRq && x !in path ==>
      x in s'.onRq && EnteredAt(cf, s, x, s'.vruntime[x])
  }

  /** The time at which a woken entity enters its queue. */
  ghost predicate EnteredAt(cf: Config, s: State, x: Node, v: int) {
    && x in s.vruntime && cf.t.parent(x) in s.rq
    && var q := s.rq[cf.t.parent(x)];
       && (q.leftmost.Some? ==> q.leftmost.value in s.vruntime)
       && v == Max(s.vruntime[x], (if q.leftmost.Some? then s.vruntime[q.leftmost.value] else q.minVruntime)
                                  - cf.sleeperCredit)
  }

  lemma ArrivalEnters(cf: Config, s: State, x: Node, path: set<Node>)
    requires WellTyped(cf.t, s) && AllRqsOk(cf.t, s, path) && cf.t.IsEntity(x)
    ensures cf.t.parent(x) in s.rq && HasKeys(s, cf.t.parent(x)) && EnteredAt(cf, s, x, ArrivalTime(cf, s, x, true))
  {
    var g := cf.t.parent(x);
    assert g in cf.t.groups && RqOk(cf.t, s, g, path);
    LeftmostKeyed(s.rq[g], s.vruntime);
    PlaceBaseIs(s.rq[g], s.vruntime);
  }

  lemma {:induction false} AboveOnRq(t: Topology, s: State, e: Node, path: set<Node>)
    requires Consistent(t, s, path, t.root) && t.IsEntity(e) && e in s.onRq
    ensures forall x :: x in Path(t, e) ==> x in s.onRq
    decreases t.depth(e)
  {
    var g := t.parent(e);
    AboveStep(t, e);
    if g != t.root {
      assert RqOk(t, s, g, path) && e in s.rq[g].tasks && PresentOk(s, g);
      AboveOnRq(t, s, g, path);
    }
  }

  lemma JoinedEnds(cf: Config, s: State, p: Node, wakeup: bool, cur: Node, s': State, path: set<Node>)
    requires Consistent(cf.t, s, path, cf.t.root) && Consistent(cf.t, s', path, cf.t.root)
    requires cf.t.IsTask(p) && p in s'.onRq && (cur == cf.t.root || (cf.t.IsEntity(cur) && cur in s'.onRq))
    requires PlacedBelow(cf, s, p, wakeup, cur, s', path)
    ensures JoinedWoken(cf, s, p, path, s')
  {
    AboveOnRq(cf.t, s', p, path);
    if cur != cf.t.root {
      AboveOnRq(cf.t, s', cur, path);
    }
    forall x | x in Path(cf.t, p) && x != p && x !in s.onRq && x !in path
      ensures EnteredAt(cf, s, x, s'.vruntime[x])
    {
      ArrivalEnters(cf, s, x, path);
      assert s'.vruntime[x] == ArrivalTime(cf, s, x, wakeup || x != p);
    }
  }

  lemma PlacedStarts(cf: Config, s: State, p: Node, wakeup: bool, path: set<Node>)
    requires WellTyped(cf.t, s) && cf.t.IsTask(p)
    ensures PlacedBelow(cf, s, p, wakeup, p, s, path)
  {
    AboveStep(cf.t, p);
  }

  lemma TreeTimesSame(cf: Config, s: State, p: Node, wakeup: bool, cur: Node, m: State, path: set<Node>)
    requires WellTyped(cf.t, s) && cf.t.IsTask(p) && Enqueuing(cf, s, p, wakeup, cur, m, path)
    requires cur != cf.t.root && cur !in m.onRq
    ensures var g := cf.t.parent(cur);
            && g in m.rq && TimelineOk(m.rq[g], m.vruntime)
            && forall l :: l in InOrder(m.rq[g].tree) ==> l in s.vruntime && m.vruntime[l] == s.vruntime[l]
  {
    var t, g := cf.t, cf.t.parent(cur);
    AboveStep(t, cur);
    assert RqOk(t, m, g, path);
    forall l | l in InOrder(m.rq[g].tree)
      ensures l in s.vruntime && m.vruntime[l] == s.vruntime[l]
    {
      assert Child(t, g, l) && l != cur && l !in path;
      if l in Path(t, p) {
        PathParents(t, p, l, cur);
      }
    }
  }

  /** The queue that `cur` joins still offers the placement it offered at first. */
  lemma ArrivalAsAtFirst(cf: Config, s: State, p: Node, wakeup: bool, cur: Node, m: State, path: set<Node>)
    requires WellTyped(cf.t, s) && cf.t.IsTask(p) && Enqueuing(cf, s, p, wakeup, cur, m, path)
    requires cur != cf.t.root && cur !in m.onRq && cur !in path && Untouched(cf.t, s, cur, m, path)
    ensures var g, w := cf.t.parent(cur), wakeup || cur != p;
            && g in s.rq && HasKeys(s, g) && HasKeys(m, g)
            && ArrivalTime(cf, m, cur, w) == ArrivalTime(cf, s, cur, w)
  {
    var g := cf.t.parent(cur);
    AboveStep(cf.t, cur);
    TreeTimesSame(cf, s, p, wakeup, cur, m, path);
    assert m.rq[g] == s.rq[g];
    LeftmostKeyed(m.rq[g], m.vruntime);
    assert m.vruntime[cur] == s.vruntime[cur];
  }

  lemma UntouchedAbove(t: Topology, s: State, cur: Node, m: State, path: set<Node>, s': State)
    requires WellTyped(t, s) && WellTyped(t, m) && WellTyped(t, s') && t.IsEntity(cur)
    requires Untouched(t, s, cur, m, path) && Local(t, m, s', t.parent(cur))
    requires OnlyTimes(m, s', path + {cur}) && s'.onRq == m.onRq + {cur}
    ensures t.parent(cur) == t.root || t.IsEntity(t.parent(cur))
    ensures Untouched(t, s, t.parent(cur), s', path)
  {
    var g := t.parent(cur);
    AboveStep(t, cur);
    forall h | h in t.groups && g != t.root && t.depth(h) < t.depth(g)
      ensures s'.rq[h] == s.rq[h]
    {
      assert m.rq[h] == s.rq[h];
    }
    forall x | x in Above(t, g) && x !in path
      ensures s'.vruntime[x] == s.vruntime[x]
    {
      assert s'.vruntime[x] == m.vruntime[x];
    }
  }

  /** One level more, told by what it changes. */
  lemma PlacedMore(cf: Config, s: State, p: Node, wakeup: bool, cur: Node, m: State, path: set<Node>, s': State)
    requires WellTyped(cf.t, s) && WellTyped(cf.t, m) && WellTyped(cf.t, s') && cf.t.IsTask(p) && cf.t.IsEntity(cur)
    requires PlacedBelow(cf, s, p, wakeup, cur, m, path) && Local(cf.t, m, s', cf.t.parent(cur))
    requires OnlyTimes(m, s', path + {cur}) && s'.onRq == m.onRq + {cur}
    requires cur !in path ==> cf.t.parent(cur) in s.rq && HasKeys(s, cf.t.parent(cur))
                              && s'.vruntime[cur] == ArrivalTime(cf, s, cur, wakeup || cur != p)
    ensures cf.t.parent(cur) == cf.t.root || cf.t.IsEntity(cf.t.parent(cur))
    ensures PlacedBelow(cf, s, p, wakeup, cf.t.parent(cur), s', path)
  {
    UntouchedAbove(cf.t, s, cur, m, path, s');
    AboveStep(cf.t, cur);
    forall x | x in Path(cf.t, p) && x !in Above(cf.t, cf.t.parent(cur)) && x !in path
      ensures cf.t.parent(x) in s.rq && HasKeys(s, cf.t.parent(x))
      ensures s'.vruntime[x] == ArrivalTime(cf, s, x, wakeup || x != p)
    {
      if x != cur {
        assert s'.vruntime[x] == m.vruntime[x];
      }
    }
  }

  lemma PlacedStep(cf: Config, s: State, p: Node, wakeup: bool, cur: Node, m: State, path: set<Node>)
    requires WellTyped(cf.t, s) && cf.t.IsTask(p) && Enqueuing(cf, s, p, wakeup, cur, m, path)
    requires cur != cf.t.root && cur !in m.onRq && PlacedBelow(cf, s, p, wakeup, cur, m, path)
    ensures var g := cf.t.parent(cur);
            && g in cf.t.groups && (g == cf.t.root || cf.t.IsEntity(g))
            && PlacedBelow(cf, s, p, wakeup, g, EnqueuedEntity(cf, m, g, cur, wakeup || cur != p, path), path)
  {
    var g, w := cf.t.parent(cur), wakeup || cur != p;
    AboveStep(cf.t, cur);
    if cur !in path {
      ArrivalAsAtFirst(cf, s, p, wakeup, cur, m, path);
    }
    PlacedMore(cf, s, p, wakeup, cur, m, path, EnqueuedEntity(cf, m, g, cur, w, path));
  }

  lemma OthersTrans(t: Topology, s: State, m: State, s': State, p: Node, moved: set<Node>, moved': set<Node>, cur: Node)
    requires WellTyped(t, s) && WellTyped(t, m) && WellTyped(t, s') && OthersKept(t, s, m, p, moved)
    requires OnlyTimes(m, s', moved') && forall x :: x in moved' ==> x in moved
    requires s'.onRq == m.onRq + {cur} && (cur == p || !t.IsTask(cur)) && s'.weight == m.weight && s'.clock == m.clock
    ensures OthersKept(t, s, s', p, moved)
  {
    TimesTrans(s, m, s', moved, moved');
  }

  lemma TimesTrans(s: State, m: State, s': State, moved: set<Node>, moved': set<Node>)
    requires OnlyTimes(s, m, moved) && OnlyTimes(m, s', moved') && forall x :: x in moved' ==> x in moved
    ensures OnlyTimes(s, s', moved)
  {
    forall x | x in s.vruntime && x !in moved
      ensures x in s'.vruntime && s'.vruntime[x] == s.vruntime[x]
    {
      assert x in m.vruntime && m.vruntime[x] == s.vruntime[x];
    }
  }

  /** The loop of `dequeue_task_fair` has taken everything below `cur` off its queue. */
  ghost predicate Dequeuing(t: Topology, s: State, p: Node, cur: Node, s': State, path: set<Node>)
    requires WellTyped(t, s) && t.IsTask(p)
  {
    && Consistent(t, s', path, cur) && Forward(t, s, s') && OthersKept(t, s, s', p, path)
    && t.IsEntity(cur) && cur in Path(t, p) && cur in s'.onRq
    && (cur != p ==> p !in s'.onRq && cur in t.groups && s'.rq[cur].nrRunning == 0)
  }

  lemma DequeuedPresent(cf: Config, s: State, g: Node, e: Node, path: set<Node>)
    requires Consistent(cf.t, s, path, e) && g in cf.t.groups && Child(cf.t, g, e) && e in s.onRq
    requires e in cf.t.groups ==> s.rq[e].nrRunning == 0
    ensures var s' := DequeuedEntity(cf, s, g, e, path);
            && Consistent(cf.t, s', path, g) && (g != cf.t.root ==> g in s'.onRq)
            && (s'.rq[g].load > 0 <==> s'.rq[g].nrRunning > 0)
            && (s'.rq[g].nrRunning > 0 || g == cf.t.root ==> Consistent(cf.t, s', path, cf.t.root))
  {
    assert cf.t.depth(g) < cf.t.depth(e);
    MemberCounts(cf.t, s, g, e, path, e);
    var s' := DequeuedEntity(cf, s, g, e, path);
    PresentMovesUp(cf.t, s, g, e, path, s');
    assert RqOk(cf.t, s', g, path);
    LoadIffRunning(s'.rq[g].tasks, s'.weight);
    if s'.rq[g].nrRunning > 0 || g == cf.t.root {
      PresentAgain(cf.t, s', g);
    }
  }

  lemma DequeuingStep(cf: Config, s: State, p: Node, cur: Node, m: State, path: set<Node>)
    requires WellTyped(cf.t, s) && cf.t.IsTask(p) && Dequeuing(cf.t, s, p, cur, m, path)
    ensures var s' := DequeuedEntity(cf, m, cf.t.parent(cur), cur, path);
            Forward(cf.t, s, s') && OthersKept(cf.t, s, s', p, path) && p !in s'.onRq
  {
    assert cf.t.parent(cur) in cf.t.groups;
    var s' := DequeuedEntity(cf, m, cf.t.parent(cur), cur, path);
    ForwardTrans(cf.t, s, m, s');
    TimesTrans(s, m, s', path, path);
  }

  // ----- picking and putting back -----

  /** Nothing below the innermost running entity is current. */
  lemma NoneBelow(t: Topology, s: State, g: Node)
    requires WellTyped(t, s) && g in t.groups && (g == t.root || t.IsEntity(g)) && AllRqsOk(t, s, Above(t, g))
    ensures s.rq[g].curr == None
  {
    assert RqOk(t, s, g, Above(t, g));
    forall c | c in Above(t, g)
      ensures t.parent(c) != g
    {
      assert t.depth(t.parent(c)) < t.depth(c) <= t.depth(g);
    }
  }

  /** The descent of `pick_next_task_fair` has reached `e`: each entity on the way was a fair pick. */
  ghost predicate Picking(cf: Config, s: State, e: Node, s': State)
    requires WellTyped(cf.t, s) && (e == cf.t.root || cf.t.IsEntity(e))
  {
    && Consistent(cf.t, s', Above(cf.t, e), cf.t.root) && Forward(cf.t, s, s')
    && s'.onRq == s.onRq && s'.vruntime == s.vruntime && s'.weight == s.weight && s'.clock == s.clock
    && (e != cf.t.root ==> e in s.onRq)
    && (forall a {:trigger FairPick(cf, s, cf.t.parent(a), a)}
          :: a in Above(cf.t, e) ==> FairPick(cf, s, cf.t.parent(a), a))
    && (forall a {:trigger s'.execStart[a]} :: a in Above(cf.t, e) ==> s'.execStart[a] == s'.clock)
  }

  lemma PickingCanStep(cf: Config, s: State, g: Node, m: State)
    requires WellTyped(cf.t, s) && g in cf.t.groups && (g == cf.t.root || cf.t.IsEntity(g)) && Picking(cf, s, g, m)
    requires m.rq[cf.t.root].nrRunning > 0
    ensures m.rq[g].curr == None && m.rq[g].nrRunning > 0
  {
    NoneBelow(cf.t, m, g);
    assert g != cf.t.root ==> PresentOk(m, g);
  }

  lemma PickingStep(cf: Config, s: State, g: Node, c: Node, m: State)
    requires WellTyped(cf.t, s) && g in cf.t.groups && (g == cf.t.root || cf.t.IsEntity(g)) && Picking(cf, s, g, m)
    requires FairPick(cf, m, g, c) && m.rq[g].curr == None
    ensures Picking(cf, s, c, NextSet(cf, m, g, c, Above(cf.t, g)))
  {
    AboveStep(cf.t, c);
    var s' := NextSet(cf, m, g, c, Above(cf.t, g));
    PresentSame(cf.t, m, g, Above(cf.t, g), s', Above(cf.t, c), cf.t.root);
    ForwardTrans(cf.t, s, m, s');
    FairPickSame(cf, m, s, g, c);
    forall a | a in Above(cf.t, c)
      ensures s'.execStart[a] == s'.clock
    {
      assert a != c ==> a in Above(cf.t, g) && s'.execStart[a] == m.execStart[a];
    }
  }

  lemma FairPickSame(cf: Config, s: State, s': State, g: Node, c: Node)
    requires WellTyped(cf.t, s) && WellTyped(cf.t, s') && FairPick(cf, s, g, c)
    requires s'.onRq == s.onRq && s'.vruntime == s.vruntime && s'.weight == s.weight
    ensures FairPick(cf, s', g, c)
  {
  }

  lemma PickingEnds(cf: Config, s: State, e: Node, s': State)
    requires WellTyped(cf.t, s) && cf.t.IsEntity(e) && Picking(cf, s, e, s')
    ensures Consistent(cf.t, s', Path(cf.t, e), cf.t.root) && e in s'.onRq
  {
  }

  /** The virtual runtime of `x` once everything below `cur` is put back. */
  ghost function PutTime(cf: Config, s: State, prev: Node, cur: Node, x: Node): int
    requires WellTyped(cf.t, s) && cf.t.IsTask(prev) && (cur == cf.t.root || cf.t.IsEntity(cur)) && cf.t.IsEntity(x)
  {
    s.vruntime[x] + if x in Path(cf.t, prev) && x !in Above(cf.t, cur) then Charge(cf, s, x) else 0
  }

  /** The climb of `put_prev_task_fair` has put back everything below `cur`. */
  ghost predicate Putting(cf: Config, s: State, prev: Node, cur: Node, s': State)
    requires WellTyped(cf.t, s) && cf.t.IsTask(prev) && (cur == cf.t.root || cf.t.IsEntity(cur))
  {
    && Consistent(cf.t, s', Above(cf.t, cur), cf.t.root) && Forward(cf.t, s, s')
    && s'.onRq == s.onRq && s'.weight == s.weight && s'.clock == s.clock
    && Above(cf.t, cur) <= Path(cf.t, prev)
    && (forall x {:trigger s'.execStart[x]} :: x in Above(cf.t, cur) ==> s'.execStart[x] == s.execStart[x])
    && (forall x {:trigger s'.vruntime[x]} :: cf.t.IsEntity(x) ==> s'.vruntime[x] == PutTime(cf, s, prev, cur, x))
  }

  /** Every on_rq entity above `p` has run from its last charge until now, and everybody else stood still. */
  ghost predicate PathCharged(cf: Config, s: State, p: Node, s': State)
    requires WellTyped(cf.t, s) && WellTyped(cf.t, s') && cf.t.IsTask(p)
  {
    forall x {:trigger s'.vruntime[x]} :: cf.t.IsEntity(x) && (x in Path(cf.t, p) ==> x in s.onRq) ==>
      var delta := s.clock - s.execStart[x];
      && delta >= 0
      && s'.vruntime[x] - s.vruntime[x] ==
           if x !in Path(cf.t, p) then 0
           else if s.weight[x] == 1024 then delta
           else cf.calcDelta(delta, s.weight[x])
  }

  lemma PutCharges(cf: Config, s: State, prev: Node, s': State)
    requires WellTyped(cf.t, s) && cf.t.IsTask(prev) && Putting(cf, s, prev, cf.t.root, s')
    ensures PathCharged(cf, s, prev, s')
  {
  }

  lemma PuttingCanStep(cf: Config, s: State, prev: Node, cur: Node, m: State)
    requires WellTyped(cf.t, s) && cf.t.IsTask(prev) && cf.t.IsEntity(cur) && Putting(cf, s, prev, cur, m)
    ensures cf.t.parent(cur) in cf.t.groups && m.rq[cf.t.parent(cur)].curr == Some(cur)
  {
    var g := cf.t.parent(cur);
    assert g in cf.t.groups;
    assert RqOk(cf.t, m, g, Above(cf.t, cur));
  }

  lemma PuttingStep(cf: Config, s: State, prev: Node, cur: Node, m: State)
    requires WellTyped(cf.t, s) && cf.t.IsTask(prev) && cf.t.IsEntity(cur) && Putting(cf, s, prev, cur, m)
    requires cf.t.parent(cur) in cf.t.groups && m.rq[cf.t.parent(cur)].curr == Some(cur)
    ensures cf.t.parent(cur) == cf.t.root || cf.t.IsEntity(cf.t.parent(cur))
    ensures Putting(cf, s, prev, cf.t.parent(cur), PrevPut(cf, m, cf.t.parent(cur), cur, Above(cf.t, cur)))
  {
    var t, g := cf.t, cf.t.parent(cur);
    var s' := PrevPut(cf, m, g, cur, Above(t, cur));
    AboveStep(t, cur);
    PresentSame(t, m, g, Above(t, cur), s', Above(t, g), t.root);
    ForwardTrans(t, s, m, s');
    ChargeSame(cf, m, s, cur);
    forall x | t.IsEntity(x)
      ensures s'.vruntime[x] == PutTime(cf, s, prev, g, x)
    {
      PuttingTime(cf, s, prev, cur, m, s', x);
    }
  }

  lemma ChargeSame(cf: Config, s: State, s': State, x: Node)
    requires WellTyped(cf.t, s) && WellTyped(cf.t, s') && cf.t.IsEntity(x)
    requires s'.onRq == s.onRq && s'.weight == s.weight && s'.clock == s.clock && s'.execStart[x] == s.execStart[x]
    ensures Charge(cf, s', x) == Charge(cf, s, x)
  {
  }

  lemma PuttingTime(cf: Config, s: State, prev: Node, cur: Node, m: State, s': State, x: Node)
    requires WellTyped(cf.t, s) && WellTyped(cf.t, m) && WellTyped(cf.t, s') && cf.t.IsTask(prev) && cf.t.IsEntity(cur)
    requires cf.t.IsEntity(x) && m.vruntime[x] == PutTime(cf, s, prev, cur, x) && cur in Path(cf.t, prev)
    requires if x == cur then s'.vruntime[x] == m.vruntime[x] + Charge(cf, s, cur) else s'.vruntime[x] == m.vruntime[x]
    ensures cf.t.parent(cur) == cf.t.root || cf.t.IsEntity(cf.t.parent(cur))
    ensures s'.vruntime[x] == PutTime(cf, s, prev, cf.t.parent(cur), x)
  {
    AboveStep(cf.t, cur);
  }

  /** The virtual runtime of `x` once the tick has charged everything below `cur`. */
  ghost function TickTime(cf: Config, s: State, p: Node, cur: Node, x: Node): int
    requires WellTyped(cf.t, s) && cf.t.IsTask(p) && (cur == cf.t.root || cf.t.IsEntity(cur)) && cf.t.IsEntity(x)
  {
    s.vruntime[x] +
      if x in Path(cf.t, p) && x !in Above(cf.t, cur) then Weighted(cf, s.clock - s.execStart[x], s.weight[x]) else 0
  }

  ghost function TickStart(cf: Config, s: State, p: Node, cur: Node, x: Node): nat
    requires WellTyped(cf.t, s) && cf.t.IsTask(p) && (cur == cf.t.root || cf.t.IsEntity(cur)) && cf.t.IsEntity(x)
  {
    if x in Path(cf.t, p) && x !in Above(cf.t, cur) then s.clock else s.execStart[x]
  }

  /** The loop of `task_tick_fair` has charged every running entity below `cur`, and nothing else. */
  ghost predicate Ticking(cf: Config, s: State, p: Node, cur: Node, s': State)
    requires WellTyped(cf.t, s) && cf.t.IsTask(p) && (cur == cf.t.root || cf.t.IsEntity(cur))
  {
    && Consistent(cf.t, s', Path(cf.t, p), cf.t.root) && Forward(cf.t, s, s') && Above(cf.t, cur) <= Path(cf.t, p)
    && s'.rq == s.rq && s'.onRq == s.onRq && s'.weight == s.weight && s'.clock == s.clock
    && (forall x {:trigger s'.vruntime[x]} :: cf.t.IsEntity(x) ==> s'.vruntime[x] == TickTime(cf, s, p, cur, x))
    && (forall x {:trigger s'.execStart[x]} :: cf.t.IsEntity(x) ==> s'.execStart[x] == TickStart(cf, s, p, cur, x))
  }

  lemma TickCharges(cf: Config, s: State, p: Node, s': State)
    requires WellTyped(cf.t, s) && cf.t.IsTask(p) && Ticking(cf, s, p, cf.t.root, s')
    ensures PathCharged(cf, s, p, s')
  {
  }

  lemma TickingTime(cf: Config, s: State, p: Node, cur: Node, m: State, x: Node)
    requires WellTyped(cf.t, s) && WellTyped(cf.t, m) && cf.t.IsTask(p) && cf.t.IsEntity(cur) && cf.t.IsEntity(x)
    requires cur in Path(cf.t, p) && m.weight == s.weight && m.clock == s.clock
    requires cf.t.parent(cur) in cf.t.groups && m.rq[cf.t.parent(cur)].curr == Some(cur)
    requires forall y :: y in {x, cur} ==>
               m.vruntime[y] == TickTime(cf, s, p, cur, y) && m.execStart[y] == TickStart(cf, s, p, cur, y)
    ensures cf.t.parent(cur) == cf.t.root || cf.t.IsEntity(cf.t.parent(cur))
    ensures var r := UpdatedCurr(cf, m, cf.t.parent(cur));
            && r.vruntime[x] == TickTime(cf, s, p, cf.t.parent(cur), x)
            && r.execStart[x] == TickStart(cf, s, p, cf.t.parent(cur), x)
  {
    AboveStep(cf.t, cur);
    assert cur in {x, cur} && x in {x, cur};
    if x == cur {
      assert x in Path(cf.t, p) && x !in Above(cf.t, cf.t.parent(cur));
    } else {
      assert x in Above(cf.t, cur) <==> x in Above(cf.t, cf.t.parent(cur));
    }
  }

  lemma TickingStep(cf: Config, s: State, p: Node, cur: Node, m: State)
    requires WellTyped(cf.t, s) && cf.t.IsTask(p) && cf.t.IsEntity(cur) && Ticking(cf, s, p, cur, m)
    ensures var g := cf.t.parent(cur);
            && g in cf.t.groups && (g == cf.t.root || cf.t.IsEntity(g)) && cf.t.depth(g) < cf.t.depth(cur)
            && m.rq[g].curr == Some(cur) && Ticking(cf, s, p, g, UpdatedCurr(cf, m, g))
  {
    var t, g := cf.t, cf.t.parent(cur);
    AboveStep(t, cur);
    TickingCurr(t, m, p, cur);
    var s' := UpdatedCurr(cf, m, g);
    UpdatedCurrKeeps(cf, m, g, Path(t, p));
    PresentSame(t, m, g, Path(t, p), s', Path(t, p), t.root);
    ForwardTrans(t, s, m, s');
    forall x | t.IsEntity(x)
      ensures s'.vruntime[x] == TickTime(cf, s, p, g, x) && s'.execStart[x] == TickStart(cf, s, p, g, x)
    {
      TickingTime(cf, s, p, cur, m, x);
    }
  }

  /** A running entity is current on its queue. */
  lemma TickingCurr(t: Topology, s: State, p: Node, cur: Node)
    requires WellTyped(t, s) && t.IsTask(p) && t.IsEntity(cur) && cur in Path(t, p) && AllRqsOk(t, s, Path(t, p))
    ensures t.parent(cur) in t.groups && s.rq[t.parent(cur)].curr == Some(cur)
  {
    assert t.parent(cur) in t.groups;
    assert RqOk(t, s, t.parent(cur), Path(t, p));
  }

  /** The climb of `set_curr_task_fair` has made everything below `cur` current. */
  ghost predicate Setting(t: Topology, s: State, p: Node, cur: Node, s': State)
    requires WellTyped(t, s) && t.IsTask(p) && (cur == t.root || t.IsEntity(cur))
  {
    && Consistent(t, s', Path(t, p) - Above(t, cur), t.root) && Forward(t, s, s') && Above(t, cur) <= Path(t, p)
    && s'.onRq == s.onRq && s'.vruntime == s.vruntime && s'.weight == s.weight && s'.clock == s.clock
  }

  lemma SettingStarts(t: Topology, s: State, p: Node)
    requires Consistent(t, s, {}, t.root) && t.IsTask(p)
    ensures Setting(t, s, p, p, s)
  {
    assert Path(t, p) - Above(t, p) == {};
  }

  /** Nothing is current where the climb of `set_curr_task_fair` stands. */
  lemma SettingCanStep(t: Topology, s: State, p: Node, cur: Node, m: State)
    requires WellTyped(t, s) && t.IsTask(p) && t.IsEntity(cur) && Setting(t, s, p, cur, m)
    ensures var g := t.parent(cur);
            && g in t.groups && (g == t.root || t.IsEntity(g)) && t.depth(g) < t.depth(cur) && m.rq[g].curr == None
  {
    AboveStep(t, cur);
    assert RqOk(t, m, t.parent(cur), Path(t, p) - Above(t, cur));
    PathAlone(t, p, cur);
  }

  lemma SettingStep(cf: Config, s: State, p: Node, cur: Node, m: State)
    requires WellTyped(cf.t, s) && cf.t.IsTask(p) && cf.t.IsEntity(cur) && Setting(cf.t, s, p, cur, m)
    requires cf.t.parent(cur) in cf.t.groups && m.rq[cf.t.parent(cur)].curr == None
    ensures cf.t.parent(cur) == cf.t.root || cf.t.IsEntity(cf.t.parent(cur))
    ensures Setting(cf.t, s, p, cf.t.parent(cur),
                    NextSet(cf, m, cf.t.parent(cur), cur, Path(cf.t, p) - Above(cf.t, cur)))
  {
    var t, g, path := cf.t, cf.t.parent(cur), Path(cf.t, p) - Above(cf.t, cur);
    AboveStep(t, cur);
    var s' := NextSet(cf, m, g, cur, path);
    assert path + {cur} == Path(t, p) - Above(t, g);
    PresentSame(t, m, g, path, s', path + {cur}, t.root);
    ForwardTrans(t, s, m, s');
  }

  lemma ParentTimeline(cf: Config, s: State, p: Node, path: set<Node>)
    requires Consistent(cf.t, s, path, cf.t.root) && cf.t.IsTask(p)
    ensures cf.t.parent(p) in s.rq && TimelineOk(s.rq[cf.t.parent(p)], s.vruntime)
    ensures var q := s.rq[cf.t.parent(p)];
            PlaceBase(q, s.vruntime) == if q.leftmost.Some? then s.vruntime[q.leftmost.value] else q.minVruntime
  {
    assert cf.t.parent(p) in cf.t.groups && RqOk(cf.t, s, cf.t.parent(p), path);
    PlaceBaseIs(s.rq[cf.t.parent(p)], s.vruntime);
  }

  lemma EnqueuingStarts(cf: Config, s: State, p: Node, wakeup: bool, path: set<Node>)
    requires Consistent(cf.t, s, path, cf.t.root) && cf.t.IsTask(p) && p !in s.onRq
    ensures Enqueuing(cf, s, p, wakeup, p, s, path)
  {
  }

  lemma EnqueuingEnds(cf: Config, s: State, p: Node, wakeup: bool, cur: Node, s': State, path: set<Node>)
    requires WellTyped(cf.t, s) && cf.t.IsTask(p) && p !in s.onRq && Enqueuing(cf, s, p, wakeup, cur, s', path)
    requires cur == cf.t.root || cur in s'.onRq
    ensures Consistent(cf.t, s', path, cf.t.root) && p in s'.onRq
    ensures Forward(cf.t, s, s') && OthersKept(cf.t, s, s', p, path + Path(cf.t, p))
    ensures p !in path ==> HasKeys(s, cf.t.parent(p)) && s'.vruntime[p] == ArrivalTime(cf, s, p, wakeup)
  {
    if cur != cf.t.root {
      PresentAgain(cf.t, s', cur);
    }
  }

  lemma DequeuingStarts(t: Topology, s: State, p: Node, path: set<Node>)
    requires Consistent(t, s, path, t.root) && t.IsTask(p) && p in s.onRq
    ensures Dequeuing(t, s, p, p, s, path)
  {
  }

  // ----- new tasks -----

  lemma RunningIsCurr(cf: Config, s: State, p: Node, running: Option<Node>, path: set<Node>)
    requires WellTyped(cf.t, s) && AllRqsOk(cf.t, s, path) && cf.t.IsTask(p)
    requires running.Some? ==> cf.t.IsTask(running.value) && path == Path(cf.t, running.value)
    ensures cf.t.parent(p) in cf.t.groups
    ensures running.Some? && cf.t.parent(running.value) == cf.t.parent(p) ==>
              s.rq[cf.t.parent(p)].curr == running
  {
    var g := cf.t.parent(p);
    assert RqOk(cf.t, s, g, path);
    assert running.Some? && cf.t.parent(running.value) == g ==> running.value in path && Child(cf.t, g, running.value);
  }

  /** `task_new_fair` before it enqueues: the new task is `debit` behind the others or, if it is to run
      first, takes the place of the running sibling when that is earlier, and gives it its own. */
  ghost predicate NewlyPlaced(cf: Config, s: State, p: Node, debit: nat, childRunsFirst: bool, s': State) {
    var g := cf.t.parent(p);
    && WellTyped(cf.t, s) && WellTyped(cf.t, s') && cf.t.IsEntity(p) && g in cf.t.groups
    && (s.rq[g].curr.Some? ==> cf.t.IsEntity(s.rq[g].curr.value))
    && var m := UpdatedCurr(cf, s, g);
       HasKeys(m, g) && s' == m.(vruntime := s'.vruntime)
       && var v, curr := PlaceBase(m.rq[g], m.vruntime) + debit, m.rq[g].curr;
          && s'.vruntime[p] == (if childRunsFirst && curr.Some? then Min(v, m.vruntime[curr.value]) else v)
          && forall x {:trigger s'.vruntime[x]} :: cf.t.IsEntity(x) && x != p ==>
               s'.vruntime[x] == if childRunsFirst && curr == Some(x) then Max(v, m.vruntime[x]) else m.vruntime[x]
  }

  lemma NewTaskPlaced(cf: Config, s: State, s': State, g: Node, p: Node, path: set<Node>)
    requires WellTyped(cf.t, s) && Kept(cf.t, s, g, path, s', path) && g in cf.t.groups && Child(cf.t, g, p)
    requires PresentOff(cf.t, s, cf.t.root) && s'.onRq == s.onRq && s'.rq == s.rq
    ensures HasKeys(s', g) && Consistent(cf.t, s', path, cf.t.root)
    ensures s'.rq[g].curr.Some? ==> Child(cf.t, g, s'.rq[g].curr.value)
  {
    assert RqOk(cf.t, s', g, path);
    LeftmostKeyed(s'.rq[g], s'.vruntime);
    PresentSame(cf.t, s, g, path, s', path, cf.t.root);
  }

  /** The same told from the state before: a new task starts the debit behind the earliest queued entity, and
      the running entity of the queue, charged up to now, goes before it unless the child is to run first. */
  ghost predicate StartsBehind(cf: Config, s: State, p: Node, debit: nat, childRunsFirst: bool, s': State) {
    var g := cf.t.parent(p);
    && g in s.rq && p in s'.vruntime && (s.rq[g].leftmost.Some? ==> s.rq[g].leftmost.value in s.vruntime)
    && var v := (if s.rq[g].leftmost.Some? then s.vruntime[s.rq[g].leftmost.value] else s.rq[g].minVruntime) + debit;
       if s.rq[g].curr.None? then s'.vruntime[p] == v
       else
         var c := s.rq[g].curr.value;
         && c in s.vruntime && c in s.execStart && c in s.weight && c in s'.vruntime && s.execStart[c] <= s.clock
         && var delta := s.clock - s.execStart[c];
            var now := s.vruntime[c] + if s.weight[c] == 1024 then delta else cf.calcDelta(delta, s.weight[c]);
            if childRunsFirst && now < v then s'.vruntime[p] == now && s'.vruntime[c] == v
            else s'.vruntime[p] == v && s'.vruntime[c] == now
  }

  lemma NewTaskStarts(cf: Config, s: State, p: Node, debit: nat, childRunsFirst: bool, s': State, path: set<Node>)
    requires WellTyped(cf.t, s) && AllRqsOk(cf.t, s, path) && p !in s.onRq && p !in path
    requires NewlyPlaced(cf, s, p, debit, childRunsFirst, s')
    ensures StartsBehind(cf, s, p, debit, childRunsFirst, s')
  {
    var g := cf.t.parent(p);
    UpdatedCurrKeeps(cf, s, g, path);
    var m := UpdatedCurr(cf, s, g);
    assert RqOk(cf.t, s, g, path) && RqOk(cf.t, m, g, path);
    LeftmostKeyed(m.rq[g], m.vruntime);
    PlaceBaseIs(m.rq[g], m.vruntime);
    if s.rq[g].leftmost.Some? {
      assert InOrder(s.rq[g].tree)[0] in InOrder(s.rq[g].tree);
    }
  }

  lemma OneTime(t: Topology, s: State, e: Node, v: int, path: set<Node>)
    requires Consistent(t, s, path, t.root) && t.IsEntity(e) && t.parent(e) in t.groups && Outside(t, s, e)
    ensures Consistent(t, s.(vruntime := s.vruntime[e := v]), path, t.root)
  {
    var s' := s.(vruntime := s.vruntime[e := v]);
    TimedKeeps(t, s, e, v, s.execStart[e], path);
    assert Timed(s, e, v, s.execStart[e]) == s';
    forall g | g in t.groups && g != t.root
      ensures PresentOk(s', g)
    {
      assert PresentOk(s, g);
    }
  }

  lemma TwoTimes(t: Topology, s: State, e: Node, v: int, d: Node, w: int, path: set<Node>)
    requires Consistent(t, s, path, t.root) && t.IsEntity(e) && t.parent(e) in t.groups && e !in s.onRq
    requires t.IsEntity(d) && t.parent(d) in t.groups && s.rq[t.parent(d)].curr == Some(d)
    ensures Consistent(t, s.(vruntime := s.vruntime[e := v][d := w]), path, t.root)
  {
    OneTime(t, s, e, v, path);
    OneTime(t, s.(vruntime := s.vruntime[e := v]), d, w, path);
  }

  // ----- wake-up preemption -----

  ghost function Height(t: Topology, e: Node): (h: nat)
    requires t.Valid() && (e == t.root || t.IsEntity(e))
    decreases if e == t.root then 0 else t.depth(e) + 1
  {
    if e == t.root then 0
    else
      AboveStep(t, e);
      1 + Height(t, t.parent(e))
  }

  lemma HeightPositive(t: Topology, e: Node)
    requires t.Valid() && t.IsEntity(e)
    ensures Height(t, e) > 0
  {
  }

  lemma ParentAbove(t: Topology, n: Node, e: Node)
    requires t.Valid() && t.IsEntity(n) && e in Path(t, n)
    ensures var g := t.parent(e);
            && g in t.groups && t.depth(g) < t.depth(e) && (g == t.root || g in Path(t, n))
            && Height(t, e) == 1 + (if g == t.root then 0 else Height(t, g))
  {
    AboveStep(t, e);
  }

  /** `se` and `pse` lie above two tasks, side by side on one `cfs_rq`. */
  ghost predicate Siblings(t: Topology, p: Node, q: Node, se: Node, pse: Node)
    requires t.Valid() && t.IsEntity(p) && t.IsEntity(q)
  {
    se in Path(t, p) && pse in Path(t, q) && se != pse && t.parent(se) == t.parent(pse)
  }

  lemma NextRq(t: Topology, s: State, g: Node, p: Node, path: set<Node>)
    requires g in s.rq && RqOk(t, s, g, path) && Child(t, g, p) && p in s.onRq && p !in path
    ensures RqOk(t, Put(s, g, s.rq[g].(next := Some(p))), g, path)
  {
    assert p in InOrder(s.rq[g].tree);
  }

  /** A woken task that does not run is in the tree, so `next` may point to it. */
  lemma NextKeeps(t: Topology, s: State, p: Node, curr: Node)
    requires t.Valid() && t.IsTask(curr) && Consistent(t, s, Path(t, curr), t.root)
    requires t.IsTask(p) && p in s.onRq && p != curr
    ensures t.parent(p) in t.groups
    ensures var s' := Put(s, t.parent(p), s.rq[t.parent(p)].(next := Some(p)));
            Consistent(t, s', Path(t, curr), t.root) && Forward(t, s, s')
  {
    var g, path := t.parent(p), Path(t, curr);
    assert g in t.groups && RqOk(t, s, g, path);
    assert p !in path;
    var s' := Put(s, g, s.rq[g].(next := Some(p)));
    NextRq(t, s, g, p, path);
    LocalKeeps(t, s, s', g, path, path);
    PresentSame(t, s, g, path, s', path, t.root);
  }
}
