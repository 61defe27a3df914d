/** Which tasks the descent of `pick_next_task_rt` can reach (hw4/sched_rt.c).
 */
module RtPicks {
  import opened GroupTree
  import opened RtLimits
  import opened RtQueues

  /** A task all of whose ancestors are queued: one that `pick_next_task_rt` can reach. */
  ghost predicate Reachable(t: Topology, s: State, u: Node)
    requires WellTyped(t, s)
  {
    t.IsTask(u) && forall a :: a in Path(t, u) ==> Linked(t, s, a)
  }

  /** A queued task none of whose groups is throttled (without being boosted). */
  ghost predicate Runnable(t: Topology, s: State, u: Node)
    requires WellTyped(t, s)
  {
    t.IsTask(u) && Linked(t, s, u)
    && forall a {:trigger a in Path(t, u)} :: a in Path(t, u) && a != u ==>
         !(s.rq[a].throttled && s.rq[a].nrBoosted == 0)
  }

  /** In a consistent hierarchy, being reachable and being runnable is the same. */
  lemma ReachableIffRunnable(t: Topology, s: State, u: Node)
    requires Consistent(t, s)
    ensures Reachable(t, s, u) <==> Runnable(t, s, u)
  {
    if Reachable(t, s, u) {
      forall a | a in Path(t, u) && a != u
        ensures !(s.rq[a].throttled && s.rq[a].nrBoosted == 0)
      {
        assert Present(t, s, a);
      }
    }
    if Runnable(t, s, u) {
      RunnableChain(t, s, u, u);
    }
  }

  lemma {:induction false} RunnableChain(t: Topology, s: State, u: Node, a: Node)
    requires Consistent(t, s) && Runnable(t, s, u) && a in Path(t, u) && Linked(t, s, a)
    requires Path(t, a) <= Path(t, u)
    ensures forall b :: b in Path(t, a) ==> Linked(t, s, b)
    decreases t.depth(a)
  {
    var g := t.parent(a);
    if g != t.root {
      assert g in Path(t, a) && t.IsEntity(g);
      assert RqOk(s.rq[g]) && a in s.rq[g].linked.Keys;
      assert Present(t, s, g);
      RunnableChain(t, s, u, g);
    }
  }

  /** The cached priority of every group above a reachable task, the root included, is at least as urgent as
      the task. */
  lemma {:induction false} HighestBounds(t: Topology, s: State, a: Node)
    requires QueuesOk(t, s) && t.IsEntity(a) && forall b :: b in Path(t, a) ==> Linked(t, s, b)
    ensures s.rq[t.root].highestPrio <= Prio(t, s, a)
    ensures forall b {:trigger t.parent(b)} :: b in Path(t, a) ==>
              t.parent(b) in s.rq && s.rq[t.parent(b)].highestPrio <= Prio(t, s, a)
    decreases t.depth(a)
  {
    var g := t.parent(a);
    assert RqOk(s.rq[g]) && MembersOk(t, s, g);
    assert a in Path(t, a) && a in s.rq[g].linked;
    NonEmptyHasPrio(s.rq[g]);
    if g != t.root {
      assert t.IsEntity(g);
      HighestBounds(t, s, g);
    }
  }

  /** `u` and each of its groups is at the head of the most urgent non-empty list above it. */
  ghost predicate HeadsItsLists(t: Topology, s: State, u: Node)
    requires WellTyped(t, s) && t.IsEntity(u)
  {
    forall a :: a in Path(t, u) ==>
      var q := s.rq[t.parent(a)];
      q.highestPrio < |q.queue| && q.queue[q.highestPrio] != [] && q.queue[q.highestPrio][0] == a
  }

  /** The head of the most urgent list of a non-empty `rt_rq` is one of its entities, and its
      priority is `highest_prio`. */
  lemma HeadIsLinked(t: Topology, s: State, n: Node)
    requires QueuesOk(t, s) && n in t.groups && s.rq[n].nrRunning > 0
    ensures var q := s.rq[n];
            && q.highestPrio < MAX_RT_PRIO == |q.queue| && q.queue[q.highestPrio] != []
            && var e := q.queue[q.highestPrio][0];
               t.IsEntity(e) && t.parent(e) == n && Linked(t, s, e) && Prio(t, s, e) == q.highestPrio
  {
    assert RqOk(s.rq[n]) && MembersOk(t, s, n);
    NonEmptyHasPrio(s.rq[n]);
    var q := s.rq[n];
    assert q.highestPrio in q.bitmap;
    assert q.queue[q.highestPrio][0] in q.queue[q.highestPrio];
  }

  /** No runnable task is more urgent than `highest_prio` of the root, and there is one only if the
      root's `rt_rq` is not empty. */
  lemma RunnableBounded(t: Topology, s: State, u: Node)
    requires Consistent(t, s) && Runnable(t, s, u)
    ensures s.rq[t.root].highestPrio <= s.prio[u] && s.rq[t.root].nrRunning > 0
  {
    ReachableIffRunnable(t, s, u);
    HighestBounds(t, s, u);
    assert RqOk(s.rq[t.root]);
    NonEmptyHasPrio(s.rq[t.root]);
  }

  // ----- what suspends throttling -----

  /** `u` and the groups between it and `n` are queued. */
  ghost predicate QueuedBelow(t: Topology, s: State, u: Node, n: Node)
    requires WellTyped(t, s) && t.IsEntity(u)
    decreases t.depth(u)
  {
    Linked(t, s, u)
    && (t.parent(u) == n || (t.IsEntity(t.parent(u)) && QueuedBelow(t, s, t.parent(u), n)))
  }

  /** A task with a raised priority (by priority inheritance). */
  ghost predicate Raised(t: Topology, s: State, u: Node)
    requires WellTyped(t, s)
  {
    t.IsTask(u) && s.prio[u] != s.normalPrio[u]
  }

  lemma {:induction false} QueuedFurther(t: Topology, s: State, u: Node, e: Node)
    requires WellTyped(t, s) && t.IsEntity(u) && QueuedBelow(t, s, u, e) && t.IsEntity(e) && Linked(t, s, e)
    ensures QueuedBelow(t, s, u, t.parent(e))
    decreases t.depth(u)
  {
    if t.parent(u) != e {
      QueuedFurther(t, s, t.parent(u), e);
    }
  }

  lemma {:induction false} RaisedCounts(t: Topology, s: State, u: Node, n: Node)
    requires QueuesOk(t, s) && n in t.groups && t.IsEntity(u) && QueuedBelow(t, s, u, n)
    requires if t.IsTask(u) then Raised(t, s, u) else s.rq[u].nrBoosted > 0
    ensures s.rq[n].nrBoosted > 0
    decreases t.depth(u)
  {
    var g := t.parent(u);
    assert MembersOk(t, s, g) && u in s.rq[g].linked.Keys;
    assert u in BoostedIn(t, s, s.rq[g].linked.Keys);
    if g != n {
      RaisedCounts(t, s, g, n);
    }
  }

  lemma {:induction false} FindRaised(t: Topology, s: State, n: Node) returns (u: Node)
    requires QueuesOk(t, s) && n in t.groups && s.rq[n].nrBoosted > 0
    ensures Raised(t, s, u) && QueuedBelow(t, s, u, n)
    decreases t.maxDepth - t.depth(n)
  {
    assert MembersOk(t, s, n);
    assert BoostedIn(t, s, s.rq[n].linked.Keys) != {};
    var e :| e in BoostedIn(t, s, s.rq[n].linked.Keys);
    assert e in s.rq[n].linked && t.parent(e) == n;
    if e in t.groups {
      u := FindRaised(t, s, e);
      QueuedFurther(t, s, u, e);
    } else {
      u := e;
    }
  }

  /** A group counts as boosted exactly when a task with a raised priority is queued below it, through queued
      groups only. */
  lemma BoostedIffRaised(t: Topology, s: State, n: Node)
    requires QueuesOk(t, s) && n in t.groups
    ensures s.rq[n].nrBoosted > 0 <==> exists u :: Raised(t, s, u) && QueuedBelow(t, s, u, n)
  {
    if s.rq[n].nrBoosted > 0 {
      var u := FindRaised(t, s, n);
    }
    if u :| Raised(t, s, u) && QueuedBelow(t, s, u, n) {
      RaisedCounts(t, s, u, n);
    }
  }
}
