/** Taking the stack of an entity off its queues and putting it back (hw4/sched_rt.c, `dequeue_rt_stack`,
    `enqueue_rt_entity`, `dequeue_rt_entity`): what the loops up and down the hierarchy keep.
 */
module RtStacks {
  import opened GroupTree
  import opened RtLimits
  import opened RtQueues

  /** `s'` differs from `s` only in that every entity of `gone` was unlinked and those of `done` that
      are linked again went to the tail of a list. */
  ghost predicate Restacked(t: Topology, s: State, gone: set<Node>, done: set<Node>, s': State)
    requires WellTyped(t, s) && WellTyped(t, s') && forall c :: c in gone ==> t.IsEntity(c)
  {
    && s'.prio == s.prio && s'.normalPrio == s.normalPrio
    && (forall n {:trigger s'.rq[n]} :: n in t.groups && (forall c :: c in gone ==> t.parent(c) != n) ==>
          s'.rq[n] == s.rq[n])
    && (forall c {:trigger c in gone} :: c in gone ==>
          Relinked(s.rq[t.parent(c)], c, c in done, s'.rq[t.parent(c)]))
  }

  ghost predicate SameBudget(q: RtRq, q': RtRq) {
    q'.throttled == q.throttled && q'.rtTime == q.rtTime && q'.rtRuntime == q.rtRuntime
  }

  /** One `rt_rq` on the path: entity `c` unlinked, and linked again at a tail only if `done`. */
  ghost predicate Relinked(q: RtRq, c: Node, done: bool, q': RtRq) {
    && SameBudget(q, q')
    && |q.queue| == |q'.queue| == MAX_RT_PRIO
    && q'.linked - {c} == q.linked - {c}
    && (c in q'.linked ==> done)
    && (forall i :: 0 <= i < MAX_RT_PRIO ==>
          q'.queue[i] == FilterOut(q.queue[i], {c})
                         + if c in q'.linked && q'.linked[c] == i then [c] else [])
  }

  /** The entity is the last of the list of its priority, and of no other. */
  ghost predicate AtTail(q: RtRq, c: Node, p: nat) {
    && p < |q.queue| && |q.queue[p]| > 0 && q.queue[p][|q.queue[p]| - 1] == c
    && (forall i :: 0 <= i < |q.queue| && i != p ==> c !in q.queue[i])
    && c !in q.queue[p][..|q.queue[p]| - 1]
  }

  lemma RelinkedRemove(q: RtRq, e: Node, boosted: bool)
    requires RqOk(q) && e in q.linked && (boosted ==> q.nrBoosted > 0)
    ensures Relinked(q, e, false, Removed(q, e, q.linked[e], boosted))
  {
    forall i | 0 <= i < MAX_RT_PRIO && i != q.linked[e]
      ensures FilterOut(q.queue[i], {e}) == q.queue[i]
    {
      FilterOutNothing(q.queue[i], {e});
    }
  }

  lemma RelinkedSkip(q: RtRq, e: Node)
    requires RqOk(q) && e !in q.linked
    ensures Relinked(q, e, false, q)
  {
    forall i | 0 <= i < MAX_RT_PRIO
      ensures FilterOut(q.queue[i], {e}) == q.queue[i]
    {
      FilterOutNothing(q.queue[i], {e});
    }
  }

  lemma RelinkedAdd(q: RtRq, e: Node, q': RtRq, p: nat, boosted: bool)
    requires Relinked(q, e, false, q') && p < MAX_RT_PRIO
    ensures Relinked(q, e, true, Added(q', e, p, boosted))
  {
    var q'' := Added(q', e, p, boosted);
    assert q''.linked - {e} == q'.linked - {e};
  }

  /** One more entity unlinked; it shares its `rt_rq` with none of those already `gone`. */
  lemma RestackedPut(t: Topology, s: State, gone: set<Node>, s': State, e: Node, q: RtRq)
    requires WellTyped(t, s) && WellTyped(t, s') && t.IsEntity(e)
    requires forall c :: c in gone ==> t.IsEntity(c) && t.parent(c) != t.parent(e)
    requires Restacked(t, s, gone, {}, s') && Relinked(s'.rq[t.parent(e)], e, false, q)
    ensures Restacked(t, s, gone + {e}, {}, Put(s', t.parent(e), q))
  {
  }

  lemma RestackedDequeue(t: Topology, s: State, gone: set<Node>, s': State, e: Node)
    requires WellTyped(t, s) && QueuesOk(t, s') && t.IsEntity(e) && Linked(t, s', e)
    requires forall c :: c in gone ==> t.IsEntity(c) && t.parent(c) != t.parent(e)
    requires Restacked(t, s, gone, {}, s')
    ensures Restacked(t, s, gone + {e}, {}, Dequeued(t, s', e))
  {
    DequeueHasCounts(t, s', e);
    RelinkedRemove(s'.rq[t.parent(e)], e, Boosted(t, s', e));
    RestackedPut(t, s, gone, s', e, Dequeued(t, s', e).rq[t.parent(e)]);
  }

  lemma RestackedSkip(t: Topology, s: State, gone: set<Node>, s': State, e: Node)
    requires WellTyped(t, s) && QueuesOk(t, s') && t.IsEntity(e) && !Linked(t, s', e)
    requires forall c :: c in gone ==> t.IsEntity(c) && t.parent(c) != t.parent(e)
    requires Restacked(t, s, gone, {}, s')
    ensures Restacked(t, s, gone + {e}, {}, s')
  {
    var n := t.parent(e);
    assert RqOk(s'.rq[n]);
    RelinkedSkip(s'.rq[n], e);
    RestackedPut(t, s, gone, s', e, s'.rq[n]);
    assert Put(s', n, s'.rq[n]) == s';
  }

  lemma RestackedEnqueue(t: Topology, s: State, path: set<Node>, done: set<Node>, s': State, e: Node)
    requires WellTyped(t, s) && QueuesOk(t, s') && (forall c :: c in path ==> t.IsEntity(c))
    requires e in path && e !in done && forall c :: c in path && c != e ==> t.parent(c) != t.parent(e)
    requires Restacked(t, s, path, done, s') && WellTyped(t, Enqueued(t, s', e))
    ensures Restacked(t, s, path, done + {e}, Enqueued(t, s', e))
  {
    var q, q' := s.rq[t.parent(e)], s'.rq[t.parent(e)];
    if !Refused(t, s', e) {
      EnqueueHasPrio(t, s', e);
      RelinkedAdd(q, e, q', Prio(t, s', e), Boosted(t, s', e));
      var s'' := Enqueued(t, s', e);
      forall c | c in path
        ensures Relinked(s.rq[t.parent(c)], c, c in done + {e}, s''.rq[t.parent(c)])
      {
        assert c != e ==> s''.rq[t.parent(c)] == s'.rq[t.parent(c)];
      }
    }
  }

  ghost function Elements(q: seq<Node>): set<Node> {
    set e | e in q
  }

  lemma ElementsNext(q: seq<Node>, k: nat)
    requires k < |q|
    ensures Elements(q[..k + 1]) == Elements(q[..k]) + {q[k]}
  {
  }

  /** The entities linked by their `back` pointers, outermost first: the outermost hangs below `top`. */
  ghost predicate Chain(t: Topology, back: seq<Node>, top: Node) {
    && back != []
    && (forall i :: 0 <= i < |back| ==> t.IsEntity(back[i]))
    && t.parent(back[0]) == top
    && (forall i {:trigger back[i]} :: 0 < i < |back| ==> t.parent(back[i]) == back[i - 1])
  }

  lemma {:induction false} ChainDepth(t: Topology, back: seq<Node>, j: nat, k: nat)
    requires t.Valid() && Chain(t, back, t.root) && j < k < |back|
    ensures t.depth(back[j]) < t.depth(back[k])
  {
    assert t.parent(back[k]) == back[k - 1];
    if j < k - 1 {
      ChainDepth(t, back, j, k - 1);
    }
  }

  lemma ChainDistinct(t: Topology, e: Node, back: seq<Node>, k: nat)
    requires t.Valid() && t.IsEntity(e) && Chain(t, back, t.root) && k < |back|
    requires Elements(back) == Path(t, e)
    ensures back[k] !in Elements(back[..k])
    ensures forall c :: c in Elements(back[..k]) ==> t.IsEntity(c) && t.parent(c) != t.parent(back[k])
    ensures t.parent(back[k]) == if k == 0 then t.root else back[k - 1]
  {
    forall j | 0 <= j < k
      ensures t.parent(back[j]) != t.parent(back[k])
    {
      ChainDepth(t, back, j, k);
      assert back[j] in Elements(back) && back[k] in Elements(back);
      if t.parent(back[j]) == t.parent(back[k]) {
        PathParents(t, e, back[j], back[k]);
      }
    }
  }

  /** The chain of `back` pointers from `e` up to `cur`. */
  ghost predicate Backing(t: Topology, e: Node, back: seq<Node>, cur: Node)
    requires t.Valid() && t.IsEntity(e)
  {
    && (cur == t.root || t.IsEntity(cur)) && (back == [] ==> cur == e) && (back != [] ==> Chain(t, back, cur))
    && Path(t, e) == Elements(back) + Above(t, cur)
  }

  lemma ChainNext(t: Topology, back: seq<Node>, cur: Node)
    requires t.IsEntity(cur) && (back != [] ==> Chain(t, back, cur))
    ensures Chain(t, [cur] + back, t.parent(cur)) && Elements([cur] + back) == {cur} + Elements(back)
  {
    forall i | 0 < i < |[cur] + back|
      ensures t.parent(([cur] + back)[i]) == ([cur] + back)[i - 1] && t.IsEntity(([cur] + back)[i])
    {
      assert ([cur] + back)[i] == back[i - 1];
    }
  }

  lemma BackNext(t: Topology, e: Node, back: seq<Node>, cur: Node)
    requires t.Valid() && t.IsEntity(e) && Backing(t, e, back, cur) && cur != t.root
    ensures Backing(t, e, [cur] + back, t.parent(cur))
    ensures t.parent(cur) == t.root || t.depth(t.parent(cur)) < t.depth(cur)
  {
    ChainNext(t, back, cur);
    AboveStep(t, cur);
  }

  /** `dequeue_rt_stack` of `e` after `k` rounds of its second loop. */
  ghost predicate Unwinding(t: Topology, s: State, e: Node, back: seq<Node>, k: nat, s': State) {
    && WellTyped(t, s) && QueuesOk(t, s') && t.IsEntity(e) && k <= |back|
    && Chain(t, back, t.root) && Elements(back) == Path(t, e)
    && (forall c :: c in Elements(back[..k]) ==> t.IsEntity(c))
    && Restacked(t, s, Elements(back[..k]), {}, s')
  }

  /** Re-enqueueing bottom-up after `dequeue_rt_stack(e)`, with `cur` the next entity to treat:
      `cur` and its ancestors are still unlinked. */
  ghost predicate Climbing(t: Topology, s: State, e: Node, cur: Node, s': State) {
    && WellTyped(t, s) && QueuesOk(t, s') && t.IsEntity(e)
    && (cur == t.root || cur in Path(t, e)) && Above(t, cur) <= Path(t, e)
    && Restacked(t, s, Path(t, e), Path(t, e) - Above(t, cur), s')
  }

  lemma StackPresent(t: Topology, s: State, e: Node, s': State)
    requires WellTyped(t, s) && WellTyped(t, s') && t.IsEntity(e)
    requires Restacked(t, s, Path(t, e), {}, s') && PresentOff(t, s, Path(t, e))
    ensures PresentOff(t, s', Path(t, e))
  {
    forall g | g in t.groups && g != t.root && g !in Path(t, e)
      ensures Present(t, s', g)
    {
      assert t.IsEntity(g) && Present(t, s, g);
      assert s'.rq[g] == s.rq[g];
      UnlinkedElsewhere(t, s, Path(t, e), {}, s', g);
    }
  }

  /** An entity off the path keeps its link. */
  lemma UnlinkedElsewhere(t: Topology, s: State, gone: set<Node>, done: set<Node>, s': State, x: Node)
    requires WellTyped(t, s) && WellTyped(t, s') && (forall c :: c in gone ==> t.IsEntity(c))
    requires Restacked(t, s, gone, done, s') && t.IsEntity(x) && x !in gone
    ensures Linked(t, s', x) <==> Linked(t, s, x)
  {
    if c :| c in gone && t.parent(c) == t.parent(x) {
      var q, q' := s.rq[t.parent(c)], s'.rq[t.parent(c)];
      assert Relinked(q, c, c in done, q');
      assert x in q.linked <==> x in (q.linked - {c});
      assert x in q'.linked <==> x in (q'.linked - {c});
    }
  }

  lemma RelinkedAtTail(q: RtRq, c: Node, q': RtRq)
    requires Relinked(q, c, true, q') && ListsAgree(q'.queue, q'.linked) && c in q'.linked
    ensures AtTail(q', c, q'.linked[c])
  {
    var i := q'.linked[c];
    assert q'.queue[i] == FilterOut(q.queue[i], {c}) + [c];
    assert q'.queue[i][..|q'.queue[i]| - 1] == FilterOut(q.queue[i], {c});
  }

  /** Whoever was enqueued comes after all others of its priority. */
  lemma JoinsTail(t: Topology, s: State, p: Node, s': State)
    requires WellTyped(t, s) && QueuesOk(t, s') && t.IsTask(p) && Linked(t, s', p)
    requires Restacked(t, s, Path(t, p), Path(t, p), s')
    ensures AtTail(s'.rq[t.parent(p)], p, s'.prio[p])
  {
    var n := t.parent(p);
    assert p in Path(t, p);
    assert RqOk(s'.rq[n]) && MembersOk(t, s', n);
    RelinkedAtTail(s.rq[n], p, s'.rq[n]);
  }

  lemma ClimbStart(t: Topology, s: State, e: Node, s': State)
    requires WellTyped(t, s) && QueuesOk(t, s') && t.IsEntity(e)
    requires Restacked(t, s, Path(t, e), {}, s')
    ensures Climbing(t, s, e, e, s')
  {
    assert Path(t, e) - Path(t, e) == {};
  }

  lemma ClimbUnlinked(t: Topology, s: State, e: Node, cur: Node, s': State)
    requires Climbing(t, s, e, cur, s') && cur != t.root
    ensures t.IsEntity(cur) && !Linked(t, s', cur)
    ensures t.parent(cur) == t.root || (t.parent(cur) in Path(t, e) && !Linked(t, s', t.parent(cur)))
    ensures Above(t, cur) == {cur} + Above(t, t.parent(cur)) && cur !in Above(t, t.parent(cur))
  {
    var path, done := Path(t, e), Path(t, e) - Above(t, cur);
    assert cur in path && cur !in done;
    if t.parent(cur) != t.root {
      assert t.parent(cur) in Path(t, cur);
      assert t.parent(cur) in path && t.parent(cur) !in done;
    }
  }

  /** `__enqueue_rt_entity` leaves what is known of every other group, and puts `cur` where it belongs. */
  lemma EnqueuedPresent(t: Topology, s: State, cur: Node, g: Node)
    requires QueuesOk(t, s) && t.IsEntity(cur) && !Linked(t, s, cur)
    requires g in t.groups && t.IsEntity(g) && t.parent(cur) != g
    requires g != cur ==> Present(t, s, g)
    ensures WellTyped(t, Enqueued(t, s, cur)) && Present(t, Enqueued(t, s, cur), g)
  {
    assert t.parent(cur) != cur;
    if !Refused(t, s, cur) {
      EnqueueHasPrio(t, s, cur);
    }
  }

  lemma EnqueuedPresentOff(t: Topology, s: State, cur: Node, above: set<Node>)
    requires QueuesOk(t, s) && t.IsEntity(cur) && !Linked(t, s, cur)
    requires PresentOff(t, s, {cur} + above) && (t.parent(cur) == t.root || t.parent(cur) in above)
    ensures WellTyped(t, Enqueued(t, s, cur)) && PresentOff(t, Enqueued(t, s, cur), above)
  {
    EnqueuedTyped(t, s, cur);
    forall g | g in t.groups && g != t.root && g !in above
      ensures Present(t, Enqueued(t, s, cur), g)
    {
      assert t.IsEntity(g);
      assert t.parent(cur) != g;
      EnqueuedPresent(t, s, cur, g);
    }
  }

  lemma EnqueuedTyped(t: Topology, s: State, cur: Node)
    requires QueuesOk(t, s) && t.IsEntity(cur)
    ensures WellTyped(t, Enqueued(t, s, cur))
  {
    assert t.parent(cur) in t.groups;
  }

  lemma EnqueuedTask(t: Topology, s: State, cur: Node, x: Node)
    requires QueuesOk(t, s) && t.IsEntity(cur) && t.IsTask(x) && WellTyped(t, Enqueued(t, s, cur))
    ensures Linked(t, Enqueued(t, s, cur), x) <==> x == cur || Linked(t, s, x)
  {
    if !Refused(t, s, cur) {
      EnqueueHasPrio(t, s, cur);
    }
  }

  lemma ClimbPath(t: Topology, e: Node, cur: Node)
    requires t.Valid() && t.IsEntity(e) && cur in Path(t, e) && Above(t, cur) <= Path(t, e)
    ensures var g := t.parent(cur);
            && (g == t.root || g in Path(t, e)) && Above(t, g) <= Path(t, e)
            && Path(t, e) - Above(t, cur) + {cur} == Path(t, e) - Above(t, g)
  {
  }

  lemma ClimbRestack(t: Topology, s: State, e: Node, cur: Node, s': State)
    requires Climbing(t, s, e, cur, s') && cur != t.root && t.IsEntity(cur) && !Linked(t, s', cur)
    requires cur in Above(t, cur)
    ensures Restacked(t, s, Path(t, e), Path(t, e) - Above(t, cur) + {cur}, Enqueued(t, s', cur))
  {
    PathAlone(t, e, cur);
    RestackedEnqueue(t, s, Path(t, e), Path(t, e) - Above(t, cur), s', cur);
  }

  /** Re-enqueueing (or refusing) `cur` moves the climb one level up. */
  lemma ClimbStep(t: Topology, s: State, e: Node, cur: Node, s': State)
    requires Climbing(t, s, e, cur, s') && cur != t.root
    ensures t.IsEntity(cur) && Climbing(t, s, e, t.parent(cur), Enqueued(t, s', cur))
  {
    ClimbUnlinked(t, s, e, cur, s');
    EnqueuedKeepsQueues(t, s', cur);
    ClimbRestack(t, s, e, cur, s');
    ClimbPath(t, e, cur);
  }

  lemma ClimbPresent(t: Topology, s: State, e: Node, cur: Node, s': State)
    requires Climbing(t, s, e, cur, s') && cur != t.root && PresentOff(t, s', Above(t, cur))
    ensures WellTyped(t, Enqueued(t, s', cur))
    ensures PresentOff(t, Enqueued(t, s', cur), Above(t, t.parent(cur)))
  {
    ClimbUnlinked(t, s, e, cur, s');
    assert t.parent(cur) != t.root ==> t.parent(cur) in Path(t, t.parent(cur));
    EnqueuedPresentOff(t, s', cur, Above(t, t.parent(cur)));
  }

  /** A task that is not re-enqueued leaves the climb where it is. */
  lemma ClimbSkip(t: Topology, s: State, e: Node, cur: Node, s': State)
    requires Climbing(t, s, e, cur, s') && t.IsTask(cur) && PresentOff(t, s', Above(t, cur))
    ensures Climbing(t, s, e, t.parent(cur), s') && PresentOff(t, s', Above(t, t.parent(cur)))
  {
    ClimbUnlinked(t, s, e, cur, s');
  }

  /** Only entities on the path of `e` were moved, and `e` itself is unlinked if it is not re-enqueued. */
  lemma ClimbTaskGone(t: Topology, s: State, e: Node, s': State)
    requires Climbing(t, s, e, e, s')
    ensures !Linked(t, s', e)
  {
    ClimbUnlinked(t, s, e, e, s');
  }
}
