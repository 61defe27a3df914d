/** The runqueues of the real-time class with group scheduling (hw4/sched_rt.c): the priority array of one
    `rt_rq` with its cached summaries, and what one enqueue or dequeue does to all of them.

    A node is a `sched_rt_entity`, and the runqueue a group owns is an `rt_rq`.
 */
module RtQueues {
  import opened GroupTree
  import opened RtLimits

  /** One `rt_rq`: the priority array, its bitmap and the cached summaries. `linked[e]` is the index
      of the list that the `run_list` of entity `e` hangs on. */
  datatype RtRq = RtRq(queue: seq<seq<Node>>, linked: map<Node, nat>, bitmap: set<nat>,
                       nrRunning: nat, highestPrio: nat, nrBoosted: nat,
                       throttled: bool, rtTime: nat, rtRuntime: nat)
  {
    /** `rt_rq_throttled`: a boosted member suspends the throttling. */
    predicate Throttled() { throttled && nrBoosted == 0 }
  }

  /** The mutable state: every `rt_rq`, and the priorities of the tasks. */
  datatype State = State(rq: map<Node, RtRq>, prio: map<Node, nat>, normalPrio: map<Node, nat>)

  ghost predicate WellTyped(t: Topology, s: State) {
    && t.Valid()
    && s.rq.Keys == t.groups
    && forall e :: t.IsTask(e) ==> e in s.prio && e in s.normalPrio && s.prio[e] < MAX_RT_PRIO
  }

  /** `rt_se_prio` */
  function Prio(t: Topology, s: State, e: Node): nat
    requires if e in t.groups then e in s.rq else e in s.prio
  {
    if e in t.groups then s.rq[e].highestPrio else s.prio[e]
  }

  /** `rt_se_boosted` */
  predicate Boosted(t: Topology, s: State, e: Node)
    requires if e in t.groups then e in s.rq else e in s.prio && e in s.normalPrio
  {
    if e in t.groups then s.rq[e].nrBoosted != 0 else s.prio[e] != s.normalPrio[e]
  }

  /** `on_rt_rq` */
  predicate Linked(t: Topology, s: State, e: Node)
    requires t.IsEntity(e) && t.parent(e) in s.rq
  {
    e in s.rq[t.parent(e)].linked
  }

  /** `h` is the first set bit below MAX_RT_PRIO, or MAX_RT_PRIO when there is none. */
  ghost predicate IsFirstBit(bitmap: set<nat>, h: nat) {
    && h <= MAX_RT_PRIO
    && (h < MAX_RT_PRIO ==> h in bitmap)
    && (forall i: nat :: i < h ==> i !in bitmap)
  }

  /** Lists and `run_list` links agree: each linked entity is once in its list and in no other. */
  ghost predicate ListsAgree(queue: seq<seq<Node>>, linked: map<Node, nat>) {
    && |queue| == MAX_RT_PRIO
    && (forall i, e {:trigger e in queue[i]} :: 0 <= i < MAX_RT_PRIO && e in queue[i] ==>
          e in linked && linked[e] == i)
    && (forall e :: e in linked ==> linked[e] < MAX_RT_PRIO && e in queue[linked[e]])
    && (forall i :: 0 <= i < MAX_RT_PRIO ==> Distinct(queue[i]))
  }

  /** Bitmap, count and `highest_prio` are exactly what the lists say. */
  ghost predicate CachesAgree(q: RtRq) {
    && |q.queue| == MAX_RT_PRIO
    && (forall i: nat :: i in q.bitmap <==> i < MAX_RT_PRIO && q.queue[i] != [])
    && IsFirstBit(q.bitmap, q.highestPrio)
    && q.nrRunning == |q.linked.Keys|
  }

  ghost predicate RqOk(q: RtRq) {
    ListsAgree(q.queue, q.linked) && CachesAgree(q)
  }

  ghost function BoostedIn(t: Topology, s: State, members: set<Node>): set<Node>
    requires WellTyped(t, s) && forall e :: e in members ==> t.IsEntity(e)
  {
    set e | e in members && Boosted(t, s, e)
  }

  /** Every member is an entity of this `rt_rq`, sits in the list of its current priority, and
      `rt_nr_boosted` counts the boosted ones. */
  ghost predicate MembersOk(t: Topology, s: State, n: Node)
    requires WellTyped(t, s) && n in t.groups
  {
    var q := s.rq[n];
    && (forall e :: e in q.linked ==> t.IsEntity(e) && t.parent(e) == n && q.linked[e] == Prio(t, s, e))
    && q.nrBoosted == |BoostedIn(t, s, q.linked.Keys)|
  }

  ghost predicate AllRqsOk(t: Topology, s: State)
    requires WellTyped(t, s)
  {
    forall n {:trigger RqOk(s.rq[n])} :: n in t.groups ==> RqOk(s.rq[n])
  }

  ghost predicate AllMembersOk(t: Topology, s: State)
    requires WellTyped(t, s)
  {
    forall n {:trigger MembersOk(t, s, n)} :: n in t.groups ==> MembersOk(t, s, n)
  }

  ghost predicate QueuesOk(t: Topology, s: State) {
    WellTyped(t, s) && AllRqsOk(t, s) && AllMembersOk(t, s)
  }

  /** A group is queued iff it is non-empty and not (throttled and unboosted). */
  ghost predicate Present(t: Topology, s: State, g: Node)
    requires g in s.rq && t.IsEntity(g) && t.parent(g) in s.rq
  {
    Linked(t, s, g) <==> s.rq[g].nrRunning > 0 && !(s.rq[g].throttled && s.rq[g].nrBoosted == 0)
  }

  ghost predicate PresentOff(t: Topology, s: State, path: set<Node>)
    requires WellTyped(t, s)
  {
    forall g :: g in t.groups && g != t.root && g !in path ==> Present(t, s, g)
  }

  ghost predicate Consistent(t: Topology, s: State) {
    QueuesOk(t, s) && PresentOff(t, s, {})
  }

  function FilterOut(q: seq<Node>, gone: set<Node>): (r: seq<Node>)
    ensures forall e :: e in r <==> e in q && e !in gone
    ensures Distinct(q) ==> Distinct(r)
  {
    if q == [] then []
    else
      var rest := FilterOut(q[1..], gone);
      if q[0] in gone then rest else [q[0]] + rest
  }

  lemma {:induction false} FilterOutTwice(q: seq<Node>, a: set<Node>, b: set<Node>)
    ensures FilterOut(FilterOut(q, a), b) == FilterOut(q, a + b)
  {
    if q != [] {
      FilterOutTwice(q[1..], a, b);
      var rest := FilterOut(q[1..], a);
      if q[0] !in a {
        assert ([q[0]] + rest)[1..] == rest;
      }
    }
  }

  lemma {:induction false} FilterOutNothing(q: seq<Node>, gone: set<Node>)
    requires forall e :: e in q ==> e !in gone
    ensures FilterOut(q, gone) == q
  {
    if q != [] {
      FilterOutNothing(q[1..], gone);
    }
  }

  /** `__enqueue_rt_entity` refuses a throttled or empty group. */
  predicate Refused(t: Topology, s: State, e: Node)
    requires e in t.groups ==> e in s.rq
  {
    e in t.groups && (s.rq[e].Throttled() || s.rq[e].nrRunning == 0)
  }

  /** The entity hangs at the tail of the list of its priority. */
  function LinkedIn(q: RtRq, e: Node, p: nat): RtRq
    requires p < |q.queue|
  {
    q.(queue := q.queue[p := q.queue[p] + [e]], linked := q.linked[e := p], bitmap := q.bitmap + {p})
  }

  /** `inc_rt_tasks` on the summaries. */
  function CountedIn(q: RtRq, p: nat, boosted: bool): RtRq {
    q.(nrRunning := q.nrRunning + 1,
       highestPrio := if p < q.highestPrio then p else q.highestPrio,
       nrBoosted := q.nrBoosted + if boosted then 1 else 0)
  }

  /** `list_add_tail`, `__set_bit` and `inc_rt_tasks` for an entity of priority `p`. */
  function Added(q: RtRq, e: Node, p: nat, boosted: bool): RtRq
    requires p < |q.queue|
  {
    CountedIn(LinkedIn(q, e, p), p, boosted)
  }

  lemma {:induction false} DistinctAppend(q: seq<Node>, e: Node)
    requires Distinct(q) && e !in q
    ensures Distinct(q + [e])
  {
    if q != [] {
      DistinctAppend(q[1..], e);
      assert (q + [e])[1..] == q[1..] + [e];
    }
  }

  lemma ListsAdd(queue: seq<seq<Node>>, linked: map<Node, nat>, e: Node, p: nat)
    requires ListsAgree(queue, linked) && e !in linked && p < MAX_RT_PRIO
    ensures ListsAgree(queue[p := queue[p] + [e]], linked[e := p])
  {
    var queue', linked' := queue[p := queue[p] + [e]], linked[e := p];
    DistinctAppend(queue[p], e);
    assert queue'[p][|queue[p]|] == e;
    forall x | x in linked'
      ensures linked'[x] < MAX_RT_PRIO && x in queue'[linked'[x]]
    {
      if x != e {
        assert x in queue[linked[x]];
      }
    }
  }

  lemma CachesAdd(q: RtRq, e: Node, p: nat, boosted: bool)
    requires CachesAgree(q) && e !in q.linked && p < MAX_RT_PRIO
    ensures CachesAgree(Added(q, e, p, boosted))
  {
    var q' := Added(q, e, p, boosted);
    forall i: nat
      ensures i in q'.bitmap <==> i < MAX_RT_PRIO && q'.queue[i] != []
    {
      assert i < MAX_RT_PRIO && i != p ==> q'.queue[i] == q.queue[i];
    }
    assert q'.linked.Keys == q.linked.Keys + {e};
  }

  /** `sched_find_first_bit` */
  function FirstBit(bitmap: set<nat>, from: nat): (h: nat)
    requires from <= MAX_RT_PRIO && forall i: nat :: i < from ==> i !in bitmap
    ensures IsFirstBit(bitmap, h)
    decreases MAX_RT_PRIO - from
  {
    if from == MAX_RT_PRIO || from in bitmap then from else FirstBit(bitmap, from + 1)
  }

  /** `list_del_init` from whatever list `e` hangs on, then `__clear_bit` of `p` if that list is empty. */
  function Unlinked(q: RtRq, e: Node, p: nat): RtRq
    requires e in q.linked && q.linked[e] < |q.queue| && p < |q.queue|
  {
    var i := q.linked[e];
    var queue' := q.queue[i := FilterOut(q.queue[i], {e})];
    q.(queue := queue', linked := q.linked - {e},
       bitmap := if queue'[p] == [] then q.bitmap - {p} else q.bitmap)
  }

  /** `dec_rt_tasks` for an entity of priority `p`. */
  function Uncounted(q: RtRq, p: nat, boosted: bool): RtRq
    requires q.nrRunning > 0 && (boosted ==> q.nrBoosted > 0)
  {
    q.(nrRunning := q.nrRunning - 1,
       highestPrio := if q.nrRunning == 1 then MAX_RT_PRIO
                      else if p == q.highestPrio then FirstBit(q.bitmap, 0) else q.highestPrio,
       nrBoosted := q.nrBoosted - if boosted then 1 else 0)
  }

  function Removed(q: RtRq, e: Node, p: nat, boosted: bool): RtRq
    requires RqOk(q) && e in q.linked && p < MAX_RT_PRIO && (boosted ==> q.nrBoosted > 0)
  {
    assert e in q.linked.Keys;
    Uncounted(Unlinked(q, e, p), p, boosted)
  }

  lemma ListsRemove(queue: seq<seq<Node>>, linked: map<Node, nat>, e: Node)
    requires ListsAgree(queue, linked) && e in linked
    ensures var i := linked[e];
            ListsAgree(queue[i := FilterOut(queue[i], {e})], linked - {e})
  {
    var i := linked[e];
    var queue', linked' := queue[i := FilterOut(queue[i], {e})], linked - {e};
    assert Distinct(queue[i]);
    forall x | x in linked'
      ensures linked'[x] < MAX_RT_PRIO && x in queue'[linked'[x]]
    {
      assert x in queue[linked[x]];
    }
  }

  /** The bitmap after a removal. */
  lemma BitmapRemove(q: RtRq, e: Node)
    requires RqOk(q) && e in q.linked
    ensures var q' := Unlinked(q, e, q.linked[e]);
            forall i: nat :: i in q'.bitmap <==> i < MAX_RT_PRIO && q'.queue[i] != []
  {
    var p := q.linked[e];
    var q' := Unlinked(q, e, p);
    assert e in q.queue[p];
    forall i: nat
      ensures i in q'.bitmap <==> i < MAX_RT_PRIO && q'.queue[i] != []
    {
      assert i < MAX_RT_PRIO && i != p ==> q'.queue[i] == q.queue[i];
    }
  }

  /** Removing the last entity leaves no list. */
  lemma LastRemoved(q: RtRq, e: Node)
    requires RqOk(q) && e in q.linked && q.nrRunning == 1
    ensures forall i :: 0 <= i < MAX_RT_PRIO ==> Unlinked(q, e, q.linked[e]).queue[i] == []
  {
    var q' := Unlinked(q, e, q.linked[e]);
    ListsRemove(q.queue, q.linked, e);
    assert q'.linked.Keys == q.linked.Keys - {e};
    assert |q'.linked.Keys| == 0;
    forall i | 0 <= i < MAX_RT_PRIO && q'.queue[i] != []
      ensures q'.queue[i][0] in q'.linked.Keys
    {
      assert q'.queue[i][0] in q'.queue[i];
    }
  }

  lemma CachesRemove(q: RtRq, e: Node, boosted: bool)
    requires RqOk(q) && e in q.linked && (boosted ==> q.nrBoosted > 0)
    ensures CachesAgree(Removed(q, e, q.linked[e], boosted))
  {
    var p := q.linked[e];
    var q' := Removed(q, e, p, boosted);
    assert q'.linked.Keys == q.linked.Keys - {e};
    BitmapRemove(q, e);
    if q.nrRunning == 1 {
      LastRemoved(q, e);
    }
  }

  /** Replacing the `rt_rq` of `n`. */
  function Put(s: State, n: Node, q: RtRq): State {
    s.(rq := s.rq[n := q])
  }

  /** What `m` sees of its members changes for none of them when `n`, not queued on `m`, changes. */
  lemma PutTwice(rq: map<Node, RtRq>, n: Node, a: RtRq, b: RtRq)
    ensures rq[n := a][n := b] == rq[n := b]
  {
  }

  lemma PutFrame(t: Topology, s: State, n: Node, q: RtRq, m: Node)
    requires WellTyped(t, s) && n in t.groups && m in t.groups && m != n
    requires MembersOk(t, s, m) && n !in s.rq[m].linked
    ensures MembersOk(t, Put(s, n, q), m)
  {
    var s' := Put(s, n, q);
    var members := s.rq[m].linked.Keys;
    forall e | e in members
      ensures Boosted(t, s', e) == Boosted(t, s, e) && Prio(t, s', e) == Prio(t, s, e)
    {
    }
    assert BoostedIn(t, s', members) == BoostedIn(t, s, members);
  }

  /** Changing the `rt_rq` of a node that is not queued itself leaves all the others consistent. */
  lemma PutKeepsMembers(t: Topology, s: State, n: Node, q: RtRq)
    requires WellTyped(t, s) && AllMembersOk(t, s)
    requires n in t.groups && (n == t.root || !Linked(t, s, n))
    requires MembersOk(t, Put(s, n, q), n)
    ensures AllMembersOk(t, Put(s, n, q))
  {
    forall m | m in t.groups && m != n
      ensures MembersOk(t, Put(s, n, q), m)
    {
      assert MembersOk(t, s, m);
      assert n in s.rq[m].linked ==> t.parent(n) == m;
      PutFrame(t, s, n, q, m);
    }
  }

  lemma PutKeepsRqs(t: Topology, s: State, n: Node, q: RtRq)
    requires WellTyped(t, s) && AllRqsOk(t, s) && n in t.groups && RqOk(q)
    ensures AllRqsOk(t, Put(s, n, q))
  {
    forall m | m in t.groups
      ensures RqOk(Put(s, n, q).rq[m])
    {
      assert m != n ==> RqOk(s.rq[m]);
    }
  }

  /** What `__enqueue_rt_entity` relies on: an entity it queues has a real-time priority. */
  lemma NonEmptyHasPrio(q: RtRq)
    requires RqOk(q)
    ensures q.nrRunning > 0 <==> q.highestPrio < MAX_RT_PRIO
    ensures q.nrRunning > 0 ==> exists e :: e in q.linked && q.linked[e] == q.highestPrio
    ensures forall e :: e in q.linked ==> q.highestPrio <= q.linked[e]
  {
    forall e | e in q.linked
      ensures q.highestPrio <= q.linked[e] < MAX_RT_PRIO
    {
      assert e in q.queue[q.linked[e]];
      assert q.linked[e] in q.bitmap;
    }
    if q.nrRunning > 0 {
      assert q.linked.Keys != {};
      var e :| e in q.linked;
    }
    if q.highestPrio < MAX_RT_PRIO {
      assert q.highestPrio in q.bitmap;
      var e := q.queue[q.highestPrio][0];
      assert e in q.queue[q.highestPrio];
      assert e in q.linked.Keys;
    }
  }

  lemma EnqueueHasPrio(t: Topology, s: State, e: Node)
    requires QueuesOk(t, s) && t.IsEntity(e) && !Refused(t, s, e)
    ensures Prio(t, s, e) < MAX_RT_PRIO && |s.rq[t.parent(e)].queue| == MAX_RT_PRIO
  {
    assert RqOk(s.rq[t.parent(e)]);
    if e in t.groups {
      assert RqOk(s.rq[e]);
      NonEmptyHasPrio(s.rq[e]);
    }
  }

  /** The effect of `__enqueue_rt_entity`: refused, or put at the tail of its list. */
  ghost function Enqueued(t: Topology, s: State, e: Node): (r: State)
    requires QueuesOk(t, s) && t.IsEntity(e)
    ensures WellTyped(t, r)
  {
    if Refused(t, s, e) then s
    else
      EnqueueHasPrio(t, s, e);
      Put(s, t.parent(e), Added(s.rq[t.parent(e)], e, Prio(t, s, e), Boosted(t, s, e)))
  }

  lemma BoostedInUpdate(t: Topology, s: State, s': State, members: set<Node>, e: Node)
    requires WellTyped(t, s) && WellTyped(t, s') && forall x :: x in members ==> t.IsEntity(x)
    requires t.IsEntity(e) && e !in members
    requires forall x :: x in members ==> Boosted(t, s, x) == Boosted(t, s', x)
    ensures |BoostedIn(t, s', members + {e})| == |BoostedIn(t, s, members)| + if Boosted(t, s', e) then 1 else 0
  {
    assert BoostedIn(t, s', members + {e}) == BoostedIn(t, s, members) + (if Boosted(t, s', e) then {e} else {});
  }

  lemma AddedMembers(t: Topology, s: State, e: Node)
    requires WellTyped(t, s) && t.IsEntity(e) && !Linked(t, s, e) && MembersOk(t, s, t.parent(e))
    requires Prio(t, s, e) < |s.rq[t.parent(e)].queue|
    ensures var n := t.parent(e);
            MembersOk(t, Put(s, n, Added(s.rq[n], e, Prio(t, s, e), Boosted(t, s, e))), n)
  {
    var n := t.parent(e);
    var q := s.rq[n];
    var s' := Put(s, n, Added(q, e, Prio(t, s, e), Boosted(t, s, e)));
    assert n !in q.linked && n != e;
    BoostedInUpdate(t, s, s', q.linked.Keys, e);
    assert s'.rq[n].linked.Keys == q.linked.Keys + {e};
  }

  lemma RemovedMembers(t: Topology, s: State, e: Node, q': RtRq)
    requires WellTyped(t, s) && t.IsEntity(e) && Linked(t, s, e) && MembersOk(t, s, t.parent(e))
    requires q'.linked == s.rq[t.parent(e)].linked - {e}
    requires q'.nrBoosted == s.rq[t.parent(e)].nrBoosted - if Boosted(t, s, e) then 1 else 0
    ensures MembersOk(t, Put(s, t.parent(e), q'), t.parent(e))
  {
    var n := t.parent(e);
    var q := s.rq[n];
    var s' := Put(s, n, q');
    assert n !in q.linked && n != e;
    BoostedInUpdate(t, s', s, q'.linked.Keys, e);
    assert q.linked.Keys == q'.linked.Keys + {e};
  }

  /** Enqueueing below a node that is not queued itself keeps every `rt_rq` consistent. */
  lemma EnqueuedKeepsQueues(t: Topology, s: State, e: Node)
    requires QueuesOk(t, s) && t.IsEntity(e) && !Linked(t, s, e)
    requires t.parent(e) == t.root || !Linked(t, s, t.parent(e))
    ensures QueuesOk(t, Enqueued(t, s, e))
  {
    if !Refused(t, s, e) {
      EnqueuedRq(t, s, e);
      AddedMembers(t, s, e);
      PutKeepsMembers(t, s, t.parent(e), Enqueued(t, s, e).rq[t.parent(e)]);
    }
  }

  lemma EnqueuedRq(t: Topology, s: State, e: Node)
    requires QueuesOk(t, s) && t.IsEntity(e) && !Linked(t, s, e) && !Refused(t, s, e)
    ensures AllRqsOk(t, Enqueued(t, s, e)) && Prio(t, s, e) < MAX_RT_PRIO
    ensures |s.rq[t.parent(e)].queue| == MAX_RT_PRIO && MembersOk(t, s, t.parent(e))
  {
    var n := t.parent(e);
    var q := s.rq[n];
    assert RqOk(q) && MembersOk(t, s, n);
    EnqueueHasPrio(t, s, e);
    ListsAdd(q.queue, q.linked, e, Prio(t, s, e));
    CachesAdd(q, e, Prio(t, s, e), Boosted(t, s, e));
    PutKeepsRqs(t, s, n, Enqueued(t, s, e).rq[n]);
  }

  lemma DequeueHasCounts(t: Topology, s: State, e: Node)
    requires QueuesOk(t, s) && t.IsEntity(e) && Linked(t, s, e)
    ensures var q := s.rq[t.parent(e)];
            && RqOk(q) && q.linked[e] == Prio(t, s, e) && q.nrRunning > 0
            && (Boosted(t, s, e) ==> q.nrBoosted > 0)
  {
    assert MembersOk(t, s, t.parent(e)) && RqOk(s.rq[t.parent(e)]);
    assert Boosted(t, s, e) ==> e in BoostedIn(t, s, s.rq[t.parent(e)].linked.Keys);
    assert e in s.rq[t.parent(e)].linked.Keys;
  }

  /** The effect of `__dequeue_rt_entity`. */
  ghost function Dequeued(t: Topology, s: State, e: Node): (r: State)
    requires QueuesOk(t, s) && t.IsEntity(e) && Linked(t, s, e)
    ensures WellTyped(t, r)
  {
    DequeueHasCounts(t, s, e);
    Put(s, t.parent(e), Removed(s.rq[t.parent(e)], e, Prio(t, s, e), Boosted(t, s, e)))
  }

  /** Dequeueing below a node that is not queued itself keeps every `rt_rq` consistent. */
  lemma DequeuedKeepsQueues(t: Topology, s: State, e: Node)
    requires QueuesOk(t, s) && t.IsEntity(e) && Linked(t, s, e)
    requires t.parent(e) == t.root || !Linked(t, s, t.parent(e))
    ensures QueuesOk(t, Dequeued(t, s, e))
  {
    DequeuedRq(t, s, e);
    assert MembersOk(t, s, t.parent(e));
    RemovedMembers(t, s, e, Dequeued(t, s, e).rq[t.parent(e)]);
    PutKeepsMembers(t, s, t.parent(e), Dequeued(t, s, e).rq[t.parent(e)]);
  }

  lemma DequeuedRq(t: Topology, s: State, e: Node)
    requires QueuesOk(t, s) && t.IsEntity(e) && Linked(t, s, e)
    ensures AllRqsOk(t, Dequeued(t, s, e))
  {
    var n := t.parent(e);
    var q := s.rq[n];
    assert MembersOk(t, s, n) && RqOk(q);
    ListsRemove(q.queue, q.linked, e);
    CachesRemove(q, e, Boosted(t, s, e));
    PutKeepsRqs(t, s, n, Dequeued(t, s, e).rq[n]);
  }

  lemma PrioKeepsQueues(t: Topology, s: State, p: Node, prio: nat, normalPrio: nat)
    requires Consistent(t, s) && t.IsTask(p) && !Linked(t, s, p) && prio < MAX_RT_PRIO
    ensures Consistent(t, s.(prio := s.prio[p := prio], normalPrio := s.normalPrio[p := normalPrio]))
  {
    var s' := s.(prio := s.prio[p := prio], normalPrio := s.normalPrio[p := normalPrio]);
    assert AllRqsOk(t, s');
    forall m | m in t.groups
      ensures MembersOk(t, s', m)
    {
      assert MembersOk(t, s, m);
      assert p !in s.rq[m].linked;
      assert BoostedIn(t, s', s.rq[m].linked.Keys) == BoostedIn(t, s, s.rq[m].linked.Keys);
    }
    forall g | g in t.groups && g != t.root
      ensures t.IsEntity(g) && Present(t, s', g)
    {
      assert t.IsEntity(g) && Present(t, s, g);
    }
  }

  /** As `init_rt_rq` leaves it. */
  ghost predicate Unused(q: RtRq) {
    && |q.queue| == MAX_RT_PRIO && (forall i :: 0 <= i < MAX_RT_PRIO ==> q.queue[i] == [])
    && q.linked == map[] && q.bitmap == {} && q.nrRunning == 0 && q.highestPrio == MAX_RT_PRIO && q.nrBoosted == 0
  }

  lemma EmptyOk(q: RtRq)
    requires Unused(q)
    ensures RqOk(q) && q.linked.Keys == {}
  {
    assert q.linked.Keys == {};
  }

  lemma EmptyConsistent(t: Topology, s: State)
    requires WellTyped(t, s)
    requires forall g :: g in t.groups ==> Unused(s.rq[g])
    ensures Consistent(t, s)
  {
    forall g | g in t.groups
      ensures MembersOk(t, s, g) && RqOk(s.rq[g])
    {
      assert BoostedIn(t, s, {}) == {};
      EmptyOk(s.rq[g]);
    }
    forall g | g in t.groups && g != t.root
      ensures t.IsEntity(g) && Present(t, s, g)
    {
    }
  }
}
