/** The queues of the fair class with group scheduling (hw4/sched_fair.c): the invariant of one `cfs_rq`, and
    what the entity operations do to all of them.

    Virtual times are unbounded integers here; `CfsTimeline.KeysCompareTimes` says when the wrapping
    64-bit comparisons of the source agree with them.
 */
module CfsQueues {
  import opened CfsTimeline
  import opened GroupTree
  import opened Options
  import opened Words

  /** One `cfs_rq`. `tasks` is the list of its on_rq entities, the running one included. */
  datatype CfsRq = CfsRq(tree: Tree, leftmost: Option<Node>, curr: Option<Node>, next: Option<Node>,
                         tasks: seq<Node>, load: nat, nrRunning: nat, minVruntime: int)

  /** The mutable state: every `cfs_rq`, the fields of the entities, and the runqueue clock. */
  datatype State = State(rq: map<Node, CfsRq>, vruntime: map<Node, int>, weight: map<Node, nat>,
                         execStart: map<Node, nat>, onRq: set<Node>, clock: nat)

  /** What does not change: the hierarchy, `calc_delta_fair` as a function of a time and a weight, and
      the tunables. */
  datatype Config = Config(t: Topology, calcDelta: (nat, nat) -> nat, gran: nat, sleeperCredit: nat)

  const NICE_0_LOAD: nat := 1024

  predicate Child(t: Topology, g: Node, e: Node) { t.IsEntity(e) && t.parent(e) == g }

  ghost predicate WellTyped(t: Topology, s: State) {
    && t.Valid()
    && s.rq.Keys == t.groups
    && (forall e {:trigger t.IsEntity(e)} :: t.IsEntity(e) ==> e in s.vruntime && e in s.weight && e in s.execStart)
    && (forall e {:trigger s.weight[e]} :: t.IsEntity(e) ==> s.weight[e] > 0)
    && (forall e {:trigger s.execStart[e]} :: t.IsEntity(e) ==> s.execStart[e] <= s.clock)
  }

  // ----- the list of on_rq entities and its load -----

  function SumWeights(tasks: seq<Node>, weight: map<Node, nat>): nat {
    if tasks == [] then 0
    else (if tasks[0] in weight then weight[tasks[0]] else 0) + SumWeights(tasks[1..], weight)
  }

  /** `list_del` */
  function ListDel(tasks: seq<Node>, e: Node): (r: seq<Node>)
    requires e in tasks
  {
    if tasks[0] == e then tasks[1..] else [tasks[0]] + ListDel(tasks[1..], e)
  }

  lemma {:induction false} ListDelEffect(tasks: seq<Node>, e: Node, weight: map<Node, nat>)
    requires e in tasks && e in weight && Distinct(tasks)
    ensures var r := ListDel(tasks, e);
            && |r| == |tasks| - 1 && Distinct(r)
            && (forall x :: x in r <==> x in tasks && x != e)
            && SumWeights(r, weight) == SumWeights(tasks, weight) - weight[e]
  {
    assert forall x :: x in tasks <==> x == tasks[0] || x in tasks[1..];
    if tasks[0] != e {
      ListDelEffect(tasks[1..], e, weight);
      var r := ListDel(tasks, e);
      assert r[1..] == ListDel(tasks[1..], e);
    }
  }

  lemma {:induction false} SumWeightsFrame(tasks: seq<Node>, weight: map<Node, nat>, weight': map<Node, nat>)
    requires forall e :: e in tasks ==> e in weight && e in weight' && weight'[e] == weight[e]
    ensures SumWeights(tasks, weight') == SumWeights(tasks, weight)
  {
    if tasks != [] {
      SumWeightsFrame(tasks[1..], weight, weight');
    }
  }

  /** A `cfs_rq` has load exactly when it has entities. */
  lemma LoadIffRunning(tasks: seq<Node>, weight: map<Node, nat>)
    requires forall e :: e in tasks ==> e in weight && weight[e] > 0
    ensures SumWeights(tasks, weight) > 0 <==> |tasks| > 0
  {
    if tasks != [] {
      assert tasks[0] in tasks;
    }
  }

  // ----- the invariant of one cfs_rq -----

  /** The tree is sorted, `rb_leftmost` is its first node, `next` is empty or in the tree, and `min_vruntime`
      has come at least as far as the first node. */
  ghost predicate TimelineOk(q: CfsRq, vruntime: map<Node, int>) {
    && Ordered(InOrder(q.tree), vruntime)
    && q.leftmost == First(q.tree)
    && (q.next.Some? ==> q.next.value in InOrder(q.tree))
    && (q.leftmost.Some? ==> q.leftmost.value in vruntime && vruntime[q.leftmost.value] <= q.minVruntime)
  }

  /** An entity is in the tree iff it is on_rq and not current. */
  ghost predicate MembersOk(t: Topology, s: State, g: Node)
    requires g in s.rq
  {
    forall e {:trigger e in InOrder(s.rq[g].tree)} {:trigger Child(t, g, e)} ::
      e in InOrder(s.rq[g].tree) <==> Child(t, g, e) && e in s.onRq && s.rq[g].curr != Some(e)
  }

  /** `load.weight` and `nr_running` are the sum and the count of the on_rq entities. */
  ghost predicate AccountOk(t: Topology, s: State, g: Node)
    requires g in s.rq
  {
    var q := s.rq[g];
    && (forall e {:trigger e in q.tasks} {:trigger Child(t, g, e)} :: e in q.tasks <==> Child(t, g, e) && e in s.onRq)
    && Distinct(q.tasks)
    && q.nrRunning == |q.tasks|
    && q.load == SumWeights(q.tasks, s.weight)
  }

  /** `curr` is the entity of this `cfs_rq` on the path of running entities, if there is one. */
  ghost predicate CurrOk(t: Topology, s: State, g: Node, path: set<Node>)
    requires g in s.rq
  {
    && (forall c {:trigger c in path} :: c in path && Child(t, g, c) ==> s.rq[g].curr == Some(c))
    && (s.rq[g].curr.Some? ==> Child(t, g, s.rq[g].curr.value) && s.rq[g].curr.value in path)
  }

  ghost predicate RqOk(t: Topology, s: State, g: Node, path: set<Node>)
    requires g in s.rq
  {
    TimelineOk(s.rq[g], s.vruntime) && MembersOk(t, s, g) && AccountOk(t, s, g) && CurrOk(t, s, g, path)
  }

  ghost predicate AllRqsOk(t: Topology, s: State, path: set<Node>)
    requires WellTyped(t, s)
  {
    forall g {:trigger RqOk(t, s, g, path)} :: g in t.groups ==> RqOk(t, s, g, path)
  }

  /** A group entity is on_rq iff its own queue is not empty. */
  ghost predicate PresentOk(s: State, g: Node)
    requires g in s.rq
  {
    g in s.onRq <==> s.rq[g].nrRunning > 0
  }

  /** ... for every group below the root except `off`. */
  ghost predicate PresentOff(t: Topology, s: State, off: Node)
    requires WellTyped(t, s)
  {
    forall g {:trigger PresentOk(s, g)} :: g in t.groups && g != t.root && g != off ==> PresentOk(s, g)
  }

  ghost predicate Consistent(t: Topology, s: State, path: set<Node>, off: Node) {
    WellTyped(t, s) && AllRqsOk(t, s, path) && PresentOff(t, s, off)
  }

  // ----- steps on one cfs_rq -----

  /** `__enqueue_entity` */
  function Inserted(q: CfsRq, vruntime: map<Node, int>, e: Node): CfsRq
    requires e in vruntime && Keyed(InOrder(q.tree), vruntime)
  {
    var front := Position(q.tree, vruntime, vruntime[e]) == 0;
    q.(tree := Insert(q.tree, vruntime, vruntime[e], e),
       leftmost := if front then Some(e) else q.leftmost,
       minVruntime := if front then Max(q.minVruntime, vruntime[e]) else q.minVruntime)
  }

  /** `rb_next` of the leftmost node. */
  function Second(t: Tree): (r: Option<Node>)
    ensures r.Some? ==> r.value in InOrder(t)
  {
    if |InOrder(t)| > 1 then Some(InOrder(t)[1]) else None
  }

  /** `__dequeue_entity` */
  function Erased(q: CfsRq, vruntime: map<Node, int>, e: Node): CfsRq
    requires e in InOrder(q.tree) && Keyed(InOrder(q.tree), vruntime)
  {
    var first := q.leftmost == Some(e);
    var second := Second(q.tree);
    q.(tree := Erase(q.tree, e),
       leftmost := if first then second else q.leftmost,
       minVruntime := if first && second.Some? then Max(q.minVruntime, vruntime[second.value]) else q.minVruntime,
       next := if q.next == Some(e) then None else q.next)
  }

  lemma InsertedTimeline(q: CfsRq, vruntime: map<Node, int>, e: Node)
    requires TimelineOk(q, vruntime) && e in vruntime && e !in InOrder(q.tree)
    ensures var q' := Inserted(q, vruntime, e);
            && TimelineOk(q', vruntime)
            && (forall x :: x in InOrder(q'.tree) <==> x in InOrder(q.tree) || x == e)
  {
    InsertOrdered(q.tree, vruntime, e);
  }

  lemma ErasedTimeline(q: CfsRq, vruntime: map<Node, int>, e: Node)
    requires TimelineOk(q, vruntime) && e in InOrder(q.tree)
    ensures var q' := Erased(q, vruntime, e);
            && TimelineOk(q', vruntime)
            && (forall x :: x in InOrder(q'.tree) <==> x in InOrder(q.tree) && x != e)
  {
    EraseOrdered(q.tree, vruntime, e);
  }

  /** Inserting moves `min_vruntime` only to the time of a new first entity, and no further. */
  lemma InsertedMin(q: CfsRq, vruntime: map<Node, int>, e: Node)
    requires TimelineOk(q, vruntime) && e in vruntime && e !in InOrder(q.tree)
    ensures var q' := Inserted(q, vruntime, e);
            && q'.leftmost == (if q.leftmost.Some? && vruntime[q.leftmost.value] <= vruntime[e] then q.leftmost
                               else Some(e))
            && q'.minVruntime == (if q'.leftmost == q.leftmost then q.minVruntime
                                  else Max(q.minVruntime, vruntime[e]))
            && q'.next == q.next
  {
    InsertedTimeline(q, vruntime, e);
    PositionSplits(q.tree, vruntime, vruntime[e]);
    InsertOrdered(q.tree, vruntime, e);
    if q.leftmost.Some? && vruntime[q.leftmost.value] <= vruntime[e] {
      assert InOrder(q.tree)[0] == q.leftmost.value;
    }
  }

  /** Erasing the first entity moves `min_vruntime` to the time of its successor, if there is one that is later,
      and no further; erasing another one leaves it. */
  lemma ErasedMin(q: CfsRq, vruntime: map<Node, int>, e: Node)
    requires TimelineOk(q, vruntime) && e in InOrder(q.tree)
    ensures var q' := Erased(q, vruntime, e);
            && (q.leftmost != Some(e) ==> q'.leftmost == q.leftmost && q'.minVruntime == q.minVruntime)
            && (q.leftmost == Some(e) && q'.leftmost.None? ==> q'.minVruntime == q.minVruntime)
            && (q.leftmost == Some(e) && q'.leftmost.Some? ==>
                  && q'.leftmost.value in vruntime
                  && q'.minVruntime == Max(q.minVruntime, vruntime[q'.leftmost.value])
                  && forall x :: x in InOrder(q.tree) && x != e ==> vruntime[q'.leftmost.value] <= vruntime[x])
            && q'.next == if q.next == Some(e) then None else q.next
  {
    ErasedTimeline(q, vruntime, e);
    var line := InOrder(Erased(q, vruntime, e).tree);
    forall x | x in InOrder(q.tree) && x != e
      ensures line != [] && vruntime[line[0]] <= vruntime[x]
    {
      assert x in line;
      var i :| 0 <= i < |line| && line[i] == x;
    }
  }

  lemma TimelineFrame(q: CfsRq, vruntime: map<Node, int>, vruntime': map<Node, int>)
    requires TimelineOk(q, vruntime)
    requires forall e :: e in InOrder(q.tree) ==> e in vruntime' && vruntime'[e] == vruntime[e]
    ensures TimelineOk(q, vruntime')
  {
    var line := InOrder(q.tree);
    forall i | 0 <= i < |line|
      ensures line[i] in vruntime && line[i] in vruntime' && vruntime'[line[i]] == vruntime[line[i]]
    {
      assert line[i] in line;
    }
  }

  // ----- steps on the state -----

  function Put(s: State, g: Node, q: CfsRq): State {
    s.(rq := s.rq[g := q])
  }

  /** A virtual runtime moves, and is accounted for up to now. */
  function Timed(s: State, e: Node, v: int, start: nat): State {
    s.(vruntime := s.vruntime[e := v], execStart := s.execStart[e := start])
  }

  /** Outside every tree: not on_rq, or current. */
  predicate Outside(t: Topology, s: State, e: Node)
    requires t.parent(e) in s.rq
  {
    e !in s.onRq || s.rq[t.parent(e)].curr == Some(e)
  }

  /** Virtual runtimes change only outside the tree, so no timeline is disturbed. */
  lemma TimedKeeps(t: Topology, s: State, e: Node, v: int, start: nat, path: set<Node>)
    requires WellTyped(t, s) && AllRqsOk(t, s, path) && t.IsEntity(e) && Outside(t, s, e) && start <= s.clock
    ensures WellTyped(t, Timed(s, e, v, start)) && AllRqsOk(t, Timed(s, e, v, start), path)
  {
    var s' := Timed(s, e, v, start);
    forall g | g in t.groups
      ensures RqOk(t, s', g, path)
    {
      assert RqOk(t, s, g, path);
      assert e !in InOrder(s.rq[g].tree);
      TimelineFrame(s.rq[g], s.vruntime, s'.vruntime);
    }
  }

  /** The entity of `g` that is current is charged `calcDelta` of the time since it was last charged. */
  function Weighted(cf: Config, delta: nat, weight: nat): nat {
    if weight != NICE_0_LOAD then cf.calcDelta(delta, weight) else delta
  }

  /** What putting back the running entity `e` charges it. */
  function Charge(cf: Config, s: State, e: Node): nat
    requires e in s.execStart && e in s.weight && s.execStart[e] <= s.clock
  {
    if e in s.onRq then Weighted(cf, s.clock - s.execStart[e], s.weight[e]) else 0
  }

  /** `update_curr` */
  function UpdatedCurr(cf: Config, s: State, g: Node): State
    requires WellTyped(cf.t, s) && g in cf.t.groups && (s.rq[g].curr.Some? ==> cf.t.IsEntity(s.rq[g].curr.value))
  {
    if s.rq[g].curr.None? then s
    else
      var c := s.rq[g].curr.value;
      Timed(s, c, s.vruntime[c] + Weighted(cf, s.clock - s.execStart[c], s.weight[c]), s.clock)
  }

  /** `account_entity_enqueue` */
  function Accounted(s: State, g: Node, e: Node): State
    requires g in s.rq && e in s.weight
  {
    var q := s.rq[g];
    Put(s, g, q.(load := q.load + s.weight[e], nrRunning := q.nrRunning + 1, tasks := [e] + q.tasks))
    .(onRq := s.onRq + {e})
  }

  /** `account_entity_dequeue` */
  function Unaccounted(s: State, g: Node, e: Node): State
    requires g in s.rq && e in s.weight && e in s.rq[g].tasks && s.rq[g].load >= s.weight[e] && s.rq[g].nrRunning > 0
  {
    var q := s.rq[g];
    Put(s, g, q.(load := q.load - s.weight[e], nrRunning := q.nrRunning - 1, tasks := ListDel(q.tasks, e)))
    .(onRq := s.onRq - {e})
  }

  /** Where `place_entity` starts from. */
  function PlaceBase(q: CfsRq, vruntime: map<Node, int>): int
    requires q.leftmost.Some? ==> q.leftmost.value in vruntime
  {
    if q.leftmost.Some? then Min(q.minVruntime, vruntime[q.leftmost.value]) else q.minVruntime
  }

  /** With entities in the tree, placement starts from the earliest of them. */
  lemma PlaceBaseIs(q: CfsRq, vruntime: map<Node, int>)
    requires TimelineOk(q, vruntime)
    ensures PlaceBase(q, vruntime) == if q.leftmost.Some? then vruntime[q.leftmost.value] else q.minVruntime
    ensures forall x :: x in InOrder(q.tree) ==> x in vruntime && PlaceBase(q, vruntime) <= vruntime[x]
  {
    var line := InOrder(q.tree);
    forall x | x in line
      ensures x in vruntime && vruntime[line[0]] <= vruntime[x]
    {
      var i :| 0 <= i < |line| && line[i] == x;
    }
  }

  /** `s'` is `s` outside the `cfs_rq` of `g` and its entities. */
  ghost predicate Local(t: Topology, s: State, s': State, g: Node)
    requires WellTyped(t, s) && WellTyped(t, s')
  {
    && s'.weight == s.weight && s'.clock == s.clock
    && (forall h {:trigger s'.rq[h]} :: h in t.groups && h != g ==> s'.rq[h] == s.rq[h])
    && (forall e {:trigger e in s'.onRq} :: t.IsEntity(e) && t.parent(e) != g ==> (e in s'.onRq <==> e in s.onRq))
    && (forall e {:trigger s'.vruntime[e]} :: t.IsEntity(e) && t.parent(e) != g ==> s'.vruntime[e] == s.vruntime[e])
  }

  /** The path of running entities changes below `g` only. */
  ghost predicate SamePathElsewhere(t: Topology, path: set<Node>, path': set<Node>, g: Node) {
    forall c {:trigger c in path'} {:trigger c in path}
        :: t.IsEntity(c) && t.parent(c) != g ==> (c in path' <==> c in path)
  }

  lemma OthersOk(t: Topology, s: State, s': State, g: Node, h: Node, path: set<Node>, path': set<Node>)
    requires WellTyped(t, s) && WellTyped(t, s') && Local(t, s, s', g) && SamePathElsewhere(t, path, path', g)
    requires h in t.groups && h != g && RqOk(t, s, h, path)
    ensures RqOk(t, s', h, path')
  {
    assert s'.rq[h] == s.rq[h];
    forall e | Child(t, h, e)
      ensures e in s'.onRq <==> e in s.onRq
      ensures s'.vruntime[e] == s.vruntime[e]
    {
    }
    TimelineFrame(s.rq[h], s.vruntime, s'.vruntime);
  }

  /** A step local to `g` keeps the invariant everywhere if it keeps it for `g`. */
  lemma LocalKeeps(t: Topology, s: State, s': State, g: Node, path: set<Node>, path': set<Node>)
    requires WellTyped(t, s) && WellTyped(t, s') && Local(t, s, s', g) && SamePathElsewhere(t, path, path', g)
    requires g in t.groups && AllRqsOk(t, s, path) && RqOk(t, s', g, path')
    ensures AllRqsOk(t, s', path')
  {
    forall h | h in t.groups
      ensures RqOk(t, s', h, path')
    {
      if h != g {
        assert RqOk(t, s, h, path);
        OthersOk(t, s, s', g, h, path, path');
      }
    }
  }

  /** Accounting for `e` and, unless it is current, putting it into the tree. */
  function Linked(s: State, g: Node, e: Node): State
    requires g in s.rq && e in s.weight && e in s.vruntime && Keyed(InOrder(s.rq[g].tree), s.vruntime)
  {
    var s1 := Accounted(s, g, e);
    if s.rq[g].curr == Some(e) then s1 else Put(s1, g, Inserted(s1.rq[g], s.vruntime, e))
  }

  lemma LinkedKeeps(t: Topology, s: State, g: Node, e: Node, path: set<Node>)
    requires WellTyped(t, s) && AllRqsOk(t, s, path) && g in t.groups && Child(t, g, e) && e !in s.onRq
    ensures TimelineOk(s.rq[g], s.vruntime)
    ensures var s' := Linked(s, g, e);
            WellTyped(t, s') && Local(t, s, s', g) && AllRqsOk(t, s', path)
  {
    assert RqOk(t, s, g, path);
    LinkedRq(t, s, g, e, path);
    LocalKeeps(t, s, Linked(s, g, e), g, path, path);
  }

  lemma LinkedRq(t: Topology, s: State, g: Node, e: Node, path: set<Node>)
    requires WellTyped(t, s) && g in t.groups && RqOk(t, s, g, path) && Child(t, g, e) && e !in s.onRq
    ensures RqOk(t, Linked(s, g, e), g, path)
  {
    var q, s' := s.rq[g], Linked(s, g, e);
    assert e !in InOrder(q.tree) && e !in q.tasks;
    if q.curr != Some(e) {
      InsertedTimeline(Accounted(s, g, e).rq[g], s.vruntime, e);
    }
    MembersChanged(t, s, g, e, s');
    AccountAdded(t, s, g, e, s');
    assert CurrOk(t, s', g, path);
  }

  lemma AccountAdded(t: Topology, s: State, g: Node, e: Node, s': State)
    requires g in s.rq && g in s'.rq && AccountOk(t, s, g) && Child(t, g, e) && e !in s.onRq && e in s.weight
    requires s'.onRq == s.onRq + {e} && s'.weight == s.weight && s'.rq[g].tasks == [e] + s.rq[g].tasks
    requires s'.rq[g].nrRunning == s.rq[g].nrRunning + 1 && s'.rq[g].load == s.rq[g].load + s.weight[e]
    ensures AccountOk(t, s', g)
  {
    var tasks, tasks' := s.rq[g].tasks, s'.rq[g].tasks;
    assert tasks'[1..] == tasks;
    assert forall x :: x in tasks' <==> x == e || x in tasks;
  }

  /** `e` became on_rq or not, and its place in the tree follows. */
  lemma MembersChanged(t: Topology, s: State, g: Node, e: Node, s': State)
    requires g in s.rq && g in s'.rq && MembersOk(t, s, g) && Child(t, g, e) && s'.rq[g].curr == s.rq[g].curr
    requires forall x :: x != e ==> (x in s'.onRq <==> x in s.onRq)
    requires forall x :: x != e ==> (x in InOrder(s'.rq[g].tree) <==> x in InOrder(s.rq[g].tree))
    requires e in InOrder(s'.rq[g].tree) <==> e in s'.onRq && s.rq[g].curr != Some(e)
    ensures MembersOk(t, s', g)
  {
  }

  /** The inverse: out of the tree unless it is current, and off the account. */
  function Unlinked(s: State, g: Node, e: Node): State
    requires g in s.rq && e in s.weight && e in s.rq[g].tasks && s.rq[g].load >= s.weight[e] && s.rq[g].nrRunning > 0
    requires Keyed(InOrder(s.rq[g].tree), s.vruntime) && (s.rq[g].curr == Some(e) || e in InOrder(s.rq[g].tree))
  {
    var s1 := if s.rq[g].curr == Some(e) then s else Put(s, g, Erased(s.rq[g], s.vruntime, e));
    Unaccounted(s1, g, e)
  }

  lemma UnlinkedKeeps(t: Topology, s: State, g: Node, e: Node, path: set<Node>)
    requires WellTyped(t, s) && AllRqsOk(t, s, path) && g in t.groups && Child(t, g, e) && e in s.onRq
    ensures var q := s.rq[g];
            && e in q.tasks && q.load >= s.weight[e] && q.nrRunning > 0
            && TimelineOk(q, s.vruntime) && (q.curr == Some(e) || e in InOrder(q.tree))
    ensures var s' := Unlinked(s, g, e);
            WellTyped(t, s') && Local(t, s, s', g) && AllRqsOk(t, s', path)
  {
    assert RqOk(t, s, g, path);
    CanUnlink(t, s, g, e, path);
    UnlinkedRq(t, s, g, e, path);
    LocalKeeps(t, s, Unlinked(s, g, e), g, path, path);
  }

  lemma CanUnlink(t: Topology, s: State, g: Node, e: Node, path: set<Node>)
    requires WellTyped(t, s) && g in t.groups && RqOk(t, s, g, path) && Child(t, g, e) && e in s.onRq
    ensures var q := s.rq[g];
            && e in q.tasks && q.load >= s.weight[e] && q.nrRunning > 0
            && TimelineOk(q, s.vruntime) && (q.curr == Some(e) || e in InOrder(q.tree))
  {
    ListDelEffect(s.rq[g].tasks, e, s.weight);
  }

  lemma UnlinkedRq(t: Topology, s: State, g: Node, e: Node, path: set<Node>)
    requires WellTyped(t, s) && g in t.groups && RqOk(t, s, g, path) && Child(t, g, e) && e in s.onRq
    requires e in s.rq[g].tasks && s.rq[g].load >= s.weight[e] && s.rq[g].nrRunning > 0
    requires s.rq[g].curr == Some(e) || e in InOrder(s.rq[g].tree)
    ensures RqOk(t, Unlinked(s, g, e), g, path)
  {
    var q, s' := s.rq[g], Unlinked(s, g, e);
    if q.curr != Some(e) {
      ErasedTimeline(q, s.vruntime, e);
    }
    MembersChanged(t, s, g, e, s');
    AccountRemoved(t, s, g, e, s');
    assert CurrOk(t, s', g, path);
  }

  lemma AccountRemoved(t: Topology, s: State, g: Node, e: Node, s': State)
    requires g in s.rq && g in s'.rq && AccountOk(t, s, g) && Child(t, g, e) && e in s.rq[g].tasks && e in s.weight
    requires s'.onRq == s.onRq - {e} && s'.weight == s.weight && s'.rq[g].tasks == ListDel(s.rq[g].tasks, e)
    requires s'.rq[g].nrRunning == s.rq[g].nrRunning - 1 && s'.rq[g].load == s.rq[g].load - s.weight[e]
    ensures AccountOk(t, s', g)
  {
    ListDelEffect(s.rq[g].tasks, e, s.weight);
  }

  /** `set_next_entity`: `e` leaves the tree and becomes current. */
  function Taken(s: State, g: Node, e: Node): State
    requires g in s.rq && Keyed(InOrder(s.rq[g].tree), s.vruntime) && (e in s.onRq ==> e in InOrder(s.rq[g].tree))
  {
    var q := if e in s.onRq then Erased(s.rq[g], s.vruntime, e) else s.rq[g];
    Put(s, g, q.(curr := Some(e))).(execStart := s.execStart[e := s.clock])
  }

  lemma TakenRq(t: Topology, s: State, g: Node, e: Node, path: set<Node>)
    requires WellTyped(t, s) && g in t.groups && RqOk(t, s, g, path) && Child(t, g, e) && s.rq[g].curr == None
    ensures TimelineOk(s.rq[g], s.vruntime) && (e in s.onRq ==> e in InOrder(s.rq[g].tree))
    ensures RqOk(t, Taken(s, g, e), g, path + {e})
  {
    if e in s.onRq {
      ErasedTimeline(s.rq[g], s.vruntime, e);
    }
    var s' := Taken(s, g, e);
    assert TimelineOk(s'.rq[g], s'.vruntime) && MembersOk(t, s', g) && AccountOk(t, s', g);
    assert CurrOk(t, s', g, path + {e});
  }

  lemma TakenKeeps(t: Topology, s: State, g: Node, e: Node, path: set<Node>)
    requires WellTyped(t, s) && AllRqsOk(t, s, path) && g in t.groups && Child(t, g, e) && s.rq[g].curr == None
    ensures TimelineOk(s.rq[g], s.vruntime) && (e in s.onRq ==> e in InOrder(s.rq[g].tree))
    ensures var s' := Taken(s, g, e);
            WellTyped(t, s') && Local(t, s, s', g) && AllRqsOk(t, s', path + {e})
  {
    assert RqOk(t, s, g, path);
    TakenRq(t, s, g, e, path);
    LocalKeeps(t, s, Taken(s, g, e), g, path, path + {e});
  }

  /** The end of `put_prev_entity`: an on_rq entity goes back into the tree, and nothing is current. */
  function PutBack(s: State, g: Node, e: Node): State
    requires g in s.rq && e in s.vruntime && Keyed(InOrder(s.rq[g].tree), s.vruntime)
  {
    var q := if e in s.onRq then Inserted(s.rq[g], s.vruntime, e) else s.rq[g];
    Put(s, g, q.(curr := None))
  }

  lemma PutBackKeeps(t: Topology, s: State, g: Node, e: Node, path: set<Node>)
    requires WellTyped(t, s) && AllRqsOk(t, s, path) && g in t.groups && Child(t, g, e) && s.rq[g].curr == Some(e)
    ensures TimelineOk(s.rq[g], s.vruntime)
    ensures var s' := PutBack(s, g, e);
            WellTyped(t, s') && Local(t, s, s', g) && AllRqsOk(t, s', path - {e})
  {
    assert RqOk(t, s, g, path);
    if e in s.onRq {
      InsertedTimeline(s.rq[g], s.vruntime, e);
    }
    var s' := PutBack(s, g, e);
    assert TimelineOk(s'.rq[g], s'.vruntime) && MembersOk(t, s', g) && AccountOk(t, s', g);
    assert CurrOk(t, s', g, path - {e});
    LocalKeeps(t, s, s', g, path, path - {e});
  }

  /** No `min_vruntime` and no virtual runtime moves back. */
  ghost predicate Forward(t: Topology, s: State, s': State)
    requires WellTyped(t, s) && WellTyped(t, s')
  {
    && (forall g {:trigger s'.rq[g]} :: g in t.groups ==> s.rq[g].minVruntime <= s'.rq[g].minVruntime)
    && (forall e {:trigger s'.vruntime[e]} :: t.IsEntity(e) ==> s.vruntime[e] <= s'.vruntime[e])
  }

  lemma LocalTrans(t: Topology, s: State, m: State, s': State, g: Node)
    requires WellTyped(t, s) && WellTyped(t, m) && WellTyped(t, s')
    requires Local(t, s, m, g) && Local(t, m, s', g)
    ensures Local(t, s, s', g)
  {
    forall h | h in t.groups && h != g
      ensures s'.rq[h] == s.rq[h]
    {
      assert m.rq[h] == s.rq[h];
    }
    forall e | t.IsEntity(e) && t.parent(e) != g
      ensures (e in s'.onRq <==> e in s.onRq) && s'.vruntime[e] == s.vruntime[e]
    {
      assert (e in m.onRq <==> e in s.onRq) && m.vruntime[e] == s.vruntime[e];
    }
  }

  lemma UpdatedCurrKeeps(cf: Config, s: State, g: Node, path: set<Node>)
    requires WellTyped(cf.t, s) && AllRqsOk(cf.t, s, path) && g in cf.t.groups
    ensures s.rq[g].curr.Some? ==> Child(cf.t, g, s.rq[g].curr.value) && s.rq[g].curr.value in path
    ensures var s' := UpdatedCurr(cf, s, g);
            WellTyped(cf.t, s') && Local(cf.t, s, s', g) && AllRqsOk(cf.t, s', path) && Forward(cf.t, s, s')
  {
    assert RqOk(cf.t, s, g, path);
    if s.rq[g].curr.Some? {
      var c := s.rq[g].curr.value;
      TimedKeeps(cf.t, s, c, UpdatedCurr(cf, s, g).vruntime[c], s.clock, path);
    }
  }

  /** `place_entity` on a wake-up: never back, and at most `sleeperCredit` behind the others. */
  function PlacedAwake(cf: Config, s: State, g: Node, e: Node): State
    requires g in s.rq && e in s.vruntime && e in s.execStart
    requires s.rq[g].leftmost.Some? ==> s.rq[g].leftmost.value in s.vruntime
  {
    Timed(s, e, Max(s.vruntime[e], PlaceBase(s.rq[g], s.vruntime) - cf.sleeperCredit), s.execStart[e])
  }

  /** The virtual runtime an entity that is not running enters the tree with. */
  function ArrivalTime(cf: Config, s: State, e: Node, wakeup: bool): int
    requires e in s.vruntime && cf.t.parent(e) in s.rq
    requires var q := s.rq[cf.t.parent(e)]; q.leftmost.Some? ==> q.leftmost.value in s.vruntime
  {
    if wakeup then Max(s.vruntime[e], PlaceBase(s.rq[cf.t.parent(e)], s.vruntime) - cf.sleeperCredit) else s.vruntime[e]
  }

  lemma ArrivalSame(cf: Config, s: State, g: Node, e: Node, wakeup: bool, path: set<Node>)
    requires WellTyped(cf.t, s) && AllRqsOk(cf.t, s, path) && g in cf.t.groups && Child(cf.t, g, e)
    ensures s.rq[g].curr.Some? ==> cf.t.IsEntity(s.rq[g].curr.value)
    ensures var m := UpdatedCurr(cf, s, g);
            && e in s.vruntime && TimelineOk(s.rq[g], s.vruntime) && e in m.vruntime && TimelineOk(m.rq[g], m.vruntime)
            && (e !in path ==> ArrivalTime(cf, m, e, wakeup) == ArrivalTime(cf, s, e, wakeup))
  {
    UpdatedCurrKeeps(cf, s, g, path);
    assert RqOk(cf.t, s, g, path) && RqOk(cf.t, UpdatedCurr(cf, s, g), g, path);
    if s.rq[g].leftmost.Some? {
      assert InOrder(s.rq[g].tree)[0] in InOrder(s.rq[g].tree);
    }
  }

  lemma LeftmostKeyed(q: CfsRq, vruntime: map<Node, int>)
    requires TimelineOk(q, vruntime)
    ensures Keyed(InOrder(q.tree), vruntime)
    ensures q.leftmost.Some? ==> q.leftmost.value in vruntime
  {
  }

  lemma ForwardTrans(t: Topology, s: State, m: State, s': State)
    requires WellTyped(t, s) && WellTyped(t, m) && WellTyped(t, s')
    requires Forward(t, s, m) && Forward(t, m, s')
    ensures Forward(t, s, s')
  {
    forall g | g in t.groups
      ensures s.rq[g].minVruntime <= s'.rq[g].minVruntime
    {
      assert s.rq[g].minVruntime <= m.rq[g].minVruntime <= s'.rq[g].minVruntime;
    }
    forall e | t.IsEntity(e)
      ensures s.vruntime[e] <= s'.vruntime[e]
    {
      assert s.vruntime[e] <= m.vruntime[e] <= s'.vruntime[e];
    }
  }

  /** What every step on the `cfs_rq` of `g` keeps. */
  ghost predicate Kept(t: Topology, s: State, g: Node, path: set<Node>, s': State, path': set<Node>)
    requires WellTyped(t, s)
  {
    WellTyped(t, s') && Local(t, s, s', g) && AllRqsOk(t, s', path') && Forward(t, s, s')
  }

  lemma KeptTrans(t: Topology, s: State, g: Node, p: set<Node>, m: State, p': set<Node>, s': State, p'': set<Node>)
    requires WellTyped(t, s) && Kept(t, s, g, p, m, p') && Kept(t, m, g, p', s', p'')
    ensures Kept(t, s, g, p, s', p'')
  {
    LocalTrans(t, s, m, s', g);
    ForwardTrans(t, s, m, s');
  }

  lemma PlacedKeeps(cf: Config, s: State, g: Node, e: Node, path: set<Node>)
    requires WellTyped(cf.t, s) && AllRqsOk(cf.t, s, path) && g in cf.t.groups && Child(cf.t, g, e) && e !in s.onRq
    ensures TimelineOk(s.rq[g], s.vruntime)
    ensures Kept(cf.t, s, g, path, PlacedAwake(cf, s, g, e), path)
  {
    assert RqOk(cf.t, s, g, path);
    TimedKeeps(cf.t, s, e, PlacedAwake(cf, s, g, e).vruntime[e], s.execStart[e], path);
  }

  /** Only `e` and running entities get another virtual runtime. */
  ghost predicate OnlyTimes(s: State, s': State, moved: set<Node>) {
    forall x {:trigger s'.vruntime[x]} {:trigger x in s'.vruntime}
        :: x in s.vruntime && x !in moved ==> x in s'.vruntime && s'.vruntime[x] == s.vruntime[x]
  }

  /** `enqueue_entity` up to the placement. */
  ghost function Arrived(cf: Config, s: State, g: Node, e: Node, wakeup: bool, path: set<Node>): (r: State)
    requires WellTyped(cf.t, s) && AllRqsOk(cf.t, s, path) && g in cf.t.groups && Child(cf.t, g, e) && e !in s.onRq
    ensures Kept(cf.t, s, g, path, r, path) && OnlyTimes(s, r, if wakeup then path + {e} else path)
    ensures r.onRq == s.onRq && r.rq == s.rq
    ensures e !in path ==> TimelineOk(s.rq[g], s.vruntime) && r.vruntime[e] == ArrivalTime(cf, s, e, wakeup)
  {
    ArrivalSame(cf, s, g, e, wakeup, path);
    UpdatedCurrKeeps(cf, s, g, path);
    var s1 := UpdatedCurr(cf, s, g);
    PlacedKeeps(cf, s1, g, e, path);
    KeptTrans(cf.t, s, g, path, s1, path, PlacedAwake(cf, s1, g, e), path);
    if wakeup then PlacedAwake(cf, s1, g, e) else s1
  }

  /** `enqueue_entity` */
  ghost function EnqueuedEntity(cf: Config, s: State, g: Node, e: Node, wakeup: bool, path: set<Node>): (r: State)
    requires WellTyped(cf.t, s) && AllRqsOk(cf.t, s, path) && g in cf.t.groups && Child(cf.t, g, e) && e !in s.onRq
    ensures Kept(cf.t, s, g, path, r, path) && OnlyTimes(s, r, if wakeup then path + {e} else path)
    ensures r.onRq == s.onRq + {e} && r.rq[g].nrRunning == s.rq[g].nrRunning + 1
    ensures e !in path ==> TimelineOk(s.rq[g], s.vruntime) && r.vruntime[e] == ArrivalTime(cf, s, e, wakeup)
  {
    var s2 := Arrived(cf, s, g, e, wakeup, path);
    LinkedKeeps(cf.t, s2, g, e, path);
    KeptTrans(cf.t, s, g, path, s2, path, Linked(s2, g, e), path);
    Linked(s2, g, e)
  }

  lemma DequeuedKept(cf: Config, s: State, g: Node, e: Node, path: set<Node>)
    requires WellTyped(cf.t, s) && AllRqsOk(cf.t, s, path) && g in cf.t.groups && Child(cf.t, g, e) && e in s.onRq
    ensures s.rq[g].curr.Some? ==> cf.t.IsEntity(s.rq[g].curr.value)
    ensures var m := UpdatedCurr(cf, s, g);
            var q := m.rq[g];
            && g in m.rq && e in m.weight && e in q.tasks && q.load >= m.weight[e] && q.nrRunning > 0
            && TimelineOk(q, m.vruntime) && (q.curr == Some(e) || e in InOrder(q.tree))
            && var r := Unlinked(m, g, e);
               && Kept(cf.t, s, g, path, r, path) && OnlyTimes(s, r, path) && r.onRq == s.onRq - {e}
               && s.rq[g].nrRunning > 0 && r.rq[g].nrRunning == s.rq[g].nrRunning - 1
  {
    UpdatedCurrKeeps(cf, s, g, path);
    var m := UpdatedCurr(cf, s, g);
    UnlinkedKeeps(cf.t, m, g, e, path);
    UnlinkedForward(cf.t, m, g, e, path);
    KeptTrans(cf.t, s, g, path, m, path, Unlinked(m, g, e), path);
  }

  lemma UnlinkedForward(t: Topology, s: State, g: Node, e: Node, path: set<Node>)
    requires WellTyped(t, s) && g in t.groups && Child(t, g, e)
    requires e in s.rq[g].tasks && s.rq[g].load >= s.weight[e] && s.rq[g].nrRunning > 0
    requires Keyed(InOrder(s.rq[g].tree), s.vruntime) && (s.rq[g].curr == Some(e) || e in InOrder(s.rq[g].tree))
    requires WellTyped(t, Unlinked(s, g, e))
    ensures Forward(t, s, Unlinked(s, g, e))
  {
  }

  /** `dequeue_entity` */
  ghost function DequeuedEntity(cf: Config, s: State, g: Node, e: Node, path: set<Node>): (r: State)
    requires WellTyped(cf.t, s) && AllRqsOk(cf.t, s, path) && g in cf.t.groups && Child(cf.t, g, e) && e in s.onRq
    ensures Kept(cf.t, s, g, path, r, path) && OnlyTimes(s, r, path)
    ensures r.onRq == s.onRq - {e} && s.rq[g].nrRunning > 0 && r.rq[g].nrRunning == s.rq[g].nrRunning - 1
  {
    DequeuedKept(cf, s, g, e, path);
    Unlinked(UpdatedCurr(cf, s, g), g, e)
  }

  /** `set_next_entity` */
  ghost function NextSet(cf: Config, s: State, g: Node, e: Node, path: set<Node>): (r: State)
    requires WellTyped(cf.t, s) && AllRqsOk(cf.t, s, path) && g in cf.t.groups && Child(cf.t, g, e)
    requires s.rq[g].curr == None
    ensures Kept(cf.t, s, g, path, r, path + {e}) && r.onRq == s.onRq && r.vruntime == s.vruntime
    ensures r.rq[g].nrRunning == s.rq[g].nrRunning && r.execStart == s.execStart[e := s.clock]
  {
    TakenKeeps(cf.t, s, g, e, path);
    Taken(s, g, e)
  }

  /** Before it is put back, an on_rq entity is charged. */
  ghost function Settled(cf: Config, s: State, g: Node, e: Node, path: set<Node>): (r: State)
    requires WellTyped(cf.t, s) && AllRqsOk(cf.t, s, path) && g in cf.t.groups && Child(cf.t, g, e)
    requires s.rq[g].curr == Some(e)
    ensures Kept(cf.t, s, g, path, r, path) && r.onRq == s.onRq && r.rq == s.rq
    ensures OnlyTimes(s, r, {e})
      && forall x :: x in s.execStart && x != e ==> x in r.execStart && r.execStart[x] == s.execStart[x]
    ensures e in r.vruntime && r.vruntime[e] == s.vruntime[e] + Charge(cf, s, e)
  {
    UpdatedCurrKeeps(cf, s, g, path);
    if e in s.onRq then UpdatedCurr(cf, s, g) else s
  }

  /** `put_prev_entity` */
  ghost function PrevPut(cf: Config, s: State, g: Node, e: Node, path: set<Node>): (r: State)
    requires WellTyped(cf.t, s) && AllRqsOk(cf.t, s, path) && g in cf.t.groups && Child(cf.t, g, e)
    requires s.rq[g].curr == Some(e)
    ensures Kept(cf.t, s, g, path, r, path - {e}) && r.onRq == s.onRq && r.rq[g].nrRunning == s.rq[g].nrRunning
    ensures OnlyTimes(s, r, {e})
      && forall x :: x in s.execStart && x != e ==> x in r.execStart && r.execStart[x] == s.execStart[x]
    ensures e in r.vruntime && r.vruntime[e] == s.vruntime[e] + Charge(cf, s, e)
  {
    var s1 := Settled(cf, s, g, e, path);
    PutBackKeeps(cf.t, s1, g, e, path);
    KeptTrans(cf.t, s, g, path, s1, path, PutBack(s1, g, e), path - {e});
    PutBack(s1, g, e)
  }

  // ----- which groups are on_rq while a loop climbs the hierarchy -----

  lemma PresentSame(t: Topology, s: State, g: Node, path: set<Node>, s': State, path': set<Node>, off: Node)
    requires WellTyped(t, s) && Kept(t, s, g, path, s', path') && g in t.groups
    requires s'.onRq == s.onRq && s'.rq[g].nrRunning == s.rq[g].nrRunning && PresentOff(t, s, off)
    ensures PresentOff(t, s', off)
  {
    forall h | h in t.groups && h != t.root && h != off
      ensures PresentOk(s', h)
    {
      assert PresentOk(s, h);
      assert h != g ==> s'.rq[h] == s.rq[h];
    }
  }

  lemma PresentMovesUp(t: Topology, s: State, g: Node, e: Node, path: set<Node>, s': State)
    requires WellTyped(t, s) && Kept(t, s, g, path, s', path) && g in t.groups && Child(t, g, e) && PresentOff(t, s, e)
    requires s'.onRq == s.onRq + {e} || s'.onRq == s.onRq - {e}
    requires e in t.groups ==> (e in s'.onRq <==> s.rq[e].nrRunning > 0)
    ensures PresentOff(t, s', g)
  {
    assert t.depth(g) < t.depth(e);
    forall h | h in t.groups && h != t.root && h != g
      ensures PresentOk(s', h)
    {
      assert s'.rq[h] == s.rq[h];
      assert h != e ==> PresentOk(s, h);
    }
  }

  lemma PresentAgain(t: Topology, s: State, g: Node)
    requires WellTyped(t, s) && PresentOff(t, s, g) && g in t.groups && (g != t.root ==> PresentOk(s, g))
    ensures PresentOff(t, s, t.root)
  {
  }

  /** An on_rq entity counts in its `cfs_rq`, whose group is therefore on_rq too. */
  lemma MemberCounts(t: Topology, s: State, g: Node, e: Node, path: set<Node>, off: Node)
    requires Consistent(t, s, path, off) && g in t.groups && Child(t, g, e) && e in s.onRq && g != off
    ensures s.rq[g].nrRunning > 0 && (g != t.root ==> g in s.onRq)
  {
    assert RqOk(t, s, g, path);
    assert e in s.rq[g].tasks;
    assert g != t.root ==> PresentOk(s, g);
  }

  // ----- the pick rule -----

  /** `wakeup_gran` */
  function WakeupGran(cf: Config, weight: nat): nat {
    if weight > NICE_0_LOAD then cf.calcDelta(cf.gran, weight) else cf.gran
  }

  /** `wakeup_preempt_entity` */
  function WakeupPreempt(cf: Config, currV: int, currWeight: nat, v: int): int {
    var vdiff := currV - v;
    if vdiff < 0 then -1
    else if vdiff > WakeupGran(cf, currWeight) then 1
    else 0
  }

  /** `c` may run next on `g`: no on_rq entity there is more than the wake-up granularity behind it. */
  ghost predicate FairPick(cf: Config, s: State, g: Node, c: Node)
    requires WellTyped(cf.t, s)
  {
    && Child(cf.t, g, c) && c in s.onRq
    && forall x {:trigger s.vruntime[x]} :: Child(cf.t, g, x) && x in s.onRq ==>
         s.vruntime[c] <= s.vruntime[x] + WakeupGran(cf, s.weight[c])
  }

  lemma HasLeftmost(t: Topology, s: State, g: Node, path: set<Node>)
    requires WellTyped(t, s) && AllRqsOk(t, s, path) && g in t.groups && s.rq[g].curr == None && s.rq[g].nrRunning > 0
    ensures TimelineOk(s.rq[g], s.vruntime)
    ensures s.rq[g].leftmost.Some? && Child(t, g, s.rq[g].leftmost.value) && s.rq[g].leftmost.value in s.onRq
    ensures s.rq[g].next.Some? ==> Child(t, g, s.rq[g].next.value) && s.rq[g].next.value in s.onRq
  {
    assert RqOk(t, s, g, path);
    var q := s.rq[g];
    assert q.tasks[0] in q.tasks;
    assert q.tasks[0] in InOrder(q.tree);
    assert InOrder(q.tree)[0] in InOrder(q.tree);
  }

  lemma LeftmostCounted(t: Topology, s: State, g: Node, path: set<Node>)
    requires WellTyped(t, s) && AllRqsOk(t, s, path) && g in t.groups
    ensures s.rq[g].leftmost.Some? ==> s.rq[g].nrRunning > 0
  {
    assert RqOk(t, s, g, path);
    var line := InOrder(s.rq[g].tree);
    if line != [] {
      assert line[0] in line;
    }
  }

  lemma LeftmostIsLeast(t: Topology, s: State, g: Node, path: set<Node>, x: Node)
    requires WellTyped(t, s) && AllRqsOk(t, s, path) && g in t.groups && s.rq[g].curr == None
    requires Child(t, g, x) && x in s.onRq
    ensures s.rq[g].leftmost.Some? && s.rq[g].leftmost.value in s.vruntime
    ensures s.vruntime[s.rq[g].leftmost.value] <= s.vruntime[x]
  {
    assert RqOk(t, s, g, path);
    var line := InOrder(s.rq[g].tree);
    assert x in line;
    var i :| 0 <= i < |line| && line[i] == x;
    assert s.vruntime[line[0]] <= s.vruntime[line[i]];
  }

  /** The choice of `pick_next`, between the leftmost entity and `next`. */
  function Chosen(cf: Config, q: CfsRq, s: State): Node
    requires q.leftmost.Some? && q.leftmost.value in s.vruntime
    requires q.next.Some? ==> q.next.value in s.vruntime && q.next.value in s.weight
  {
    if q.next.None? then q.leftmost.value
    else if WakeupPreempt(cf, s.vruntime[q.next.value], s.weight[q.next.value], s.vruntime[q.leftmost.value]) != 0
    then q.leftmost.value
    else q.next.value
  }

  /** `next` runs if it is no more than its wake-up granularity behind the leftmost entity, which runs
      otherwise. */
  ghost predicate PickRule(cf: Config, s: State, g: Node, c: Node)
    requires g in s.rq
  {
    var q := s.rq[g];
    && q.leftmost.Some? && q.leftmost.value in s.vruntime
    && (q.next.Some? ==> q.next.value in s.vruntime && q.next.value in s.weight)
    && c == if q.next.Some?
               && 0 <= s.vruntime[q.next.value] - s.vruntime[q.leftmost.value] <= WakeupGran(cf, s.weight[q.next.value])
            then q.next.value else q.leftmost.value
  }

  /** A heavy entity has a smaller granularity when heavy weights slow time down. */
  lemma GranSmaller(cf: Config, weight: nat)
    ensures weight <= 1024 ==> WakeupGran(cf, weight) == cf.gran
    ensures weight > 1024 ==> WakeupGran(cf, weight) == cf.calcDelta(cf.gran, weight)
    ensures (weight > 1024 ==> cf.calcDelta(cf.gran, weight) <= cf.gran) ==> WakeupGran(cf, weight) <= cf.gran
  {
  }

  /** A picked entity is at most its wakeup_gran above the smallest virtual runtime. */
  lemma ChosenIsFair(cf: Config, s: State, g: Node, path: set<Node>)
    requires WellTyped(cf.t, s) && AllRqsOk(cf.t, s, path) && g in cf.t.groups
    requires s.rq[g].curr == None && s.rq[g].nrRunning > 0
    ensures var q := s.rq[g];
            && q.leftmost.Some? && q.leftmost.value in s.vruntime
            && (q.next.Some? ==> q.next.value in s.vruntime && q.next.value in s.weight)
            && FairPick(cf, s, g, Chosen(cf, q, s))
  {
    HasLeftmost(cf.t, s, g, path);
    var c := Chosen(cf, s.rq[g], s);
    forall x | Child(cf.t, g, x) && x in s.onRq
      ensures s.vruntime[c] <= s.vruntime[x] + WakeupGran(cf, s.weight[c])
    {
      LeftmostIsLeast(cf.t, s, g, path, x);
    }
  }

  // ----- the steps of the entity operations, for the methods below -----

  /** Placing looks at nothing that accounting changes. */
  lemma PlacedAccounted(cf: Config, s: State, g: Node, e: Node)
    requires g in s.rq && e in s.vruntime && e in s.execStart && e in s.weight
    requires s.rq[g].leftmost.Some? ==> s.rq[g].leftmost.value in s.vruntime
    ensures PlacedAwake(cf, Accounted(s, g, e), g, e) == Accounted(PlacedAwake(cf, s, g, e), g, e)
  {
  }

  ghost predicate HasKeys(s: State, g: Node)
    requires g in s.rq
  {
    && Keyed(InOrder(s.rq[g].tree), s.vruntime)
    && (s.rq[g].leftmost.Some? ==> s.rq[g].leftmost.value in s.vruntime)
  }

  lemma EnqueuedIs(cf: Config, s: State, g: Node, e: Node, wakeup: bool, path: set<Node>)
    requires WellTyped(cf.t, s) && AllRqsOk(cf.t, s, path) && g in cf.t.groups && Child(cf.t, g, e) && e !in s.onRq
    ensures s.rq[g].curr.Some? ==> cf.t.IsEntity(s.rq[g].curr.value)
    ensures var m := UpdatedCurr(cf, s, g);
            && e in m.weight && e in m.execStart && e in m.vruntime && g in m.rq && HasKeys(m, g)
            && var r := if wakeup then PlacedAwake(cf, m, g, e) else m;
               && Keyed(InOrder(r.rq[g].tree), r.vruntime)
               && EnqueuedEntity(cf, s, g, e, wakeup, path) == Linked(r, g, e)
  {
    UpdatedCurrKeeps(cf, s, g, path);
    var m := UpdatedCurr(cf, s, g);
    PlacedKeeps(cf, m, g, e, path);
    assert RqOk(cf.t, m, g, path);
    LeftmostKeyed(m.rq[g], m.vruntime);
  }

  lemma DequeuedIs(cf: Config, s: State, g: Node, e: Node, path: set<Node>)
    requires WellTyped(cf.t, s) && AllRqsOk(cf.t, s, path) && g in cf.t.groups && Child(cf.t, g, e) && e in s.onRq
    ensures s.rq[g].curr.Some? ==> cf.t.IsEntity(s.rq[g].curr.value)
    ensures var m := UpdatedCurr(cf, s, g);
            && g in m.rq && e in m.weight && HasKeys(m, g)
            && e in m.rq[g].tasks && m.rq[g].load >= m.weight[e] && m.rq[g].nrRunning > 0
            && (m.rq[g].curr == Some(e) || e in InOrder(m.rq[g].tree))
            && DequeuedEntity(cf, s, g, e, path) == Unlinked(m, g, e)
  {
    UpdatedCurrKeeps(cf, s, g, path);
    var m := UpdatedCurr(cf, s, g);
    UnlinkedKeeps(cf.t, m, g, e, path);
    LeftmostKeyed(m.rq[g], m.vruntime);
  }

  /** The entity was charged the weighted time since its last charge. */
  ghost predicate ChargedNow(cf: Config, s: State, c: Node, r: State) {
    && c in s.vruntime && c in s.execStart && c in s.weight && c in r.vruntime && c in r.execStart
    && s.execStart[c] <= s.clock && r.execStart[c] == s.clock
    && var delta := s.clock - s.execStart[c];
       r.vruntime[c] == s.vruntime[c] + if s.weight[c] == 1024 then delta else cf.calcDelta(delta, s.weight[c])
  }

  lemma CurrCharged(cf: Config, s: State, g: Node, path: set<Node>)
    requires WellTyped(cf.t, s) && AllRqsOk(cf.t, s, path) && g in cf.t.groups && s.rq[g].curr.Some?
    ensures cf.t.IsEntity(s.rq[g].curr.value) && ChargedNow(cf, s, s.rq[g].curr.value, UpdatedCurr(cf, s, g))
  {
    assert RqOk(cf.t, s, g, path);
  }

  /** Before an entity joins a queue, the running entity of that queue is charged up to now. */
  lemma EnqueueCharges(cf: Config, s: State, g: Node, e: Node, wakeup: bool, path: set<Node>)
    requires WellTyped(cf.t, s) && AllRqsOk(cf.t, s, path) && g in cf.t.groups && Child(cf.t, g, e) && e !in s.onRq
    requires s.rq[g].curr.Some? && (s.rq[g].curr == Some(e) ==> !wakeup)
    ensures ChargedNow(cf, s, s.rq[g].curr.value, EnqueuedEntity(cf, s, g, e, wakeup, path))
  {
    CurrCharged(cf, s, g, path);
    EnqueuedIs(cf, s, g, e, wakeup, path);
  }

  /** The same before it leaves. */
  lemma DequeueCharges(cf: Config, s: State, g: Node, e: Node, path: set<Node>)
    requires WellTyped(cf.t, s) && AllRqsOk(cf.t, s, path) && g in cf.t.groups && Child(cf.t, g, e) && e in s.onRq
    requires s.rq[g].curr.Some?
    ensures ChargedNow(cf, s, s.rq[g].curr.value, DequeuedEntity(cf, s, g, e, path))
  {
    CurrCharged(cf, s, g, path);
    DequeuedIs(cf, s, g, e, path);
  }

  lemma PrevPutIs(cf: Config, s: State, g: Node, e: Node, path: set<Node>)
    requires WellTyped(cf.t, s) && AllRqsOk(cf.t, s, path) && g in cf.t.groups && Child(cf.t, g, e)
    requires s.rq[g].curr == Some(e)
    ensures var m := if e in s.onRq then UpdatedCurr(cf, s, g) else s;
            && g in m.rq && e in m.vruntime && HasKeys(m, g)
            && PrevPut(cf, s, g, e, path) == PutBack(m, g, e)
  {
    UpdatedCurrKeeps(cf, s, g, path);
    var m := if e in s.onRq then UpdatedCurr(cf, s, g) else s;
    PutBackKeeps(cf.t, m, g, e, path);
    LeftmostKeyed(m.rq[g], m.vruntime);
  }

  lemma ClockKeeps(t: Topology, s: State, now: nat, path: set<Node>)
    requires Consistent(t, s, path, t.root) && now >= s.clock
    ensures Consistent(t, s.(clock := now), path, t.root)
  {
    var s' := s.(clock := now);
    forall g | g in t.groups
      ensures RqOk(t, s', g, path)
    {
      assert RqOk(t, s, g, path);
    }
    forall g | g in t.groups && g != t.root
      ensures PresentOk(s', g)
    {
      assert PresentOk(s, g);
    }
  }
}
