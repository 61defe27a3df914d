/** Runqueues and tasks of several CPUs (hw4/sched.c): what wake-up, sleep and migration do to them, and
    what the counters of all CPUs add up to.
 */
module SmpRunqueues {
  import opened Options

  type Cpu = nat
  type TaskId = nat

  /** `unsigned long` wraps at this value. */
  const WORD: nat := 0x1_0000_0000_0000_0000

  datatype StateBit = Interruptible | Uninterruptible | Stopped | Traced | WakeKill | Dead

  /** TASK_RUNNING is the empty state. */
  datatype Task = Task(state: set<StateBit>, onRq: bool, cpu: Cpu)
  {
    /** Off the runqueue and counted as uninterruptible. */
    predicate Blocked() { !onRq && Uninterruptible in state }
  }

  /** `curr` is None while the idle task runs. */
  datatype Rq = Rq(queue: set<TaskId>, nrRunning: nat, nrUninterruptible: nat, curr: Option<TaskId>)

  /** What the runqueue locks protect. */
  datatype Data = Data(tasks: seq<Task>, rqs: seq<Rq>)

  /** Each on_rq task is queued on the runqueue of its CPU and on no other, other tasks on none, and
      `nr_running` counts the queue. */
  ghost predicate QueuesOk(d: Data) {
    && (forall p :: 0 <= p < |d.tasks| ==> d.tasks[p].cpu < |d.rqs|)
    && (forall p :: 0 <= p < |d.tasks| && d.tasks[p].onRq ==> p in d.rqs[d.tasks[p].cpu].queue)
    && (forall c, p {:trigger p in d.rqs[c].queue} :: 0 <= c < |d.rqs| && p in d.rqs[c].queue ==>
          p < |d.tasks| && d.tasks[p].onRq && d.tasks[p].cpu == c)
    && (forall c :: 0 <= c < |d.rqs| ==> d.rqs[c].nrRunning == |d.rqs[c].queue|)
  }

  function SumUninterruptible(rqs: seq<Rq>): nat {
    if rqs == [] then 0 else rqs[0].nrUninterruptible + SumUninterruptible(rqs[1..])
  }

  function CountBlocked(tasks: seq<Task>): nat {
    if tasks == [] then 0 else (if tasks[0].Blocked() then 1 else 0) + CountBlocked(tasks[1..])
  }

  /** Only the sum of `nr_uninterruptible` over all CPUs means anything, and only modulo the word. */
  ghost predicate UninterruptibleOk(d: Data) {
    && (forall c :: 0 <= c < |d.rqs| ==> d.rqs[c].nrUninterruptible < WORD)
    && (SumUninterruptible(d.rqs) - CountBlocked(d.tasks)) % WORD == 0
  }

  ghost predicate DataOk(d: Data) { QueuesOk(d) && UninterruptibleOk(d) }

  // ----- what the code does to tasks and runqueues -----

  /** `activate_task`: enqueue, and count one uninterruptible task less here. */
  function Activate(d: Data, c: Cpu, p: TaskId): Data
    requires c < |d.rqs| && p < |d.tasks|
  {
    var t, r := d.tasks[p], d.rqs[c];
    d.(tasks := d.tasks[p := t.(onRq := true)],
       rqs := d.rqs[c := r.(queue := r.queue + {p},
                            nrRunning := r.nrRunning + 1,
                            nrUninterruptible := if Uninterruptible in t.state
                                                 then (r.nrUninterruptible + WORD - 1) % WORD
                                                 else r.nrUninterruptible)])
  }

  /** `deactivate_task` */
  function Deactivate(d: Data, c: Cpu, p: TaskId): Data
    requires c < |d.rqs| && p < |d.tasks| && d.rqs[c].nrRunning > 0
  {
    var t, r := d.tasks[p], d.rqs[c];
    d.(tasks := d.tasks[p := t.(onRq := false)],
       rqs := d.rqs[c := r.(queue := r.queue - {p},
                            nrRunning := r.nrRunning - 1,
                            nrUninterruptible := if Uninterruptible in t.state
                                                 then (r.nrUninterruptible + 1) % WORD
                                                 else r.nrUninterruptible)])
  }

  /** `set_task_cpu` */
  function SetTaskCpu(d: Data, p: TaskId, c: Cpu): Data
    requires p < |d.tasks|
  {
    d.(tasks := d.tasks[p := d.tasks[p].(cpu := c)])
  }

  function SetTaskState(d: Data, p: TaskId, st: set<StateBit>): Data
    requires p < |d.tasks|
  {
    d.(tasks := d.tasks[p := d.tasks[p].(state := st)])
  }

  function SetCurr(d: Data, c: Cpu, next: Option<TaskId>): Data
    requires c < |d.rqs|
  {
    d.(rqs := d.rqs[c := d.rqs[c].(curr := next)])
  }

  /** `pull_task`, and `__migrate_task` of a queued task. */
  function Pull(d: Data, p: TaskId, src: Cpu, dst: Cpu): Data
    requires src < |d.rqs| && dst < |d.rqs| && p < |d.tasks| && d.rqs[src].nrRunning > 0
  {
    Activate(SetTaskCpu(Deactivate(d, src, p), p, dst), dst, p)
  }

  lemma {:induction false} SumUpdate(rqs: seq<Rq>, c: nat, r: Rq)
    requires c < |rqs|
    ensures SumUninterruptible(rqs[c := r]) == SumUninterruptible(rqs) - rqs[c].nrUninterruptible + r.nrUninterruptible
  {
    if c > 0 {
      SumUpdate(rqs[1..], c - 1, r);
      assert rqs[c := r][1..] == rqs[1..][c - 1 := r];
    }
  }

  lemma {:induction false} BlockedUpdate(tasks: seq<Task>, p: nat, t: Task)
    requires p < |tasks|
    ensures CountBlocked(tasks[p := t]) == CountBlocked(tasks) - (if tasks[p].Blocked() then 1 else 0)
                                           + if t.Blocked() then 1 else 0
  {
    if p > 0 {
      BlockedUpdate(tasks[1..], p - 1, t);
      assert tasks[p := t][1..] == tasks[1..][p - 1 := t];
    }
  }

  /** A counter that wraps below zero still contributes one less, modulo the word. */
  lemma WrapDown(u: nat, rest: int)
    requires u < WORD && (rest + u) % WORD == 0
    ensures (u + WORD - 1) % WORD < WORD && (rest + (u + WORD - 1) % WORD + 1) % WORD == 0
  {
    if u == 0 {
      assert (u + WORD - 1) % WORD == WORD - 1;
    } else {
      assert (u + WORD - 1) % WORD == u - 1;
    }
  }

  lemma ActivateCounts(d: Data, c: Cpu, p: TaskId)
    requires UninterruptibleOk(d) && c < |d.rqs| && p < |d.tasks| && !d.tasks[p].onRq
    ensures UninterruptibleOk(Activate(d, c, p))
  {
    var d' := Activate(d, c, p);
    SumUpdate(d.rqs, c, d'.rqs[c]);
    BlockedUpdate(d.tasks, p, d'.tasks[p]);
    WrapDown(d.rqs[c].nrUninterruptible,
             SumUninterruptible(d.rqs) - d.rqs[c].nrUninterruptible - CountBlocked(d.tasks));
  }

  lemma ActivateOk(d: Data, c: Cpu, p: TaskId)
    requires DataOk(d) && c < |d.rqs| && p < |d.tasks| && !d.tasks[p].onRq && d.tasks[p].cpu == c
    ensures DataOk(Activate(d, c, p))
  {
    ActivateCounts(d, c, p);
    assert p !in d.rqs[c].queue;
  }

  lemma DeactivateCounts(d: Data, c: Cpu, p: TaskId)
    requires UninterruptibleOk(d) && c < |d.rqs| && p < |d.tasks| && d.tasks[p].onRq && d.rqs[c].nrRunning > 0
    ensures UninterruptibleOk(Deactivate(d, c, p))
  {
    var d' := Deactivate(d, c, p);
    SumUpdate(d.rqs, c, d'.rqs[c]);
    BlockedUpdate(d.tasks, p, d'.tasks[p]);
  }

  lemma DeactivateOk(d: Data, c: Cpu, p: TaskId)
    requires DataOk(d) && c < |d.rqs| && p < |d.tasks| && d.tasks[p].onRq && d.tasks[p].cpu == c
    ensures d.rqs[c].nrRunning > 0 && DataOk(Deactivate(d, c, p))
  {
    assert p in d.rqs[c].queue;
    DeactivateCounts(d, c, p);
  }

  lemma SetTaskCpuOk(d: Data, p: TaskId, c: Cpu)
    requires DataOk(d) && p < |d.tasks| && !d.tasks[p].onRq && c < |d.rqs|
    ensures DataOk(SetTaskCpu(d, p, c))
  {
    BlockedUpdate(d.tasks, p, d.tasks[p].(cpu := c));
  }

  lemma SetTaskStateOk(d: Data, p: TaskId, st: set<StateBit>)
    requires DataOk(d) && p < |d.tasks| && d.tasks[p].onRq
    ensures DataOk(SetTaskState(d, p, st))
  {
    BlockedUpdate(d.tasks, p, d.tasks[p].(state := st));
  }

  lemma SetCurrOk(d: Data, c: Cpu, next: Option<TaskId>)
    requires DataOk(d) && c < |d.rqs|
    ensures DataOk(SetCurr(d, c, next))
  {
    SumUpdate(d.rqs, c, d.rqs[c].(curr := next));
  }

  lemma PullOk(d: Data, p: TaskId, src: Cpu, dst: Cpu)
    requires DataOk(d) && src < |d.rqs| && dst < |d.rqs|
    requires p < |d.tasks| && d.tasks[p].onRq && d.tasks[p].cpu == src
    ensures d.rqs[src].nrRunning > 0 && DataOk(Pull(d, p, src, dst))
  {
    DeactivateOk(d, src, p);
    SetTaskCpuOk(Deactivate(d, src, p), p, dst);
    ActivateOk(SetTaskCpu(Deactivate(d, src, p), p, dst), dst, p);
  }

  // ----- counting over all CPUs -----

  ghost function QueuedBelow(d: Data, n: nat): set<TaskId> {
    set p: TaskId | p < |d.tasks| && d.tasks[p].onRq && d.tasks[p].cpu < n
  }

  function SumRunning(rqs: seq<Rq>): nat {
    if rqs == [] then 0 else SumRunning(rqs[..|rqs| - 1]) + rqs[|rqs| - 1].nrRunning
  }

  lemma QueuedNext(d: Data, n: nat)
    requires QueuesOk(d) && n < |d.rqs|
    ensures |QueuedBelow(d, n + 1)| == |QueuedBelow(d, n)| + d.rqs[n].nrRunning
  {
    var last := d.rqs[n].queue;
    assert QueuedBelow(d, n + 1) == QueuedBelow(d, n) + last;
    assert QueuedBelow(d, n) !! last;
  }

  /** `nr_running` summed over the first CPUs counts the tasks queued on them. */
  lemma {:induction false} RunningCounts(d: Data, n: nat)
    requires QueuesOk(d) && n <= |d.rqs|
    ensures SumRunning(d.rqs[..n]) == |QueuedBelow(d, n)|
  {
    if n == 0 {
      assert QueuedBelow(d, 0) == {};
    } else {
      RunningCounts(d, n - 1);
      QueuedNext(d, n - 1);
      assert d.rqs[..n][..n - 1] == d.rqs[..n - 1];
    }
  }

  /** The sum of `nr_running` over all CPUs is the number of on_rq tasks. */
  lemma RunningSum(d: Data)
    requires QueuesOk(d)
    ensures SumRunning(d.rqs) == |set p: TaskId | p < |d.tasks| && d.tasks[p].onRq|
  {
    RunningCounts(d, |d.rqs|);
    assert d.rqs[..|d.rqs|] == d.rqs;
    assert QueuedBelow(d, |d.rqs|) == set p: TaskId | p < |d.tasks| && d.tasks[p].onRq;
  }

  lemma {:induction false} SumSnoc(rqs: seq<Rq>, r: Rq)
    ensures SumUninterruptible(rqs + [r]) == SumUninterruptible(rqs) + r.nrUninterruptible
  {
    if |rqs| > 0 {
      assert (rqs + [r])[1..] == rqs[1..] + [r];
      SumSnoc(rqs[1..], r);
    }
  }

  lemma {:induction false} AtMostAll(tasks: seq<Task>)
    ensures CountBlocked(tasks) <= |tasks|
  {
    if |tasks| > 0 {
      AtMostAll(tasks[1..]);
    }
  }

  lemma AddModulo(x: nat, y: nat)
    ensures AddWord(WordOf(x), y) == WordOf(x + y)
  {
    assert x == x / WORD * WORD + x % WORD;
  }

  /** Addition of unsigned longs. */
  function AddWord(x: nat, y: nat): nat { (x + y) % WORD }

  function WordOf(x: nat): nat { x % WORD }

  lemma SmallWord(x: nat)
    requires x < WORD
    ensures WordOf(x) == x
  {
  }

  lemma TotalBlocked(d: Data)
    requires UninterruptibleOk(d) && |d.tasks| < WORD / 2
    ensures SumUninterruptible(d.rqs) % WORD == CountBlocked(d.tasks) < WORD / 2
  {
    AtMostAll(d.tasks);
  }

  lemma {:induction false} QueuedOrBlocked(tasks: seq<Task>, i: nat)
    requires i <= |tasks|
    ensures |set p: TaskId | i <= p < |tasks| && tasks[p].onRq| + CountBlocked(tasks[i..]) <= |tasks| - i
    decreases |tasks| - i
  {
    var queued := set p: TaskId | i <= p < |tasks| && tasks[p].onRq;
    if i == |tasks| {
      assert queued == {};
    } else {
      QueuedOrBlocked(tasks, i + 1);
      var rest := set p: TaskId | i + 1 <= p < |tasks| && tasks[p].onRq;
      assert tasks[i..][1..] == tasks[i + 1..];
      assert queued == if tasks[i].onRq then rest + {i} else rest;
    }
  }

  /** No task is both queued and blocked. */
  lemma TotalFits(d: Data)
    ensures |set p: TaskId | p < |d.tasks| && d.tasks[p].onRq| + CountBlocked(d.tasks) <= |d.tasks|
  {
    QueuedOrBlocked(d.tasks, 0);
    assert d.tasks[0..] == d.tasks;
    assert (set p: TaskId | p < |d.tasks| && d.tasks[p].onRq) == set p: TaskId | 0 <= p < |d.tasks| && d.tasks[p].onRq;
  }

  lemma Totals(d: Data)
    requires QueuesOk(d) && UninterruptibleOk(d) && |d.tasks| < WORD / 2
    ensures var running, blocked := |set p: TaskId | p < |d.tasks| && d.tasks[p].onRq|, CountBlocked(d.tasks);
            && WordOf(SumRunning(d.rqs)) == running && WordOf(SumUninterruptible(d.rqs)) == blocked < WORD / 2
            && AddWord(running, blocked) == running + blocked
  {
    RunningSum(d);
    TotalBlocked(d);
    TotalFits(d);
    SmallWord(SumRunning(d.rqs));
    SmallWord(SumRunning(d.rqs) + CountBlocked(d.tasks));
  }

  /** The loop of `nr_active`, adding unsigned longs. */
  method SumCounters(rqs: seq<Rq>) returns (running: nat, uninterruptible: nat)
    ensures running == WordOf(SumRunning(rqs)) && uninterruptible == WordOf(SumUninterruptible(rqs))
  {
    running, uninterruptible := 0, 0;
    var i := 0;
    while i < |rqs|
      invariant 0 <= i <= |rqs|
      invariant running == WordOf(SumRunning(rqs[..i])) && uninterruptible == WordOf(SumUninterruptible(rqs[..i]))
    {
      SumNext(rqs, i);
      running := AddWord(running, rqs[i].nrRunning);
      uninterruptible := AddWord(uninterruptible, rqs[i].nrUninterruptible);
      i := i + 1;
    }
    assert rqs[..i] == rqs;
  }

  lemma SumNext(rqs: seq<Rq>, i: nat)
    requires i < |rqs|
    ensures WordOf(SumRunning(rqs[..i + 1])) == AddWord(WordOf(SumRunning(rqs[..i])), rqs[i].nrRunning)
    ensures WordOf(SumUninterruptible(rqs[..i + 1])) ==
            AddWord(WordOf(SumUninterruptible(rqs[..i])), rqs[i].nrUninterruptible)
  {
    assert rqs[..i + 1] == rqs[..i] + [rqs[i]];
    SumSnoc(rqs[..i], rqs[i]);
    AddModulo(SumRunning(rqs[..i]), rqs[i].nrRunning);
    AddModulo(SumUninterruptible(rqs[..i]), rqs[i].nrUninterruptible);
  }

  /** `nr_active`: although single `nr_uninterruptible` counters wrap, the total is exact. */
  method NrActive(d: Data) returns (active: nat)
    requires QueuesOk(d) && UninterruptibleOk(d) && |d.tasks| < WORD / 2
    ensures active == |set p: TaskId | p < |d.tasks| && d.tasks[p].onRq| + CountBlocked(d.tasks)
  {
    var running, uninterruptible := SumCounters(d.rqs);
    Totals(d);
    // (long)uninterruptible < 0
    if uninterruptible >= WORD / 2 {
      uninterruptible := 0;
    }
    active := AddWord(running, uninterruptible);
  }

  lemma QueuedExactly(d: Data)
    requires QueuesOk(d)
    ensures forall p, c :: 0 <= p < |d.tasks| && 0 <= c < |d.rqs| ==>
              (p in d.rqs[c].queue <==> d.tasks[p].onRq && d.tasks[p].cpu == c)
  {
  }

  lemma SameModulo(x: nat, y: nat)
    requires (x - y) % WORD == 0
    ensures x % WORD == y % WORD
  {
  }
}
