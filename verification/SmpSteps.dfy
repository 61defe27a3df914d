/** The protocol around the runqueues (hw4/sched.c): locks, wake-up, migration, balancing, schedule.

    Contexts run kernel code; the program counter of each says where it stands between two lock operations.
    A step of the machine is one such stretch of code, so every interleaving of the contexts is a run.
    Context k below the number of CPUs is CPU k itself, with its interrupts and its `schedule()`; the others,
    any number of them, are threads, which can be held up anywhere, by preemption too. Runqueues are ordered
    by CPU number, as the source orders them by address.
 */
module SmpSteps {
  import opened Options
  import opened SmpRunqueues
  import opened Words

  type Ctx = nat

  /** What a holder of `task_rq_lock` wants to do with the task. */
  datatype Goal =
    | Wake(mask: set<StateBit>, again: bool)
    | Migrate(dest: Cpu)

  datatype Pc =
    | Out
      // task_rq_lock
    | TrlRead(goal: Goal, p: TaskId)
    | TrlSpin(goal: Goal, p: TaskId, c: Cpu)
    | TrlCheck(goal: Goal, p: TaskId, c: Cpu)
    | Locked(goal: Goal, p: TaskId, c: Cpu)
      // double_rq_lock
    | DrlSpin(a: Cpu, b: Cpu)
    | DrlSpin2(a: Cpu, b: Cpu)
    | InDouble(a: Cpu, b: Cpu)
      // schedule, and the tail of try_to_wake_up: holding the lock of `a`
    | SchedSpin
    | Hold(a: Cpu, sched: bool)
      // double_lock_balance(a, b); `snap` is runqueue `a` as it was at the call
    | DlbTry(a: Cpu, b: Cpu, sched: bool, snap: Rq)
    | DlbSpinHigh(a: Cpu, b: Cpu, sched: bool, snap: Rq)
    | DlbSpinFirst(a: Cpu, b: Cpu, sched: bool, snap: Rq)
    | DlbSpinBack(a: Cpu, b: Cpu, sched: bool, snap: Rq)
    | DlbDone(a: Cpu, b: Cpu, sched: bool, snap: Rq, ret: bool)
    | InDlb(a: Cpu, b: Cpu, sched: bool)

  datatype State = State(d: Data, lock: seq<Option<Ctx>>, pc: seq<Pc>)

  /** The runqueue locks a context holds. */
  function Held(pc: Pc): set<Cpu> {
    match pc
    case Out | TrlRead(_, _) | TrlSpin(_, _, _) | DrlSpin(_, _) | SchedSpin => {}
    case DlbSpinFirst(_, _, _, _) => {}
    case TrlCheck(_, _, c) => {c}
    case Locked(_, _, c) => {c}
    case DrlSpin2(a, b) => {Min(a, b)}
    case InDouble(a, b) => {a, b}
    case Hold(a, _) => {a}
    case DlbTry(a, _, _, _) => {a}
    case DlbSpinHigh(a, _, _, _) => {a}
    case DlbSpinBack(_, b, _, _) => {b}
    case DlbDone(a, b, _, _, _) => {a, b}
    case InDlb(a, b, _) => {a, b}
  }

  /** The lock a context spins on. */
  function Waits(k: Ctx, pc: Pc): Option<Cpu> {
    match pc
    case TrlSpin(_, _, c) => Some(c)
    case DrlSpin(a, b) => Some(Min(a, b))
    case DrlSpin2(a, b) => Some(Max(a, b))
    case SchedSpin => Some(k)
    case DlbSpinHigh(_, b, _, _) => Some(b)
    case DlbSpinFirst(_, b, _, _) => Some(b)
    case DlbSpinBack(a, _, _, _) => Some(a)
    case _ => None
  }

  /** Inside `schedule()`, where the current task may already be off the queue. */
  predicate InSchedule(k: Ctx, pc: Pc) {
    match pc
    case Hold(a, sched) => sched && a == k
    case DlbTry(a, _, sched, _) => sched && a == k
    case DlbSpinHigh(a, _, sched, _) => sched && a == k
    case DlbSpinFirst(a, _, sched, _) => sched && a == k
    case DlbSpinBack(a, _, sched, _) => sched && a == k
    case DlbDone(a, _, sched, _, _) => sched && a == k
    case InDlb(a, _, sched) => sched && a == k
    case _ => false
  }

  predicate PcOk(k: Ctx, pc: Pc, n: nat, m: nat) {
    match pc
    case Out => true
    case SchedSpin => k < n
    case TrlRead(g, p) => p < m && GoalOk(g, n)
    case TrlSpin(g, p, c) => p < m && c < n && GoalOk(g, n)
    case TrlCheck(g, p, c) => p < m && c < n && GoalOk(g, n)
    case Locked(g, p, c) => p < m && c < n && GoalOk(g, n)
    case DrlSpin(a, b) => a < n && b < n
    case DrlSpin2(a, b) => a < n && b < n && a != b
    case InDouble(a, b) => a < n && b < n
    case Hold(a, sched) => a < n && (sched ==> a == k)
    case DlbTry(a, b, sched, _) => a < n && b < n && a != b && (sched ==> a == k)
    case DlbSpinHigh(a, b, sched, _) => a < b < n && (sched ==> a == k)
    case DlbSpinFirst(a, b, sched, _) => b < a < n && (sched ==> a == k)
    case DlbSpinBack(a, b, sched, _) => b < a < n && (sched ==> a == k)
    case DlbDone(a, b, sched, _, _) => a < n && b < n && a != b && (sched ==> a == k)
    case InDlb(a, b, sched) => a < n && b < n && a != b && (sched ==> a == k)
  }

  predicate GoalOk(g: Goal, n: nat) { g.Migrate? ==> g.dest < n }

  ghost predicate Shape(s: State) {
    && |s.d.rqs| == |s.lock| <= |s.pc|
    && (forall k :: 0 <= k < |s.pc| ==> PcOk(k, s.pc[k], |s.d.rqs|, |s.d.tasks|))
  }

  /** A lock belongs to exactly the context whose program counter says so. */
  ghost predicate LocksOk(s: State)
    requires Shape(s)
  {
    && (forall k, c :: 0 <= k < |s.pc| && 0 <= c < |s.lock| ==>
          (s.lock[c] == Some(k) <==> c in Held(s.pc[k])))
    && (forall c :: 0 <= c < |s.lock| && s.lock[c].Some? ==> s.lock[c].value < |s.pc|)
  }

  /** What `task_rq_lock` and `double_lock_balance` promise their callers. */
  ghost predicate Promise(d: Data, pc: Pc) {
    match pc
    case Locked(_, p, c) => p < |d.tasks| && d.tasks[p].cpu == c
    case DlbTry(a, _, _, snap) => a < |d.rqs| && d.rqs[a] == snap
    case DlbSpinHigh(a, _, _, snap) => a < |d.rqs| && d.rqs[a] == snap
    case DlbDone(a, _, _, snap, ret) => a < |d.rqs| && (!ret ==> d.rqs[a] == snap)
    case _ => true
  }

  ghost predicate PromisesOk(s: State) {
    forall k :: 0 <= k < |s.pc| ==> Promise(s.d, s.pc[k])
  }

  /** The running task belongs to its CPU, and is off the queue only inside `schedule()`. */
  ghost predicate CurrOk(s: State)
    requires Shape(s)
  {
    forall c :: 0 <= c < |s.d.rqs| && s.d.rqs[c].curr.Some? ==>
      var p := s.d.rqs[c].curr.value;
      p < |s.d.tasks| && s.d.tasks[p].cpu == c && (!s.d.tasks[p].onRq ==> InSchedule(c, s.pc[c]))
  }

  ghost predicate Inv(s: State) {
    Shape(s) && LocksOk(s) && PromisesOk(s) && DataOk(s.d) && CurrOk(s)
  }

  // ----- the steps -----

  datatype Action =
    | SetOwnState(st: set<StateBit>)
    | Start(pc: Pc)
    | ReadTaskRq
    | Acquire
    | Recheck
    | WakeBody(select: Cpu)
    | MigrateBody
    | UnlockRq
    | CallBalance(b: Cpu)
    | TryLock
    | ReturnBalance
    | PullTask(p: TaskId, src: Cpu, dst: Cpu)
    | MoveSleeping(p: TaskId, src: Cpu, dst: Cpu)
    | UnlockBusiest
    | UnlockBoth
    | Signal
    | Sleep
    | Switch(next: Option<TaskId>)

  /** Where a spinning context stands once it has the lock it waits for. */
  function AfterSpin(k: Ctx, pc: Pc): Pc {
    match pc
    case TrlSpin(g, p, c) => TrlCheck(g, p, c)
    case DrlSpin(a, b) => if a == b then InDouble(a, b) else DrlSpin2(a, b)
    case DrlSpin2(a, b) => InDouble(a, b)
    case SchedSpin => Hold(k, true)
    case DlbSpinHigh(a, b, sched, snap) => DlbDone(a, b, sched, snap, false)
    case DlbSpinFirst(a, b, sched, snap) => DlbSpinBack(a, b, sched, snap)
    case DlbSpinBack(a, b, sched, snap) => DlbDone(a, b, sched, snap, true)
    case _ => pc
  }

  predicate MayStart(pc: Pc) {
    pc.TrlRead? || pc.DrlSpin? || pc.SchedSpin?
  }

  /** From one of two runqueues to the other. */
  predicate Between(a: Cpu, b: Cpu, src: Cpu, dst: Cpu) {
    src != dst && ((src == a && dst == b) || (src == b && dst == a))
  }

  /** When the action can be the next step of context `k`. */
  predicate Guard(s: State, k: Ctx, a: Action)
    requires Shape(s) && k < |s.pc|
  {
    var pc, d := s.pc[k], s.d;
    match a
    case SetOwnState(st) =>
      pc.Out? && k < |d.rqs| && d.rqs[k].curr.Some? && d.rqs[k].curr.value < |d.tasks|
    case Start(pc') => pc.Out? && MayStart(pc') && PcOk(k, pc', |d.rqs|, |d.tasks|)
    case ReadTaskRq => pc.TrlRead? && d.tasks[pc.p].cpu < |d.rqs|
    case Acquire => Waits(k, pc).Some? && s.lock[Waits(k, pc).value] == None
    case Recheck => pc.TrlCheck?
    case WakeBody(select) => pc.Locked? && pc.goal.Wake? && select < |d.rqs|
    case MigrateBody => pc.Locked? && pc.goal.Migrate?
    case UnlockRq => pc.Hold? && !pc.sched
    case CallBalance(b) => pc.Hold? && b < |d.rqs| && b != pc.a
    case TryLock => pc.DlbTry?
    case ReturnBalance => pc.DlbDone?
    case PullTask(p, src, dst) =>
      && (pc.InDlb? || pc.InDouble?) && Between(pc.a, pc.b, src, dst)
      && p < |d.tasks| && d.tasks[p].onRq && d.tasks[p].cpu == src && d.rqs[src].curr != Some(p)
      && d.rqs[src].nrRunning > 0
    case MoveSleeping(p, src, dst) =>
      && pc.InDouble? && Between(pc.a, pc.b, src, dst)
      && p < |d.tasks| && !d.tasks[p].onRq && d.tasks[p].cpu == src && d.rqs[src].curr != Some(p)
    case UnlockBusiest => pc.InDlb?
    case UnlockBoth => pc.InDouble?
    case Signal => pc.Hold? && pc.sched && k < |d.rqs| && OnCpu(d, k)
    case Sleep =>
      && pc.Hold? && pc.sched && k < |d.rqs| && OnCpu(d, k)
      && d.tasks[d.rqs[k].curr.value].state != {} && d.rqs[k].nrRunning > 0
    case Switch(next) =>
      && pc.Hold? && pc.sched && k < |d.rqs|
      && (next.None? ==> d.rqs[k].queue == {}) && (next.Some? ==> next.value in d.rqs[k].queue)
  }

  /** A task runs on CPU `k` and is still queued. */
  predicate OnCpu(d: Data, k: Ctx)
    requires k < |d.rqs|
  {
    d.rqs[k].curr.Some? && d.rqs[k].curr.value < |d.tasks| && d.tasks[d.rqs[k].curr.value].onRq
  }

  function Go(s: State, k: Ctx, pc: Pc): State
    requires k < |s.pc|
  {
    s.(pc := s.pc[k := pc])
  }

  function Take(s: State, k: Ctx, c: Cpu): State
    requires c < |s.lock|
  {
    s.(lock := s.lock[c := Some(k)])
  }

  function Drop(s: State, c: Cpu): State
    requires c < |s.lock|
  {
    s.(lock := s.lock[c := None])
  }

  /** `try_to_wake_up` between the return of `task_rq_lock` and the next lock operation. */
  function WakeSection(s: State, k: Ctx, mask: set<StateBit>, again: bool, p: TaskId, c: Cpu, select: Cpu): State
    requires k < |s.pc| && |s.lock| == |s.d.rqs| && p < |s.d.tasks| && c < |s.d.rqs|
  {
    var t := s.d.tasks[p];
    if t.state * mask == {} then
      Go(Drop(s, c), k, Out)
    else if t.onRq then
      Go(s.(d := SetTaskState(s.d, p, {})), k, Hold(c, false))
    else if s.d.rqs[c].curr == Some(p) || again || select == c then
      Go(s.(d := SetTaskState(Activate(s.d, c, p), p, {})), k, Hold(c, false))
    else
      Go(Drop(s.(d := SetTaskCpu(s.d, p, select)), c), k, TrlRead(Wake(mask, true), p))
  }

  function Next(s: State, k: Ctx, a: Action): State
    requires Shape(s) && k < |s.pc| && Guard(s, k, a)
  {
    var pc, d := s.pc[k], s.d;
    match a
    case SetOwnState(st) => s.(d := SetTaskState(d, d.rqs[k].curr.value, st))
    case Start(pc') => Go(s, k, pc')
    case ReadTaskRq => Go(s, k, TrlSpin(pc.goal, pc.p, d.tasks[pc.p].cpu))
    case Acquire => Go(Take(s, k, Waits(k, pc).value), k, AfterSpin(k, pc))
    case Recheck =>
      if d.tasks[pc.p].cpu == pc.c then Go(s, k, Locked(pc.goal, pc.p, pc.c))
      else Go(Drop(s, pc.c), k, TrlRead(pc.goal, pc.p))
    case WakeBody(select) => WakeSection(s, k, pc.goal.mask, pc.goal.again, pc.p, pc.c, select)
    case MigrateBody =>
      var d' := if !d.tasks[pc.p].onRq && d.rqs[pc.c].curr != Some(pc.p)
                then SetTaskCpu(d, pc.p, pc.goal.dest) else d;
      Go(Drop(s.(d := d'), pc.c), k, Out)
    case UnlockRq => Go(Drop(s, pc.a), k, Out)
    case CallBalance(b) => Go(s, k, DlbTry(pc.a, b, pc.sched, d.rqs[pc.a]))
    case TryLock =>
      if s.lock[pc.b] == None then Go(Take(s, k, pc.b), k, DlbDone(pc.a, pc.b, pc.sched, pc.snap, false))
      else if pc.b < pc.a then Go(Drop(s, pc.a), k, DlbSpinFirst(pc.a, pc.b, pc.sched, pc.snap))
      else Go(s, k, DlbSpinHigh(pc.a, pc.b, pc.sched, pc.snap))
    case ReturnBalance => Go(s, k, InDlb(pc.a, pc.b, pc.sched))
    case PullTask(p, src, dst) => s.(d := Pull(d, p, src, dst))
    case MoveSleeping(p, src, dst) => s.(d := SetTaskCpu(d, p, dst))
    case UnlockBusiest => Go(Drop(s, pc.b), k, Hold(pc.a, pc.sched))
    case UnlockBoth => Go(Drop(Drop(s, pc.a), pc.b), k, Out)
    case Signal => s.(d := SetTaskState(d, d.rqs[k].curr.value, {}))
    case Sleep => s.(d := Deactivate(d, k, d.rqs[k].curr.value))
    case Switch(next) => Go(Drop(s.(d := SetCurr(d, k, next)), pc.a), k, Out)
  }

  // ----- every step keeps the invariant -----

  /** A context touches only runqueues, and the CPU of tasks of runqueues, whose locks it holds. */
  ghost predicate WithinLocks(s: State, k: Ctx, d': Data)
    requires k < |s.pc|
  {
    && |d'.rqs| == |s.d.rqs| && |d'.tasks| == |s.d.tasks|
    && (forall c :: 0 <= c < |s.d.rqs| && c !in Held(s.pc[k]) ==> d'.rqs[c] == s.d.rqs[c])
    && (forall p :: 0 <= p < |s.d.tasks| && s.d.tasks[p].cpu !in Held(s.pc[k]) ==>
          d'.tasks[p].cpu == s.d.tasks[p].cpu)
  }

  ghost predicate LocksMoved(s: State, k: Ctx, s': State)
    requires k < |s.pc| == |s'.pc|
  {
    && |s'.lock| == |s.lock|
    && forall c :: 0 <= c < |s.lock| ==>
         && s'.lock[c] == (if c in Held(s'.pc[k]) then Some(k) else if c in Held(s.pc[k]) then None else s.lock[c])
         && (c in Held(s'.pc[k]) && c !in Held(s.pc[k]) ==> s.lock[c] == None)
  }

  /** Promises made to the other contexts survive a step that stays within its locks. */
  lemma OthersKeepPromises(s: State, k: Ctx, d': Data, j: Ctx)
    requires Shape(s) && LocksOk(s) && PromisesOk(s) && k < |s.pc| && j < |s.pc| && j != k
    requires WithinLocks(s, k, d')
    ensures Promise(d', s.pc[j])
  {
    assert Promise(s.d, s.pc[j]) && PcOk(j, s.pc[j], |s.d.rqs|, |s.d.tasks|);
    forall c | c in Held(s.pc[j]) && c < |s.lock|
      ensures c !in Held(s.pc[k])
    {
      assert s.lock[c] == Some(j);
    }
  }

  lemma MovedLocksOk(s: State, k: Ctx, s': State)
    requires Shape(s) && LocksOk(s) && k < |s.pc| && Shape(s')
    requires |s'.pc| == |s.pc| && s'.pc == s.pc[k := s'.pc[k]] && LocksMoved(s, k, s')
    ensures LocksOk(s')
  {
    forall j, c | 0 <= j < |s'.pc| && 0 <= c < |s'.lock|
      ensures s'.lock[c] == Some(j) <==> c in Held(s'.pc[j])
    {
      assert s.lock[c] == Some(j) <==> c in Held(s.pc[j]);
      assert s.lock[c] == Some(k) <==> c in Held(s.pc[k]);
    }
  }

  lemma StepOk(s: State, k: Ctx, s': State)
    requires Inv(s) && k < |s.pc| == |s'.pc| && s'.pc == s.pc[k := s'.pc[k]]
    requires WithinLocks(s, k, s'.d) && LocksMoved(s, k, s') && DataOk(s'.d)
    requires PcOk(k, s'.pc[k], |s.d.rqs|, |s.d.tasks|) && Promise(s'.d, s'.pc[k])
    requires forall c :: 0 <= c < |s.d.rqs| && s'.d.rqs[c].curr.Some? ==>
               var p := s'.d.rqs[c].curr.value;
               p < |s.d.tasks| && s'.d.tasks[p].cpu == c && (!s'.d.tasks[p].onRq ==> InSchedule(c, s'.pc[c]))
    ensures Inv(s')
  {
    assert Shape(s');
    MovedLocksOk(s, k, s');
    forall j | 0 <= j < |s'.pc|
      ensures Promise(s'.d, s'.pc[j])
    {
      if j != k {
        OthersKeepPromises(s, k, s'.d, j);
      }
    }
  }

  /** The steps that only move program counters and locks. */
  predicate LockStep(a: Action) {
    a.Start? || a.ReadTaskRq? || a.Acquire? || a.Recheck? || a.UnlockRq? || a.CallBalance? || a.TryLock?
    || a.ReturnBalance? || a.UnlockBusiest? || a.UnlockBoth?
  }

  lemma Stays(s: State, k: Ctx, s': State)
    requires Shape(s) && LocksOk(s) && k < |s.pc| == |s'.pc|
    requires s'.lock == s.lock && Held(s'.pc[k]) == Held(s.pc[k])
    ensures LocksMoved(s, k, s')
  {
  }

  lemma Takes(s: State, k: Ctx, c: Cpu, s': State)
    requires Shape(s) && LocksOk(s) && k < |s.pc| == |s'.pc| && c < |s.lock|
    requires s.lock[c] == None && s'.lock == s.lock[c := Some(k)] && Held(s'.pc[k]) == Held(s.pc[k]) + {c}
    ensures LocksMoved(s, k, s')
  {
  }

  lemma Drops(s: State, k: Ctx, c: Cpu, s': State)
    requires Shape(s) && LocksOk(s) && k < |s.pc| == |s'.pc| && c < |s.lock|
    requires c in Held(s.pc[k]) && s'.lock == s.lock[c := None] && Held(s'.pc[k]) == Held(s.pc[k]) - {c}
    ensures LocksMoved(s, k, s')
  {
  }

  /** Getting the lock one spins on adds exactly that lock, and it ranks above those already held. */
  lemma SpinAdds(k: Ctx, pc: Pc, n: nat, m: nat)
    requires PcOk(k, pc, n, m) && Waits(k, pc).Some?
    ensures Waits(k, pc).value < n
    ensures Held(AfterSpin(k, pc)) == Held(pc) + {Waits(k, pc).value}
    ensures forall h :: h in Held(pc) ==> h < Waits(k, pc).value
  {
  }

  lemma SpinStepMoves(s: State, k: Ctx, a: Action)
    requires Shape(s) && LocksOk(s) && k < |s.pc| && Guard(s, k, a) && (a.Acquire? || a.TryLock? || a.Recheck?)
    ensures LocksMoved(s, k, Next(s, k, a))
  {
    var s', pc := Next(s, k, a), s.pc[k];
    assert PcOk(k, pc, |s.d.rqs|, |s.d.tasks|);
    match a {
      case Acquire =>
        SpinAdds(k, pc, |s.d.rqs|, |s.d.tasks|);
        Takes(s, k, Waits(k, pc).value, s');
      case TryLock =>
        if s.lock[pc.b] == None { Takes(s, k, pc.b, s'); }
        else if pc.b < pc.a { Drops(s, k, pc.a, s'); }
        else { Stays(s, k, s'); }
      case Recheck => if s.d.tasks[pc.p].cpu == pc.c { Stays(s, k, s'); } else { Drops(s, k, pc.c, s'); }
    }
  }

  lemma LockStepMoves(s: State, k: Ctx, a: Action)
    requires Shape(s) && LocksOk(s) && k < |s.pc| && Guard(s, k, a) && LockStep(a)
    ensures LocksMoved(s, k, Next(s, k, a))
  {
    var s', pc := Next(s, k, a), s.pc[k];
    assert PcOk(k, pc, |s.d.rqs|, |s.d.tasks|);
    if a.Acquire? || a.TryLock? || a.Recheck? {
      SpinStepMoves(s, k, a);
    } else if a.UnlockRq? {
      Drops(s, k, pc.a, s');
    } else if a.UnlockBusiest? {
      Drops(s, k, pc.b, s');
    } else if !a.UnlockBoth? {
      Stays(s, k, s');
    }
  }

  lemma LockStepPc(s: State, k: Ctx, a: Action)
    requires Shape(s) && k < |s.pc| && Guard(s, k, a) && LockStep(a)
    ensures var s' := Next(s, k, a);
            |s'.pc| == |s.pc| && PcOk(k, s'.pc[k], |s.d.rqs|, |s.d.tasks|)
  {
    assert PcOk(k, s.pc[k], |s.d.rqs|, |s.d.tasks|);
  }

  lemma LockStepFrame(s: State, k: Ctx, a: Action)
    requires Shape(s) && k < |s.pc| && Guard(s, k, a) && LockStep(a)
    ensures var s' := Next(s, k, a);
            && s'.d == s.d && |s'.pc| == |s.pc| && s'.pc == s.pc[k := s'.pc[k]]
            && (InSchedule(k, s.pc[k]) ==> InSchedule(k, s'.pc[k]))
  {
  }

  lemma LockStepPromise(s: State, k: Ctx, a: Action)
    requires Shape(s) && k < |s.pc| && Guard(s, k, a) && LockStep(a) && Promise(s.d, s.pc[k])
    ensures |Next(s, k, a).pc| == |s.pc| && Promise(s.d, Next(s, k, a).pc[k])
  {
    assert PcOk(k, s.pc[k], |s.d.rqs|, |s.d.tasks|);
  }

  lemma LockStepKeepsInv(s: State, k: Ctx, a: Action)
    requires Inv(s) && k < |s.pc| && Guard(s, k, a) && LockStep(a)
    ensures Inv(Next(s, k, a))
  {
    LockStepMoves(s, k, a);
    LockStepFrame(s, k, a);
    LockStepPc(s, k, a);
    assert Promise(s.d, s.pc[k]);
    LockStepPromise(s, k, a);
    StepOk(s, k, Next(s, k, a));
  }

  /** Pulling changes the CPU of `p` and two queues; who runs where stays. */
  lemma PullEffect(d: Data, p: TaskId, src: Cpu, dst: Cpu)
    requires src < |d.rqs| && dst < |d.rqs|
    requires src != dst && p < |d.tasks| && d.tasks[p].onRq && d.rqs[src].nrRunning > 0
    ensures var d' := Pull(d, p, src, dst);
            && d'.tasks == d.tasks[p := d.tasks[p].(cpu := dst)]
            && |d'.rqs| == |d.rqs|
            && (forall c :: 0 <= c < |d.rqs| ==> d'.rqs[c].curr == d.rqs[c].curr)
            && (forall c :: 0 <= c < |d.rqs| && c != src && c != dst ==> d'.rqs[c] == d.rqs[c])
  {
  }

  lemma WakeEffect(d: Data, p: TaskId, c: Cpu)
    requires c < |d.rqs| && p < |d.tasks|
    ensures var d' := SetTaskState(Activate(d, c, p), p, {});
            && d'.tasks == d.tasks[p := d.tasks[p].(onRq := true, state := {})]
            && |d'.rqs| == |d.rqs|
            && (forall x :: 0 <= x < |d.rqs| ==> d'.rqs[x].curr == d.rqs[x].curr)
            && (forall x :: 0 <= x < |d.rqs| && x != c ==> d'.rqs[x] == d.rqs[x])
  {
  }

  /** A task that runs nowhere may be given to another CPU by whoever locks its runqueue. */
  lemma NotCurr(s: State, p: TaskId)
    requires Inv(s) && p < |s.d.tasks| && s.d.rqs[s.d.tasks[p].cpu].curr != Some(p)
    ensures forall c :: 0 <= c < |s.d.rqs| ==> s.d.rqs[c].curr != Some(p)
  {
  }

  lemma WakeDataOk(d: Data, p: TaskId, c: Cpu)
    requires DataOk(d) && c < |d.rqs| && p < |d.tasks| && !d.tasks[p].onRq && d.tasks[p].cpu == c
    ensures DataOk(SetTaskState(Activate(d, c, p), p, {}))
  {
    ActivateOk(d, c, p);
    SetTaskStateOk(Activate(d, c, p), p, {});
  }

  /** From `task_rq_lock` to the end of the locked section, keeping the lock. */
  lemma HoldStep(s: State, k: Ctx, c: Cpu, d': Data)
    requires Inv(s) && k < |s.pc| && s.pc[k].Locked? && s.pc[k].c == c && WithinLocks(s, k, d') && DataOk(d')
    requires forall x :: 0 <= x < |s.d.rqs| && d'.rqs[x].curr.Some? ==>
               var p := d'.rqs[x].curr.value;
               p < |s.d.tasks| && d'.tasks[p].cpu == x && (!d'.tasks[p].onRq ==> InSchedule(x, s.pc[x]))
    ensures Inv(Go(s.(d := d'), k, Hold(c, false)))
  {
    assert PcOk(k, s.pc[k], |s.d.rqs|, |s.d.tasks|);
    Stays(s, k, Go(s.(d := d'), k, Hold(c, false)));
    StepOk(s, k, Go(s.(d := d'), k, Hold(c, false)));
  }

  /** The task is put on the runqueue whose lock is held. */
  lemma WakeActivates(s: State, k: Ctx, p: TaskId, c: Cpu)
    requires Inv(s) && k < |s.pc| && s.pc[k].Locked? && s.pc[k].p == p && s.pc[k].c == c && !s.d.tasks[p].onRq
    ensures Inv(Go(s.(d := SetTaskState(Activate(s.d, c, p), p, {})), k, Hold(c, false)))
  {
    assert PcOk(k, s.pc[k], |s.d.rqs|, |s.d.tasks|) && Promise(s.d, s.pc[k]);
    WakeEffect(s.d, p, c);
    WakeDataOk(s.d, p, c);
    HoldStep(s, k, c, SetTaskState(Activate(s.d, c, p), p, {}));
  }

  /** `set_task_cpu` on a sleeping task that runs nowhere, and the lock is dropped. */
  lemma MovesAndUnlocks(s: State, k: Ctx, p: TaskId, c: Cpu, dest: Cpu, pc': Pc)
    requires Inv(s) && k < |s.pc| && s.pc[k].Locked? && s.pc[k].p == p && s.pc[k].c == c
    requires !s.d.tasks[p].onRq && s.d.rqs[c].curr != Some(p) && dest < |s.d.rqs|
    requires pc'.Out? || (pc'.TrlRead? && PcOk(k, pc', |s.d.rqs|, |s.d.tasks|))
    ensures Inv(Go(Drop(s.(d := SetTaskCpu(s.d, p, dest)), c), k, pc'))
  {
    assert PcOk(k, s.pc[k], |s.d.rqs|, |s.d.tasks|) && Promise(s.d, s.pc[k]);
    var s' := Go(Drop(s.(d := SetTaskCpu(s.d, p, dest)), c), k, pc');
    NotCurr(s, p);
    SetTaskCpuOk(s.d, p, dest);
    Drops(s, k, c, s');
    StepOk(s, k, s');
  }

  lemma Unlocks(s: State, k: Ctx, p: TaskId, c: Cpu)
    requires Inv(s) && k < |s.pc| && s.pc[k].Locked? && s.pc[k].p == p && s.pc[k].c == c
    ensures Inv(Go(Drop(s, c), k, Out))
  {
    assert PcOk(k, s.pc[k], |s.d.rqs|, |s.d.tasks|);
    Drops(s, k, c, Go(Drop(s, c), k, Out));
    StepOk(s, k, Go(Drop(s, c), k, Out));
  }

  lemma WakeKeepsInv(s: State, k: Ctx, a: Action)
    requires Inv(s) && k < |s.pc| && Guard(s, k, a) && a.WakeBody?
    ensures Inv(Next(s, k, a))
  {
    var pc := s.pc[k];
    var p, c := pc.p, pc.c;
    assert PcOk(k, pc, |s.d.rqs|, |s.d.tasks|) && Promise(s.d, pc);
    var t := s.d.tasks[p];
    if t.state * pc.goal.mask == {} {
      Unlocks(s, k, p, c);
    } else if t.onRq {
      StateKeepsInv(s, k, p, {}, Hold(c, false));
    } else if s.d.rqs[c].curr == Some(p) || pc.goal.again || a.select == c {
      WakeActivates(s, k, p, c);
    } else {
      MovesAndUnlocks(s, k, p, c, a.select, TrlRead(Wake(pc.goal.mask, true), p));
    }
  }

  lemma MigrateKeepsInv(s: State, k: Ctx, a: Action)
    requires Inv(s) && k < |s.pc| && Guard(s, k, a) && a.MigrateBody?
    ensures Inv(Next(s, k, a))
  {
    var pc := s.pc[k];
    assert PcOk(k, pc, |s.d.rqs|, |s.d.tasks|) && Promise(s.d, pc);
    if !s.d.tasks[pc.p].onRq && s.d.rqs[pc.c].curr != Some(pc.p) {
      MovesAndUnlocks(s, k, pc.p, pc.c, pc.goal.dest, Out);
    } else {
      Unlocks(s, k, pc.p, pc.c);
      assert s.(d := s.d) == s;
    }
  }

  /** The state of a queued task may change under anyone's feet. */
  lemma StateKeepsInv(s: State, k: Ctx, p: TaskId, st: set<StateBit>, pc': Pc)
    requires Inv(s) && k < |s.pc| && p < |s.d.tasks| && s.d.tasks[p].onRq
    requires pc' == s.pc[k] || (s.pc[k].Locked? && pc' == Hold(s.pc[k].c, false))
    ensures Inv(Go(s.(d := SetTaskState(s.d, p, st)), k, pc'))
  {
    assert PcOk(k, s.pc[k], |s.d.rqs|, |s.d.tasks|) && Promise(s.d, s.pc[k]);
    var s' := Go(s.(d := SetTaskState(s.d, p, st)), k, pc');
    SetTaskStateOk(s.d, p, st);
    Stays(s, k, s');
    StepOk(s, k, s');
  }

  /** Context `k` changes what its locks protect, and nothing else. */
  lemma DataStep(s: State, k: Ctx, d': Data)
    requires Inv(s) && k < |s.pc| && WithinLocks(s, k, d') && DataOk(d') && Promise(d', s.pc[k])
    requires forall c :: 0 <= c < |s.d.rqs| && d'.rqs[c].curr.Some? ==>
               var p := d'.rqs[c].curr.value;
               p < |s.d.tasks| && d'.tasks[p].cpu == c && (!d'.tasks[p].onRq ==> InSchedule(c, s.pc[c]))
    ensures Inv(s.(d := d'))
  {
    assert s.pc[k := s.pc[k]] == s.pc;
    assert PcOk(k, s.pc[k], |s.d.rqs|, |s.d.tasks|);
    Stays(s, k, s.(d := d'));
    StepOk(s, k, s.(d := d'));
  }

  /** Moving a task that does not run between two locked runqueues stays within the locks. */
  lemma MovedWithin(s: State, k: Ctx, p: TaskId, src: Cpu, dst: Cpu, d': Data)
    requires Inv(s) && k < |s.pc| && (s.pc[k].InDlb? || s.pc[k].InDouble?) && Between(s.pc[k].a, s.pc[k].b, src, dst)
    requires p < |s.d.tasks| && s.d.tasks[p].cpu == src
    requires forall c :: 0 <= c < |s.d.rqs| ==> s.d.rqs[c].curr != Some(p)
    requires d'.tasks == s.d.tasks[p := s.d.tasks[p].(cpu := dst)] && |d'.rqs| == |s.d.rqs|
    requires forall c :: 0 <= c < |s.d.rqs| ==> d'.rqs[c].curr == s.d.rqs[c].curr
    requires forall c :: 0 <= c < |s.d.rqs| && c != src && c != dst ==> d'.rqs[c] == s.d.rqs[c]
    ensures WithinLocks(s, k, d') && Promise(d', s.pc[k])
    ensures forall c :: 0 <= c < |s.d.rqs| && d'.rqs[c].curr.Some? ==>
              var q := d'.rqs[c].curr.value;
              q < |s.d.tasks| && d'.tasks[q].cpu == c && (!d'.tasks[q].onRq ==> InSchedule(c, s.pc[c]))
  {
  }

  lemma PullKeepsInv(s: State, k: Ctx, p: TaskId, src: Cpu, dst: Cpu)
    requires Inv(s) && k < |s.pc| && (s.pc[k].InDlb? || s.pc[k].InDouble?) && Between(s.pc[k].a, s.pc[k].b, src, dst)
    requires p < |s.d.tasks| && s.d.tasks[p].onRq && s.d.tasks[p].cpu == src
    requires src < |s.d.rqs| && s.d.rqs[src].curr != Some(p)
    requires s.d.rqs[src].nrRunning > 0
    ensures dst < |s.d.rqs| && Inv(s.(d := Pull(s.d, p, src, dst)))
  {
    assert PcOk(k, s.pc[k], |s.d.rqs|, |s.d.tasks|);
    NotCurr(s, p);
    PullEffect(s.d, p, src, dst);
    PullOk(s.d, p, src, dst);
    MovedWithin(s, k, p, src, dst, Pull(s.d, p, src, dst));
    DataStep(s, k, Pull(s.d, p, src, dst));
  }

  lemma MoveSleepingKeepsInv(s: State, k: Ctx, p: TaskId, src: Cpu, dst: Cpu)
    requires Inv(s) && k < |s.pc| && s.pc[k].InDouble? && Between(s.pc[k].a, s.pc[k].b, src, dst)
    requires p < |s.d.tasks| && !s.d.tasks[p].onRq && s.d.tasks[p].cpu == src
    requires src < |s.d.rqs| && s.d.rqs[src].curr != Some(p)
    ensures Inv(s.(d := SetTaskCpu(s.d, p, dst)))
  {
    assert PcOk(k, s.pc[k], |s.d.rqs|, |s.d.tasks|);
    NotCurr(s, p);
    SetTaskCpuOk(s.d, p, dst);
    DataStep(s, k, SetTaskCpu(s.d, p, dst));
  }

  lemma SleepKeepsInv(s: State, k: Ctx, a: Action)
    requires Inv(s) && k < |s.pc| && Guard(s, k, a) && a.Sleep?
    ensures Inv(Next(s, k, a))
  {
    assert PcOk(k, s.pc[k], |s.d.rqs|, |s.d.tasks|);
    var s' := Next(s, k, a);
    DeactivateOk(s.d, k, s.d.rqs[k].curr.value);
    Stays(s, k, s');
    StepOk(s, k, s');
  }

  lemma SwitchKeepsInv(s: State, k: Ctx, a: Action)
    requires Inv(s) && k < |s.pc| && Guard(s, k, a) && a.Switch?
    ensures Inv(Next(s, k, a))
  {
    assert PcOk(k, s.pc[k], |s.d.rqs|, |s.d.tasks|);
    var s' := Next(s, k, a);
    SetCurrOk(s.d, k, a.next);
    Drops(s, k, k, s');
    StepOk(s, k, s');
  }

  lemma OwnStateKeepsInv(s: State, k: Ctx, a: Action)
    requires Inv(s) && k < |s.pc| && Guard(s, k, a) && (a.SetOwnState? || a.Signal?)
    ensures Inv(Next(s, k, a))
  {
    StateKeepsInv(s, k, s.d.rqs[k].curr.value, if a.Signal? then {} else a.st, s.pc[k]);
    assert s.pc[k := s.pc[k]] == s.pc;
  }

  /** Every step of every context keeps the invariant. */
  lemma StepKeepsInv(s: State, k: Ctx, a: Action)
    requires Inv(s) && k < |s.pc| && Guard(s, k, a)
    ensures Inv(Next(s, k, a))
  {
    match a {
      case SetOwnState(_) => OwnStateKeepsInv(s, k, a);
      case Signal => OwnStateKeepsInv(s, k, a);
      case WakeBody(_) => WakeKeepsInv(s, k, a);
      case MigrateBody => MigrateKeepsInv(s, k, a);
      case PullTask(p, src, dst) => PullKeepsInv(s, k, p, src, dst);
      case MoveSleeping(p, src, dst) => MoveSleepingKeepsInv(s, k, p, src, dst);
      case Sleep => SleepKeepsInv(s, k, a);
      case Switch(_) => SwitchKeepsInv(s, k, a);
      case _ => LockStepKeepsInv(s, k, a);
    }
  }
}
