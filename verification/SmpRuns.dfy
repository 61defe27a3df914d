/** What holds over every interleaving of the contexts: the accounting of tasks, and the locks. */
module SmpRuns {
  import opened Options
  import opened SmpRunqueues
  import opened SmpSteps

  // ----- whole runs -----

  /** Just booted: nothing locked, nothing queued, nothing running, nobody asleep uninterruptibly. */
  ghost predicate Boot(s: State) {
    && |s.d.rqs| == |s.lock| <= |s.pc|
    && (forall k :: 0 <= k < |s.pc| ==> s.pc[k] == Out)
    && (forall c :: 0 <= c < |s.lock| ==> s.lock[c] == None)
    && (forall c :: 0 <= c < |s.d.rqs| ==> s.d.rqs[c] == Rq({}, 0, 0, None))
    && (forall p :: 0 <= p < |s.d.tasks| ==>
          !s.d.tasks[p].onRq && Uninterruptible !in s.d.tasks[p].state && s.d.tasks[p].cpu < |s.d.rqs|)
  }

  /** One context takes one step. */
  ghost predicate Step(s: State, s': State) {
    Shape(s) && exists k: Ctx, a :: k < |s.pc| && Guard(s, k, a) && s' == Next(s, k, a)
  }

  ghost predicate Trace(run: seq<State>) {
    forall i :: 0 < i < |run| ==> Step(run[i - 1], run[i])
  }

  lemma {:induction false} NothingCounted(d: Data)
    requires forall c :: 0 <= c < |d.rqs| ==> d.rqs[c].nrUninterruptible == 0
    requires forall p :: 0 <= p < |d.tasks| ==> !d.tasks[p].Blocked()
    ensures SumUninterruptible(d.rqs) == 0 && CountBlocked(d.tasks) == 0
    decreases |d.rqs| + |d.tasks|
  {
    if |d.rqs| > 0 {
      NothingCounted(d.(rqs := d.rqs[1..]));
    } else if |d.tasks| > 0 {
      NothingCounted(d.(tasks := d.tasks[1..]));
    }
  }

  lemma AnyStepKeepsInv(s: State, s': State)
    requires Inv(s) && Step(s, s')
    ensures Inv(s')
  {
    var k: Ctx, a :| k < |s.pc| && Guard(s, k, a) && s' == Next(s, k, a);
    StepKeepsInv(s, k, a);
  }

  lemma {:induction false} TraceKeepsInv(run: seq<State>, i: nat)
    requires Trace(run) && i < |run| && Inv(run[0])
    ensures Inv(run[i])
  {
    if i > 0 {
      TraceKeepsInv(run, i - 1);
      AnyStepKeepsInv(run[i - 1], run[i]);
    }
  }

  /** Whatever the contexts do after boot, in whatever order, the invariant holds. */
  lemma ReachableInv(run: seq<State>, i: nat)
    requires Trace(run) && i < |run| && Boot(run[0])
    ensures Inv(run[i])
  {
    NothingCounted(run[0].d);
    TraceKeepsInv(run, i);
  }

  /** In every reachable state each on_rq task is queued on exactly the runqueue of its CPU and every
      other task on none, and both kinds of counters add up over the CPUs. */
  lemma ReachableAccounting(run: seq<State>, i: nat)
    requires Trace(run) && i < |run| && Boot(run[0])
    ensures var d := run[i].d;
            && (forall p, c :: 0 <= p < |d.tasks| && 0 <= c < |d.rqs| ==>
                  (p in d.rqs[c].queue <==> d.tasks[p].onRq && d.tasks[p].cpu == c))
            && SumRunning(d.rqs) == |set p: TaskId | p < |d.tasks| && d.tasks[p].onRq|
            && SumUninterruptible(d.rqs) % WORD == CountBlocked(d.tasks) % WORD
  {
    ReachableInv(run, i);
    RunningSum(run[i].d);
    QueuedExactly(run[i].d);
    SameModulo(SumUninterruptible(run[i].d.rqs), CountBlocked(run[i].d.tasks));
  }

  // ----- the lock protocol -----

  ghost predicate IsBlocked(s: State, k: Ctx)
    requires Shape(s) && LocksOk(s) && k < |s.pc|
  {
    && Waits(k, s.pc[k]).Some?
    && Waits(k, s.pc[k]).value < |s.lock|
    && s.lock[Waits(k, s.pc[k]).value].Some?
  }

  /** A context spinning on a lock holds only locks of lower runqueues. */
  lemma HoldsOnlyLower(s: State, k: Ctx, c: Cpu)
    requires Inv(s) && k < |s.pc| && Waits(k, s.pc[k]).Some? && c < |s.lock| && s.lock[c] == Some(k)
    ensures c < Waits(k, s.pc[k]).value < |s.lock|
  {
    assert PcOk(k, s.pc[k], |s.d.rqs|, |s.d.tasks|);
    SpinAdds(k, s.pc[k], |s.d.rqs|, |s.d.tasks|);
  }

  /** A step towards releasing what it holds, for a context that spins on nothing. */
  ghost function Onward(s: State, k: Ctx): (a: Action)
    requires Inv(s) && k < |s.pc| && s.pc[k] != Out && Waits(k, s.pc[k]).None?
    ensures Guard(s, k, a)
  {
    var pc, d := s.pc[k], s.d;
    assert PcOk(k, pc, |d.rqs|, |d.tasks|);
    match pc
    case TrlRead(_, p) => ReadTaskRq
    case TrlCheck(_, _, _) => Recheck
    case Locked(goal, _, c) => if goal.Wake? then WakeBody(c) else MigrateBody
    case InDouble(_, _) => UnlockBoth
    case Hold(_, sched) =>
      if !sched then UnlockRq
      else if d.rqs[k].queue == {} then Switch(None)
      else var p :| p in d.rqs[k].queue; Switch(Some(p))
    case DlbTry(_, _, _, _) => TryLock
    case DlbDone(_, _, _, _, _) => ReturnBalance
    case _ => UnlockBusiest
  }

  /** A step a context that is not blocked can take towards releasing what it holds. */
  ghost function Progress(s: State, k: Ctx): (a: Action)
    requires Inv(s) && k < |s.pc| && s.pc[k] != Out && !IsBlocked(s, k)
    ensures Guard(s, k, a)
  {
    var pc := s.pc[k];
    assert PcOk(k, pc, |s.d.rqs|, |s.d.tasks|);
    if Waits(k, pc).Some? then
      SpinAdds(k, pc, |s.d.rqs|, |s.d.tasks|);
      Acquire
    else Onward(s, k)
  }

  /** No reachable state is deadlocked: behind every blocked context, some holder of a lock at least
      as high can move on. */
  lemma {:induction false} NoDeadlock(s: State, k: Ctx) returns (j: Ctx, c: Cpu)
    requires Inv(s) && k < |s.pc| && IsBlocked(s, k)
    ensures j < |s.pc| && s.pc[j] != Out && !IsBlocked(s, j) && Guard(s, j, Progress(s, j))
    ensures c < |s.lock| && s.lock[c] == Some(j) && Waits(k, s.pc[k]).value <= c
    decreases |s.lock| - Waits(k, s.pc[k]).value
  {
    c := Waits(k, s.pc[k]).value;
    j := s.lock[c].value;
    assert c in Held(s.pc[j]);
    if IsBlocked(s, j) {
      HoldsOnlyLower(s, j, c);
      j, c := NoDeadlock(s, j);
    }
  }

  /** `task_rq_lock` returns holding the lock of the runqueue the task really is on. */
  lemma TaskRqLocked(s: State, k: Ctx)
    requires Inv(s) && k < |s.pc| && s.pc[k].Locked?
    ensures var p := s.pc[k].p;
            && p < |s.d.tasks| && s.d.tasks[p].cpu < |s.lock| && s.lock[s.d.tasks[p].cpu] == Some(k)
            && (s.d.tasks[p].onRq <==> p in s.d.rqs[s.d.tasks[p].cpu].queue)
  {
    assert PcOk(k, s.pc[k], |s.d.rqs|, |s.d.tasks|) && Promise(s.d, s.pc[k]);
  }

  /** Context `k` is executing `double_lock_balance(a, b)`. */
  predicate Balancing(pc: Pc, a: Cpu, b: Cpu) {
    match pc
    case DlbTry(a', b', _, _) => a' == a && b' == b
    case DlbSpinHigh(a', b', _, _) => a' == a && b' == b
    case DlbSpinFirst(a', b', _, _) => a' == a && b' == b
    case DlbSpinBack(a', b', _, _) => a' == a && b' == b
    case DlbDone(a', b', _, _, _) => a' == a && b' == b
    case _ => false
  }

  /** The call has let go of `this_rq`, whatever it holds now. */
  predicate LetGo(pc: Pc) {
    pc.DlbSpinFirst? || pc.DlbSpinBack? || (pc.DlbDone? && pc.ret)
  }

  lemma OwnBalanceStep(s: State, k: Ctx, x: Action, a: Cpu, b: Cpu)
    requires Shape(s) && k < |s.pc| && Guard(s, k, x)
    requires Balancing(s.pc[k], a, b) && Balancing(Next(s, k, x).pc[k], a, b)
    ensures LetGo(Next(s, k, x).pc[k]) <==> LetGo(s.pc[k]) || a !in Held(Next(s, k, x).pc[k])
  {
    var pc := s.pc[k];
    assert PcOk(k, pc, |s.d.rqs|, |s.d.tasks|);
    assert x.Acquire? || x.TryLock?;
  }

  lemma BalanceStep(s: State, s': State, k: Ctx, a: Cpu, b: Cpu)
    requires Shape(s) && Step(s, s') && k < |s.pc| == |s'.pc|
    requires Balancing(s.pc[k], a, b) && Balancing(s'.pc[k], a, b)
    ensures LetGo(s'.pc[k]) <==> LetGo(s.pc[k]) || a !in Held(s'.pc[k])
  {
    var j: Ctx, x :| j < |s.pc| && Guard(s, j, x) && s' == Next(s, j, x);
    assert PcOk(k, s.pc[k], |s.d.rqs|, |s.d.tasks|);
    if j == k {
      OwnBalanceStep(s, k, x, a, b);
    } else {
      OtherKeepsPc(s, j, x, k);
    }
  }

  lemma OtherKeepsPc(s: State, j: Ctx, x: Action, k: Ctx)
    requires Shape(s) && j < |s.pc| && Guard(s, j, x) && k < |s.pc| && j != k
    ensures |Next(s, j, x).pc| == |s.pc| && Next(s, j, x).pc[k] == s.pc[k]
  {
  }

  lemma {:induction false} BalanceHistory(run: seq<State>, k: Ctx, a: Cpu, b: Cpu, n: nat)
    requires Trace(run) && n < |run|
    requires forall i :: 0 <= i <= n ==> Shape(run[i]) && k < |run[i].pc| && Balancing(run[i].pc[k], a, b)
    requires run[0].pc[k].DlbTry?
    ensures LetGo(run[n].pc[k]) <==> LetGoBy(run, k, a, n)
  {
    if n > 0 {
      BalanceHistory(run, k, a, b, n - 1);
      BalanceStep(run[n - 1], run[n], k, a, b);
      LetGoNext(run, k, a, n);
    }
  }

  /** The context was without the lock of `a` in one of the first states. */
  ghost predicate LetGoBy(run: seq<State>, k: Ctx, a: Cpu, n: nat)
    requires n < |run| && forall i :: 0 <= i <= n ==> k < |run[i].pc|
  {
    exists i :: 0 <= i <= n && a !in Held(run[i].pc[k])
  }

  lemma LetGoNext(run: seq<State>, k: Ctx, a: Cpu, n: nat)
    requires 0 < n < |run| && forall i :: 0 <= i <= n ==> k < |run[i].pc|
    ensures LetGoBy(run, k, a, n) <==> LetGoBy(run, k, a, n - 1) || a !in Held(run[n].pc[k])
  {
  }

  /** `double_lock_balance` returns 1 exactly when this_rq's lock was dropped on the way. When it returns
      0, this_rq is as it was at the call. */
  lemma BalanceReturn(run: seq<State>, k: Ctx, a: Cpu, b: Cpu)
    requires Trace(run) && |run| > 0 && Inv(run[0])
    requires forall i :: 0 <= i < |run| ==> k < |run[i].pc| && Balancing(run[i].pc[k], a, b)
    requires run[0].pc[k].DlbTry? && run[|run| - 1].pc[k].DlbDone?
    ensures var last := run[|run| - 1];
            && a < |last.lock| && b < |last.lock| && a < |last.d.rqs|
            && (last.pc[k].ret <==> exists i :: 0 <= i < |run| && a !in Held(run[i].pc[k]))
            && last.lock[a] == last.lock[b] == Some(k)
            && (!last.pc[k].ret ==> last.d.rqs[a] == last.pc[k].snap)
  {
    var n := |run| - 1;
    forall i | 0 <= i <= n
      ensures Inv(run[i])
    {
      TraceKeepsInv(run, i);
    }
    BalanceHistory(run, k, a, b, n);
    var last := run[n];
    assert PcOk(k, last.pc[k], |last.d.rqs|, |last.d.tasks|) && Promise(last.d, last.pc[k]);
  }
}
