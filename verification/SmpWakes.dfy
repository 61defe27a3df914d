/** What the steps do for the tasks (hw4/sched.c): a wake-up makes its task runnable, a sleep takes it off its
    queue, a migration moves it, and a task that was woken stays runnable until it gives up the CPU itself.
 */
module SmpWakes {
  import opened Options
  import opened SmpRunqueues
  import opened SmpRuns
  import opened SmpSteps

  /** No other task changed. */
  ghost predicate OnlyTask(d: Data, p: TaskId, d': Data) {
    && |d'.tasks| == |d.tasks| && |d'.rqs| == |d.rqs|
    && (forall q :: 0 <= q < |d.tasks| && q != p ==> d'.tasks[q] == d.tasks[q])
    && (forall c, q {:trigger q in d'.rqs[c].queue} {:trigger q in d.rqs[c].queue} ::
          0 <= c < |d.rqs| && q != p ==> (q in d'.rqs[c].queue <==> q in d.rqs[c].queue))
  }

  /** Nobody started or stopped running. */
  ghost predicate SameCurr(d: Data, d': Data) {
    |d'.rqs| == |d.rqs| && forall c :: 0 <= c < |d.rqs| ==> d'.rqs[c].curr == d.rqs[c].curr
  }

  /** The task is on the runqueue of CPU `c`, in TASK_RUNNING. */
  ghost predicate RunnableOn(d: Data, p: TaskId, c: Cpu) {
    p < |d.tasks| && c < |d.rqs| && d.tasks[p] == Task({}, true, c) && p in d.rqs[c].queue
  }

  lemma ActivateMoves(d: Data, c: Cpu, p: TaskId)
    requires c < |d.rqs| && p < |d.tasks|
    ensures var d' := SetTaskState(Activate(d, c, p), p, {});
            && OnlyTask(d, p, d') && SameCurr(d, d')
            && d'.tasks[p] == Task({}, true, d.tasks[p].cpu) && p in d'.rqs[c].queue
  {
  }

  /** The locked section of a wake-up whose mask does not match changes nothing. */
  lemma SectionPasses(s: State, k: Ctx, mask: set<StateBit>, again: bool, p: TaskId, c: Cpu, select: Cpu)
    requires k < |s.pc| && |s.lock| == |s.d.rqs| && p < |s.d.tasks| && c < |s.d.rqs|
    requires forall b :: b in mask ==> b !in s.d.tasks[p].state
    ensures var s' := WakeSection(s, k, mask, again, p, c, select); s'.d == s.d && k < |s'.pc| && s'.pc[k] == Out
  {
    assert s.d.tasks[p].state * mask == {};
  }

  lemma SectionWakes(s: State, k: Ctx, mask: set<StateBit>, again: bool, p: TaskId, c: Cpu, select: Cpu)
    requires k < |s.pc| && |s.lock| == |s.d.rqs| && p < |s.d.tasks| && c < |s.d.rqs|
    requires QueuesOk(s.d) && s.d.tasks[p].cpu == c
    requires exists b :: b in mask && b in s.d.tasks[p].state
    ensures var d, s' := s.d, WakeSection(s, k, mask, again, p, c, select);
            && OnlyTask(d, p, s'.d) && SameCurr(d, s'.d) && k < |s'.pc|
            && if d.tasks[p].onRq || d.rqs[c].curr == Some(p) || again || select == c
               then RunnableOn(s'.d, p, c) && s'.pc[k] == Hold(c, false)
               else s'.d.tasks[p] == d.tasks[p].(cpu := select) && s'.pc[k] == TrlRead(Wake(mask, true), p)
  {
    var b :| b in mask && b in s.d.tasks[p].state;
    assert b in s.d.tasks[p].state * mask;
    ActivateMoves(s.d, c, p);
  }

  /** The locked section of a wake-up whose mask matches the state of the task makes the task runnable where it
      is, or sends it, still asleep, to the CPU that was selected for it, to be locked there once more. A
      wake-up whose mask does not match changes nothing. */
  lemma WakeUpWakes(s: State, k: Ctx, select: Cpu)
    requires Inv(s) && k < |s.pc| && Guard(s, k, WakeBody(select))
    ensures var pc, d := s.pc[k], s.d;
            var mask, p, c, s' := pc.goal.mask, pc.p, pc.c, Next(s, k, WakeBody(select));
            && p < |d.tasks| && c < |d.rqs| && k < |s'.pc|
            && ((forall b :: b in mask ==> b !in d.tasks[p].state) ==> s'.d == d && s'.pc[k] == Out)
            && ((exists b :: b in mask && b in d.tasks[p].state) ==>
                  && OnlyTask(d, p, s'.d) && SameCurr(d, s'.d)
                  && if d.tasks[p].onRq || d.rqs[c].curr == Some(p) || pc.goal.again || select == c
                     then RunnableOn(s'.d, p, c) && s'.pc[k] == Hold(c, false)
                     else s'.d.tasks[p] == d.tasks[p].(cpu := select) && s'.pc[k] == TrlRead(Wake(mask, true), p))
  {
    var pc := s.pc[k];
    assert PcOk(k, pc, |s.d.rqs|, |s.d.tasks|) && Promise(s.d, pc);
    if forall b :: b in pc.goal.mask ==> b !in s.d.tasks[pc.p].state {
      SectionPasses(s, k, pc.goal.mask, pc.goal.again, pc.p, pc.c, select);
    } else {
      SectionWakes(s, k, pc.goal.mask, pc.goal.again, pc.p, pc.c, select);
    }
  }

  /** `__migrate_task` of a task that neither is queued nor runs sets its CPU, and nothing else. */
  lemma MigrateMoves(s: State, k: Ctx)
    requires Inv(s) && k < |s.pc| && Guard(s, k, MigrateBody)
    ensures var pc, d, d' := s.pc[k], s.d, Next(s, k, MigrateBody).d;
            && pc.p < |d.tasks| && pc.c < |d.rqs| && d'.rqs == d.rqs
            && if d.tasks[pc.p].onRq || d.rqs[pc.c].curr == Some(pc.p) then d' == d
               else d'.tasks == d.tasks[pc.p := Task(d.tasks[pc.p].state, false, pc.goal.dest)]
  {
    assert PcOk(k, s.pc[k], |s.d.rqs|, |s.d.tasks|);
  }

  lemma PullMovesData(d: Data, p: TaskId, src: Cpu, dst: Cpu)
    requires src < |d.rqs| && dst < |d.rqs| && src != dst && p < |d.tasks| && d.rqs[src].nrRunning > 0
    requires QueuesOk(d) && d.tasks[p].onRq && d.tasks[p].cpu == src
    ensures var d' := Pull(d, p, src, dst);
            && OnlyTask(d, p, d') && SameCurr(d, d')
            && d'.tasks[p] == Task(d.tasks[p].state, true, dst)
            && p !in d'.rqs[src].queue && p in d'.rqs[dst].queue
  {
    var off := Deactivate(d, src, p);
    assert OnlyTask(d, p, off) && SameCurr(d, off) && p !in off.rqs[src].queue;
    var to := SetTaskCpu(off, p, dst);
    assert to.rqs == off.rqs;
  }

  /** Moving a queued task takes it from the one queue to the other. */
  lemma PullMoves(s: State, k: Ctx, p: TaskId, src: Cpu, dst: Cpu)
    requires Inv(s) && k < |s.pc| && Guard(s, k, PullTask(p, src, dst))
    ensures var d, d' := s.d, Next(s, k, PullTask(p, src, dst)).d;
            && OnlyTask(d, p, d') && SameCurr(d, d') && src < |d.rqs| && dst < |d.rqs|
            && d'.tasks[p] == Task(d.tasks[p].state, true, dst)
            && p !in d'.rqs[src].queue && p in d'.rqs[dst].queue
  {
    assert PcOk(k, s.pc[k], |s.d.rqs|, |s.d.tasks|);
    PullMovesData(s.d, p, src, dst);
  }

  /** The running task leaves its queue, and keeps its state and its CPU. */
  lemma SleepTakesOff(s: State, k: Ctx)
    requires Inv(s) && k < |s.pc| && Guard(s, k, Sleep)
    ensures var p, d, d' := s.d.rqs[k].curr.value, s.d, Next(s, k, Sleep).d;
            && OnlyTask(d, p, d') && SameCurr(d, d')
            && d'.tasks[p] == Task(d.tasks[p].state, false, k) && p !in d'.rqs[k].queue
  {
    assert PcOk(k, s.pc[k], |s.d.rqs|, |s.d.tasks|);
  }

  /** A task with a signal pending stays queued, in TASK_RUNNING. */
  lemma SignalKeepsOn(s: State, k: Ctx)
    requires Inv(s) && k < |s.pc| && Guard(s, k, Signal)
    ensures var p, d, d' := s.d.rqs[k].curr.value, s.d, Next(s, k, Signal).d;
            d'.rqs == d.rqs && d'.tasks == d.tasks[p := Task({}, true, k)] && p in d'.rqs[k].queue
  {
    assert PcOk(k, s.pc[k], |s.d.rqs|, |s.d.tasks|);
  }

  /** Moving a sleeping task sets its CPU, and nothing else. */
  lemma SleeperMoves(s: State, k: Ctx, p: TaskId, src: Cpu, dst: Cpu)
    requires Inv(s) && k < |s.pc| && Guard(s, k, MoveSleeping(p, src, dst))
    ensures var d, d' := s.d, Next(s, k, MoveSleeping(p, src, dst)).d;
            && d'.rqs == d.rqs && d'.tasks == d.tasks[p := Task(d.tasks[p].state, false, dst)]
            && d.tasks[p].cpu == src && forall c :: 0 <= c < |d.rqs| ==> d.rqs[c].curr != Some(p)
  {
    assert PcOk(k, s.pc[k], |s.d.rqs|, |s.d.tasks|);
    NotCurr(s, p);
  }

  /** The CPU runs what was picked, from its own queue, and the lock is free. */
  lemma SwitchRuns(s: State, k: Ctx, next: Option<TaskId>)
    requires Inv(s) && k < |s.pc| && Guard(s, k, Switch(next))
    ensures var d, s' := s.d, Next(s, k, Switch(next));
            && s'.d.tasks == d.tasks && |s'.d.rqs| == |d.rqs| && k < |s'.lock| && s'.lock[k] == None
            && s'.d.rqs[k] == d.rqs[k].(curr := next) && (next.Some? ==> next.value in s'.d.rqs[k].queue)
            && forall c :: 0 <= c < |d.rqs| && c != k ==> s'.d.rqs[c] == d.rqs[c]
  {
    assert PcOk(k, s.pc[k], |s.d.rqs|, |s.d.tasks|);
  }

  // ----- a wake-up over a run -----

  /** Context `k` is executing `try_to_wake_up(p, mask)`, up to its last locked section. */
  predicate Waking(pc: Pc, mask: set<StateBit>, p: TaskId) {
    (pc.TrlRead? || pc.TrlSpin? || pc.TrlCheck? || pc.Locked?) && pc.goal.Wake? && pc.goal.mask == mask && pc.p == p
  }

  /** What the last step of a wake-up must have done. */
  ghost predicate WokenBy(s: State, k: Ctx, mask: set<StateBit>, p: TaskId, s': State)
    requires k < |s.pc| == |s'.pc|
  {
    && s.pc[k].Locked? && p < |s.d.tasks| && s.d.tasks[p].cpu == s.pc[k].c
    && (RunnableOn(s'.d, p, s.pc[k].c) || (s'.d == s.d && forall b :: b in mask ==> b !in s.d.tasks[p].state))
  }

  lemma WakeUpStep(s: State, s': State, k: Ctx, mask: set<StateBit>, p: TaskId)
    requires Inv(s) && Step(s, s') && k < |s.pc| == |s'.pc| && Waking(s.pc[k], mask, p)
    ensures !Waking(s'.pc[k], mask, p) ==> WokenBy(s, k, mask, p, s')
    ensures Waking(s'.pc[k], mask, p) ==>
              (s'.pc[k].goal.again <==> s.pc[k].goal.again || (s.pc[k].Locked? && s'.pc[k].TrlRead?))
  {
    var j: Ctx, a :| j < |s.pc| && Guard(s, j, a) && s' == Next(s, j, a);
    assert PcOk(k, s.pc[k], |s.d.rqs|, |s.d.tasks|) && Promise(s.d, s.pc[k]);
    if j != k {
      OtherKeepsPc(s, j, a, k);
    } else if s.pc[k].Locked? {
      assert a.WakeBody?;
      WakeUpWakes(s, k, a.select);
      if exists b :: b in mask && b in s.d.tasks[p].state {
      } else {
        assert forall b :: b in mask ==> b !in s.d.tasks[p].state;
      }
    }
  }

  /** However the other contexts interleave with it, a wake-up ends with the task on the runqueue of its CPU in
      TASK_RUNNING, unless it held the lock of that runqueue while the state of the task did not match. */
  lemma WakeUpEnds(run: seq<State>, k: Ctx, mask: set<StateBit>, p: TaskId)
    requires Trace(run) && |run| > 1 && Inv(run[0])
    requires forall i :: 0 <= i < |run| ==> k < |run[i].pc|
    requires forall i :: 0 <= i < |run| - 1 ==> Waking(run[i].pc[k], mask, p)
    requires !Waking(run[|run| - 1].pc[k], mask, p)
    ensures var n := |run| - 1; |run[n - 1].pc| == |run[n].pc| && WokenBy(run[n - 1], k, mask, p, run[n])
  {
    var n := |run| - 1;
    TraceKeepsInv(run, n - 1);
    StepKeepsContexts(run[n - 1], run[n]);
    WakeUpStep(run[n - 1], run[n], k, mask, p);
  }

  lemma StepKeepsContexts(s: State, s': State)
    requires Step(s, s')
    ensures |s'.pc| == |s.pc|
  {
  }

  // ----- a runnable task stays runnable -----

  /** Context `k` is not the task `p` about to set its own state. */
  ghost predicate NotOwnState(s: State, k: Ctx, a: Action, p: TaskId)
    requires Shape(s) && k < |s.pc|
  {
    a.SetOwnState? ==> k < |s.d.rqs| && s.d.rqs[k].curr != Some(p)
  }

  /** The task is queued and in TASK_RUNNING, wherever. */
  ghost predicate Awake(d: Data, p: TaskId) {
    p < |d.tasks| && d.tasks[p].onRq && d.tasks[p].state == {}
  }

  lemma AwakeAfterWake(s: State, k: Ctx, a: Action, p: TaskId)
    requires Inv(s) && k < |s.pc| && Guard(s, k, a) && a.WakeBody? && Awake(s.d, p)
    ensures Awake(Next(s, k, a).d, p)
  {
    WakeUpWakes(s, k, a.select);
    var mask, q := s.pc[k].goal.mask, s.pc[k].p;
    if !(forall b :: b in mask ==> b !in s.d.tasks[q].state) {
      assert exists b :: b in mask && b in s.d.tasks[q].state;
    }
  }

  lemma AwakeAfterOther(s: State, k: Ctx, a: Action, p: TaskId)
    requires Inv(s) && k < |s.pc| && Guard(s, k, a) && Awake(s.d, p) && NotOwnState(s, k, a, p)
    requires !a.WakeBody? && !a.PullTask? && !a.Sleep?
    ensures Awake(Next(s, k, a).d, p)
  {
    assert PcOk(k, s.pc[k], |s.d.rqs|, |s.d.tasks|);
    if a.MigrateBody? {
      MigrateMoves(s, k);
    }
  }

  lemma AwakeAfterPull(s: State, k: Ctx, a: Action, p: TaskId)
    requires Inv(s) && k < |s.pc| && Guard(s, k, a) && a.PullTask? && Awake(s.d, p)
    ensures Awake(Next(s, k, a).d, p)
  {
    PullMoves(s, k, a.p, a.src, a.dst);
  }

  lemma AwakeAfterSleep(s: State, k: Ctx, a: Action, p: TaskId)
    requires Inv(s) && k < |s.pc| && Guard(s, k, a) && a.Sleep? && Awake(s.d, p)
    ensures Awake(Next(s, k, a).d, p)
  {
    SleepTakesOff(s, k);
  }

  lemma AwakeStays(s: State, k: Ctx, a: Action, p: TaskId)
    requires Inv(s) && k < |s.pc| && Guard(s, k, a) && Awake(s.d, p) && NotOwnState(s, k, a, p)
    ensures Awake(Next(s, k, a).d, p)
  {
    if a.WakeBody? {
      AwakeAfterWake(s, k, a, p);
    } else if a.PullTask? {
      AwakeAfterPull(s, k, a, p);
    } else if a.Sleep? {
      AwakeAfterSleep(s, k, a, p);
    } else {
      AwakeAfterOther(s, k, a, p);
    }
  }

  ghost predicate OthersStep(s: State, s': State, p: TaskId) {
    Shape(s) && exists k: Ctx, a :: k < |s.pc| && Guard(s, k, a) && s' == Next(s, k, a) && NotOwnState(s, k, a, p)
  }

  /** Whatever the contexts do, a task that is queued in TASK_RUNNING stays so until it sets its own state: no
      wake-up, migration, balancing or schedule on any CPU puts it to sleep. */
  lemma {:induction false} WokenStaysAwake(run: seq<State>, p: TaskId, i: nat)
    requires |run| > 0 && Inv(run[0]) && i < |run| && Awake(run[0].d, p)
    requires forall j :: 0 < j < |run| ==> OthersStep(run[j - 1], run[j], p)
    ensures Inv(run[i]) && Awake(run[i].d, p)
  {
    if i > 0 {
      WokenStaysAwake(run, p, i - 1);
      assert OthersStep(run[i - 1], run[i], p);
      var s := run[i - 1];
      var k: Ctx, a :| k < |s.pc| && Guard(s, k, a) && run[i] == Next(s, k, a) && NotOwnState(s, k, a, p);
      StepKeepsInv(s, k, a);
      AwakeStays(s, k, a, p);
    }
  }
}
