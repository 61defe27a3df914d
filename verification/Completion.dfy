/** Completions (hw4/sched.c): `complete`, `complete_all` and the waiters, as atomic sections under the
    lock of the wait queue. `done` is taken not to overflow.
 */
module Completion {

  const UINT_MAX: nat := 0xffff_ffff

  /** A queued waiter that has announced its sleep but still runs, sleeps, or has been made runnable. */
  datatype Phase = Drowsy | Asleep | Woken

  datatype Waiter = Waiter(id: nat, phase: Phase)

  /** `issued` and `successes` count what was completed and what was waited for successfully. */
  datatype State = State(done: nat, queue: seq<Waiter>, issued: nat, successes: nat)

  datatype Event =
    | Complete
    | CompleteAll
    | Arrive(id: nat, signalled: bool)
    | FallAsleep(k: nat)
    | Rouse(k: nat)
    | Resume(k: nat, timedOut: bool, signalled: bool)

  function CountWoken(queue: seq<Waiter>): nat {
    if queue == [] then 0 else (if queue[0].phase == Woken then 1 else 0) + CountWoken(queue[1..])
  }

  predicate AllWoken(queue: seq<Waiter>) {
    forall i :: 0 <= i < |queue| ==> queue[i].phase == Woken
  }

  /** `__wake_up_common` for one exclusive waiter: a drowsy waiter is set running but does not count as a
      wake-up, because it never left the runqueue. */
  function WakeOne(queue: seq<Waiter>): (r: seq<Waiter>)
    ensures |r| == |queue|
  {
    if queue == [] then []
    else if queue[0].phase == Asleep then [queue[0].(phase := Woken)] + queue[1..]
    else [queue[0].(phase := Woken)] + WakeOne(queue[1..])
  }

  function WakeAll(queue: seq<Waiter>): (r: seq<Waiter>)
    ensures |r| == |queue| && AllWoken(r) && forall i :: 0 <= i < |queue| ==> r[i].id == queue[i].id
  {
    seq(|queue|, i requires 0 <= i < |queue| => queue[i].(phase := Woken))
  }

  function Leave(queue: seq<Waiter>, k: nat): seq<Waiter>
    requires k < |queue|
  {
    queue[..k] + queue[k + 1..]
  }

  predicate Enabled(s: State, e: Event) {
    match e
    case FallAsleep(k) => k < |s.queue| && s.queue[k].phase == Drowsy
    case Rouse(k) => k < |s.queue| && s.queue[k].phase != Woken
    case Resume(k, _, _) => k < |s.queue| && s.queue[k].phase == Woken
    case _ => true
  }

  function Next(s: State, e: Event): State
    requires Enabled(s, e)
  {
    match e
    case Complete => s.(done := s.done + 1, queue := WakeOne(s.queue), issued := s.issued + 1)
    case CompleteAll =>
      s.(done := s.done + UINT_MAX / 2, queue := WakeAll(s.queue), issued := s.issued + UINT_MAX / 2)
    case Arrive(id, signalled) =>
      if s.done > 0 then s.(done := s.done - 1, successes := s.successes + 1)
      else if signalled then s
      else s.(queue := s.queue + [Waiter(id, Drowsy)])
    case FallAsleep(k) => s.(queue := s.queue[k := s.queue[k].(phase := Asleep)])
    case Rouse(k) => s.(queue := s.queue[k := s.queue[k].(phase := Woken)])
    case Resume(k, timedOut, signalled) =>
      if s.done > 0 then s.(done := s.done - 1, queue := Leave(s.queue, k), successes := s.successes + 1)
      else if timedOut || signalled then s.(queue := Leave(s.queue, k))
      else s.(queue := s.queue[k := s.queue[k].(phase := Drowsy)])
  }

  /** Nothing is lost: every completion is still there or was waited for, and unless every queued waiter
      runs already, enough of them run to use up what is there. */
  ghost predicate Safe(s: State) {
    && s.issued == s.done + s.successes
    && (AllWoken(s.queue) || CountWoken(s.queue) >= s.done)
  }

  // ----- counting -----

  lemma {:induction false} CountUpdate(queue: seq<Waiter>, k: nat, w: Waiter)
    requires k < |queue|
    ensures CountWoken(queue[k := w]) == CountWoken(queue) - (if queue[k].phase == Woken then 1 else 0)
                                         + if w.phase == Woken then 1 else 0
  {
    if k > 0 {
      CountUpdate(queue[1..], k - 1, w);
      assert queue[k := w][1..] == queue[1..][k - 1 := w];
    }
  }

  lemma {:induction false} CountLeave(queue: seq<Waiter>, k: nat)
    requires k < |queue|
    ensures CountWoken(Leave(queue, k)) == CountWoken(queue) - if queue[k].phase == Woken then 1 else 0
  {
    if k > 0 {
      CountLeave(queue[1..], k - 1);
      assert Leave(queue, k)[1..] == Leave(queue[1..], k - 1);
    } else {
      assert Leave(queue, 0) == queue[1..];
    }
  }

  lemma {:induction false} CountArrive(queue: seq<Waiter>, w: Waiter)
    requires w.phase != Woken
    ensures CountWoken(queue + [w]) == CountWoken(queue)
  {
    if queue != [] {
      CountArrive(queue[1..], w);
      assert (queue + [w])[1..] == queue[1..] + [w];
    }
  }

  /** Waking one sets everyone up to the first sleeper running, and nobody behind it. */
  lemma {:induction false} WakesFirstSleeper(queue: seq<Waiter>, f: nat)
    requires f <= |queue| && (f < |queue| ==> queue[f].phase == Asleep)
    requires forall i :: 0 <= i < f ==> queue[i].phase != Asleep
    ensures forall i :: 0 <= i < |queue| ==>
              WakeOne(queue)[i] == if i <= f then queue[i].(phase := Woken) else queue[i]
  {
    if f > 0 {
      WakesFirstSleeper(queue[1..], f - 1);
      forall i | 0 < i < |queue|
        ensures WakeOne(queue)[i] == if i <= f then queue[i].(phase := Woken) else queue[i]
      {
        assert queue[i] == queue[1..][i - 1];
      }
    }
  }

  /** A wake-up reaches a sleeper, or there was none and everybody runs. */
  lemma {:induction false} WakeOneCounts(queue: seq<Waiter>)
    ensures AllWoken(WakeOne(queue)) || CountWoken(WakeOne(queue)) >= CountWoken(queue) + 1
  {
    if queue != [] && queue[0].phase != Asleep {
      WakeOneCounts(queue[1..]);
      assert WakeOne(queue)[1..] == WakeOne(queue[1..]);
      if AllWoken(WakeOne(queue[1..])) {
        assert forall i :: 0 < i < |queue| ==> WakeOne(queue)[i] == WakeOne(queue[1..])[i - 1];
      }
    }
  }

  lemma StepKeepsSafe(s: State, e: Event)
    requires Safe(s) && Enabled(s, e)
    ensures Safe(Next(s, e))
  {
    match e {
      case Complete => WakeOneCounts(s.queue);
        if AllWoken(s.queue) {
          WakesFirstSleeper(s.queue, |s.queue|);
        }
      case CompleteAll =>
      case Arrive(id, signalled) => CountArrive(s.queue, Waiter(id, Drowsy));
      case FallAsleep(k) => CountUpdate(s.queue, k, s.queue[k].(phase := Asleep));
      case Rouse(k) => CountUpdate(s.queue, k, s.queue[k].(phase := Woken));
      case Resume(k, _, _) =>
        CountLeave(s.queue, k);
        CountUpdate(s.queue, k, s.queue[k].(phase := Drowsy));
    }
  }

  /** A run of the completion and its waiters in any interleaving. */
  ghost predicate IsRun(run: seq<State>, events: seq<Event>) {
    && |run| == |events| + 1 && run[0] == State(0, [], 0, 0)
    && forall i {:trigger events[i]}
        :: 0 <= i < |events| ==> Enabled(run[i], events[i]) && run[i + 1] == Next(run[i], events[i])
  }

  lemma {:induction false} RunIsSafe(run: seq<State>, events: seq<Event>, i: nat)
    requires IsRun(run, events) && i < |run|
    ensures Safe(run[i])
  {
    if i > 0 {
      RunIsSafe(run, events, i - 1);
      StepKeepsSafe(run[i - 1], events[i - 1]);
    }
  }

  // ----- who waits -----

  /** The queued waiters, in the order of the queue. */
  function Ids(queue: seq<Waiter>): seq<nat> {
    if queue == [] then [] else [queue[0].id] + Ids(queue[1..])
  }

  lemma {:induction false} IdsAt(queue: seq<Waiter>)
    ensures |Ids(queue)| == |queue| && forall k :: 0 <= k < |queue| ==> Ids(queue)[k] == queue[k].id
  {
    if queue != [] {
      IdsAt(queue[1..]);
    }
  }

  lemma SameIds(a: seq<Waiter>, b: seq<Waiter>)
    requires |a| == |b| && forall k :: 0 <= k < |a| ==> a[k].id == b[k].id
    ensures Ids(a) == Ids(b)
  {
    IdsAt(a);
    IdsAt(b);
  }

  lemma {:induction false} WakeOneSame(queue: seq<Waiter>)
    ensures forall k :: 0 <= k < |queue| ==> WakeOne(queue)[k].id == queue[k].id
  {
    if queue != [] && queue[0].phase != Asleep {
      WakeOneSame(queue[1..]);
    }
  }

  /** Nobody waits twice. */
  ghost predicate EachOnce(ids: seq<nat>) {
    forall i, j :: 0 <= i < j < |ids| ==> ids[i] != ids[j]
  }

  function Except(ids: seq<nat>, id: nat): seq<nat> {
    if ids == [] then [] else (if ids[0] == id then [] else [ids[0]]) + Except(ids[1..], id)
  }

  lemma {:induction false} ExceptNobody(ids: seq<nat>, id: nat)
    requires id !in ids
    ensures Except(ids, id) == ids
  {
    if ids != [] {
      ExceptNobody(ids[1..], id);
    }
  }

  lemma {:induction false} ExceptOne(ids: seq<nat>, k: nat)
    requires EachOnce(ids) && k < |ids|
    ensures Except(ids, ids[k]) == ids[..k] + ids[k + 1..]
    ensures EachOnce(ids[..k] + ids[k + 1..])
  {
    if k == 0 {
      ExceptNobody(ids[1..], ids[0]);
    } else {
      ExceptOne(ids[1..], k - 1);
      assert ids[1..][..k - 1] == ids[1..k] && ids[1..][k..] == ids[k + 1..];
      assert ids[..k] == [ids[0]] + ids[1..k];
    }
  }

  /** Somebody arrives and has to wait, or a waiter that runs again is through: with success, or because of its
      timeout or a signal. */
  function WaitingAfter(waiting: seq<nat>, s: State, e: Event): seq<nat>
    requires Enabled(s, e)
  {
    match e
    case Arrive(id, signalled) => if s.done == 0 && !signalled then waiting + [id] else waiting
    case Resume(k, timedOut, signalled) =>
      if s.done > 0 || timedOut || signalled then Except(waiting, s.queue[k].id) else waiting
    case _ => waiting
  }

  lemma IdsArrive(queue: seq<Waiter>, w: Waiter)
    requires EachOnce(Ids(queue)) && w.id !in Ids(queue)
    ensures Ids(queue + [w]) == Ids(queue) + [w.id] && EachOnce(Ids(queue) + [w.id])
  {
    IdsAt(queue);
    IdsAt(queue + [w]);
  }

  lemma IdsLeave(queue: seq<Waiter>, k: nat)
    requires k < |queue| && EachOnce(Ids(queue))
    ensures Ids(Leave(queue, k)) == Except(Ids(queue), queue[k].id) && EachOnce(Ids(Leave(queue, k)))
  {
    IdsAt(queue);
    IdsAt(Leave(queue, k));
    ExceptOne(Ids(queue), k);
    assert Ids(Leave(queue, k)) == Ids(queue)[..k] + Ids(queue)[k + 1..];
  }

  lemma IdsPhase(queue: seq<Waiter>, k: nat, phase: Phase)
    requires k < |queue|
    ensures Ids(queue[k := queue[k].(phase := phase)]) == Ids(queue)
  {
    SameIds(queue, queue[k := queue[k].(phase := phase)]);
  }

  /** A step takes off exactly the waiter that is through, and puts exactly the one that has to wait at the
      tail. */
  lemma StepKeepsWaiting(s: State, e: Event)
    requires Enabled(s, e) && EachOnce(Ids(s.queue)) && (e.Arrive? ==> e.id !in Ids(s.queue))
    ensures Ids(Next(s, e).queue) == WaitingAfter(Ids(s.queue), s, e) && EachOnce(Ids(Next(s, e).queue))
  {
    match e {
      case Complete =>
        WakeOneSame(s.queue);
        SameIds(s.queue, WakeOne(s.queue));
      case CompleteAll => SameIds(s.queue, WakeAll(s.queue));
      case Arrive(id, signalled) => IdsArrive(s.queue, Waiter(id, Drowsy));
      case FallAsleep(k) => IdsPhase(s.queue, k, Asleep);
      case Rouse(k) => IdsPhase(s.queue, k, Woken);
      case Resume(k, timedOut, signalled) =>
        if s.done > 0 || timedOut || signalled {
          IdsLeave(s.queue, k);
        } else {
          IdsPhase(s.queue, k, Drowsy);
        }
    }
  }

  /** Those who arrived to wait in the first `i` events and are not through yet, in the order they arrived. */
  ghost function Waiting(run: seq<State>, events: seq<Event>, i: nat): seq<nat>
    requires IsRun(run, events) && i <= |events|
  {
    if i == 0 then []
    else
      assert Enabled(run[i - 1], events[i - 1]);
      WaitingAfter(Waiting(run, events, i - 1), run[i - 1], events[i - 1])
  }

  /** Nobody arrives who waits already. */
  ghost predicate NewArrivals(run: seq<State>, events: seq<Event>)
    requires IsRun(run, events)
  {
    forall i {:trigger events[i]} :: 0 <= i < |events| && events[i].Arrive? ==>
      events[i].id !in Waiting(run, events, i)
  }

  /** The queue holds exactly those who wait, each once, first come first served. */
  lemma {:induction false} QueuedAreWaiting(run: seq<State>, events: seq<Event>, i: nat)
    requires IsRun(run, events) && NewArrivals(run, events) && i <= |events|
    ensures Ids(run[i].queue) == Waiting(run, events, i) && EachOnce(Waiting(run, events, i))
  {
    if i > 0 {
      QueuedAreWaiting(run, events, i - 1);
      assert Enabled(run[i - 1], events[i - 1]);
      StepKeepsWaiting(run[i - 1], events[i - 1]);
    }
  }

  /** No wake-up is lost: everybody who waits has exactly one entry in the queue, and while one of them sleeps,
      at least `done` of them are runnable. Once these have all run, somebody still waiting means that nothing
      is left to wait for. */
  lemma NoLostWakeup(run: seq<State>, events: seq<Event>, i: nat, id: nat) returns (k: nat)
    requires IsRun(run, events) && NewArrivals(run, events) && i <= |events| && id in Waiting(run, events, i)
    ensures var s := run[i];
            && k < |s.queue| && s.queue[k].id == id
            && (forall j :: 0 <= j < |s.queue| && s.queue[j].id == id ==> j == k)
            && s.issued == s.done + s.successes
            && (s.queue[k].phase == Asleep ==>
                  CountWoken(s.queue) >= s.done && (CountWoken(s.queue) == 0 ==> s.done == 0))
  {
    QueuedAreWaiting(run, events, i);
    RunIsSafe(run, events, i);
    IdsAt(run[i].queue);
    k :| 0 <= k < |Ids(run[i].queue)| && Ids(run[i].queue)[k] == id;
  }

  class WaitQueue {
    var done: nat
    var queue: seq<Waiter>
    ghost var issued: nat
    ghost var successes: nat

    ghost function S(): State
      reads this
    {
      State(done, queue, issued, successes)
    }

    /** `init_completion` */
    constructor ()
      ensures S() == State(0, [], 0, 0)
    {
      done, queue, issued, successes := 0, [], 0, 0;
    }

    /** `try_to_wake_up`, as the wake function of waiter `i`: true only if it was really asleep. */
    method Wake(i: nat) returns (woken: bool)
      requires i < |queue|
      modifies this`queue
      ensures woken <==> old(queue)[i].phase == Asleep
      ensures queue == old(queue)[i := old(queue)[i].(phase := Woken)]
    {
      woken := queue[i].phase == Asleep;
      queue := queue[i := queue[i].(phase := Woken)];
    }

    /** `__wake_up_common`; zero `nrExclusive` wakes everybody. */
    method WakeUpCommon(nrExclusive: int)
      requires nrExclusive == 0 || nrExclusive == 1
      modifies this`queue
      ensures queue == if nrExclusive == 1 then WakeOne(old(queue)) else WakeAll(old(queue))
    {
      ghost var was := queue;
      var left, i := nrExclusive, 0;
      while i < |queue|
        invariant i <= |queue| == |was|
        invariant left <= nrExclusive && (nrExclusive == 1 ==> left == 1)
        invariant forall k :: 0 <= k < i ==> queue[k] == was[k].(phase := Woken)
        invariant forall k :: i <= k < |was| ==> queue[k] == was[k]
        invariant nrExclusive == 1 ==> forall k :: 0 <= k < i ==> was[k].phase != Asleep
      {
        var woken := Wake(i);
        if woken {
          left := left - 1;
          if left == 0 {
            WakesFirstSleeper(was, i);
            return;
          }
        }
        i := i + 1;
      }
      if nrExclusive == 1 {
        WakesFirstSleeper(was, i);
      }
    }

    /** `complete` */
    method Complete()
      modifies this
      ensures S() == Next(old(S()), Event.Complete) && done == old(done) + 1
    {
      done, issued := done + 1, issued + 1;
      WakeUpCommon(1);
    }

    /** `complete_all` */
    method CompleteAll()
      modifies this
      ensures S() == Next(old(S()), Event.CompleteAll) && done == old(done) + 0x7fff_ffff
    {
      done, issued := done + UINT_MAX / 2, issued + UINT_MAX / 2;
      WakeUpCommon(0);
    }

    /** `do_wait_for_common` up to the first release of the lock; `success` when nothing is to wait for. */
    method WaitArrives(id: nat, signalled: bool) returns (success: bool)
      modifies this
      ensures S() == Next(old(S()), Arrive(id, signalled)) && (success <==> old(done) > 0)
      ensures done == old(done) - (if success then 1 else 0)
      ensures queue == if success || signalled then old(queue) else old(queue) + [Waiter(id, Drowsy)]
    {
      success := false;
      if done == 0 {
        queue := queue + [Waiter(id, Drowsy)];
        if signalled {
          queue := queue[..|queue| - 1];
        }
        return;
      }
      done, successes := done - 1, successes + 1;
      success := true;
    }

    /** `do_wait_for_common` from the reacquisition of the lock to its next release; `finished` when the
        waiter has left the queue. */
    method WaitResumes(k: nat, timedOut: bool, signalled: bool) returns (finished: bool, success: bool)
      requires k < |queue| && queue[k].phase == Woken
      modifies this
      ensures S() == Next(old(S()), Resume(k, timedOut, signalled))
      ensures success <==> old(done) > 0
      ensures done == old(done) - (if success then 1 else 0)
      ensures queue == if finished then old(queue)[..k] + old(queue)[k + 1..]
                       else old(queue)[k := old(queue)[k].(phase := Drowsy)]
      ensures finished <==> success || timedOut || signalled
    {
      finished, success := false, false;
      if done == 0 && !timedOut && !signalled {
        queue := queue[k := queue[k].(phase := Drowsy)];
        return;
      }
      queue := queue[..k] + queue[k + 1..];
      finished := true;
      if done == 0 {
        return;
      }
      done, successes := done - 1, successes + 1;
      success := true;
    }
  }
}
