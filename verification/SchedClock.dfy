/** The per-CPU clocks (hw4/sched_clock.c) and the synchronised time above them (`cpu_clock` in
    hw4/sched.c). Raw readings are arbitrary 64-bit words; the filtered clocks are taken not to overflow.
 */
module SchedClock {
  import opened Words

  /** The length of a jiffy, here for HZ == 1000. No result depends on its value. */
  const TICK_NSEC: nat := 1_000_000

  type Cpu = nat

  /** `struct sched_clock_data` */
  datatype Scd = Scd(prevJiffies: int, prevRaw: int, tickRaw: int, tickGtod: int, clock: int)

  function MinClock(scd: Scd, jiffies: int): int {
    scd.tickGtod + (jiffies - scd.prevJiffies) * TICK_NSEC
  }

  /** The clock after `__update_sched_clock` with the raw reading `now`. */
  function Filtered(scd: Scd, now: int, jiffies: int): int {
    var delta, min := SignedDifference(now, scd.prevRaw), MinClock(scd, jiffies);
    var max := min + TICK_NSEC;
    Max(min,
        if delta < 0 then scd.clock + 1
        else if scd.clock + delta <= max then scd.clock + delta
        else if scd.clock < max then max
        else scd.clock + 1)
  }

  function Updated(scd: Scd, now: int, jiffies: int): Scd {
    scd.(prevRaw := now, prevJiffies := jiffies, clock := Filtered(scd, now, jiffies))
  }

  /** Whatever the raw reading, the clock does not go back and lands between `min_clock` and the larger of
      `max_clock` and one more than before. */
  lemma UpdateInWindow(scd: Scd, now: int, jiffies: int)
    ensures var c, min := Updated(scd, now, jiffies).clock, MinClock(scd, jiffies);
            scd.clock <= c && min <= c <= Max(min + TICK_NSEC, scd.clock + 1)
  {
  }

  /** Inside the window the clock follows the raw reading; above it, it is clipped to `max_clock`, or moves by
      one if it was there already; below it, and when the raw reading went back, it is at least `min_clock`. */
  lemma UpdateFollows(scd: Scd, now: int, jiffies: int)
    ensures var delta, c := SignedDifference(now, scd.prevRaw), Updated(scd, now, jiffies).clock;
            var min := scd.tickGtod + (jiffies - scd.prevJiffies) * TICK_NSEC;
            && Updated(scd, now, jiffies) == scd.(prevRaw := now, prevJiffies := jiffies, clock := c)
            && (delta >= 0 && min <= scd.clock + delta <= min + TICK_NSEC ==> c == scd.clock + delta)
            && (delta >= 0 && scd.clock + delta > min + TICK_NSEC ==>
                  c == if scd.clock < min + TICK_NSEC then min + TICK_NSEC else scd.clock + 1)
            && (delta >= 0 && scd.clock + delta < min ==> c == min)
            && (delta < 0 ==> c == Max(min, scd.clock + 1))
  {
  }

  /** The clock after several readings. */
  function UpdatedBy(scd: Scd, nows: seq<int>, jiffies: seq<int>): Scd
    requires |nows| == |jiffies|
  {
    if nows == [] then scd
    else
      var n := |nows| - 1;
      Updated(UpdatedBy(scd, nows[..n], jiffies[..n]), nows[n], jiffies[n])
  }

  /** The raw readings do not go back, and keep inside the window of the clock that follows them. */
  ghost predicate Inside(scd: Scd, nows: seq<int>, jiffies: seq<int>)
    requires |nows| == |jiffies|
  {
    nows == [] ||
    var n := |nows| - 1;
    var last := if n == 0 then scd.prevRaw else nows[n - 1];
    var before := if n == 0 then scd.prevJiffies else jiffies[n - 1];
    var time, min := scd.clock + nows[n] - scd.prevRaw, scd.tickGtod + (jiffies[n] - before) * TICK_NSEC;
    && Inside(scd, nows[..n], jiffies[..n])
    && last <= nows[n] < last + TWO_63 && min <= time <= min + TICK_NSEC
  }

  /** As long as the raw readings keep inside the window, the clock advances exactly as they do. */
  lemma {:induction false} FollowsRaw(scd: Scd, nows: seq<int>, jiffies: seq<int>)
    requires |nows| == |jiffies| && Inside(scd, nows, jiffies)
    ensures var r, n := UpdatedBy(scd, nows, jiffies), |nows|;
            && r.tickGtod == scd.tickGtod
            && r.prevRaw == (if n == 0 then scd.prevRaw else nows[n - 1])
            && r.prevJiffies == (if n == 0 then scd.prevJiffies else jiffies[n - 1])
            && r.clock - scd.clock == r.prevRaw - scd.prevRaw
  {
    if nows != [] {
      var n := |nows| - 1;
      FollowsRaw(scd, nows[..n], jiffies[..n]);
      var m := UpdatedBy(scd, nows[..n], jiffies[..n]);
      ForwardDifference(nows[n], m.prevRaw);
      UpdateFollows(m, nows[n], jiffies[n]);
    }
  }

  lemma ForwardDifference(a: int, b: int)
    requires b <= a < b + TWO_63
    ensures SignedDifference(a, b) == a - b
  {
    assert (a - b) % TWO_64 == a - b;
  }

  /** The raw reading of CPU `me`, rebased to the tick of another CPU. */
  function Rebased(now: int, mine: Scd, other: Scd): int {
    (now - mine.tickRaw + other.tickRaw - mine.tickGtod + other.tickGtod) % TWO_64
  }

  /** It is as far behind the tick of the other CPU as the reading is behind the own one, and further by as much
      as the other tick saw a later time. */
  lemma RebasedElapsed(now: int, mine: Scd, other: Scd)
    ensures var r := Rebased(now, mine, other);
            && 0 <= r < TWO_64
            && SignedDifference(r, other.tickRaw) ==
                 SignedDifference(now + other.tickGtod, mine.tickRaw + mine.tickGtod)
  {
    var x := now - mine.tickRaw + other.tickRaw - mine.tickGtod + other.tickGtod;
    SameModulo(x, other.tickRaw);
    assert x - other.tickRaw == now + other.tickGtod - (mine.tickRaw + mine.tickGtod);
  }

  lemma SameModulo(x: int, y: int)
    ensures (x % TWO_64 - y) % TWO_64 == (x - y) % TWO_64
  {
    var k := x / TWO_64;
    assert x == k * TWO_64 + x % TWO_64;
    assert x - y == (x % TWO_64 - y) + k * TWO_64;
  }

  datatype Event =
    | Read(me: Cpu, cpu: Cpu, raw: int, jiffies: int)
    | Tick(me: Cpu, raw: int, gtod: int, jiffies: int)
    | IdleWakeup(me: Cpu, raw: int, delta: nat)

  predicate Possible(scds: seq<Scd>, e: Event) {
    e.me < |scds| && (e.Read? ==> e.cpu < |scds|)
  }

  function Next(scds: seq<Scd>, e: Event): (r: seq<Scd>)
    requires Possible(scds, e)
    ensures |r| == |scds|
  {
    match e
    case Read(me, cpu, raw, jiffies) =>
      scds[cpu := Updated(scds[cpu], if cpu == me then raw else Rebased(raw, scds[me], scds[cpu]), jiffies)]
    case Tick(me, raw, gtod, jiffies) =>
      scds[me := Updated(scds[me], raw, jiffies).(tickRaw := raw, tickGtod := gtod)]
    case IdleWakeup(me, raw, delta) =>
      scds[me := scds[me].(prevRaw := raw, clock := scds[me].clock + delta)]
  }

  /** No clock went back. */
  ghost predicate Later(before: seq<Scd>, after: seq<Scd>) {
    |after| == |before| && forall c :: 0 <= c < |before| ==> before[c].clock <= after[c].clock
  }

  ghost predicate IsRun(run: seq<seq<Scd>>, events: seq<Event>) {
    && |run| == |events| + 1
    && forall i {:trigger events[i]}
        :: 0 <= i < |events| ==> Possible(run[i], events[i]) && run[i + 1] == Next(run[i], events[i])
  }

  /** Local reads, remote reads, ticks and idle wake-ups in any order never turn any CPU's clock back. */
  lemma {:induction false} ClocksNeverGoBack(run: seq<seq<Scd>>, events: seq<Event>, i: nat, j: nat)
    requires IsRun(run, events) && i <= j < |run|
    ensures Later(run[i], run[j])
  {
    if i < j {
      ClocksNeverGoBack(run, events, i, j - 1);
      var e := events[j - 1];
      if e.Read? {
        var raw := if e.cpu == e.me then e.raw else Rebased(e.raw, run[j - 1][e.me], run[j - 1][e.cpu]);
        UpdateInWindow(run[j - 1][e.cpu], raw, e.jiffies);
      } else if e.Tick? {
        UpdateInWindow(run[j - 1][e.me], e.raw, e.jiffies);
      }
    }
  }

  ghost predicate NoneBefore(before: seq<int>, after: seq<int>) {
    |after| == |before| && forall c :: 0 <= c < |before| ==> before[c] <= after[c]
  }

  /** The global time after some CPUs asked to synchronise these times, in this order. */
  function GlobalTime(start: int, asked: seq<int>): int {
    if asked == [] then start else Max(GlobalTime(start, asked[..|asked| - 1]), asked[|asked| - 1])
  }

  /** Synchronised times are nondecreasing across all CPUs, and never before what was asked. */
  lemma {:induction false} SyncedTimesIncrease(start: int, asked: seq<int>, i: nat, j: nat)
    requires i <= j <= |asked|
    ensures GlobalTime(start, asked[..i]) <= GlobalTime(start, asked[..j])
    ensures i < j ==> asked[i] <= GlobalTime(start, asked[..j])
  {
    if i < j {
      SyncedTimesIncrease(start, asked, i, j - 1);
      assert asked[..j][..j - 1] == asked[..j - 1];
    }
  }

  class Clocks {
    var scds: seq<Scd>
    // cpu_clock's per-CPU data
    var prevCpuTime: seq<int>
    var timeOffset: seq<int>
    var prevGlobalTime: int
    const thresh: int
    /** What `cpu_clock` last returned for a CPU. */
    ghost var returned: seq<int>

    /** No returned time is ahead of its CPU's clock with its offset. */
    ghost predicate Valid()
      reads this
    {
      && |scds| == |prevCpuTime| == |timeOffset| == |returned|
      && forall c :: 0 <= c < |scds| ==> returned[c] <= scds[c].clock + timeOffset[c]
    }

    /** `sched_clock_init` */
    constructor (n: nat, gtod: int, jiffies: int, thresh: int)
      requires gtod >= 0
      ensures Valid() && |scds| == n
    {
      scds := seq(n, _ => Scd(jiffies, 0, 0, gtod, gtod));
      prevCpuTime, timeOffset, returned := seq(n, _ => 0), seq(n, _ => 0), seq(n, _ => 0);
      prevGlobalTime := 0;
      this.thresh := thresh;
    }

    /** `__update_sched_clock` */
    method UpdateSchedClock(cpu: Cpu, now: int, jiffies: int)
      requires cpu < |scds|
      modifies this`scds
      ensures scds == old(scds)[cpu := Updated(old(scds)[cpu], now, jiffies)]
    {
      var scd := scds[cpu];
      var clock := scd.clock;
      var delta := SignedDifference(now, scd.prevRaw);
      var minClock := scd.tickGtod + (jiffies - scd.prevJiffies) * TICK_NSEC;
      if delta < 0 {
        clock := clock + 1;
      } else {
        var maxClock := minClock + TICK_NSEC;
        if clock + delta > maxClock {
          if clock < maxClock {
            clock := maxClock;
          } else {
            clock := clock + 1;
          }
        } else {
          clock := clock + delta;
        }
      }
      if clock < minClock {
        clock := minClock;
      }
      scds := scds[cpu := scd.(prevRaw := now, prevJiffies := jiffies, clock := clock)];
    }

    /** `sched_clock_cpu`, running on CPU `me`. */
    method SchedClockCpu(me: Cpu, cpu: Cpu, raw: int, jiffies: int) returns (clock: int)
      requires me < |scds| && cpu < |scds|
      modifies this`scds
      ensures scds == Next(old(scds), Read(me, cpu, raw, jiffies)) && clock == scds[cpu].clock
      ensures Later(old(scds), scds)
    {
      var now := raw;
      if cpu != me {
        now := (now - scds[me].tickRaw + scds[cpu].tickRaw - scds[me].tickGtod + scds[cpu].tickGtod) % TWO_64;
      }
      UpdateInWindow(scds[cpu], now, jiffies);
      UpdateSchedClock(cpu, now, jiffies);
      clock := scds[cpu].clock;
    }

    /** `sched_clock_tick` */
    method SchedClockTick(me: Cpu, raw: int, gtod: int, jiffies: int)
      requires me < |scds|
      modifies this`scds
      ensures scds == Next(old(scds), Tick(me, raw, gtod, jiffies)) && Later(old(scds), scds)
      ensures scds[me].prevRaw == scds[me].tickRaw == raw && scds[me].tickGtod == gtod
      ensures scds[me].prevJiffies == jiffies
    {
      UpdateInWindow(scds[me], raw, jiffies);
      UpdateSchedClock(me, raw, jiffies);
      scds := scds[me := scds[me].(tickRaw := raw, tickGtod := gtod)];
    }

    /** `sched_clock_idle_wakeup_event` */
    method SchedClockIdleWakeupEvent(me: Cpu, raw: int, delta: nat)
      requires me < |scds|
      modifies this`scds
      ensures scds == Next(old(scds), IdleWakeup(me, raw, delta)) && Later(old(scds), scds)
      ensures scds[me] == old(scds)[me].(prevRaw := raw, clock := old(scds)[me].clock + delta)
    {
      scds := scds[me := scds[me].(prevRaw := raw, clock := scds[me].clock + delta)];
    }

    /** Other CPUs run: they update clocks, read them and synchronise times, but leave the data of
        `cpu_clock(cpu)`. */
    method OthersRun(cpu: Cpu)
      requires Valid() && cpu < |scds|
      modifies this
      ensures Valid() && Later(old(scds), scds) && prevGlobalTime >= old(prevGlobalTime)
      ensures NoneBefore(old(returned), returned) && returned[cpu] == old(returned)[cpu]
      ensures prevCpuTime[cpu] == old(prevCpuTime)[cpu] && timeOffset[cpu] == old(timeOffset)[cpu]
    {
    }

    /** `__sync_cpu_clock`: the synchronised time is the new global time, and that never decreases. */
    method SyncCpuClock(time0: int, cpu: Cpu) returns (time: int)
      requires cpu < |timeOffset|
      modifies this`timeOffset, this`prevGlobalTime
      ensures time == prevGlobalTime == Max(old(prevGlobalTime), time0)
      ensures timeOffset == old(timeOffset)[cpu := old(timeOffset)[cpu] + time - time0]
    {
      time := time0;
      if time < prevGlobalTime {
        timeOffset := timeOffset[cpu := timeOffset[cpu] + prevGlobalTime - time];
        time := prevGlobalTime;
      } else {
        prevGlobalTime := time;
        assert timeOffset == timeOffset[cpu := timeOffset[cpu]];
      }
    }

    /** `cpu_clock`: the times returned for a CPU never decrease, and a synchronised one is not before any
        time synchronised earlier on any CPU. */
    method CpuClock(me: Cpu, cpu: Cpu, raw: int, jiffies: int) returns (time: int, synced: bool)
      requires Valid() && me < |scds| && cpu < |scds|
      modifies this
      ensures Valid() && Later(old(scds), scds)
      ensures time >= old(returned)[cpu] && NoneBefore(old(returned), returned) && returned[cpu] == time
      ensures prevGlobalTime >= old(prevGlobalTime)
      ensures synced ==> old(prevGlobalTime) <= time <= prevGlobalTime && prevCpuTime[cpu] == time
      ensures !synced ==> prevCpuTime[cpu] == old(prevCpuTime)[cpu] && (time - prevCpuTime[cpu]) % TWO_64 <= thresh
    {
      ghost var before, told := scds, returned;
      time := SchedClockCpu(me, cpu, raw, jiffies);
      time := time + timeOffset[cpu];
      ghost var read := scds;
      OthersRun(cpu);
      ghost var mid := returned;
      var deltaTime := (time - prevCpuTime[cpu]) % TWO_64;
      synced := false;
      if deltaTime > thresh {
        time := SyncCpuClock(time, cpu);
        synced := true;
        prevCpuTime := prevCpuTime[cpu := time];
      }
      returned := returned[cpu := time];
      ghost var done := scds;
      OthersRun(cpu);
      forall c | 0 <= c < |before|
        ensures before[c].clock <= scds[c].clock
      {
        assert before[c].clock <= read[c].clock <= done[c].clock <= scds[c].clock;
      }
      forall c | 0 <= c < |told|
        ensures told[c] <= returned[c]
      {
        assert told[c] <= mid[c] && (c != cpu ==> mid[c] <= returned[c]);
      }
    }
  }
}
