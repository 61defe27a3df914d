/** Choosing the CPUs to push a real-time task to (hw4/sched_rt.c, `find_lowest_cpus`): one pass over the
    mask that clears bits behind itself, and prunes the rest afterwards.
 */
module RtPush {
  import opened RtLimits

  type Cpu = nat

  /** CPU `c` runs a real-time task less urgent than `prio`, and none of the others is less urgent. */
  ghost predicate IsLowest(cand: set<Cpu>, highest: seq<nat>, prio: nat, c: Cpu)
    requires forall d :: d in cand ==> d < |highest|
  {
    && c in cand && highest[c] > prio
    && forall d :: d in cand && highest[d] > prio ==> highest[d] <= highest[c]
  }

  /** The first candidate that runs no real-time task at all. */
  ghost predicate IsFirstFree(cand: set<Cpu>, highest: seq<nat>, c: Cpu)
    requires forall d :: d in cand ==> d < |highest|
  {
    && c in cand && highest[c] >= MAX_RT_PRIO
    && forall d :: d in cand && highest[d] >= MAX_RT_PRIO ==> c <= d
  }

  /** The candidates the pass has counted since `lowestPrio` was last raised. */
  ghost function Counted(cand: set<Cpu>, highest: seq<nat>, prio: nat, cpu: nat, lowestPrio: int): set<Cpu>
    requires forall d :: d in cand ==> d < |highest|
  {
    set c | c in cand && c < cpu && highest[c] == lowestPrio && highest[c] > prio
  }

  /** The state of the pass when it stands at `cpu`; `lowestPrio` and `lowestCpu` are -1 until a candidate
      was found. Bits below `lowestCpu` are not pruned yet. */
  ghost predicate Scanned(cand: set<Cpu>, highest: seq<nat>, prio: nat, cpu: nat,
                          mask: set<Cpu>, lowestPrio: int, lowestCpu: int, count: nat)
    requires forall d :: d in cand ==> d < |highest|
  {
    && mask <= cand && lowestPrio >= -1 && (lowestCpu == -1 <==> lowestPrio == -1)
    && (forall c :: c in cand && c >= cpu ==> c in mask)
    && (forall c :: c in cand && c < cpu ==> highest[c] < MAX_RT_PRIO)
    && (forall c :: c in cand && c < cpu && highest[c] > prio ==> highest[c] <= lowestPrio)
    && (forall c :: c in mask && c < cpu && c >= lowestCpu ==> highest[c] == lowestPrio)
    && (lowestCpu != -1 ==>
          && 0 <= lowestCpu < cpu && lowestCpu in cand && highest[lowestCpu] == lowestPrio > prio
          && (forall c :: c in cand && c < lowestCpu && highest[c] > prio ==> highest[c] < lowestPrio)
          && (forall c :: c in cand && lowestCpu <= c < cpu && highest[c] == lowestPrio ==> c in mask))
    && count == |Counted(cand, highest, prio, cpu, lowestPrio)|
  }

  /** `find_lowest_cpus`. When no candidate is free of real-time tasks the mask is exactly the set of the
      least urgent ones that `prio` beats, and the count is its size. Otherwise the count is 1 and the
      first bit of the mask is the first free CPU. */
  method FindLowestCpus(online: set<Cpu>, allowed: set<Cpu>, highest: seq<nat>, prio: nat)
    returns (lowestMask: set<Cpu>, count: nat)
    requires forall c :: c in online ==> c < |highest|
    ensures var cand := online * allowed;
            && lowestMask <= cand
            && ((forall c :: c in cand ==> highest[c] < MAX_RT_PRIO) ==>
                  (forall c: Cpu :: c in lowestMask <==> IsLowest(cand, highest, prio, c)) && count == |lowestMask|)
            && (forall f: Cpu :: IsFirstFree(cand, highest, f) ==>
                  count == 1 && f in lowestMask && forall c :: c in lowestMask ==> f <= c)
  {
    var lowestPrio, lowestCpu := -1, -1;
    ghost var cand := online * allowed;
    count := 0;
    lowestMask := online * allowed;
    assert Counted(cand, highest, prio, 0, -1) == {};
    var cpu := 0;
    while cpu < |highest|
      invariant cpu <= |highest| && Scanned(cand, highest, prio, cpu, lowestMask, lowestPrio, lowestCpu, count)
    {
      if cpu in lowestMask {
        var h := highest[cpu];
        if h >= MAX_RT_PRIO {
          assert IsFirstFree(cand, highest, cpu);
          if lowestCpu != -1 {
            lowestMask := {cpu};
          }
          return lowestMask, 1;
        }
        CountedNext(cand, highest, prio, cpu, lowestPrio);
        if h > prio && h >= lowestPrio {
          if h > lowestPrio {
            CountedRaised(cand, highest, prio, cpu, lowestPrio, h);
            lowestPrio := h;
            lowestCpu := cpu;
            count := 0;
          }
          count := count + 1;
        } else {
          lowestMask := lowestMask - {cpu};
        }
      } else {
        CountedSkipped(cand, highest, prio, cpu, lowestPrio);
      }
      cpu := cpu + 1;
    }
    if lowestCpu > 0 {
      lowestMask := Prune(lowestMask, lowestCpu);
    }
    LowestAre(cand, highest, prio, lowestPrio, lowestCpu, lowestMask);
  }

  /** The loop that clears the bits below `lowestCpu`. */
  method Prune(mask: set<Cpu>, lowestCpu: nat) returns (r: set<Cpu>)
    ensures r == set c | c in mask && c >= lowestCpu
  {
    r := mask;
    var cpu := 0;
    while cpu < lowestCpu
      invariant cpu <= lowestCpu && r == set c | c in mask && c >= cpu
    {
      r := r - {cpu};
      cpu := cpu + 1;
    }
  }

  lemma CountedNext(cand: set<Cpu>, highest: seq<nat>, prio: nat, cpu: nat, lowestPrio: int)
    requires forall d :: d in cand ==> d < |highest|
    requires cpu in cand
    ensures |Counted(cand, highest, prio, cpu + 1, lowestPrio)| ==
            |Counted(cand, highest, prio, cpu, lowestPrio)|
               + if highest[cpu] == lowestPrio && highest[cpu] > prio then 1 else 0
  {
    var before := Counted(cand, highest, prio, cpu, lowestPrio);
    assert Counted(cand, highest, prio, cpu + 1, lowestPrio) ==
           if highest[cpu] == lowestPrio && highest[cpu] > prio then before + {cpu} else before;
  }

  lemma CountedRaised(cand: set<Cpu>, highest: seq<nat>, prio: nat, cpu: nat, lowestPrio: int, h: nat)
    requires forall d :: d in cand ==> d < |highest|
    requires cpu in cand && highest[cpu] == h && h > prio && h > lowestPrio
    requires forall c :: c in cand && c < cpu && highest[c] > prio ==> highest[c] <= lowestPrio
    ensures |Counted(cand, highest, prio, cpu + 1, h)| == 1
  {
    assert Counted(cand, highest, prio, cpu + 1, h) == {cpu};
  }

  lemma CountedSkipped(cand: set<Cpu>, highest: seq<nat>, prio: nat, cpu: nat, lowestPrio: int)
    requires forall d :: d in cand ==> d < |highest|
    requires cpu !in cand || highest[cpu] <= prio || highest[cpu] != lowestPrio
    ensures Counted(cand, highest, prio, cpu + 1, lowestPrio) == Counted(cand, highest, prio, cpu, lowestPrio)
  {
  }

  /** After the whole pass, what remains at or above `lowestCpu` is what was counted. */
  lemma LowestAre(cand: set<Cpu>, highest: seq<nat>, prio: nat, lowestPrio: int, lowestCpu: int, mask: set<Cpu>)
    requires forall d :: d in cand ==> d < |highest|
    requires forall c :: c in cand ==> highest[c] < MAX_RT_PRIO && (highest[c] > prio ==> highest[c] <= lowestPrio)
    requires lowestCpu == -1 <==> lowestPrio == -1
    requires lowestCpu != -1 ==> lowestCpu in cand && highest[lowestCpu] == lowestPrio > prio
    requires forall c :: c in mask <==> c in cand && highest[c] == lowestPrio && highest[c] > prio
    ensures forall c: Cpu :: c in mask <==> IsLowest(cand, highest, prio, c)
    ensures mask == Counted(cand, highest, prio, |highest|, lowestPrio)
    ensures forall f: Cpu :: !IsFirstFree(cand, highest, f)
  {
    forall c: Cpu
      ensures c in mask <==> IsLowest(cand, highest, prio, c)
    {
      if lowestCpu != -1 {
        assert IsLowest(cand, highest, prio, c) ==> highest[lowestCpu] <= highest[c];
      }
    }
  }
}
