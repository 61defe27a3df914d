/** Group weighted round robin (hw4/1105/sched_gwrr.c), on one CPU: a list of groups with weights, and one
    flat list of the tasks of all groups.
 */
module Gwrr {
  import opened Options
  import opened Words

  const GWRR_DWEIGHT: nat := 10

  datatype Group = Group(gid: int, weight: int, currWeight: int)

  datatype Task = Task(pid: int, gid: int)

  datatype State = State(groups: seq<Group>, tasks: seq<Task>)

  /** Group `i` is the first with its gid. */
  ghost predicate NewGid(groups: seq<Group>, i: nat)
    requires i < |groups|
  {
    forall j :: 0 <= j < i ==> groups[j].gid != groups[i].gid
  }

  ghost predicate DistinctGids(groups: seq<Group>) {
    forall i {:trigger NewGid(groups, i)} :: 0 <= i < |groups| ==> NewGid(groups, i)
  }

  /** Task `i` is the first with its pid. */
  ghost predicate NewPid(tasks: seq<Task>, i: nat)
    requires i < |tasks|
  {
    forall j :: 0 <= j < i ==> tasks[j].pid != tasks[i].pid
  }

  ghost predicate DistinctPids(tasks: seq<Task>) {
    forall i {:trigger NewPid(tasks, i)} :: 0 <= i < |tasks| ==> NewPid(tasks, i)
  }

  predicate HasGroup(groups: seq<Group>, gid: int) {
    exists i :: 0 <= i < |groups| && groups[i].gid == gid
  }

  predicate HasTask(tasks: seq<Task>, gid: int) {
    exists i :: 0 <= i < |tasks| && tasks[i].gid == gid
  }

  ghost predicate WeightsOk(groups: seq<Group>) {
    forall i :: 0 <= i < |groups| ==> 1 <= groups[i].weight && 0 <= groups[i].currWeight <= groups[i].weight
  }

  /** The groups are exactly those of the queued tasks. */
  ghost predicate Valid(s: State) {
    && DistinctGids(s.groups) && DistinctPids(s.tasks) && WeightsOk(s.groups)
    && (forall gid {:trigger HasGroup(s.groups, gid)} {:trigger HasTask(s.tasks, gid)} ::
          HasGroup(s.groups, gid) <==> HasTask(s.tasks, gid))
  }

  // ----- choosing a group -----

  /** The first group of maximal remaining weight among the first `n`. */
  function BestOf(groups: seq<Group>, n: nat): (b: nat)
    requires 0 < n <= |groups|
    ensures b < n
  {
    if n == 1 then 0
    else
      var b := BestOf(groups, n - 1);
      if groups[n - 1].currWeight > groups[b].currWeight then n - 1 else b
  }

  function Best(groups: seq<Group>): (b: nat)
    requires groups != []
    ensures b < |groups|
  {
    BestOf(groups, |groups|)
  }

  lemma {:induction false} BestIsFirstMax(groups: seq<Group>, n: nat)
    requires 0 < n <= |groups|
    ensures var b := BestOf(groups, n);
            && (forall i :: 0 <= i < n ==> groups[i].currWeight <= groups[b].currWeight)
            && (forall i :: 0 <= i < b ==> groups[i].currWeight < groups[b].currWeight)
  {
    if n > 1 {
      BestIsFirstMax(groups, n - 1);
    }
  }

  function Refilled(groups: seq<Group>): (r: seq<Group>)
    ensures |r| == |groups|
    ensures forall i :: 0 <= i < |groups| ==> r[i] == groups[i].(currWeight := groups[i].weight)
  {
    seq(|groups|, i requires 0 <= i < |groups| => groups[i].(currWeight := groups[i].weight))
  }

  /** The groups a pick chooses from: refilled when no group has weight left. */
  function Ready(groups: seq<Group>): (r: seq<Group>)
    requires groups != []
    ensures |r| == |groups|
  {
    if groups[Best(groups)].currWeight <= 0 then Refilled(groups) else groups
  }

  /** The index of the group a pick chooses. */
  function Choose(groups: seq<Group>): (b: nat)
    ensures groups != [] ==> b < |groups|
  {
    if groups == [] then 0 else Best(Ready(groups))
  }

  /** What a pick does to the remaining weights. */
  function Spend(groups: seq<Group>): (r: seq<Group>)
    ensures |r| == |groups|
  {
    if groups == [] then []
    else
      var ready, b := Ready(groups), Choose(groups);
      ready[b := ready[b].(currWeight := ready[b].currWeight - 1)]
  }

  function Iterate<T>(step: T -> T, x: T, n: nat): T {
    if n == 0 then x else step(Iterate(step, x, n - 1))
  }

  function LookAt<T>(step: T -> T, look: T -> nat, x: T, n: nat): nat { look(Iterate(step, x, n)) }

  /** How often the first `n` states of an iteration show `i`. */
  function Shows<T>(step: T -> T, look: T -> nat, x: T, n: nat, i: nat): nat {
    if n == 0 then 0
    else Shows(step, look, x, n - 1, i) + if look(Iterate(step, x, n - 1)) == i then 1 else 0
  }

  lemma {:induction false} IterateAdds<T>(step: T -> T, look: T -> nat, x: T, n: nat, m: nat, i: nat)
    ensures Iterate(step, x, n + m) == Iterate(step, Iterate(step, x, n), m)
    ensures Shows(step, look, x, n + m, i) ==
            Shows(step, look, x, n, i) + Shows(step, look, Iterate(step, x, n), m, i)
    decreases m
  {
    if m > 0 {
      IterateAdds(step, look, x, n, m - 1, i);
      assert n + m - 1 == n + (m - 1);
    }
  }

  lemma ShowsFirst<T>(step: T -> T, look: T -> nat, x: T, n: nat, i: nat)
    requires n > 0
    ensures Iterate(step, step(x), n - 1) == Iterate(step, x, n)
    ensures Shows(step, look, x, n, i) == (if look(x) == i then 1 else 0) + Shows(step, look, step(x), n - 1, i)
  {
    IterateAdds(step, look, x, 1, n - 1, i);
    assert Iterate(step, x, 1) == step(Iterate(step, x, 0));
    assert 1 + (n - 1) == n;
  }

  /** Two states no step can tell apart. */
  predicate Alike<T(==)>(step: T -> T, look: T -> nat, x: T, y: T) {
    look(x) == look(y) && step(x) == step(y)
  }

  lemma {:induction false} AlikeGoOn<T>(step: T -> T, look: T -> nat, x: T, y: T, n: nat, i: nat)
    requires Alike(step, look, x, y)
    ensures Shows(step, look, x, n, i) == Shows(step, look, y, n, i)
    ensures n > 0 ==> Iterate(step, x, n) == Iterate(step, y, n)
    ensures look(Iterate(step, x, n)) == look(Iterate(step, y, n))
  {
    if n > 0 {
      AlikeGoOn(step, look, x, y, n - 1, i);
    }
  }

  /** An iteration that is back where it began after `w` steps shows the same in every window of `w`. */
  lemma PeriodicWindow<T>(step: T -> T, look: T -> nat, x: T, w: nat, k: nat, i: nat)
    requires Alike(step, look, Iterate(step, x, w), x)
    ensures LookAt(step, look, x, w + k) == LookAt(step, look, x, k)
    ensures Shows(step, look, Iterate(step, x, k), w, i) == Shows(step, look, x, w, i)
  {
    IterateAdds(step, look, x, w, k, i);
    IterateAdds(step, look, x, k, w, i);
    AlikeGoOn(step, look, Iterate(step, x, w), x, k, i);
    assert w + k == k + w;
  }

  lemma OneMoreTime(c: nat, v: nat)
    requires c > 0
    ensures (c - 1) * v + v == c * v && (c - 1) * v >= 0
  {
  }

  lemma {:induction false} PeriodicRounds<T>(step: T -> T, look: T -> nat, x: T, w: nat, c: nat, i: nat)
    requires Alike(step, look, Iterate(step, x, w), x)
    ensures Shows(step, look, x, c * w, i) == c * Shows(step, look, x, w, i)
    decreases c
  {
    if c > 0 {
      PeriodicRounds(step, look, x, w, c - 1, i);
      PeriodicWindow(step, look, x, w, (c - 1) * w, i);
      IterateAdds(step, look, x, (c - 1) * w, w, i);
      OneMoreTime(c, w);
      OneMoreTime(c, Shows(step, look, x, w, i));
    }
  }

  /** An iteration that comes to something like `x` after `r` steps goes on like `x`. */
  lemma GoesOnLike<T>(step: T -> T, look: T -> nat, y: T, r: nat, x: T, m: nat, n: nat, i: nat)
    requires r <= m && Alike(step, look, Iterate(step, y, r), x)
    ensures Shows(step, look, y, m, i) == Shows(step, look, y, r, i) + Shows(step, look, x, m - r, i)
    ensures Shows(step, look, Iterate(step, y, m), n, i) == Shows(step, look, Iterate(step, x, m - r), n, i)
  {
    var k := m - r;
    assert r + k == m;
    IterateAdds(step, look, y, r, k, i);
    AlikeGoOn(step, look, Iterate(step, y, r), x, k, i);
    AlikeGoOn(step, look, Iterate(step, y, r), x, k + n, i);
    IterateAdds(step, look, Iterate(step, y, r), k, n, i);
    IterateAdds(step, look, x, k, n, i);
  }

  /** From a state that reaches the period within `r <= w` steps, `c + 1` periods show at least `c` times. */
  lemma EventuallyPeriodic<T>(step: T -> T, look: T -> nat, y: T, r: nat, x: T, w: nat, c: nat, i: nat)
    requires r <= w && Alike(step, look, Iterate(step, y, r), x) && Alike(step, look, Iterate(step, x, w), x)
    ensures Shows(step, look, y, (c + 1) * w, i) >= c * Shows(step, look, x, w, i)
  {
    OneMoreTime(c + 1, w);
    var rounds, all := c * w, (c + 1) * w;
    assert all - r == rounds + (w - r);
    PeriodicRounds(step, look, x, w, c, i);
    GoesOnLike(step, look, y, r, x, all, 0, i);
    IterateAdds(step, look, x, rounds, w - r, i);
  }

  /** Seen through `proj`, the iteration of `step` is that of `step'`. */
  lemma {:induction false} Projects<T(!new), U>(step: T -> T, look: T -> nat, proj: T -> U,
      step': U -> U, look': U -> nat, x: T, n: nat, i: nat)
    requires forall y: T :: proj(step(y)) == step'(proj(y)) && look(y) == look'(proj(y))
    ensures proj(Iterate(step, x, n)) == Iterate(step', proj(x), n)
    ensures Shows(step, look, x, n, i) == Shows(step', look', proj(x), n, i)
  {
    if n > 0 {
      Projects(step, look, proj, step', look', x, n - 1, i);
    }
  }

  /** Being shown moves `rank` one forward; otherwise it stays. */
  predicate MovesUp<T>(step: T -> T, look: T -> nat, rank: T -> int, x: T, i: nat) {
    && rank(x) >= 0
    && (look(x) == i ==> rank(x) > 0 ==> rank(step(x)) == rank(x) - 1)
    && (look(x) != i ==> rank(step(x)) == rank(x))
  }

  /** What stands at rank `q` is in front once `i` was shown `q` times. */
  lemma {:induction false} TurnComes<T>(step: T -> T, look: T -> nat, rank: T -> int, x: T, n: nat, i: nat)
    returns (m: nat)
    requires forall k: nat {:trigger Iterate(step, x, k)} :: MovesUp(step, look, rank, Iterate(step, x, k), i)
    requires rank(x) < Shows(step, look, x, n, i)
    ensures m < n && look(Iterate(step, x, m)) == i && rank(Iterate(step, x, m)) == 0
    decreases n
  {
    assert Iterate(step, x, 0) == x;
    ShowsFirst(step, look, x, n, i);
    if look(x) == i && rank(x) == 0 {
      m := 0;
    } else {
      forall k: nat
        ensures MovesUp(step, look, rank, Iterate(step, step(x), k), i)
      {
        ShowsFirst(step, look, x, k + 1, i);
        assert MovesUp(step, look, rank, Iterate(step, x, k + 1), i);
      }
      m := TurnComes(step, look, rank, step(x), n - 1, i);
      ShowsFirst(step, look, x, m + 1, i);
      m := m + 1;
    }
  }

  /** The groups after `n` picks. */
  function After(groups: seq<Group>, n: nat): seq<Group> { Iterate(Spend, groups, n) }

  /** How often the first `n` picks choose group `i`. */
  function Count(groups: seq<Group>, n: nat, i: nat): nat { Shows(Spend, Choose, groups, n, i) }

  /** Picking changes neither which groups there are nor their weights. */
  ghost predicate SameGroups(groups: seq<Group>, groups': seq<Group>) {
    && |groups'| == |groups|
    && forall i :: 0 <= i < |groups| ==> groups'[i].gid == groups[i].gid && groups'[i].weight == groups[i].weight
  }

  lemma SpendSame(groups: seq<Group>)
    ensures SameGroups(groups, Spend(groups))
  {
  }

  lemma AfterNext(groups: seq<Group>, n: nat, i: nat)
    requires n > 0
    ensures After(groups, n) == Spend(After(groups, n - 1))
    ensures Count(groups, n, i) == Count(groups, n - 1, i) + if Choose(After(groups, n - 1)) == i then 1 else 0
  {
  }

  lemma {:induction false} AfterSame(groups: seq<Group>, n: nat)
    ensures SameGroups(groups, After(groups, n))
  {
    if n > 0 {
      AfterSame(groups, n - 1);
      AfterNext(groups, n, 0);
      SpendSame(After(groups, n - 1));
    }
  }

  function Remaining(groups: seq<Group>): int {
    if groups == [] then 0 else groups[0].currWeight + Remaining(groups[1..])
  }

  function TotalWeight(groups: seq<Group>): int {
    if groups == [] then 0 else groups[0].weight + TotalWeight(groups[1..])
  }

  ghost predicate Fresh(groups: seq<Group>) {
    forall i :: 0 <= i < |groups| ==> groups[i].currWeight == groups[i].weight
  }

  ghost predicate Empty(groups: seq<Group>) {
    forall i :: 0 <= i < |groups| ==> groups[i].currWeight == 0
  }

  lemma {:induction false} RemainingUpdate(groups: seq<Group>, b: nat, g: Group)
    requires b < |groups|
    ensures Remaining(groups[b := g]) == Remaining(groups) - groups[b].currWeight + g.currWeight
  {
    if b > 0 {
      RemainingUpdate(groups[1..], b - 1, g);
      assert groups[b := g][1..] == groups[1..][b - 1 := g];
    }
  }

  lemma {:induction false} RemainingBounds(groups: seq<Group>)
    requires WeightsOk(groups)
    ensures 0 <= Remaining(groups) <= TotalWeight(groups)
    ensures Remaining(groups) == 0 <==> Empty(groups)
    ensures Fresh(groups) ==> Remaining(groups) == TotalWeight(groups)
    ensures |groups| <= TotalWeight(groups)
  {
    if groups != [] {
      RemainingBounds(groups[1..]);
      if Empty(groups[1..]) && groups[0].currWeight == 0 {
        assert forall i :: 0 < i < |groups| ==> groups[i] == groups[1..][i - 1];
      }
    }
  }

  lemma {:induction false} SameTotal(groups: seq<Group>, groups': seq<Group>)
    requires |groups| == |groups'| && forall i :: 0 <= i < |groups| ==> groups[i].weight == groups'[i].weight
    ensures TotalWeight(groups) == TotalWeight(groups')
  {
    if groups != [] {
      SameTotal(groups[1..], groups'[1..]);
    }
  }

  /** One pick inside a round takes one unit from the chosen group. */
  lemma SpendInRound(groups: seq<Group>)
    requires groups != [] && WeightsOk(groups) && !Empty(groups)
    ensures var b := Choose(groups);
            && Spend(groups) == groups[b := groups[b].(currWeight := groups[b].currWeight - 1)]
            && groups[b].currWeight > 0 && WeightsOk(Spend(groups))
            && Remaining(Spend(groups)) == Remaining(groups) - 1
  {
    var i :| 0 <= i < |groups| && groups[i].currWeight != 0;
    var b := Choose(groups);
    BestIsFirstMax(groups, |groups|);
    RemainingUpdate(groups, b, groups[b].(currWeight := groups[b].currWeight - 1));
  }

  /** Inside a round the picks of a group are exactly the weight it loses. */
  lemma {:induction false} RoundCounts(groups: seq<Group>, n: nat, i: nat)
    requires groups != [] && WeightsOk(groups) && n <= Remaining(groups) && i < |groups|
    ensures |After(groups, n)| == |groups|
    ensures WeightsOk(After(groups, n)) && Remaining(After(groups, n)) == Remaining(groups) - n
    ensures Count(groups, n, i) == groups[i].currWeight - After(groups, n)[i].currWeight
    decreases n
  {
    if n > 0 {
      RoundCounts(groups, n - 1, i);
      AfterNext(groups, n, i);
      RemainingBounds(After(groups, n - 1));
      SpendInRound(After(groups, n - 1));
    }
  }

  /** A spent round and a fresh one go on alike. */
  lemma EmptyIsFresh(empty: seq<Group>, round: seq<Group>)
    requires empty != [] && WeightsOk(empty) && Empty(empty) && round == Refilled(empty)
    ensures Choose(empty) == Choose(round) && Spend(empty) == Spend(round)
    ensures WeightsOk(round) && Fresh(round)
  {
    assert round[0].currWeight > 0;
  }

  /** A whole round from a fresh start picks each group exactly its weight, and is then as good as fresh. */
  lemma FullRound(round: seq<Group>, i: nat)
    requires round != [] && WeightsOk(round) && Fresh(round) && i < |round|
    ensures TotalWeight(round) > 0
    ensures Shows(Spend, Choose, round, TotalWeight(round), i) == round[i].weight
    ensures Alike(Spend, Choose, Iterate(Spend, round, TotalWeight(round)), round)
  {
    var w := TotalWeight(round);
    RemainingBounds(round);
    AfterSame(round, w);
    RoundCounts(round, w, i);
    var empty := After(round, w);
    RemainingBounds(empty);
    assert Refilled(empty) == round;
    EmptyIsFresh(empty, round);
  }

  /** The group the pick after `n` others chooses. */
  function ChoiceAt(groups: seq<Group>, n: nat): nat { LookAt(Spend, Choose, groups, n) }

  /** The choices repeat with period W. */
  lemma Periodic(round: seq<Group>, w: nat, k: nat)
    requires round != [] && WeightsOk(round) && Fresh(round) && w == TotalWeight(round)
    ensures ChoiceAt(round, w + k) == ChoiceAt(round, k)
  {
    FullRound(round, 0);
    PeriodicWindow(Spend, Choose, round, w, k, 0);
  }

  /** Any W consecutive picks reachable from a fresh round choose each group exactly its weight. */
  lemma AnyWindow(round: seq<Group>, k: nat, i: nat)
    requires round != [] && WeightsOk(round) && Fresh(round) && i < |round|
    ensures TotalWeight(round) > 0
    ensures Count(After(round, k), TotalWeight(round), i) == round[i].weight
  {
    FullRound(round, i);
    PeriodicWindow(Spend, Choose, round, TotalWeight(round), k, i);
  }

  // ----- the water level within a round -----

  /** Weights above `level` are spent down to it, those of the first `j` groups one further. */
  ghost predicate WaterLevel(groups: seq<Group>, level: int, j: nat) {
    && level >= 1 && j <= |groups|
    && forall i :: 0 <= i < |groups| ==>
         groups[i].currWeight == Min(groups[i].weight, if i < j then level - 1 else level)
  }

  lemma {:induction false} LevelSinks(groups: seq<Group>, level: int, j: nat) returns (level': int, j': nat)
    requires groups != [] && WeightsOk(groups) && !Empty(groups) && WaterLevel(groups, level, j)
    ensures WaterLevel(Spend(groups), level', j')
    decreases level
  {
    SpendInRound(groups);
    BestIsFirstMax(groups, |groups|);
    var b := Choose(groups);
    if groups[b].currWeight == level {
      return level, b + 1;
    } else {
      assert forall i :: j <= i < |groups| ==> groups[i].currWeight <= level - 1;
      assert groups[b].currWeight <= level - 1;
      level', j' := LevelSinks(groups, level - 1, 0);
    }
  }

  lemma InRound(round: seq<Group>, n: nat)
    requires round != [] && WeightsOk(round) && Fresh(round) && n < TotalWeight(round)
    ensures WeightsOk(After(round, n)) && !Empty(After(round, n))
  {
    RemainingBounds(round);
    RoundCounts(round, n, 0);
    RemainingBounds(After(round, n));
  }

  /** Within a round the remaining weights follow a falling water level. */
  lemma {:induction false} WaterFilling(round: seq<Group>, n: nat) returns (level: int, j: nat)
    requires round != [] && WeightsOk(round) && Fresh(round) && n < TotalWeight(round)
    ensures WaterLevel(After(round, n), level, j)
  {
    if n == 0 {
      RemainingBounds(round);
      level, j := HighLevel(round), 0;
    } else {
      level, j := WaterFilling(round, n - 1);
      InRound(round, n - 1);
      level, j := LevelSinks(After(round, n - 1), level, j);
    }
  }

  function HighLevel(groups: seq<Group>): (h: int)
    ensures h >= 1 && forall i :: 0 <= i < |groups| ==> groups[i].weight <= h
  {
    if groups == [] then 1
    else
      var h := HighLevel(groups[1..]);
      assert forall i :: 0 < i < |groups| ==> groups[i] == groups[1..][i - 1];
      if groups[0].weight > h then groups[0].weight else h
  }

  // ----- windows that begin anywhere -----

  /** The next `n` picks choose each group exactly its weight. */
  ghost predicate Exact(groups: seq<Group>, n: nat) {
    forall i {:trigger Count(groups, n, i)} :: 0 <= i < |groups| ==> Count(groups, n, i) == groups[i].weight
  }

  /** Once the round that is on is spent, the state is as good as a fresh round. */
  lemma RoundEnds(groups: seq<Group>)
    requires groups != [] && WeightsOk(groups)
    ensures var round, w, r := Refilled(groups), TotalWeight(groups), Remaining(groups);
            && 0 <= r <= w && 0 < w == TotalWeight(round) && WeightsOk(round) && Fresh(round)
            && Alike(Spend, Choose, Iterate(Spend, groups, r), round)
  {
    var round, r := Refilled(groups), Remaining(groups);
    RemainingBounds(groups);
    RoundCounts(groups, r, 0);
    AfterSame(groups, r);
    SameTotal(groups, round);
    var empty := After(groups, r);
    RemainingBounds(empty);
    assert Refilled(empty) == round;
    EmptyIsFresh(empty, round);
  }

  /** The picks left of the round take what remains. */
  lemma RestCounts(groups: seq<Group>, i: nat)
    requires groups != [] && WeightsOk(groups) && i < |groups|
    ensures Remaining(groups) >= 0 && Count(groups, Remaining(groups), i) == groups[i].currWeight
  {
    RemainingBounds(groups);
    RoundCounts(groups, Remaining(groups), i);
    RemainingBounds(After(groups, Remaining(groups)));
  }

  lemma CountsFrom(groups: seq<Group>, r: nat, round: seq<Group>, w: nat, i: nat)
    requires r <= w == TotalWeight(round) && Alike(Spend, Choose, Iterate(Spend, groups, r), round)
    requires round != [] && WeightsOk(round) && Fresh(round) && i < |round|
    ensures |After(round, w - r)| == |round|
    ensures Count(groups, w, i) == Count(groups, r, i) + round[i].weight - After(round, w - r)[i].currWeight
  {
    GoesOnLike(Spend, Choose, groups, r, round, w, 0, i);
    RemainingBounds(round);
    RoundCounts(round, w - r, i);
  }

  /** Of two states at water levels one is nowhere above the other. */
  lemma LevelsCompare(a: seq<Group>, la: int, ja: nat, b: seq<Group>, lb: int, jb: nat)
    requires WaterLevel(a, la, ja) && WaterLevel(b, lb, jb) && SameGroups(a, b)
    ensures || (forall i :: 0 <= i < |a| ==> a[i].currWeight <= b[i].currWeight)
            || (forall i :: 0 <= i < |a| ==> b[i].currWeight <= a[i].currWeight)
  {
  }

  lemma {:induction false} BelowIsSame(a: seq<Group>, b: seq<Group>)
    requires SameGroups(a, b) && forall i :: 0 <= i < |a| ==> a[i].currWeight <= b[i].currWeight
    ensures Remaining(a) <= Remaining(b) && (Remaining(a) == Remaining(b) ==> a == b)
  {
    if a != [] {
      BelowIsSame(a[1..], b[1..]);
      assert a == [a[0]] + a[1..] && b == [b[0]] + b[1..];
    }
  }

  /** A level and an index that give the remaining weights, also when nothing is left. */
  lemma LevelIn(round: seq<Group>, n: nat) returns (level: int, j: nat)
    requires round != [] && WeightsOk(round) && Fresh(round) && n <= TotalWeight(round)
    ensures WaterLevel(After(round, n), level, j)
  {
    if n < TotalWeight(round) {
      level, j := WaterFilling(round, n);
    } else {
      RemainingBounds(round);
      RoundCounts(round, n, 0);
      RemainingBounds(After(round, n));
      level, j := 1, |round|;
    }
  }

  lemma EndAt(round: seq<Group>, n: nat) returns (end: seq<Group>, level: int, j: nat)
    requires round != [] && WeightsOk(round) && Fresh(round) && n <= TotalWeight(round)
    ensures end == After(round, n) && SameGroups(round, end)
    ensures WaterLevel(end, level, j) && Remaining(end) == TotalWeight(round) - n
  {
    end := After(round, n);
    AfterSame(round, n);
    RemainingBounds(round);
    RoundCounts(round, n, 0);
    level, j := LevelIn(round, n);
  }

  /** W picks from any state finish the round that is on, and then play the first picks of a fresh one, whose
      remaining weights then stand at a level and have the same sum. */
  lemma WindowEnds(groups: seq<Group>) returns (end: seq<Group>, level: int, j: nat)
    requires groups != [] && WeightsOk(groups)
    ensures TotalWeight(groups) >= 0 && SameGroups(groups, end)
    ensures WaterLevel(end, level, j) && Remaining(end) == Remaining(groups)
    ensures forall i :: 0 <= i < |groups| ==>
              Count(groups, TotalWeight(groups), i) == groups[i].currWeight + groups[i].weight - end[i].currWeight
  {
    var round, w, r := Refilled(groups), TotalWeight(groups), Remaining(groups);
    RoundEnds(groups);
    end, level, j := EndAt(round, w - r);
    forall i | 0 <= i < |groups|
      ensures Count(groups, w, i) == groups[i].currWeight + groups[i].weight - end[i].currWeight
    {
      RestCounts(groups, i);
      CountsFrom(groups, r, round, w, i);
    }
  }

  lemma LevelsSame(a: seq<Group>, la: int, ja: nat, b: seq<Group>, lb: int, jb: nat)
    requires WaterLevel(a, la, ja) && WaterLevel(b, lb, jb) && SameGroups(a, b) && Remaining(a) == Remaining(b)
    ensures a == b
  {
    LevelsCompare(a, la, ja, b, lb, jb);
    if forall i :: 0 <= i < |a| ==> a[i].currWeight <= b[i].currWeight {
      BelowIsSame(a, b);
    } else {
      BelowIsSame(b, a);
    }
  }

  /** From any state, the next W picks choose each group exactly its weight if and only if the remaining
      weights stand at some water level. */
  lemma ExactWindow(groups: seq<Group>)
    requires groups != [] && WeightsOk(groups)
    ensures TotalWeight(groups) >= 0
    ensures Exact(groups, TotalWeight(groups)) <==> exists level: int, j: nat :: WaterLevel(groups, level, j)
  {
    var end, l, k := WindowEnds(groups);
    if Exact(groups, TotalWeight(groups)) {
      assert groups == end;
    }
    if level: int, j: nat :| WaterLevel(groups, level, j) {
      LevelsSame(groups, level, j, end, l, k);
    }
  }

  lemma WindowsFrom(groups: seq<Group>, r: nat, round: seq<Group>, w: nat, k: nat, i: nat)
    requires r <= k && w == TotalWeight(round) && Alike(Spend, Choose, Iterate(Spend, groups, r), round)
    requires round != [] && WeightsOk(round) && Fresh(round) && i < |round|
    ensures Count(After(groups, k), w, i) == round[i].weight
  {
    GoesOnLike(Spend, Choose, groups, r, round, k, w, i);
    AnyWindow(round, k - r, i);
  }

  /** Once the round that is on has ended, every window is exact. */
  lemma ExactAfterRound(groups: seq<Group>, k: nat)
    requires groups != [] && WeightsOk(groups) && k >= Remaining(groups)
    ensures TotalWeight(groups) >= 0 && Exact(After(groups, k), TotalWeight(groups))
  {
    var round, r, w := Refilled(groups), Remaining(groups), TotalWeight(groups);
    RoundEnds(groups);
    AfterSame(groups, k);
    forall i | 0 <= i < |groups|
      ensures Count(After(groups, k), w, i) == groups[i].weight
    {
      WindowsFrom(groups, r, round, w, k, i);
    }
  }

  /** A group that joins in the middle of a round, as an enqueued one does with its full weight, keeps the
      next window exact if and only if the level has not sunk below that weight. */
  lemma JoinExactly(groups: seq<Group>, g: Group)
    requires WeightsOk(groups + [g]) && g.currWeight == g.weight
    ensures var joined := groups + [g];
            && TotalWeight(joined) >= 0
            && (Exact(joined, TotalWeight(joined)) <==>
                  exists level: int, j: nat :: WaterLevel(groups, level, j) && level >= g.weight)
  {
    var joined := groups + [g];
    ExactWindow(joined);
    if level: int, j: nat :| WaterLevel(joined, level, j) {
      assert joined[|groups|] == g;
      assert forall i :: 0 <= i < |groups| ==> joined[i] == groups[i];
      var j' := if j <= |groups| then j else |groups|;
      assert WaterLevel(groups, level, j');
    }
    if level: int, j: nat :| WaterLevel(groups, level, j) && level >= g.weight {
      assert WaterLevel(joined, level, j);
    }
  }

  // ----- the flat task list -----

  /** The sub-queue of a group. */
  function Sub(tasks: seq<Task>, gid: int): (r: seq<Task>)
    ensures forall t :: t in r <==> t in tasks && t.gid == gid
  {
    if tasks == [] then []
    else
      var rest := Sub(tasks[1..], gid);
      assert forall t :: t in tasks <==> t == tasks[0] || t in tasks[1..];
      if tasks[0].gid == gid then [tasks[0]] + rest else rest
  }

  lemma {:induction false} SubConcat(a: seq<Task>, b: seq<Task>, gid: int)
    ensures Sub(a + b, gid) == Sub(a, gid) + Sub(b, gid)
  {
    if a == [] {
      assert a + b == b;
    } else {
      SubConcat(a[1..], b, gid);
      assert (a + b)[1..] == a[1..] + b;
    }
  }

  lemma SubOne(t: Task, gid: int)
    ensures Sub([t], gid) == if t.gid == gid then [t] else []
  {
    assert [t][1..] == [];
  }

  /** The first queued task of a group; the end of the list when there is none. */
  function FirstOf(tasks: seq<Task>, gid: int): (k: nat)
    ensures k <= |tasks| && (k < |tasks| ==> tasks[k].gid == gid)
    ensures forall i :: 0 <= i < k ==> tasks[i].gid != gid
  {
    if tasks == [] || tasks[0].gid == gid then 0 else 1 + FirstOf(tasks[1..], gid)
  }

  function MovedToTail(tasks: seq<Task>, k: nat): seq<Task>
    requires k < |tasks|
  {
    tasks[..k] + tasks[k + 1..] + [tasks[k]]
  }

  lemma {:induction false} SubOfNone(tasks: seq<Task>, gid: int)
    requires forall i :: 0 <= i < |tasks| ==> tasks[i].gid != gid
    ensures Sub(tasks, gid) == []
  {
    if tasks != [] {
      SubOfNone(tasks[1..], gid);
    }
  }

  lemma SubSplit(tasks: seq<Task>, k: nat, gid: int)
    requires k < |tasks|
    ensures Sub(tasks, gid) == Sub(tasks[..k], gid) + Sub([tasks[k]], gid) + Sub(tasks[k + 1..], gid)
    ensures Sub(MovedToTail(tasks, k), gid) == Sub(tasks[..k], gid) + Sub(tasks[k + 1..], gid) + Sub([tasks[k]], gid)
  {
    SubConcat(tasks[..k], [tasks[k]], gid);
    SubConcat(tasks[..k] + [tasks[k]], tasks[k + 1..], gid);
    assert tasks == tasks[..k] + [tasks[k]] + tasks[k + 1..];
    SubConcat(tasks[..k], tasks[k + 1..], gid);
    SubConcat(tasks[..k] + tasks[k + 1..], [tasks[k]], gid);
  }

  lemma KeepsOtherGroups(tasks: seq<Task>, k: nat, other: int)
    requires k < |tasks| && tasks[k].gid != other
    ensures Sub(MovedToTail(tasks, k), other) == Sub(tasks, other)
  {
    SubSplit(tasks, k, other);
    SubOne(tasks[k], other);
  }

  lemma RotatesGroup(tasks: seq<Task>, k: nat, gid: int)
    requires k < |tasks| && tasks[k].gid == gid && forall i :: 0 <= i < k ==> tasks[i].gid != gid
    ensures Sub(tasks, gid) == [tasks[k]] + Sub(tasks[k + 1..], gid)
    ensures Sub(MovedToTail(tasks, k), gid) == Sub(tasks[k + 1..], gid) + [tasks[k]]
  {
    SubSplit(tasks, k, gid);
    SubOne(tasks[k], gid);
    SubOfNone(tasks[..k], gid);
  }

  /** A pick rotates the chosen group's sub-queue by one and leaves those of the other groups alone. */
  lemma RotatesOnlyItsGroup(tasks: seq<Task>, gid: int, other: int)
    requires FirstOf(tasks, gid) < |tasks|
    ensures var k, q := FirstOf(tasks, gid), Sub(tasks, gid);
            && |q| > 0 && q[0] == tasks[k]
            && Sub(MovedToTail(tasks, k), gid) == q[1..] + [q[0]]
            && (other != gid ==> Sub(MovedToTail(tasks, k), other) == Sub(tasks, other))
  {
    var k, q := FirstOf(tasks, gid), Sub(tasks, gid);
    RotatesGroup(tasks, k, gid);
    assert q[1..] == Sub(tasks[k + 1..], gid);
    if other != gid {
      KeepsOtherGroups(tasks, k, other);
    }
  }

  lemma MovedKeeps(tasks: seq<Task>, k: nat)
    requires k < |tasks| && DistinctPids(tasks)
    ensures DistinctPids(MovedToTail(tasks, k))
    ensures forall gid :: HasTask(MovedToTail(tasks, k), gid) <==> HasTask(tasks, gid)
  {
    var moved := MovedToTail(tasks, k);
    forall i | 0 <= i < |tasks|
      ensures moved[i] == if i < k then tasks[i] else if i < |tasks| - 1 then tasks[i + 1] else tasks[k]
    {
    }
    forall i | 0 <= i < |moved|
      ensures NewPid(moved, i)
    {
      forall j | 0 <= j < i
        ensures moved[j].pid != moved[i].pid
      {
        var i', j' := if i < k then i else if i < |tasks| - 1 then i + 1 else k, if j < k then j else j + 1;
        assert NewPid(tasks, i') && NewPid(tasks, j');
      }
    }
    forall gid
      ensures HasTask(moved, gid) <==> HasTask(tasks, gid)
    {
      if i :| 0 <= i < |tasks| && tasks[i].gid == gid {
        assert moved[if i < k then i else if i > k then i - 1 else |tasks| - 1].gid == gid;
      }
      if i :| 0 <= i < |moved| && moved[i].gid == gid {
        assert tasks[if i < k then i else if i < |tasks| - 1 then i + 1 else k].gid == gid;
      }
    }
  }

  // ----- a pick -----

  /** The task the next pick returns. */
  function Picked(s: State): Option<Task> {
    if s.groups == [] then None
    else
      var k := FirstOf(s.tasks, s.groups[Choose(s.groups)].gid);
      if k < |s.tasks| then Some(s.tasks[k]) else None
  }

  /** The task the pick after `n` others returns. */
  function PickedAt(s: State, n: nat): Option<Task> { Picked(Iterate(Next, s, n)) }

  function Next(s: State): State {
    if s.groups == [] then s
    else
      var k := FirstOf(s.tasks, s.groups[Choose(s.groups)].gid);
      State(Spend(s.groups), if k < |s.tasks| then MovedToTail(s.tasks, k) else s.tasks)
  }

  lemma GroupHasTask(s: State, i: nat)
    requires Valid(s) && i < |s.groups|
    ensures FirstOf(s.tasks, s.groups[i].gid) < |s.tasks|
  {
    assert HasGroup(s.groups, s.groups[i].gid);
    var j :| 0 <= j < |s.tasks| && s.tasks[j].gid == s.groups[i].gid;
  }

  lemma SpendKeepsWeights(groups: seq<Group>)
    requires WeightsOk(groups)
    ensures WeightsOk(Spend(groups))
  {
    if groups != [] {
      RemainingBounds(groups);
      if Empty(groups) {
        EmptyIsFresh(groups, Refilled(groups));
        assert Refilled(groups)[0].currWeight > 0;
        SpendInRound(Refilled(groups));
      } else {
        SpendInRound(groups);
      }
    }
  }

  lemma SameGroupsHas(groups: seq<Group>, groups': seq<Group>, gid: int)
    requires SameGroups(groups, groups')
    ensures HasGroup(groups', gid) <==> HasGroup(groups, gid)
  {
    if i :| 0 <= i < |groups| && groups[i].gid == gid {
      assert groups'[i].gid == gid;
    }
  }

  lemma NextKeepsValid(s: State)
    requires Valid(s)
    ensures Valid(Next(s))
  {
    if s.groups != [] {
      SpendKeepsWeights(s.groups);
      SpendSame(s.groups);
      GroupHasTask(s, Choose(s.groups));
      var k := FirstOf(s.tasks, s.groups[Choose(s.groups)].gid);
      MovedKeeps(s.tasks, k);
      forall i | 0 <= i < |s.groups|
        ensures NewGid(Spend(s.groups), i)
      {
        assert NewGid(s.groups, i);
      }
      forall gid
        ensures HasGroup(Next(s).groups, gid) <==> HasTask(Next(s).tasks, gid)
      {
        SameGroupsHas(s.groups, Spend(s.groups), gid);
      }
    }
  }

  lemma {:induction false} NextsKeepValid(s: State, n: nat)
    requires Valid(s)
    ensures Valid(Iterate(Next, s, n))
  {
    if n > 0 {
      NextsKeepValid(s, n - 1);
      NextKeepsValid(Iterate(Next, s, n - 1));
    }
  }

  // ----- nobody starves -----

  function ChooseIn(s: State): nat { Choose(s.groups) }

  function GroupsOf(s: State): seq<Group> { s.groups }

  /** Where `t` stands in a sub-queue, -1 if nowhere. */
  function IndexIn(q: seq<Task>, t: Task): (k: int)
    ensures -1 <= k < |q| && (k == -1 <==> t !in q) && (k >= 0 ==> q[k] == t)
    ensures forall j :: 0 <= j < k ==> q[j] != t
  {
    if q == [] then -1
    else if q[0] == t then 0
    else
      var k := IndexIn(q[1..], t);
      assert forall x :: x in q <==> x == q[0] || x in q[1..];
      if k == -1 then -1 else k + 1
  }

  function RankOf(t: Task): State -> int {
    (s: State) => IndexIn(Sub(s.tasks, t.gid), t)
  }

  lemma {:induction false} IndexUnique(q: seq<Task>, t: Task, k: nat)
    requires k < |q| && q[k] == t && forall j :: 0 <= j < k ==> q[j] != t
    ensures IndexIn(q, t) == k
  {
    if k > 0 {
      IndexUnique(q[1..], t, k - 1);
    }
  }

  lemma RotatedIndex(q: seq<Task>, t: Task)
    requires IndexIn(q, t) > 0
    ensures IndexIn(q[1..] + [q[0]], t) == IndexIn(q, t) - 1
  {
    IndexUnique(q[1..] + [q[0]], t, IndexIn(q, t) - 1);
  }

  lemma NextGroups(s: State)
    ensures GroupsOf(Next(s)) == Spend(GroupsOf(s)) && ChooseIn(s) == Choose(GroupsOf(s))
  {
  }

  /** `t` is queued, and `i` is its group. */
  ghost predicate Waits(s: State, i: nat, t: Task) {
    Valid(s) && i < |s.groups| && s.groups[i].gid == t.gid && t in s.tasks
  }

  /** What one pick does to the rank of a task of group `i`. */
  lemma OneTurn(s: State, i: nat, t: Task)
    requires Waits(s, i, t)
    ensures t in Next(s).tasks && MovesUp(Next, ChooseIn, RankOf(t), s, i)
    ensures Choose(s.groups) == i && RankOf(t)(s) == 0 ==> Picked(s) == Some(t)
  {
    var b := Choose(s.groups);
    GroupHasTask(s, b);
    RotatesOnlyItsGroup(s.tasks, s.groups[b].gid, t.gid);
    assert NewGid(s.groups, i) && NewGid(s.groups, b);
    var q := Sub(s.tasks, t.gid);
    assert t in q;
    if b == i {
      assert t in q[1..] + [q[0]];
      if IndexIn(q, t) > 0 {
        RotatedIndex(q, t);
      }
    }
  }

  lemma StillWaits(s: State, i: nat, t: Task)
    requires Waits(s, i, t)
    ensures Waits(Next(s), i, t)
  {
    OneTurn(s, i, t);
    NextKeepsValid(s);
    SpendSame(s.groups);
  }

  lemma {:induction false} KeepsWaiting(s: State, i: nat, t: Task, n: nat)
    requires Waits(s, i, t)
    ensures Waits(Iterate(Next, s, n), i, t)
  {
    if n > 0 {
      KeepsWaiting(s, i, t, n - 1);
      StillWaits(Iterate(Next, s, n - 1), i, t);
    }
  }

  /** A task runs once its group was chosen more often than its rank. */
  lemma PickedByTurn(s: State, i: nat, t: Task, n: nat) returns (m: nat)
    requires Waits(s, i, t)
    requires |Sub(s.tasks, t.gid)| <= Shows(Spend, Choose, s.groups, n, i)
    ensures m < n && PickedAt(s, m) == Some(t)
  {
    forall y: State
      ensures GroupsOf(Next(y)) == Spend(GroupsOf(y)) && ChooseIn(y) == Choose(GroupsOf(y))
    {
      NextGroups(y);
    }
    Projects(Next, ChooseIn, GroupsOf, Spend, Choose, s, n, i);
    forall k: nat
      ensures MovesUp(Next, ChooseIn, RankOf(t), Iterate(Next, s, k), i)
    {
      KeepsWaiting(s, i, t, k);
      OneTurn(Iterate(Next, s, k), i, t);
    }
    m := TurnComes(Next, ChooseIn, RankOf(t), s, n, i);
    KeepsWaiting(s, i, t, m);
    OneTurn(Iterate(Next, s, m), i, t);
  }

  /** From any point of a round, `c + 1` rounds choose group `i` at least `c` times its weight. */
  lemma EnoughPicks(groups: seq<Group>, c: nat, i: nat) returns (n: nat)
    requires groups != [] && WeightsOk(groups) && i < |groups|
    ensures n == (c + 1) * TotalWeight(groups)
    ensures Shows(Spend, Choose, groups, n, i) >= c * groups[i].weight
  {
    var r := Remaining(groups);
    RemainingBounds(groups);
    n := (c + 1) * TotalWeight(groups);
    RoundCounts(groups, r, i);
    RemainingBounds(After(groups, r));
    AfterSame(groups, r);
    EnoughFrom(groups, r, After(groups, r), c, i);
  }

  lemma EnoughFrom(groups: seq<Group>, r: nat, empty: seq<Group>, c: nat, i: nat)
    requires groups != [] && WeightsOk(groups) && i < |groups| && r <= TotalWeight(groups)
    requires empty == Iterate(Spend, groups, r) && WeightsOk(empty) && Empty(empty) && SameGroups(groups, empty)
    ensures TotalWeight(groups) > 0
    ensures Shows(Spend, Choose, groups, (c + 1) * TotalWeight(groups), i) >= c * groups[i].weight
  {
    var round := Refilled(empty);
    EmptyIsFresh(empty, round);
    SameTotal(groups, round);
    FullRound(round, i);
    EventuallyPeriodic(Spend, Choose, groups, r, round, TotalWeight(round), c, i);
  }

  function RoundsFor(n: nat, weight: nat): (c: nat)
    requires weight >= 1
    ensures c * weight >= n && (c > 0 ==> (c - 1) * weight < n)
  {
    if n <= weight then (if n == 0 then 0 else 1) else 1 + RoundsFor(n - weight, weight)
  }

  /** Every task is picked within (ceil(n / w) + 1) * W picks from any valid state, where n counts the
      tasks of its group, w is the group's weight and W the sum of the weights. */
  lemma PickedWithin(s: State, t: Task) returns (i: nat, m: nat)
    requires Valid(s) && t in s.tasks
    ensures i < |s.groups| && s.groups[i].gid == t.gid && s.groups[i].weight >= 1
    ensures m < (RoundsFor(|Sub(s.tasks, t.gid)|, s.groups[i].weight) + 1) * TotalWeight(s.groups)
    ensures PickedAt(s, m) == Some(t)
  {
    i := GroupOf(s, t);
    var n := EnoughPicks(s.groups, RoundsFor(|Sub(s.tasks, t.gid)|, s.groups[i].weight), i);
    m := PickedByTurn(s, i, t, n);
  }

  lemma GroupOf(s: State, t: Task) returns (i: nat)
    requires Valid(s) && t in s.tasks
    ensures i < |s.groups| && s.groups[i].gid == t.gid && s.groups[i].weight >= 1
  {
    var j :| 0 <= j < |s.tasks| && s.tasks[j] == t;
    assert HasTask(s.tasks, t.gid);
    assert HasGroup(s.groups, t.gid);
    i :| 0 <= i < |s.groups| && s.groups[i].gid == t.gid;
  }

  // ----- enqueueing and dequeueing -----

  function WithoutPid(tasks: seq<Task>, pid: int): seq<Task> {
    if tasks == [] then []
    else (if tasks[0].pid == pid then [] else [tasks[0]]) + WithoutPid(tasks[1..], pid)
  }

  lemma {:induction false} WithoutMembers(tasks: seq<Task>, pid: int)
    ensures forall t :: t in WithoutPid(tasks, pid) <==> t in tasks && t.pid != pid
  {
    if tasks != [] {
      WithoutMembers(tasks[1..], pid);
      assert forall t :: t in tasks <==> t == tasks[0] || t in tasks[1..];
    }
  }

  lemma Regroup(a: seq<Task>, b: seq<Task>, c: seq<Task>)
    ensures a + (b + c) == (a + b) + c
  {
  }

  lemma {:induction false} WithoutConcat(a: seq<Task>, b: seq<Task>, pid: int)
    ensures WithoutPid(a + b, pid) == WithoutPid(a, pid) + WithoutPid(b, pid)
  {
    if a == [] {
      assert a + b == b;
    } else {
      WithoutConcat(a[1..], b, pid);
      assert (a + b)[0] == a[0] && (a + b)[1..] == a[1..] + b;
      Regroup(if a[0].pid == pid then [] else [a[0]], WithoutPid(a[1..], pid), WithoutPid(b, pid));
    }
  }

  /** Distinctness does not depend on how it is written. */
  lemma {:induction false} DistinctTail(tasks: seq<Task>)
    requires tasks != []
    ensures DistinctPids(tasks) <==> DistinctPids(tasks[1..]) && forall t :: t in tasks[1..] ==> t.pid != tasks[0].pid
  {
    var rest := tasks[1..];
    if DistinctPids(tasks) {
      forall i | 0 <= i < |rest|
        ensures NewPid(rest, i) && rest[i].pid != tasks[0].pid
      {
        assert NewPid(tasks, i + 1);
        assert forall j :: 0 <= j < i ==> rest[j] == tasks[j + 1];
      }
    }
    if DistinctPids(rest) && forall t :: t in rest ==> t.pid != tasks[0].pid {
      forall i | 0 <= i < |tasks|
        ensures NewPid(tasks, i)
      {
        if i > 0 {
          assert NewPid(rest, i - 1) && tasks[i] == rest[i - 1] && rest[i - 1] in rest;
          assert forall j :: 0 < j < i ==> tasks[j] == rest[j - 1];
        }
      }
    }
  }

  lemma {:induction false} WithoutDistinct(tasks: seq<Task>, pid: int)
    requires DistinctPids(tasks)
    ensures DistinctPids(WithoutPid(tasks, pid))
  {
    if tasks != [] {
      DistinctTail(tasks);
      WithoutMembers(tasks[1..], pid);
      WithoutDistinct(tasks[1..], pid);
      var r := WithoutPid(tasks, pid);
      if tasks[0].pid != pid {
        assert r[1..] == WithoutPid(tasks[1..], pid);
        DistinctTail(r);
      } else {
        assert r == WithoutPid(tasks[1..], pid);
      }
    }
  }

  lemma AppendDistinct(tasks: seq<Task>, p: Task)
    requires DistinctPids(tasks) && forall t :: t in tasks ==> t.pid != p.pid
    ensures DistinctPids(tasks + [p])
  {
    forall i | 0 <= i < |tasks + [p]|
      ensures NewPid(tasks + [p], i)
    {
      assert i < |tasks| ==> NewPid(tasks, i);
    }
  }

  lemma HasTaskIn(tasks: seq<Task>, gid: int)
    ensures HasTask(tasks, gid) <==> exists t :: t in tasks && t.gid == gid
  {
    if t :| t in tasks && t.gid == gid {
      var i :| 0 <= i < |tasks| && tasks[i] == t;
    }
    if i :| 0 <= i < |tasks| && tasks[i].gid == gid {
      assert tasks[i] in tasks;
    }
  }

  /** The first group with a gid; the end of the list when there is none. */
  function FirstGroup(groups: seq<Group>, gid: int): (k: nat)
    ensures k <= |groups| && (k < |groups| <==> HasGroup(groups, gid))
    ensures k < |groups| ==> groups[k].gid == gid
    ensures forall i :: 0 <= i < k ==> groups[i].gid != gid
  {
    if groups == [] then 0
    else if groups[0].gid == gid then 0
    else
      var k := FirstGroup(groups[1..], gid);
      assert forall i :: 0 < i < |groups| ==> groups[i] == groups[1..][i - 1];
      assert k < |groups[1..]| ==> groups[k + 1].gid == gid;
      k + 1
  }

  function WithoutGroup(groups: seq<Group>, gid: int): seq<Group> {
    var k := FirstGroup(groups, gid);
    if k < |groups| then groups[..k] + groups[k + 1..] else groups
  }

  function WithGroup(groups: seq<Group>, gid: int): seq<Group> {
    if HasGroup(groups, gid) then groups else groups + [Group(gid, GWRR_DWEIGHT, GWRR_DWEIGHT)]
  }

  lemma WithGroupOk(groups: seq<Group>, gid: int)
    requires DistinctGids(groups) && WeightsOk(groups)
    ensures var r := WithGroup(groups, gid);
            && DistinctGids(r) && WeightsOk(r)
            && forall g :: HasGroup(r, g) <==> HasGroup(groups, g) || g == gid
  {
    var r := WithGroup(groups, gid);
    forall i | 0 <= i < |r|
      ensures NewGid(r, i)
    {
      assert i < |groups| ==> NewGid(groups, i);
    }
    forall g
      ensures HasGroup(r, g) <==> HasGroup(groups, g) || g == gid
    {
      if i :| 0 <= i < |groups| && groups[i].gid == g {
        assert r[i].gid == g;
      }
      assert r != groups ==> r[|groups|].gid == gid;
    }
  }

  lemma WithoutGroupOk(groups: seq<Group>, gid: int)
    requires DistinctGids(groups) && WeightsOk(groups)
    ensures var r := WithoutGroup(groups, gid);
            && DistinctGids(r) && WeightsOk(r)
            && forall g :: HasGroup(r, g) <==> HasGroup(groups, g) && g != gid
  {
    var k, r := FirstGroup(groups, gid), WithoutGroup(groups, gid);
    if k < |groups| {
      forall i | 0 <= i < |r|
        ensures r[i] == groups[if i < k then i else i + 1] && NewGid(r, i) && r[i].gid != gid
      {
        assert NewGid(groups, k) && NewGid(groups, if i < k then i else i + 1);
      }
      forall g
        ensures HasGroup(r, g) <==> HasGroup(groups, g) && g != gid
      {
        if i :| 0 <= i < |groups| && groups[i].gid == g && g != gid {
          assert r[if i < k then i else i - 1].gid == g;
        }
      }
    }
  }

  /** The state after enqueueing `p`: a group joins with its first task. */
  function Enqueued(s: State, p: Task): State {
    State(WithGroup(s.groups, p.gid), s.tasks + [p])
  }

  /** A group joins after two picks of another, at remaining weights 8 and 10: the next 20 picks choose the
      first 9 times and the second 11 times. */
  lemma JoinExample()
    ensures var s := Enqueued(Iterate(Next, Enqueued(State([], []), Task(1, 1)), 2), Task(2, 2));
            && s.groups == [Group(1, 10, 8), Group(2, 10, 10)] && TotalWeight(s.groups) == 20
            && Count(s.groups, 20, 0) == 9 && Count(s.groups, 20, 1) == 11
  {
    var s0 := Enqueued(State([], []), Task(1, 1));
    assert s0 == State([Group(1, 10, 10)], [Task(1, 1)]);
    var s1 := State([Group(1, 10, 9)], [Task(1, 1)]);
    assert Next(s0) == s1;
    var s2 := State([Group(1, 10, 8)], [Task(1, 1)]);
    assert Next(s1) == s2;
    assert Iterate(Next, s0, 1) == Next(Iterate(Next, s0, 0));
    assert Iterate(Next, s0, 2) == Next(Iterate(Next, s0, 1));
    var joined := [Group(1, 10, 8), Group(2, 10, 10)];
    assert s2.groups + [Group(2, 10, 10)] == joined;
    JoinedCounts(joined);
  }

  lemma TwoPicks(round: seq<Group>)
    requires round == [Group(1, 10, 10), Group(2, 10, 10)]
    ensures After(round, 2) == [Group(1, 10, 9), Group(2, 10, 9)]
  {
    var one := [Group(1, 10, 9), Group(2, 10, 10)];
    assert Spend(round) == one && Spend(one) == [Group(1, 10, 9), Group(2, 10, 9)];
    assert After(round, 1) == Spend(After(round, 0));
    assert After(round, 2) == Spend(After(round, 1));
  }

  lemma JoinedCounts(joined: seq<Group>)
    requires joined == [Group(1, 10, 8), Group(2, 10, 10)]
    ensures TotalWeight(joined) == 20 && Count(joined, 20, 0) == 9 && Count(joined, 20, 1) == 11
  {
    var round := [Group(1, 10, 10), Group(2, 10, 10)];
    assert joined[1..] == [Group(2, 10, 10)];
    RoundEnds(joined);
    assert Refilled(joined) == round;
    TwoPicks(round);
    RestCounts(joined, 0);
    RestCounts(joined, 1);
    CountsFrom(joined, 18, round, 20, 0);
    CountsFrom(joined, 18, round, 20, 1);
  }

  lemma EnqueueKeepsValid(s: State, p: Task)
    requires Valid(s) && forall t :: t in s.tasks ==> t.pid != p.pid
    ensures Valid(Enqueued(s, p))
  {
    WithGroupOk(s.groups, p.gid);
    AppendDistinct(s.tasks, p);
    forall gid
      ensures HasTask(s.tasks + [p], gid) <==> HasTask(s.tasks, gid) || gid == p.gid
    {
      HasTaskIn(s.tasks, gid);
      HasTaskIn(s.tasks + [p], gid);
      assert p in s.tasks + [p];
    }
  }

  /** The state after dequeueing `p`: its group goes with its last task. */
  function Dequeued(s: State, p: Task): State {
    var tasks := WithoutPid(s.tasks, p.pid);
    State(if HasTask(tasks, p.gid) then s.groups else WithoutGroup(s.groups, p.gid), tasks)
  }

  lemma DequeueKeepsValid(s: State, p: Task)
    requires Valid(s) && forall t :: t in s.tasks && t.pid == p.pid ==> t.gid == p.gid
    ensures Valid(Dequeued(s, p))
  {
    WithoutGroupOk(s.groups, p.gid);
    WithoutMembers(s.tasks, p.pid);
    WithoutDistinct(s.tasks, p.pid);
    var tasks := WithoutPid(s.tasks, p.pid);
    forall gid
      ensures gid != p.gid ==> (HasTask(tasks, gid) <==> HasTask(s.tasks, gid))
      ensures HasTask(tasks, gid) ==> HasTask(s.tasks, gid)
    {
      HasTaskIn(s.tasks, gid);
      HasTaskIn(tasks, gid);
    }
  }

  lemma {:induction false} WithoutNone(tasks: seq<Task>, pid: int)
    requires forall t :: t in tasks ==> t.pid != pid
    ensures WithoutPid(tasks, pid) == tasks
  {
    if tasks != [] {
      assert tasks[0] in tasks;
      WithoutNone(tasks[1..], pid);
      assert [tasks[0]] + tasks[1..] == tasks;
    }
  }

  /** The others have other pids. */
  lemma OthersDiffer(tasks: seq<Task>, k: nat)
    requires DistinctPids(tasks) && k < |tasks|
    ensures forall i :: 0 <= i < |tasks| && i != k ==> tasks[i].pid != tasks[k].pid
  {
    assert NewPid(tasks, k);
    forall i | k < i < |tasks|
      ensures tasks[i].pid != tasks[k].pid
    {
      assert NewPid(tasks, i);
    }
  }

  lemma WithoutLast(a: seq<Task>, t: Task)
    requires forall u :: u in a ==> u.pid != t.pid
    ensures WithoutPid(a + [t], t.pid) == a
  {
    WithoutConcat(a, [t], t.pid);
    WithoutOne(t, t.pid);
    WithoutNone(a, t.pid);
    assert a + [] == a;
  }

  lemma WithoutMiddle(a: seq<Task>, t: Task, b: seq<Task>)
    requires forall u :: u in a ==> u.pid != t.pid
    requires forall u :: u in b ==> u.pid != t.pid
    ensures WithoutPid((a + [t]) + b, t.pid) == a + b
  {
    WithoutLast(a, t);
    WithoutNone(b, t.pid);
    WithoutConcat(a + [t], b, t.pid);
  }

  /** What leaves the list is one task, and the others stay as they stand. */
  lemma CutsOut(tasks: seq<Task>, k: nat)
    requires DistinctPids(tasks) && k < |tasks|
    ensures WithoutPid(tasks, tasks[k].pid) == tasks[..k] + tasks[k + 1..]
  {
    OthersDiffer(tasks, k);
    assert tasks == tasks[..k] + [tasks[k]] + tasks[k + 1..];
    WithoutMiddle(tasks[..k], tasks[k], tasks[k + 1..]);
  }

  lemma TaskLeaves(tasks: seq<Task>, pid: int)
    requires DistinctPids(tasks)
    ensures (forall t :: t in tasks ==> t.pid != pid) ==> WithoutPid(tasks, pid) == tasks
    ensures forall k :: 0 <= k < |tasks| && tasks[k].pid == pid ==>
              WithoutPid(tasks, pid) == tasks[..k] + tasks[k + 1..]
  {
    if forall t :: t in tasks ==> t.pid != pid {
      WithoutNone(tasks, pid);
    }
    forall k | 0 <= k < |tasks| && tasks[k].pid == pid
      ensures WithoutPid(tasks, pid) == tasks[..k] + tasks[k + 1..]
    {
      CutsOut(tasks, k);
    }
  }

  lemma GroupLeaves(groups: seq<Group>, gid: int)
    requires DistinctGids(groups)
    ensures forall k :: 0 <= k < |groups| && groups[k].gid == gid ==>
              WithoutGroup(groups, gid) == groups[..k] + groups[k + 1..]
  {
    forall k | 0 <= k < |groups| && groups[k].gid == gid
      ensures FirstGroup(groups, gid) == k
    {
      assert NewGid(groups, k);
      FirstGroupIs(groups, gid, k);
    }
  }

  /** A task joins at the end of its sub-queue and changes no other. */
  lemma JoinsLast(s: State, p: Task, other: int)
    ensures Sub(Enqueued(s, p).tasks, p.gid) == Sub(s.tasks, p.gid) + [p]
    ensures other != p.gid ==> Sub(Enqueued(s, p).tasks, other) == Sub(s.tasks, other)
  {
    SubConcat(s.tasks, [p], p.gid);
    SubConcat(s.tasks, [p], other);
    SubOne(p, p.gid);
    SubOne(p, other);
  }

  /** Dequeueing a task right after it was enqueued leaves no trace of it. */
  lemma DequeueUndoesEnqueue(s: State, p: Task)
    requires Valid(s) && forall t :: t in s.tasks ==> t.pid != p.pid
    ensures Dequeued(Enqueued(s, p), p) == s
  {
    WithoutConcat(s.tasks, [p], p.pid);
    WithoutOne(p, p.pid);
    WithoutNone(s.tasks, p.pid);
    var after := Enqueued(s, p);
    assert WithoutPid(after.tasks, p.pid) == s.tasks;
    assert HasGroup(s.groups, p.gid) <==> HasTask(s.tasks, p.gid);
    if !HasGroup(s.groups, p.gid) {
      FirstGroupIs(after.groups, p.gid, |s.groups|);
      assert WithoutGroup(after.groups, p.gid) == s.groups;
    }
  }

  /** The first loop of `dequeue_task_gwrr` has looked at `n` tasks of `was` and stands at `pos`. */
  ghost predicate Sifted(was: seq<Task>, n: nat, pid: int, tasks: seq<Task>, pos: nat) {
    && n <= |was| && pos <= |tasks|
    && tasks[..pos] == WithoutPid(was[..n], pid) && tasks[pos..] == was[n..]
  }

  lemma SiftNext(was: seq<Task>, n: nat, pid: int, tasks: seq<Task>, pos: nat)
    requires Sifted(was, n, pid, tasks, pos) && pos < |tasks|
    ensures n < |was| && tasks[pos] == was[n]
    ensures if tasks[pos].pid == pid then Sifted(was, n + 1, pid, tasks[..pos] + tasks[pos + 1..], pos)
            else Sifted(was, n + 1, pid, tasks, pos + 1)
  {
    assert tasks[pos..][0] == was[n..][0];
    assert tasks[pos + 1..] == tasks[pos..][1..] == was[n..][1..] == was[n + 1..];
    WithoutConcat(was[..n], [was[n]], pid);
    WithoutOne(was[n], pid);
    assert was[..n + 1] == was[..n] + [was[n]];
    if tasks[pos].pid == pid {
      var dropped := tasks[..pos] + tasks[pos + 1..];
      assert dropped[..pos] == tasks[..pos] && dropped[pos..] == tasks[pos + 1..];
    } else {
      assert tasks[..pos + 1] == tasks[..pos] + [tasks[pos]];
    }
  }

  lemma WithoutOne(t: Task, pid: int)
    ensures WithoutPid([t], pid) == if t.pid == pid then [] else [t]
  {
    assert [t][1..] == [];
  }

  class GwrrQueue {
    var groups: seq<Group>
    var tasks: seq<Task>

    ghost function S(): State
      reads this
    {
      State(groups, tasks)
    }

    constructor ()
      ensures groups == [] && tasks == [] && Valid(S())
    {
      groups, tasks := [], [];
    }

    /** `enqueue_task_gwrr` */
    method Enqueue(p: Task)
      requires Valid(S()) && forall t :: t in tasks ==> t.pid != p.pid
      modifies this
      ensures Valid(S()) && S() == Enqueued(old(S()), p)
      ensures tasks == old(tasks) + [p]
      ensures (exists i :: 0 <= i < |old(groups)| && old(groups)[i].gid == p.gid) ==> groups == old(groups)
      ensures (forall i :: 0 <= i < |old(groups)| ==> old(groups)[i].gid != p.gid) ==>
                groups == old(groups) + [Group(p.gid, 10, 10)]
    {
      EnqueueKeepsValid(S(), p);
      var grp: Option<Group> := None;
      var pos := 0;
      while pos < |groups|
        invariant pos <= |groups| && groups == old(groups) && tasks == old(tasks)
        invariant forall i :: 0 <= i < pos ==> groups[i].gid != p.gid
        invariant grp == if pos == 0 then None else Some(groups[pos - 1])
      {
        grp := Some(groups[pos]);
        if groups[pos].gid == p.gid {
          break;
        }
        pos := pos + 1;
      }
      if grp.None? || grp.value.gid != p.gid {
        groups := groups + [Group(p.gid, GWRR_DWEIGHT, GWRR_DWEIGHT)];
      }
      tasks := tasks + [p];
    }

    /** `dequeue_task_gwrr`, with the group pointer of the type it evidently means. */
    method Dequeue(p: Task)
      requires Valid(S()) && forall t :: t in tasks && t.pid == p.pid ==> t.gid == p.gid
      modifies this
      ensures Valid(S()) && S() == Dequeued(old(S()), p)
      ensures (forall t :: t in old(tasks) ==> t.pid != p.pid) ==> tasks == old(tasks)
      ensures forall k :: 0 <= k < |old(tasks)| && old(tasks)[k].pid == p.pid ==>
                tasks == old(tasks)[..k] + old(tasks)[k + 1..]
      ensures (exists i :: 0 <= i < |tasks| && tasks[i].gid == p.gid) ==> groups == old(groups)
      ensures (forall i :: 0 <= i < |tasks| ==> tasks[i].gid != p.gid) ==>
                forall k :: 0 <= k < |old(groups)| && old(groups)[k].gid == p.gid ==>
                  groups == old(groups)[..k] + old(groups)[k + 1..]
    {
      DequeueKeepsValid(S(), p);
      TaskLeaves(tasks, p.pid);
      GroupLeaves(groups, p.gid);
      var grpTskCount := SiftTasks(p);
      if grpTskCount == 0 {
        RemoveGroup(p.gid);
      }
    }

    /** The first loop of `dequeue_task_gwrr`. */
    method SiftTasks(p: Task) returns (grpTskCount: nat)
      modifies this`tasks
      ensures tasks == WithoutPid(old(tasks), p.pid)
      ensures grpTskCount > 0 <==> HasTask(tasks, p.gid)
    {
      ghost var was, n := tasks, 0;
      var pos := 0;
      grpTskCount := 0;
      while pos < |tasks|
        invariant Sifted(was, n, p.pid, tasks, pos)
        invariant grpTskCount > 0 <==> HasTask(tasks[..pos], p.gid)
        decreases |was| - n
      {
        SiftNext(was, n, p.pid, tasks, pos);
        if tasks[pos].pid == p.pid {
          ghost var kept := tasks[..pos];
          tasks := tasks[..pos] + tasks[pos + 1..];
          assert tasks[..pos] == kept;
        } else {
          HasTaskNext(tasks, pos, p.gid);
          if tasks[pos].gid == p.gid {
            grpTskCount := grpTskCount + 1;
          }
          pos := pos + 1;
        }
        n := n + 1;
      }
      assert was[..n] == was && tasks[..pos] == tasks;
    }

    /** The second loop of `dequeue_task_gwrr`. */
    method RemoveGroup(gid: int)
      modifies this`groups
      ensures groups == WithoutGroup(old(groups), gid)
    {
      var pos := 0;
      while pos < |groups|
        invariant pos <= |groups| && groups == old(groups)
        invariant forall i :: 0 <= i < pos ==> groups[i].gid != gid
      {
        if groups[pos].gid == gid {
          FirstGroupIs(groups, gid, pos);
          groups := groups[..pos] + groups[pos + 1..];
          return;
        }
        pos := pos + 1;
      }
    }

    /** One scan of the groups for the first of maximal positive remaining weight. */
    method Scan() returns (maxWeight: int, maxGrp: nat)
      requires groups != []
      ensures maxWeight > 0 <==> groups[Best(groups)].currWeight > 0
      ensures maxWeight > 0 ==> maxGrp == Best(groups)
    {
      maxWeight, maxGrp := 0, 0;
      var pos := 0;
      while pos < |groups|
        invariant pos <= |groups|
        invariant pos == 0 ==> maxWeight == 0
        invariant pos > 0 ==> (maxWeight > 0 <==> groups[BestOf(groups, pos)].currWeight > 0) && maxWeight >= 0
        invariant pos > 0 && maxWeight > 0 ==>
                    maxGrp == BestOf(groups, pos) && maxWeight == groups[BestOf(groups, pos)].currWeight
      {
        if groups[pos].currWeight > maxWeight {
          maxWeight, maxGrp := groups[pos].currWeight, pos;
        }
        pos := pos + 1;
      }
    }

    /** The refill loop. */
    method Refill()
      modifies this`groups
      ensures groups == Refilled(old(groups))
    {
      var pos := 0;
      while pos < |groups|
        invariant pos <= |groups| == |old(groups)|
        invariant forall i :: 0 <= i < pos ==> groups[i] == Refilled(old(groups))[i]
        invariant forall i :: pos <= i < |groups| ==> groups[i] == old(groups)[i]
      {
        groups := groups[pos := groups[pos].(currWeight := groups[pos].weight)];
        pos := pos + 1;
      }
    }

    /** The scan, the refill and the retry of `pick_next_task_gwrr`: take one unit of weight from the
        chosen group. */
    method TakeUnit() returns (gid: int, retries: nat)
      requires groups != [] && WeightsOk(groups)
      modifies this`groups
      ensures groups == Spend(old(groups)) && gid == old(groups)[Choose(old(groups))].gid
      ensures retries <= 1 && (retries == 1 <==> Empty(old(groups)))
    {
      retries := 0;
      RefillHelps(groups);
      var maxWeight, maxGrp := Scan();
      while maxWeight <= 0
        invariant groups != [] && retries <= 1
        invariant maxWeight > 0 <==> groups[Best(groups)].currWeight > 0
        invariant maxWeight > 0 ==> maxGrp == Best(groups)
        invariant groups == if retries == 0 then old(groups) else Refilled(old(groups))
        invariant retries == 1 ==> maxWeight > 0 && Empty(old(groups))
        decreases 1 - retries
      {
        Refill();
        retries := retries + 1;
        maxWeight, maxGrp := Scan();
      }
      gid := groups[maxGrp].gid;
      groups := groups[maxGrp := groups[maxGrp].(currWeight := groups[maxGrp].currWeight - 1)];
    }

    /** `pick_next_task_gwrr`; `retries` counts the jumps back to the scan. */
    method PickNext() returns (r: Option<Task>, retries: nat)
      requires Valid(S())
      modifies this
      ensures Valid(S()) && S() == Next(old(S())) && r == Picked(old(S()))
      ensures r.None? <==> old(tasks) == []
      ensures retries <= 1 && (retries == 1 <==> old(groups) != [] && Empty(old(groups)))
    {
      EmptyTogether(S());
      NextKeepsValid(S());
      if groups == [] || tasks == [] {
        return None, 0;
      }
      GroupHasTask(S(), Choose(groups));
      var gid;
      gid, retries := TakeUnit();
      var k := FindTask(gid);
      r := Some(tasks[k]);
      tasks := tasks[..k] + tasks[k + 1..] + [tasks[k]];
    }

    /** The last loop of `pick_next_task_gwrr`. */
    method FindTask(gid: int) returns (k: nat)
      requires FirstOf(tasks, gid) < |tasks|
      ensures k == FirstOf(tasks, gid)
    {
      k := 0;
      while k < |tasks|
        invariant k <= FirstOf(tasks, gid)
      {
        if tasks[k].gid == gid {
          break;
        }
        k := k + 1;
      }
    }
  }

  lemma FirstGroupIs(groups: seq<Group>, gid: int, k: nat)
    requires k < |groups| && groups[k].gid == gid && forall i :: 0 <= i < k ==> groups[i].gid != gid
    ensures FirstGroup(groups, gid) == k
  {
    assert HasGroup(groups, gid);
  }

  lemma HasTaskNext(tasks: seq<Task>, pos: nat, gid: int)
    requires pos < |tasks|
    ensures HasTask(tasks[..pos + 1], gid) <==> HasTask(tasks[..pos], gid) || tasks[pos].gid == gid
  {
    HasTaskIn(tasks[..pos], gid);
    HasTaskIn(tasks[..pos + 1], gid);
    assert tasks[..pos + 1] == tasks[..pos] + [tasks[pos]];
    assert tasks[pos] in tasks[..pos + 1];
  }

  /** No groups exactly when no tasks. */
  lemma EmptyTogether(s: State)
    requires Valid(s)
    ensures s.groups == [] <==> s.tasks == []
  {
    if s.groups != [] {
      GroupHasTask(s, 0);
    }
    if s.tasks != [] {
      assert HasTask(s.tasks, s.tasks[0].gid);
      assert HasGroup(s.groups, s.tasks[0].gid);
    }
  }

  /** Only an empty round is refilled, and after the refill some group has weight left. */
  lemma RefillHelps(groups: seq<Group>)
    requires groups != [] && WeightsOk(groups)
    ensures groups[Best(groups)].currWeight <= 0 <==> Empty(groups)
    ensures Refilled(groups)[Best(Refilled(groups))].currWeight > 0
  {
    BestIsFirstMax(groups, |groups|);
    BestIsFirstMax(Refilled(groups), |groups|);
    assert Refilled(groups)[0].currWeight == groups[0].weight;
  }
}
