/** The rounds of `shrink_inactive_list` (hw5/vmscan.c:785-917), as functions on the lists.
 */
module VmRounds {
  import opened VmIsolation
  import opened VmLists
  import opened VmStray

  // ----- rounds of reclaim -----

  function Survives(fate: Page -> Fate): Page -> bool {
    (p: Page) => fate(p) != Freed
  }

  /** What `shrink_page_list` leaves of a list. */
  function Survivors(list: seq<Page>, fate: Page -> Fate): seq<Page> {
    Filter(list, Survives(fate))
  }

  lemma SurvivorsAre(list: seq<Page>, fate: Page -> Fate)
    ensures Elements(Survivors(list, fate)) == set p | p in list && fate(p) != Freed
    ensures Once(list) ==> Once(Survivors(list, fate))
    ensures |Survivors(list, fate)| <= |list|
    ensures ActivatedOf(Survivors(list, fate), fate) <= Elements(list)
  {
    FilterMembers(list, Survives(fate));
    FilterFewer(list, Survives(fate));
    forall p | p in ActivatedOf(Survivors(list, fate), fate)
      ensures p in list
    {
      assert p in Elements(Survivors(list, fate));
    }
  }

  /** The pages of a list that `shrink_page_list` marked active. */
  function ActivatedOf(list: seq<Page>, fate: Page -> Fate): set<Page> {
    set p | p in list && fate(p) == Activated
  }

  function ModeFor(order: nat): Mode {
    if order > PAGE_ALLOC_COSTLY_ORDER then IsolateBoth else IsolateInactive
  }

  /** Inactive pages are wanted at every order, and active ones too above order 3. */
  lemma WantedAt(geometry: Geometry, order: nat, busy: set<Page>, v: Lists, p: Page)
    ensures var q := Request(geometry, false, order, ModeFor(order), busy);
            && (Verdict(q, v, p) == Taken <==> p in v.lru && p !in busy && (p in v.active ==> order > 3))
            && (Verdict(q, v, p) == Busy <==> p in v.lru && p in busy && (p in v.active ==> order > 3))
  {
  }

  /** The second pass happens if it is wanted and the first did not free every page. */
  function LastFate(list: seq<Page>, fate: Page -> Fate, again: bool, fateSync: Page -> Fate): Page -> Fate {
    if again && Survivors(list, fate) != [] then fateSync else fate
  }

  function Remaining(list: seq<Page>, fate: Page -> Fate, again: bool, fateSync: Page -> Fate): seq<Page> {
    var rest := Survivors(list, fate);
    if again && rest != [] then Survivors(rest, fateSync) else rest
  }

  /** Put back is what no pass freed; the second pass is for direct reclaim at a costly order only. */
  lemma KeptExactly(plan: Plan, round: nat, list: seq<Page>, p: Page)
    ensures p in KeptIn(plan, round, list) <==>
              && p in list && plan.fate(round)(p) != Freed
              && (plan.direct && plan.order > 3 ==> plan.fateSync(round)(p) != Freed)
  {
    var rest := Survivors(list, plan.fate(round));
    SurvivorsAre(list, plan.fate(round));
    SurvivorsAre(rest, plan.fateSync(round));
    assert p in rest <==> p in Elements(rest);
    assert p in Survivors(rest, plan.fateSync(round)) <==> p in Elements(Survivors(rest, plan.fateSync(round)));
  }

  /** It goes back to the active list exactly if the last pass over it said so. */
  lemma ActivatedExactly(plan: Plan, round: nat, list: seq<Page>, p: Page)
    requires p in KeptIn(plan, round, list)
    ensures var last := LastFate(list, plan.fate(round), plan.Again(), plan.fateSync(round));
            p in ActivatedOf(KeptIn(plan, round, list), last) <==>
              if plan.direct && plan.order > 3 then plan.fateSync(round)(p) == Activated
              else plan.fate(round)(p) == Activated
  {
    var first := Survivors(list, plan.fate(round));
    KeptExactly(plan, round, list, p);
    SurvivorsAre(list, plan.fate(round));
    assert p in Elements(first) && p in first && first != [];
    var last := if plan.direct && plan.order > 3 then plan.fateSync(round) else plan.fate(round);
    assert LastFate(list, plan.fate(round), plan.Again(), plan.fateSync(round)) == last;
  }

  /** Marking isolated pages active and clearing their flags again changes nothing. */
  lemma ClearedAgain(active': set<Page>, list: seq<Page>, fate: Page -> Fate, active: set<Page>)
    requires active * Elements(list) == {}
    ensures var rest := Survivors(list, fate);
            active' == active + ActivatedOf(rest, fate) ==> active' - Elements(rest) == active
  {
    SurvivorsAre(list, fate);
    forall p | p in active
      ensures p !in Elements(Survivors(list, fate))
    {
      assert p in list ==> p in active * Elements(list);
    }
  }

  /** `clear_active_flags` on what was isolated. */
  ghost function FlagsCleared(s: Scan): Scan {
    s.(v := s.v.(active := s.v.active - Elements(s.dst)))
  }

  function OnSide(active: set<Page>, side: bool): Page -> bool {
    (p: Page) => (p in active) == side
  }

  /** The pages of a list with PageActive as given, in order. */
  function Side(list: seq<Page>, active: set<Page>, side: bool): seq<Page> {
    Filter(list, OnSide(active, side))
  }

  /** `list_add` of an isolated page to the list of its flag. */
  ghost function Added(v: Lists, p: Page): Lists {
    if p in v.active then v.(activeList := [p] + v.activeList, lru := v.lru + {p})
    else v.(inactiveList := [p] + v.inactiveList, lru := v.lru + {p})
  }

  /** Putting pages back: each in front of the list of its flag, in their order. */
  ghost function PutAll(v: Lists, list: seq<Page>): Lists {
    Lists(Side(list, v.active, true) + v.activeList, Side(list, v.active, false) + v.inactiveList,
          v.lru + Elements(list), v.active)
  }

  lemma SideOfLast(front: seq<Page>, p: Page, active: set<Page>, side: bool)
    ensures Side(front + [p], active, side) == Side(front, active, side) + if (p in active) == side then [p] else []
  {
    FilterLast(front, p, OnSide(active, side));
  }

  /** Putting the last page back first leaves the others to do. */
  lemma PutLast(v: Lists, list: seq<Page>)
    requires list != []
    ensures var p := list[|list| - 1];
            PutAll(Added(v, p), list[..|list| - 1]) == PutAll(v, list)
  {
    var front, p := list[..|list| - 1], list[|list| - 1];
    assert list == front + [p];
    var a, i := Side(front, v.active, true), Side(front, v.active, false);
    SideOfLast(front, p, v.active, true);
    SideOfLast(front, p, v.active, false);
    LruWith(v.lru, front, p);
    if p in v.active {
      assert a + ([p] + v.activeList) == (a + [p]) + v.activeList;
    } else {
      assert i + ([p] + v.inactiveList) == (i + [p]) + v.inactiveList;
    }
  }

  lemma LruWith(lru: set<Page>, front: seq<Page>, p: Page)
    ensures lru + {p} + Elements(front) == lru + Elements(front + [p])
  {
  }

  /** The scan control of `shrink_inactive_list`, and what the system does in each round: the pages freed
      elsewhere, the fates in the first and in the second pass. */
  datatype Plan = Plan(order: nat, swapClusterMax: nat, direct: bool, busy: nat -> set<Page>,
                       fate: nat -> Page -> Fate, fateSync: nat -> Page -> Fate)
  {
    /** Only direct reclaim at a costly order comes back for pages it could not free at once. */
    predicate Again() { direct && order > PAGE_ALLOC_COSTLY_ORDER }
  }

  /** What is left to put back of the pages isolated in a round. */
  function KeptIn(plan: Plan, round: nat, list: seq<Page>): seq<Page> {
    Remaining(list, plan.fate(round), plan.Again(), plan.fateSync(round))
  }

  lemma KeptFewer(plan: Plan, round: nat, list: seq<Page>)
    ensures |KeptIn(plan, round, list)| <= |list|
  {
    SurvivorsAre(list, plan.fate(round));
    SurvivorsAre(Survivors(list, plan.fate(round)), plan.fateSync(round));
  }

  /** What a round makes of the zone once the pages are isolated, with nobody in between. */
  ghost function ReclaimedFrom(s: Scan, plan: Plan, round: nat): Lists {
    var rest, last := KeptIn(plan, round, s.dst), LastFate(s.dst, plan.fate(round), plan.Again(), plan.fateSync(round));
    PutAll(s.v.(active := s.v.active + ActivatedOf(rest, last)), rest)
  }

  /** What a round makes of the zone, whether it ends in BUG(), how many pages it scans, isolates and frees,
      and which it puts back. */
  datatype Reclaim<Z> = Reclaim(v: Z, bug: bool, scanned: nat, isolated: nat, freed: nat, back: seq<Page>)

  ghost function IsolatedIn(geometry: Geometry, plan: Plan, v: Lists, round: nat): Scan {
    Isolated(Request(geometry, false, plan.order, ModeFor(plan.order), plan.busy(round)), Scan(v, [], 0),
             plan.swapClusterMax)
  }

  ghost function RoundOf(geometry: Geometry, plan: Plan, v: Lists, round: nat): (r: Reclaim<Lists>)
    ensures r.isolated <= r.scanned && r.freed + |r.back| == r.isolated
  {
    var q := Request(geometry, false, plan.order, ModeFor(plan.order), plan.busy(round));
    var s := IsolatedIn(geometry, plan, v, round);
    if Bugs(q, s, plan.swapClusterMax) then Reclaim(s.v, true, s.scanned, 0, 0, [])
    else
      KeptFewer(plan, round, s.dst);
      Reclaim(ReclaimedFrom(FlagsCleared(s), plan, round), false, s.scanned, |s.dst|,
              |s.dst| - |KeptIn(plan, round, s.dst)|, KeptIn(plan, round, s.dst))
  }

  ghost function RoundPlayed(step: (Lists, nat) -> Reclaim<Lists>, v: Lists, round: nat): Reclaim<Lists> {
    step(v, round)
  }

  /** The step is a round of reclaim by this plan. */
  ghost predicate Plays(step: (Lists, nat) -> Reclaim<Lists>, geometry: Geometry, plan: Plan) {
    forall v: Lists, k: nat {:trigger RoundPlayed(step, v, k)} ::
      RoundPlayed(step, v, k) == RoundOf(geometry, plan, v, k)
  }

  /** Every plan has its steps. */
  lemma RoundsOf(geometry: Geometry, plan: Plan) returns (step: (Lists, nat) -> Reclaim<Lists>)
    ensures Plays(step, geometry, plan)
  {
    step := (v: Lists, round: nat) => RoundOf(geometry, plan, v, round);
  }

  datatype Tally = Tally(scanned: nat, isolated: nat, freed: nat, back: seq<Page>)
  {
    function Plus<Z>(r: Reclaim<Z>): Tally {
      Tally(scanned + r.scanned, isolated + r.isolated, freed + r.freed, r.back + back)
    }
  }

  /** What rounds that began with these states of the zone scanned, isolated and freed, added up, and the
      pages they put back, those of the last round first. */
  ghost function TotalOf<Z>(step: (Z, nat) -> Reclaim<Z>, starts: seq<Z>): Tally {
    if starts == [] then Tally(0, 0, 0, [])
    else
      var n := |starts| - 1;
      TotalOf(step, starts[..n]).Plus(step(starts[n], n))
  }

  /** After round `i` another is due: it isolated pages, and not enough is scanned. */
  ghost predicate GoesOn<Z>(step: (Z, nat) -> Reclaim<Z>, starts: seq<Z>, maxScan: nat, i: nat)
    requires i < |starts|
  {
    var r := step(starts[i], i);
    !r.bug && r.isolated > 0 && TotalOf(step, starts[..i + 1]).scanned < maxScan
  }

  /** The first `k` rounds call for another. */
  ghost predicate AllGoOn<Z>(step: (Z, nat) -> Reclaim<Z>, starts: seq<Z>, maxScan: nat, k: nat)
    requires k <= |starts|
  {
    forall i {:trigger GoesOn(step, starts, maxScan, i)} :: 0 <= i < k ==> GoesOn(step, starts, maxScan, i)
  }

  /** Each round began as the one before left the zone, and the last left `v`. */
  ghost predicate Chained<Z>(step: (Z, nat) -> Reclaim<Z>, starts: seq<Z>, v: Z) {
    forall i {:trigger starts[i]} :: 0 <= i < |starts| ==>
      step(starts[i], i).v == if i + 1 < |starts| then starts[i + 1] else v
  }

  /** The rounds that began with `starts`, the first with `v0`, all called for another and came to `t`.
      Undisturbed, each began as the one before left the zone, and the last left `v`. */
  ghost predicate Underway<Z>(step: (Z, nat) -> Reclaim<Z>, starts: seq<Z>, maxScan: nat, v0: Z, v: Z, quiet: bool,
                              t: Tally) {
    && (if starts == [] then v == v0 else starts[0] == v0) && TotalOf(step, starts) == t
    && AllGoOn(step, starts, maxScan, |starts|) && (quiet ==> Chained(step, starts, v))
  }

  /** The same once the last round did not call for another, or met BUG(). */
  ghost predicate Finished<Z>(step: (Z, nat) -> Reclaim<Z>, starts: seq<Z>, maxScan: nat, v0: Z, v: Z, quiet: bool,
                              t: Tally, bug: bool) {
    && starts != [] && starts[0] == v0 && TotalOf(step, starts) == t
    && AllGoOn(step, starts, maxScan, |starts| - 1) && !GoesOn(step, starts, maxScan, |starts| - 1)
    && bug == step(starts[|starts| - 1], |starts| - 1).bug && (quiet ==> Chained(step, starts, v))
  }

  /** Rounds end when enough is scanned, when one isolates nothing or at BUG(), and not before. */
  lemma FinishedMeans<Z>(step: (Z, nat) -> Reclaim<Z>, starts: seq<Z>, maxScan: nat, v0: Z, v: Z, quiet: bool, t: Tally,
                         bug: bool)
    requires Finished(step, starts, maxScan, v0, v, quiet, t, bug)
    ensures starts != []
    ensures var n := |starts| - 1;
            && (t.scanned >= maxScan || step(starts[n], n).isolated == 0 || bug)
            && forall i :: 0 <= i < n ==>
                 !step(starts[i], i).bug && step(starts[i], i).isolated > 0
                 && TotalOf(step, starts[..i + 1]).scanned < maxScan
  {
    var n := |starts| - 1;
    assert starts[..n + 1] == starts;
    forall i: nat | i < n
      ensures !step(starts[i], i).bug && step(starts[i], i).isolated > 0
              && TotalOf(step, starts[..i + 1]).scanned < maxScan
    {
      assert GoesOn(step, starts, maxScan, i);
    }
  }

  /** The zone was consistent whenever a round began, and no active page was on the inactive list if `agree`. */
  ghost predicate AllWell(starts: seq<Lists>, agree: bool) {
    forall i {:trigger starts[i]} :: 0 <= i < |starts| ==> Wellformed(starts[i]) && (agree ==> Agrees(starts[i]))
  }

  lemma TotalMore<Z>(step: (Z, nat) -> Reclaim<Z>, starts: seq<Z>, v: Z)
    ensures TotalOf(step, starts + [v]) == TotalOf(step, starts).Plus(step(v, |starts|))
  {
    assert (starts + [v])[..|starts|] == starts;
  }

  lemma ChainedMore<Z>(step: (Z, nat) -> Reclaim<Z>, starts: seq<Z>, v: Z)
    requires Chained(step, starts, v)
    ensures Chained(step, starts + [v], step(v, |starts|).v)
  {
    var more := starts + [v];
    forall i | 0 <= i < |starts|
      ensures step(more[i], i).v == more[i + 1]
    {
      assert more[i] == starts[i];
    }
  }

  lemma GoesOnSame<Z>(step: (Z, nat) -> Reclaim<Z>, starts: seq<Z>, v: Z, maxScan: nat, i: nat)
    requires i < |starts|
    ensures GoesOn(step, starts + [v], maxScan, i) == GoesOn(step, starts, maxScan, i)
  {
    assert (starts + [v])[..i + 1] == starts[..i + 1];
  }

  lemma AllGoOnMore<Z>(step: (Z, nat) -> Reclaim<Z>, starts: seq<Z>, v: Z, maxScan: nat)
    requires AllGoOn(step, starts, maxScan, |starts|)
    ensures AllGoOn(step, starts + [v], maxScan, |starts|)
  {
    forall i: nat | i < |starts|
      ensures GoesOn(step, starts + [v], maxScan, i)
    {
      GoesOnSame(step, starts, v, maxScan, i);
      assert GoesOn(step, starts, maxScan, i);
    }
  }

  lemma LastGoesOn<Z>(step: (Z, nat) -> Reclaim<Z>, starts: seq<Z>, v: Z, maxScan: nat)
    ensures var r := step(v, |starts|);
            GoesOn(step, starts + [v], maxScan, |starts|) <==>
              !r.bug && r.isolated > 0 && TotalOf(step, starts).scanned + r.scanned < maxScan
  {
    TotalMore(step, starts, v);
    assert (starts + [v])[..|starts| + 1] == starts + [v];
  }

  /** One round more, that began with `v` and left the zone as `v'`. */
  lemma RoundAdded<Z>(step: (Z, nat) -> Reclaim<Z>, starts: seq<Z>, maxScan: nat, v0: Z, v: Z, quiet: bool, t: Tally,
                      v': Z)
    requires Underway(step, starts, maxScan, v0, v, quiet, t) && (quiet ==> v' == step(v, |starts|).v)
    ensures var r := step(v, |starts|);
            if r.bug || r.isolated == 0 || t.scanned + r.scanned >= maxScan
            then Finished(step, starts + [v], maxScan, v0, v', quiet, t.Plus(r), r.bug)
            else Underway(step, starts + [v], maxScan, v0, v', quiet, t.Plus(r))
  {
    TotalMore(step, starts, v);
    AllGoOnMore(step, starts, v, maxScan);
    LastGoesOn(step, starts, v, maxScan);
    if quiet {
      ChainedMore(step, starts, v);
    }
  }
}
