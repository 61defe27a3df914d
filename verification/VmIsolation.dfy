/** Isolation of pages from the LRU lists (hw5/vmscan.c:632-779), as functions on the lists: the tag page at
    the end of a list, and the aligned block of pages around it.
 */
module VmIsolation {
  import opened VmLists

  // ----- walking over consecutive page frames -----

  function Walk<T>(step: (T, Page) -> T, x: T, first: Page, n: nat): T {
    if n == 0 then x else step(Walk(step, x, first, n - 1), first + n - 1)
  }

  lemma WalkNext<T>(step: (T, Page) -> T, x: T, first: Page, n: nat)
    ensures Walk(step, x, first, n + 1) == step(Walk(step, x, first, n), first + n)
  {
  }

  lemma {:induction false} WalkKeeps<T(!new)>(step: (T, Page) -> T, inv: T -> bool, x: T, first: Page, n: nat)
    requires inv(x) && forall y: T, p: Page :: inv(y) && first <= p < first + n ==> inv(step(y, p))
    ensures inv(Walk(step, x, first, n))
  {
    if n > 0 {
      WalkKeeps(step, inv, x, first, n - 1);
    }
  }

  /** Steps that do nothing may be left out. */
  lemma {:induction false} WalkStops<T>(step: (T, Page) -> T, x: T, first: Page, k: nat, n: nat)
    requires k <= n && forall y: T, p: Page :: first + k <= p < first + n ==> step(y, p) == y
    ensures Walk(step, x, first, n) == Walk(step, x, first, k)
    decreases n
  {
    if k < n {
      WalkStops(step, x, first, k, n - 1);
    }
  }

  /** When only the step at `p` can change what `has` says, and only if `ok` holds, the walk changes it
      exactly if it passes `p` and `ok` held before. */
  lemma {:induction false} WalkTakes<T(!new)>(step: (T, Page) -> T, has: T -> bool, ok: T -> bool, x: T, first: Page,
                                              n: nat, p: Page)
    requires forall y: T, k: Page :: has(step(y, k)) == (has(y) && !(k == p && ok(y)))
    requires forall y: T, k: Page :: k != p ==> ok(step(y, k)) == ok(y)
    ensures has(Walk(step, x, first, n)) == (has(x) && !(first <= p < first + n && ok(x)))
    ensures !(first <= p < first + n) ==> ok(Walk(step, x, first, n)) == ok(x)
  {
    if n > 0 {
      WalkTakes(step, has, ok, x, first, n - 1, p);
    }
  }

  /** When each step keeps `ok` unless it is at a bad page, the walk keeps it unless it passes one. */
  lemma {:induction false} WalkSpoils<T(!new)>(step: (T, Page) -> T, inv: T -> bool, ok: T -> bool,
                                               bad: Page -> bool, x: T, first: Page, n: nat)
    requires inv(x)
    requires forall y: T, p: Page :: inv(y) && first <= p < first + n ==>
               inv(step(y, p)) && ok(step(y, p)) == (ok(y) && !bad(p))
    ensures inv(Walk(step, x, first, n))
    ensures ok(Walk(step, x, first, n)) <==> ok(x) && forall p :: first <= p < first + n ==> !bad(p)
  {
    if n > 0 {
      WalkSpoils(step, inv, ok, bad, x, first, n - 1);
      assert inv(Walk(step, x, first, n - 1));
    }
  }

  // ----- the isolation steps on values -----

  datatype Lists = Lists(activeList: seq<Page>, inactiveList: seq<Page>, lru: set<Page>, active: set<Page>)

  /** `pfn_valid_within` and `page_zone_id` */
  datatype Geometry = Geometry(validWithin: Page -> bool, zoneId: Page -> nat)

  /** The arguments of `isolate_lru_pages`, and which pages are being freed elsewhere meanwhile. */
  datatype Request = Request(geometry: Geometry, fromActive: bool, order: nat, mode: Mode, busy: set<Page>)

  /** How far an isolation has come: the zone, the pages taken, `scan`. */
  datatype Scan = Scan(v: Lists, dst: seq<Page>, scanned: nat)

  /** Every page of the LRU is on one of the lists, and the active list holds active pages only. */
  ghost predicate Wellformed(v: Lists) {
    AllPlaced(v.activeList, v.inactiveList, v.lru) && forall p :: p in v.activeList ==> p in v.active
  }

  /** What the isolation loops keep: pages only move from the lists to `dst`, once each, and the active
      list holds active pages only. */
  ghost predicate Isolating(v: Lists, lru0: set<Page>, dst: seq<Page>, fromActive: bool, mode: Mode,
                            busy: set<Page>) {
    && AllPlaced(v.activeList, v.inactiveList, v.lru) && AllMoved(lru0, v.lru, dst)
    && (forall p :: p in v.activeList ==> p in v.active)
    && (mode == IsolateActive <==> fromActive)
    && (forall p :: p in dst ==> p !in busy && IsolationOf(true, p in v.active, false, mode) == Taken)
  }

  ghost predicate Sound(q: Request, s: Scan, lru0: set<Page>) {
    Isolating(s.v, lru0, s.dst, q.fromActive, q.mode, q.busy)
  }

  function SourceOf(v: Lists, fromActive: bool): seq<Page> {
    if fromActive then v.activeList else v.inactiveList
  }

  function TagOf(v: Lists, fromActive: bool): Page
    requires SourceOf(v, fromActive) != []
  {
    if fromActive then v.activeList[|v.activeList| - 1] else v.inactiveList[|v.inactiveList| - 1]
  }

  function TagTaken(v: Lists, fromActive: bool): Lists
    requires SourceOf(v, fromActive) != []
  {
    var lru := v.lru - {TagOf(v, fromActive)};
    if fromActive then v.(activeList := v.activeList[..|v.activeList| - 1], lru := lru)
    else v.(inactiveList := v.inactiveList[..|v.inactiveList| - 1], lru := lru)
  }

  function TagRotated(v: Lists, fromActive: bool): Lists
    requires SourceOf(v, fromActive) != []
  {
    var p := TagOf(v, fromActive);
    if fromActive then v.(activeList := [p] + v.activeList[..|v.activeList| - 1])
    else v.(inactiveList := [p] + v.inactiveList[..|v.inactiveList| - 1])
  }

  /** What `__isolate_lru_page` says to a page. */
  function Verdict(q: Request, v: Lists, p: Page): Isolation {
    IsolationOf(p in v.lru, p in v.active, p in q.busy, q.mode)
  }

  /** The tag page is one that `__isolate_lru_page` refuses: BUG(). */
  predicate Stuck(q: Request, v: Lists) {
    SourceOf(v, q.fromActive) != [] && Verdict(q, v, TagOf(v, q.fromActive)) == Invalid
  }

  /** A page that may leave the lists: `a` and `i` are the lists without it. */
  function Unlink(q: Request, s: Scan, p: Page, a: seq<Page>, i: seq<Page>): (r: Scan)
    ensures s.scanned <= r.scanned && r.scanned - s.scanned == |r.dst| - |s.dst|
  {
    match Verdict(q, s.v, p)
    case Invalid => s
    case Taken => Scan(Lists(a, i, s.v.lru - {p}, s.v.active), [p] + s.dst, s.scanned + 1)
    case Busy => s.(v := if q.fromActive then s.v.(activeList := [p] + a, inactiveList := i)
                         else s.v.(activeList := a, inactiveList := [p] + i))
  }

  function CursorScan(q: Request, s: Scan, p: Page): (r: Scan)
    ensures s.scanned <= r.scanned && r.scanned - s.scanned == |r.dst| - |s.dst|
  {
    Unlink(q, s, p, Without(s.v.activeList, p), Without(s.v.inactiveList, p))
  }

  /** The page belongs to the zone of the tag page, and no hole lies before it in the block. */
  ghost predicate InBlock(q: Request, page: Page, p: Page) {
    && p != page && q.geometry.zoneId(p) == q.geometry.zoneId(page)
    && forall x :: BlockStart(page, q.order) <= x <= p && x != page ==> q.geometry.validWithin(x)
  }

  ghost function BlockStep(q: Request, s: Scan, page: Page, p: Page): (r: Scan)
    ensures s.scanned <= r.scanned && r.scanned - s.scanned == |r.dst| - |s.dst|
  {
    if InBlock(q, page, p) then CursorScan(q, s, p) else s
  }

  ghost function StepPlayed(step: (Scan, Page) -> Scan, s: Scan, p: Page): Scan {
    step(s, p)
  }

  /** The step is what the block scan does at one page frame. */
  ghost predicate Steps(step: (Scan, Page) -> Scan, q: Request, page: Page) {
    forall s: Scan, p: Page {:trigger StepPlayed(step, s, p)} :: StepPlayed(step, s, p) == BlockStep(q, s, page, p)
  }

  ghost function StepOf(q: Request, page: Page): (step: (Scan, Page) -> Scan)
    ensures Steps(step, q, page)
  {
    (s: Scan, p: Page) => BlockStep(q, s, page, p)
  }

  lemma TagSkipped(step: (Scan, Page) -> Scan, q: Request, page: Page, s: Scan)
    requires Steps(step, q, page)
    ensures step(s, page) == s
  {
    assert StepPlayed(step, s, page) == s;
  }

  /** The first `n` page frames of the block are done. */
  ghost function BlockScan(q: Request, s: Scan, page: Page, n: nat): Scan {
    Walk(StepOf(q, page), s, BlockStart(page, q.order), n)
  }

  lemma BlockCounts(q: Request, s: Scan, page: Page, n: nat)
    ensures var r := BlockScan(q, s, page, n); s.scanned <= r.scanned && r.scanned - s.scanned == |r.dst| - |s.dst|
  {
    var step := StepOf(q, page);
    assert forall t: Scan, p: Page :: step(t, p) == BlockStep(q, t, page, p);
    WalkKeeps(step, (t: Scan) => s.scanned <= t.scanned && t.scanned - s.scanned == |t.dst| - |s.dst|,
              s, BlockStart(page, q.order), n);
  }

  ghost function TagScan(q: Request, s: Scan): Scan
    requires SourceOf(s.v, q.fromActive) != []
  {
    var p := TagOf(s.v, q.fromActive);
    if p in q.busy then Scan(TagRotated(s.v, q.fromActive), s.dst, s.scanned + 1)
    else Scan(TagTaken(s.v, q.fromActive), [p] + s.dst, s.scanned + 1)
  }

  ghost function RoundScan(q: Request, s: Scan): (r: Scan)
    requires SourceOf(s.v, q.fromActive) != []
    ensures s.scanned < r.scanned && |r.dst| - |s.dst| <= r.scanned - s.scanned
  {
    var t, p := TagScan(q, s), TagOf(s.v, q.fromActive);
    if p in q.busy || q.order == 0 then t
    else
      BlockCounts(q, t, p, Power2(q.order));
      BlockScan(q, t, p, Power2(q.order))
  }

  /** The loop of `isolate_lru_pages` is over: enough is scanned, or the list is empty, or BUG(). */
  predicate Ends(q: Request, s: Scan, nrToScan: nat) {
    s.scanned >= nrToScan || SourceOf(s.v, q.fromActive) == [] || Stuck(q, s.v)
  }

  /** What `isolate_lru_pages` makes of the zone. */
  ghost function Isolated(q: Request, s: Scan, nrToScan: nat): (r: Scan)
    ensures |r.dst| - |s.dst| <= r.scanned - s.scanned
    ensures Ends(q, r, nrToScan)
    decreases nrToScan - s.scanned
  {
    if Ends(q, s, nrToScan) then s else Isolated(q, RoundScan(q, s), nrToScan)
  }

  /** ... and whether it came to the BUG(). */
  predicate Bugs(q: Request, r: Scan, nrToScan: nat) {
    r.scanned < nrToScan && Stuck(q, r.v)
  }

  /** Unlinking a PageLRU page from wherever it is. */
  lemma Unlinked(a: seq<Page>, i: seq<Page>, lru: set<Page>, p: Page)
    requires AllPlaced(a, i, lru) && p in lru
    ensures AllPlaced(Without(a, p), Without(i, p), lru - {p})
    ensures forall x :: x in Without(a, p) ==> x in a && x != p
  {
    assert Placed(a, i, lru, p);
    WithoutCounts(a, p);
    WithoutCounts(i, p);
    forall x
      ensures Placed(Without(a, p), Without(i, p), lru - {p}, x)
    {
      assert Placed(a, i, lru, x);
    }
    WithoutMembers(a, p);
  }

  lemma TakenStep(v: Lists, lru0: set<Page>, dst: seq<Page>, fromActive: bool, mode: Mode, busy: set<Page>, p: Page)
    requires Isolating(v, lru0, dst, fromActive, mode, busy)
    requires IsolationOf(p in v.lru, p in v.active, p in busy, mode) == Taken
    ensures Isolating(v.(activeList := Without(v.activeList, p), inactiveList := Without(v.inactiveList, p),
                         lru := v.lru - {p}),
                      lru0, [p] + dst, fromActive, mode, busy)
  {
    Unlinked(v.activeList, v.inactiveList, v.lru, p);
    forall x
      ensures Moved(lru0, v.lru - {p}, [p] + dst, x)
    {
      assert Moved(lru0, v.lru, dst, x);
    }
  }

  /** A busy page of the active list goes back to its head. */
  lemma BusyActive(v: Lists, lru0: set<Page>, dst: seq<Page>, mode: Mode, busy: set<Page>, p: Page)
    requires Isolating(v, lru0, dst, true, mode, busy)
    requires IsolationOf(p in v.lru, p in v.active, p in busy, mode) == Busy
    ensures Isolating(v.(activeList := [p] + Without(v.activeList, p), inactiveList := Without(v.inactiveList, p)),
                      lru0, dst, true, mode, busy)
  {
    var a, i := Without(v.activeList, p), Without(v.inactiveList, p);
    Unlinked(v.activeList, v.inactiveList, v.lru, p);
    forall x
      ensures Placed([p] + a, i, v.lru, x)
    {
      assert Placed(a, i, v.lru - {p}, x);
    }
  }

  /** A busy page goes to the head of the inactive list, even an active one. */
  lemma BusyInactive(v: Lists, lru0: set<Page>, dst: seq<Page>, mode: Mode, busy: set<Page>, p: Page)
    requires Isolating(v, lru0, dst, false, mode, busy)
    requires IsolationOf(p in v.lru, p in v.active, p in busy, mode) == Busy
    ensures Isolating(v.(activeList := Without(v.activeList, p), inactiveList := [p] + Without(v.inactiveList, p)),
                      lru0, dst, false, mode, busy)
  {
    var a, i := Without(v.activeList, p), Without(v.inactiveList, p);
    Unlinked(v.activeList, v.inactiveList, v.lru, p);
    forall x
      ensures Placed(a, [p] + i, v.lru, x)
    {
      assert Placed(a, i, v.lru - {p}, x);
    }
  }

  lemma CursorKeeps(q: Request, s: Scan, p: Page, lru0: set<Page>)
    requires Sound(q, s, lru0)
    ensures Sound(q, CursorScan(q, s, p), lru0)
  {
    match Verdict(q, s.v, p)
    case Invalid =>
    case Taken => TakenStep(s.v, lru0, s.dst, q.fromActive, q.mode, q.busy, p);
    case Busy =>
      if q.fromActive {
        BusyActive(s.v, lru0, s.dst, q.mode, q.busy, p);
      } else {
        BusyInactive(s.v, lru0, s.dst, q.mode, q.busy, p);
      }
  }

  lemma BlockKeeps(q: Request, s: Scan, page: Page, n: nat, lru0: set<Page>)
    requires Sound(q, s, lru0)
    ensures Sound(q, BlockScan(q, s, page, n), lru0)
  {
    var step := StepOf(q, page);
    forall t: Scan, p: Page | Sound(q, t, lru0)
      ensures Sound(q, step(t, p), lru0)
    {
      CursorKeeps(q, t, p, lru0);
    }
    WalkKeeps(step, t => Sound(q, t, lru0), s, BlockStart(page, q.order), n);
  }

  /** The last page of the source list is refused exactly when inactive pages are wanted and it is active.
      It is linked nowhere else. */
  lemma TagPage(q: Request, s: Scan, lru0: set<Page>)
    requires Sound(q, s, lru0) && SourceOf(s.v, q.fromActive) != []
    ensures var list, p := SourceOf(s.v, q.fromActive), TagOf(s.v, q.fromActive);
            && (Stuck(q, s.v) <==> q.mode == IsolateInactive && p in s.v.active)
            && (!Stuck(q, s.v) ==> Verdict(q, s.v, p) == if p in q.busy then Busy else Taken)
            && Without(list, p) == list[..|list| - 1]
            && Without(SourceOf(s.v, !q.fromActive), p) == SourceOf(s.v, !q.fromActive)
  {
    var list, p := SourceOf(s.v, q.fromActive), TagOf(s.v, q.fromActive);
    assert p in list && multiset(list)[p] > 0;
    assert Placed(s.v.activeList, s.v.inactiveList, s.v.lru, p);
    WithoutLast(list);
    var other := SourceOf(s.v, !q.fromActive);
    assert multiset(other)[p] == 0;
    WithoutCounts(other, p);
  }

  /** The tag page goes the way of any page of the block, except that it always counts as scanned. */
  lemma TagUnlinked(q: Request, s: Scan, p: Page)
    requires SourceOf(s.v, q.fromActive) != [] && p == TagOf(s.v, q.fromActive)
    requires Verdict(q, s.v, p) == (if p in q.busy then Busy else Taken)
    ensures var front := SourceOf(s.v, q.fromActive)[..|SourceOf(s.v, q.fromActive)| - 1];
            TagScan(q, s) == Unlink(q, s, p, if q.fromActive then front else s.v.activeList,
                                    if q.fromActive then s.v.inactiveList else front).(scanned := s.scanned + 1)
  {
  }

  lemma TagKeeps(q: Request, s: Scan, lru0: set<Page>)
    requires Sound(q, s, lru0) && SourceOf(s.v, q.fromActive) != [] && !Stuck(q, s.v)
    ensures Sound(q, TagScan(q, s), lru0)
  {
    var p := TagOf(s.v, q.fromActive);
    TagPage(q, s, lru0);
    TagUnlinked(q, s, p);
    CursorKeeps(q, s, p, lru0);
  }

  /** A round that does not end in BUG() keeps every page on exactly one of the lists, or taken once. */
  lemma RoundKeeps(q: Request, s: Scan, lru0: set<Page>)
    requires Sound(q, s, lru0) && SourceOf(s.v, q.fromActive) != [] && !Stuck(q, s.v)
    ensures Sound(q, RoundScan(q, s), lru0)
  {
    TagKeeps(q, s, lru0);
    BlockKeeps(q, TagScan(q, s), TagOf(s.v, q.fromActive), Power2(q.order), lru0);
  }

  lemma NothingMoved(lru: set<Page>)
    ensures AllMoved(lru, lru, [])
  {
  }

  /** Page frames behind a hole are not looked at, so the scan may stop there. */
  lemma NothingBehindHole(step: (Scan, Page) -> Scan, q: Request, s: Scan, page: Page, hole: Page, n: nat)
    requires Steps(step, q, page) && hole != page && !q.geometry.validWithin(hole)
    requires BlockStart(page, q.order) <= hole < BlockStart(page, q.order) + n
    ensures Walk(step, s, BlockStart(page, q.order), n)
         == Walk(step, s, BlockStart(page, q.order), hole - BlockStart(page, q.order))
  {
    var start := BlockStart(page, q.order);
    forall t: Scan, p: Page | hole <= p < start + n
      ensures step(t, p) == t
    {
      assert !InBlock(q, page, p);
      assert StepPlayed(step, t, p) == t;
    }
    WalkStops(step, s, start, hole - start, n);
  }

  lemma StepTakes(q: Request, s: Scan, page: Page, x: Page, p: Page)
    ensures BlockStep(q, s, page, x).v.active == s.v.active
    ensures p in BlockStep(q, s, page, x).v.lru <==>
              p in s.v.lru && !(p == x && InBlock(q, page, p) && Verdict(q, s.v, p) == Taken)
  {
  }

  /** A block scan takes exactly the pages of the block that could be taken when it began. */
  lemma BlockTakesAll(q: Request, s: Scan, page: Page, n: nat, p: Page)
    ensures BlockScan(q, s, page, n).v.active == s.v.active
    ensures var start := BlockStart(page, q.order);
            p in BlockScan(q, s, page, n).v.lru <==>
              p in s.v.lru && !(start <= p < start + n && InBlock(q, page, p) && Verdict(q, s.v, p) == Taken)
  {
    var step, start := StepOf(q, page), BlockStart(page, q.order);
    forall t: Scan, x: Page
      ensures step(t, x).v.active == t.v.active
      ensures p in step(t, x).v.lru <==>
                p in t.v.lru && !(p == x && InBlock(q, page, p) && Verdict(q, t.v, p) == Taken)
    {
      StepTakes(q, t, page, x, p);
    }
    WalkKeeps(step, (t: Scan) => t.v.active == s.v.active, s, start, n);
    WalkTakes(step, (t: Scan) => p in t.v.lru, (t: Scan) => InBlock(q, page, p) && Verdict(q, t.v, p) == Taken,
              s, start, n, p);
  }

  /** ... that is, those LRU pages of the wanted kind that nobody frees. */
  lemma BlockTakesWanted(q: Request, s: Scan, page: Page, n: nat, p: Page)
    requires p in s.v.lru
    ensures var start := BlockStart(page, q.order);
            p !in BlockScan(q, s, page, n).v.lru <==>
              && start <= p < start + n && InBlock(q, page, p) && p !in q.busy
              && (q.mode == IsolateActive ==> p in s.v.active) && (q.mode == IsolateInactive ==> p !in s.v.active)
  {
    BlockTakesAll(q, s, page, n, p);
  }

  /** `rest` and `taken` are what isolating up to `n` pages from the end of `list` leaves and takes. */
  ghost predicate Cut(list: seq<Page>, n: nat, rest: seq<Page>, taken: seq<Page>) {
    var k := if n < |list| then |list| - n else 0;
    rest == list[..k] && taken == list[k..]
  }

  ghost predicate CutOff(v0: Lists, fromActive: bool, n: nat, v: Lists, taken: seq<Page>) {
    if fromActive then Cut(v0.activeList, n, v.activeList, taken) && v.inactiveList == v0.inactiveList
    else Cut(v0.inactiveList, n, v.inactiveList, taken) && v.activeList == v0.activeList
  }

  lemma CutOne(list: seq<Page>, n: nat, rest: seq<Page>, taken: seq<Page>)
    requires Cut(list, n, rest, taken) && rest != []
    ensures Cut(list, n + 1, rest[..|rest| - 1], [rest[|rest| - 1]] + taken)
  {
    var k := |list| - n;
    assert list[k - 1..] == [list[k - 1]] + list[k..];
  }

  lemma CutMore(v0: Lists, fromActive: bool, n: nat, v: Lists, taken: seq<Page>)
    requires CutOff(v0, fromActive, n, v, taken)
    requires SourceOf(v, fromActive) != []
    ensures CutOff(v0, fromActive, n + 1, TagTaken(v, fromActive), [TagOf(v, fromActive)] + taken)
  {
    if fromActive {
      CutOne(v0.activeList, n, v.activeList, taken);
    } else {
      CutOne(v0.inactiveList, n, v.inactiveList, taken);
    }
  }

  /** At order 0 with no busy pages, isolation cuts the end off the source list, if it meets no BUG(). */
  lemma {:induction false} IsolatedCuts(q: Request, v0: Lists, s: Scan, nrToScan: nat)
    requires q.order == 0 && q.busy == {} && s.scanned <= nrToScan
    requires CutOff(v0, q.fromActive, s.scanned, s.v, s.dst) && s.v.active == v0.active
    ensures var r := Isolated(q, s, nrToScan);
            && r.v.active == v0.active
            && (!Bugs(q, r, nrToScan) ==> CutOff(v0, q.fromActive, nrToScan, r.v, r.dst))
    decreases nrToScan - s.scanned
  {
    if !Ends(q, s, nrToScan) {
      CutMore(v0, q.fromActive, s.scanned, s.v, s.dst);
      IsolatedCuts(q, v0, RoundScan(q, s), nrToScan);
    }
  }
}
