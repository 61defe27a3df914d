/** Page reclaim on one zone (hw5/vmscan.c): the loops that isolate pages, scan and put them back, and the
    zone counters across every release of the lru_lock.
 */
module VmScan {
  import opened VmChance
  import opened VmIsolation
  import opened VmLists
  import opened VmRounds
  import opened VmStray

  lemma PageAdded(a: seq<Page>, i: seq<Page>, lru: set<Page>, p: Page)
    requires AllPlaced(a, i, lru) && p !in lru
    ensures AllPlaced([p] + a, i, lru + {p}) && AllPlaced(a, [p] + i, lru + {p})
  {
    forall x
      ensures Placed([p] + a, i, lru + {p}, x) && Placed(a, [p] + i, lru + {p}, x)
    {
      assert Placed(a, i, lru, x);
    }
  }

  lemma OnListInLru(a: seq<Page>, i: seq<Page>, lru: set<Page>, p: Page)
    requires AllPlaced(a, i, lru)
    ensures p in a || p in i <==> p in lru
    ensures !(p in a && p in i)
  {
    assert Placed(a, i, lru, p);
    assert p in a <==> multiset(a)[p] > 0;
    assert p in i <==> multiset(i)[p] > 0;
  }

  /** Flags of pages that are not on the LRU change neither the counts nor what the lists show. */
  lemma FlagsOfMine(a: seq<Page>, i: seq<Page>, lru: set<Page>, active: set<Page>, active': set<Page>, mine: set<Page>)
    requires AllPlaced(a, i, lru) && mine !! lru && active' - mine == active - mine
    ensures lru * active' == lru * active && lru - active' == lru - active
    ensures forall x: int, y: int {:trigger Counted(lru, active', x, y)}
      :: Counted(lru, active', x, y) <==> Counted(lru, active, x, y)
    ensures forall p :: p in a || p in i ==> (p in active' <==> p in active)
  {
    forall x: int, y: int
      ensures lru * active' == lru * active && lru - active' == lru - active ==>
                (Counted(lru, active', x, y) <==> Counted(lru, active, x, y))
    {
      CountedMeans(lru, active, x, y);
      CountedMeans(lru, active', x, y);
    }
    forall p
      ensures p in lru ==> (p in active' <==> p in active)
      ensures p in a || p in i ==> p in lru
    {
      OnListInLru(a, i, lru, p);
      assert p in active' - mine <==> p in active - mine;
    }
  }

  lemma MovedOnce(before: set<Page>, after: set<Page>, list: seq<Page>)
    requires AllMoved(before, after, list)
    ensures Once(list)
  {
    forall p
      ensures Times(list, p) <= 1
    {
      assert Moved(before, after, list, p);
    }
  }

  lemma NoneActive(active: set<Page>, list: seq<Page>)
    requires active * Elements(list) == {}
    ensures active - Elements(list) == active
  {
    forall p | p in active
      ensures p !in list
    {
      assert p in list ==> p in active * Elements(list);
    }
  }

  lemma PutNothing(v: Lists)
    ensures PutAll(v, []) == v
  {
  }

  lemma MoveOver(pages: seq<Page>, done: seq<Page>, tail: seq<Page>)
    requires pages != []
    ensures var n := |pages| - 1;
            pages + done == pages[..n] + ([pages[n]] + done) && [pages[n]] + (done + tail) == ([pages[n]] + done) + tail
  {
  }

  lemma OneMore(list: seq<Page>, n: nat, tail: seq<Page>)
    requires 0 < n <= |list|
    ensures [list[n - 1]] + (list[n..] + tail) == list[n - 1..] + tail
  {
    assert list[n - 1..] == [list[n - 1]] + list[n..];
  }

  lemma TakenActive(before: set<Page>, after: set<Page>, active: set<Page>,
      list: seq<Page>, nrActive: int, nrInactive: int)
    requires AllMoved(before, after, list) && forall p :: p in list ==> p in active
    requires Counted(before, active, nrActive, nrInactive)
    ensures Once(list) && Elements(list) <= active && Elements(list) !! after
    ensures Counted(after, active, nrActive - |list|, nrInactive)
  {
    TakenCount(before, after, list);
    MovedOnce(before, after, list);
    CountsAfterTaking(before, active, Elements(list));
    assert Elements(list) * active == Elements(list);
    CountedMeans(before, active, nrActive, nrInactive);
    CountedMeans(after, active, nrActive - |list|, nrInactive);
  }

  lemma TakenInactive(v: Lists, before: set<Page>, list: seq<Page>, nrActive: int, nrInactive: int)
    requires AllMoved(before, v.lru, list) && AllPlaced(v.activeList, v.inactiveList, v.lru)
    requires Counted(before, v.active, nrActive, nrInactive)
    ensures var gone, active' := Elements(list), v.active - Elements(list);
            && Once(list) && gone !! v.lru
            && Counted(v.lru, active', nrActive - |gone * v.active|, nrInactive - (|list| - |gone * v.active|))
            && (forall p :: p in v.activeList || p in v.inactiveList ==> (p in active' <==> p in v.active))
  {
    var gone, active' := Elements(list), v.active - Elements(list);
    TakenCount(before, v.lru, list);
    MovedOnce(before, v.lru, list);
    CountsAfterTaking(before, v.active, gone);
    FlagsOfMine(v.activeList, v.inactiveList, v.lru, v.active, active', gone);
    CountedMeans(before, v.active, nrActive, nrInactive);
    CountedMeans(v.lru, active', nrActive - |gone * v.active|, nrInactive - (|list| - |gone * v.active|));
  }

  /** Lists, flags and counters agree: every PageLRU page is on exactly one of the two lists, once, the
      active list holds active pages only, so does the inactive list inactive ones unless some strayed, and
      the counters are the numbers of PageLRU pages with PageActive set and clear. */
  ghost predicate ZoneFacts(v: Lists, strayed: bool, mine: set<Page>, nrActive: int, nrInactive: int) {
    && AllPlaced(v.activeList, v.inactiveList, v.lru) && Counted(v.lru, v.active, nrActive, nrInactive)
    && (forall p :: p in v.activeList ==> p in v.active) && (!strayed ==> Agrees(v))
    && mine !! v.lru
  }

  /** Mentioned where a proof needs the facts behind `ZoneOk`. */
  ghost predicate Opened(v: Lists) { true }

  /** The same, kept folded: proofs that only pass it on need not look inside. */
  ghost predicate ZoneOk(v: Lists, strayed: bool, mine: set<Page>, nrActive: int, nrInactive: int) {
    forall w {:trigger Opened(w)} :: Opened(w) && w == v ==> ZoneFacts(w, strayed, mine, nrActive, nrInactive)
  }

  lemma ZoneMeans(v: Lists, strayed: bool, mine: set<Page>, nrActive: int, nrInactive: int)
    ensures ZoneOk(v, strayed, mine, nrActive, nrInactive) <==> ZoneFacts(v, strayed, mine, nrActive, nrInactive)
  {
    assert Opened(v);
  }

  lemma ZoneIsWell(v: Lists, strayed: bool, mine: set<Page>, nrActive: int, nrInactive: int)
    requires ZoneOk(v, strayed, mine, nrActive, nrInactive)
    ensures Wellformed(v) && (!strayed ==> Agrees(v))
  {
    ZoneMeans(v, strayed, mine, nrActive, nrInactive);
  }

  lemma ZoneLess(v: Lists, strayed: bool, mine: set<Page>, mine': set<Page>, nrActive: int, nrInactive: int)
    requires ZoneOk(v, strayed, mine, nrActive, nrInactive) && mine' <= mine
    ensures ZoneOk(v, strayed, mine', nrActive, nrInactive)
  {
    ZoneMeans(v, strayed, mine, nrActive, nrInactive);
    ZoneMeans(v, strayed, mine', nrActive, nrInactive);
  }

  /** Only the flags of isolated pages change. */
  lemma FlagsKeep(v: Lists, strayed: bool, mine: set<Page>, active': set<Page>, nrActive: int, nrInactive: int)
    requires ZoneOk(v, strayed, mine, nrActive, nrInactive) && active' - mine == v.active - mine
    ensures ZoneOk(v.(active := active'), strayed, mine, nrActive, nrInactive)
  {
    ZoneMeans(v, strayed, mine, nrActive, nrInactive);
    FlagsOfMine(v.activeList, v.inactiveList, v.lru, v.active, active', mine);
    ZoneMeans(v.(active := active'), strayed, mine, nrActive, nrInactive);
  }

  lemma AddedKeeps(v: Lists, strayed: bool, mine: set<Page>, p: Page, nrActive: int, nrInactive: int)
    requires ZoneOk(v, strayed, mine + {p}, nrActive, nrInactive) && p !in mine
    ensures ZoneOk(Added(v, p), strayed, mine, nrActive + if p in v.active then 1 else 0,
                   nrInactive + if p in v.active then 0 else 1)
  {
    ZoneMeans(v, strayed, mine + {p}, nrActive, nrInactive);
    CountedPut(v.lru, v.active, nrActive, nrInactive, p);
    PageAdded(v.activeList, v.inactiveList, v.lru, p);
    ZoneMeans(Added(v, p), strayed, mine, nrActive + if p in v.active then 1 else 0,
              nrInactive + if p in v.active then 0 else 1);
  }

  /** Dropping an isolated page: its flag is cleared, then it goes to the inactive list. */
  ghost function Dropped(v: Lists, p: Page): Lists {
    Lists(v.activeList, [p] + v.inactiveList, v.lru + {p}, v.active - {p})
  }

  lemma DroppedKeeps(v: Lists, strayed: bool, mine: set<Page>, p: Page, nrActive: int, nrInactive: int)
    requires ZoneOk(v, strayed, mine + {p}, nrActive, nrInactive) && p !in mine
    ensures ZoneOk(Dropped(v, p), strayed, mine, nrActive, nrInactive + 1)
  {
    var cleared := v.(active := v.active - {p});
    FlagsKeep(v, strayed, mine + {p}, cleared.active, nrActive, nrInactive);
    AddedKeeps(cleared, strayed, mine, p, nrActive, nrInactive);
    assert Added(cleared, p) == Dropped(v, p);
  }

  class Zone {
    const geometry: Geometry
    /** Nobody else touches the zone while the lock is released. */
    ghost const quiet: bool
    /** Nobody else leaves an active page on the inactive list. */
    ghost const tidy: bool

    var activeList: seq<Page>
    var inactiveList: seq<Page>
    /** The pages with PageLRU, with PageActive and with PageReferenced set. */
    var lru: set<Page>
    var active: set<Page>
    var referenced: set<Page>
    var refCnt: map<Page, nat>
    var nrActive: int
    var nrInactive: int
    var numActiveToInactive: nat
    var numInactiveToFree: nat
    /** Some isolation of both kinds of pages left an active page on the inactive list. */
    ghost var strayed: bool
    /** The pages this context put back on the LRU so far, the last one first. */
    ghost var returned: seq<Page>

    constructor (geometry: Geometry, ghost quiet: bool, ghost tidy: bool)
      ensures Released({}) && activeList == [] && inactiveList == [] && !strayed
    {
      this.geometry, this.quiet, this.tidy := geometry, quiet, tidy;
      activeList, inactiveList := [], [];
      lru, active, referenced, refCnt := {}, {}, {}, map[];
      nrActive, nrInactive, numActiveToInactive, numInactiveToFree := 0, 0, 0, 0;
      strayed, returned := false, [];
      new;
      assert lru * active == {} && lru - active == {};
      CountedMeans(lru, active, nrActive, nrInactive);
      ZoneMeans(V(), strayed, {}, nrActive, nrInactive);
    }

    ghost function V(): Lists
      reads this
    {
      Lists(activeList, inactiveList, lru, active)
    }

    ghost function Q(fromActive: bool, order: nat, mode: Mode, busy: set<Page>): Request {
      Request(geometry, fromActive, order, mode, busy)
    }

    /** Every PageLRU page is on exactly one of the two lists, once. */
    ghost predicate ListsOk()
      reads this
    {
      AllPlaced(activeList, inactiveList, lru)
    }

    ghost predicate ActiveListOk()
      reads this
    {
      forall p :: p in activeList ==> p in active
    }

    ghost predicate InactiveListOk()
      reads this
    {
      Agrees(V())
    }

    /** What holds whenever the lru_lock is free: lists, flags and the counters NR_ACTIVE and NR_INACTIVE
        agree. `mine` are the pages isolated by this context. */
    ghost predicate Released(mine: set<Page>)
      reads this
    {
      ZoneOk(V(), strayed, mine, nrActive, nrInactive)
    }

    /** The lru_lock is free for a while: others may do anything that keeps the zone consistent, and
        leave the flags of pages isolated by us alone. */
    method Unlocked(ghost mine: set<Page>)
      requires Released(mine)
      modifies this`activeList, this`inactiveList, this`lru, this`active, this`nrActive, this`nrInactive
      modifies this`strayed
      ensures Released(mine) && active * mine == old(active) * mine
      ensures tidy || quiet ==> strayed == old(strayed)
      ensures quiet ==> activeList == old(activeList) && inactiveList == old(inactiveList) && lru == old(lru)
                        && active == old(active) && nrActive == old(nrActive) && nrInactive == old(nrInactive)
    {
    }

    /** `__isolate_lru_page` */
    method IsolateLruPage(page: Page, mode: Mode, busy: set<Page>) returns (ret: Isolation)
      modifies this`lru
      ensures ret == IsolationOf(page in old(lru), page in active, page in busy, mode)
      ensures ret != Invalid <==>
                page in old(lru) && (mode == IsolateActive ==> page in active)
                && (mode == IsolateInactive ==> page !in active)
      ensures ret != Invalid ==> (ret == Busy <==> page in busy)
      ensures lru == if ret == Taken then old(lru) - {page} else old(lru)
    {
      ret := Invalid;
      if page !in lru {
        return;
      }
      if mode != IsolateBoth && (page in active) != (mode == IsolateActive) {
        return;
      }
      ret := Busy;
      if page !in busy {
        lru := lru - {page};
        ret := Taken;
      }
    }

    /** `list_move` of a linked page to the source list. */
    method MoveToSource(page: Page, fromActive: bool)
      modifies this`activeList, this`inactiveList
      ensures activeList == if fromActive then [page] + Without(old(activeList), page)
        else Without(old(activeList), page)
      ensures inactiveList == if fromActive then Without(old(inactiveList), page)
        else [page] + Without(old(inactiveList), page)
    {
      activeList := Without(activeList, page);
      inactiveList := Without(inactiveList, page);
      if fromActive {
        activeList := [page] + activeList;
      } else {
        inactiveList := [page] + inactiveList;
      }
    }

    /** A page leaves the lists for `dst`. */
    method TakePage(page: Page, dst: seq<Page>) returns (r: seq<Page>)
      modifies this`activeList, this`inactiveList
      ensures r == [page] + dst
      ensures activeList == Without(old(activeList), page) && inactiveList == Without(old(inactiveList), page)
    {
      activeList := Without(activeList, page);
      inactiveList := Without(inactiveList, page);
      r := [page] + dst;
    }

    /** One page of an aligned block. */
    method TakeCursor(cursor: Page, dst: seq<Page>, scan0: nat, ghost order: nat, fromActive: bool, mode: Mode,
                      busy: set<Page>)
      returns (r: seq<Page>, scan: nat)
      modifies this`activeList, this`inactiveList, this`lru
      ensures Scan(V(), r, scan) == CursorScan(Q(fromActive, order, mode, busy), Scan(old(V()), dst, scan0), cursor)
    {
      r, scan := dst, scan0;
      var ret := IsolateLruPage(cursor, mode, busy);
      if ret == Taken {
        r := TakePage(cursor, dst);
        scan := scan0 + 1;
      } else if ret == Busy {
        MoveToSource(cursor, fromActive);
      }
    }

    /** A page frame of the block other than the tag page, with no hole before it. */
    method TakeNext(cursor: Page, page: Page, dst: seq<Page>, scan0: nat, order: nat, fromActive: bool, mode: Mode,
                    busy: set<Page>, ghost step: (Scan, Page) -> Scan)
      returns (r: seq<Page>, scan: nat)
      requires cursor != page && Steps(step, Q(fromActive, order, mode, busy), page)
      requires forall x :: BlockStart(page, order) <= x <= cursor && x != page ==> geometry.validWithin(x)
      modifies this`activeList, this`inactiveList, this`lru
      ensures Scan(V(), r, scan) == StepPlayed(step, Scan(old(V()), dst, scan0), cursor)
    {
      r, scan := dst, scan0;
      if geometry.zoneId(cursor) == geometry.zoneId(page) {
        r, scan := TakeCursor(cursor, dst, scan0, order, fromActive, mode, busy);
      }
    }

    /** The pages of an aligned block around an isolated page. */
    method TakeBlock(page: Page, order: nat, dst: seq<Page>, scan0: nat, fromActive: bool, mode: Mode, busy: set<Page>,
                     ghost step: (Scan, Page) -> Scan)
      returns (r: seq<Page>, scan: nat)
      requires Steps(step, Q(fromActive, order, mode, busy), page)
      modifies this`activeList, this`inactiveList, this`lru
      ensures Scan(V(), r, scan) == Walk(step, Scan(old(V()), dst, scan0), BlockStart(page, order), Power2(order))
    {
      r, scan := dst, scan0;
      var pfn := BlockStart(page, order);
      var endPfn := pfn + Power2(order);
      ghost var q, s, start := Q(fromActive, order, mode, busy), Scan(V(), dst, scan0), pfn;
      ghost var t, k := s, 0;
      while pfn < endPfn
        invariant pfn == start + k <= endPfn
        invariant forall x :: start <= x < pfn && x != page ==> geometry.validWithin(x)
        invariant Scan(V(), r, scan) == t == Walk(step, s, start, k)
      {
        WalkNext(step, s, start, k);
        ghost var next := Walk(step, s, start, k + 1);
        assert next == step(t, pfn);
        if pfn == page {
          TagSkipped(step, q, page, t);
        } else if !geometry.validWithin(pfn) {
          NothingBehindHole(step, q, s, page, pfn, Power2(order));
          assert k == pfn - start;
          break;
        } else {
          r, scan := TakeNext(pfn, page, r, scan, order, fromActive, mode, busy, step);
        }
        assert Scan(V(), r, scan) == step(t, pfn);
        t := next;
        pfn, k := pfn + 1, k + 1;
      }
      assert pfn == endPfn ==> k == Power2(order);
    }

    /** The tag page, the last of the source list, with the answer of `__isolate_lru_page`. */
    method TakeTag(dst: seq<Page>, fromActive: bool, mode: Mode, busy: set<Page>)
      returns (page: Page, r: seq<Page>, ret: Isolation)
      requires SourceOf(V(), fromActive) != []
      modifies this`activeList, this`inactiveList, this`lru
      ensures page == TagOf(old(V()), fromActive)
      ensures ret == IsolationOf(page in old(lru), page in active, page in busy, mode)
      ensures match ret
              case Taken => r == [page] + dst && V() == TagTaken(old(V()), fromActive)
              case Busy => r == dst && V() == TagRotated(old(V()), fromActive)
              case Invalid => r == dst && V() == old(V())
    {
      page := if fromActive then activeList[|activeList| - 1] else inactiveList[|inactiveList| - 1];
      r := dst;
      ret := IsolateLruPage(page, mode, busy);
      match ret {
        case Taken =>
          if fromActive {
            activeList := activeList[..|activeList| - 1];
          } else {
            inactiveList := inactiveList[..|inactiveList| - 1];
          }
          r := [page] + dst;
        case Busy =>
          if fromActive {
            activeList := [page] + activeList[..|activeList| - 1];
          } else {
            inactiveList := [page] + inactiveList[..|inactiveList| - 1];
          }
        case Invalid =>
      }
    }

    /** One round of `isolate_lru_pages`: a tag page and, at higher orders, its block. A tag page that is
        refused is the BUG() of the source: `bug`. */
    method TakeRound(order: nat, dst: seq<Page>, scan0: nat, fromActive: bool, mode: Mode, busy: set<Page>)
      returns (r: seq<Page>, scan: nat, bug: bool)
      requires SourceOf(V(), fromActive) != []
      modifies this`activeList, this`inactiveList, this`lru
      ensures bug == Stuck(Q(fromActive, order, mode, busy), old(V()))
      ensures Scan(V(), r, scan) == if bug then Scan(old(V()), dst, scan0)
                                    else RoundScan(Q(fromActive, order, mode, busy), Scan(old(V()), dst, scan0))
    {
      ghost var q, s := Q(fromActive, order, mode, busy), Scan(V(), dst, scan0);
      var page, ret;
      page, r, ret := TakeTag(dst, fromActive, mode, busy);
      scan, bug := scan0, ret == Invalid;
      if bug {
        return;
      }
      scan := scan + 1;
      assert Scan(V(), r, scan) == TagScan(q, s);
      if ret == Busy || order == 0 {
        return;
      }
      r, scan := TakeBlock(page, order, r, scan, fromActive, mode, busy, StepOf(q, page));
      assert Scan(V(), r, scan) == BlockScan(q, TagScan(q, s), page, Power2(order));
    }

    /** `isolate_lru_pages`; `bug` says that it came to its BUG(), with the lock held. */
    method IsolateLruPages(nrToScan: nat, fromActive: bool, order: nat, mode: Mode, busy: set<Page>)
      returns (dst: seq<Page>, scanned: nat, bug: bool)
      requires ListsOk() && ActiveListOk() && (mode == IsolateActive <==> fromActive)
      requires !strayed ==> InactiveListOk()
      modifies this`activeList, this`inactiveList, this`lru, this`strayed
      ensures Isolating(V(), old(lru), dst, fromActive, mode, busy) && (!strayed ==> InactiveListOk())
      ensures Scan(V(), dst, scanned) == Isolated(Q(fromActive, order, mode, busy), Scan(old(V()), [], 0), nrToScan)
      ensures bug == Bugs(Q(fromActive, order, mode, busy), Scan(V(), dst, scanned), nrToScan)
      ensures strayed == (old(strayed) || (mode == IsolateBoth && !InactiveListOk()))
      ensures bug ==> old(strayed) && mode == IsolateInactive
    {
      ghost var lru0, q, s0 := lru, Q(fromActive, order, mode, busy), Scan(V(), [], 0);
      dst, scanned, bug := [], 0, false;
      NothingMoved(lru);
      while scanned < nrToScan && (if fromActive then activeList else inactiveList) != []
        invariant Sound(q, Scan(V(), dst, scanned), lru0) && !bug && strayed == old(strayed)
        invariant Isolated(q, Scan(V(), dst, scanned), nrToScan) == Isolated(q, s0, nrToScan)
        decreases nrToScan - scanned
      {
        ghost var s := Scan(V(), dst, scanned);
        dst, scanned, bug := TakeRound(order, dst, scanned, fromActive, mode, busy);
        if bug {
          break;
        }
        RoundKeeps(q, s, lru0);
      }
      BugsExactly(q, s0, nrToScan, lru0);
      if mode != IsolateBoth && Agrees(s0.v) {
        OneKindAgrees(q, s0, nrToScan);
      }
      ghost var agrees := InactiveListOk();
      strayed := strayed || (mode == IsolateBoth && !agrees);
      assert InactiveListOk() == agrees;
    }

    /** `clear_active_flags` */
    method ClearActiveFlags(list: seq<Page>) returns (nrActive: nat)
      requires Once(list)
      modifies this`active
      ensures active == old(active) - Elements(list) && nrActive == |Elements(list) * old(active)|
    {
      nrActive := 0;
      var k := 0;
      ClearedNone(list, active);
      while k < |list|
        invariant k <= |list| && ClearedTo(list, k, old(active), active, nrActive)
      {
        ClearedNext(list, k, old(active), active, nrActive);
        if list[k] in active {
          active := active - {list[k]};
          nrActive := nrActive + 1;
        }
        k := k + 1;
      }
      assert list[..k] == list;
    }

    /** `shrink_page_list`, where every page meets a fate of its own. */
    method ShrinkPageList(list: seq<Page>, fate: Page -> Fate) returns (rest: seq<Page>, nrFreed: nat)
      modifies this`active
      ensures rest == Survivors(list, fate) && nrFreed + |rest| == |list|
      ensures active == old(active) + ActivatedOf(rest, fate)
    {
      rest, nrFreed := [], 0;
      var k := |list|;
      while k > 0
        invariant 0 <= k <= |list| && rest == Survivors(list[k..], fate) && nrFreed + |rest| == |list| - k
        invariant active == old(active) + ActivatedOf(rest, fate)
      {
        k := k - 1;
        var page := list[k];
        assert list[k..] == [page] + list[k + 1..];
        if fate(page) == Freed {
          nrFreed := nrFreed + 1;
        } else {
          if fate(page) == Activated {
            active := active + {page};
          }
          rest := [page] + rest;
        }
      }
    }

    /** One page goes back to the LRU, with its counter: `add_page_to_active_list` and its twin. */
    method AddPage(page: Page, ghost mine: set<Page>)
      requires Released(mine + {page}) && page !in mine
      modifies this`activeList, this`inactiveList, this`lru, this`nrActive, this`nrInactive, this`returned
      ensures Released(mine) && V() == Added(old(V()), page) && returned == [page] + old(returned)
    {
      ghost var after := Added(V(), page);
      AddedKeeps(V(), strayed, mine, page, nrActive, nrInactive);
      lru, returned := lru + {page}, [page] + returned;
      if page in active {
        activeList := [page] + activeList;
        nrActive := nrActive + 1;
      } else {
        inactiveList := [page] + inactiveList;
        nrInactive := nrInactive + 1;
      }
      assert V() == after;
    }

    /** The put-back loop of `shrink_inactive_list`; `pvec` counts the pages in the page vector. */
    method PutBack(list: seq<Page>, pvec0: nat) returns (pvec: nat)
      requires Released(Elements(list)) && Once(list) && pvec0 < PAGEVEC_SIZE
      modifies this`activeList, this`inactiveList, this`lru, this`active, this`nrActive, this`nrInactive
      modifies this`strayed, this`returned
      ensures Released({}) && pvec < PAGEVEC_SIZE && returned == list + old(returned)
      ensures quiet ==> V() == PutAll(old(V()), list)
      ensures tidy || quiet ==> strayed == old(strayed)
    {
      pvec := pvec0;
      var pages := list;
      ghost var done: seq<Page> := [];
      while pages != []
        invariant Released(Elements(pages)) && Once(pages) && pvec < PAGEVEC_SIZE
        invariant quiet ==> PutAll(V(), pages) == PutAll(old(V()), list)
        invariant list == pages + done && returned == done + old(returned)
        invariant tidy || quiet ==> strayed == old(strayed)
        decreases |pages|
      {
        var page := pages[|pages| - 1];
        LastElement(pages);
        PutLast(V(), pages);
        MoveOver(pages, done, old(returned));
        pages, done := pages[..|pages| - 1], [page] + done;
        AddPage(page, Elements(pages));
        pvec := pvec + 1;
        if pvec == PAGEVEC_SIZE {
          Unlocked(Elements(pages));
          pvec := 0;
        }
      }
      assert Elements([]) == {};
    }

    /** `shrink_page_list` touches no page another context can see. */
    method ShrinkMine(list: seq<Page>, fate: Page -> Fate) returns (rest: seq<Page>, nrFreed: nat)
      requires Released(Elements(list)) && Once(list)
      modifies this`active
      ensures Released(Elements(rest)) && Once(rest) && nrFreed + |rest| == |list|
      ensures rest == Survivors(list, fate) && active == old(active) + ActivatedOf(rest, fate)
    {
      rest, nrFreed := ShrinkPageList(list, fate);
      SurvivorsAre(list, fate);
      FlagsKeep(old(V()), strayed, Elements(list), active, nrActive, nrInactive);
      ZoneLess(V(), strayed, Elements(list), Elements(rest), nrActive, nrInactive);
    }

    /** The active flags of isolated pages are cleared and the pages leave the counters. */
    method Uncount(list: seq<Page>, ghost lru0: set<Page>)
      requires ListsOk() && AllMoved(lru0, lru, list) && Counted(lru0, active, nrActive, nrInactive)
      requires ActiveListOk() && (!strayed ==> InactiveListOk())
      modifies this`active, this`nrActive, this`nrInactive
      ensures Released(Elements(list)) && Once(list) && active == old(active) - Elements(list)
    {
      ghost var v := V();
      TakenInactive(v, lru0, list, nrActive, nrInactive);
      var gone := ClearActiveFlags(list);
      nrActive := nrActive - gone;
      nrInactive := nrInactive - (|list| - gone);
      ZoneMeans(V(), strayed, Elements(list), nrActive, nrInactive);
    }

    /** Isolation and accounting of one round, up to the release of the lock, if BUG() is not reached. */
    method SnipInactive(nrToScan: nat, order: nat, busy: set<Page>) returns (list: seq<Page>, scanned: nat, bug: bool)
      requires Released({})
      modifies this`activeList, this`inactiveList, this`lru, this`active, this`nrActive, this`nrInactive
      modifies this`strayed
      ensures var q := Q(false, order, ModeFor(order), busy);
              var s := Isolated(q, Scan(old(V()), [], 0), nrToScan);
              && bug == Bugs(q, s, nrToScan)
              && Scan(V(), list, scanned) == if bug then s else FlagsCleared(s)
      ensures if bug then ListsOk() && old(strayed) else Released(Elements(list)) && Once(list)
      ensures order <= PAGE_ALLOC_COSTLY_ORDER ==> strayed == old(strayed)
    {
      ghost var lru0 := lru;
      ZoneMeans(V(), strayed, {}, nrActive, nrInactive);
      list, scanned, bug := IsolateLruPages(nrToScan, false, order, ModeFor(order), busy);
      if !bug {
        Uncount(list, lru0);
      }
    }

    /** The second pass over pages that the first one left: their active flags are cleared again. */
    method ShrinkAgain(list: seq<Page>, ghost was: set<Page>, fateSync: Page -> Fate)
      returns (rest: seq<Page>, freed: nat)
      requires Released(Elements(list)) && Once(list) && active - Elements(list) == was
      modifies this`active
      ensures Released(Elements(rest)) && Once(rest) && freed + |rest| == |list|
      ensures rest == Survivors(list, fateSync) && active == was + ActivatedOf(rest, fateSync)
    {
      var _ := ClearActiveFlags(list);
      FlagsKeep(old(V()), strayed, Elements(list), active, nrActive, nrInactive);
      rest, freed := ShrinkMine(list, fateSync);
    }

    /** What happens to the isolated pages between two holds of the lock; `again` says that a second,
        synchronous pass is wanted if the first does not free them all. */
    method ShrinkTwice(list: seq<Page>, fate: Page -> Fate, again: bool, fateSync: Page -> Fate)
      returns (rest: seq<Page>, freed: nat)
      requires Released(Elements(list)) && Once(list) && active * Elements(list) == {}
      modifies this`activeList, this`inactiveList, this`lru, this`active, this`nrActive, this`nrInactive
      modifies this`strayed
      ensures Released(Elements(rest)) && Once(rest) && freed + |rest| == |list|
      ensures rest == Remaining(list, fate, again, fateSync)
      ensures quiet ==>
                V() == old(V()).(active := old(active) + ActivatedOf(rest, LastFate(list, fate, again, fateSync)))
      ensures tidy || quiet ==> strayed == old(strayed)
    {
      rest, freed := ShrinkMine(list, fate);
      if freed < |list| && again {
        ClearedAgain(active, list, fate, old(active));
        Unlocked(Elements(rest));
        var more;
        rest, more := ShrinkAgain(rest, active - Elements(rest), fateSync);
        freed := freed + more;
      }
    }

    /** A round from the release of the lock to the end of the put-back loop. */
    method FinishRound(list: seq<Page>, plan: Plan, round: nat, pvec0: nat) returns (freed: nat, pvec: nat)
      requires Released(Elements(list)) && Once(list) && active * Elements(list) == {} && pvec0 < PAGEVEC_SIZE
      modifies this`activeList, this`inactiveList, this`lru, this`active, this`nrActive, this`nrInactive
      modifies this`strayed, this`returned
      ensures Released({}) && pvec < PAGEVEC_SIZE && freed + |KeptIn(plan, round, list)| == |list|
      ensures returned == KeptIn(plan, round, list) + old(returned)
      ensures quiet ==> forall s: Scan :: s.dst == list && s.v == old(V()) ==> V() == ReclaimedFrom(s, plan, round)
      ensures tidy || quiet ==> strayed == old(strayed)
    {
      Unlocked(Elements(list));
      NoneActive(active, list);
      var rest;
      rest, freed := ShrinkTwice(list, plan.fate(round), plan.Again(), plan.fateSync(round));
      pvec := pvec0;
      Unlocked(Elements(rest));
      if list == [] {
        assert rest == [] && Elements(rest) == {};
        PutNothing(V());
        return;
      }
      pvec := PutBack(rest, pvec0);
    }

    /** One round of `shrink_inactive_list`. */
    method InactiveRound(plan: Plan, round: nat, pvec0: nat)
      returns (taken: nat, scanned: nat, freed: nat, pvec: nat, bug: bool)
      requires Released({}) && pvec0 < PAGEVEC_SIZE
      modifies this`activeList, this`inactiveList, this`lru, this`active, this`nrActive, this`nrInactive
      modifies this`strayed, this`returned
      ensures if bug then ListsOk() && old(strayed) else Released({}) && pvec < PAGEVEC_SIZE
      ensures var r := RoundOf(geometry, plan, old(V()), round);
              && bug == r.bug && taken == r.isolated && scanned == r.scanned && freed == r.freed && taken <= scanned
              && (quiet || bug ==> V() == r.v) && returned == r.back + old(returned)
      ensures tidy && plan.order <= PAGE_ALLOC_COSTLY_ORDER ==> strayed == old(strayed)
    {
      var list;
      list, scanned, bug := SnipInactive(plan.swapClusterMax, plan.order, plan.busy(round));
      taken, freed, pvec := 0, 0, pvec0;
      if bug {
        return;
      }
      taken := |list|;
      freed, pvec := FinishRound(list, plan, round, pvec0);
    }

    /** A round, as one after those that began with `starts`. */
    method NextInactive(plan: Plan, pvec0: nat, ghost step: (Lists, nat) -> Reclaim<Lists>, round: nat,
                        ghost starts: seq<Lists>, ghost maxScan: nat, ghost v0: Lists, ghost t: Tally,
                        ghost before: seq<Page>)
      returns (taken: nat, scanned: nat, freed: nat, pvec: nat, bug: bool, ghost t': Tally)
      requires Released({}) && pvec0 < PAGEVEC_SIZE && Plays(step, geometry, plan) && |starts| == round
      requires Underway(step, starts, maxScan, v0, V(), quiet, t) && returned == t.back + before
      modifies this`activeList, this`inactiveList, this`lru, this`active, this`nrActive, this`nrInactive
      modifies this`strayed, this`returned
      ensures if bug then ListsOk() && old(strayed) else Released({}) && pvec < PAGEVEC_SIZE
      ensures t' == Tally(t.scanned + scanned, t.isolated + taken, t.freed + freed, t'.back)
      ensures returned == t'.back + before && |t'.back| == |t.back| + taken - freed
      ensures if bug || taken == 0 || t'.scanned >= maxScan
              then Finished(step, starts + [old(V())], maxScan, v0, V(), quiet, t', bug)
              else Underway(step, starts + [old(V())], maxScan, v0, V(), quiet, t')
      ensures taken <= scanned
      ensures tidy && plan.order <= PAGE_ALLOC_COSTLY_ORDER ==> strayed == old(strayed)
    {
      ghost var v := V();
      ghost var r := RoundPlayed(step, v, round);
      assert r.back + (t.back + before) == (r.back + t.back) + before;
      t' := t.Plus(r);
      taken, scanned, freed, pvec, bug := InactiveRound(plan, round, pvec0);
      RoundAdded(step, starts, maxScan, v0, v, quiet, t, V());
    }

    /** `shrink_inactive_list`. `starts` are the states of the zone when its rounds began, whatever others did
        in between, and `t` is what these rounds add up to: every page isolated in a round is freed or put
        back, and `num_inactive_to_free` grows by exactly the pages freed. A BUG() ends everything; it needs
        an active page on the inactive list. */
    method ShrinkInactiveList(maxScan: nat, plan: Plan, ghost step: (Lists, nat) -> Reclaim<Lists>)
      returns (nrReclaimed: nat, bug: bool, ghost starts: seq<Lists>, ghost t: Tally)
      requires Released({}) && Plays(step, geometry, plan)
      modifies this`activeList, this`inactiveList, this`lru, this`active, this`nrActive, this`nrInactive
      modifies this`strayed, this`returned, this`numInactiveToFree
      ensures if bug then ListsOk() else Released({})
      ensures Finished(step, starts, maxScan, old(V()), V(), quiet, t, bug)
      ensures AllWell(starts, tidy && plan.order <= PAGE_ALLOC_COSTLY_ORDER && !old(strayed))
      ensures nrReclaimed == t.freed && returned == t.back + old(returned) && |t.back| == t.isolated - t.freed
      ensures numInactiveToFree == old(numInactiveToFree) + if bug then 0 else t.freed
      ensures tidy && plan.order <= PAGE_ALLOC_COSTLY_ORDER ==> strayed == old(strayed) && (bug ==> strayed)
    {
      nrReclaimed, bug, starts, t := 0, false, [], Tally(0, 0, 0, []);
      var nrScanned: nat, pvec: nat, round: nat, taken: nat := 0, 0, 0, 1;
      ghost var v0, before := V(), returned;
      while true
        invariant Released({}) && pvec < PAGEVEC_SIZE && |starts| == round
        invariant Underway(step, starts, maxScan, v0, V(), quiet, t)
        invariant nrReclaimed == t.freed && nrScanned == t.scanned
        invariant numInactiveToFree == old(numInactiveToFree)
        invariant returned == t.back + before && |t.back| == t.isolated - t.freed
        invariant AllWell(starts, tidy && plan.order <= PAGE_ALLOC_COSTLY_ORDER && !old(strayed))
        invariant tidy && plan.order <= PAGE_ALLOC_COSTLY_ORDER ==> strayed == old(strayed)
        decreases maxScan - nrScanned
      {
        ghost var v := V();
        ZoneIsWell(v, strayed, {}, nrActive, nrInactive);
        var scanned, freed;
        taken, scanned, freed, pvec, bug, t := NextInactive(plan, pvec, step, round, starts, maxScan, v0, t, before);
        starts := starts + [v];
        nrReclaimed, nrScanned, round := nrReclaimed + freed, nrScanned + scanned, round + 1;
        if bug {
          return;
        }
        if taken == 0 || nrScanned >= maxScan {
          break;
        }
      }
      numInactiveToFree := numInactiveToFree + nrReclaimed;
    }

    /** The referenced bit moves into the counter. */
    method TouchPage(page: Page)
      modifies this`referenced, this`refCnt
      ensures referenced == old(referenced) - {page}
      ensures refCnt == old(refCnt)[page := Touched(RefOf(old(refCnt), page), page in old(referenced))]
    {
      var refBit := if page in referenced then 1 else 0;
      referenced := referenced - {page};
      refCnt := refCnt[page := RefOf(refCnt, page)];
      if (refCnt[page] + refBit) % (ULONG_MAX + 1) > 0 {
        refCnt := refCnt[page := (refCnt[page] + refBit) % (ULONG_MAX + 1)];
      }
    }

    /** The second-chance decision of `shrink_active_list` for one page. */
    method ScanPage(page: Page, pol: Policy) returns (keep: bool)
      modifies this`referenced, this`refCnt
      ensures referenced == old(referenced) - {page}
      ensures var ref := Touched(RefOf(old(refCnt), page), page in old(referenced));
              keep == Keeps(pol, ref, page) && refCnt == old(refCnt)[page := NewRef(pol, ref, page)]
      ensures RefOf(old(refCnt), page) <= ULONG_MAX ==>
                var found := RefOf(old(refCnt), page) + if page in old(referenced) then 1 else 0;
                && (keep <==> pol.mapped(page) && (pol.reclaimMapped && !pol.anonNoSwap(page) ==> found > 0))
                && (pol.mapped(page) && pol.reclaimMapped && !pol.anonNoSwap(page) && 0 < found <= ULONG_MAX ==>
                      refCnt[page] == found - 1)
    {
      ghost var ref := Touched(RefOf(refCnt, page), page in referenced);
      ScanMeans(pol, RefOf(refCnt, page), page in referenced, page);
      TouchPage(page);
      keep := false;
      if pol.mapped(page) {
        if !pol.reclaimMapped || pol.anonNoSwap(page) {
          keep := true;
        } else if refCnt[page] > 0 {
          // cs2456_page_referenced
          refCnt := refCnt[page := refCnt[page] - 1];
          keep := true;
        }
      }
    }

    /** The middle loop of `shrink_active_list`: kept and dropped pages keep their order. */
    method SortHeld(lHold: seq<Page>, pol: Policy) returns (lActive: seq<Page>, lInactive: seq<Page>)
      requires Once(lHold)
      modifies this`referenced, this`refCnt
      ensures lActive == Sorted(lHold, pol, old(refCnt), old(referenced), true)
      ensures lInactive == Sorted(lHold, pol, old(refCnt), old(referenced), false)
      ensures forall p :: p in lHold ==> RefOf(refCnt, p) == Scanned(pol, old(refCnt), old(referenced), p)
      ensures forall p :: p !in lHold ==> RefOf(refCnt, p) == RefOf(old(refCnt), p)
    {
      lActive, lInactive := [], [];
      var k := |lHold|;
      while k > 0
        invariant 0 <= k <= |lHold|
        invariant lActive == Sorted(lHold[k..], pol, old(refCnt), old(referenced), true)
        invariant lInactive == Sorted(lHold[k..], pol, old(refCnt), old(referenced), false)
        invariant forall p :: p in lHold[k..] ==> RefOf(refCnt, p) == Scanned(pol, old(refCnt), old(referenced), p)
        invariant forall p :: p !in lHold[k..] ==>
                    RefOf(refCnt, p) == RefOf(old(refCnt), p) && (p in referenced <==> p in old(referenced))
      {
        k := k - 1;
        var page := lHold[k];
        assert lHold[k..] == [page] + lHold[k + 1..];
        OnceLater(lHold, k);
        var keep := ScanPage(page, pol);
        if keep {
          lActive := [page] + lActive;
        } else {
          lInactive := [page] + lInactive;
        }
      }
    }

    /** What holds under the lock while the counters lag behind the flags. */
    ghost predicate Lagging(mine: set<Page>, lagActive: nat, lagInactive: nat)
      reads this
    {
      ZoneOk(V(), strayed, mine, nrActive + lagActive, nrInactive + lagInactive)
    }

    /** The pages of `held`, the first `n` of `list` among them, are still isolated, and active. */
    ghost predicate Holding(list: seq<Page>, n: nat, held: set<Page>, lagActive: nat, lagInactive: nat)
      reads this
    {
      && Lagging(held, lagActive, lagInactive) && held <= active
      && n <= |list| && forall k :: 0 <= k < n ==> list[k] in held
    }

    /** `__mod_zone_page_state`, then the lock is released for the pages of a full page vector. */
    method Flush(ghost held: set<Page>, pgActive: nat, pgInactive: nat)
      requires Lagging(held, pgActive, pgInactive) && held <= active
      modifies this`activeList, this`inactiveList, this`lru, this`active, this`nrActive, this`nrInactive
      modifies this`strayed
      ensures Released(held) && held <= active
      ensures tidy || quiet ==> strayed == old(strayed)
      ensures quiet ==> activeList == old(activeList) && inactiveList == old(inactiveList)
    {
      nrActive := nrActive + pgActive;
      nrInactive := nrInactive + pgInactive;
      assert active * held == held;
      Unlocked(held);
    }

    /** The loop that moves dropped pages to the inactive list, and keeps the pages of `mine`. */
    method MoveToInactive(list: seq<Page>, ghost held0: set<Page>, ghost mine: set<Page>)
      returns (pvec: nat, pgdeactivate: nat)
      requires Released(held0) && held0 <= active && Once(list) && mine <= held0
      requires forall k :: 0 <= k < |list| ==> list[k] in held0 && list[k] !in mine
      modifies this`activeList, this`inactiveList, this`lru, this`active, this`nrActive, this`nrInactive
      modifies this`strayed, this`returned
      ensures Released(mine) && pvec < PAGEVEC_SIZE && pgdeactivate == |list| && mine <= active
      ensures returned == list + old(returned)
      ensures quiet ==> activeList == old(activeList) && inactiveList == list + old(inactiveList)
      ensures tidy || quiet ==> strayed == old(strayed)
    {
      var n, pgmoved := |list|, 0;
      ghost var held := held0;
      pvec, pgdeactivate := 0, 0;
      while n > 0
        invariant 0 <= n <= |list| && Holding(list, n, held, 0, pgmoved) && mine <= held
        invariant pvec < PAGEVEC_SIZE && pgdeactivate + pgmoved + n == |list|
        invariant returned == list[n..] + old(returned)
        invariant quiet ==> activeList == old(activeList) && inactiveList == list[n..] + old(inactiveList)
        invariant tidy || quiet ==> strayed == old(strayed)
      {
        OneMore(list, n, old(returned));
        OneMore(list, n, old(inactiveList));
        OnceBefore(list, n);
        assert held == held - {list[n - 1]} + {list[n - 1]};
        held := held - {list[n - 1]};
        DropPage(list[n - 1], held, pgmoved);
        n, pgmoved, pvec := n - 1, pgmoved + 1, pvec + 1;
        if pvec == PAGEVEC_SIZE {
          Flush(held, 0, pgmoved);
          pgdeactivate, pgmoved, pvec := pgdeactivate + pgmoved, 0, 0;
        }
      }
      ZoneLess(V(), strayed, held, mine, nrActive, nrInactive + pgmoved);
      nrInactive := nrInactive + pgmoved;
      pgdeactivate := pgdeactivate + pgmoved;
    }

    /** `SetPageLRU`, `ClearPageActive` and `list_move` for one page. */
    method DropPage(page: Page, ghost held: set<Page>, ghost pgmoved: nat)
      requires Lagging(held + {page}, 0, pgmoved) && page !in held && page in active
      modifies this`inactiveList, this`lru, this`active, this`returned
      ensures Lagging(held, 0, pgmoved + 1) && V() == Dropped(old(V()), page) && returned == [page] + old(returned)
    {
      DroppedKeeps(V(), strayed, held, page, nrActive, nrInactive + pgmoved);
      lru, returned := lru + {page}, [page] + returned;
      active := active - {page};
      inactiveList := [page] + inactiveList;
    }

    /** The loop that moves kept pages back to the active list. */
    method MoveToActive(list: seq<Page>, pvec0: nat, ghost held0: set<Page>) returns (pvec: nat)
      requires Released(held0) && held0 <= active && Once(list) && pvec0 < PAGEVEC_SIZE
      requires forall k :: 0 <= k < |list| ==> list[k] in held0
      modifies this`activeList, this`inactiveList, this`lru, this`active, this`nrActive, this`nrInactive
      modifies this`strayed, this`returned
      ensures Released({}) && pvec < PAGEVEC_SIZE && returned == list + old(returned)
      ensures quiet ==> inactiveList == old(inactiveList) && activeList == list + old(activeList)
      ensures tidy || quiet ==> strayed == old(strayed)
    {
      var n, pgmoved := |list|, 0;
      ghost var held := held0;
      pvec := pvec0;
      while n > 0
        invariant 0 <= n <= |list| && Holding(list, n, held, pgmoved, 0) && pvec < PAGEVEC_SIZE
        invariant returned == list[n..] + old(returned)
        invariant quiet ==> inactiveList == old(inactiveList) && activeList == list[n..] + old(activeList)
        invariant tidy || quiet ==> strayed == old(strayed)
      {
        OneMore(list, n, old(returned));
        OneMore(list, n, old(activeList));
        OnceBefore(list, n);
        assert held == held - {list[n - 1]} + {list[n - 1]};
        held := held - {list[n - 1]};
        KeepPage(list[n - 1], held, pgmoved);
        n, pgmoved, pvec := n - 1, pgmoved + 1, pvec + 1;
        if pvec == PAGEVEC_SIZE {
          Flush(held, pgmoved, 0);
          pgmoved, pvec := 0, 0;
        }
      }
      ZoneLess(V(), strayed, held, {}, nrActive + pgmoved, nrInactive);
      nrActive := nrActive + pgmoved;
    }

    /** `SetPageLRU` and `list_move` for one page. */
    method KeepPage(page: Page, ghost held: set<Page>, ghost pgmoved: nat)
      requires Lagging(held + {page}, pgmoved, 0) && page !in held && page in active
      modifies this`activeList, this`lru, this`returned
      ensures Lagging(held, pgmoved + 1, 0) && V() == Added(old(V()), page) && returned == [page] + old(returned)
    {
      AddedKeeps(V(), strayed, held, page, nrActive + pgmoved, nrInactive);
      lru, returned := lru + {page}, [page] + returned;
      activeList := [page] + activeList;
    }

    /** The first part of `shrink_active_list`: snip pages off the active list. */
    method SnipActive(nrPages: nat, order: nat, busy: set<Page>) returns (lHold: seq<Page>)
      requires Released({})
      modifies this`activeList, this`inactiveList, this`lru, this`nrActive, this`strayed
      ensures Released(Elements(lHold)) && Once(lHold) && Elements(lHold) <= active && strayed == old(strayed)
      ensures var s := Isolated(Q(true, order, IsolateActive, busy), Scan(old(V()), [], 0), nrPages);
              lHold == s.dst && V() == s.v
    {
      ghost var lru0 := lru;
      ZoneMeans(V(), strayed, {}, nrActive, nrInactive);
      var pgscanned, bug;
      lHold, pgscanned, bug := IsolateLruPages(nrPages, true, order, Mode.IsolateActive, busy);
      TakenActive(lru0, lru, active, lHold, nrActive, nrInactive);
      nrActive := nrActive - |lHold|;
      ZoneMeans(V(), strayed, Elements(lHold), nrActive, nrInactive);
    }

    /** `shrink_active_list` once the pages are snipped. */
    method SortAndPut(held: seq<Page>, pol: Policy, buffersOverLimit: bool)
      returns (ghost back: seq<Page>, pgdeactivate: nat)
      requires Released(Elements(held)) && Once(held) && Elements(held) <= active
      modifies this`activeList, this`inactiveList, this`lru, this`active, this`nrActive, this`nrInactive
      modifies this`strayed, this`returned, this`referenced, this`refCnt
      ensures Released({}) && returned == back + old(returned)
      ensures SecondChance(held, pol, old(refCnt), old(referenced), refCnt, back, pgdeactivate)
      ensures quiet ==> PutInFront(held, pol, old(refCnt), old(referenced), old(V()), V())
      ensures tidy || quiet ==> strayed == old(strayed)
    {
      SortedOnce(held, pol, refCnt, referenced);
      var lActive, lInactive := SortHeld(held, pol);
      back := lActive + lInactive;
      Flush(Elements(held), 0, 0);
      assert Elements(lActive) + Elements(lInactive) == Elements(held);
      pgdeactivate := PutHeld(lActive, lInactive, buffersOverLimit);
    }

    /** The pages held, and where they went. */
    method SnipAndPut(nrPages: nat, order: nat, busy: set<Page>, pol: Policy, buffersOverLimit: bool)
      returns (ghost lHold: seq<Page>, ghost back: seq<Page>, pgdeactivate: nat)
      requires Released({})
      modifies this`activeList, this`inactiveList, this`lru, this`active, this`nrActive, this`nrInactive
      modifies this`strayed, this`returned, this`referenced, this`refCnt
      ensures Released({}) && returned == back + old(returned)
      ensures tidy || quiet ==> strayed == old(strayed)
      ensures SecondChance(lHold, pol, old(refCnt), old(referenced), refCnt, back, pgdeactivate)
      ensures var s := Isolated(Q(true, order, IsolateActive, busy), Scan(old(V()), [], 0), nrPages);
              lHold == s.dst && (quiet ==> PutInFront(lHold, pol, old(refCnt), old(referenced), s.v, V()))
    {
      var held := SnipActive(nrPages, order, busy);
      lHold := held;
      Flush(Elements(held), 0, 0);
      back, pgdeactivate := SortAndPut(held, pol, buffersOverLimit);
    }

    /** `shrink_active_list`. With nobody in between, at order 0 and without busy pages, it is exactly:
        the kept pages in front of those not scanned, and the dropped ones in front of the inactive list,
        all in their original order. */
    method ShrinkActiveList(nrPages: nat, order: nat, busy: set<Page>, pol: Policy, buffersOverLimit: bool)
      returns (ghost lHold: seq<Page>, ghost back: seq<Page>, pgdeactivate: nat)
      requires Released({})
      modifies this`activeList, this`inactiveList, this`lru, this`active, this`nrActive, this`nrInactive
      modifies this`strayed, this`returned, this`referenced, this`refCnt, this`numActiveToInactive
      ensures Released({})
      ensures tidy || quiet ==> strayed == old(strayed)
      ensures numActiveToInactive == old(numActiveToInactive) + pgdeactivate && returned == back + old(returned)
      ensures SecondChance(lHold, pol, old(refCnt), old(referenced), refCnt, back, pgdeactivate)
      ensures var s := Isolated(Q(true, order, IsolateActive, busy), Scan(old(V()), [], 0), nrPages);
              lHold == s.dst && (quiet ==> PutInFront(lHold, pol, old(refCnt), old(referenced), s.v, V()))
      ensures quiet && order == 0 && busy == {} ==>
                ShrunkExactly(old(activeList), old(inactiveList), nrPages, pol, old(refCnt), old(referenced),
                              lHold, activeList, inactiveList)
    {
      ghost var v0 := V();
      lHold, back, pgdeactivate := SnipAndPut(nrPages, order, busy, pol, buffersOverLimit);
      numActiveToInactive := numActiveToInactive + pgdeactivate;
      if quiet && order == 0 && busy == {} {
        ZoneMeans(v0, old(strayed), {}, old(nrActive), old(nrInactive));
        ShrunkAtOrderZero(geometry, v0, nrPages, pol, old(refCnt), old(referenced), V());
      }
    }

    /** The end of `shrink_active_list`: dropped pages to the inactive list, then kept ones to the active. */
    method PutHeld(lActive: seq<Page>, lInactive: seq<Page>, buffersOverLimit: bool) returns (pgdeactivate: nat)
      requires Released(Elements(lActive) + Elements(lInactive)) && Elements(lActive) !! Elements(lInactive)
      requires Once(lActive) && Once(lInactive) && Elements(lActive) + Elements(lInactive) <= active
      modifies this`activeList, this`inactiveList, this`lru, this`active, this`nrActive, this`nrInactive
      modifies this`strayed, this`returned
      ensures Released({}) && pgdeactivate == |lInactive| && returned == lActive + lInactive + old(returned)
      ensures quiet ==> activeList == lActive + old(activeList) && inactiveList == lInactive + old(inactiveList)
      ensures tidy || quiet ==> strayed == old(strayed)
    {
      var pvec;
      pvec, pgdeactivate := MoveToInactive(lInactive, Elements(lActive) + Elements(lInactive), Elements(lActive));
      if buffersOverLimit {
        Flush(Elements(lActive), 0, 0);
      }
      pvec := MoveToActive(lActive, pvec, Elements(lActive));
    }
  }
}
