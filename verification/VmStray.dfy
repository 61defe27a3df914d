/** When the inactive list and the active flags disagree, and when an isolation answers that with BUG()
    (hw5/vmscan.c:702-779).
 */
module VmStray {
  import opened VmIsolation
  import opened VmLists

  // ----- when the inactive list and the active flags disagree -----

  /** No active page is on the inactive list. */
  ghost predicate Agrees(v: Lists) {
    forall p :: p in v.inactiveList ==> p !in v.active
  }

  /** The active LRU pages that are being freed elsewhere. */
  ghost function BusyActives(q: Request, v: Lists): set<Page> {
    v.lru * v.active * q.busy
  }

  /** Pages that disagree are busy, so they are not taken, and `found` are the busy active pages. */
  ghost predicate OnlyBusyStray(q: Request, v: Lists, found: set<Page>) {
    && BusyActives(q, v) == found
    && forall p :: p in v.inactiveList && p in v.active ==> p in q.busy
  }

  /** One page of the block strays exactly if it is a busy active LRU page. */
  lemma CursorStrays(q: Request, s: Scan, p: Page, found: set<Page>)
    requires q.mode == IsolateBoth && !q.fromActive && OnlyBusyStray(q, s.v, found)
    ensures var r := CursorScan(q, s, p);
            OnlyBusyStray(q, r.v, found) && (Agrees(r.v) <==> Agrees(s.v) && p !in found)
  {
    var r := CursorScan(q, s, p);
    WithoutMembers(s.v.inactiveList, p);
    if Verdict(q, s.v, p) == Busy && p in s.v.active {
      assert p in r.v.inactiveList && p in found;
    }
    if !Agrees(s.v) {
      var x :| x in s.v.inactiveList && x in s.v.active;
      assert x in r.v.inactiveList && x in r.v.active;
    }
  }

  /** A whole block keeps an inactive list that agreed exactly if no busy active LRU page lies in it. */
  lemma BlockStrays(q: Request, s: Scan, page: Page, n: nat, found: set<Page>)
    requires q.mode == IsolateBoth && !q.fromActive && OnlyBusyStray(q, s.v, found)
    ensures var r, start := BlockScan(q, s, page, n), BlockStart(page, q.order);
            && OnlyBusyStray(q, r.v, found)
            && (Agrees(r.v) <==>
                  Agrees(s.v) && forall p :: start <= p < start + n ==> !(InBlock(q, page, p) && p in found))
  {
    var step, bad := StepOf(q, page), (p: Page) => InBlock(q, page, p) && p in found;
    forall t: Scan, p: Page | OnlyBusyStray(q, t.v, found)
      ensures OnlyBusyStray(q, step(t, p).v, found)
      ensures Agrees(step(t, p).v) == (Agrees(t.v) && !bad(p))
    {
      CursorStrays(q, t, p, found);
    }
    WalkSpoils(step, (t: Scan) => OnlyBusyStray(q, t.v, found), (t: Scan) => Agrees(t.v), bad, s,
               BlockStart(page, q.order), n);
    assert forall p {:trigger InBlock(q, page, p)} :: bad(p) <==> InBlock(q, page, p) && p in found;
  }

  lemma TagStrays(q: Request, s: Scan, found: set<Page>)
    requires q.mode == IsolateBoth && !q.fromActive && OnlyBusyStray(q, s.v, found) && s.v.inactiveList != []
    ensures var r := TagScan(q, s); OnlyBusyStray(q, r.v, found) && (Agrees(r.v) <==> Agrees(s.v))
  {
    var list, p := s.v.inactiveList, TagOf(s.v, false);
    var front := list[..|list| - 1];
    assert list == front + [p];
    assert p in list;
    if p !in q.busy {
      assert BusyActives(q, TagScan(q, s).v) == found;
    }
  }

  /** The busy active page `p` lies in the block of the tag page `tag`, before any hole. */
  ghost predicate Meets(q: Request, tag: Page, p: Page) {
    BlockStart(tag, q.order) <= p < BlockStart(tag, q.order) + Power2(q.order) && InBlock(q, tag, p)
  }

  /** The tag pages that `isolate_lru_pages` takes. */
  ghost function TagsTaken(q: Request, s: Scan, nrToScan: nat): set<Page>
    decreases nrToScan - s.scanned
  {
    if Ends(q, s, nrToScan) then {}
    else
      var p := TagOf(s.v, q.fromActive);
      (if p in q.busy then {} else {p}) + TagsTaken(q, RoundScan(q, s), nrToScan)
  }

  lemma RoundStrays(q: Request, s: Scan, found: set<Page>)
    requires q.mode == IsolateBoth && !q.fromActive && OnlyBusyStray(q, s.v, found) && s.v.inactiveList != []
    ensures var r, tag := RoundScan(q, s), TagOf(s.v, false);
            && OnlyBusyStray(q, r.v, found)
            && (Agrees(r.v) <==> Agrees(s.v) && (tag in q.busy || forall p :: Meets(q, tag, p) ==> p !in found))
  {
    var tag := TagOf(s.v, false);
    TagStrays(q, s, found);
    if tag !in q.busy {
      if q.order == 0 {
        assert forall p :: !Meets(q, tag, p);
      } else {
        var t := TagScan(q, s);
        BlockStrays(q, t, tag, Power2(q.order), found);
        assert RoundScan(q, s) == BlockScan(q, t, tag, Power2(q.order));
        if Agrees(BlockScan(q, t, tag, Power2(q.order)).v) {
          assert forall p :: Meets(q, tag, p) ==> p !in found;
        } else if forall p :: Meets(q, tag, p) ==> p !in found {
          assert forall p :: BlockStart(tag, q.order) <= p < BlockStart(tag, q.order) + Power2(q.order) ==>
                   !(InBlock(q, tag, p) && p in found);
        }
      }
    }
  }

  lemma {:induction false} IsolationStrays(q: Request, s: Scan, nrToScan: nat, found: set<Page>)
    requires q.mode == IsolateBoth && !q.fromActive && OnlyBusyStray(q, s.v, found)
    ensures Agrees(Isolated(q, s, nrToScan).v) <==>
              Agrees(s.v) && forall t, p :: t in TagsTaken(q, s, nrToScan) && Meets(q, t, p) ==> p !in found
    decreases nrToScan - s.scanned
  {
    if !Ends(q, s, nrToScan) {
      RoundStrays(q, s, found);
      IsolationStrays(q, RoundScan(q, s), nrToScan, found);
    }
  }

  /** Isolating both kinds of pages from an inactive list that agrees with the flags leaves it so exactly
      when no tag page taken has an active LRU page in its block that is being freed elsewhere. */
  lemma StraysExactly(q: Request, v: Lists, nrToScan: nat)
    requires q.mode == IsolateBoth && !q.fromActive && Agrees(v)
    ensures Agrees(Isolated(q, Scan(v, [], 0), nrToScan).v) <==>
              forall t, p :: t in TagsTaken(q, Scan(v, [], 0), nrToScan) && Meets(q, t, p) ==>
                !(p in v.lru && p in v.active && p in q.busy)
  {
    IsolationStrays(q, Scan(v, [], 0), nrToScan, BusyActives(q, v));
  }

  lemma CursorAgrees(q: Request, s: Scan, p: Page)
    requires q.mode != IsolateBoth && (q.mode == IsolateActive <==> q.fromActive) && Agrees(s.v)
    ensures Agrees(CursorScan(q, s, p).v)
  {
    WithoutMembers(s.v.inactiveList, p);
  }

  /** Isolating only one kind of pages never makes list and flags disagree. */
  lemma {:induction false} OneKindAgrees(q: Request, s: Scan, nrToScan: nat)
    requires q.mode != IsolateBoth && (q.mode == IsolateActive <==> q.fromActive) && Agrees(s.v)
    ensures Agrees(Isolated(q, s, nrToScan).v)
    decreases nrToScan - s.scanned
  {
    if !Ends(q, s, nrToScan) {
      RoundAgrees(q, s);
      OneKindAgrees(q, RoundScan(q, s), nrToScan);
    }
  }

  lemma RoundAgrees(q: Request, s: Scan)
    requires q.mode != IsolateBoth && (q.mode == IsolateActive <==> q.fromActive) && Agrees(s.v)
    requires SourceOf(s.v, q.fromActive) != []
    ensures Agrees(RoundScan(q, s).v)
  {
    var t, tag := TagScan(q, s), TagOf(s.v, q.fromActive);
    assert tag in SourceOf(s.v, q.fromActive);
    assert Agrees(t.v);
    var step := StepOf(q, tag);
    forall x: Scan, p: Page | Agrees(x.v)
      ensures Agrees(step(x, p).v)
    {
      CursorAgrees(q, x, p);
    }
    WalkKeeps(step, (x: Scan) => Agrees(x.v), t, BlockStart(tag, q.order), Power2(q.order));
  }

  /** BUG() is reached exactly when inactive pages are wanted and an active one comes to the end of the
      inactive list before enough is scanned; never from a list that agrees with the flags. */
  lemma BugsExactly(q: Request, s: Scan, nrToScan: nat, lru0: set<Page>)
    requires Sound(q, s, lru0)
    ensures var r := Isolated(q, s, nrToScan);
            && Sound(q, r, lru0)
            && (Bugs(q, r, nrToScan) <==> q.mode == IsolateInactive && r.scanned < nrToScan
                                          && r.v.inactiveList != [] && TagOf(r.v, false) in r.v.active)
            && (Agrees(s.v) ==> !Bugs(q, r, nrToScan))
  {
    IsolationKeeps(q, s, nrToScan, lru0);
    var r := Isolated(q, s, nrToScan);
    if SourceOf(r.v, q.fromActive) != [] {
      TagPage(q, r, lru0);
      assert TagOf(r.v, q.fromActive) in SourceOf(r.v, q.fromActive);
    }
    if Agrees(s.v) && q.mode != IsolateBoth {
      OneKindAgrees(q, s, nrToScan);
    }
  }

  function FreedElsewhere(busy: set<Page>, side: bool): Page -> bool {
    (p: Page) => (p in busy) == side
  }

  /** Some of a list went to the head of its rest, because they are busy, the others were taken, each in their
      order. */
  ghost predicate Rotated(q: Request, list0: seq<Page>, n: nat, list: seq<Page>, dst: seq<Page>)
    requires n <= |list0|
  {
    var k := |list0| - n;
    && list == Filter(list0[k..], FreedElsewhere(q.busy, true)) + list0[..k]
    && dst == Filter(list0[k..], FreedElsewhere(q.busy, false))
  }

  lemma RotatedNext(q: Request, list0: seq<Page>, n: nat, list: seq<Page>, dst: seq<Page>)
    requires n < |list0| && Rotated(q, list0, n, list, dst)
    ensures list != [] && list[|list| - 1] == list0[|list0| - n - 1]
    ensures var p, front := list[|list| - 1], list[..|list| - 1];
            && (p in q.busy ==> Rotated(q, list0, n + 1, [p] + front, dst))
            && (p !in q.busy ==> Rotated(q, list0, n + 1, front, [p] + dst))
  {
    var k := |list0| - n;
    var busy := Filter(list0[k..], FreedElsewhere(q.busy, true));
    assert list0[k - 1..] == [list0[k - 1]] + list0[k..];
    assert list0[..k] == list0[..k - 1] + [list0[k - 1]];
    assert list[..|list| - 1] == busy + list0[..k - 1];
    assert [list0[k - 1]] + (busy + list0[..k - 1]) == ([list0[k - 1]] + busy) + list0[..k - 1];
  }

  /** One page of it. */
  lemma OneRotates(q: Request, list0: seq<Page>, s: Scan)
    requires q.order == 0 && s.scanned < |list0|
    requires Rotated(q, list0, s.scanned, SourceOf(s.v, q.fromActive), s.dst)
    ensures SourceOf(s.v, q.fromActive) != []
    ensures var r := RoundScan(q, s);
            r.scanned == s.scanned + 1 && Rotated(q, list0, r.scanned, SourceOf(r.v, q.fromActive), r.dst)
  {
    var list := SourceOf(s.v, q.fromActive);
    RotatedNext(q, list0, s.scanned, list, s.dst);
    var p, front, r := list[|list| - 1], list[..|list| - 1], TagScan(q, s);
    assert TagOf(s.v, q.fromActive) == p && RoundScan(q, s) == r;
    if p in q.busy {
      assert SourceOf(r.v, q.fromActive) == [p] + front && r.dst == s.dst;
    } else {
      assert SourceOf(r.v, q.fromActive) == front && r.dst == [p] + s.dst;
    }
  }

  /** ... which the invariants survive, without a BUG(). */
  lemma OneStaysSound(q: Request, s: Scan, lru0: set<Page>)
    requires q.order == 0 && Sound(q, s, lru0) && (q.mode == IsolateInactive ==> Agrees(s.v))
    requires SourceOf(s.v, q.fromActive) != []
    ensures var r := RoundScan(q, s);
            !Stuck(q, s.v) && Sound(q, r, lru0) && (q.mode == IsolateInactive ==> Agrees(r.v))
  {
    TagPage(q, s, lru0);
    assert TagOf(s.v, q.fromActive) in SourceOf(s.v, q.fromActive);
    RoundKeeps(q, s, lru0);
    if q.mode == IsolateInactive {
      RoundAgrees(q, s);
    }
  }

  /** An isolation at order 0 that began with `list0` as its source. */
  ghost predicate InOrder(q: Request, list0: seq<Page>, s: Scan, lru0: set<Page>) {
    && q.order == 0 && Sound(q, s, lru0) && (q.mode == IsolateInactive ==> Agrees(s.v))
    && s.scanned <= |list0| && Rotated(q, list0, s.scanned, SourceOf(s.v, q.fromActive), s.dst)
  }

  lemma NextInOrder(q: Request, list0: seq<Page>, s: Scan, lru0: set<Page>)
    requires InOrder(q, list0, s, lru0) && s.scanned < |list0|
    ensures SourceOf(s.v, q.fromActive) != [] && !Stuck(q, s.v)
    ensures RoundScan(q, s).scanned == s.scanned + 1 && InOrder(q, list0, RoundScan(q, s), lru0)
  {
    OneRotates(q, list0, s);
    OneStaysSound(q, s, lru0);
  }

  /** At order 0, scanning `n` pages takes those at the end of the list that nobody frees, in their order, and
      moves the others in front of the rest, in their order. */
  lemma {:induction false} ScansInOrder(q: Request, list0: seq<Page>, s: Scan, n: nat, lru0: set<Page>)
    requires InOrder(q, list0, s, lru0) && s.scanned <= n <= |list0|
    ensures var r := Isolated(q, s, n);
            r.scanned == n && Rotated(q, list0, n, SourceOf(r.v, q.fromActive), r.dst)
    decreases n - s.scanned
  {
    if s.scanned == n {
      assert Isolated(q, s, n) == s;
    } else {
      NextInOrder(q, list0, s, lru0);
      ScansInOrder(q, list0, RoundScan(q, s), n, lru0);
    }
  }

  lemma {:induction false} IsolationKeeps(q: Request, s: Scan, nrToScan: nat, lru0: set<Page>)
    requires Sound(q, s, lru0)
    ensures Sound(q, Isolated(q, s, nrToScan), lru0)
    decreases nrToScan - s.scanned
  {
    if !Ends(q, s, nrToScan) {
      RoundKeeps(q, s, lru0);
      IsolationKeeps(q, RoundScan(q, s), nrToScan, lru0);
    }
  }

  lemma {:induction false} BlockFromZero(order: nat)
    ensures BlockStart(0, order) == 0
  {
    if order > 0 {
      BlockFromZero(order - 1);
    }
  }

  lemma StrayStep(q: Request, t: Scan)
    requires q.order == 4 && q.mode == IsolateBoth && !q.fromActive && q.busy == {1}
    requires q.geometry.zoneId(0) == q.geometry.zoneId(1) && q.geometry.validWithin(1)
    requires t == Scan(Lists([1], [], {1}, {1}), [0], 1)
    ensures BlockStep(q, t, 0, 1) == Scan(Lists([], [1], {1}, {1}), [0], 1)
  {
    BlockFromZero(4);
    assert InBlock(q, 0, 1);
    assert Without([1], 1) == [] && Without([], 1) == [];
  }

  lemma StrayWalk(q: Request, t: Scan)
    requires q.order == 4 && q.mode == IsolateBoth && !q.fromActive && q.busy == {1}
    requires q.geometry.zoneId(0) == q.geometry.zoneId(1) && q.geometry.validWithin(1)
    requires t == Scan(Lists([1], [], {1}, {1}), [0], 1)
    ensures Walk(StepOf(q, 0), t, 0, 2) == Scan(Lists([], [1], {1}, {1}), [0], 1)
  {
    var step := StepOf(q, 0);
    WalkNext(step, t, 0, 0);
    WalkNext(step, t, 0, 1);
    TagSkipped(step, q, 0, t);
    StrayStep(q, t);
    assert StepPlayed(step, t, 1) == BlockStep(q, t, 0, 1);
  }

  /** The block {0, 1} of the tag page 0, with the busy active page 1 in it. */
  lemma StrayBlock(q: Request, t: Scan)
    requires q.order == 4 && q.mode == IsolateBoth && !q.fromActive && q.busy == {1}
    requires q.geometry.zoneId(0) == q.geometry.zoneId(1) && q.geometry.validWithin(1) && !q.geometry.validWithin(2)
    requires t == Scan(Lists([1], [], {1}, {1}), [0], 1)
    ensures BlockScan(q, t, 0, Power2(4)) == Scan(Lists([], [1], {1}, {1}), [0], 1)
  {
    BlockFromZero(4);
    assert Power2(2) == 4;
    NothingBehindHole(StepOf(q, 0), q, t, 0, 2, Power2(4));
    StrayWalk(q, t);
  }

  /** A zone with one inactive and one active page, which is being freed elsewhere, in one block: isolating
      both kinds moves the active page to the inactive list, and the next isolation of inactive pages
      answers it with BUG(). */
  lemma StrayExample(g: Geometry)
    requires g.zoneId(0) == g.zoneId(1) && g.validWithin(1) && !g.validWithin(2)
    ensures var both, one := Request(g, false, 4, IsolateBoth, {1}), Request(g, false, 0, IsolateInactive, {});
            var v, after := Lists([1], [0], {0, 1}, {1}), Lists([], [1], {1}, {1});
            && Agrees(v) && Isolated(both, Scan(v, [], 0), 1) == Scan(after, [0], 1)
            && Bugs(one, Isolated(one, Scan(after, [], 0), 1), 1)
  {
    var q, s := Request(g, false, 4, IsolateBoth, {1}), Scan(Lists([1], [0], {0, 1}, {1}), [], 0);
    var t := Scan(Lists([1], [], {1}, {1}), [0], 1);
    assert TagScan(q, s) == t;
    StrayBlock(q, t);
    var r := Scan(Lists([], [1], {1}, {1}), [0], 1);
    assert RoundScan(q, s) == r;
    assert Isolated(q, r, 1) == r;
  }
}
