/** When an isolation of inactive pages answers an active page with BUG() (hw5/vmscan.c:702-779), told from
    the zone before the call.
 */
module VmBug {
  import opened VmIsolation
  import opened VmLists
  import opened VmStray

  // ----- which page stands behind which -----

  /** `b` is linked behind `a`. */
  predicate Behind(list: seq<Page>, a: Page, b: Page) {
    list != [] && if list[0] == a then b in list[1..] else Behind(list[1..], a, b)
  }

  lemma {:induction false} BehindIn(list: seq<Page>, a: Page, b: Page)
    requires Behind(list, a, b)
    ensures a in list && b in list
  {
    if list[0] != a {
      BehindIn(list[1..], a, b);
    }
  }

  /** Unlinking `p` leaves the others in their order. */
  lemma {:induction false} BehindWithout(list: seq<Page>, p: Page, a: Page, b: Page)
    requires p != a && multiset(list)[p] <= 1
    ensures Behind(Without(list, p), a, b) <==> Behind(list, a, b) && b != p
  {
    if list != [] {
      assert list == [list[0]] + list[1..];
      if list[0] == p {
        assert multiset(list[1..])[p] == 0;
        if Behind(list[1..], a, p) {
          BehindIn(list[1..], a, p);
        }
      } else {
        WithoutMembers(list[1..], p);
        assert Without(list, p)[1..] == Without(list[1..], p);
        BehindWithout(list[1..], p, a, b);
      }
    }
  }

  lemma BehindHead(list: seq<Page>, p: Page, a: Page, b: Page)
    requires p != a
    ensures Behind([p] + list, a, b) <==> Behind(list, a, b)
  {
    assert ([p] + list)[1..] == list;
  }

  lemma {:induction false} BehindLast(list: seq<Page>, a: Page)
    requires list != [] && a in list && a != list[|list| - 1]
    ensures Behind(list, a, list[|list| - 1])
  {
    if list[0] != a {
      assert list[1..][|list[1..]| - 1] == list[|list| - 1];
      BehindLast(list[1..], a);
    }
  }

  /** Nothing stands behind the last page. */
  lemma {:induction false} NothingBehindLast(list: seq<Page>, b: Page)
    requires list != [] && multiset(list)[list[|list| - 1]] <= 1
    ensures !Behind(list, list[|list| - 1], b)
  {
    var front, last := list[..|list| - 1], list[|list| - 1];
    assert list == front + [last];
    assert multiset(front)[last] == 0;
    if |list| > 1 {
      assert list[0] in front && list[1..] == front[1..] + [last];
      assert list == [list[0]] + list[1..];
      assert list[1..][|list[1..]| - 1] == last;
      NothingBehindLast(list[1..], b);
    }
  }

  // ----- which pages are met by which -----

  lemma {:induction false} SameBlock(p: Page, x: Page, order: nat)
    ensures BlockStart(p, order) <= p < BlockStart(p, order) + Power2(order)
    ensures BlockStart(p, order) <= x < BlockStart(p, order) + Power2(order) ==>
              BlockStart(x, order) == BlockStart(p, order)
  {
    if order > 0 {
      SameBlock(p / 2, x / 2, order - 1);
    }
  }

  lemma MeetsTransitive(q: Request, t: Page, u: Page, p: Page)
    requires Meets(q, t, u) && Meets(q, u, p) && p != t
    ensures Meets(q, t, p)
  {
    SameBlock(t, u, q.order);
    forall x | BlockStart(t, q.order) <= x <= p && x != t
      ensures q.geometry.validWithin(x)
    {
      if x == u {
        assert BlockStart(t, q.order) <= u <= u;
      }
    }
  }

  // ----- the pages scanned in front of an active one -----

  /** A page that is not busy and stands behind `a` is scanned with `p` in its block. */
  ghost predicate MetBehind(q: Request, list: seq<Page>, a: Page, p: Page) {
    exists t {:trigger Behind(list, a, t)} :: Behind(list, a, t) && t !in q.busy && Meets(q, t, p)
  }

  /** `p` is scanned before the active page `x` comes to the end of the list. A page that is not busy is
      taken, as tag page or in the block of one. A busy page counts only as tag page, so not when a block
      scan has moved it to the head before. */
  ghost predicate IsDue(q: Request, v: Lists, x: Page, p: Page) {
    && p in v.inactiveList && p !in v.active
    && if p in q.busy then Behind(v.inactiveList, x, p) && !MetBehind(q, v.inactiveList, p, p)
       else Behind(v.inactiveList, x, p) || MetBehind(q, v.inactiveList, x, p)
  }

  ghost function Due(q: Request, v: Lists, x: Page): set<Page> {
    set p | p in v.inactiveList && IsDue(q, v, x, p)
  }

  /** `x` is the active page closest to the end of the inactive list. */
  ghost predicate LastActive(v: Lists, x: Page) {
    && x in v.inactiveList && x in v.active
    && forall p {:trigger Behind(v.inactiveList, x, p)} :: Behind(v.inactiveList, x, p) ==> p !in v.active
  }

  // ----- one round -----

  /** An inactive page of the LRU is on the inactive list. */
  lemma InactivePlaced(q: Request, s: Scan, lru0: set<Page>, p: Page)
    requires Sound(q, s, lru0)
    ensures multiset(s.v.inactiveList)[p] <= 1
    ensures p in s.v.inactiveList ==> p in s.v.lru
    ensures p !in s.v.active ==> (p in s.v.inactiveList <==> p in s.v.lru)
  {
    assert Placed(s.v.activeList, s.v.inactiveList, s.v.lru, p);
    assert p in s.v.inactiveList <==> multiset(s.v.inactiveList)[p] > 0;
    assert p in s.v.activeList <==> multiset(s.v.activeList)[p] > 0;
  }

  /** A page of the block that an isolation from the inactive list takes or moves to its head. */
  predicate Movable(q: Request, v: Lists, p: Page) {
    q.mode == IsolateBoth || p !in v.active
  }

  lemma CursorBehind(q: Request, s: Scan, p: Page, lru0: set<Page>, a: Page, b: Page)
    requires Sound(q, s, lru0) && !q.fromActive && (p != a || !Movable(q, s.v, a))
    ensures Behind(CursorScan(q, s, p).v.inactiveList, a, b) <==>
              Behind(s.v.inactiveList, a, b) && !(p == b && Movable(q, s.v, b))
  {
    var list := s.v.inactiveList;
    InactivePlaced(q, s, lru0, p);
    if Verdict(q, s.v, p) == Invalid {
      if p == b && Behind(list, a, b) {
        BehindIn(list, a, b);
      }
    } else {
      BehindWithout(list, p, a, b);
      BehindHead(Without(list, p), p, a, b);
    }
  }

  lemma BlockBehind(q: Request, s: Scan, tag: Page, lru0: set<Page>, a: Page, b: Page)
    requires Sound(q, s, lru0) && !q.fromActive && (Movable(q, s.v, a) ==> !Meets(q, tag, a))
    ensures Behind(BlockScan(q, s, tag, Power2(q.order)).v.inactiveList, a, b) <==>
              Behind(s.v.inactiveList, a, b) && !(Meets(q, tag, b) && Movable(q, s.v, b))
  {
    var step, start, n := StepOf(q, tag), BlockStart(tag, q.order), Power2(q.order);
    var inv := (t: Scan) => Sound(q, t, lru0) && t.v.active == s.v.active;
    var ok := (t: Scan) => Behind(t.v.inactiveList, a, b);
    var bad := (p: Page) => InBlock(q, tag, p) && p == b && Movable(q, s.v, b);
    forall t: Scan, p: Page | inv(t) && start <= p < start + n
      ensures inv(step(t, p)) && ok(step(t, p)) == (ok(t) && !bad(p))
    {
      if InBlock(q, tag, p) {
        CursorKeeps(q, t, p, lru0);
        CursorBehind(q, t, p, lru0, a, b);
      }
    }
    WalkSpoils(step, inv, ok, bad, s, start, n);
    assert Meets(q, tag, b) && Movable(q, s.v, b) <==> start <= b < start + n && bad(b);
  }

  /** A round moves the tag page, and if that is not busy the movable pages of its block; the others stay
      in their order. */
  lemma RoundBehind(q: Request, s: Scan, lru0: set<Page>, a: Page, b: Page)
    requires Sound(q, s, lru0) && !q.fromActive && s.v.inactiveList != [] && !Stuck(q, s.v)
    requires var tag := TagOf(s.v, false); a != tag && (Movable(q, s.v, a) ==> tag in q.busy || !Meets(q, tag, a))
    ensures var tag := TagOf(s.v, false);
            Behind(RoundScan(q, s).v.inactiveList, a, b) <==>
              && Behind(s.v.inactiveList, a, b) && b != tag
              && !(tag !in q.busy && Meets(q, tag, b) && Movable(q, s.v, b))
  {
    var list, tag, t := s.v.inactiveList, TagOf(s.v, false), TagScan(q, s);
    TagPage(q, s, lru0);
    TagKeeps(q, s, lru0);
    InactivePlaced(q, s, lru0, tag);
    BehindWithout(list, tag, a, b);
    BehindHead(Without(list, tag), tag, a, b);
    assert q.order == 0 ==> !Meets(q, tag, b);
    if tag !in q.busy && q.order != 0 {
      BlockBehind(q, t, tag, lru0, a, b);
    }
  }

  /** A page that a round does not move stays on the list. */
  lemma RoundLeaves(q: Request, s: Scan, lru0: set<Page>, x: Page)
    requires Sound(q, s, lru0) && !q.fromActive && x in s.v.inactiveList && !Stuck(q, s.v)
    requires var tag := TagOf(s.v, false); x != tag && (Movable(q, s.v, x) ==> tag in q.busy || !Meets(q, tag, x))
    ensures x in RoundScan(q, s).v.inactiveList
  {
    var tag, t := TagOf(s.v, false), TagScan(q, s);
    var start, n := BlockStart(tag, q.order), Power2(q.order);
    TagPage(q, s, lru0);
    WithoutMembers(s.v.inactiveList, tag);
    if tag !in q.busy && q.order != 0 {
      var step, inv := StepOf(q, tag), (y: Scan) => x in y.v.inactiveList && y.v.active == s.v.active;
      forall y: Scan, p: Page | inv(y) && start <= p < start + n
        ensures inv(step(y, p))
      {
        WithoutMembers(y.v.inactiveList, p);
      }
      WalkKeeps(step, inv, t, start, n);
    }
  }

  lemma RoundLru(q: Request, s: Scan, lru0: set<Page>, p: Page)
    requires Sound(q, s, lru0) && q.mode == IsolateInactive && s.v.inactiveList != [] && !Stuck(q, s.v)
    ensures var r, tag := RoundScan(q, s), TagOf(s.v, false);
            && r.v.active == s.v.active
            && (p in r.v.lru <==>
                  && p in s.v.lru
                  && !(tag !in q.busy && (p == tag || (Meets(q, tag, p) && Verdict(q, s.v, p) == Taken))))
  {
    var tag, t := TagOf(s.v, false), TagScan(q, s);
    TagPage(q, s, lru0);
    assert q.order == 0 ==> !Meets(q, tag, p);
    if tag !in q.busy && q.order != 0 {
      BlockTakesAll(q, t, tag, Power2(q.order), p);
    }
  }

  /** What a round scans: the tag page, and if that is not busy the pages of its block that are not. */
  ghost predicate Scans(q: Request, v: Lists, tag: Page, p: Page) {
    p == tag || (tag !in q.busy && p !in q.busy && Meets(q, tag, p) && p in v.inactiveList && p !in v.active)
  }

  /** A round that may come before `x`: inactive pages are wanted, and the tag page is inactive. */
  ghost predicate Rounding(q: Request, s: Scan, lru0: set<Page>, x: Page) {
    && Sound(q, s, lru0) && q.mode == IsolateInactive && LastActive(s.v, x) && !Stuck(q, s.v)
  }

  /** Everything that stands behind `x` is inactive, the tag page too. */
  lemma TagBehind(q: Request, s: Scan, lru0: set<Page>, x: Page)
    requires Rounding(q, s, lru0, x)
    ensures var tag := TagOf(s.v, false);
            && tag in s.v.inactiveList && tag !in s.v.active && tag != x
            && forall p :: p in s.v.inactiveList && p != tag ==> Behind(s.v.inactiveList, p, tag)
  {
    TagPage(q, s, lru0);
    forall p | p in s.v.inactiveList && p != TagOf(s.v, false)
      ensures Behind(s.v.inactiveList, p, TagOf(s.v, false))
    {
      BehindLast(s.v.inactiveList, p);
    }
  }

  /** A page the round scans was due, and is gone or at the head of the list. */
  lemma ScannedWasDue(q: Request, s: Scan, lru0: set<Page>, x: Page, p: Page)
    requires Rounding(q, s, lru0, x) && Scans(q, s.v, TagOf(s.v, false), p)
    ensures IsDue(q, s.v, x, p) && !IsDue(q, RoundScan(q, s).v, x, p)
  {
    var list, tag := s.v.inactiveList, TagOf(s.v, false);
    TagBehind(q, s, lru0, x);
    assert Behind(list, x, tag);
    if p == tag && p in q.busy {
      InactivePlaced(q, s, lru0, tag);
      forall t
        ensures !Behind(list, tag, t)
      {
        NothingBehindLast(list, t);
      }
      RoundBehind(q, s, lru0, x, tag);
    } else {
      RoundLru(q, s, lru0, p);
      InactivePlaced(q, s, lru0, p);
      RoundKeeps(q, s, lru0);
      InactivePlaced(q, RoundScan(q, s), lru0, p);
    }
  }

  /** Whom a remaining page was met by, it still is met by. */
  lemma MetStays(q: Request, s: Scan, lru0: set<Page>, x: Page, a: Page, p: Page)
    requires Rounding(q, s, lru0, x)
    requires var tag := TagOf(s.v, false); a != tag && p != tag && (tag in q.busy || !Meets(q, tag, p))
    requires a == x || a == p
    ensures MetBehind(q, RoundScan(q, s).v.inactiveList, a, p) <==> MetBehind(q, s.v.inactiveList, a, p)
  {
    var list, list', tag := s.v.inactiveList, RoundScan(q, s).v.inactiveList, TagOf(s.v, false);
    forall t
      ensures Behind(list', a, t) && t !in q.busy && Meets(q, t, p) <==>
                Behind(list, a, t) && t !in q.busy && Meets(q, t, p)
    {
      RoundBehind(q, s, lru0, a, t);
      if Meets(q, tag, t) && Meets(q, t, p) {
        MeetsTransitive(q, tag, t, p);
      }
    }
  }

  lemma OthersStayDue(q: Request, s: Scan, lru0: set<Page>, x: Page, p: Page)
    requires Rounding(q, s, lru0, x) && !Scans(q, s.v, TagOf(s.v, false), p)
    ensures IsDue(q, RoundScan(q, s).v, x, p) <==> IsDue(q, s.v, x, p)
  {
    var list, r, tag := s.v.inactiveList, RoundScan(q, s), TagOf(s.v, false);
    TagBehind(q, s, lru0, x);
    RoundLru(q, s, lru0, p);
    InactivePlaced(q, s, lru0, p);
    RoundKeeps(q, s, lru0);
    InactivePlaced(q, r, lru0, p);
    RoundBehind(q, s, lru0, x, p);
    if p in list && p !in s.v.active {
      if tag in q.busy || !Meets(q, tag, p) {
        MetStays(q, s, lru0, x, x, p);
        MetStays(q, s, lru0, x, p, p);
      } else {
        assert Behind(list, p, tag);
      }
    }
  }

  lemma ActiveStaysLast(q: Request, s: Scan, lru0: set<Page>, x: Page)
    requires Rounding(q, s, lru0, x)
    ensures LastActive(RoundScan(q, s).v, x)
  {
    var list, r, tag := s.v.inactiveList, RoundScan(q, s), TagOf(s.v, false);
    TagBehind(q, s, lru0, x);
    RoundLru(q, s, lru0, x);
    forall p | Behind(r.v.inactiveList, x, p)
      ensures p !in r.v.active
    {
      RoundBehind(q, s, lru0, x, p);
    }
    assert Behind(list, x, tag);
    RoundLeaves(q, s, lru0, x);
  }

  /** Each round scans as many pages as it removes from those due. */
  lemma RoundDue(q: Request, s: Scan, lru0: set<Page>, x: Page)
    requires Rounding(q, s, lru0, x)
    ensures var r := RoundScan(q, s); r.scanned + |Due(q, r.v, x)| == s.scanned + |Due(q, s.v, x)|
  {
    var r, tag := RoundScan(q, s), TagOf(s.v, false);
    var gone := set p | p in s.v.inactiveList && Scans(q, s.v, tag, p);
    TagBehind(q, s, lru0, x);
    assert Due(q, r.v, x) == Due(q, s.v, x) - gone && gone <= Due(q, s.v, x) by {
      forall p
        ensures p in Due(q, r.v, x) <==> p in Due(q, s.v, x) && p !in gone
        ensures p in gone ==> p in Due(q, s.v, x)
      {
        if Scans(q, s.v, tag, p) {
          ScannedWasDue(q, s, lru0, x, p);
        } else {
          OthersStayDue(q, s, lru0, x, p);
        }
      }
    }
    GoneCount(q, s, lru0, x, gone);
  }

  lemma GoneCount(q: Request, s: Scan, lru0: set<Page>, x: Page, gone: set<Page>)
    requires Rounding(q, s, lru0, x) && gone == set p | p in s.v.inactiveList && Scans(q, s.v, TagOf(s.v, false), p)
    ensures RoundScan(q, s).scanned == s.scanned + |gone|
  {
    var r, tag := RoundScan(q, s), TagOf(s.v, false);
    TagBehind(q, s, lru0, x);
    if tag in q.busy {
      assert gone == {tag};
    } else {
      RoundKeeps(q, s, lru0);
      forall p
        ensures p in gone <==> p in s.v.lru && p !in r.v.lru
        ensures p in r.v.lru ==> p in s.v.lru
      {
        RoundLru(q, s, lru0, p);
        InactivePlaced(q, s, lru0, p);
      }
      assert gone == s.v.lru - r.v.lru;
      TakenCount(lru0, s.v.lru, s.dst);
      TakenCount(lru0, r.v.lru, r.dst);
      assert lru0 - r.v.lru == (lru0 - s.v.lru) + gone;
      assert |r.dst| == |s.dst| + |gone|;
      if q.order != 0 {
        BlockCounts(q, TagScan(q, s), tag, Power2(q.order));
      }
    }
  }

  lemma {:induction false} DueDecides(q: Request, s: Scan, nrToScan: nat, lru0: set<Page>, x: Page)
    requires Sound(q, s, lru0) && q.mode == IsolateInactive && LastActive(s.v, x)
    ensures Bugs(q, Isolated(q, s, nrToScan), nrToScan) <==> s.scanned + |Due(q, s.v, x)| < nrToScan
    decreases nrToScan - s.scanned
  {
    if Stuck(q, s.v) {
      NoneDue(q, s, lru0, x);
    } else if !Ends(q, s, nrToScan) {
      ActiveStaysLast(q, s, lru0, x);
      RoundDue(q, s, lru0, x);
      RoundKeeps(q, s, lru0);
      DueDecides(q, RoundScan(q, s), nrToScan, lru0, x);
    }
  }

  lemma NoneDue(q: Request, s: Scan, lru0: set<Page>, x: Page)
    requires Sound(q, s, lru0) && q.mode == IsolateInactive && LastActive(s.v, x) && Stuck(q, s.v)
    ensures Due(q, s.v, x) == {}
  {
    var list := s.v.inactiveList;
    TagPage(q, s, lru0);
    if x != TagOf(s.v, false) {
      BehindLast(list, x);
    }
    InactivePlaced(q, s, lru0, x);
    forall p
      ensures !Behind(list, x, p)
    {
      NothingBehindLast(list, p);
    }
  }

  lemma {:induction false} FindLast(list: seq<Page>, active: set<Page>) returns (k: nat)
    requires exists p :: p in list && p in active
    ensures k < |list| && list[k] in active && forall j :: k < j < |list| ==> list[j] !in active
  {
    k := |list| - 1;
    if list[k] !in active {
      assert list == list[..k] + [list[k]];
      k := FindLast(list[..k], active);
    }
  }

  lemma OnceTail(list: seq<Page>, k: nat)
    requires Once(list) && k <= |list|
    ensures Once(list[k..])
  {
    forall p
      ensures Times(list[k..], p) <= 1
    {
      assert list == list[..k] + list[k..] && Times(list, p) <= 1;
    }
  }

  lemma {:induction false} BehindAt(list: seq<Page>, k: nat, b: Page)
    requires Once(list) && k < |list|
    ensures Behind(list, list[k], b) <==> b in list[k + 1..]
  {
    if k > 0 {
      OnceLater(list, 0);
      assert list[k] == list[1..][k - 1];
      OnceTail(list, 1);
      BehindAt(list[1..], k - 1, b);
      assert list[1..][k..] == list[k + 1..];
    }
  }

  lemma {:induction false} OnceSize(list: seq<Page>)
    requires Once(list)
    ensures |Elements(list)| == |list|
  {
    if list != [] {
      OnceTail(list, 1);
      OnceLater(list, 0);
      OnceSize(list[1..]);
      assert Elements(list) == {list[0]} + Elements(list[1..]);
    }
  }

  // ----- the whole isolation -----

  /** An isolation of inactive pages reaches BUG(). */
  ghost predicate ReachesBug(q: Request, v: Lists, nrToScan: nat) {
    Bugs(q, Isolated(q, Scan(v, [], 0), nrToScan), nrToScan)
  }

  lemma ListedOnce(v: Lists)
    requires Wellformed(v)
    ensures Once(v.inactiveList)
  {
    forall p
      ensures Times(v.inactiveList, p) <= 1
    {
      assert Placed(v.activeList, v.inactiveList, v.lru, p);
    }
  }

  /** A list that disagrees with the flags has a last active page. */
  lemma HasLastActive(v: Lists) returns (k: nat)
    requires Wellformed(v) && !Agrees(v)
    ensures k < |v.inactiveList| && LastActive(v, v.inactiveList[k]) && Once(v.inactiveList)
    ensures forall j :: k < j < |v.inactiveList| ==> v.inactiveList[j] !in v.active
  {
    ListedOnce(v);
    k := FindLast(v.inactiveList, v.active);
    forall p
      ensures Behind(v.inactiveList, v.inactiveList[k], p) <==> p in v.inactiveList[k + 1..]
    {
      BehindAt(v.inactiveList, k, p);
    }
  }

  /** An isolation of inactive pages, at any order, reaches BUG() exactly when an active page is on the
      inactive list and the pages due before the last such page are fewer than those to scan. */
  lemma BugsWhenDue(q: Request, v: Lists, nrToScan: nat)
    requires q.mode == IsolateInactive && !q.fromActive && Wellformed(v)
    ensures ReachesBug(q, v, nrToScan) <==> exists x :: LastActive(v, x) && |Due(q, v, x)| < nrToScan
  {
    NothingMoved(v.lru);
    if Agrees(v) {
      BugsExactly(q, Scan(v, [], 0), nrToScan, v.lru);
    } else {
      var k := HasLastActive(v);
      forall x | LastActive(v, x)
        ensures ReachesBug(q, v, nrToScan) <==> |Due(q, v, x)| < nrToScan
      {
        DueDecides(q, Scan(v, [], 0), nrToScan, v.lru, x);
      }
    }
  }

  /** So a list that agrees with the flags is safe whatever is scanned, and scanning the whole of one that
      does not reaches BUG(). */
  lemma BugsInWholeList(q: Request, v: Lists, nrToScan: nat)
    requires q.mode == IsolateInactive && !q.fromActive && Wellformed(v)
    ensures ReachesBug(q, v, nrToScan) ==> !Agrees(v)
    ensures nrToScan >= |v.inactiveList| ==> (ReachesBug(q, v, nrToScan) <==> !Agrees(v))
  {
    BugsWhenDue(q, v, nrToScan);
    if !Agrees(v) {
      var k := HasLastActive(v);
      var x := v.inactiveList[k];
      OnceSize(v.inactiveList);
      assert Due(q, v, x) <= Elements(v.inactiveList) - {x};
      Fewer(Due(q, v, x), Elements(v.inactiveList) - {x});
    }
  }

  lemma {:induction false} Fewer(a: set<Page>, b: set<Page>)
    requires a <= b
    ensures |a| <= |b|
  {
    assert b == a + (b - a);
  }

  /** At order 0 an isolation of inactive pages reaches BUG() exactly when one of the pages to scan, at the
      end of the inactive list, is active. */
  lemma BugsAtOrderZero(q: Request, v: Lists, nrToScan: nat)
    requires q.order == 0 && q.mode == IsolateInactive && !q.fromActive && Wellformed(v)
    ensures ReachesBug(q, v, nrToScan) <==>
              exists k :: 0 <= k < |v.inactiveList| && |v.inactiveList| - nrToScan <= k && v.inactiveList[k] in v.active
  {
    NothingMoved(v.lru);
    BugsWhenDue(q, v, nrToScan);
    if !Agrees(v) {
      var k := HasLastActive(v);
      DueAtOrderZero(q, v, k);
      DueDecides(q, Scan(v, [], 0), nrToScan, v.lru, v.inactiveList[k]);
    }
  }

  lemma DueAtOrderZero(q: Request, v: Lists, k: nat)
    requires q.order == 0 && k < |v.inactiveList| && LastActive(v, v.inactiveList[k]) && Once(v.inactiveList)
    ensures |Due(q, v, v.inactiveList[k])| == |v.inactiveList| - k - 1
  {
    var list, x := v.inactiveList, v.inactiveList[k];
    forall p
      ensures IsDue(q, v, x, p) <==> p in list[k + 1..]
    {
      BehindAt(list, k, p);
      assert forall t :: !Meets(q, t, p);
    }
    assert Due(q, v, x) == Elements(list[k + 1..]);
    OnceTail(list, k + 1);
    OnceSize(list[k + 1..]);
  }

  // ----- and of an isolation of both kinds -----

  /** The pages of the inactive list that may become tag pages that are taken. */
  ghost function NotBusy(q: Request, v: Lists): set<Page> {
    set p | p in v.inactiveList && p !in q.busy
  }

  /** No page that is not busy comes to the inactive list. */
  lemma NoneComes(q: Request, s: Scan, found: set<Page>)
    requires !q.fromActive && s.v.inactiveList != [] && NotBusy(q, s.v) <= found
    ensures NotBusy(q, RoundScan(q, s).v) <= found
  {
    var list, tag := s.v.inactiveList, TagOf(s.v, false);
    var step, inv := StepOf(q, tag), (t: Scan) => NotBusy(q, t.v) <= found;
    assert list == list[..|list| - 1] + [tag];
    forall t: Scan, p: Page | inv(t)
      ensures inv(step(t, p))
    {
      WithoutMembers(t.v.inactiveList, p);
    }
    WalkKeeps(step, inv, TagScan(q, s), BlockStart(tag, q.order), Power2(q.order));
  }

  lemma {:induction false} TagsNotBusy(q: Request, s: Scan, nrToScan: nat, found: set<Page>)
    requires !q.fromActive && NotBusy(q, s.v) <= found
    ensures TagsTaken(q, s, nrToScan) <= found
    ensures forall t :: t in TagsTaken(q, s, nrToScan) ==> t !in q.busy
    decreases nrToScan - s.scanned
  {
    if !Ends(q, s, nrToScan) {
      NoneComes(q, s, found);
      TagsNotBusy(q, RoundScan(q, s), nrToScan, found);
    }
  }

  ghost function AllBehind(list: seq<Page>, a: Page): set<Page> {
    set p | p in list && Behind(list, a, p)
  }

  /** A round that leaves a page alone takes the tag page from behind it. */
  lemma LessBehind(q: Request, s: Scan, lru0: set<Page>, t: Page)
    requires Sound(q, s, lru0) && !q.fromActive && t in s.v.inactiveList && !Stuck(q, s.v)
    requires var tag := TagOf(s.v, false); t != tag && (tag in q.busy || !Meets(q, tag, t))
    ensures |AllBehind(RoundScan(q, s).v.inactiveList, t)| < |AllBehind(s.v.inactiveList, t)|
  {
    var list, list', tag := s.v.inactiveList, RoundScan(q, s).v.inactiveList, TagOf(s.v, false);
    BehindLast(list, t);
    forall p | p in AllBehind(list', t)
      ensures p in AllBehind(list, t) - {tag}
    {
      RoundBehind(q, s, lru0, t, p);
      BehindIn(list, t, p);
    }
    Fewer(AllBehind(list', t), AllBehind(list, t) - {tag});
  }

  /** With enough to scan, every page of the inactive list that is not busy is taken as tag page or lies in
      the block of one. */
  lemma {:induction false} TagComes(q: Request, s: Scan, lru0: set<Page>, t: Page) returns (n: nat, tag: Page)
    requires Sound(q, s, lru0) && q.mode == IsolateBoth && t in NotBusy(q, s.v)
    ensures tag in TagsTaken(q, s, n) && (tag == t || Meets(q, tag, t))
    decreases |AllBehind(s.v.inactiveList, t)|
  {
    var last, r := TagOf(s.v, false), RoundScan(q, s);
    TagPage(q, s, lru0);
    if last !in q.busy && (last == t || Meets(q, last, t)) {
      n, tag := s.scanned + 1, last;
    } else {
      LessBehind(q, s, lru0, t);
      RoundLeaves(q, s, lru0, t);
      RoundKeeps(q, s, lru0);
      n, tag := TagComes(q, r, lru0, t);
    }
  }

  /** The busy active LRU page `p` lies in the block of a page on the inactive list that is not busy. */
  ghost predicate Exposed(q: Request, v: Lists, t: Page, p: Page) {
    && t in v.inactiveList && t !in q.busy && Meets(q, t, p)
    && p in v.lru && p in v.active && p in q.busy
  }

  lemma ExposedStrays(q: Request, v: Lists, t: Page, p: Page) returns (n: nat)
    requires q.mode == IsolateBoth && !q.fromActive && Wellformed(v) && Agrees(v) && Exposed(q, v, t, p)
    ensures !Agrees(Isolated(q, Scan(v, [], 0), n).v)
  {
    var s, tag := Scan(v, [], 0), t;
    NothingMoved(v.lru);
    n, tag := TagComes(q, s, v.lru, t);
    TagsNotBusy(q, s, n, NotBusy(q, v));
    if tag != t {
      MeetsTransitive(q, tag, t, p);
    }
    StraysExactly(q, v, n);
  }

  lemma NoneExposed(q: Request, v: Lists, n: nat)
    requires q.mode == IsolateBoth && !q.fromActive && Agrees(v)
    requires forall t, p :: !Exposed(q, v, t, p)
    ensures Agrees(Isolated(q, Scan(v, [], 0), n).v)
  {
    StraysExactly(q, v, n);
    TagsNotBusy(q, Scan(v, [], 0), n, NotBusy(q, v));
    forall t, p | t in TagsTaken(q, Scan(v, [], 0), n) && Meets(q, t, p)
      ensures !(p in v.lru && p in v.active && p in q.busy)
    {
      assert !Exposed(q, v, t, p);
    }
  }

  /** Isolating both kinds of pages from an inactive list that agrees with the flags leaves it so, whatever is
      scanned, exactly when no page on it that is not busy has a busy active LRU page in its block. */
  lemma StraysEver(q: Request, v: Lists)
    requires q.mode == IsolateBoth && !q.fromActive && Wellformed(v) && Agrees(v)
    ensures (forall n: nat :: Agrees(Isolated(q, Scan(v, [], 0), n).v)) <==> forall t, p :: !Exposed(q, v, t, p)
  {
    if t, p :| Exposed(q, v, t, p) {
      var n := ExposedStrays(q, v, t, p);
    } else {
      forall n: nat
        ensures Agrees(Isolated(q, Scan(v, [], 0), n).v)
      {
        NoneExposed(q, v, n);
      }
    }
  }
}
