/** Pages and the LRU lists of one zone (hw5/vmscan.c): which page is on which list, and counting them.

    A list is a sequence with its head first, so `lru_to_page` takes the last element and `list_add`
    prepends.
 */
module VmLists {
  /** A page is its page frame number. */
  type Page = nat

  datatype Mode = IsolateInactive | IsolateActive | IsolateBoth

  /** What `__isolate_lru_page` returns: 0, -EBUSY, -EINVAL. */
  datatype Isolation = Taken | Busy | Invalid

  /** What `shrink_page_list` does to a page. */
  datatype Fate = Freed | Kept | Activated

  const PAGEVEC_SIZE: nat := 14

  const PAGE_ALLOC_COSTLY_ORDER: nat := 3

  const ULONG_MAX: nat := 0xffff_ffff_ffff_ffff

  function Power2(n: nat): (r: nat)
    ensures r > 0
  {
    if n == 0 then 1 else 2 * Power2(n - 1)
  }

  /** The first page of the aligned block of 2^order pages around a page. */
  function BlockStart(page: Page, order: nat): Page {
    if order == 0 then page else 2 * BlockStart(page / 2, order - 1)
  }

  /** `list_del` of a page, wherever it is linked. */
  function Without(list: seq<Page>, p: Page): seq<Page> {
    if list == [] then [] else if list[0] == p then list[1..] else [list[0]] + Without(list[1..], p)
  }

  lemma {:induction false} WithoutCounts(list: seq<Page>, p: Page)
    ensures multiset(Without(list, p)) == multiset(list) - multiset{p}
    ensures p !in list ==> Without(list, p) == list
  {
    if list != [] {
      assert list == [list[0]] + list[1..];
      WithoutCounts(list[1..], p);
    }
  }

  /** `__isolate_lru_page` on the flags of a page. */
  function IsolationOf(lru: bool, active: bool, busy: bool, mode: Mode): Isolation {
    if !lru then Invalid
    else if mode != IsolateBoth && active != (mode == IsolateActive) then Invalid
    else if busy then Busy
    else Taken
  }

  lemma {:induction false} WithoutMembers(list: seq<Page>, p: Page)
    ensures forall x :: x in Without(list, p) ==> x in list
    ensures forall x :: x != p ==> (x in Without(list, p) <==> x in list)
    ensures multiset(list)[p] <= 1 ==> p !in Without(list, p)
  {
    WithoutCounts(list, p);
    assert multiset(list)[p] <= 1 ==> multiset(Without(list, p))[p] == 0;
    if list != [] {
      assert list == [list[0]] + list[1..];
      WithoutMembers(list[1..], p);
    }
  }

  lemma {:induction false} WithoutAtEnd(front: seq<Page>, p: Page)
    requires p !in front
    ensures Without(front + [p], p) == front
  {
    if front != [] {
      assert (front + [p])[1..] == front[1..] + [p];
      WithoutAtEnd(front[1..], p);
    }
  }

  /** The last page of a list is not linked earlier in it. */
  lemma WithoutLast(list: seq<Page>)
    requires list != [] && multiset(list)[list[|list| - 1]] <= 1
    ensures Without(list, list[|list| - 1]) == list[..|list| - 1]
  {
    var front, p := list[..|list| - 1], list[|list| - 1];
    assert list == front + [p];
    assert multiset(front)[p] == 0;
    WithoutAtEnd(front, p);
  }

  // ----- which page is where -----

  /** A page is on exactly one of the two lists, once, if it has PageLRU set, and on none otherwise. */
  ghost predicate Placed(a: seq<Page>, i: seq<Page>, lru: set<Page>, p: Page) {
    multiset(a)[p] + multiset(i)[p] == if p in lru then 1 else 0
  }

  ghost predicate AllPlaced(a: seq<Page>, i: seq<Page>, lru: set<Page>) {
    forall p {:trigger Placed(a, i, lru, p)} :: Placed(a, i, lru, p)
  }

  /** A page of `before` is either still in `after` or once in `list`. */
  ghost predicate Moved(before: set<Page>, after: set<Page>, list: seq<Page>, p: Page) {
    multiset(list)[p] + (if p in after then 1 else 0) == if p in before then 1 else 0
  }

  ghost predicate AllMoved(before: set<Page>, after: set<Page>, list: seq<Page>) {
    forall p {:trigger Moved(before, after, list, p)} :: Moved(before, after, list, p)
  }

  ghost function Elements(list: seq<Page>): set<Page> {
    set p | p in list
  }

  /** Pages taken off a set one by one are counted once each. */
  lemma TakenCount(before: set<Page>, after: set<Page>, list: seq<Page>)
    requires AllMoved(before, after, list)
    ensures Elements(list) == before - after && |Elements(list)| == |list|
    ensures after == before - Elements(list)
  {
    forall p
      ensures p in list <==> p in before && p !in after
      ensures p in after ==> p in before
      ensures multiset(list)[p] == multiset(Elements(list))[p]
    {
      assert Moved(before, after, list, p);
      assert p in list <==> multiset(list)[p] > 0;
    }
    assert multiset(list) == multiset(Elements(list));
    assert |multiset(Elements(list))| == |Elements(list)|;
    assert |multiset(list)| == |list|;
  }

  /** Taking `gone` off the LRU and clearing its active flags moves the two flag counts like this. */
  lemma CountsAfterTaking(lru: set<Page>, active: set<Page>, gone: set<Page>)
    requires gone <= lru
    ensures |(lru - gone) * (active - gone)| == |lru * active| - |gone * active|
    ensures |(lru - gone) * active| == |lru * active| - |gone * active|
    ensures |(lru - gone) - (active - gone)| == |lru - active| - (|gone| - |gone * active|)
    ensures |(lru - gone) - active| == |lru - active| - (|gone| - |gone * active|)
  {
    assert (lru - gone) * (active - gone) == lru * active - gone * active;
    assert (lru - gone) * active == lru * active - gone * active;
    assert (lru - gone) - (active - gone) == (lru - active) - (gone - active);
    assert (lru - gone) - active == (lru - active) - (gone - active);
    assert gone == gone * active + (gone - active);
    assert lru * active == (lru * active - gone * active) + gone * active;
    assert lru - active == ((lru - active) - (gone - active)) + (gone - active);
  }

  lemma CountsAfterPutting(lru: set<Page>, active: set<Page>, p: Page)
    requires p !in lru
    ensures |(lru + {p}) * active| == |lru * active| + if p in active then 1 else 0
    ensures |(lru + {p}) - active| == |lru - active| + if p in active then 0 else 1
  {
    assert (lru + {p}) * active == if p in active then lru * active + {p} else lru * active;
    assert (lru + {p}) - active == if p in active then lru - active else (lru - active) + {p};
  }

  /** The PageLRU pages with PageActive as given. */
  ghost function Flagged(lru: set<Page>, active: set<Page>, side: bool): set<Page> {
    if side then lru * active else lru - active
  }

  /** NR_ACTIVE or NR_INACTIVE. */
  function Counter(nrActive: int, nrInactive: int, side: bool): int {
    if side then nrActive else nrInactive
  }

  /** Each counter is the number of PageLRU pages with its flag. */
  ghost predicate Counted(lru: set<Page>, active: set<Page>, nrActive: int, nrInactive: int) {
    forall side {:trigger Counter(nrActive, nrInactive, side)} ::
      Counter(nrActive, nrInactive, side) == |Flagged(lru, active, side)|
  }

  lemma CountedMeans(lru: set<Page>, active: set<Page>, nrActive: int, nrInactive: int)
    ensures Counted(lru, active, nrActive, nrInactive) <==> nrActive == |lru * active| && nrInactive == |lru - active|
  {
    if Counted(lru, active, nrActive, nrInactive) {
      assert Counter(nrActive, nrInactive, true) == |Flagged(lru, active, true)|;
      assert Counter(nrActive, nrInactive, false) == |Flagged(lru, active, false)|;
    }
  }

  /** Putting one page on the LRU moves one counter by one. */
  lemma CountedPut(lru: set<Page>, active: set<Page>, nrActive: int, nrInactive: int, p: Page)
    requires Counted(lru, active, nrActive, nrInactive) && p !in lru
    ensures if p in active then Counted(lru + {p}, active, nrActive + 1, nrInactive)
            else Counted(lru + {p}, active, nrActive, nrInactive + 1)
  {
    CountedMeans(lru, active, nrActive, nrInactive);
    CountsAfterPutting(lru, active, p);
    if p in active {
      CountedMeans(lru + {p}, active, nrActive + 1, nrInactive);
    } else {
      CountedMeans(lru + {p}, active, nrActive, nrInactive + 1);
    }
  }

  // ----- pages taken once each -----

  ghost function Times(list: seq<Page>, p: Page): nat { multiset(list)[p] }

  /** No page is twice in the list. */
  ghost predicate Once(list: seq<Page>) {
    forall p {:trigger Times(list, p)} :: Times(list, p) <= 1
  }

  lemma NextElement(list: seq<Page>, k: nat, active: set<Page>)
    requires Once(list) && k < |list|
    ensures list[k] !in Elements(list[..k]) && Elements(list[..k + 1]) == Elements(list[..k]) + {list[k]}
    ensures |Elements(list[..k + 1]) * active| == |Elements(list[..k]) * active| + if list[k] in active then 1 else 0
  {
    var p := list[k];
    assert list == list[..k] + [p] + list[k + 1..];
    assert Times(list, p) <= 1;
    assert multiset(list[..k])[p] == 0;
    assert list[..k + 1] == list[..k] + [p];
    assert Elements(list[..k + 1]) == Elements(list[..k]) + {p};
    assert Elements(list[..k + 1]) * active ==
           if p in active then Elements(list[..k]) * active + {p} else Elements(list[..k]) * active;
  }

  /** `clear_active_flags` has cleared the first `k` flags and counted those that were set. */
  ghost predicate ClearedTo(list: seq<Page>, k: nat, before: set<Page>, active: set<Page>, n: nat)
    requires k <= |list|
  {
    active == before - Elements(list[..k]) && n == |Elements(list[..k]) * before|
  }

  lemma ClearedNone(list: seq<Page>, active: set<Page>)
    ensures ClearedTo(list, 0, active, active, 0)
  {
    assert Elements(list[..0]) == {} && {} * active == {};
  }

  lemma ClearedNext(list: seq<Page>, k: nat, before: set<Page>, active: set<Page>, n: nat)
    requires Once(list) && k < |list| && ClearedTo(list, k, before, active, n)
    ensures if list[k] in active then ClearedTo(list, k + 1, before, active - {list[k]}, n + 1)
            else ClearedTo(list, k + 1, before, active, n)
  {
    NextElement(list, k, before);
  }

  lemma LastElement(list: seq<Page>)
    requires Once(list) && list != []
    ensures var front, p := list[..|list| - 1], list[|list| - 1];
            Once(front) && p !in Elements(front) && Elements(list) == Elements(front) + {p}
  {
    NextElement(list, |list| - 1, {});
    var front, p := list[..|list| - 1], list[|list| - 1];
    assert list[..|list| - 1 + 1] == list == front + [p];
    forall x
      ensures Times(front, x) <= 1
    {
      assert Times(list, x) <= 1;
    }
  }

  /** The pages of a list for which `keep` holds, in order. */
  function Filter(list: seq<Page>, keep: Page -> bool): seq<Page> {
    if list == [] then [] else (if keep(list[0]) then [list[0]] else []) + Filter(list[1..], keep)
  }

  lemma {:induction false} FilterTimes(list: seq<Page>, keep: Page -> bool, p: Page)
    ensures Times(Filter(list, keep), p) == if keep(p) then Times(list, p) else 0
  {
    if list != [] {
      FilterTimes(list[1..], keep, p);
      assert list == [list[0]] + list[1..];
    }
  }

  lemma FilterMembers(list: seq<Page>, keep: Page -> bool)
    ensures Elements(Filter(list, keep)) == set p | p in list && keep(p)
    ensures Once(list) ==> Once(Filter(list, keep))
  {
    forall p
      ensures p in Filter(list, keep) <==> p in list && keep(p)
      ensures Times(Filter(list, keep), p) <= Times(list, p)
    {
      FilterTimes(list, keep, p);
      assert p in Filter(list, keep) <==> Times(Filter(list, keep), p) > 0;
      assert p in list <==> Times(list, p) > 0;
    }
  }

  lemma {:induction false} FilterFewer(list: seq<Page>, keep: Page -> bool)
    ensures |Filter(list, keep)| <= |list|
  {
    if list != [] {
      FilterFewer(list[1..], keep);
    }
  }

  lemma {:induction false} FilterLast(front: seq<Page>, p: Page, keep: Page -> bool)
    ensures Filter(front + [p], keep) == Filter(front, keep) + if keep(p) then [p] else []
  {
    if front == [] {
      assert [] + [p] == [p];
    } else {
      FilterLast(front[1..], p, keep);
      assert (front + [p])[1..] == front[1..] + [p];
    }
  }

  lemma OnceBefore(list: seq<Page>, n: nat)
    requires Once(list) && 0 < n <= |list|
    ensures forall k :: 0 <= k < n - 1 ==> list[k] != list[n - 1]
  {
    forall k | 0 <= k < n - 1
      ensures list[k] != list[n - 1]
    {
      OnceLater(list, k);
      assert list[n - 1] == list[k + 1..][n - 1 - (k + 1)];
    }
  }

  lemma OnceLater(list: seq<Page>, k: nat)
    requires Once(list) && k < |list|
    ensures list[k] !in list[k + 1..]
  {
    var p := list[k];
    assert list == list[..k] + [p] + list[k + 1..];
    assert Times(list, p) <= 1;
    assert multiset(list[k + 1..])[p] == 0;
  }
}
