/** The reference-counter second chance of `shrink_active_list` (hw5/vmscan.c:1064-1208), as functions on
    the pages held.
 */
module VmChance {
  import opened VmIsolation
  import opened VmLists
  import opened VmStray

  // ----- the second chance -----

  /** What decides over a page: whether mapped pages may be reclaimed at all, which pages are mapped, and
      which are anonymous while there is no swap. */
  datatype Policy = Policy(reclaimMapped: bool, mapped: Page -> bool, anonNoSwap: Page -> bool)

  function RefOf(refCnt: map<Page, nat>, p: Page): nat {
    if p in refCnt then refCnt[p] else 0
  }

  /** The reference counter once the referenced bit is added to it. */
  function Touched(ref: nat, bit: bool): nat {
    var sum := (ref + if bit then 1 else 0) % (ULONG_MAX + 1);
    if sum > 0 then sum else ref
  }

  /** The counter saturates instead of wrapping. */
  lemma TouchedSaturates(ref: nat, bit: bool)
    requires ref <= ULONG_MAX
    ensures Touched(ref, bit) == if bit && ref < ULONG_MAX then ref + 1 else ref
  {
    if ref == ULONG_MAX && bit {
      assert (ref + 1) % (ULONG_MAX + 1) == 0;
    } else {
      assert (ref + if bit then 1 else 0) % (ULONG_MAX + 1) == ref + if bit then 1 else 0;
    }
  }

  predicate Keeps(pol: Policy, ref: nat, p: Page) {
    pol.mapped(p) && (!pol.reclaimMapped || pol.anonNoSwap(p) || ref > 0)
  }

  /** Only a counter that decides is counted down. */
  function NewRef(pol: Policy, ref: nat, p: Page): nat {
    if pol.mapped(p) && pol.reclaimMapped && !pol.anonNoSwap(p) && ref > 0 then ref - 1 else ref
  }

  /** What a scan that finds the counter `c` and the referenced bit decides. */
  lemma ScanMeans(pol: Policy, c: nat, bit: bool, p: Page)
    ensures c <= ULONG_MAX ==>
              var ref, found := Touched(c, bit), c + if bit then 1 else 0;
              && (Keeps(pol, ref, p) <==> pol.mapped(p) && (pol.reclaimMapped && !pol.anonNoSwap(p) ==> found > 0))
              && (pol.mapped(p) && pol.reclaimMapped && !pol.anonNoSwap(p) && 0 < found <= ULONG_MAX ==>
                    NewRef(pol, ref, p) == found - 1)
  {
    if c <= ULONG_MAX {
      TouchedSaturates(c, bit);
    }
  }

  function Scanned(pol: Policy, refCnt: map<Page, nat>, referenced: set<Page>, p: Page): nat {
    NewRef(pol, Touched(RefOf(refCnt, p), p in referenced), p)
  }

  /** Does the scan keep the page, given the counters and referenced bits it begins with? */
  predicate KeptBy(pol: Policy, refCnt: map<Page, nat>, referenced: set<Page>, p: Page) {
    Keeps(pol, Touched(RefOf(refCnt, p), p in referenced), p)
  }

  function Verdicts(pol: Policy, refCnt: map<Page, nat>, referenced: set<Page>, kept: bool): Page -> bool {
    (p: Page) => KeptBy(pol, refCnt, referenced, p) == kept
  }

  /** The pages of a list that are kept, or those that are dropped, in order. */
  function Sorted(list: seq<Page>, pol: Policy, refCnt: map<Page, nat>, referenced: set<Page>, kept: bool): seq<Page> {
    Filter(list, Verdicts(pol, refCnt, referenced, kept))
  }

  /** Kept and dropped pages partition the held ones. */
  lemma SortedOnce(list: seq<Page>, pol: Policy, refCnt: map<Page, nat>, referenced: set<Page>)
    requires Once(list)
    ensures var kept := Sorted(list, pol, refCnt, referenced, true);
            var dropped := Sorted(list, pol, refCnt, referenced, false);
            && Once(kept) && Once(dropped) && Elements(kept) !! Elements(dropped)
            && Elements(kept) + Elements(dropped) == Elements(list)
  {
    SortedMembers(list, pol, refCnt, referenced, true);
    SortedMembers(list, pol, refCnt, referenced, false);
  }

  lemma SortedMembers(list: seq<Page>, pol: Policy, refCnt: map<Page, nat>, referenced: set<Page>, kept: bool)
    ensures var r := Sorted(list, pol, refCnt, referenced, kept);
            && Elements(r) == (set p | p in list && KeptBy(pol, refCnt, referenced, p) == kept)
            && (Once(list) ==> Once(r))
  {
    FilterMembers(list, Verdicts(pol, refCnt, referenced, kept));
  }

  /** The counter after `n` scans without new references. */
  function RefAfter(pol: Policy, ref: nat, p: Page, n: nat): nat {
    if n == 0 then ref else NewRef(pol, Touched(RefAfter(pol, ref, p, n - 1), false), p)
  }

  /** A mapped page that may be reclaimed, with counter `c` and no new references, survives exactly `c`
      scans. */
  lemma {:induction false} SurvivesExactly(pol: Policy, c: nat, p: Page, n: nat)
    requires c <= ULONG_MAX && pol.mapped(p) && pol.reclaimMapped && !pol.anonNoSwap(p) && n <= c
    ensures RefAfter(pol, c, p, n) == c - n
    ensures Keeps(pol, Touched(RefAfter(pol, c, p, n), false), p) <==> n < c
  {
    if n > 0 {
      SurvivesExactly(pol, c, p, n - 1);
      TouchedSaturates(RefAfter(pol, c, p, n - 1), false);
    }
    TouchedSaturates(RefAfter(pol, c, p, n), false);
  }

  // ----- any number of scans, with any references in between -----

  function CountTrue(bits: seq<bool>): nat {
    if bits == [] then 0 else CountTrue(bits[..|bits| - 1]) + if bits[|bits| - 1] then 1 else 0
  }

  /** The counter after scans that found these referenced bits. */
  function RefThrough(pol: Policy, ref: nat, p: Page, bits: seq<bool>): nat {
    if bits == [] then ref
    else NewRef(pol, Touched(RefThrough(pol, ref, p, bits[..|bits| - 1]), bits[|bits| - 1]), p)
  }

  /** What the next scan says to a page after scans that found `bits`, when it finds `bit`. */
  predicate KeptNext(pol: Policy, ref: nat, p: Page, bits: seq<bool>, bit: bool) {
    Keeps(pol, Touched(RefThrough(pol, ref, p, bits), bit), p)
  }

  /** A mapped page that may not be reclaimed is kept by every scan, and its counter never falls. */
  lemma {:induction false} NeverDropped(pol: Policy, ref: nat, p: Page, bits: seq<bool>, bit: bool)
    requires ref <= ULONG_MAX && pol.mapped(p) && (!pol.reclaimMapped || pol.anonNoSwap(p))
    ensures KeptNext(pol, ref, p, bits, bit) && ref <= RefThrough(pol, ref, p, bits) <= ULONG_MAX
  {
    if bits != [] {
      var n := |bits| - 1;
      NeverDropped(pol, ref, p, bits[..n], bits[n]);
      TouchedSaturates(RefThrough(pol, ref, p, bits[..n]), bits[n]);
    }
  }

  /** A page that is not mapped is dropped by the first scan, whatever its counter. */
  lemma UnmappedDropped(pol: Policy, ref: nat, p: Page, bit: bool)
    requires !pol.mapped(p)
    ensures !KeptNext(pol, ref, p, [], bit)
  {
  }

  /** With every scan so far paid for by the counter or by a reference, what is left of the counter is what was
      not used up, and the next scan keeps the page exactly if it is paid for too. */
  lemma {:induction false} SurvivesReferenced(pol: Policy, c: nat, p: Page, bits: seq<bool>, bit: bool)
    requires pol.mapped(p) && pol.reclaimMapped && !pol.anonNoSwap(p) && c + |bits| < ULONG_MAX
    requires forall n :: 0 <= n <= |bits| ==> c + CountTrue(bits[..n]) >= n
    ensures RefThrough(pol, c, p, bits) == c + CountTrue(bits) - |bits|
    ensures KeptNext(pol, c, p, bits, bit) <==> c + CountTrue(bits + [bit]) >= |bits| + 1
  {
    assert bits[..|bits|] == bits && (bits + [bit])[..|bits|] == bits;
    AtMostLength(bits);
    if bits != [] {
      var n := |bits| - 1;
      forall m | 0 <= m <= n
        ensures c + CountTrue(bits[..n][..m]) >= m
      {
        assert bits[..n][..m] == bits[..m];
      }
      SurvivesReferenced(pol, c, p, bits[..n], bits[n]);
      AtMostLength(bits[..n]);
      TouchedSaturates(RefThrough(pol, c, p, bits[..n]), bits[n]);
    }
    TouchedSaturates(RefThrough(pol, c, p, bits), bit);
  }

  lemma {:induction false} AtMostLength(bits: seq<bool>)
    ensures CountTrue(bits) <= |bits|
  {
    if bits != [] {
      AtMostLength(bits[..|bits| - 1]);
    }
  }

  /** Exactly those pages are dropped that are not mapped, or may be reclaimed and have neither a count nor a
      reference left. */
  lemma DroppedExactly(list: seq<Page>, pol: Policy, refCnt: map<Page, nat>, referenced: set<Page>, p: Page)
    requires p in list && RefOf(refCnt, p) <= ULONG_MAX
    ensures p in Sorted(list, pol, refCnt, referenced, false) <==>
              !pol.mapped(p) || (pol.reclaimMapped && !pol.anonNoSwap(p) && RefOf(refCnt, p) == 0 && p !in referenced)
    ensures p in Sorted(list, pol, refCnt, referenced, true) <==> p !in Sorted(list, pol, refCnt, referenced, false)
  {
    TouchedSaturates(RefOf(refCnt, p), p in referenced);
    SortedMembers(list, pol, refCnt, referenced, true);
    SortedMembers(list, pol, refCnt, referenced, false);
    assert forall kept :: p in Sorted(list, pol, refCnt, referenced, kept) <==>
                            p in Elements(Sorted(list, pol, refCnt, referenced, kept));
  }

  lemma NothingTaken(v: Lists)
    ensures CutOff(v, true, 0, v, []) && CutOff(v, false, 0, v, [])
  {
  }

  /** At order 0 and without busy pages the end of the active list is snipped off. */
  lemma SnipsExactly(geometry: Geometry, v: Lists, nrPages: nat)
    requires AllPlaced(v.activeList, v.inactiveList, v.lru) && forall p :: p in v.activeList ==> p in v.active
    ensures var s := Isolated(Request(geometry, true, 0, IsolateActive, {}), Scan(v, [], 0), nrPages);
            Cut(v.activeList, nrPages, s.v.activeList, s.dst) && s.v.inactiveList == v.inactiveList
  {
    var q := Request(geometry, true, 0, IsolateActive, {});
    NothingMoved(v.lru);
    NothingTaken(v);
    BugsExactly(q, Scan(v, [], 0), nrPages, v.lru);
    IsolatedCuts(q, v, Scan(v, [], 0), nrPages);
  }

  /** What the second chance makes of the held pages: their counters, the order in which they are put back,
      and how many are dropped. */
  ghost predicate SecondChance(held: seq<Page>, pol: Policy, refCnt: map<Page, nat>, referenced: set<Page>,
                               refCnt': map<Page, nat>, back: seq<Page>, dropped: nat) {
    && (forall p :: p in held ==> RefOf(refCnt', p) == Scanned(pol, refCnt, referenced, p))
    && back == Sorted(held, pol, refCnt, referenced, true) + Sorted(held, pol, refCnt, referenced, false)
    && dropped == |Sorted(held, pol, refCnt, referenced, false)|
  }

  /** Kept pages went in front of the active list, dropped ones in front of the inactive list. */
  ghost predicate PutInFront(held: seq<Page>, pol: Policy, refCnt: map<Page, nat>, referenced: set<Page>,
                             before: Lists, after: Lists) {
    && after.activeList == Sorted(held, pol, refCnt, referenced, true) + before.activeList
    && after.inactiveList == Sorted(held, pol, refCnt, referenced, false) + before.inactiveList
  }

  /** `shrink_active_list` in the undisturbed case. */
  ghost predicate ShrunkExactly(a0: seq<Page>, i0: seq<Page>, n: nat, pol: Policy, refCnt: map<Page, nat>,
                                referenced: set<Page>, held: seq<Page>, a: seq<Page>, i: seq<Page>) {
    var k := if n < |a0| then |a0| - n else 0;
    && held == a0[k..]
    && a == Sorted(held, pol, refCnt, referenced, true) + a0[..k]
    && i == Sorted(held, pol, refCnt, referenced, false) + i0
  }

  /** Undisturbed, at order 0 and without busy pages, `shrink_active_list` does exactly that. */
  lemma ShrunkAtOrderZero(geometry: Geometry, v: Lists, nrPages: nat, pol: Policy, refCnt: map<Page, nat>,
                          referenced: set<Page>, after: Lists)
    requires AllPlaced(v.activeList, v.inactiveList, v.lru) && forall p :: p in v.activeList ==> p in v.active
    requires var s := Isolated(Request(geometry, true, 0, IsolateActive, {}), Scan(v, [], 0), nrPages);
             PutInFront(s.dst, pol, refCnt, referenced, s.v, after)
    ensures var s := Isolated(Request(geometry, true, 0, IsolateActive, {}), Scan(v, [], 0), nrPages);
            ShrunkExactly(v.activeList, v.inactiveList, nrPages, pol, refCnt, referenced, s.dst,
                          after.activeList, after.inactiveList)
  {
    SnipsExactly(geometry, v, nrPages);
  }
}
