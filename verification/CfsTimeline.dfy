/** The ordered timeline of a `cfs_rq` (hw4/sched_fair.c): a binary search tree on virtual runtime, kept
    without rebalancing, where equal keys go right.
 */
module CfsTimeline {
  import opened Options
  import opened GroupTree
  import opened Words

  datatype Tree = Leaf | Fork(left: Tree, e: Node, right: Tree)

  datatype Turn = Left | Right

  function InOrder(t: Tree): seq<Node> {
    match t
    case Leaf => []
    case Fork(l, e, r) => InOrder(l) + [e] + InOrder(r)
  }

  ghost predicate Keyed(line: seq<Node>, key: map<Node, int>) {
    forall i :: 0 <= i < |line| ==> line[i] in key
  }

  /** Each entity once, in the order of the keys. */
  ghost predicate Ordered(line: seq<Node>, key: map<Node, int>) {
    && Keyed(line, key)
    && (forall i, j :: 0 <= i < j < |line| ==> line[i] != line[j])
    && (forall i, j :: 0 <= i < j < |line| ==> key[line[i]] <= key[line[j]])
  }

  /** Where `key` belongs: behind every entity whose key is not greater. */
  function Position(t: Tree, key: map<Node, int>, v: int): (p: nat)
    requires Keyed(InOrder(t), key)
    ensures p <= |InOrder(t)|
  {
    match t
    case Leaf => 0
    case Fork(l, x, r) =>
      SplitKeyed(l, x, r, key);
      if v < key[x] then Position(l, key, v) else |InOrder(l)| + 1 + Position(r, key, v)
  }

  lemma SplitKeyed(l: Tree, x: Node, r: Tree, key: map<Node, int>)
    requires Keyed(InOrder(Fork(l, x, r)), key)
    ensures x in key && Keyed(InOrder(l), key) && Keyed(InOrder(r), key)
  {
    var line := InOrder(l) + [x] + InOrder(r);
    assert line[|InOrder(l)|] == x;
    assert line[..|InOrder(l)|] == InOrder(l);
    assert line[|InOrder(l)| + 1..] == InOrder(r);
  }

  function Insert(t: Tree, key: map<Node, int>, v: int, e: Node): (t': Tree)
    requires Keyed(InOrder(t), key)
    ensures var p := Position(t, key, v);
            InOrder(t') == InOrder(t)[..p] + [e] + InOrder(t)[p..]
  {
    match t
    case Leaf => Fork(Leaf, e, Leaf)
    case Fork(l, x, r) =>
      SplitKeyed(l, x, r, key);
      if v < key[x] then
        SplitLeft(InOrder(l), x, InOrder(r), Position(l, key, v));
        Fork(Insert(l, key, v, e), x, r)
      else
        SplitRight(InOrder(l), x, InOrder(r), Position(r, key, v));
        Fork(l, x, Insert(r, key, v, e))
  }

  lemma SplitLeft(a: seq<Node>, x: Node, b: seq<Node>, p: nat)
    requires p <= |a|
    ensures (a + [x] + b)[..p] == a[..p] && (a + [x] + b)[p..] == a[p..] + [x] + b
  {
  }

  lemma SplitRight(a: seq<Node>, x: Node, b: seq<Node>, p: nat)
    requires p <= |b|
    ensures (a + [x] + b)[..|a| + 1 + p] == a + [x] + b[..p] && (a + [x] + b)[|a| + 1 + p..] == b[p..]
  {
  }

  lemma PartsOrdered(a: seq<Node>, x: Node, b: seq<Node>, key: map<Node, int>)
    requires Ordered(a + [x] + b, key)
    ensures Ordered(a, key) && Ordered(b, key) && x in key
    ensures forall i :: 0 <= i < |a| ==> a[i] in key && key[a[i]] <= key[x]
    ensures forall i :: 0 <= i < |b| ==> b[i] in key && key[x] <= key[b[i]]
  {
    var line := a + [x] + b;
    assert line[|a|] == x;
    assert a == line[..|a|] && b == line[|a| + 1..];
  }

  /** Everything before the position is at most `v`, everything behind it greater. */
  ghost predicate Splits(line: seq<Node>, p: nat, key: map<Node, int>, v: int) {
    && p <= |line| && (forall i :: 0 <= i < |line| ==> line[i] in key)
    && (forall i :: 0 <= i < p ==> key[line[i]] <= v)
    && (forall i :: p <= i < |line| ==> v < key[line[i]])
  }

  lemma SplitsLeft(a: seq<Node>, x: Node, b: seq<Node>, p: nat, key: map<Node, int>, v: int)
    requires Ordered(a + [x] + b, key) && x in key && v < key[x] && Splits(a, p, key, v)
    ensures Splits(a + [x] + b, p, key, v)
  {
    PartsOrdered(a, x, b, key);
  }

  lemma SplitsRight(a: seq<Node>, x: Node, b: seq<Node>, p: nat, key: map<Node, int>, v: int)
    requires Ordered(a + [x] + b, key) && x in key && key[x] <= v && Splits(b, p, key, v)
    ensures Splits(a + [x] + b, |a| + 1 + p, key, v)
  {
    PartsOrdered(a, x, b, key);
  }

  /** The search finds that position. */
  lemma {:induction false} PositionSplits(t: Tree, key: map<Node, int>, v: int)
    requires Ordered(InOrder(t), key)
    ensures Splits(InOrder(t), Position(t, key, v), key, v)
  {
    match t {
      case Leaf =>
      case Fork(l, x, r) =>
        SplitKeyed(l, x, r, key);
        PartsOrdered(InOrder(l), x, InOrder(r), key);
        if v < key[x] {
          PositionSplits(l, key, v);
          SplitsLeft(InOrder(l), x, InOrder(r), Position(l, key, v), key, v);
        } else {
          PositionSplits(r, key, v);
          SplitsRight(InOrder(l), x, InOrder(r), Position(r, key, v), key, v);
        }
    }
  }

  function Join(l: Tree, r: Tree): (t: Tree)
    ensures InOrder(t) == InOrder(l) + InOrder(r)
  {
    match l
    case Leaf => r
    case Fork(ll, x, lr) => Fork(ll, x, Join(lr, r))
  }

  /** Where a linked node stands. */
  function Place(t: Tree, e: Node): (p: nat)
    requires e in InOrder(t)
    ensures p < |InOrder(t)| && InOrder(t)[p] == e
  {
    var Fork(l, x, r) := t;
    if x == e then |InOrder(l)|
    else if e in InOrder(l) then Place(l, e)
    else |InOrder(l)| + 1 + Place(r, e)
  }

  /** `rb_erase` of a linked node. */
  function Erase(t: Tree, e: Node): Tree
    requires e in InOrder(t)
  {
    var Fork(l, x, r) := t;
    if x == e then Join(l, r)
    else if e in InOrder(l) then Fork(Erase(l, e), x, r)
    else Fork(l, x, Erase(r, e))
  }

  function CutOut(line: seq<Node>, p: nat): seq<Node>
    requires p < |line|
  {
    line[..p] + line[p + 1..]
  }

  lemma CutLeft(a: seq<Node>, x: Node, b: seq<Node>, p: nat)
    requires p <= |a|
    ensures CutOut(a + [x] + b, p) == if p < |a| then CutOut(a, p) + [x] + b else a + b
  {
    if p < |a| {
      assert (a + [x] + b)[p + 1..] == a[p + 1..] + [x] + b;
    }
  }

  lemma CutRight(a: seq<Node>, x: Node, b: seq<Node>, p: nat)
    requires p < |b|
    ensures CutOut(a + [x] + b, |a| + 1 + p) == a + [x] + CutOut(b, p)
  {
    assert (a + [x] + b)[..|a| + 1 + p] == a + [x] + b[..p];
  }

  /** Erasing cuts one place out of the in-order sequence. */
  lemma {:induction false} EraseCuts(t: Tree, e: Node)
    requires e in InOrder(t)
    ensures InOrder(Erase(t, e)) == CutOut(InOrder(t), Place(t, e))
  {
    var Fork(l, x, r) := t;
    if x == e {
      CutLeft(InOrder(l), x, InOrder(r), |InOrder(l)|);
    } else if e in InOrder(l) {
      EraseCuts(l, e);
      CutLeft(InOrder(l), x, InOrder(r), Place(l, e));
    } else {
      EraseCuts(r, e);
      CutRight(InOrder(l), x, InOrder(r), Place(r, e));
    }
  }

  function First(t: Tree): Option<Node> {
    var line := InOrder(t);
    if line == [] then None else Some(line[0])
  }

  function SplicedIn(line: seq<Node>, p: nat, e: Node): (line': seq<Node>)
    requires p <= |line|
    ensures |line'| == |line| + 1 && line'[p] == e
    ensures forall i :: 0 <= i < p ==> line'[i] == line[i]
    ensures forall i :: p < i < |line'| ==> line'[i] == line[i - 1]
  {
    line[..p] + [e] + line[p..]
  }

  lemma CutAt(line: seq<Node>, p: nat)
    requires p < |line|
    ensures var line' := CutOut(line, p);
            && |line'| == |line| - 1
            && (forall i :: 0 <= i < p ==> line'[i] == line[i])
            && (forall i :: p <= i < |line'| ==> line'[i] == line[i + 1])
  {
  }

  lemma SplicedMembers(line: seq<Node>, p: nat, e: Node)
    requires p <= |line|
    ensures forall x :: x in SplicedIn(line, p, e) <==> x in line || x == e
  {
    var line' := SplicedIn(line, p, e);
    forall x | x in line
      ensures x in line'
    {
      var i :| 0 <= i < |line| && line[i] == x;
      assert line'[if i < p then i else i + 1] == x;
    }
    forall x | x in line'
      ensures x in line || x == e
    {
      var i :| 0 <= i < |line'| && line'[i] == x;
      assert i != p ==> x == line[if i < p then i else i - 1];
    }
  }

  lemma CutMembers(line: seq<Node>, p: nat, key: map<Node, int>)
    requires p < |line| && Ordered(line, key)
    ensures forall x :: x in CutOut(line, p) <==> x in line && x != line[p]
  {
    CutAt(line, p);
    var line' := CutOut(line, p);
    forall x | x in line && x != line[p]
      ensures x in line'
    {
      var i :| 0 <= i < |line| && line[i] == x;
      assert line'[if i < p then i else i - 1] == x;
    }
    forall x | x in line'
      ensures x in line && x != line[p]
    {
      var i :| 0 <= i < |line'| && line'[i] == x;
      assert x == line[if i < p then i else i + 1];
    }
  }

  lemma SplicedOrdered(line: seq<Node>, p: nat, e: Node, key: map<Node, int>)
    requires Ordered(line, key) && p <= |line| && e in key && e !in line
    requires forall i :: 0 <= i < p ==> key[line[i]] <= key[e]
    requires forall i :: p <= i < |line| ==> key[e] < key[line[i]]
    ensures Ordered(SplicedIn(line, p, e), key)
  {
  }

  lemma CutOrdered(line: seq<Node>, p: nat, key: map<Node, int>)
    requires Ordered(line, key) && p < |line|
    ensures Ordered(CutOut(line, p), key)
  {
    CutAt(line, p);
  }

  /** Inserting keeps the order and adds exactly `e`, in front iff its key is smaller than all. */
  lemma InsertOrdered(t: Tree, key: map<Node, int>, e: Node)
    requires Ordered(InOrder(t), key) && e in key && e !in InOrder(t)
    ensures var t', p := Insert(t, key, key[e], e), Position(t, key, key[e]);
            && Ordered(InOrder(t'), key)
            && (forall x :: x in InOrder(t') <==> x in InOrder(t) || x == e)
            && First(t') == (if p == 0 then Some(e) else First(t))
  {
    PositionSplits(t, key, key[e]);
    var line, p := InOrder(t), Position(t, key, key[e]);
    assert InOrder(Insert(t, key, key[e], e)) == SplicedIn(line, p, e);
    SplicedMembers(line, p, e);
    SplicedOrdered(line, p, e, key);
  }

  /** Erasing keeps the order and removes exactly `e`. */
  lemma EraseOrdered(t: Tree, key: map<Node, int>, e: Node)
    requires Ordered(InOrder(t), key) && e in InOrder(t)
    ensures var t' := Erase(t, e);
            && Ordered(InOrder(t'), key)
            && (forall x :: x in InOrder(t') <==> x in InOrder(t) && x != e)
            && First(t') == (if First(t) == Some(e) then (if |InOrder(t)| > 1 then Some(InOrder(t)[1]) else None)
                             else First(t))
  {
    var line, p := InOrder(t), Place(t, e);
    EraseCuts(t, e);
    CutAt(line, p);
    CutMembers(line, p, key);
    CutOrdered(line, p, key);
  }

  /** The subtree at the end of a path of links. */
  function At(t: Tree, path: seq<Turn>): Option<Tree> {
    if path == [] then Some(t)
    else match t
      case Leaf => None
      case Fork(l, _, r) => At(if path[0] == Left then l else r, path[1..])
  }

  /** `rb_link_node`: hang `sub` on the link at the end of the path. */
  function LinkNode(t: Tree, path: seq<Turn>, sub: Tree): Tree
    requires At(t, path).Some?
  {
    if path == [] then sub
    else
      var Fork(l, x, r) := t;
      if path[0] == Left then Fork(LinkNode(l, path[1..], sub), x, r)
      else Fork(l, x, LinkNode(r, path[1..], sub))
  }

  /** The path is the one the search for `v` takes. */
  predicate Searches(t: Tree, path: seq<Turn>, key: map<Node, int>, v: int)
    requires Keyed(InOrder(t), key)
  {
    path == [] ||
    match t
    case Leaf => false
    case Fork(l, x, r) =>
      SplitKeyed(l, x, r, key);
      if v < key[x] then path[0] == Left && Searches(l, path[1..], key, v)
      else path[0] == Right && Searches(r, path[1..], key, v)
  }

  /** One more link of the search. */
  lemma {:induction false} SearchStep(t: Tree, path: seq<Turn>, key: map<Node, int>, v: int, turn: Turn)
    requires Keyed(InOrder(t), key) && Searches(t, path, key, v) && At(t, path).Some?
    requires At(t, path).value.Fork?
    requires At(t, path).value.e in key && (turn == Left <==> v < key[At(t, path).value.e])
    ensures var sub := At(t, path).value;
            && Searches(t, path + [turn], key, v)
            && At(t, path + [turn]) == Some(if turn == Left then sub.left else sub.right)
  {
    if path != [] {
      var Fork(l, x, r) := t;
      SplitKeyed(l, x, r, key);
      SearchStep(if path[0] == Left then l else r, path[1..], key, v, turn);
      assert (path + [turn])[1..] == path[1..] + [turn];
    } else {
      assert (path + [turn])[1..] == [];
    }
  }

  /** At the end of the search, linking the new node there is the insertion, and the node is leftmost
      iff the search never turned right. */
  lemma {:induction false} SearchEnds(t: Tree, path: seq<Turn>, key: map<Node, int>, v: int, e: Node)
    requires Keyed(InOrder(t), key) && Searches(t, path, key, v) && At(t, path) == Some(Leaf)
    ensures LinkNode(t, path, Fork(Leaf, e, Leaf)) == Insert(t, key, v, e)
    ensures Right !in path <==> Position(t, key, v) == 0
  {
    if path != [] {
      var Fork(l, x, r) := t;
      SplitKeyed(l, x, r, key);
      SearchEnds(if path[0] == Left then l else r, path[1..], key, v, e);
      assert path == [path[0]] + path[1..];
    }
  }

  /** Nodes found by a search are nodes of the tree. */
  lemma {:induction false} AtKeyed(t: Tree, path: seq<Turn>, key: map<Node, int>)
    requires Keyed(InOrder(t), key) && At(t, path).Some?
    ensures Keyed(InOrder(At(t, path).value), key)
    ensures At(t, path).value.Fork? ==> At(t, path).value.e in key
  {
    if path != [] {
      var Fork(l, x, r) := t;
      SplitKeyed(l, x, r, key);
      AtKeyed(if path[0] == Left then l else r, path[1..], key);
    } else if t.Fork? {
      SplitKeyed(t.left, t.e, t.right, key);
    }
  }

  // ----- keys are differences of wrapping 64-bit times -----

  /** `(s64)(a - b)` of two times, of which only the low 64 bits are kept. */
  function KeyDifference(a: int, b: int): int {
    SignedDifference(a % TWO_64, b % TWO_64)
  }

  lemma WrapsAway(a: int, b: int)
    requires -TWO_63 <= a - b < TWO_63
    ensures KeyDifference(a, b) == a - b
  {
    var qa, qb := a / TWO_64, b / TWO_64;
    var x := a % TWO_64 - b % TWO_64;
    assert a - b == x + TWO_64 * (qa - qb);
    assert (a - b) % TWO_64 == x % TWO_64;
  }

  /** While all virtual runtimes lie within a window smaller than 2^63, comparing `entity_key`s and the
      signed differences of `max_vruntime` compare the unbounded times. */
  lemma KeysCompareTimes(a: int, b: int, min: int)
    requires -TWO_63 < a - b < TWO_63 && -TWO_63 <= a - min < TWO_63 && -TWO_63 <= b - min < TWO_63
    ensures KeyDifference(a, min) < KeyDifference(b, min) <==> a < b
    ensures KeyDifference(a, b) > 0 <==> a > b
  {
    WrapsAway(a, min);
    WrapsAway(b, min);
    WrapsAway(a, b);
  }
}
