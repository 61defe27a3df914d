/** The group scheduling hierarchy of one CPU, shared by the real-time and the fair class.

    A node is a scheduling entity. A node in `groups` also owns a runqueue (its `my_q`); the root owns
    the CPU's top runqueue and is itself never queued. `parent` maps an entity to the node that owns
    the runqueue it is queued on.
 */
module GroupTree {

  type Node = nat

  /** No node is twice in the list. */
  ghost predicate Distinct(q: seq<Node>) {
    q == [] || (q[0] !in q[1..] && Distinct(q[1..]))
  }

  /** `depth` and `maxDepth` only witness that the hierarchy is a tree. */
  datatype Topology = Topology(root: Node, groups: set<Node>, entities: set<Node>,
                               parent: Node -> Node, depth: Node -> nat, maxDepth: nat)
  {
    predicate IsEntity(e: Node) { e in entities }

    predicate IsTask(e: Node) { IsEntity(e) && e !in groups }

    ghost predicate Valid() {
      && root in groups && !IsEntity(root)
      && (forall g {:trigger IsEntity(g)} :: g in groups && g != root ==> IsEntity(g))
      && (forall e {:trigger parent(e)} :: IsEntity(e) ==>
            parent(e) in groups && depth(parent(e)) < depth(e) <= maxDepth)
    }
  }

  /** `e` and its ancestors below the root: the entities `for_each_sched_rt_entity` visits. */
  ghost function Path(t: Topology, e: Node): (p: set<Node>)
    requires t.Valid() && t.IsEntity(e)
    ensures e in p
    ensures forall a :: a in p ==> t.IsEntity(a) && a != t.root && (a != e ==> a in t.groups && t.depth(a) < t.depth(e))
    ensures forall a :: a in p ==> t.parent(a) == t.root || t.parent(a) in p
    decreases t.depth(e)
  {
    if t.parent(e) == t.root then {e}
    else
      assert t.IsEntity(t.parent(e));
      {e} + Path(t, t.parent(e))
  }

  /** No two entities on one path hang below the same node. */
  lemma {:induction false} PathParents(t: Topology, e: Node, a: Node, b: Node)
    requires t.Valid() && t.IsEntity(e) && a in Path(t, e) && b in Path(t, e)
    requires t.parent(a) == t.parent(b)
    ensures a == b
    decreases t.depth(e)
  {
    if t.parent(e) != t.root {
      assert t.IsEntity(t.parent(e));
      if a != e && b != e {
        PathParents(t, t.parent(e), a, b);
      }
    }
  }

  lemma PathAlone(t: Topology, e: Node, a: Node)
    requires t.Valid() && t.IsEntity(e) && a in Path(t, e)
    ensures forall b :: b in Path(t, e) && b != a ==> t.parent(b) != t.parent(a)
  {
    forall b | b in Path(t, e) && t.parent(b) == t.parent(a)
      ensures a == b
    {
      PathParents(t, e, a, b);
    }
  }

  /** The entities a loop up the hierarchy at `cur` still has in front of it. */
  ghost function Above(t: Topology, cur: Node): (p: set<Node>)
    requires t.Valid() && (cur == t.root || t.IsEntity(cur))
    ensures forall a :: a in p ==> t.IsEntity(a)
  {
    if cur == t.root then {} else Path(t, cur)
  }

  lemma AboveStep(t: Topology, e: Node)
    requires t.Valid() && t.IsEntity(e)
    ensures var g := t.parent(e);
            && g in t.groups && (g == t.root || t.IsEntity(g)) && t.depth(g) < t.depth(e) <= t.maxDepth
            && Above(t, e) == Path(t, e) == Above(t, g) + {e} && Above(t, e) - {e} == Above(t, g) && e !in Above(t, g)
  {
    assert t.parent(e) in t.groups && t.depth(t.parent(e)) < t.depth(e);
  }
}
