/** Finite directed graphs given by their edges: walks, reachability and cycles. */
module Graphs {

  type Node = string

  type Graph = set<(Node, Node)>

  ghost predicate Walk(g: Graph, p: seq<Node>) {
    p != [] && forall i :: 0 <= i < |p| - 1 ==> (p[i], p[i + 1]) in g
  }

  ghost predicate WalkBetween(g: Graph, p: seq<Node>, a: Node, b: Node) {
    Walk(g, p) && p[0] == a && p[|p| - 1] == b
  }

  /** There is a walk from a to b, possibly of no edge. */
  ghost predicate Reaches(g: Graph, a: Node, b: Node) {
    exists p :: WalkBetween(g, p, a, b)
  }

  /** There is a walk from a to b of at least one edge. */
  ghost predicate Leads(g: Graph, a: Node, b: Node) {
    exists c :: (a, c) in g && Reaches(g, c, b)
  }

  ghost predicate Cyclic(g: Graph) {
    exists a :: Leads(g, a, a)
  }

  ghost predicate ClosedUnder(g: Graph, nodes: set<Node>) {
    forall e :: e in g && e.0 in nodes ==> e.1 in nodes
  }

  lemma ReachesSelf(g: Graph, a: Node)
    ensures Reaches(g, a, a)
  {
    assert WalkBetween(g, [a], a, a);
  }

  lemma StepLeads(g: Graph, a: Node, b: Node)
    requires (a, b) in g
    ensures Leads(g, a, b)
  {
    ReachesSelf(g, b);
  }

  lemma ReachesTransitive(g: Graph, a: Node, b: Node, c: Node)
    requires Reaches(g, a, b) && Reaches(g, b, c)
    ensures Reaches(g, a, c)
  {
    var p :| WalkBetween(g, p, a, b);
    var q :| WalkBetween(g, q, b, c);
    assert WalkBetween(g, p + q[1..], a, c);
  }

  lemma LeadsReaches(g: Graph, a: Node, b: Node)
    requires Leads(g, a, b)
    ensures Reaches(g, a, b)
  {
    var c :| (a, c) in g && Reaches(g, c, b);
    assert WalkBetween(g, [a, c], a, c);
    ReachesTransitive(g, a, c, b);
  }

  lemma LeadsThenReaches(g: Graph, a: Node, b: Node, c: Node)
    requires Leads(g, a, b) && Reaches(g, b, c)
    ensures Leads(g, a, c)
  {
    var d :| (a, d) in g && Reaches(g, d, b);
    ReachesTransitive(g, d, b, c);
  }

  lemma ReachesThenLeads(g: Graph, a: Node, b: Node, c: Node)
    requires Reaches(g, a, b) && Leads(g, b, c)
    ensures Leads(g, a, c)
  {
    var p :| WalkBetween(g, p, a, b);
    if |p| > 1 {
      assert WalkBetween(g, p[1..], p[1], b);
      LeadsReaches(g, b, c);
      ReachesTransitive(g, p[1], b, c);
    }
  }

  /** A closed set cannot be left. */
  lemma ClosedSetsConfine(g: Graph, nodes: set<Node>, a: Node, b: Node)
    requires ClosedUnder(g, nodes) && a in nodes && Reaches(g, a, b)
    ensures b in nodes
  {
    var p :| WalkBetween(g, p, a, b);
    WalkStaysIn(g, nodes, p);
  }

  lemma {:induction false} WalkStaysIn(g: Graph, nodes: set<Node>, p: seq<Node>)
    requires ClosedUnder(g, nodes) && Walk(g, p) && p[0] in nodes
    ensures p[|p| - 1] in nodes
  {
    if |p| > 1 {
      assert (p[0], p[1]) in g;
      WalkStaysIn(g, nodes, p[1..]);
    }
  }

  lemma SubgraphReaches(g: Graph, h: Graph, a: Node, b: Node)
    requires g <= h && Reaches(g, a, b)
    ensures Reaches(h, a, b)
  {
    var p :| WalkBetween(g, p, a, b);
    assert WalkBetween(h, p, a, b);
  }

  /** Removing edges creates no cycle. */
  lemma SubgraphOfAcyclic(g: Graph, h: Graph)
    requires g <= h && !Cyclic(h)
    ensures !Cyclic(g)
  {
    if Cyclic(g) {
      var a :| Leads(g, a, a);
      var c :| (a, c) in g && Reaches(g, c, a);
      SubgraphReaches(g, h, c, a);
      assert Leads(h, a, a);
    }
  }

  ghost predicate HasSuccessor(g: Graph, nodes: set<Node>, a: Node) {
    exists b :: b in nodes && (a, b) in g
  }

  ghost predicate Sinkless(g: Graph, nodes: set<Node>) {
    forall a {:trigger HasSuccessor(g, nodes, a)} :: a in nodes ==> HasSuccessor(g, nodes, a)
  }

  ghost function Beyond(g: Graph, nodes: set<Node>, a: Node): set<Node> {
    set b | b in nodes && Leads(g, a, b)
  }

  lemma BeyondIsSinkless(g: Graph, nodes: set<Node>, a: Node)
    requires Sinkless(g, nodes)
    ensures Sinkless(g, Beyond(g, nodes, a))
  {
    forall c | c in Beyond(g, nodes, a) ensures HasSuccessor(g, Beyond(g, nodes, a), c) {
      assert HasSuccessor(g, nodes, c);
      var d :| d in nodes && (c, d) in g;
      assert WalkBetween(g, [c, d], c, d);
      LeadsThenReaches(g, a, c, d);
    }
  }

  /** A finite nonempty set in which every node has a successor of the set contains a node on a cycle. */
  lemma {:induction false} SinklessSetsAreCyclic(g: Graph, nodes: set<Node>) returns (x: Node)
    requires nodes != {} && Sinkless(g, nodes)
    ensures x in nodes && Leads(g, x, x)
    decreases |nodes|
  {
    var a :| a in nodes;
    if Leads(g, a, a) {
      x := a;
    } else {
      assert HasSuccessor(g, nodes, a);
      var b :| b in nodes && (a, b) in g;
      StepLeads(g, a, b);
      BeyondIsSinkless(g, nodes, a);
      SubsetIsNoLarger(Beyond(g, nodes, a), nodes - {a});
      x := SinklessSetsAreCyclic(g, Beyond(g, nodes, a));
    }
  }

  /** The node leads to a cycle. */
  ghost predicate Doomed(g: Graph, a: Node) { exists x :: Reaches(g, a, x) && Leads(g, x, x) }

  /** Where every node has a successor, every node leads to a cycle. */
  lemma SinklessSetsAreDoomed(g: Graph, nodes: set<Node>, a: Node)
    requires Sinkless(g, nodes) && a in nodes
    ensures Doomed(g, a)
  {
    assert HasSuccessor(g, nodes, a);
    var b :| b in nodes && (a, b) in g;
    StepLeads(g, a, b);
    BeyondIsSinkless(g, nodes, a);
    assert b in Beyond(g, nodes, a);
    var x := SinklessSetsAreCyclic(g, Beyond(g, nodes, a));
    LeadsReaches(g, a, x);
  }

  /** Whatever leads to a cycle has a next node that does so, too. */
  lemma DoomedGoesOn(g: Graph, a: Node) returns (b: Node)
    requires Doomed(g, a)
    ensures (a, b) in g && Doomed(g, b)
  {
    var x :| Reaches(g, a, x) && Leads(g, x, x);
    ReachesThenLeads(g, a, x, x);
    b :| (a, b) in g && Reaches(g, b, x);
  }

  lemma {:induction false} SubsetIsNoLarger<T>(a: set<T>, b: set<T>)
    requires a <= b
    ensures |a| <= |b|
  {
    if a != {} {
      var x :| x in a;
      SubsetIsNoLarger(a - {x}, b - {x});
    }
  }
}
