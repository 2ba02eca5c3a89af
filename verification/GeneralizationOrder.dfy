/** The order in which generalizations are turned into joined tables: by the depth of the parent. */
module GeneralizationOrder {

  import opened Sequences
  import opened Sorting
  import opened Permutations
  import opened Graphs
  import opened Uml
  import opened AcyclicCheck

  // Depth.

  ghost predicate ChainFrom(g: Graph, id: Id, chain: seq<Id>) { Walk(g, chain) && chain[0] == id }

  ghost predicate HasChain(g: Graph, id: Id, length: nat) {
    exists chain :: ChainFrom(g, id, chain) && |chain| == length
  }

  /** The number of generalizations on the longest chain of parents. */
  ghost predicate IsDepth(g: Graph, id: Id, d: nat) {
    HasChain(g, id, d + 1) && forall chain :: ChainFrom(g, id, chain) ==> |chain| <= d + 1
  }

  function MaxOf(s: seq<nat>): (m: nat)
    ensures s != [] ==> m in s
    ensures forall x :: x in s ==> x <= m
  {
    if s == [] then 0
    else
      var m := MaxOf(s[1..]);
      assert forall x :: x in s <==> x == s[0] || x in s[1..];
      if s[0] >= m then s[0] else m
  }

  /** One more than the deepest parent; none without parents. */
  function DepthOver(depths: seq<nat>): nat { if depths == [] then 0 else MaxOf(depths) + 1 }

  ghost predicate DepthsOfParents(g: Graph, parents: seq<Id>, depths: seq<nat>) {
    |depths| == |parents| && forall i :: 0 <= i < |parents| ==> IsDepth(g, parents[i], depths[i])
  }

  lemma LongestIsReached(g: Graph, id: Id, parents: seq<Id>, depths: seq<nat>)
    requires DepthsOfParents(g, parents, depths) && forall b :: b in parents ==> (id, b) in g
    ensures HasChain(g, id, DepthOver(depths) + 1)
  {
    if depths == [] {
      assert ChainFrom(g, id, [id]);
    } else {
      var i :| 0 <= i < |depths| && depths[i] == MaxOf(depths);
      assert IsDepth(g, parents[i], depths[i]);
      var up :| ChainFrom(g, parents[i], up) && |up| == depths[i] + 1;
      assert parents[i] in parents;
      assert ChainFrom(g, id, [id] + up);
    }
  }

  lemma NothingIsLonger(g: Graph, id: Id, parents: seq<Id>, depths: seq<nat>, chain: seq<Id>)
    requires DepthsOfParents(g, parents, depths) && (forall b :: (id, b) in g ==> b in parents)
               && ChainFrom(g, id, chain)
    ensures |chain| <= DepthOver(depths) + 1
  {
    if |chain| > 1 {
      assert (chain[0], chain[0 + 1]) in g;
      var j :| 0 <= j < |parents| && parents[j] == chain[1];
      assert IsDepth(g, parents[j], depths[j]);
      assert ChainFrom(g, parents[j], chain[1..]);
      assert depths[j] in depths;
    }
  }

  lemma OneMoreParent(g: Graph, parents: seq<Id>, depths: seq<nat>, i: nat, next: nat)
    requires i < |parents| && DepthsOfParents(g, parents[..i], depths) && IsDepth(g, parents[i], next)
    ensures DepthsOfParents(g, parents[..i + 1], depths + [next])
  {
    forall j | 0 <= j < i + 1 ensures IsDepth(g, parents[..i + 1][j], (depths + [next])[j]) {
      if j < i { assert IsDepth(g, parents[..i][j], depths[j]); }
    }
  }

  /** Everything visited leads to where the search is. */
  ghost predicate OnPath(g: Graph, visiting: set<Id>, id: Id) { forall v :: v in visiting ==> Leads(g, v, id) }

  lemma DepthOverParents(g: Graph, id: Id, parents: seq<Id>, depths: seq<nat>)
    requires DepthsOfParents(g, parents, depths) && forall b :: (id, b) in g <==> b in parents
    ensures IsDepth(g, id, DepthOver(depths))
  {
    LongestIsReached(g, id, parents, depths);
    forall chain | ChainFrom(g, id, chain) ensures |chain| <= DepthOver(depths) + 1 {
      NothingIsLonger(g, id, parents, depths, chain);
    }
  }

  lemma ParentIsHigher(g: Graph, a: Id, b: Id, depth: nat, parentDepth: nat)
    requires (a, b) in g && IsDepth(g, a, depth) && IsDepth(g, b, parentDepth)
    ensures parentDepth < depth
  {
    var up :| ChainFrom(g, b, up) && |up| == parentDepth + 1;
    assert ChainFrom(g, a, [a] + up);
  }

  /** Depths are remembered between calls; the path of a call guards against cycles. */
  class DepthSearch {
    const parents: Adjacency
    ghost const graph: Graph
    var cache: map<Id, nat>

    constructor (parents: Adjacency, ghost graph: Graph)
      requires Represents(parents, graph)
      ensures Valid() && this.parents == parents && this.graph == graph
    {
      this.parents, this.graph := parents, graph;
      cache := map[];
    }

    ghost predicate Valid()
      reads this
    {
      Represents(parents, graph) && (!Cyclic(graph) ==> forall id :: id in cache ==> IsDepth(graph, id, cache[id]))
    }

    method Depth(id: Id, visiting: set<Id>) returns (depth: nat)
      requires Valid() && OnPath(graph, visiting, id)
      modifies this
      ensures Valid() && old(cache.Keys) <= cache.Keys && (!Cyclic(graph) ==> IsDepth(graph, id, depth) && id in cache)
      decreases parents.Keys - visiting
    {
      if id in cache { return cache[id]; }
      if id in visiting { return 0; }
      var above := Targets(parents, id);
      var depths: seq<nat> := [];
      for i := 0 to |above|
        invariant Valid() && |depths| == i && old(cache.Keys) <= cache.Keys
        invariant !Cyclic(graph) ==> DepthsOfParents(graph, above[..i], depths)
      {
        PathGoesOn(graph, visiting, id, above[i]);
        var next := Depth(above[i], visiting + {id});
        if !Cyclic(graph) { OneMoreParent(graph, above, depths, i, next); }
        depths := depths + [next];
      }
      depth := DepthOver(depths);
      if !Cyclic(graph) {
        assert above[..|above|] == above;
        DepthOverParents(graph, id, above, depths);
      }
      cache := cache[id := depth];
    }
  }

  lemma PathGoesOn(g: Graph, visiting: set<Id>, id: Id, next: Id)
    requires (id, next) in g && OnPath(g, visiting, id)
    ensures OnPath(g, visiting + {id}, next)
  {
    StepLeads(g, id, next);
    LeadsReaches(g, id, next);
    forall v | v in visiting + {id} ensures Leads(g, v, next) {
      if v != id { LeadsThenReaches(g, v, id, next); }
    }
  }

  // The order.

  function IsGeneralization(): Relationship -> bool { (r: Relationship) => r.kind == Generalization }

  function DepthIn(depths: map<Id, nat>, id: Id): nat { if id in depths then depths[id] else 0 }

  /** Parents that are less deep first; the ids decide between equals. */
  function ByDepth(depths: map<Id, nat>, less: (Id, Id) -> bool): (Relationship, Relationship) -> bool {
    (l: Relationship, r: Relationship) => Shallower(depths, less, l, r)
  }

  predicate Shallower(depths: map<Id, nat>, less: (Id, Id) -> bool, l: Relationship, r: Relationship) {
    || DepthIn(depths, l.target.elementId) < DepthIn(depths, r.target.elementId)
    || (DepthIn(depths, l.target.elementId) == DepthIn(depths, r.target.elementId) && less(l.id, r.id))
  }

  lemma ByDepthIsWeak(depths: map<Id, nat>, less: (Id, Id) -> bool)
    requires StrictOrder(less)
    ensures WeakOrder(ByDepth(depths, less))
  {
    forall a, b, c | Shallower(depths, less, a, c)
        ensures Shallower(depths, less, a, b) || Shallower(depths, less, b, c) {
      if less(a.id, c.id) && a.id != b.id && b.id != c.id {
        assert less(a.id, b.id) || less(b.id, a.id);
        assert less(b.id, c.id) || less(c.id, b.id);
      }
    }
  }

  ghost predicate DepthsRight(g: Graph, depths: map<Id, nat>, order: seq<Relationship>) {
    forall r :: r in order ==>
        r.target.elementId in depths && IsDepth(g, r.target.elementId, depths[r.target.elementId])
  }

  /** The generalization of a parent comes before those of its children. */
  ghost predicate ParentFirst(order: seq<Relationship>) {
    forall i, j :: 0 <= i < |order| && 0 <= j < |order| && order[i].source.elementId == order[j].target.elementId ==>
        i < j
  }

  lemma LaterInOrder<T(!new)>(before: (T, T) -> bool, s: seq<T>, i: nat, j: nat)
    requires Pairwise(NotAfter(before), s) && i < |s| && j < |s|
    ensures before(s[i], s[j]) ==> i <= j
  {
    if j < i { assert NotAfter(before)(s[j], s[i]); }
  }

  lemma DeeperComesLater(g: Graph, depths: map<Id, nat>, less: (Id, Id) -> bool, order: seq<Relationship>)
    requires Pairwise(NotAfter(ByDepth(depths, less)), order) && DepthsRight(g, depths, order)
    requires forall r :: r in order ==> (r.source.elementId, r.target.elementId) in g
    ensures ParentFirst(order)
  {
    forall i, j | 0 <= i < |order| && 0 <= j < |order| && order[i].source.elementId == order[j].target.elementId
        ensures i < j {
      assert order[i] in order && order[j] in order;
      ParentIsHigher(g, order[i].source.elementId, order[i].target.elementId,
                     depths[order[j].target.elementId], depths[order[i].target.elementId]);
      assert Shallower(depths, less, order[i], order[j]);
      LaterInOrder(ByDepth(depths, less), order, i, j);
    }
  }

  method DepthsOf(generalizations: seq<Relationship>, parents: Adjacency, ghost g: Graph) returns (depths: map<Id, nat>)
    requires Represents(parents, g)
    ensures !Cyclic(g) ==> DepthsRight(g, depths, generalizations)
  {
    var search := new DepthSearch(parents, g);
    for i := 0 to |generalizations|
      invariant search.Valid() && search.graph == g
      invariant !Cyclic(g) ==> forall j :: 0 <= j < i ==> generalizations[j].target.elementId in search.cache
    {
      var depth := search.Depth(generalizations[i].target.elementId, {});
    }
    depths := search.cache;
  }

  /** All generalizations in an order in which, unless they form a cycle, every parent is done before its children. */
  method SortedGeneralizations(relationships: seq<Relationship>,
      less: (Id, Id) -> bool) returns (order: seq<Relationship>, ghost depths: map<Id, nat>)
    requires StrictOrder(less)
    ensures order == Sorted(ByDepth(depths, less), Filter(IsGeneralization(), relationships))
    ensures !Cyclic(EdgesOf(relationships, Generalization)) ==>
              DepthsRight(EdgesOf(relationships, Generalization), depths, order)
    ensures multiset(order) == multiset(Filter(IsGeneralization(), relationships))
    ensures !Cyclic(EdgesOf(relationships, Generalization)) ==> ParentFirst(order)
  {
    ghost var g := EdgesOf(relationships, Generalization);
    var generalizations := Filter(IsGeneralization(), relationships);
    var parents := AdjacencyOf(relationships, Generalization);
    var depthOf := DepthsOf(generalizations, parents, g);
    depths := depthOf;
    order := Sorted(ByDepth(depthOf, less), generalizations);
    SameMembers(order, generalizations);
    ByDepthIsWeak(depths, less);
    SortedDoesNotDescend(ByDepth(depths, less), generalizations);
    if !Cyclic(g) { DeeperComesLater(g, depths, less, order); }
  }
}
