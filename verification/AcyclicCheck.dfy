/** The depth-first cycle check over the relationships of one kind. */
module AcyclicCheck {

  import opened Graphs
  import opened Uml

  function EdgesOf(relationships: seq<Relationship>, kind: RelationshipKind): Graph {
    set r | r in relationships && r.kind == kind :: (r.source.elementId, r.target.elementId)
  }

  type Adjacency = map<Id, seq<Id>>

  function Targets(adjacency: Adjacency, id: Id): seq<Id> {
    if id in adjacency then adjacency[id] else []
  }

  ghost predicate Represents(adjacency: Adjacency, g: Graph) {
    forall a, b :: (a, b) in g <==> b in Targets(adjacency, a)
  }

  method AdjacencyOf(relationships: seq<Relationship>, kind: RelationshipKind) returns (adjacency: Adjacency)
    ensures Represents(adjacency, EdgesOf(relationships, kind))
    ensures forall id :: id in adjacency ==> adjacency[id] != []
  {
    adjacency := map[];
    for i := 0 to |relationships|
      invariant forall id :: id in adjacency ==> adjacency[id] != []
      invariant Represents(adjacency, EdgesOf(relationships[..i], kind))
    {
      var r := relationships[i];
      assert relationships[..i + 1] == relationships[..i] + [r];
      if r.kind == kind {
        var a := r.source.elementId;
        adjacency := adjacency[a := Targets(adjacency, a) + [r.target.elementId]];
      }
    }
    assert relationships[..|relationships|] == relationships;
  }

  /** The two sets the recursive visits share. */
  class Search {
    const adjacency: Adjacency
    ghost const graph: Graph
    ghost const nodes: set<Id>
    var visiting: set<Id>
    var visited: set<Id>

    constructor (adjacency: Adjacency, ghost graph: Graph)
      requires Represents(adjacency, graph)
      ensures Valid() && visiting == {} && visited == {}
      ensures this.adjacency == adjacency && this.graph == graph
    {
      this.adjacency, this.graph := adjacency, graph;
      this.nodes := (set e | e in graph :: e.0) + (set e | e in graph :: e.1);
      visiting, visited := {}, {};
    }

    /** Visited nodes are finished: they only lead to visited nodes and lie on no cycle. */
    ghost predicate Valid()
      reads this
    {
      && Represents(adjacency, graph)
      && (forall e :: e in graph ==> e.0 in nodes && e.1 in nodes)
      && visiting !! visited
      && ClosedUnder(graph, visited)
      && forall a :: a in visited ==> !Leads(graph, a, a)
    }

    method Visit(id: Id) returns (cycle: bool)
      requires Valid() && id in nodes
      requires forall a :: a in visiting ==> Leads(graph, a, id)
      modifies this
      ensures cycle ==> Cyclic(graph)
      ensures !cycle ==> Valid() && visiting == old(visiting) && old(visited) <= visited && id in visited
      decreases nodes - visiting
    {
      if id in visiting { return true; }
      if id in visited { return false; }
      visiting := visiting + {id};
      var targets := Targets(adjacency, id);
      for i := 0 to |targets|
        invariant Valid() && visiting == old(visiting) + {id} && old(visited) <= visited
        invariant forall j :: 0 <= j < i ==> targets[j] in visited
      {
        assert (id, targets[i]) in graph;
        StepLeads(graph, id, targets[i]);
        forall a | a in visiting ensures Leads(graph, a, targets[i]) {
          if a != id {
            LeadsReaches(graph, id, targets[i]);
            LeadsThenReaches(graph, a, id, targets[i]);
          }
        }
        cycle := Visit(targets[i]);
        if cycle { return true; }
      }
      if Leads(graph, id, id) {
        var next :| (id, next) in graph && Reaches(graph, next, id);
        ClosedSetsConfine(graph, visited, next, id);
        assert false;
      }
      visiting := visiting - {id};
      visited := visited + {id};
      return false;
    }
  }

  /** Sound and complete: the check rejects exactly the relationships that form a directed cycle. */
  method HasCycle(relationships: seq<Relationship>, kind: RelationshipKind) returns (cycle: bool)
    ensures cycle <==> Cyclic(EdgesOf(relationships, kind))
  {
    ghost var graph := EdgesOf(relationships, kind);
    var adjacency := AdjacencyOf(relationships, kind);
    var search := new Search(adjacency, graph);
    var remaining := adjacency.Keys;
    while remaining != {}
      invariant search.Valid() && search.visiting == {} && search.graph == graph
      invariant remaining <= adjacency.Keys <= remaining + search.visited
      decreases remaining
    {
      var id :| id in remaining;
      remaining := remaining - {id};
      assert adjacency[id][0] in Targets(adjacency, id);
      assert (id, adjacency[id][0]) in graph;
      cycle := search.Visit(id);
      if cycle { return true; }
    }
    return false;
  }
}
