/**
 * The in-memory property-graph store: a map from vertex id to vertex, a map from
 * edge id to edge, and a counter from which every new id is taken. The store keeps
 * referential integrity: an edge joins stored vertices, and every vertex's adjacency
 * sets name exactly the stored edges that leave or enter it.
 */
module GraphStore {
  import opened Wrappers
  import opened GraphTypes

  /** The exceptions the store raises. */
  datatype GraphError =
    | GraphObjectNotFound(id: int)
    | VertexDeletionError(id: int)
      /** Raised by the as-written detach-and-delete, which calls a set as if it were a method. */
    | SetNotCallable

  /** Whether vertex `v` is an endpoint of edge `e`. */
  predicate Touches(e: GraphEdge, v: int)
  {
    e.fromVertexId == v || e.toVertexId == v
  }

  /** The ids of the edges in `edges` that leave vertex `v`. */
  function OutgoingIds(edges: map<int, GraphEdge>, v: int): set<int>
  {
    set e | e in edges && edges[e].fromVertexId == v
  }

  /** The ids of the edges in `edges` that enter vertex `v`. */
  function IncomingIds(edges: map<int, GraphEdge>, v: int): set<int>
  {
    set e | e in edges && edges[e].toVertexId == v
  }

  /** The edges of `edges` that do not touch vertex `v`. */
  function Detached(edges: map<int, GraphEdge>, v: int): (r: map<int, GraphEdge>)
    ensures r.Keys <= edges.Keys
    ensures forall e :: e in r ==> r[e] == edges[e] && !Touches(r[e], v)
    ensures forall e :: e in edges && !Touches(edges[e], v) ==> e in r
  {
    map e | e in edges && !Touches(edges[e], v) :: edges[e]
  }

  /** Storing a new edge adds its id to the adjacency of its own endpoints only. */
  lemma InsertEdgeIds(edges: map<int, GraphEdge>, id: int, e: GraphEdge, v: int)
    requires id !in edges
    ensures OutgoingIds(edges[id := e], v) == OutgoingIds(edges, v) + (if e.fromVertexId == v then {id} else {})
    ensures IncomingIds(edges[id := e], v) == IncomingIds(edges, v) + (if e.toVertexId == v then {id} else {})
  {
    var m := edges[id := e];
    assert forall x :: x in m && x != id ==> m[x] == edges[x];
  }

  /** Dropping an edge removes its id from every adjacency set and from nowhere else. */
  lemma RemoveEdgeIds(edges: map<int, GraphEdge>, id: int, v: int)
    ensures OutgoingIds(edges - {id}, v) == OutgoingIds(edges, v) - {id}
    ensures IncomingIds(edges - {id}, v) == IncomingIds(edges, v) - {id}
  {
  }

  /** Dropping an edge that touches `v` does not change the edges that do not. */
  lemma RemoveTouchingEdge(edges: map<int, GraphEdge>, id: int, v: int)
    requires id in edges && Touches(edges[id], v)
    ensures Detached(edges - {id}, v) == Detached(edges, v)
  {
  }

  /** When no edge touches `v`, detaching `v` keeps every edge. */
  lemma DetachedUntouched(edges: map<int, GraphEdge>, v: int)
    requires OutgoingIds(edges, v) == {} && IncomingIds(edges, v) == {}
    ensures Detached(edges, v) == edges
  {
    forall e | e in edges ensures !Touches(edges[e], v) {
      assert e !in OutgoingIds(edges, v) && e !in IncomingIds(edges, v);
    }
  }

  /** A vertex outside the set that holds every endpoint has no edges. */
  lemma AbsentVertexUntouched(edges: map<int, GraphEdge>, stored: set<int>, v: int)
    requires forall e :: e in edges ==> edges[e].fromVertexId in stored && edges[e].toVertexId in stored
    requires v !in stored
    ensures OutgoingIds(edges, v) == {} && IncomingIds(edges, v) == {}
  {
    forall e | e in edges ensures !Touches(edges[e], v) {
      assert edges[e].fromVertexId in stored && edges[e].toVertexId in stored;
    }
  }

  /** A map that never stores one value under two keys has as many values as keys. */
  lemma {:induction false} InjectiveMapValues<K, V>(m: map<K, V>)
    requires forall a, b :: a in m && b in m && m[a] == m[b] ==> a == b
    ensures |m.Values| == |m.Keys|
  {
    if m != map[] {
      var k :| k in m;
      var rest := m - {k};
      assert m.Keys == rest.Keys + {k};
      assert m.Values == rest.Values + {m[k]};
      assert m[k] !in rest.Values;
      InjectiveMapValues(rest);
    }
  }

  class Graph {
    var vertices: map<int, GraphVertex>
    var edges: map<int, GraphEdge>
    var nextObjectId: nat

    /** Every stored vertex carries the id it is stored under, an id below the counter. */
    ghost predicate VertexIdsValid()
      reads `vertices, `nextObjectId, vertices.Values`id
    {
      forall v :: v in vertices ==> vertices[v].id == Some(v) && 0 <= v < nextObjectId
    }

    /** Every stored edge carries the id it is stored under, an id below the counter. */
    ghost predicate EdgeIdsValid()
      reads `edges, `nextObjectId, edges.Values`id
    {
      forall e :: e in edges ==> edges[e].id == Some(e) && 0 <= e < nextObjectId
    }

    /** Vertices and edges share no id, and every edge joins stored vertices. */
    ghost predicate EndpointsStored()
      reads `vertices, `edges
    {
      vertices.Keys !! edges.Keys &&
      forall e :: e in edges ==> edges[e].fromVertexId in vertices && edges[e].toVertexId in vertices
    }

    /** Every vertex records as outgoing and incoming exactly the edges that leave and enter it. */
    ghost predicate AdjacencyValid()
      reads `vertices, `edges, vertices.Values`outgoingEdges, vertices.Values`incomingEdges
    {
      forall v :: v in vertices ==>
        vertices[v].outgoingEdges == OutgoingIds(edges, v) && vertices[v].incomingEdges == IncomingIds(edges, v)
    }

    ghost predicate Valid()
      reads `vertices, `edges, `nextObjectId, edges.Values`id
      reads vertices.Values`id, vertices.Values`outgoingEdges, vertices.Values`incomingEdges
    {
      VertexIdsValid() && EdgeIdsValid() && EndpointsStored() && AdjacencyValid()
    }

    constructor ()
      ensures Valid()
      ensures vertices == map[] && edges == map[] && nextObjectId == 0
    {
      vertices, edges := map[], map[];
      nextObjectId := 0;
    }

    /** Hands out the counter's value and advances it. */
    method AllocateId() returns (id: nat)
      modifies `nextObjectId
      ensures id == old(nextObjectId) && nextObjectId == id + 1
    {
      id := nextObjectId;
      nextObjectId := nextObjectId + 1;
    }

    /**
     * Stores a vertex that has no id and no edges yet under a fresh id, one that no
     * stored vertex or edge has and that is larger than every id handed out before.
     */
    method AddVertex(v: GraphVertex) returns (id: nat)
      requires Valid()
      requires v.id == None && v.outgoingEdges == {} && v.incomingEdges == {}
      modifies `vertices, `nextObjectId, v`id
      ensures Valid()
      ensures id == old(nextObjectId) && nextObjectId == id + 1
      ensures id !in old(vertices) && id !in old(edges)
      ensures vertices == old(vertices)[id := v] && edges == old(edges)
      ensures v.id == Some(id)
    {
      assert forall k :: k in vertices ==> vertices[k] != v;
      assert v !in vertices.Values;
      id := AllocateId();
      AbsentVertexUntouched(edges, vertices.Keys, id);
      v.SetId(id);
      vertices := vertices[id := v];
    }

    /**
     * Stores an edge between two stored vertices under a fresh id and records that id
     * as outgoing at the source and incoming at the target; nothing else changes.
     */
    method AddEdge(e: GraphEdge) returns (id: nat)
      requires Valid()
      requires e.id == None
      requires e.fromVertexId in vertices && e.toVertexId in vertices
      modifies `edges, `nextObjectId, e`id, vertices.Values`outgoingEdges, vertices.Values`incomingEdges
      ensures Valid()
      ensures id == old(nextObjectId) && nextObjectId == id + 1
      ensures id !in old(vertices) && id !in old(edges)
      ensures vertices == old(vertices) && edges == old(edges)[id := e]
      ensures e.id == Some(id)
      ensures forall v :: v in vertices ==>
        vertices[v].outgoingEdges == old(vertices[v].outgoingEdges) + (if v == e.fromVertexId then {id} else {})
      ensures forall v :: v in vertices ==>
        vertices[v].incomingEdges == old(vertices[v].incomingEdges) + (if v == e.toVertexId then {id} else {})
    {
      assert forall k :: k in edges ==> edges[k] != e;
      assert e !in edges.Values;
      ghost var edges0 := edges;
      var from, to := e.FromTo();
      id := AllocateId();
      e.SetId(id);
      vertices[from].AddOutgoingEdge(id);
      vertices[to].AddIncomingEdge(id);
      edges := edges[id := e];
      forall v | v in vertices
        ensures vertices[v].outgoingEdges == OutgoingIds(edges, v)
        ensures vertices[v].incomingEdges == IncomingIds(edges, v)
      {
        InsertEdgeIds(edges0, id, e, v);
      }
    }

    /**
     * Deletes a vertex that no edge touches. An absent id and a vertex with edges are
     * errors that leave the store as it was.
     */
    method DeleteVertex(id: int) returns (r: Outcome<GraphError>)
      requires Valid()
      modifies `vertices
      ensures Valid()
      ensures edges == old(edges)
      ensures id !in old(vertices) ==> r == Fail(GraphObjectNotFound(id))
      ensures id in old(vertices) ==>
        (r.Fail? <==> |old(vertices[id].incomingEdges)| > 0 || |old(vertices[id].outgoingEdges)| > 0)
      ensures id in old(vertices) ==>
        (r == Fail(VertexDeletionError(id)) <==> exists e :: e in edges && Touches(edges[e], id))
      ensures r.Fail? ==> r == Fail(GraphObjectNotFound(id)) || r == Fail(VertexDeletionError(id))
      ensures vertices == if r.Pass? then old(vertices) - {id} else old(vertices)
    {
      if id !in vertices {
        return Fail(GraphObjectNotFound(id));
      }
      var v := vertices[id];
      var inDegree := v.InDegree();
      var outDegree := v.OutDegree();
      if inDegree > 0 || outDegree > 0 {
        var incident := v.incomingEdges + v.outgoingEdges;
        assert incident != {} && ((forall x :: x !in incident) ==> incident == {});
        var e :| e in incident;
        assert e in IncomingIds(edges, id) || e in OutgoingIds(edges, id);
        return Fail(VertexDeletionError(id));
      }
      DetachedUntouched(edges, id);
      assert forall e :: e in edges ==> !Touches(edges[e], id);
      vertices := vertices - {id};
      r := Pass;
    }

    /**
     * Deletes a stored edge and unhooks it from both endpoints; an absent id is an
     * error that leaves the store as it was.
     */
    method DeleteEdge(id: int) returns (r: Outcome<GraphError>)
      requires Valid()
      modifies `edges, vertices.Values`outgoingEdges, vertices.Values`incomingEdges
      ensures Valid()
      ensures r == if id in old(edges) then Pass else Fail(GraphObjectNotFound(id))
      ensures vertices == old(vertices) && edges == old(edges) - {id}
      ensures forall v :: v in vertices ==> vertices[v].outgoingEdges == old(vertices[v].outgoingEdges) - {id}
      ensures forall v :: v in vertices ==> vertices[v].incomingEdges == old(vertices[v].incomingEdges) - {id}
    {
      if id !in edges {
        return Fail(GraphObjectNotFound(id));
      }
      ghost var edges0 := edges;
      var from, to := edges[id].FromTo();
      var source, target := vertices[from], vertices[to];
      assert id in OutgoingIds(edges, from) && id in IncomingIds(edges, to);
      source.RemoveOutgoingEdge(id);
      target.RemoveIncomingEdge(id);
      edges := edges - {id};
      r := Pass;
      forall v | v in vertices
        ensures vertices[v].outgoingEdges == OutgoingIds(edges, v) == old(vertices[v].outgoingEdges) - {id}
        ensures vertices[v].incomingEdges == IncomingIds(edges, v) == old(vertices[v].incomingEdges) - {id}
      {
        RemoveEdgeIds(edges0, id, v);
      }
    }

    /**
     * Deletes every edge that touches the vertex, each once even when it is a
     * self-loop, and then the vertex itself; edges that do not touch it stay.
     */
    method DetachAndDeleteVertex(id: int) returns (r: Outcome<GraphError>)
      requires Valid()
      modifies `vertices, `edges, vertices.Values`outgoingEdges, vertices.Values`incomingEdges
      ensures Valid()
      ensures r == if id in old(vertices) then Pass else Fail(GraphObjectNotFound(id))
      ensures vertices == old(vertices) - {id}
      ensures edges == Detached(old(edges), id)
      ensures forall e :: e in edges ==> !Touches(edges[e], id)
      ensures id in old(vertices) ==>
        old(vertices[id]).incomingEdges == {} && old(vertices[id]).outgoingEdges == {}
    {
      if id !in vertices {
        AbsentVertexUntouched(edges, vertices.Keys, id);
        DetachedUntouched(edges, id);
        return Fail(GraphObjectNotFound(id));
      }
      DeleteIncidentEdges(id);
      r := DeleteVertex(id);
      assert r.Pass?;
    }

    /** The detach half of detach-and-delete: every edge at the vertex goes, and no other. */
    method DeleteIncidentEdges(id: int)
      requires Valid() && id in vertices
      modifies `edges, vertices.Values`outgoingEdges, vertices.Values`incomingEdges
      ensures Valid()
      ensures vertices == old(vertices) && edges == Detached(old(edges), id)
      ensures vertices[id].incomingEdges == {} && vertices[id].outgoingEdges == {}
    {
      var v := vertices[id];
      var incident := v.incomingEdges + v.outgoingEdges;
      while incident != {}
        invariant Valid()
        invariant vertices == old(vertices) && vertices[id] == v
        invariant incident == v.incomingEdges + v.outgoingEdges
        invariant Detached(edges, id) == Detached(old(edges), id)
        decreases |incident|
      {
        assert (forall x :: x !in incident) ==> incident == {};
        var edgeId :| edgeId in incident;
        DeleteIncidentEdge(id, edgeId);
        incident := incident - {edgeId};
      }
      DetachedUntouched(edges, id);
    }

    /** One round of detach-and-delete: an edge at the vertex goes, from the store and from the vertex. */
    method DeleteIncidentEdge(id: int, edgeId: int)
      requires Valid() && id in vertices
      requires edgeId in vertices[id].incomingEdges + vertices[id].outgoingEdges
      modifies `edges, vertices.Values`outgoingEdges, vertices.Values`incomingEdges
      ensures Valid()
      ensures vertices == old(vertices) && edges == old(edges) - {edgeId}
      ensures vertices[id].incomingEdges == old(vertices[id].incomingEdges) - {edgeId}
      ensures vertices[id].outgoingEdges == old(vertices[id].outgoingEdges) - {edgeId}
      ensures Detached(edges, id) == Detached(old(edges), id)
    {
      assert edgeId in IncomingIds(edges, id) + OutgoingIds(edges, id);
      RemoveTouchingEdge(edges, edgeId, id);
      var deleted := DeleteEdge(edgeId);
      assert deleted.Pass?;
    }

    /**
     * The source's detach-and-delete as written: it calls the vertex's edge sets as
     * methods, which raises before any edge or the vertex is deleted.
     */
    method DetachAndDeleteVertexAsWritten(id: int) returns (r: Outcome<GraphError>)
      requires Valid()
      ensures r.Fail?
      ensures r == if id in vertices then Fail(SetNotCallable) else Fail(GraphObjectNotFound(id))
    {
      if id !in vertices {
        return Fail(GraphObjectNotFound(id));
      }
      r := Fail(SetNotCallable);
    }

    /** The stored vertices: one object per id, each carrying the id it is stored under. */
    method V() returns (vs: set<GraphVertex>)
      requires Valid()
      ensures vs == vertices.Values
      ensures |vs| == |vertices|
      ensures forall x :: x in vs ==> x.id.Some? && x.id.value in vertices && vertices[x.id.value] == x
    {
      vs := vertices.Values;
      forall x | x in vs ensures x.id.Some? && x.id.value in vertices && vertices[x.id.value] == x {
        assert (forall k :: k in vertices ==> vertices[k] != x) ==> x !in vertices.Values;
        var k :| k in vertices && vertices[k] == x;
      }
      forall a, b | a in vertices && b in vertices && vertices[a] == vertices[b] ensures a == b {
        assert vertices[a].id == Some(a) && vertices[b].id == Some(b);
      }
      InjectiveMapValues(vertices);
    }

    /** The stored edges: one object per id, each carrying the id it is stored under. */
    method E() returns (es: set<GraphEdge>)
      requires Valid()
      ensures es == edges.Values
      ensures |es| == |edges|
      ensures forall x :: x in es ==> x.id.Some? && x.id.value in edges && edges[x.id.value] == x
    {
      es := edges.Values;
      forall x | x in es ensures x.id.Some? && x.id.value in edges && edges[x.id.value] == x {
        assert (forall k :: k in edges ==> edges[k] != x) ==> x !in edges.Values;
        var k :| k in edges && edges[k] == x;
      }
      forall a, b | a in edges && b in edges && edges[a] == edges[b] ensures a == b {
        assert edges[a].id == Some(a) && edges[b].id == Some(b);
      }
      InjectiveMapValues(edges);
    }
  }

  /**
   * An id is never handed out twice: a vertex added after another was added and
   * deleted again gets a larger id, one that the store had not used before.
   */
  method AddDeleteAdd(g: Graph, v: GraphVertex, w: GraphVertex) returns (first: nat, second: nat)
    requires g.Valid() && v != w
    requires v.id == None && v.outgoingEdges == {} && v.incomingEdges == {}
    requires w.id == None && w.outgoingEdges == {} && w.incomingEdges == {}
    modifies g`vertices, g`nextObjectId, v`id, w`id
    ensures g.Valid()
    ensures first < second && first == old(g.nextObjectId)
    ensures second !in old(g.vertices) && second !in old(g.edges)
    ensures g.vertices == old(g.vertices)[second := w] && g.edges == old(g.edges)
  {
    first := g.AddVertex(v);
    var deleted := g.DeleteVertex(first);
    assert deleted.Pass?;
    second := g.AddVertex(w);
  }
}
