/**
 * The graph object records of the property graph: vertices and edges, each with an
 * identity that is assigned once and a property map, plus the vertex's labels and
 * adjacency sets and the edge's endpoints and single label.
 *
 * The source has a common base class for the identity, the object kind and the
 * properties. Dafny classes do not inherit state, so each of the two classes below
 * carries those fields and their setters itself; the per-key property update is
 * defined once, as `WithProperty`.
 */
module GraphTypes {
  import opened Wrappers

  /** The two kinds of graph object. */
  datatype ObjectType = VertexObject | EdgeObject

  /** A property value: the scalars the store's callers put into property maps. */
  datatype PropertyValue =
    | StringValue(s: string)
    | IntValue(i: int)
    | RealValue(r: real)
    | BoolValue(b: bool)

  type Properties = map<string, PropertyValue>

  /** A property map after assigning `value` to `name`: that key alone changes. */
  function WithProperty(props: Properties, name: string, value: PropertyValue): (r: Properties)
    ensures r.Keys == props.Keys + {name}
    ensures r[name] == value
    ensures forall other :: other in props && other != name ==> r[other] == props[other]
  {
    props[name := value]
  }

  class GraphEdge {
    const objectType: ObjectType
    const fromVertexId: int
    const toVertexId: int
    var edgeLabel: Option<string>
    var id: Option<int>
    var props: Properties

    constructor (fromVertexId: int, toVertexId: int, edgeLabel: Option<string>, props: Properties)
      ensures this.fromVertexId == fromVertexId && this.toVertexId == toVertexId
      ensures this.edgeLabel == edgeLabel && this.props == props
      ensures id == None && objectType == EdgeObject
    {
      this.fromVertexId, this.toVertexId := fromVertexId, toVertexId;
      this.edgeLabel := edgeLabel;
      this.id := None;
      this.objectType := EdgeObject;
      this.props := props;
    }

    /** An identity can be given only to an edge that has none yet. */
    method SetId(id: int)
      requires this.id == None
      modifies `id
      ensures this.id == Some(id)
    {
      this.id := Some(id);
    }

    method SetProperty(name: string, value: PropertyValue)
      modifies `props
      ensures props == WithProperty(old(props), name, value)
    {
      props := props[name := value];
    }

    /** An edge label can be set only while the edge has none. */
    method SetEdgeLabel(edgeLabel: string)
      requires this.edgeLabel == None
      modifies `edgeLabel
      ensures this.edgeLabel == Some(edgeLabel)
      ensures Labels() == [edgeLabel] && Label() == Some(edgeLabel)
    {
      this.edgeLabel := Some(edgeLabel);
    }

    method FromTo() returns (from: int, to: int)
      ensures from == fromVertexId && to == toVertexId
    {
      from, to := fromVertexId, toVertexId;
    }

    /** The `labels` view: the edge label as a list of at most one element. */
    function Labels(): (r: seq<string>)
      reads this
      ensures |r| <= 1
      ensures forall l :: l in r <==> edgeLabel == Some(l)
    {
      if edgeLabel.Some? then [edgeLabel.value] else []
    }

    /** The `label` view agrees with the `labels` view. */
    function Label(): (r: Option<string>)
      reads this
      ensures r.None? <==> Labels() == []
      ensures r.Some? ==> Labels() == [r.value]
    {
      edgeLabel
    }
  }

  class GraphVertex {
    const objectType: ObjectType
    var id: Option<int>
    var props: Properties
    var labels: set<string>
    var outgoingEdges: set<int>
    var incomingEdges: set<int>

    /**
     * Without labels the vertex gets the empty label set. (The source only assigns
     * its label attribute when labels are given, so adding a label to a vertex made
     * without them fails there.)
     */
    constructor (labels: Option<seq<string>>, props: Properties)
      ensures this.labels == (if labels.Some? then set l | l in labels.value else {})
      ensures this.props == props
      ensures outgoingEdges == {} && incomingEdges == {}
      ensures id == None && objectType == VertexObject
    {
      this.labels := if labels.Some? then set l | l in labels.value else {};
      this.outgoingEdges, this.incomingEdges := {}, {};
      this.id := None;
      this.objectType := VertexObject;
      this.props := props;
    }

    /** An identity can be given only to a vertex that has none yet. */
    method SetId(id: int)
      requires this.id == None
      modifies `id
      ensures this.id == Some(id)
    {
      this.id := Some(id);
    }

    method SetProperty(name: string, value: PropertyValue)
      modifies `props
      ensures props == WithProperty(old(props), name, value)
    {
      props := props[name := value];
    }

    method AddOutgoingEdge(edgeId: int)
      modifies `outgoingEdges
      ensures outgoingEdges == old(outgoingEdges) + {edgeId}
    {
      outgoingEdges := outgoingEdges + {edgeId};
    }

    /** Removing an edge id that is not there is an error in the source. */
    method RemoveOutgoingEdge(edgeId: int)
      requires edgeId in outgoingEdges
      modifies `outgoingEdges
      ensures outgoingEdges == old(outgoingEdges) - {edgeId}
      ensures |outgoingEdges| == |old(outgoingEdges)| - 1
    {
      outgoingEdges := outgoingEdges - {edgeId};
    }

    method AddIncomingEdge(edgeId: int)
      modifies `incomingEdges
      ensures incomingEdges == old(incomingEdges) + {edgeId}
    {
      incomingEdges := incomingEdges + {edgeId};
    }

    method RemoveIncomingEdge(edgeId: int)
      requires edgeId in incomingEdges
      modifies `incomingEdges
      ensures incomingEdges == old(incomingEdges) - {edgeId}
      ensures |incomingEdges| == |old(incomingEdges)| - 1
    {
      incomingEdges := incomingEdges - {edgeId};
    }

    /** The out-degree is zero exactly when no outgoing edge is recorded. */
    method OutDegree() returns (d: nat)
      ensures d == |outgoingEdges|
      ensures d == 0 <==> outgoingEdges == {}
    {
      d := |outgoingEdges|;
    }

    method InDegree() returns (d: nat)
      ensures d == |incomingEdges|
      ensures d == 0 <==> incomingEdges == {}
    {
      d := |incomingEdges|;
    }

    method AddLabel(newLabel: string)
      modifies `labels
      ensures labels == old(labels) + {newLabel}
    {
      labels := labels + {newLabel};
    }
  }

  /** A vertex fresh from its constructor has no incident edges. */
  method NewVertexDegrees(labels: Option<seq<string>>, props: Properties) returns (inDegree: nat, outDegree: nat)
    ensures inDegree == 0 && outDegree == 0
  {
    var v := new GraphVertex(labels, props);
    inDegree := v.InDegree();
    outDegree := v.OutDegree();
  }

  /**
   * Recording an outgoing edge twice leaves the vertex as recording it once, and
   * touches neither the incoming set nor the in-degree.
   */
  method AddOutgoingEdgeTwice(v: GraphVertex, edgeId: int) returns (once: set<int>, twice: set<int>, inDegree: nat)
    modifies v`outgoingEdges
    ensures once == twice == old(v.outgoingEdges) + {edgeId}
    ensures inDegree == |old(v.incomingEdges)|
  {
    v.AddOutgoingEdge(edgeId);
    once := v.outgoingEdges;
    v.AddOutgoingEdge(edgeId);
    twice := v.outgoingEdges;
    inDegree := v.InDegree();
  }

  /** Labels given twice, or added again, collapse into one. */
  method DuplicateLabelsCollapse(name: string) returns (labels: set<string>)
    ensures labels == {name}
  {
    var v := new GraphVertex(Some([name, name]), map[]);
    v.AddLabel(name);
    labels := v.labels;
  }
}
