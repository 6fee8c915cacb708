# OrangeGraph core, modelled in Dafny

OrangeGraph is a small in-memory property-graph database with a Gremlin-style query
front end. This project models three parts of it and proves properties about them.

- **Graph objects** (`graphtypes.dfy`, module `GraphTypes`). `GraphVertex` and
  `GraphEdge` are classes. An id is set only once, the edge label is set only once,
  and the property map is updated one key at a time. A vertex keeps sets of incoming
  and outgoing edge ids, and its degrees are the sizes of those sets.
- **The graph store** (`graph.dfy`, module `GraphStore`). `Graph` holds a map from
  vertex ids to vertices, a map from edge ids to edges, and an id counter.
  - `Valid()` is the store's referential integrity: every stored object carries the
    id it is stored under, and that id is below the counter. Vertex ids and edge ids
    are disjoint. Every edge joins stored vertices. Each vertex's outgoing and
    incoming sets are exactly the ids of the edges that leave and enter it.
  - Every public operation (`AddVertex`, `AddEdge`, `DeleteVertex`, `DeleteEdge`,
    `DetachAndDeleteVertex`) keeps `Valid()` and states its whole effect, including
    its error cases. The private counter step `AllocateId` is only called inside
    them and states just the counter's change.
- **The query parser** (`gremlinparser.dfy`, module `GremlinParser`). It scans the
  query's token stream left to right and emits a flat list of identifier, assignment
  and function nodes.
  - The methods `Parse`, `Process`, `ProcessStep` and `ProcessFunction` follow the
    source's loops and recursion. `Parse`, `Process` and `ProcessStep` are proved
    equal to the specification functions `Scan` and `ScanStep`. `ProcessFunction` is
    proved against `ClosingParen` and `Arguments`, the functions that define where a
    call's argument list ends and what it holds.
  - The parser's properties are lemmas about `Scan`: what each step emits, what is
    skipped, ordering, where argument lists end, and failure on exhaustion.
  - `gremlinexamples.dfy` (module `GremlinParserExamples`) works through the query
    of the source's own test and a nested call.

`wrappers.dfy` holds the `Option`, `Result` and `Outcome` types. The exceptions
the store raises on purpose (`GraphObjectNotFound`, `VertexDeletionError`) and the
parser's running out of tokens become `Fail(...)` and `Failure(...)` values.
Python's `assert` statements, and the `KeyError` of `set.remove`, become `requires`
clauses; "## Left out" lists the cases this covers.

Two facts about the code that a reader may not expect:
- Nested calls are not nested: the outer call closes at the first `)`, and the
  output stays a flat list (`NestedCallFlattened`).
- `addVertex` always allocates the id (graph.py:19). The `id_=` keyword passed in
  sample_graph.py:18 and :30 is not accepted by the `addVertex` and `addEdge` of
  gremlin.py:11 and :16.

## Model

| member | source | states |
|---|---|---|
| GraphTypes.WithProperty | graphtypes.py:12-13 | The updated property map has the given value under the given name. Every other key keeps its value, and no other key appears. |
| GraphTypes.GraphEdge.constructor | graphtypes.py:20-24 | A new edge has its endpoints, label and properties. It has no id and is of the edge kind. |
| GraphTypes.GraphEdge.SetId | graphtypes.py:15-17 | The id can be set only while unset. Afterwards it is the given id. |
| GraphTypes.GraphEdge.SetProperty | graphtypes.py:12-13 | The property map becomes the per-key update of the old one. |
| GraphTypes.GraphEdge.SetEdgeLabel | graphtypes.py:26-28 | The label can be set only while unset. Afterwards both the `labels` and `label` views show it. |
| GraphTypes.GraphEdge.FromTo | graphtypes.py:30-31 | Returns the edge's source and target ids. |
| GraphTypes.GraphEdge.Labels | graphtypes.py:39-41 | The `labels` view has at most one element. A label is in it exactly when it is the edge label. |
| GraphTypes.GraphEdge.Label | graphtypes.py:42-43 | The `label` view is absent exactly when `labels` is empty. Otherwise `labels` is that one label. |
| GraphTypes.GraphVertex.constructor | graphtypes.py:47-55 | A new vertex has the set of the given labels (empty if none are given) and the given properties. Its edge sets are empty and it has no id. |
| GraphTypes.GraphVertex.SetId | graphtypes.py:15-17 | The id can be set only while unset. Afterwards it is the given id. |
| GraphTypes.GraphVertex.SetProperty | graphtypes.py:12-13 | The property map becomes the per-key update of the old one. |
| GraphTypes.GraphVertex.AddOutgoingEdge | graphtypes.py:57-58 | The outgoing set gains the id. Only that set may change. |
| GraphTypes.GraphVertex.RemoveOutgoingEdge | graphtypes.py:60-61 | The id must be present. It leaves the outgoing set, which shrinks by one, and only that set may change. |
| GraphTypes.GraphVertex.AddIncomingEdge | graphtypes.py:63-64 | The incoming set gains the id. Only that set may change. |
| GraphTypes.GraphVertex.RemoveIncomingEdge | graphtypes.py:66-67 | The id must be present. It leaves the incoming set, which shrinks by one, and only that set may change. |
| GraphTypes.GraphVertex.OutDegree | graphtypes.py:69-70 | The out-degree is the size of the outgoing set. It is zero exactly when that set is empty. |
| GraphTypes.GraphVertex.InDegree | graphtypes.py:72-73 | The in-degree is the size of the incoming set. It is zero exactly when that set is empty. |
| GraphTypes.GraphVertex.AddLabel | graphtypes.py:75-76 | The label set gains the label. |
| GraphTypes.NewVertexDegrees | graphtypes.py:52-73 | A freshly built vertex has in-degree and out-degree zero. |
| GraphTypes.AddOutgoingEdgeTwice | graphtypes.py:57-58 | Adding an outgoing id twice equals adding it once. The incoming side is untouched. |
| GraphTypes.DuplicateLabelsCollapse | graphtypes.py:48-76 | The same label given twice at construction and then added again leaves a single label. |
| GraphStore.Detached | graph.py:46-53 | The edges that survive detaching a vertex are exactly the edges that do not touch it, unchanged. |
| GraphStore.InsertEdgeIds | graph.py:29-33 | Storing a new edge adds its id to its source's outgoing ids and its target's incoming ids, and to no other vertex's. |
| GraphStore.RemoveEdgeIds | graph.py:59-63 | Dropping an edge removes its id from every vertex's outgoing and incoming ids and removes nothing else. |
| GraphStore.RemoveTouchingEdge | graph.py:51-52 | Deleting an edge at the vertex does not change which other edges survive the detach. |
| GraphStore.DetachedUntouched | graph.py:51-53 | When no edge enters or leaves the vertex, detaching it keeps every edge. |
| GraphStore.AbsentVertexUntouched | graph.py:26-27 | Since edges join stored vertices, a vertex that is not stored has no edges. |
| GraphStore.InjectiveMapValues | graph.py:65-69 | A map that never stores one object under two ids has as many values as ids. |
| GraphStore.Graph.constructor | graph.py:12-16 | A new store is empty, its counter is zero, and it is valid. |
| GraphStore.Graph.AllocateId | graph.py:71-74 | Returns the counter and advances it by one. |
| GraphStore.Graph.AddVertex | graph.py:18-22 | Stores the vertex under the counter's value, which is in neither map, and advances the counter. The vertex carries that id, edges are unchanged, and validity is kept. |
| GraphStore.Graph.AddEdge | graph.py:24-34 | Both endpoints must be stored. The edge gets a fresh id in neither map and is stored. The id joins exactly the source's outgoing and the target's incoming set; nothing else changes and validity is kept. |
| GraphStore.Graph.DeleteVertex | graph.py:36-44 | An absent id fails with not-found. A vertex with a nonzero degree fails with a deletion error exactly when some edge touches it. Both errors leave the store unchanged. Otherwise only that vertex is removed. |
| GraphStore.Graph.DeleteEdge | graph.py:55-63 | An absent id fails with not-found and changes nothing. Otherwise the id leaves the edge map and every adjacency set, and nothing else changes. |
| GraphStore.Graph.DetachAndDeleteVertex | graph.py:46-53 | An absent id fails with not-found and changes nothing. Otherwise the vertex is gone, the edges left are exactly those that did not touch it, none references it, and validity is kept. The removed vertex object ends with empty incoming and outgoing sets, so a caller still holding it sees degree zero. |
| GraphStore.Graph.DeleteIncidentEdges | graph.py:50-52 | The loop over the union of the vertex's incident ids deletes exactly the edges touching the vertex, each once, and leaves its edge sets empty. |
| GraphStore.Graph.DeleteIncidentEdge | graph.py:51-52 | One round of that loop deletes one incident edge. It keeps validity and the set of surviving non-incident edges. |
| GraphStore.Graph.DetachAndDeleteVertexAsWritten | graph.py:46-51 | As written, a stored vertex makes the call fail before anything is deleted, because the edge sets are called. An absent one fails with not-found. |
| GraphStore.Graph.V | graph.py:65-66 | Returns exactly the stored vertices, one per id, each carrying the id it is stored under. |
| GraphStore.Graph.E | graph.py:68-69 | Returns exactly the stored edges, one per id, each carrying the id it is stored under. |
| GraphStore.AddDeleteAdd | graph.py:18-44 | After adding a vertex and deleting it, the next vertex gets a larger id that the store had never used. |
| GremlinParser.AddArgument | gremlinparser.py:43-44 | The function node's argument list gains the argument at its end. Its name and callee are kept. |
| GremlinParser.SetCalls | gremlinparser.py:46-48 | Only a function can be called. The node records it and keeps its name and arguments. |
| GremlinParser.StripQuotes | gremlinparser.py:69-70 | The argument is the string token without its first and last character, and empty when the token is shorter than two. |
| GremlinParser.ArgumentOf | gremlinparser.py:69-73 | A token contributes at most one argument, and it contributes one exactly when it is a string or number literal. |
| GremlinParser.Arguments | gremlinparser.py:64-73 | The arguments of a run of tokens, in token order; there are never more of them than tokens in the run. |
| GremlinParser.Scan | gremlinparser.py:75-94 | The definition of `_process` from a position: skip to the next name or end marker, then take one step. A successful scan yields no more nodes than there are tokens left. |
| GremlinParser.ScanStep | gremlinparser.py:84-94 | One step from a name or end marker: the end marker ends the scan, a call yields one function node, `.` or `=` yields the identifier (and an assignment), anything else yields nothing. A successful step yields no more nodes than there are tokens left. |
| GremlinParser.NextStepStart | gremlinparser.py:77-82 | Any position found holds a name or the end marker. |
| GremlinParser.NextStepStartFinds | gremlinparser.py:77-82 | The skip loop stops at the first name or end marker. |
| GremlinParser.NextStepStartAbsent | gremlinparser.py:77-82 | Without a name or end marker ahead, the skip loop runs out of tokens. |
| GremlinParser.ClosingParen | gremlinparser.py:65-68 | Any position found holds a `)`. |
| GremlinParser.ClosingParenFinds | gremlinparser.py:65-68 | The argument loop stops at the first `)`. |
| GremlinParser.ClosingParenAbsent | gremlinparser.py:65-68 | Without a `)` ahead, the argument loop runs out of tokens. |
| GremlinParser.ProcessFunction | gremlinparser.py:63-73 | The last node gains the arguments of the tokens up to the first `)`, and the position after it is returned. Without a `)`, the node gains every remaining argument and the call fails with exhaustion. |
| GremlinParser.Process | gremlinparser.py:75-94 | The result is the given nodes followed by what `Scan` produces from the position, or `Scan`'s failure. |
| GremlinParser.ProcessStep | gremlinparser.py:84-94 | One step from a name or end marker equals the given nodes followed by `ScanStep`'s nodes. |
| GremlinParser.Parse | gremlinparser.py:54-61 | Parsing a token stream gives exactly `Scan` from position zero. |
| GremlinParser.SkipsToNextStep | gremlinparser.py:77-80 | Tokens in front of the next name or end marker are skipped without effect. |
| GremlinParser.EndMarkerBeforeName | gremlinparser.py:77-82 | An end marker reached before any name ends the scan with no node added. |
| GremlinParser.CallStep | gremlinparser.py:84-87 | A name followed by `(` gives one function node. Its arguments are those of the tokens up to the first `)`, and the scan resumes after that `)`. |
| GremlinParser.IdentifierStep | gremlinparser.py:88-91 | A name followed by `.` gives an identifier node. Followed by `=`, it gives an identifier node and then an assignment node. The scan resumes after the follower. |
| GremlinParser.StrayNameDropped | gremlinparser.py:84-93 | A name followed by any token other than `(`, `.` or `=` gives nothing, and that token is consumed too. |
| GremlinParser.AssignFollowsIdentifier | gremlinparser.py:88-91 | In every successful scan, each assignment node comes right after an identifier node. |
| GremlinParser.NamesInTokenOrder | gremlinparser.py:76-93 | The names on the output nodes are a subsequence of the stream's name tokens: none invented, none reordered. |
| GremlinParser.NamesInStepTokenOrder | gremlinparser.py:84-93 | The same holds for the scan from one step. |
| GremlinParser.ExhaustedWithoutEndMarker | gremlinparser.py:76-94 | A stream with no end marker left always fails with exhaustion. |
| GremlinParser.ArgumentsFromLiterals | gremlinparser.py:64-73 | Every argument of a call comes from a string or number token between its parentheses. |
| GremlinParser.LiteralsBecomeArguments | gremlinparser.py:64-73 | Every string or number token between the parentheses becomes an argument. There are never more arguments than tokens. |
| GremlinParser.ScanShift | gremlinparser.py:75-94 | The scan only reads forward: from a position inside a suffix, it gives what scanning the suffix alone gives. |
| GremlinParser.ScanSuffix | gremlinparser.py:75-94 | What follows a prefix of the stream is scanned as if the prefix were not there. |
| GremlinParserExamples.ExampleQueryParses | gremlinparser.py:96-101 | The test query parses to: identifier `i`, assignment, identifier `g`, `V()`, `has('name','New York')`, `out('connects')`, `has('name','Boulder')`, `values('companies')`. |
| GremlinParserExamples.NestedCallFlattened | gremlinparser.py:64-68 | `repeat(out('x'))` gives one function `repeat` with argument `x`. The inner call closes the outer at the first `)`. |

## Left out

- The tokenizer (gremlinparser.py:58) is Python's `tokenize` library. The model starts
  from its token stream, with token types reduced to name, operator, string, number,
  end marker and other.
- The shared, mutable output list of the parser is a `seq` threaded through the
  methods. The node objects are values, so the identity of the node that
  `addArgument` changes in place is not modelled.
- GremlinParser.ProcessFunction: collects the function node's arguments in a local
  value and writes it back into the list once. The source appends to the list's
  last element after each token.
- The parser's `GremlinSyntaxError` is declared but never raised, so it is not
  modelled. `setCalls` is modelled, but the parser never calls it.
- GremlinParser.Parse: a `_process` that meets the end marker returns `None` rather
  than the list. The outer `parse` ignores that value, so only the list is modelled.
- The token-type tags of `GremlinToken` and the `objectType` assertion of
  `GraphObject` are carried by the datatype constructors and the class types.
- The `GraphObject` base class is not a separate class. Dafny classes do not inherit
  state, so each of `GraphVertex` and `GraphEdge` carries the id, kind and
  properties, and its own setters.
- GraphTypes.GraphVertex.RemoveOutgoingEdge: requires the id to be in the outgoing
  set. In the source, `set.remove` of an absent id raises `KeyError`; the model does
  not return that error. The store only removes ids it has recorded.
- GraphTypes.GraphVertex.RemoveIncomingEdge: requires the id to be in the incoming
  set, for the same reason as `RemoveOutgoingEdge`.
- GremlinParser.Scan: has no bound on the number of steps. The source's `_process`
  calls itself once per step, so a long enough query makes Python raise
  `RecursionError` (about 1000 steps by default). The model does not capture that
  limit.
- GraphTypes.GraphVertex.constructor: stores a copy of the given property map. In
  the source, `props or dict()` keeps a non-empty caller dictionary, which then stays
  shared between the caller and the object. That aliasing is not modelled.
- GraphTypes.GraphEdge.constructor: stores a copy of the given property map too, so
  the same aliasing is not modelled for edges.
- GraphTypes.GraphVertex.constructor: gives a vertex built without labels the empty
  label set. The source leaves its `labels` attribute unset then (it sets `_labels`
  instead), so a later `addLabel` raises.
- GraphTypes.GraphEdge.Labels: models the `labels` and `label` attribute views of
  `__getattr__`. The fallback to ordinary attribute lookup is not modelled.
- GraphStore.Graph.AddVertex: requires the vertex to arrive without edges. The source
  does not check this, but a vertex holding edge ids of its own would break the
  store's adjacency invariant.
- GraphStore.Graph.V: returns the set of stored vertices rather than the dictionary
  view, so the view's order is not modelled. The same holds for GraphStore.Graph.E.
- Property values are strings, integers, reals and booleans. Floating point is
  modelled as `real`.
- `__repr__` methods, the `unittest` scaffolding and its `print` calls are not part of
  this model.
- The console, the CSV loader and the `GremlinGraph` wrapper of gremlin.py are not
  part of this model. Neither are the sample graph of sample_graph.py and the type
  check of utilities.py.
- No traversal engine is part of this model: none appears in the source files
  modelled.

## Findings

| source | as written | input that shows it | evidently intended | confidence | as-written member | corrected member |
|---|---|---|---|---|---|---|
| graph.py:51 | `set.union( graphVertex.incomingEdges(), graphVertex.outgoingEdges() )` calls the two edge sets as functions, which raises a `TypeError` | any stored vertex, e.g. `detachAndDeleteVertex(v)` right after `v = addVertex(GraphVertex())` | iterate over the union of the incoming and outgoing sets, deleting each incident edge once, then the vertex | not executed | GraphStore.Graph.DetachAndDeleteVertexAsWritten | GraphStore.Graph.DetachAndDeleteVertex |
