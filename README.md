# flow-workflow core, modelled in Dafny

flow-workflow turns the legacy Genome "Workflow" XML format into executable
work. A workflow document is a `<workflow>` holding `<operation>` elements
(Command, Event, Converge and nested Model operations) and `<link>` elements
that join one operation's output property to another's input property. A
single `<operation>` document is also accepted as a workflow of one step.

This project models, and proves properties of, the parts that give the
system its shape:

- **The XML adapter** (`flow_workflow/xmladapter.py`). `ModelOperation`
  reads a document into a list of operations and builds:
  - a precedence graph with no self-cycles, which is then transitively reduced;
  - the data arcs `dst -> src -> toProperty -> fromProperty`;
  - the reverse edges;
  - a stdout/stderr log-file name for each operation.

  `ModelOperation.net` and `parse_workflow_xml` then compile the model into
  a Petri net with two layers:
  - each operation becomes a subnet with start, success and failure ports;
  - bridges follow the edges, every failure goes to the model's failure
    place, and an outer success/failure envelope surrounds the whole.
- **The older redis-flow parser** (`flow_workflow/workflowxml.py`). `Parser`
  does the same reading over a DOM, with jobs numbered from 2, and `flow()`
  turns the result into flow nodes: successors, JSON-encoded input
  connections and in-degrees.
- **The Perl action net** (`operations/perl_actions/future_nets.py`). A
  shortcut stage is tried first. If it fails, an execute stage runs locally
  or through LSF.
- **The Converge net** (`entities/converge/future_nets.py`). One converge
  transition sits between the internal start and success transitions.
- **`order_outputs`** (`petri_net/actions/converge.py`). It gathers the
  inputs named by the property order into one list stored under the first
  output property, next to `result = 1`.
- **`store_variable` and `store_outputs`** (`io/store.py`). Every output
  is written into the net's variables under its own key. Then the list of
  output names is written.
- **The historian's update guard** (`historian/service_interface.py`).
  Updates with a negative plan id are dropped. Every other update is
  published once to the configured exchange and routing key.

Code that updates objects in place is modelled as classes with `modifies`
clauses:
- `ModelOperation`, `Parser`, the net builder, `PerlActionNet`, `ConvergeNet`;
- the net whose variables `store` writes;
- the historian, whose broker is the sequence of publications it has received.

Each such method is tied to a pure specification function of the old
state. Lemmas then prove the properties of that function.

Where the code and its documentation disagree, the model follows the code.
Four cases:
- In `workflowxml.py` a Converge operation can never be built: its
  constructor calls the base constructor with one argument too many.
- A missing `name` in a `workflowxml.py` error message raises `NameError`
  instead of the intended `RuntimeError`. Errors are modelled by their
  cause, not by their exception class or message.
- In `xmladapter.py` a name that appears twice among a model's operations
  maps to the last one, because a dict is built from pairs.
- In `order_outputs`, a first output property named `result` is
  overwritten by `result = 1`.

Files:
- `wrappers.dfy`: Option, Result, Outcome.
- `xmldoc.dfy`: elements and the two lookups (direct children, pre-order
  descendants).
- `lognames.dfy`: log-file names.
- `digraph.dfy`: edge maps, inverses, reachability.
- `graphmodel.dfy`: errors, data arcs and link application.
- `xmladapter.dfy`: ModelOperation.
- `net_synthesis.dfy`: ModelOperation.net and parse_workflow_xml.
- `workflowxml.dfy`: Parser and flow.
- `values.dfy`, `converge_action.dfy`, `store.dfy`: workflow values,
  order_outputs and the store functions.
- `net_parts.dfy`, `perl_nets.dfy`, `converge_net.dfy`: the operation nets.
- `historian.dfy`: the historian's update guard.

## Model

| member | source | states |
|---|---|---|
| XmlDoc.FindAll | flow_workflow/xmladapter.py:32 | `findall(tag)` returns only direct children with that tag, and every direct child with that tag is among them |
| XmlDoc.ChildrenWithTag | flow_workflow/xmladapter.py:216 | filtering children by tag keeps every child with the tag and nothing else, and never lengthens the list |
| XmlDoc.ChildrenWithTagCount | flow_workflow/xmladapter.py:216 | each child with the tag occurs in the result as often as among the children; any other element does not occur |
| XmlDoc.ChildrenWithTagConcat | flow_workflow/xmladapter.py:216 | the lookup over two runs of children is the lookup over the first followed by the lookup over the second, so document order is kept |
| XmlDoc.ChildrenWithTagOne | flow_workflow/xmladapter.py:216 | a single child is kept exactly when it has the tag |
| XmlDoc.Texts | flow_workflow/xmladapter.py:102 | `[x.text for x in nodes]`: one text per node, in node order |
| XmlDoc.DocumentElementsTagged | flow_workflow/workflowxml.py:188 | `getElementsByTagName` on the document returns only elements with that tag, and it starts with the root itself when the root has the tag |
| XmlDoc.DescendantsTagged | flow_workflow/workflowxml.py:35 | `getElementsByTagName` below an element returns only elements with that tag |
| XmlDoc.DescendantsSound | flow_workflow/workflowxml.py:35 | every element the descendant lookup returns has the tag and lies somewhere inside the element's subtree |
| XmlDoc.DescendantsComplete | flow_workflow/workflowxml.py:35 | every element with the tag anywhere inside the subtree is returned |
| XmlDoc.DocumentElementsExact | flow_workflow/workflowxml.py:188 | `getElementsByTagName` on the document returns exactly the elements of the document with that tag, the root included |
| LogNames.Sanitize | flow_workflow/xmladapter.py:44 | every character outside `[A-Za-z0-9_.-]` becomes `_`, all others are kept, and the length is unchanged |
| LogNames.Basename | flow_workflow/xmladapter.py:44 | the sanitised name cut to the first `MAX_FILENAME_LEN` characters; every character of the result is allowed in a file name |
| LogNames.NatToString | flow_workflow/xmladapter.py:45-46 | `%d` of an id is a non-empty string of digits |
| LogNames.DecimalRoundTrip | flow_workflow/xmladapter.py:45-46 | reading the `%d` text back gives the id again |
| LogNames.PathJoin | flow_workflow/xmladapter.py:47-48 | `os.path.join(dir, file)` starts with `dir` and ends with `file`; a single `/` is inserted between them exactly when `dir` is non-empty and does not already end in `/`; an empty `dir` gives `file` itself |
| LogNames.BeforeFirstDash | flow_workflow/xmladapter.py:45-46 | the longest dash-free prefix: no dash inside it, and a dash right after it unless it is the whole string |
| LogNames.DigitsBeforeDash | flow_workflow/xmladapter.py:45-46 | in `"<id>-<basename>.out"` the part before the first dash is exactly the id's digits |
| LogNames.LogNameInjective | flow_workflow/xmladapter.py:44-48 | two operations get the same log-file name only when they have the same id and the same basename |
| Digraph.WithEdge | flow_workflow/xmladapter.py:224 | `edges.setdefault(src, set()).add(dst)`: `src` gains `dst` as a successor and every other entry is unchanged |
| Digraph.Inverse | flow_workflow/xmladapter.py:198-201 | the reverse-edge map is the inverse of the edge map: `s in rev[d]` exactly when `d in edges[s]`, and only nodes with a predecessor are keys |
| Digraph.Invert | flow_workflow/xmladapter.py:198-201 | the double loop that fills `rev_edges` produces exactly the inverse of the edges |
| Digraph.InverseIsPredecessors | flow_workflow/workflowxml.py:246-248 | a node is a key of the reverse map exactly when it has a predecessor, and its entry is the set of its predecessors |
| Digraph.InverseUnique | flow_workflow/xmladapter.py:198-201 | the reverse map is fully determined by the edges |
| Digraph.SubgraphKeepsShape | flow_workflow/xmladapter.py:197 | a reduced graph that is a subgraph of the original still has no self-cycles and no edge leaving the operation list |
| GraphModel.SetBindings | flow_workflow/xmladapter.py:209 | `data_arcs[dst][src] = {}` sets that one binding map and leaves every other (dst, src) binding unchanged |
| GraphModel.SetArc | flow_workflow/xmladapter.py:240 | `data_arcs[dst][src][toProp] = fromProp` makes that lookup answer `fromProp` and leaves every other lookup unchanged |
| GraphModel.IndexByName | flow_workflow/xmladapter.py:227 | `dict((x.name, x) for x in ops)` holds exactly the operation names, and each maps to the last operation bearing it |
| GraphModel.CheckLink | flow_workflow/xmladapter.py:229-236 | a link resolves exactly when it has both operation attributes naming known operations and both property attributes; the resolved link carries exactly those values |
| GraphModel.ApplyLinksStops | flow_workflow/xmladapter.py:228-240 | the first failing link ends the loop with its error |
| GraphModel.ApplyLinksSucceeds | flow_workflow/xmladapter.py:226-240 | `_parse_links` succeeds exactly when every link resolves and joins two different operations |
| GraphModel.SuccessNeedsGoodLinks | flow_workflow/xmladapter.py:226-240 | a successful `_parse_links` means every link was well formed |
| GraphModel.GoodLinksSucceed | flow_workflow/xmladapter.py:226-240 | when every link is well formed, `_parse_links` succeeds |
| GraphModel.ApplyLinksEdges | flow_workflow/xmladapter.py:226-240 | after `_parse_links` there is an edge s to d exactly when it was there before or some link joins s to d |
| GraphModel.NewEdgeHasLink | flow_workflow/xmladapter.py:238 | every new edge comes from a link |
| GraphModel.OldEdgeKept | flow_workflow/xmladapter.py:238 | applying links never removes an edge |
| GraphModel.LinkEdgeKept | flow_workflow/xmladapter.py:238 | every link's edge is in the final graph |
| GraphModel.EdgesStep | flow_workflow/xmladapter.py:238 | one more link adds exactly its own edge |
| GraphModel.LastLinkWins | flow_workflow/xmladapter.py:240 | when later links never write the same (dst, src, toProperty), the final data arcs hold that link's fromProperty |
| GraphModel.UnwrittenArcKept | flow_workflow/xmladapter.py:240 | a data-arc lookup that no link writes keeps its old answer |
| GraphModel.ApplyLinksWithin | flow_workflow/xmladapter.py:226-240 | applying links keeps every edge and data arc between listed operations and never adds a self-cycle |
| GraphModel.ApplyLinkWithin | flow_workflow/xmladapter.py:229-240 | one applied link keeps every edge and data arc between listed operations and adds no self-cycle |
| GraphModel.SimpleWiring | flow_workflow/xmladapter.py:207-209 | the simple form's wiring is exactly input connector to operation to output connector, plus an empty binding from the input connector |
| XmlAdapter.ParseBase | flow_workflow/xmladapter.py:28-41 | `WorkflowOperation.__init__` succeeds exactly when the operation has a name and exactly one `<operationtype>` child, which becomes its type node |
| XmlAdapter.TypeClassOf | flow_workflow/xmladapter.py:244-256 | `_add_operation` accepts a node exactly when it has a name, one `<operationtype>` child and a `typeClass` among the four known ones; the class is that attribute |
| XmlAdapter.ConvergeConstruction | flow_workflow/xmladapter.py:93-110 | a Converge operation is built exactly when its type node has at least one output property and at least one input property; it keeps the name and both property lists in document order |
| XmlAdapter.CommandConstruction | flow_workflow/xmladapter.py:51-57 | a Command operation is built exactly when its type node has `commandClass`; it keeps the name, that class as its Perl class, and the operation's `parallelBy` or `""` when absent |
| XmlAdapter.EventConstruction | flow_workflow/xmladapter.py:79-81 | an Event operation is built exactly when its type node has `eventId`; it keeps the name and that id |
| XmlAdapter.LeafOperationNamed | flow_workflow/xmladapter.py:28-48 | a built Command, Event or Converge operation keeps the XML name and gets the log files of its id and sanitised basename in the log directory |
| XmlAdapter.ParseOperations | flow_workflow/xmladapter.py:215-217 | after the first n `<operation>` children, n operations have been built |
| XmlAdapter.ParseOperationsSucceeds | flow_workflow/xmladapter.py:215-217 | the loop succeeds when every one of the first n `<operation>` children builds with identity `2 + i` |
| XmlAdapter.ParseOperationsEntry | flow_workflow/xmladapter.py:215-217 | when the loop succeeds, child i built with identity `2 + i` succeeds and gives entry i; so the loop fails whenever one child fails |
| XmlAdapter.ParseOperationsStops | flow_workflow/xmladapter.py:216-217 | once the loop fails, no later child changes the error |
| XmlAdapter.BuildOperationComplete | flow_workflow/xmladapter.py:243-263 | a built operation is never a connector, and a nested model is itself finished |
| XmlAdapter.BuildModelComplete | flow_workflow/xmladapter.py:165-201 | a built model is finished and named after the XML; its logs are the ones for its log directory (given, else `logDir`, else `.`) |
| XmlAdapter.SimpleWorkflowComplete | flow_workflow/xmladapter.py:203-209 | the simple form yields a well-formed graph whose operations past the connectors are finished |
| XmlAdapter.SimpleShape | flow_workflow/xmladapter.py:203-209 | the simple wiring is well formed |
| XmlAdapter.FullWorkflowComplete | flow_workflow/xmladapter.py:211-240 | the full form yields a well-formed graph whose operations past the connectors are finished |
| XmlAdapter.ParseOperationsComplete | flow_workflow/xmladapter.py:215-217 | every operation the loop builds is finished |
| XmlAdapter.ModelOperation.constructor | flow_workflow/xmladapter.py:179-185 | a model starts with the two connectors, no edges and no data arcs |
| XmlAdapter.ModelOperation.AddEdge | flow_workflow/xmladapter.py:219-224 | a self-cycle is refused and leaves the edges unchanged; any other edge is added |
| XmlAdapter.ModelOperation.AddOperation | flow_workflow/xmladapter.py:243-263 | the node's operation is appended with id equal to its index, or the error is returned and the list is unchanged |
| XmlAdapter.ModelOperation.ParseWorkflowSimple | flow_workflow/xmladapter.py:203-209 | on success the operations, edges and data arcs are exactly the simple form; on failure the error is the build error |
| XmlAdapter.ModelOperation.WireSimple | flow_workflow/xmladapter.py:207-209 | the three wiring steps of the simple form leave exactly edges 0 to 2, 2 to 1 and an empty binding 2 from 0 |
| XmlAdapter.ModelOperation.AddLink | flow_workflow/xmladapter.py:229-240 | one loop iteration moves edges and data arcs exactly as `ApplyLink` specifies, or reports its error |
| XmlAdapter.ModelOperation.ParseLinks | flow_workflow/xmladapter.py:226-240 | the loop over `<link>` children leaves exactly the state `ApplyLinks` specifies, or its first error |
| XmlAdapter.ModelOperation.ParseOperationNodes | flow_workflow/xmladapter.py:215-217 | the operations become the connectors followed by the built children, or the first error is returned |
| XmlAdapter.ModelOperation.ParseNextOperation | flow_workflow/xmladapter.py:216-217 | one iteration of the loop extends the list exactly as `ParseOperations` does |
| XmlAdapter.ModelOperation.ParseWorkflow | flow_workflow/xmladapter.py:211-213 | operations, then links: the state equals the full form's graph, or its error |
| XmlAdapter.ModelOperation.Populate | flow_workflow/xmladapter.py:191-195 | an `<operation>` root that is not a Model takes the simple form, anything else the full form; the state equals the chosen graph or its error |
| XmlAdapter.ModelOperation.ReduceAndIndex | flow_workflow/xmladapter.py:197-201 | the edges are transitively reduced and the reverse edges are their exact inverse |
| XmlAdapter.NewModelOperation | flow_workflow/xmladapter.py:165-201 | building a `ModelOperation` succeeds exactly when the pure `BuildModel` does; the object's state is that model, or its error is returned |
| NetSynthesis.PortsOf | flow_workflow/xmladapter.py:121-149 | only the two connectors lack a failure port, and a connector's start is its success |
| NetSynthesis.PortsInside | flow_workflow/xmladapter.py:121-149 | every port of a subnet lives in that subnet |
| NetSynthesis.LeafSubnet | flow_workflow/xmladapter.py:60-149 | Command: a parallel-by net exactly when `parallelBy` is set, action type `command`, action id the Perl class. Event: an action net with type `event` and the event id. Converge: a converge net with both property lists. Connectors: empty nets, and only the input connector's start stores outputs. Name, id and inputs are passed through |
| NetSynthesis.NetBuilder.AddSubnet | flow_workflow/xmladapter.py:266 | `add_subnet` records the subnet at its path |
| NetSynthesis.NetBuilder.BridgeTransitions | flow_workflow/xmladapter.py:275-281 | `bridge_transitions(a, b)` adds exactly a to the new place and the new place to b |
| NetSynthesis.NetBuilder.AddArc | flow_workflow/xmladapter.py:288 | `arcs_out.add` adds exactly one arc |
| NetSynthesis.NetBuilder.OperationNet | flow_workflow/xmladapter.py:270-273 | `op.net(...)` returns the operation's ports and adds exactly its arcs and subnets |
| NetSynthesis.NetBuilder.ModelOperationNet | flow_workflow/xmladapter.py:265-298 | `ModelOperation.net` adds exactly the model's arcs (nested ones included) and subnets and returns the model's ports |
| NetSynthesis.NetBuilder.BuildSubnets | flow_workflow/xmladapter.py:270-273 | the first loop builds every operation's subnet at index i and returns their ports |
| NetSynthesis.NetBuilder.BuildSubnet | flow_workflow/xmladapter.py:271-273 | one iteration of the first loop builds the subnet of operation i at index i and returns its ports |
| NetSynthesis.NetBuilder.WireLevel | flow_workflow/xmladapter.py:275-296 | the end bridges, then for every subnet its failure arc and a bridge per out-edge |
| NetSynthesis.NetBuilder.WireSubnet | flow_workflow/xmladapter.py:285-296 | one iteration of the second loop adds exactly that subnet's failure arc and out-edge bridges |
| NetSynthesis.NetBuilder.BridgeAll | flow_workflow/xmladapter.py:294-296 | one bridge from the success port to the start of every successor |
| NetSynthesis.NetBuilder.ParseWorkflowXml | flow_workflow/xmladapter.py:301-319 | a document that fails to parse leaves only the outer `workflow` net. Otherwise the outer net is renamed after the model, holds the model net at index 0 and the envelope arcs, and the model's start merges tokens `output` to `output` |
| NetSynthesis.NetBuilder.Envelope | flow_workflow/xmladapter.py:304-317 | the model net goes inside the outer net, with start to start, success to success and failure to failure, and the merge action on the model's start |
| NetSynthesis.NestedArcsInside | flow_workflow/xmladapter.py:270-273 | every arc a nested model adds stays inside that model's subnet |
| NetSynthesis.NetArcsUnder | flow_workflow/xmladapter.py:265-298 | every arc of a model net joins two nodes of that net |
| NetSynthesis.NestedArcsUnderParent | flow_workflow/xmladapter.py:270-273 | nested arcs stay inside the parent net |
| NetSynthesis.OwnArcsUnder | flow_workflow/xmladapter.py:275-296 | the arcs a model draws itself stay inside its net |
| NetSynthesis.ModelEnds | flow_workflow/xmladapter.py:275-281 | the model's start is bridged to the input connector and the output connector to the model's success |
| NetSynthesis.EdgeBridged | flow_workflow/xmladapter.py:290-296 | u's success is bridged to v's start exactly when v is a successor of u in the reduced edges |
| NetSynthesis.SuccessorBridged | flow_workflow/xmladapter.py:291-296 | every successor of u gets a bridge from u's success to its start |
| NetSynthesis.BridgeOnlyForSuccessor | flow_workflow/xmladapter.py:285-296 | a bridge from u's success to v's start exists only when v is a successor of u |
| NetSynthesis.FailureFanIn | flow_workflow/xmladapter.py:285-288 | every subnet with a failure transition feeds the model's failure place |
| NetSynthesis.FailureSources | flow_workflow/xmladapter.py:285-288 | only subnet failure transitions feed the failure place |
| WorkflowXml.SetLogFiles | flow_workflow/workflowxml.py:56-61 | stdout and stderr are `<job number>-<basename>.out/.err` in the log directory, with the basename cut to 30 characters |
| WorkflowXml.TypeClassOf | flow_workflow/workflowxml.py:213-220 | a node is accepted exactly when it has one `<operationtype>` descendant with a `typeClass` of Command or Converge |
| WorkflowXml.NewJob | flow_workflow/workflowxml.py:46-96 | a Command job is built exactly when the name and `commandClass` are present; it carries its job number, Perl class, `parallelBy` (default empty) and log files. A Converge job always fails |
| WorkflowXml.BuildJob | flow_workflow/workflowxml.py:212-228 | a built job is a Command numbered by its index |
| WorkflowXml.ParseJobs | flow_workflow/workflowxml.py:187-189 | n nodes give n Command jobs numbered 2, 3, ... |
| WorkflowXml.ParseJobsSucceeds | flow_workflow/workflowxml.py:187-189 | the loop succeeds when each of the first n nodes builds as job `2 + i` |
| WorkflowXml.ParseJobsEntry | flow_workflow/workflowxml.py:187-189 | when the loop succeeds, node i builds as job `2 + i` and gives job i; so the loop fails whenever one node fails |
| WorkflowXml.ParseJobsStops | flow_workflow/workflowxml.py:188-189 | once failed, no later node changes the error |
| WorkflowXml.ParseDocument | flow_workflow/workflowxml.py:138-171 | a root other than `workflow` or `operation` is refused by its tag; a parsed workflow is named after the root's `name` and its log directory is `logDir` or `.` |
| WorkflowXml.ParsedShape | flow_workflow/workflowxml.py:138-171 | a parsed workflow starts with the two connectors, numbers every job by its index, has only Command jobs after them, and its reverse edges invert its edges |
| WorkflowXml.ConnectorsThenJobs | flow_workflow/workflowxml.py:140-143 | the connectors at 0 and 1 followed by jobs numbered from 2 give a list numbered by index |
| WorkflowXml.SimpleForm | flow_workflow/workflowxml.py:173-181 | an `<operation>` root succeeds exactly when its jobs build and there is exactly one of them; it then has three operations, the reduced edges 0 to 2 to 1, and an empty binding 2 from 0 |
| WorkflowXml.WorkflowForm | flow_workflow/workflowxml.py:183-210 | a parsed `<workflow>` has the reduced edges and the input connections of applying all its links, and every link is well formed |
| WorkflowXml.ConvergeNeverBuilt | flow_workflow/workflowxml.py:85-87 | a Converge node always fails to build: the constructor call has the wrong arity |
| WorkflowXml.NodeOf | flow_workflow/workflowxml.py:63-126 | a Command becomes a parallel-by flow exactly when `parallelBy` is set, else a command node, each with its name, class and log files; only the input connector becomes the start node, carrying the connector's outputs; a parallel-by flow forks over the job's `parallelBy` property |
| WorkflowXml.Serialized | flow_workflow/workflowxml.py:243 | one encoded value per source job |
| WorkflowXml.Parser.constructor | flow_workflow/workflowxml.py:140-145 | the parser starts with the two connectors, no edges and no input connections |
| WorkflowXml.Parser.AddEdge | flow_workflow/workflowxml.py:191-195 | a self-cycle is refused and leaves the edges unchanged; any other edge is added |
| WorkflowXml.Parser.AddOperation | flow_workflow/workflowxml.py:212-228 | the node's job is appended with its index as job number, or the error is returned and the list is unchanged |
| WorkflowXml.Parser.ParseOperations | flow_workflow/workflowxml.py:187-189 | the jobs become the connectors followed by `ParseJobs`, or its error |
| WorkflowXml.Parser.ParseNextJob | flow_workflow/workflowxml.py:188-189 | one iteration extends the list as `ParseJobs` does |
| WorkflowXml.Parser.AddLink | flow_workflow/workflowxml.py:199-210 | one link iteration moves edges and input connections as `ApplyLink` does |
| WorkflowXml.Parser.ParseLinks | flow_workflow/workflowxml.py:197-210 | the link loop leaves exactly the state `ApplyLinks` specifies, or its first error |
| WorkflowXml.Parser.ParseWorkflowSimple | flow_workflow/workflowxml.py:173-181 | the jobs are parsed first; more or fewer than one job fails with the count; otherwise the wiring is edges 0 to 2 to 1 and an empty binding 2 from 0 |
| WorkflowXml.Parser.ParseWorkflow | flow_workflow/workflowxml.py:183-185 | jobs, then links: the state is what the two loops specify, or the first error |
| WorkflowXml.Parser.ParseRoot | flow_workflow/workflowxml.py:147-165 | dispatch on the root tag: the state equals the parsed body or its error |
| WorkflowXml.Parser.ReduceAndIndex | flow_workflow/workflowxml.py:166-171 | the edges are transitively reduced and the reverse edges are their inverse |
| WorkflowXml.Parser.Flow | flow_workflow/workflowxml.py:230-251 | one node per job, in order: its kind, successors, encoded input connections when it has any, and in-degree equal to its number of predecessors when it has any |
| WorkflowXml.Parser.SetSuccessors | flow_workflow/workflowxml.py:235-240 | each node's successors are its out-edges, empty when it has none |
| WorkflowXml.Parser.SetInputConnections | flow_workflow/workflowxml.py:242-244 | nodes with input connections get them encoded; the others are unchanged |
| WorkflowXml.Parser.SetIndegrees | flow_workflow/workflowxml.py:246-248 | nodes in the reverse map get their predecessor count; the others are unchanged |
| WorkflowXml.NewParser | flow_workflow/workflowxml.py:138-171 | constructing a `Parser` succeeds exactly when `ParseDocument` does; the object's state is that workflow, or its error is returned |
| ConvergeAction.MergedList | flow_workflow/petri_net/actions/converge.py:15 | the list exists exactly when every ordered key is an input; it holds `inputs[order[j]]` at j; otherwise the error names the first missing key |
| ConvergeAction.OrderOutputs | flow_workflow/petri_net/actions/converge.py:14-20 | success exactly when every ordered key is present and there is an output property. A missing key wins over an empty output list. The result has exactly the keys `outputs[0]` and `result`, with `result` = 1 |
| ConvergeAction.OrderOutputsList | flow_workflow/petri_net/actions/converge.py:15-17 | when the first output is not `result`, it holds the list of the ordered inputs |
| ConvergeAction.ResultNameCollides | flow_workflow/petri_net/actions/converge.py:16-19 | a first output named `result` is lost: the result is just `result` = 1 |
| ConvergeAction.LaterOutputsDropped | flow_workflow/petri_net/actions/converge.py:16-19 | output properties after the first are never set |
| ConvergeAction.MergeIgnoresOtherInputs | flow_workflow/petri_net/actions/converge.py:15 | inputs not named in the order do not affect the list |
| ConvergeAction.OrderOutputsIgnoresOtherInputs | flow_workflow/petri_net/actions/converge.py:14-20 | inputs not named in the order do not affect the result |
| Store.WriteOutputsEffect | flow_workflow/io/store.py:20-21 | after the loop every output can be read under its own key, and every other variable is unchanged |
| Store.StoredReadable | flow_workflow/io/store.py:16-24 | after `store_outputs`, every output can be read back under its key |
| Store.StoredKeyList | flow_workflow/io/store.py:23-24 | the outputs-list variable names each output exactly once |
| Store.ListingSize | flow_workflow/io/store.py:20-24 | an iteration order that visits each key once is as long as the dict, so the outputs list has one name per output |
| Store.StoredFrame | flow_workflow/io/store.py:16-24 | variables under neither an output key nor the outputs-list key are untouched |
| Store.WriteOrderIrrelevant | flow_workflow/io/store.py:20-21 | the dict's iteration order does not change the stored outputs |
| Store.Net.SetVariable | flow_workflow/io/store.py:13 | `set_variable` sets exactly that key |
| Store.StoreVariable | flow_workflow/io/store.py:9-13 | the value is set under the output key for (operation, name, parallel index) |
| Store.StoreOutputs | flow_workflow/io/store.py:16-24 | absent or empty data changes nothing. Otherwise each output is stored under its key and then the list of names is written; the order returned visits each key once |
| PerlNets.ActionType | flow_workflow/operations/perl_actions/future_nets.py:84-89 | `CommandNet` has action type `command`, `EventNet` has `event` |
| PerlNets.ExecuteDispatch | flow_workflow/operations/perl_actions/future_nets.py:17-22 | the execute stage dispatches through LSF exactly when executing remotely, else through a local fork; never through the shortcut |
| PerlNets.ExecuteArgs | flow_workflow/operations/perl_actions/future_nets.py:59-61 | the execute arguments are the shared ones plus `lsf_options = {'project': project_name}`, and nothing else changes |
| PerlNets.PerlActionNet.constructor | flow_workflow/operations/perl_actions/future_nets.py:41-79 | the shortcut subnet gets the shared arguments and the execute subnet the extended copy. The five bridges are exactly start to shortcut, shortcut success to success, shortcut failure to execute (`shortcut-failed`), execute failure to failure, and execute success to success |
| PerlNets.PerlActionNet.AddSubnet | flow_workflow/operations/perl_actions/future_nets.py:56-64 | `add_subnet` appends and returns the new subnet's index |
| PerlNets.PerlActionNet.BridgePlaces | flow_workflow/operations/perl_actions/future_nets.py:67-79 | `bridge_places(a, b)` adds exactly a to the new transition and the new transition to b |
| PerlNets.ShortcutFailureNeedsExecute | flow_workflow/operations/perl_actions/future_nets.py:73-79 | however the stages are wired inside, a shortcut failure reaches the net's failure only through the execute stage |
| PerlNets.SideIsClosed | flow_workflow/operations/perl_actions/future_nets.py:66-79 | the same conclusion for any wiring whose arcs out of the shortcut side stay there or enter the execute stage |
| PerlNets.ExecuteFailureReachesFailure | flow_workflow/operations/perl_actions/future_nets.py:73-77 | once the execute stage fails, the net's failure is reached |
| PerlNets.ShortcutSuccessSkipsExecute | flow_workflow/operations/perl_actions/future_nets.py:70-75 | a successful shortcut never starts the execute stage and leads to the net's success |
| PerlNets.StartEntersShortcut | flow_workflow/operations/perl_actions/future_nets.py:67-69 | the net's start leads only into the shortcut stage |
| ConvergeNets.ConvergeNameInjective | flow_workflow/entities/converge/future_nets.py:21-23 | different operation ids give different `converge(<id>)` transition names |
| ConvergeNets.Chain | flow_workflow/entities/converge/future_nets.py:21-32 | the converge path runs from the internal start transition to the internal success transition |
| ConvergeNets.ConvergeNet.constructor | flow_workflow/entities/converge/future_nets.py:6-32 | the converge action carries exactly the net's operation id, property order, output properties and input connections. It sits on `converge(<id>)`, which `starting` and `succeeding` join to the internal start and success transitions |
| ConvergeNets.ConvergeNet.AddBasicTransition | flow_workflow/entities/converge/future_nets.py:21-23 | the named transition gets its action |
| ConvergeNets.ConvergeNet.BridgeTransitions | flow_workflow/entities/converge/future_nets.py:25-32 | `bridge_transitions(a, b)` adds exactly a to the new place and the new place to b |
| ConvergeNets.ConvergeIsLinear | unit_tests/operations/converge/test_future_nets.py:29-37 | the net's arcs are exactly the steps start, `starting`, converge, `succeeding`, success, so the start reaches the success |
| ConvergeNets.ConvergeNeverFails | flow_workflow/entities/converge/future_nets.py:25-32 | nothing in the net leads to the internal failure transition |
| Historian.Sent | flow_workflow/historian/service_interface.py:19-34 | a negative plan id publishes nothing. Any other call publishes one message with all its fields to the configured exchange and routing key |
| Historian.HistoryIsKept | flow_workflow/historian/service_interface.py:18-34 | over any series of calls, the broker gets one message per call with a non-negative plan id, in call order, each with that call's fields |
| Historian.NoNegativePlan | flow_workflow/historian/service_interface.py:19-26 | no published message carries a negative plan id |
| Historian.HistorianService.constructor | flow_workflow/historian/service_interface.py:14-17 | the service keeps the injected exchange and routing key, and nothing has been published yet |
| Historian.HistorianService.Update | flow_workflow/historian/service_interface.py:18-34 | a negative plan id leaves the broker untouched and replies at once. Otherwise exactly one message is appended and earlier publications are kept |
| Historian.HistorianService.Publish | flow_workflow/historian/service_interface.py:34 | `broker.publish` appends exactly one publication to the configured exchange and routing key |

## Left out

- `transitive_reduction` is not part of this model. It is a parameter `reduce`; the only thing assumed of it is that it returns a subgraph of its input. Without that, net synthesis would look up a missing subnet.
- lxml and minidom are replaced by an `Element` value (tag, attributes, children, text). `findall` is modelled as direct children and `getElementsByTagName` as pre-order descendants. XML parsing itself is not modelled.
- The net classes of the flow library (`nb.EmptyNet`, `SuccessFailureNet`, `GenomeModelNet`, the shell-command nets, `WorkflowNetBase`) are not part of this model. A net is represented by the subnets added to it, with their arguments, and the arcs drawn, over node names. Places, transitions and their other attributes are not represented.
- `id(self)`: an operation's identity is modelled as its index in the enclosing model's list. Indices are unique within one model, not across nested models.
- `json.dumps`, `os.path.join` for absolute file names, and `common.output_variable_name` / `op_outputs_variable_name` are not part of this model. They are parameters (the key builders carry their injectivity and disjointness as preconditions), or `PathJoin` for relative names only.
- `Flow.create`, the redis connection, `flow.node_keys`, the `__main__` driver of `workflowxml.py` and its `print` statements are I/O and are left out.
- Logging (`LOG.debug`) is left out.
- Missing element text: an element without text has text `""` in the model, whereas lxml gives `None`. So `[x.text for x in nodes]` in a Converge operation (flow_workflow/xmladapter.py:102 and 110) puts `None` into the input-property or output-property list in the source, and `""` in the model.
- `GenomeConvergeAction.execute`: loading inputs from tokens, creating the output token and the deferred are not modelled; only `order_outputs` is.
- The Perl command line and the dispatch actions' behaviour are not modelled. Neither are the subnet `name` argument (which `ExecuteNet` drops anyway) and the historian observers (marked unfinished in the source).
- Twisted deferreds: `update` returns `Ignored` for the fired deferred and `Published(position)` for the pending publication.
- Exceptions are modelled as `Error` values by their cause: a missing attribute, a wrong tag count, an unknown type, a self-cycle, a bad root tag, a simple workflow without exactly one operation, a broken Converge. The exception class and message are not modelled, including where a message refers to an undefined variable and `NameError` is raised instead.
- Iteration order of Python sets and dicts is not modelled, except in `store_outputs`, where the order is a chosen permutation returned by the method.
- Historian.HistorianService.Update: requires that the extra keyword arguments not repeat the named ones, because Python rejects such a call before the body runs.
