/**
 * The lxml-based workflow compiler: operations are built from `<operation>`
 * elements, a Model operation holds a whole workflow graph (the input
 * connector at index 0, the output connector at index 1, then the parsed
 * operations in document order), and control edges plus data arcs come from
 * `<link>` elements. An operation's identity is its index in the enclosing
 * model's operation list.
 */
module XmlAdapter {
  import opened Wrappers
  import opened XmlDoc
  import opened LogNames
  import opened Digraph
  import opened GraphModel

  const MaxFilenameLen: nat := 50

  const ConvergeType := "Workflow::OperationType::Converge"
  const CommandType := "Workflow::OperationType::Command"
  const ModelType := "Workflow::OperationType::Model"
  const EventType := "Workflow::OperationType::Event"

  /** The four kinds `ModelOperation.operation_types` knows. */
  predicate IsOperationType(tc: string)
  {
    tc == ConvergeType || tc == CommandType || tc == ModelType || tc == EventType
  }

  datatype Operation =
    | InputConnector
    | OutputConnector
    | Command(name: string, logs: LogFiles, perlClass: string, parallelBy: string)
    | Event(name: string, logs: LogFiles, eventId: string)
    | Converge(name: string, logs: LogFiles, inputProperties: seq<string>, outputProperties: seq<string>)
    | Model(name: string, logs: LogFiles, graph: Graph)
  {
    function Name(): string
    {
      match this
      case InputConnector => "input connector"
      case OutputConnector => "output connector"
      case _ => name
    }
  }

  /** A built workflow: its operations, control edges, data arcs and predecessor map. */
  datatype Graph = Graph(operations: seq<Operation>, edges: Edges, dataArcs: DataArcs, revEdges: Edges)

  /** The shape every model graph keeps while it is being built. */
  ghost predicate WellFormed(g: Graph)
  {
    && |g.operations| >= 2
    && g.operations[0] == InputConnector && g.operations[1] == OutputConnector
    && EdgesWithin(g.edges, |g.operations|) && NoSelfLoops(g.edges)
    && ArcsWithin(g.dataArcs, |g.operations|)
  }

  /**
   * A finished graph: well formed, its predecessor map is the inverse of its
   * (reduced) edges, connectors appear only at indices 0 and 1, and every
   * nested model is finished too.
   */
  ghost predicate GraphComplete(g: Graph)
    decreases g
  {
    && WellFormed(g) && IsInverse(g.edges, g.revEdges)
    && forall i :: 2 <= i < |g.operations| ==> OperationComplete(g.operations[i])
  }

  ghost predicate OperationComplete(op: Operation)
    decreases op
  {
    && !op.InputConnector? && !op.OutputConnector?
    && (op.Model? ==> GraphComplete(op.graph))
  }

  lemma WellFormedWithEdges(g: Graph, e: Edges)
    requires WellFormed(g) && EdgesWithin(e, |g.operations|) && NoSelfLoops(e)
    ensures WellFormed(g.(edges := e))
  {
  }

  lemma WellFormedWithArcs(g: Graph, a: DataArcs)
    requires WellFormed(g) && ArcsWithin(a, |g.operations|)
    ensures WellFormed(g.(dataArcs := a))
  {
  }

  /** Appending an operation keeps the shape: edges and arcs only name older operations. */
  lemma WellFormedAppend(g: Graph, op: Operation)
    requires WellFormed(g)
    ensures WellFormed(g.(operations := g.operations + [op]))
  {
  }

  function OpNames(ops: seq<Operation>): (r: seq<string>)
    ensures |r| == |ops| && forall i :: 0 <= i < |ops| ==> r[i] == ops[i].Name()
  {
    seq(|ops|, i requires 0 <= i < |ops| => ops[i].Name())
  }

  /** The part `WorkflowOperation.__init__` reads: name, the one `<operationtype>`, log files. */
  datatype Base = Base(name: string, typeNode: Element, logs: LogFiles)

  function ParseBase(xml: Element, logDir: string, id: nat): (r: Result<Base, Error>)
    ensures r.Success? <==> "name" in xml.attrs && |FindAll(xml, "operationtype")| == 1
    ensures r.Success? ==> r.value.typeNode == FindAll(xml, "operationtype")[0] && r.value.name == xml.attrs["name"]
  {
    if "name" !in xml.attrs then Failure(MissingAttribute(xml.tag, "name"))
    else
      var types := FindAll(xml, "operationtype");
      if |types| != 1 then Failure(WrongTypeTagCount(xml.attrs["name"], |types|))
      else Success(Base(xml.attrs["name"], types[0], LogFilesFor(logDir, id, xml.attrs["name"], MaxFilenameLen)))
  }

  /** The checks `_add_operation` makes before building: name, one `<operationtype>`, a known `typeClass`. */
  function TypeClassOf(node: Element): (r: Result<string, Error>)
    ensures r.Success? <==>
      && "name" in node.attrs && |FindAll(node, "operationtype")| == 1
      && "typeClass" in FindAll(node, "operationtype")[0].attrs
      && IsOperationType(FindAll(node, "operationtype")[0].attrs["typeClass"])
    ensures r.Success? ==> r.value == FindAll(node, "operationtype")[0].attrs["typeClass"]
  {
    if "name" !in node.attrs then Failure(MissingAttribute(node.tag, "name"))
    else
      var types := FindAll(node, "operationtype");
      if |types| != 1 then Failure(WrongTypeTagCount(node.attrs["name"], |types|))
      else if "typeClass" !in types[0].attrs then Failure(MissingAttribute("operationtype", "typeClass"))
      else if !IsOperationType(types[0].attrs["typeClass"]) then Failure(UnknownOperationType(types[0].attrs["typeClass"]))
      else Success(types[0].attrs["typeClass"])
  }

  predicate DeclaresModel(node: Element)
  {
    TypeClassOf(node) == Success(ModelType)
  }

  /** Building a Command, Event or Converge operation with identity `id`. */
  function NewLeafOperation(typeClass: string, node: Element, logDir: string, id: nat): Result<Operation, Error>
  {
    match ParseBase(node, logDir, id)
    case Failure(e) => Failure(e)
    case Success(b) =>
      var ta := b.typeNode.attrs;
      if typeClass == CommandType then
        if "commandClass" !in ta then Failure(MissingAttribute("operationtype", "commandClass"))
        else Success(Command(b.name, b.logs, ta["commandClass"], AttrOr(node, "parallelBy", "")))
      else if typeClass == EventType then
        if "eventId" !in ta then Failure(MissingAttribute("operationtype", "eventId"))
        else Success(Event(b.name, b.logs, ta["eventId"]))
      else
        var outputs := FindAll(b.typeNode, "outputproperty");
        if |outputs| < 1 then Failure(WrongPropertyCount(b.name, "outputproperty", |outputs|))
        else
          var inputs := FindAll(b.typeNode, "inputproperty");
          if |inputs| < 1 then Failure(WrongPropertyCount(b.name, "inputproperty", |inputs|))
          else Success(Converge(b.name, b.logs, Texts(inputs), Texts(outputs)))
  }

  /**
   * A Converge operation is built exactly when its `<operationtype>` holds at
   * least one `<outputproperty>` and one `<inputproperty>`; it keeps their texts
   * in document order.
   */
  lemma ConvergeConstruction(node: Element, logDir: string, id: nat)
    requires ParseBase(node, logDir, id).Success?
    ensures var t := ParseBase(node, logDir, id).value.typeNode;
      var r := NewLeafOperation(ConvergeType, node, logDir, id);
      && (r.Success? <==> |FindAll(t, "outputproperty")| >= 1 && |FindAll(t, "inputproperty")| >= 1)
      && (r.Success? ==>
            && r.value.Converge?
            && r.value.name == node.attrs["name"]
            && r.value.inputProperties == Texts(FindAll(t, "inputproperty"))
            && r.value.outputProperties == Texts(FindAll(t, "outputproperty")))
  {
  }

  /**
   * A Command operation is built exactly when its `<operationtype>` names a
   * `commandClass`; it keeps that class and the operation's `parallelBy`, or "".
   */
  lemma CommandConstruction(node: Element, logDir: string, id: nat)
    requires ParseBase(node, logDir, id).Success?
    ensures var t := ParseBase(node, logDir, id).value.typeNode;
      var r := NewLeafOperation(CommandType, node, logDir, id);
      && (r.Success? <==> "commandClass" in t.attrs)
      && (r.Success? ==>
            && r.value.Command?
            && r.value.name == node.attrs["name"]
            && r.value.perlClass == t.attrs["commandClass"]
            && r.value.parallelBy == AttrOr(node, "parallelBy", ""))
  {
  }

  /** An Event operation is built exactly when its `<operationtype>` names an `eventId`, which it keeps. */
  lemma EventConstruction(node: Element, logDir: string, id: nat)
    requires ParseBase(node, logDir, id).Success?
    ensures var t := ParseBase(node, logDir, id).value.typeNode;
      var r := NewLeafOperation(EventType, node, logDir, id);
      && (r.Success? <==> "eventId" in t.attrs)
      && (r.Success? ==> r.value.Event? && r.value.name == node.attrs["name"] && r.value.eventId == t.attrs["eventId"])
  {
  }

  /** Every leaf operation carries its name and log files named after its identity. */
  lemma LeafOperationNamed(typeClass: string, node: Element, logDir: string, id: nat)
    requires NewLeafOperation(typeClass, node, logDir, id).Success?
    ensures var op := NewLeafOperation(typeClass, node, logDir, id).value;
      && "name" in node.attrs && op.Name() == node.attrs["name"]
      && !op.InputConnector? && !op.OutputConnector? && !op.Model?
      && op.logs == LogFilesFor(logDir, id, node.attrs["name"], MaxFilenameLen)
  {
  }

  /** `log_dir or xml.attrib.get("logDir", ".")`: an empty or missing directory falls back. */
  function ModelLogDir(given: string, xml: Element): string
  {
    if given != "" then given else AttrOr(xml, "logDir", ".")
  }

  /*
   * The construction as values. `_add_operation`, `ModelOperation.__init__`,
   * `_parse_workflow_simple`, `_parse_workflow`/`_parse_operations` and
   * `_parse_links` are specified by the functions below; the class further
   * down carries them out by updating its fields, and each of its methods is
   * proved to produce exactly what the corresponding function describes.
   */

  /** The operation `_add_operation(node)` appends at index `id`, or the error it raises. */
  function BuildOperation(node: Element, logDir: string, id: nat, reduce: Edges -> Edges): Result<Operation, Error>
    decreases node, if DeclaresModel(node) then 6 else 1
  {
    match TypeClassOf(node)
    case Failure(e) => Failure(e)
    case Success(tc) => NewOperation(tc, node, logDir, id, reduce)
  }

  /** `self.operation_types[type_class](xml=node, log_dir=self.log_dir)`: the constructor the type names. */
  function NewOperation(typeClass: string, node: Element, logDir: string, id: nat, reduce: Edges -> Edges): Result<Operation, Error>
    requires TypeClassOf(node) == Success(typeClass)
    decreases node, if DeclaresModel(node) then 5 else 0
  {
    if typeClass == ModelType then BuildModel(node, logDir, id, reduce)
    else NewLeafOperation(typeClass, node, logDir, id)
  }

  lemma NewOperationUnfold(typeClass: string, node: Element, logDir: string, id: nat, reduce: Edges -> Edges)
    requires TypeClassOf(node) == Success(typeClass)
    ensures NewOperation(typeClass, node, logDir, id, reduce) ==
      if typeClass == ModelType then BuildModel(node, logDir, id, reduce)
      else NewLeafOperation(typeClass, node, logDir, id)
  {
  }

  /**
   * `ModelOperation(xml, log_dir)` with identity `selfId`: the operation
   * checks, a `typeClass` on its `<operationtype>`, the simple or full form,
   * then transitive reduction of the edges and the predecessor map.
   */
  function BuildModel(xml: Element, givenLogDir: string, selfId: nat, reduce: Edges -> Edges): Result<Operation, Error>
    decreases xml, 4
  {
    var logDir := ModelLogDir(givenLogDir, xml);
    match ParseBase(xml, logDir, selfId)
    case Failure(e) => Failure(e)
    case Success(b) =>
      if "typeClass" !in b.typeNode.attrs then Failure(MissingAttribute("operationtype", "typeClass"))
      else
        match ModelGraph(xml, logDir, IsSimpleForm(xml, b.typeNode), reduce)
        case Failure(e) => Failure(e)
        case Success(g) => Success(Model(b.name, b.logs, g))
  }

  /**
   * The graph of a model: the simple or the full form, then the reduced edges
   * and their predecessor map.
   */
  function ModelGraph(xml: Element, logDir: string, simple: bool, reduce: Edges -> Edges): Result<Graph, Error>
    requires simple ==> !DeclaresModel(xml)
    decreases xml, 3
  {
    var parsed := if simple then SimpleWorkflow(xml, logDir, reduce) else FullWorkflow(xml, logDir, reduce);
    match parsed
    case Failure(e) => Failure(e)
    case Success(g) =>
      var reduced := reduce(g.edges);
      Success(Graph(g.operations, reduced, g.dataArcs, Inverse(reduced)))
  }

  /** A root `<operation>` whose type is not Model is a one-operation workflow. */
  predicate IsSimpleForm(xml: Element, optype: Element)
    requires "typeClass" in optype.attrs
  {
    xml.tag == "operation" && optype.attrs["typeClass"] != ModelType
  }

  /** `_parse_workflow_simple`, before reduction: the root itself is operation 2, between the connectors. */
  function SimpleWorkflow(xml: Element, logDir: string, reduce: Edges -> Edges): Result<Graph, Error>
    requires !DeclaresModel(xml)
    decreases xml, 2
  {
    match BuildOperation(xml, logDir, 2, reduce)
    case Failure(e) => Failure(e)
    case Success(op) =>
      Success(Graph([InputConnector, OutputConnector, op], map[0 := {2}, 2 := {1}], map[2 := map[0 := map[]]], map[]))
  }

  lemma SimpleWorkflowUnfold(xml: Element, logDir: string, reduce: Edges -> Edges)
    requires !DeclaresModel(xml)
    ensures var b := BuildOperation(xml, logDir, 2, reduce);
      SimpleWorkflow(xml, logDir, reduce) ==
        if b.Success? then Success(Graph([InputConnector, OutputConnector, b.value], map[0 := {2}, 2 := {1}], map[2 := map[0 := map[]]], map[]))
        else Failure(b.error)
  {
  }

  /** `_parse_workflow`, before reduction: the `<operation>` children, then the `<link>` children. */
  function FullWorkflow(xml: Element, logDir: string, reduce: Edges -> Edges): Result<Graph, Error>
    decreases xml, 2
  {
    match ParseOperations(xml, |FindAll(xml, "operation")|, logDir, reduce)
    case Failure(e) => Failure(e)
    case Success(ops) =>
      var all := [InputConnector, OutputConnector] + ops;
      match ApplyLinks(IndexByName(OpNames(all)), LinkState(map[], map[]), FindAll(xml, "link"))
      case Failure(e) => Failure(e)
      case Success(st) => Success(Graph(all, st.edges, st.arcs, map[]))
  }

  /** The first `n` `<operation>` children, built in document order with identities 2, 3, ... */
  function ParseOperations(xml: Element, n: nat, logDir: string, reduce: Edges -> Edges): (r: Result<seq<Operation>, Error>)
    requires n <= |FindAll(xml, "operation")|
    ensures r.Success? ==> |r.value| == n
    decreases xml, 1, n
  {
    if n == 0 then Success([])
    else
      var node := FindAll(xml, "operation")[n - 1];
      assert node in xml.children;
      match ParseOperations(xml, n - 1, logDir, reduce)
      case Failure(e) => Failure(e)
      case Success(ops) =>
        match BuildOperation(node, logDir, 2 + (n - 1), reduce)
        case Failure(e) => Failure(e)
        case Success(op) => Success(ops + [op])
  }

  /** Building operation `i` extends the first `i` operations by it. */
  lemma ParseOperationsStep(xml: Element, i: nat, logDir: string, reduce: Edges -> Edges, ops: seq<Operation>, op: Operation)
    requires i < |FindAll(xml, "operation")|
    requires ParseOperations(xml, i, logDir, reduce) == Success(ops)
    requires BuildOperation(FindAll(xml, "operation")[i], logDir, 2 + i, reduce) == Success(op)
    ensures ParseOperations(xml, i + 1, logDir, reduce) == Success(ops + [op])
  {
  }

  lemma ParseOperationsBuildFails(xml: Element, i: nat, logDir: string, reduce: Edges -> Edges, e: Error)
    requires i < |FindAll(xml, "operation")|
    requires ParseOperations(xml, i, logDir, reduce).Success?
    requires BuildOperation(FindAll(xml, "operation")[i], logDir, 2 + i, reduce) == Failure(e)
    ensures ParseOperations(xml, i + 1, logDir, reduce) == Failure(e)
  {
  }

  lemma ParseOperationsPropagates(xml: Element, n: nat, logDir: string, reduce: Edges -> Edges, e: Error)
    requires 0 < n <= |FindAll(xml, "operation")|
    requires ParseOperations(xml, n - 1, logDir, reduce) == Failure(e)
    ensures ParseOperations(xml, n, logDir, reduce) == Failure(e)
  {
  }

  /** Parsing succeeds when every one of the first `n` `<operation>` children builds with identity 2 + its position. */
  lemma {:induction false} ParseOperationsSucceeds(xml: Element, n: nat, logDir: string, reduce: Edges -> Edges)
    requires n <= |FindAll(xml, "operation")|
    requires forall i :: 0 <= i < n ==> BuildOperation(FindAll(xml, "operation")[i], logDir, 2 + i, reduce).Success?
    ensures ParseOperations(xml, n, logDir, reduce).Success?
    decreases n
  {
    if n > 0 {
      ParseOperationsSucceeds(xml, n - 1, logDir, reduce);
    }
  }

  /** On success, entry `i` is what building child `i` with identity 2 + i gives. */
  lemma {:induction false} ParseOperationsEntry(xml: Element, n: nat, i: nat, logDir: string, reduce: Edges -> Edges)
    requires i < n <= |FindAll(xml, "operation")| && ParseOperations(xml, n, logDir, reduce).Success?
    ensures BuildOperation(FindAll(xml, "operation")[i], logDir, 2 + i, reduce) == Success(ParseOperations(xml, n, logDir, reduce).value[i])
    decreases n
  {
    ParseOperationsLast(xml, n, logDir, reduce);
    var prev := ParseOperations(xml, n - 1, logDir, reduce).value;
    if i < n - 1 {
      ParseOperationsEntry(xml, n - 1, i, logDir, reduce);
      assert ParseOperations(xml, n, logDir, reduce).value[i] == prev[i];
    } else {
      assert ParseOperations(xml, n, logDir, reduce).value[i] == BuildOperation(FindAll(xml, "operation")[n - 1], logDir, 2 + (n - 1), reduce).value;
    }
  }

  /** A successful loop over `n` children is the successful loop over `n - 1` followed by child `n - 1`. */
  lemma ParseOperationsLast(xml: Element, n: nat, logDir: string, reduce: Edges -> Edges)
    requires 0 < n <= |FindAll(xml, "operation")| && ParseOperations(xml, n, logDir, reduce).Success?
    ensures ParseOperations(xml, n - 1, logDir, reduce).Success?
    ensures BuildOperation(FindAll(xml, "operation")[n - 1], logDir, 2 + (n - 1), reduce).Success?
    ensures ParseOperations(xml, n, logDir, reduce).value
      == ParseOperations(xml, n - 1, logDir, reduce).value + [BuildOperation(FindAll(xml, "operation")[n - 1], logDir, 2 + (n - 1), reduce).value]
  {
  }

  /** Once the first `i` operations fail, parsing all of them fails with the same error. */
  lemma {:induction false} ParseOperationsStops(xml: Element, n: nat, i: nat, logDir: string, reduce: Edges -> Edges, e: Error)
    requires i <= n <= |FindAll(xml, "operation")|
    requires ParseOperations(xml, i, logDir, reduce) == Failure(e)
    ensures ParseOperations(xml, n, logDir, reduce) == Failure(e)
    decreases n
  {
    if i < n {
      ParseOperationsStops(xml, n - 1, i, logDir, reduce, e);
      ParseOperationsPropagates(xml, n, logDir, reduce, e);
    }
  }

  /**
   * Every operation a successful build produces is a finished operation: not a
   * connector and, for a Model, a finished graph. This is what the net
   * synthesis relies on at every level of nesting.
   */
  lemma {:induction false} BuildOperationComplete(node: Element, logDir: string, id: nat, reduce: Edges -> Edges)
    requires ReducesToSubgraph(reduce) && BuildOperation(node, logDir, id, reduce).Success?
    ensures OperationComplete(BuildOperation(node, logDir, id, reduce).value)
    decreases node, if DeclaresModel(node) then 6 else 1
  {
    var tc := TypeClassOf(node).value;
    NewOperationUnfold(tc, node, logDir, id, reduce);
    if tc == ModelType {
      BuildModelComplete(node, logDir, id, reduce);
    } else {
      LeafOperationNamed(tc, node, logDir, id);
    }
  }

  /** A built model is named after its element, logs under its own directory, and its graph is finished. */
  lemma {:induction false} BuildModelComplete(xml: Element, givenLogDir: string, selfId: nat, reduce: Edges -> Edges)
    requires ReducesToSubgraph(reduce) && BuildModel(xml, givenLogDir, selfId, reduce).Success?
    ensures var m := BuildModel(xml, givenLogDir, selfId, reduce).value;
      && m.Model? && GraphComplete(m.graph)
      && "name" in xml.attrs && m.name == xml.attrs["name"]
      && m.logs == LogFilesFor(ModelLogDir(givenLogDir, xml), selfId, m.name, MaxFilenameLen)
    decreases xml, 4
  {
    var logDir := ModelLogDir(givenLogDir, xml);
    var b := ParseBase(xml, logDir, selfId).value;
    var simple := IsSimpleForm(xml, b.typeNode);
    var g;
    if simple {
      g := SimpleWorkflow(xml, logDir, reduce).value;
      SimpleWorkflowComplete(xml, logDir, reduce);
    } else {
      g := FullWorkflow(xml, logDir, reduce).value;
      FullWorkflowComplete(xml, logDir, reduce);
    }
    SubgraphKeepsShape(reduce(g.edges), g.edges, |g.operations|);
    assert ModelGraph(xml, logDir, simple, reduce).value == Graph(g.operations, reduce(g.edges), g.dataArcs, Inverse(reduce(g.edges)));
  }

  lemma {:induction false} SimpleWorkflowComplete(xml: Element, logDir: string, reduce: Edges -> Edges)
    requires ReducesToSubgraph(reduce) && !DeclaresModel(xml) && SimpleWorkflow(xml, logDir, reduce).Success?
    ensures var g := SimpleWorkflow(xml, logDir, reduce).value;
      WellFormed(g) && forall i :: 2 <= i < |g.operations| ==> OperationComplete(g.operations[i])
    decreases xml, 2
  {
    BuildOperationComplete(xml, logDir, 2, reduce);
    var op := BuildOperation(xml, logDir, 2, reduce).value;
    var g := SimpleWorkflow(xml, logDir, reduce).value;
    assert g == Graph([InputConnector, OutputConnector, op], map[0 := {2}, 2 := {1}], map[2 := map[0 := map[]]], map[]);
    SimpleShape(g);
  }

  lemma SimpleShape(g: Graph)
    requires |g.operations| == 3 && g.operations[0] == InputConnector && g.operations[1] == OutputConnector
    requires g.edges == map[0 := {2}, 2 := {1}] && g.dataArcs == map[2 := map[0 := map[]]]
    ensures WellFormed(g)
  {
    assert g.edges.Keys == {0, 2};
    assert g.dataArcs.Keys == {2} && g.dataArcs[2].Keys == {0};
  }

  lemma {:induction false} FullWorkflowComplete(xml: Element, logDir: string, reduce: Edges -> Edges)
    requires ReducesToSubgraph(reduce) && FullWorkflow(xml, logDir, reduce).Success?
    ensures var g := FullWorkflow(xml, logDir, reduce).value;
      WellFormed(g) && forall i :: 2 <= i < |g.operations| ==> OperationComplete(g.operations[i])
    decreases xml, 2
  {
    var n := |FindAll(xml, "operation")|;
    var ops := ParseOperations(xml, n, logDir, reduce).value;
    ParseOperationsComplete(xml, n, logDir, reduce, ops);
    var all := [InputConnector, OutputConnector] + ops;
    var names := IndexByName(OpNames(all));
    ApplyLinksWithin(names, LinkState(map[], map[]), FindAll(xml, "link"), |all|);
    var g := FullWorkflow(xml, logDir, reduce).value;
    assert g.operations == all;
    forall i | 2 <= i < |all|
      ensures OperationComplete(all[i])
    {
      assert all[i] in ops;
    }
  }

  lemma {:induction false} ParseOperationsComplete(xml: Element, n: nat, logDir: string, reduce: Edges -> Edges, ops: seq<Operation>)
    requires ReducesToSubgraph(reduce) && n <= |FindAll(xml, "operation")|
    requires ParseOperations(xml, n, logDir, reduce) == Success(ops)
    ensures forall o :: o in ops ==> OperationComplete(o)
    decreases xml, 1, n
  {
    if n > 0 {
      var node := FindAll(xml, "operation")[n - 1];
      assert node in xml.children;
      var prev := ParseOperations(xml, n - 1, logDir, reduce).value;
      var op := BuildOperation(node, logDir, 2 + (n - 1), reduce).value;
      assert ops == prev + [op];
      ParseOperationsComplete(xml, n - 1, logDir, reduce, prev);
      BuildOperationComplete(node, logDir, 2 + (n - 1), reduce);
      CompleteAppend(prev, op, ops);
    }
  }

  lemma CompleteAppend(prev: seq<Operation>, op: Operation, ops: seq<Operation>)
    requires ops == prev + [op]
    requires forall o :: o in prev ==> OperationComplete(o)
    requires OperationComplete(op)
    ensures forall o :: o in ops ==> OperationComplete(o)
  {
  }

  lemma AppendToPair<T>(a: seq<T>, x: T)
    requires |a| == 2
    ensures a + [x] == [a[0], a[1], x]
  {
  }

  class ModelOperation {
    const name: string
    const logDir: string
    const logs: LogFiles
    var operations: seq<Operation>
    var edges: Edges
    var dataArcs: DataArcs
    var revEdges: Edges

    function Snapshot(): Graph
      reads this
    {
      Graph(operations, edges, dataArcs, revEdges)
    }

    ghost predicate Valid()
      reads this
    {
      WellFormed(Snapshot())
    }

    /** The model before any operation is parsed: only the two connectors. */
    constructor (name: string, logDir: string, logs: LogFiles)
      ensures Valid()
      ensures this.name == name && this.logDir == logDir && this.logs == logs
      ensures operations == [InputConnector, OutputConnector]
      ensures edges == map[] && dataArcs == map[] && revEdges == map[]
    {
      this.name := name;
      this.logDir := logDir;
      this.logs := logs;
      operations := [InputConnector, OutputConnector];
      edges := map[];
      dataArcs := map[];
      revEdges := map[];
    }

    /** `add_edge`: refuses a self-cycle, otherwise adds `dst` to the successors of `src`. */
    method AddEdge(src: nat, dst: nat) returns (ok: bool)
      requires Valid() && src < |operations| && dst < |operations|
      modifies this`edges
      ensures Valid()
      ensures ok == (src != dst)
      ensures edges == if ok then WithEdge(old(edges), src, dst) else old(edges)
    {
      if src == dst {
        return false;
      }
      WellFormedWithEdges(Snapshot(), WithEdge(edges, src, dst));
      edges := WithEdge(edges, src, dst);
      return true;
    }

    /** `_add_operation`: appends what `BuildOperation` describes; on failure nothing is appended. */
    method AddOperation(node: Element, reduce: Edges -> Edges) returns (res: Outcome<Error>)
      requires Valid() && ReducesToSubgraph(reduce)
      modifies this`operations
      ensures Valid()
      ensures var b := BuildOperation(node, logDir, |old(operations)|, reduce);
        && (res.Pass? <==> b.Success?)
        && (res.Pass? ==> operations == old(operations) + [b.value])
        && (res.Fail? ==> operations == old(operations) && res.error == b.error)
      decreases node, if DeclaresModel(node) then 6 else 1
    {
      var tc := TypeClassOf(node);
      if tc.Failure? {
        return Fail(tc.error);
      }
      NewOperationUnfold(tc.value, node, logDir, |operations|, reduce);
      var id := |operations|;
      var op;
      if tc.value == ModelType {
        var inner := NewModelOperation(node, logDir, id, reduce);
        if inner.Failure? {
          return Fail(inner.error);
        }
        var m := inner.value;
        op := Model(m.name, m.logs, m.Snapshot());
      } else {
        var leaf := NewLeafOperation(tc.value, node, logDir, id);
        if leaf.Failure? {
          return Fail(leaf.error);
        }
        op := leaf.value;
      }
      WellFormedAppend(Snapshot(), op);
      operations := operations + [op];
      return Pass;
    }

    /**
     * `_parse_workflow_simple`: the root element is the only operation, wired
     * between the connectors; the result is `SimpleWorkflow` (see `SimpleWorkflowUnfold`).
     */
    method ParseWorkflowSimple(xml: Element, reduce: Edges -> Edges) returns (res: Outcome<Error>)
      requires Valid() && ReducesToSubgraph(reduce) && !DeclaresModel(xml)
      requires operations == [InputConnector, OutputConnector] && edges == map[] && dataArcs == map[]
      modifies this`operations, this`edges, this`dataArcs
      ensures Valid()
      ensures var b := BuildOperation(xml, logDir, 2, reduce);
        && (res.Pass? <==> b.Success?)
        && (res.Pass? ==>
              && operations == [InputConnector, OutputConnector, b.value]
              && edges == map[0 := {2}, 2 := {1}] && dataArcs == map[2 := map[0 := map[]]])
        && (res.Fail? ==> res.error == b.error)
      decreases xml, 2
    {
      res := AddOperation(xml, reduce);
      if res.Fail? {
        return;
      }
      AppendToPair([InputConnector, OutputConnector], operations[2]);
      WireSimple();
    }

    /**
     * The wiring of the simple form: input connector -> operation 2 -> output
     * connector, and operation 2 reads from the input connector with no properties.
     */
    method WireSimple()
      requires Valid() && |operations| == 3 && edges == map[] && dataArcs == map[]
      modifies this`edges, this`dataArcs
      ensures Valid()
      ensures edges == map[0 := {2}, 2 := {1}] && dataArcs == map[2 := map[0 := map[]]]
    {
      var ok := AddEdge(0, 2);
      ok := AddEdge(2, 1);
      SimpleWiring();
      WellFormedWithArcs(Snapshot(), map[2 := map[0 := map[]]]);
      dataArcs := SetBindings(dataArcs, 2, 0, map[]);
    }

    /** One `<link>` of `_parse_links`: resolve it, add the control edge, record the data arc. */
    method AddLink(names: map<string, nat>, link: Element) returns (res: Outcome<Error>)
      requires Valid() && forall n :: n in names ==> names[n] < |operations|
      modifies this`edges, this`dataArcs
      ensures Valid()
      ensures var r := ApplyLink(names, LinkState(old(edges), old(dataArcs)), link);
        && (res.Pass? <==> r.Success?)
        && (res.Pass? ==> r.value == LinkState(edges, dataArcs))
        && (res.Fail? ==> r.error == res.error)
    {
      var l := CheckLink(names, link);
      if l.Failure? {
        return Fail(l.error);
      }
      var ok := AddEdge(l.value.src, l.value.dst);
      if !ok {
        return Fail(SelfCycle(l.value.src));
      }
      var a := SetArc(dataArcs, l.value.dst, l.value.src, l.value.toProperty, l.value.fromProperty);
      SetArcWithin(dataArcs, |operations|, l.value.dst, l.value.src, l.value.toProperty, l.value.fromProperty);
      WellFormedWithArcs(Snapshot(), a);
      dataArcs := a;
      return Pass;
    }

    /** `_parse_links`: every direct `<link>` child, in document order; the first bad link aborts. */
    method ParseLinks(xml: Element) returns (res: Outcome<Error>)
      requires Valid()
      modifies this`edges, this`dataArcs
      ensures Valid()
      ensures var st := ApplyLinks(IndexByName(OpNames(operations)), LinkState(old(edges), old(dataArcs)), FindAll(xml, "link"));
        && (res.Pass? <==> st.Success?)
        && (res.Pass? ==> st.value == LinkState(edges, dataArcs))
        && (res.Fail? ==> st.error == res.error)
    {
      var names := IndexByName(OpNames(operations));
      var links := FindAll(xml, "link");
      ghost var st0 := LinkState(edges, dataArcs);
      var i := 0;
      while i < |links|
        invariant 0 <= i <= |links|
        invariant Valid()
        invariant ApplyLinks(names, st0, links[..i]) == Success(LinkState(edges, dataArcs))
      {
        ApplyLinksPrefix(names, st0, links, i, LinkState(edges, dataArcs));
        res := AddLink(names, links[i]);
        if res.Fail? {
          ApplyLinksStops(names, st0, links, i + 1, res.error);
          return;
        }
        i := i + 1;
      }
      assert links[..|links|] == links;
      return Pass;
    }

    /** `_parse_operations`: every direct `<operation>` child, in document order. */
    method ParseOperationNodes(xml: Element, reduce: Edges -> Edges) returns (res: Outcome<Error>)
      requires Valid() && ReducesToSubgraph(reduce) && operations == [InputConnector, OutputConnector]
      modifies this`operations
      ensures Valid()
      ensures var p := ParseOperations(xml, |FindAll(xml, "operation")|, logDir, reduce);
        && (res.Pass? <==> p.Success?)
        && (res.Pass? ==> operations == [InputConnector, OutputConnector] + p.value)
        && (res.Fail? ==> res.error == p.error)
      decreases xml, 1, 1
    {
      var n := |FindAll(xml, "operation")|;
      var i := 0;
      while i < n
        invariant 0 <= i <= n
        invariant Valid()
        invariant ParseOperations(xml, i, logDir, reduce).Success?
        invariant operations == [InputConnector, OutputConnector] + ParseOperations(xml, i, logDir, reduce).value
      {
        res := ParseNextOperation(xml, i, reduce);
        if res.Fail? {
          ParseOperationsStops(xml, n, i + 1, logDir, reduce, res.error);
          return;
        }
        i := i + 1;
      }
      return Pass;
    }

    /** One round of `_parse_operations`: operation `i` appended, or the error that ends the loop. */
    method ParseNextOperation(xml: Element, i: nat, reduce: Edges -> Edges) returns (res: Outcome<Error>)
      requires Valid() && ReducesToSubgraph(reduce) && i < |FindAll(xml, "operation")|
      requires ParseOperations(xml, i, logDir, reduce).Success?
      requires operations == [InputConnector, OutputConnector] + ParseOperations(xml, i, logDir, reduce).value
      modifies this`operations
      ensures Valid()
      ensures var p := ParseOperations(xml, i + 1, logDir, reduce);
        && (res.Pass? <==> p.Success?)
        && (res.Pass? ==> operations == [InputConnector, OutputConnector] + p.value)
        && (res.Fail? ==> res.error == p.error)
      decreases xml, 1, 0
    {
      ghost var parsed := ParseOperations(xml, i, logDir, reduce).value;
      var node := FindAll(xml, "operation")[i];
      assert node in xml.children;
      assert |operations| == 2 + i;
      res := AddOperation(node, reduce);
      if res.Fail? {
        ParseOperationsBuildFails(xml, i, logDir, reduce, res.error);
        return;
      }
      ghost var op := operations[|operations| - 1];
      ParseOperationsStep(xml, i, logDir, reduce, parsed, op);
      AppendOne([InputConnector, OutputConnector], parsed, op);
    }

    /** `_parse_workflow`: the operations, then the links. */
    method ParseWorkflow(xml: Element, reduce: Edges -> Edges) returns (res: Outcome<Error>)
      requires Valid() && ReducesToSubgraph(reduce)
      requires operations == [InputConnector, OutputConnector] && edges == map[] && dataArcs == map[]
      modifies this`operations, this`edges, this`dataArcs
      ensures Valid()
      ensures var w := FullWorkflow(xml, logDir, reduce);
        && (res.Pass? <==> w.Success?)
        && (res.Pass? ==> operations == w.value.operations && edges == w.value.edges && dataArcs == w.value.dataArcs)
        && (res.Fail? ==> res.error == w.error)
      decreases xml, 2
    {
      res := ParseOperationNodes(xml, reduce);
      if res.Fail? {
        return;
      }
      res := ParseLinks(xml);
    }

    /**
     * The body of `ModelOperation.__init__` after the connectors are in place:
     * the simple or full form, then reduction and the predecessor map. The
     * fields end up holding exactly the graph `ModelGraph` describes.
     */
    method Populate(xml: Element, simple: bool, reduce: Edges -> Edges) returns (res: Outcome<Error>)
      requires Valid() && ReducesToSubgraph(reduce) && (simple ==> !DeclaresModel(xml))
      requires operations == [InputConnector, OutputConnector] && edges == map[] && dataArcs == map[]
      modifies this`operations, this`edges, this`dataArcs, this`revEdges
      ensures Valid()
      ensures var g := ModelGraph(xml, logDir, simple, reduce);
        && (res.Pass? <==> g.Success?)
        && (res.Pass? ==> Snapshot() == g.value)
        && (res.Fail? ==> res.error == g.error)
      decreases xml, 3
    {
      if simple {
        SimpleWorkflowUnfold(xml, logDir, reduce);
        res := ParseWorkflowSimple(xml, reduce);
      } else {
        res := ParseWorkflow(xml, reduce);
      }
      if res.Fail? {
        return;
      }
      ReduceAndIndex(reduce);
    }

    /** `edges = transitive_reduction(edges)`, then the predecessor-map loop over the reduced edges. */
    method ReduceAndIndex(reduce: Edges -> Edges)
      requires Valid() && ReducesToSubgraph(reduce)
      modifies this`edges, this`revEdges
      ensures Valid()
      ensures edges == reduce(old(edges)) && revEdges == Inverse(edges)
    {
      SubgraphKeepsShape(reduce(edges), edges, |operations|);
      WellFormedWithEdges(Snapshot(), reduce(edges));
      edges := reduce(edges);
      revEdges := Invert(edges);
    }
  }

  /** `ModelOperation(xml, log_dir)` with identity `selfId`, carried out by a fresh `ModelOperation`. */
  method NewModelOperation(xml: Element, givenLogDir: string, selfId: nat, reduce: Edges -> Edges)
    returns (r: Result<ModelOperation, Error>)
    requires ReducesToSubgraph(reduce)
    ensures var b := BuildModel(xml, givenLogDir, selfId, reduce);
      && (r.Success? <==> b.Success?)
      && (r.Success? ==>
            && fresh(r.value) && r.value.Valid()
            && r.value.logDir == ModelLogDir(givenLogDir, xml)
            && Model(r.value.name, r.value.logs, r.value.Snapshot()) == b.value)
      && (r.Failure? ==> r.error == b.error)
    decreases xml, 4
  {
    var logDir := ModelLogDir(givenLogDir, xml);
    var base := ParseBase(xml, logDir, selfId);
    if base.Failure? {
      return Failure(base.error);
    }
    var optype := base.value.typeNode;
    if "typeClass" !in optype.attrs {
      return Failure(MissingAttribute("operationtype", "typeClass"));
    }
    var m := new ModelOperation(base.value.name, logDir, base.value.logs);
    var outcome := m.Populate(xml, IsSimpleForm(xml, optype), reduce);
    if outcome.Fail? {
      return Failure(outcome.error);
    }
    return Success(m);
  }
}
