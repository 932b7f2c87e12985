/**
 * The minidom-based workflow compiler (`Parser`): operations are numbered by
 * their position in the operation list (the job number), elements are found
 * by document-wide, pre-order tag lookup, and `flow()` turns the parsed graph
 * into one flow node per operation with its successors, input connections and
 * in-degree.
 */
module WorkflowXml {
  import opened Wrappers
  import opened XmlDoc
  import opened LogNames
  import opened Digraph
  import opened GraphModel

  const MaxFilenameLen: nat := 30

  const InputConnectorId: nat := 0
  const OutputConnectorId: nat := 1
  const FirstOperationId: nat := 2

  const CommandType := "Workflow::OperationType::Command"
  const ConvergeType := "Workflow::OperationType::Converge"

  /** The two kinds `Parser.operation_types` knows. */
  predicate IsKnownType(tc: string)
  {
    tc == CommandType || tc == ConvergeType
  }

  /** The two root tags the constructor dispatches on. */
  predicate IsKnownRoot(tag: string)
  {
    tag == "workflow" || tag == "operation"
  }

  /** An entry of `Parser.operations`; every entry knows its job number. */
  datatype Job =
    | InputConnector(jobNumber: nat, outputs: map<string, string>)
    | OutputConnector(jobNumber: nat)
    | Command(jobNumber: nat, name: string, perlClass: string, parallelBy: string, logs: LogFiles)
  {
    function Name(): string
    {
      match this
      case InputConnector(_, _) => "input connector"
      case OutputConnector(_) => "output connector"
      case Command(_, name, _, _, _) => name
    }
  }

  function JobNames(jobs: seq<Job>): (r: seq<string>)
    ensures |r| == |jobs| && forall i :: 0 <= i < |jobs| ==> r[i] == jobs[i].Name()
  {
    seq(|jobs|, i requires 0 <= i < |jobs| => jobs[i].Name())
  }

  /** `_set_log_files`: stdout and stderr files named after the job number and the cut, sanitised name. */
  function SetLogFiles(logDir: string, jobNumber: nat, name: string): (r: LogFiles)
    ensures var base := Basename(name, MaxFilenameLen);
      && |base| == Min(|name|, MaxFilenameLen)
      && r.stdout == PathJoin(logDir, NatToString(jobNumber) + "-" + base + ".out")
      && r.stderr == PathJoin(logDir, NatToString(jobNumber) + "-" + base + ".err")
  {
    LogFilesFor(logDir, jobNumber, name, MaxFilenameLen)
  }

  /**
   * The checks `_add_operation` makes: exactly one `<operationtype>` below the
   * operation, a `typeClass` on it, and a type the parser knows.
   */
  function TypeClassOf(node: Element): (r: Result<string, Error>)
    ensures r.Success? <==>
      && |Descendants(node, "operationtype")| == 1
      && "typeClass" in Descendants(node, "operationtype")[0].attrs
      && IsKnownType(Descendants(node, "operationtype")[0].attrs["typeClass"])
    ensures r.Success? ==> r.value == Descendants(node, "operationtype")[0].attrs["typeClass"]
  {
    var types := Descendants(node, "operationtype");
    if |types| != 1 then Failure(WrongTypeTagCount(AttrOr(node, "name", ""), |types|))
    else if "typeClass" !in types[0].attrs then Failure(MissingAttribute("operationtype", "typeClass"))
    else if !IsKnownType(types[0].attrs["typeClass"]) then Failure(UnknownOperationType(types[0].attrs["typeClass"]))
    else Success(types[0].attrs["typeClass"])
  }

  /**
   * `self.operation_types[type_class](job_number=idx, ...)`. The Converge class
   * passes one argument too many to its base constructor, so building it always
   * fails; a Command reads its name, its `commandClass` and `parallelBy` (the
   * base constructor counts the `<operationtype>` tags again, which cannot
   * fail once the checks have passed).
   */
  function NewJob(typeClass: string, node: Element, logDir: string, idx: nat): (r: Result<Job, Error>)
    requires TypeClassOf(node) == Success(typeClass)
    ensures r.Success? <==> typeClass == CommandType && "name" in node.attrs && "commandClass" in Descendants(node, "operationtype")[0].attrs
    ensures r.Success? ==>
      && r.value.Command? && r.value.jobNumber == idx && r.value.name == node.attrs["name"]
      && r.value.perlClass == Descendants(node, "operationtype")[0].attrs["commandClass"]
      && r.value.parallelBy == AttrOr(node, "parallelBy", "")
      && r.value.logs == SetLogFiles(logDir, idx, node.attrs["name"])
    ensures typeClass == ConvergeType ==> r == Failure(BrokenConverge(AttrOr(node, "name", "")))
  {
    if typeClass == ConvergeType then Failure(BrokenConverge(AttrOr(node, "name", "")))
    else if "name" !in node.attrs then Failure(MissingAttribute(node.tag, "name"))
    else
      var types := Descendants(node, "operationtype");
      if "commandClass" !in types[0].attrs then Failure(MissingAttribute("operationtype", "commandClass"))
      else
        var name := node.attrs["name"];
        Success(Command(idx, name, types[0].attrs["commandClass"], AttrOr(node, "parallelBy", ""), SetLogFiles(logDir, idx, name)))
  }

  /** `_add_operation(node)` with the operation list `idx` long: the job it appends, or why it fails. */
  function BuildJob(node: Element, logDir: string, idx: nat): (r: Result<Job, Error>)
    ensures r.Success? ==> r.value.Command? && r.value.jobNumber == idx
  {
    match TypeClassOf(node)
    case Failure(e) => Failure(e)
    case Success(tc) => NewJob(tc, node, logDir, idx)
  }

  /** `_parse_operations` over the first `n` of `nodes`: jobs numbered 2, 3, ... in document order. */
  function ParseJobs(nodes: seq<Element>, logDir: string, n: nat): (r: Result<seq<Job>, Error>)
    requires n <= |nodes|
    ensures r.Success? ==> |r.value| == n
    ensures r.Success? ==> forall i :: 0 <= i < n ==> r.value[i].Command? && r.value[i].jobNumber == FirstOperationId + i
  {
    if n == 0 then Success([])
    else
      match ParseJobs(nodes, logDir, n - 1)
      case Failure(e) => Failure(e)
      case Success(jobs) =>
        match BuildJob(nodes[n - 1], logDir, FirstOperationId + (n - 1))
        case Failure(e) => Failure(e)
        case Success(job) => Success(jobs + [job])
  }

  lemma ParseJobsStep(nodes: seq<Element>, logDir: string, i: nat, jobs: seq<Job>, job: Job)
    requires i < |nodes| && ParseJobs(nodes, logDir, i) == Success(jobs)
    requires BuildJob(nodes[i], logDir, FirstOperationId + i) == Success(job)
    ensures ParseJobs(nodes, logDir, i + 1) == Success(jobs + [job])
  {
  }

  lemma ParseJobsBuildFails(nodes: seq<Element>, logDir: string, i: nat, e: Error)
    requires i < |nodes| && ParseJobs(nodes, logDir, i).Success?
    requires BuildJob(nodes[i], logDir, FirstOperationId + i) == Failure(e)
    ensures ParseJobs(nodes, logDir, i + 1) == Failure(e)
  {
  }

  /** Parsing succeeds when each of the first `n` nodes builds as job 2 + its position. */
  lemma {:induction false} ParseJobsSucceeds(nodes: seq<Element>, logDir: string, n: nat)
    requires n <= |nodes|
    requires forall i :: 0 <= i < n ==> BuildJob(nodes[i], logDir, FirstOperationId + i).Success?
    ensures ParseJobs(nodes, logDir, n).Success?
    decreases n
  {
    if n > 0 {
      ParseJobsSucceeds(nodes, logDir, n - 1);
      var job := BuildJob(nodes[n - 1], logDir, FirstOperationId + (n - 1)).value;
      ParseJobsStep(nodes, logDir, n - 1, ParseJobs(nodes, logDir, n - 1).value, job);
    }
  }

  /** On success, job `i` is what building node `i` as job 2 + i gives. */
  lemma {:induction false} ParseJobsEntry(nodes: seq<Element>, logDir: string, n: nat, i: nat)
    requires i < n <= |nodes| && ParseJobs(nodes, logDir, n).Success?
    ensures BuildJob(nodes[i], logDir, FirstOperationId + i) == Success(ParseJobs(nodes, logDir, n).value[i])
    decreases n
  {
    ParseJobsLast(nodes, logDir, n);
    if i < n - 1 {
      ParseJobsEntry(nodes, logDir, n - 1, i);
    }
  }

  /** A successful loop over `n` nodes is the successful loop over `n - 1` followed by node `n - 1`. */
  lemma ParseJobsLast(nodes: seq<Element>, logDir: string, n: nat)
    requires 0 < n <= |nodes| && ParseJobs(nodes, logDir, n).Success?
    ensures ParseJobs(nodes, logDir, n - 1).Success? && BuildJob(nodes[n - 1], logDir, FirstOperationId + (n - 1)).Success?
    ensures ParseJobs(nodes, logDir, n).value
      == ParseJobs(nodes, logDir, n - 1).value + [BuildJob(nodes[n - 1], logDir, FirstOperationId + (n - 1)).value]
  {
  }

  /** Once one job fails, parsing all of them fails with the same error. */
  lemma {:induction false} ParseJobsStops(nodes: seq<Element>, logDir: string, n: nat, i: nat, e: Error)
    requires i <= n <= |nodes| && ParseJobs(nodes, logDir, i) == Failure(e)
    ensures ParseJobs(nodes, logDir, n) == Failure(e)
    decreases n
  {
    if i < n {
      ParseJobsStops(nodes, logDir, n - 1, i, e);
    }
  }

  /** The connectors every parser starts with, at their own job numbers. */
  function Connectors(inputs: map<string, string>): seq<Job>
  {
    [InputConnector(InputConnectorId, inputs), OutputConnector(OutputConnectorId)]
  }

  /** The operations with the edges and input connections read for them, before reduction. */
  datatype Parsed = Parsed(jobs: seq<Job>, links: LinkState)

  /**
   * The root-tag action: every `<operation>` of the document (the root included
   * when it is one), then for `<operation>` the one-operation wiring and for
   * `<workflow>` every `<link>` of the document.
   */
  function ParseBody(xml: Element, logDir: string, inputs: map<string, string>): Result<Parsed, Error>
  {
    var nodes := DocumentElements(xml, "operation");
    match ParseJobs(nodes, logDir, |nodes|)
    case Failure(e) => Failure(e)
    case Success(jobs) =>
      var all := Connectors(inputs) + jobs;
      if xml.tag == "operation" then
        if |all| != 3 then Failure(NotSimple(|all|))
        else Success(Parsed(all, LinkState(map[0 := {2}, 2 := {1}], map[2 := map[0 := map[]]])))
      else
        match ApplyLinks(IndexByName(JobNames(all)), LinkState(map[], map[]), DocumentElements(xml, "link"))
        case Failure(e) => Failure(e)
        case Success(st) => Success(Parsed(all, st))
  }

  /** What a constructed `Parser` holds. */
  datatype Workflow = Workflow(
    name: string, logDir: string, operations: seq<Job>,
    edges: Edges, inputConnections: DataArcs, revEdges: Edges)

  /**
   * `Parser(xml, initial_inputs)`: the root-tag check, the workflow name and
   * log directory, the root-tag action, then transitive reduction of the edges
   * and their predecessor map.
   */
  function ParseDocument(xml: Element, inputs: map<string, string>, reduce: Edges -> Edges): (r: Result<Workflow, Error>)
    ensures !IsKnownRoot(xml.tag) ==> r == Failure(BadRootTag(xml.tag))
    ensures r.Success? ==> IsKnownRoot(xml.tag) && "name" in xml.attrs && r.value.name == xml.attrs["name"]
    ensures r.Success? ==> r.value.logDir == AttrOr(xml, "logDir", ".")
  {
    if !IsKnownRoot(xml.tag) then Failure(BadRootTag(xml.tag))
    else if "name" !in xml.attrs then Failure(MissingAttribute(xml.tag, "name"))
    else
      var logDir := AttrOr(xml, "logDir", ".");
      match ParseBody(xml, logDir, inputs)
      case Failure(e) => Failure(e)
      case Success(p) =>
        var reduced := reduce(p.links.edges);
        Success(Workflow(xml.attrs["name"], logDir, p.jobs, reduced, p.links.arcs, Inverse(reduced)))
  }

  /** A successful root-tag action lists the connectors, then the parsed jobs. */
  lemma ParseBodyJobs(xml: Element, logDir: string, inputs: map<string, string>)
    requires ParseBody(xml, logDir, inputs).Success?
    ensures var nodes := DocumentElements(xml, "operation");
      var p := ParseJobs(nodes, logDir, |nodes|);
      p.Success? && ParseBody(xml, logDir, inputs).value.jobs == Connectors(inputs) + p.value
  {
  }

  /** The job-number invariant: entry `i` of the list has job number `i`. */
  ghost predicate Numbered(jobs: seq<Job>)
  {
    forall i :: 0 <= i < |jobs| ==> jobs[i].jobNumber == i
  }

  /**
   * A constructed parser lists the input connector at 0, the output connector
   * at 1 and then only Command operations, each carrying its index as its job
   * number; its predecessor map is the inverse of its reduced edges.
   */
  lemma ParsedShape(xml: Element, inputs: map<string, string>, reduce: Edges -> Edges)
    requires ParseDocument(xml, inputs, reduce).Success?
    ensures var w := ParseDocument(xml, inputs, reduce).value;
      && |w.operations| >= 2
      && w.operations[0] == InputConnector(InputConnectorId, inputs)
      && w.operations[1] == OutputConnector(OutputConnectorId)
      && (forall i :: 2 <= i < |w.operations| ==> w.operations[i].Command?)
      && Numbered(w.operations)
      && IsInverse(w.edges, w.revEdges)
  {
    var logDir := AttrOr(xml, "logDir", ".");
    var nodes := DocumentElements(xml, "operation");
    ParseDocumentParts(xml, inputs, reduce);
    ParseBodyJobs(xml, logDir, inputs);
    ConnectorsThenJobs(inputs, ParseJobs(nodes, logDir, |nodes|).value);
  }

  /** A constructed parser holds what the root-tag action listed, and the inverse of its reduced edges. */
  lemma ParseDocumentParts(xml: Element, inputs: map<string, string>, reduce: Edges -> Edges)
    requires ParseDocument(xml, inputs, reduce).Success?
    ensures var b := ParseBody(xml, AttrOr(xml, "logDir", "."), inputs);
      var w := ParseDocument(xml, inputs, reduce).value;
      b.Success? && w.operations == b.value.jobs && w.revEdges == Inverse(w.edges)
  {
  }

  /** Jobs numbered from 2 on, placed after the two connectors, give a numbered list. */
  lemma ConnectorsThenJobs(inputs: map<string, string>, jobs: seq<Job>)
    requires forall i :: 0 <= i < |jobs| ==> jobs[i].Command? && jobs[i].jobNumber == FirstOperationId + i
    ensures var all := Connectors(inputs) + jobs;
      Numbered(all) && forall i :: 2 <= i < |all| ==> all[i].Command?
  {
    var all := Connectors(inputs) + jobs;
    forall i | 2 <= i < |all|
      ensures all[i] == jobs[i - 2]
    {
    }
  }

  /**
   * The one-operation form: it is built exactly when the document holds one
   * `<operation>` (the root) that builds, and then it is wired input
   * connector -> operation 2 -> output connector, operation 2 reading from the
   * input connector with no properties.
   */
  lemma SimpleForm(xml: Element, inputs: map<string, string>, reduce: Edges -> Edges)
    requires xml.tag == "operation" && "name" in xml.attrs
    ensures var nodes := DocumentElements(xml, "operation");
      var w := ParseDocument(xml, inputs, reduce);
      && (w.Success? <==> ParseJobs(nodes, AttrOr(xml, "logDir", "."), |nodes|).Success? && |nodes| == 1)
      && (w.Success? ==>
            && |w.value.operations| == 3
            && w.value.edges == reduce(map[InputConnectorId := {FirstOperationId}, FirstOperationId := {OutputConnectorId}])
            && w.value.inputConnections == map[FirstOperationId := map[InputConnectorId := map[]]])
  {
  }

  /** A `<workflow>` document reads its links against the names of all its jobs, the connectors included. */
  lemma WorkflowForm(xml: Element, inputs: map<string, string>, reduce: Edges -> Edges)
    requires xml.tag == "workflow" && ParseDocument(xml, inputs, reduce).Success?
    ensures var w := ParseDocument(xml, inputs, reduce).value;
      var st := ApplyLinks(IndexByName(JobNames(w.operations)), LinkState(map[], map[]), DocumentElements(xml, "link"));
      && st.Success?
      && w.edges == reduce(st.value.edges) && w.inputConnections == st.value.arcs
      && (forall l :: l in DocumentElements(xml, "link") ==> LinkOk(IndexByName(JobNames(w.operations)), l))
  {
    var w := ParseDocument(xml, inputs, reduce).value;
    ApplyLinksSucceeds(IndexByName(JobNames(w.operations)), LinkState(map[], map[]), DocumentElements(xml, "link"));
  }

  /** A Converge operation passes the type check but is never built. */
  lemma ConvergeNeverBuilt(node: Element, logDir: string, idx: nat)
    requires TypeClassOf(node) == Success(ConvergeType)
    ensures BuildJob(node, logDir, idx).Failure?
    ensures BuildJob(node, logDir, idx).error == BrokenConverge(AttrOr(node, "name", ""))
  {
  }

  // ---- Flow nodes ----

  /** The node class `op.node(...)` creates, with the attributes it passes. */
  datatype NodeKind =
    | StartNode(outputs: map<string, string>)
    | StopNode
    | CommandNode(name: string, perlClass: string, stdoutLog: string, stderrLog: string)
    | ParallelByCommandFlow(name: string, perlClass: string, stdoutLog: string, stderrLog: string, parallelByProperty: string)

  /**
   * A node of the flow. `inputConnections` and `indegree` are `None` where
   * `flow()` never assigns them.
   */
  datatype FlowNode = FlowNode(kind: NodeKind, successors: set<nat>, inputConnections: Option<map<nat, string>>, indegree: Option<nat>)

  datatype FlowGraph = FlowGraph(name: string, nodes: seq<FlowNode>)

  /** `op.node(redis, flow_key)`: a parallel-by flow exactly for a Command with a non-empty `parallelBy`. */
  function NodeOf(job: Job): (r: NodeKind)
    ensures r.ParallelByCommandFlow? <==> job.Command? && job.parallelBy != ""
    ensures r.CommandNode? <==> job.Command? && job.parallelBy == ""
    ensures job.InputConnector? <==> r.StartNode?
    ensures job.Command? ==>
      && r.name == job.name && r.perlClass == job.perlClass
      && r.stdoutLog == job.logs.stdout && r.stderrLog == job.logs.stderr
    ensures r.ParallelByCommandFlow? ==> r.parallelByProperty == job.parallelBy
    ensures r.StartNode? ==> r.outputs == job.outputs
  {
    match job
    case InputConnector(_, outputs) => StartNode(outputs)
    case OutputConnector(_) => StopNode
    case Command(_, name, perlClass, parallelBy, logs) =>
      if parallelBy != "" then ParallelByCommandFlow(name, perlClass, logs.stdout, logs.stderr, parallelBy)
      else CommandNode(name, perlClass, logs.stdout, logs.stderr)
  }

  /** `dict((k, json.dumps(v)) for k, v in props.iteritems())`, with the serialiser as a parameter. */
  function Serialized(props: map<nat, map<string, string>>, dumps: map<string, string> -> string): (r: map<nat, string>)
    ensures r.Keys == props.Keys
  {
    map k | k in props :: dumps(props[k])
  }

  /** The connectors at 0 and 1, job numbers equal to indices, input connections between listed jobs. */
  ghost predicate ParserShape(operations: seq<Job>, inputConnections: DataArcs)
  {
    && |operations| >= 2
    && operations[0].InputConnector? && operations[1] == OutputConnector(OutputConnectorId)
    && Numbered(operations)
    && ArcsWithin(inputConnections, |operations|)
  }

  /** The parser state: the fields `Parser.__init__` fills and the parsing methods update. */
  class Parser {
    const wfName: string
    const logDir: string
    var operations: seq<Job>
    var edges: Edges
    var inputConnections: DataArcs
    var revEdges: Edges

    function Snapshot(): Workflow
      reads this
    {
      Workflow(wfName, logDir, operations, edges, inputConnections, revEdges)
    }

    ghost predicate Valid()
      reads this
    {
      ParserShape(operations, inputConnections)
    }

    /** The list before any operation is parsed: the two connectors. */
    constructor (wfName: string, logDir: string, inputs: map<string, string>)
      ensures Valid()
      ensures this.wfName == wfName && this.logDir == logDir
      ensures operations == Connectors(inputs)
      ensures edges == map[] && inputConnections == map[] && revEdges == map[]
    {
      this.wfName := wfName;
      this.logDir := logDir;
      operations := Connectors(inputs);
      edges := map[];
      inputConnections := map[];
      revEdges := map[];
    }

    /** `add_edge`: refuses a self-cycle, otherwise adds `dst` to the successors of `src` and nothing else. */
    method AddEdge(src: nat, dst: nat) returns (ok: bool)
      modifies this`edges
      ensures ok <==> src != dst
      ensures edges == if ok then WithEdge(old(edges), src, dst) else old(edges)
    {
      if src == dst {
        return false;
      }
      edges := WithEdge(edges, src, dst);
      return true;
    }

    /** `_add_operation`: the checks, then the job appended with its index as job number. */
    method AddOperation(node: Element) returns (res: Outcome<Error>)
      requires Valid()
      modifies this`operations
      ensures Valid()
      ensures var b := BuildJob(node, logDir, |old(operations)|);
        && (res.Pass? <==> b.Success?)
        && (res.Pass? ==> operations == old(operations) + [b.value])
        && (res.Fail? ==> operations == old(operations) && res.error == b.error)
    {
      var tc := TypeClassOf(node);
      if tc.Failure? {
        return Fail(tc.error);
      }
      var idx := |operations|;
      var job := NewJob(tc.value, node, logDir, idx);
      if job.Failure? {
        return Fail(job.error);
      }
      operations := operations + [job.value];
      return Pass;
    }

    /** `_parse_operations`: every one of `nodes` (the document's `<operation>` elements), in order. */
    method ParseOperations(nodes: seq<Element>) returns (res: Outcome<Error>)
      requires Valid() && |operations| == 2
      modifies this`operations
      ensures Valid()
      ensures var p := ParseJobs(nodes, logDir, |nodes|);
        && (res.Pass? <==> p.Success?)
        && (res.Pass? ==> operations == old(operations) + p.value)
        && (res.Fail? ==> res.error == p.error)
    {
      ghost var base := operations;
      var i := 0;
      while i < |nodes|
        invariant 0 <= i <= |nodes|
        invariant Valid()
        invariant ParseJobs(nodes, logDir, i).Success?
        invariant operations == base + ParseJobs(nodes, logDir, i).value
      {
        res := ParseNextJob(nodes, i, base);
        if res.Fail? {
          ParseJobsStops(nodes, logDir, |nodes|, i + 1, res.error);
          return;
        }
        i := i + 1;
      }
      return Pass;
    }

    /** One round of `_parse_operations`: job `i` appended, or the error that ends the loop. */
    method ParseNextJob(nodes: seq<Element>, i: nat, ghost base: seq<Job>) returns (res: Outcome<Error>)
      requires Valid() && i < |nodes| && |base| == 2
      requires ParseJobs(nodes, logDir, i).Success?
      requires operations == base + ParseJobs(nodes, logDir, i).value
      modifies this`operations
      ensures Valid()
      ensures var p := ParseJobs(nodes, logDir, i + 1);
        && (res.Pass? <==> p.Success?)
        && (res.Pass? ==> operations == base + p.value)
        && (res.Fail? ==> res.error == p.error)
    {
      ghost var parsed := ParseJobs(nodes, logDir, i).value;
      assert |operations| == FirstOperationId + i;
      res := AddOperation(nodes[i]);
      if res.Fail? {
        ParseJobsBuildFails(nodes, logDir, i, res.error);
        return;
      }
      ghost var job := operations[|operations| - 1];
      ParseJobsStep(nodes, logDir, i, parsed, job);
      AppendOne(base, parsed, job);
    }

    /** One `<link>` of `_parse_links`: resolve both names, add the edge, then the input connection. */
    method AddLink(names: map<string, nat>, link: Element) returns (res: Outcome<Error>)
      requires Valid() && forall n :: n in names ==> names[n] < |operations|
      modifies this`edges, this`inputConnections
      ensures Valid()
      ensures var r := ApplyLink(names, LinkState(old(edges), old(inputConnections)), link);
        && (res.Pass? <==> r.Success?)
        && (res.Pass? ==> r.value == LinkState(edges, inputConnections))
        && (res.Fail? ==> r.error == res.error)
    {
      var l := CheckLink(names, link);
      if l.Failure? {
        return Fail(l.error);
      }
      var ok := AddEdge(l.value.src, l.value.dst);
      if !ok {
        return Fail(SelfCycle(l.value.src));
      }
      SetArcWithin(inputConnections, |operations|, l.value.dst, l.value.src, l.value.toProperty, l.value.fromProperty);
      inputConnections := SetArc(inputConnections, l.value.dst, l.value.src, l.value.toProperty, l.value.fromProperty);
      return Pass;
    }

    /** `_parse_links`: every one of `links` (the document's `<link>` elements), names resolved to job numbers. */
    method ParseLinks(links: seq<Element>) returns (res: Outcome<Error>)
      requires Valid()
      modifies this`edges, this`inputConnections
      ensures Valid()
      ensures var st := ApplyLinks(IndexByName(JobNames(operations)), LinkState(old(edges), old(inputConnections)), links);
        && (res.Pass? <==> st.Success?)
        && (res.Pass? ==> st.value == LinkState(edges, inputConnections))
        && (res.Fail? ==> st.error == res.error)
    {
      var names := IndexByName(JobNames(operations));
      ghost var st0 := LinkState(edges, inputConnections);
      var i := 0;
      while i < |links|
        invariant 0 <= i <= |links|
        invariant Valid()
        invariant ApplyLinks(names, st0, links[..i]) == Success(LinkState(edges, inputConnections))
      {
        ApplyLinksPrefix(names, st0, links, i, LinkState(edges, inputConnections));
        res := AddLink(names, links[i]);
        if res.Fail? {
          ApplyLinksStops(names, st0, links, i + 1, res.error);
          return;
        }
        i := i + 1;
      }
      assert links[..|links|] == links;
      return Pass;
    }

    /** `_parse_workflow_simple`: the operations, the count check, then the fixed wiring. */
    method ParseWorkflowSimple(xml: Element) returns (res: Outcome<Error>)
      requires Valid() && |operations| == 2 && edges == map[] && inputConnections == map[]
      modifies this`operations, this`edges, this`inputConnections
      ensures Valid()
      ensures var nodes := DocumentElements(xml, "operation");
        var p := ParseJobs(nodes, logDir, |nodes|);
        && (res.Pass? <==> p.Success? && |nodes| == 1)
        && (res.Pass? ==>
              && operations == old(operations) + p.value
              && edges == map[0 := {2}, 2 := {1}]
              && inputConnections == map[2 := map[0 := map[]]])
        && (res.Fail? ==> res.error == if p.Failure? then p.error else NotSimple(2 + |nodes|))
    {
      res := ParseOperations(DocumentElements(xml, "operation"));
      if res.Fail? {
        return;
      }
      if |operations| != 3 {
        return Fail(NotSimple(|operations|));
      }
      inputConnections := SetBindings(inputConnections, FirstOperationId, InputConnectorId, map[]);
      var ok := AddEdge(InputConnectorId, FirstOperationId);
      ok := AddEdge(FirstOperationId, OutputConnectorId);
      SimpleWiring();
      assert edges == WithEdge(WithEdge(map[], 0, 2), 2, 1);
    }

    /** `_parse_workflow`: the operations, then the links. */
    method ParseWorkflow(xml: Element) returns (res: Outcome<Error>)
      requires Valid() && |operations| == 2 && edges == map[] && inputConnections == map[]
      modifies this`operations, this`edges, this`inputConnections
      ensures Valid()
      ensures var nodes := DocumentElements(xml, "operation");
        var p := ParseJobs(nodes, logDir, |nodes|);
        && (p.Failure? ==> res == Fail(p.error))
        && (p.Success? ==>
              var st := ApplyLinks(IndexByName(JobNames(old(operations) + p.value)), LinkState(map[], map[]), DocumentElements(xml, "link"));
              && operations == old(operations) + p.value
              && (res.Pass? <==> st.Success?)
              && (res.Pass? ==> st.value == LinkState(edges, inputConnections))
              && (res.Fail? ==> res.error == st.error))
    {
      res := ParseOperations(DocumentElements(xml, "operation"));
      if res.Fail? {
        return;
      }
      res := ParseLinks(DocumentElements(xml, "link"));
    }

    /** The root-tag action, carried out on a fresh parser; the fields end up as `ParseBody` describes. */
    method ParseRoot(xml: Element, inputs: map<string, string>) returns (res: Outcome<Error>)
      requires Valid() && operations == Connectors(inputs) && edges == map[] && inputConnections == map[]
      modifies this`operations, this`edges, this`inputConnections
      ensures Valid()
      ensures var p := ParseBody(xml, logDir, inputs);
        && (res.Pass? <==> p.Success?)
        && (res.Pass? ==> p.value == Parsed(operations, LinkState(edges, inputConnections)))
        && (res.Fail? ==> res.error == p.error)
    {
      if xml.tag == "operation" {
        res := ParseWorkflowSimple(xml);
      } else {
        res := ParseWorkflow(xml);
      }
    }

    /** `edges = transitive_reduction(edges)`, then the loop that fills the predecessor map. */
    method ReduceAndIndex(reduce: Edges -> Edges)
      modifies this`edges, this`revEdges
      ensures edges == reduce(old(edges))
      ensures IsInverse(edges, revEdges) && revEdges == Inverse(edges)
    {
      edges := reduce(edges);
      revEdges := Invert(edges);
    }

    /**
     * `flow()`: one node per operation, in list order. Node `i` gets the reduced
     * successors of `i` (none when `i` has no entry), the serialised input
     * connections of `i` when it has any, and, when `i` has predecessors, its
     * in-degree, which is then the number of its predecessors.
     */
    method Flow(dumps: map<string, string> -> string) returns (f: FlowGraph)
      requires Valid()
      ensures f.name == wfName && |f.nodes| == |operations|
      ensures forall i :: 0 <= i < |operations| ==>
        && f.nodes[i].kind == NodeOf(operations[i])
        && f.nodes[i].successors == Succs(edges, i)
        && f.nodes[i].inputConnections == (if i in inputConnections then Some(Serialized(inputConnections[i], dumps)) else None)
        && f.nodes[i].indegree == (if i in revEdges then Some(|revEdges[i]|) else None)
      ensures IsInverse(edges, revEdges) ==> forall i :: 0 <= i < |operations| ==>
        f.nodes[i].indegree == (if Predecessors(edges, i) != {} then Some(|Predecessors(edges, i)|) else None)
    {
      var ops := operations;
      var nodes := seq(|ops|, i requires 0 <= i < |ops| => FlowNode(NodeOf(ops[i]), {}, None, None));
      nodes := SetSuccessors(nodes);
      nodes := SetInputConnections(nodes, dumps);
      nodes := SetIndegrees(nodes);
      f := FlowGraph(wfName, nodes);
      if IsInverse(edges, revEdges) {
        forall i | 0 <= i < |operations|
          ensures f.nodes[i].indegree == (if Predecessors(edges, i) != {} then Some(|Predecessors(edges, i)|) else None)
        {
          InverseIsPredecessors(edges, revEdges, i);
        }
      }
    }

    /** The first loop of `flow()`: `successors` from the reduced edges. */
    method SetSuccessors(nodes: seq<FlowNode>) returns (r: seq<FlowNode>)
      ensures |r| == |nodes|
      ensures forall i :: 0 <= i < |r| ==> r[i] == nodes[i].(successors := Succs(edges, i))
    {
      r := nodes;
      var idx := 0;
      while idx < |r|
        invariant 0 <= idx <= |r| == |nodes|
        invariant forall i :: 0 <= i < idx ==> r[i] == nodes[i].(successors := Succs(edges, i))
        invariant forall i :: idx <= i < |r| ==> r[i] == nodes[i]
      {
        if idx in edges {
          r := r[idx := r[idx].(successors := edges[idx])];
        } else {
          r := r[idx := r[idx].(successors := {})];
        }
        idx := idx + 1;
      }
    }

    /** The second loop of `flow()`: serialised input connections for every destination in the table. */
    method SetInputConnections(nodes: seq<FlowNode>, dumps: map<string, string> -> string) returns (r: seq<FlowNode>)
      requires ArcsWithin(inputConnections, |nodes|)
      ensures |r| == |nodes|
      ensures forall i :: 0 <= i < |r| ==>
        r[i] == if i in inputConnections then nodes[i].(inputConnections := Some(Serialized(inputConnections[i], dumps))) else nodes[i]
    {
      r := nodes;
      var todo := inputConnections.Keys;
      while todo != {}
        invariant |r| == |nodes| && todo <= inputConnections.Keys
        invariant forall i :: 0 <= i < |r| ==>
          r[i] == if i in inputConnections && i !in todo then nodes[i].(inputConnections := Some(Serialized(inputConnections[i], dumps))) else nodes[i]
        decreases todo
      {
        var dst :| dst in todo;
        var store := map k | k in inputConnections[dst] :: dumps(inputConnections[dst][k]);
        r := r[dst := r[dst].(inputConnections := Some(store))];
        todo := todo - {dst};
      }
    }

    /** The third loop of `flow()`: `indegree` for every node with an entry in the predecessor map. */
    method SetIndegrees(nodes: seq<FlowNode>) returns (r: seq<FlowNode>)
      ensures |r| == |nodes|
      ensures forall i :: 0 <= i < |r| ==>
        r[i] == if i in revEdges then nodes[i].(indegree := Some(|revEdges[i]|)) else nodes[i]
    {
      r := nodes;
      var idx := 0;
      while idx < |r|
        invariant 0 <= idx <= |r| == |nodes|
        invariant forall i :: 0 <= i < idx ==> r[i] == if i in revEdges then nodes[i].(indegree := Some(|revEdges[i]|)) else nodes[i]
        invariant forall i :: idx <= i < |r| ==> r[i] == nodes[i]
      {
        if idx in revEdges {
          r := r[idx := r[idx].(indegree := Some(|revEdges[idx]|))];
        }
        idx := idx + 1;
      }
    }
  }

  /**
   * `Parser(xml, initial_inputs)`: the root tag, the name and the log directory
   * are read first; a fresh parser then runs the root-tag action, reduces its
   * edges and fills its predecessor map, ending up with exactly the
   * `ParseDocument` result.
   */
  method NewParser(xml: Element, inputs: map<string, string>, reduce: Edges -> Edges) returns (r: Result<Parser, Error>)
    ensures var w := ParseDocument(xml, inputs, reduce);
      && (r.Success? <==> w.Success?)
      && (r.Success? ==> fresh(r.value) && r.value.Valid() && r.value.Snapshot() == w.value)
      && (r.Failure? ==> r.error == w.error)
  {
    if !IsKnownRoot(xml.tag) {
      return Failure(BadRootTag(xml.tag));
    }
    if "name" !in xml.attrs {
      return Failure(MissingAttribute(xml.tag, "name"));
    }
    var logDir := if "logDir" in xml.attrs then xml.attrs["logDir"] else ".";
    var p := new Parser(xml.attrs["name"], logDir, inputs);
    var outcome := p.ParseRoot(xml, inputs);
    if outcome.Fail? {
      return Failure(outcome.error);
    }
    p.ReduceAndIndex(reduce);
    return Success(p);
  }
}
