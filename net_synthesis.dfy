/**
 * The net a `ModelOperation` compiles to (`ModelOperation.net` and the
 * `net` methods of the operations it holds) and the envelope
 * `parse_workflow_xml` wraps around it.
 *
 * Nets are represented only by what this code adds to them: the subnets it
 * creates (with the arguments it passes) and the arcs it draws. A node is
 * named by the path of subnet indices that leads to the net holding it; the
 * place `bridge_transitions(a, b)` creates between two transitions is named
 * `Between(a, b)`.
 */
module NetSynthesis {
  import opened Wrappers
  import opened XmlDoc
  import opened Digraph
  import opened GraphModel
  import opened XmlAdapter

  /** Subnet indices from the outermost net down to the net holding a node. */
  type Path = seq<nat>

  datatype Node =
    | Trans(path: Path, tag: string)
    | Place(path: Path, tag: string)
    | Between(src: Node, dst: Node)

  type Arc = (Node, Node)

  /** The composition ports of a subnet: start, success and an optional failure transition. */
  datatype Ports = Ports(start: Node, success: Node, failure: Option<Node>)

  datatype Action =
    | StoreOutputs(operationId: nat)
    | MergeTokens(inputType: string, outputType: string)

  /** `self.data_arcs.get(op.id)`: the data arcs into one operation, if any. */
  type Inputs = Option<map<nat, map<string, string>>>

  /** The net class `add_subnet` was asked for, with the arguments it was given. */
  datatype Subnet =
    | ModelNet(name: string, operationId: nat, inputs: Inputs)
    | ActionNet(name: string, operationId: nat, actionType: string, actionId: string, inputs: Inputs)
    | ParallelByNet(name: string, operationId: nat, actionType: string, actionId: string, inputs: Inputs, parallelBy: string)
    | ConvergeNet(name: string, operationId: nat, inputs: Inputs, inputOrder: seq<string>, outputs: seq<string>)
    | EmptyNet(name: string, startAction: Option<Action>)
    | SuccessFailureNet(name: string)

  /** The ports of a model net (and of the action and converge nets): one start, one success, one failure transition. */
  function ModelPorts(p: Path): Ports
  {
    Ports(Trans(p, "start"), Trans(p, "success"), Some(Trans(p, "failure")))
  }

  /** The single place every failure of a model's subnets is drawn into. */
  function FailurePlace(p: Path): Node
  {
    Place(p, "failure")
  }

  /**
   * The ports of the subnet built for `op` at `p`: a connector's net has one
   * transition that is both its start and its success, and no failure.
   */
  function PortsOf(op: Operation, p: Path): (r: Ports)
    ensures r.failure.None? <==> op.InputConnector? || op.OutputConnector?
    ensures r.failure.None? ==> r.start == r.success
  {
    match op
    case InputConnector => Ports(Trans(p, "input connector start"), Trans(p, "input connector start"), None)
    case OutputConnector => Ports(Trans(p, "output connector start"), Trans(p, "output connector start"), None)
    case _ => ModelPorts(p)
  }

  /** The ports of a subnet are transitions of that subnet's own net. */
  lemma PortsInside(op: Operation, p: Path)
    ensures var r := PortsOf(op, p);
      && r.start.Trans? && r.start.path == p && r.success.Trans? && r.success.path == p
      && (r.failure.Some? ==> r.failure.value.Trans? && r.failure.value.path == p)
  {
  }

  /** `self.data_arcs.get(i)`. */
  function InputsOf(g: Graph, i: nat): Inputs
  {
    if i in g.dataArcs then Some(g.dataArcs[i]) else None
  }

  /**
   * `op.net(builder, input_conns)` for an operation that is not a model: the
   * net class and arguments each kind asks for.
   */
  function LeafSubnet(op: Operation, id: nat, inputs: Inputs): (r: Subnet)
    requires !op.Model?
    ensures op.Command? ==> (r.ParallelByNet? <==> op.parallelBy != "")
    ensures op.Command? ==> (r.ParallelByNet? || r.ActionNet?) && r.actionType == "command" && r.actionId == op.perlClass
    ensures op.Command? && r.ParallelByNet? ==> r.parallelBy == op.parallelBy
    ensures op.Event? ==> r.ActionNet? && r.actionType == "event" && r.actionId == op.eventId
    ensures op.Converge? ==> r.ConvergeNet? && r.inputOrder == op.inputProperties && r.outputs == op.outputProperties
    ensures !r.ModelNet? && !r.SuccessFailureNet?
    ensures !r.EmptyNet? && !r.SuccessFailureNet? ==> r.name == op.Name() && r.operationId == id && r.inputs == inputs
    ensures r.EmptyNet? <==> op.InputConnector? || op.OutputConnector?
    ensures r.EmptyNet? ==> r.name == op.Name() && (r.startAction.Some? <==> op.InputConnector?)
    ensures op.InputConnector? ==> r.startAction == Some(StoreOutputs(id))
  {
    match op
    case InputConnector => EmptyNet(op.Name(), Some(StoreOutputs(id)))
    case OutputConnector => EmptyNet(op.Name(), None)
    case Command(name, _, perlClass, parallelBy) =>
      if parallelBy != "" then ParallelByNet(name, id, "command", perlClass, inputs, parallelBy)
      else ActionNet(name, id, "command", perlClass, inputs)
    case Event(name, _, eventId) => ActionNet(name, id, "event", eventId, inputs)
    case Converge(name, _, inputOrder, outputs) => ConvergeNet(name, id, inputs, inputOrder, outputs)
  }

  /** `bridge_transitions(a, b)`: a new place with an arc in from `a` and an arc out to `b`. */
  function BridgeArcs(a: Node, b: Node): set<Arc>
  {
    {(a, Between(a, b)), (Between(a, b), b)}
  }

  /** The ports of every subnet of the model at `p`, by operation index. */
  function LevelPorts(g: Graph, p: Path): (r: seq<Ports>)
    ensures |r| == |g.operations|
    ensures forall i :: 0 <= i < |r| ==> r[i] == PortsOf(g.operations[i], p + [i])
  {
    seq(|g.operations|, i requires 0 <= i < |g.operations| => PortsOf(g.operations[i], p + [i]))
  }

  /** The arc from the failure transition of subnet `i`, if it has one, into the model's failure place. */
  function FailureArc(ports: seq<Ports>, p: Path, i: nat): set<Arc>
    requires i < |ports|
  {
    if ports[i].failure.Some? then {(ports[i].failure.value, FailurePlace(p))} else {}
  }

  /** The bridges from `from` to the start of every subnet in `targets`. */
  function BridgesFrom(from: Node, targets: set<nat>, ports: seq<Ports>): set<Arc>
  {
    set v, a | v in targets && v < |ports| && a in BridgeArcs(from, ports[v].start) :: a
  }

  /** What the second loop of `ModelOperation.net` draws for subnet `i`: its failure arc, then its out-edge bridges. */
  function SubnetWiring(e: Edges, ports: seq<Ports>, p: Path, i: nat): set<Arc>
    requires i < |ports|
  {
    FailureArc(ports, p, i) + BridgesFrom(ports[i].success, Succs(e, i), ports)
  }

  /** The wiring of the first `k` subnets. */
  function LevelWiring(e: Edges, ports: seq<Ports>, p: Path, k: nat): set<Arc>
    requires k <= |ports|
  {
    if k == 0 then {}
    else LevelWiring(e, ports, p, k - 1) + SubnetWiring(e, ports, p, k - 1)
  }

  /**
   * The arcs `ModelOperation.net` draws itself, at the level of the model at
   * `p` (a built graph always holds its two connectors, so the two end
   * bridges are always there).
   */
  function OwnArcs(g: Graph, p: Path): set<Arc>
  {
    var ports := LevelPorts(g, p);
    EndBridges(ports, p) + LevelWiring(g.edges, ports, p, |ports|)
  }

  /** Model start to the input connector's start, the output connector's success to model success. */
  function EndBridges(ports: seq<Ports>, p: Path): set<Arc>
  {
    if |ports| < 2 then {}
    else BridgeArcs(ModelPorts(p).start, ports[0].start) + BridgeArcs(ports[1].success, ModelPorts(p).success)
  }

  /** All arcs of the model net at `p`: those of the nested model nets, then its own. */
  function NetArcs(g: Graph, p: Path): set<Arc>
    decreases g, 1
  {
    NestedArcs(g, p, |g.operations|) + OwnArcs(g, p)
  }

  /** The arcs of the nested model nets among the first `k` operations. */
  function NestedArcs(g: Graph, p: Path, k: nat): set<Arc>
    requires k <= |g.operations|
    decreases g, 0, k
  {
    if k == 0 then {}
    else NestedArcs(g, p, k - 1) + OperationArcs(g.operations[k - 1], p + [k - 1])
  }

  /** The arcs inside the subnet of `op` at `p`: a model's whole net, nothing for the other kinds. */
  function OperationArcs(op: Operation, p: Path): set<Arc>
    decreases op
  {
    if op.Model? then NetArcs(op.graph, p) else {}
  }

  /**
   * The subnet table after the model net at `p` (created as `header`) and all
   * its subnets, nested models included, are added to `m`.
   */
  function NetSubnets(m: map<Path, Subnet>, g: Graph, p: Path, header: Subnet): map<Path, Subnet>
    decreases g, 1
  {
    NestedSubnets(m[p := header], g, p, |g.operations|)
  }

  /** The subnet table after the subnets of the first `k` operations are added to `m`. */
  function NestedSubnets(m: map<Path, Subnet>, g: Graph, p: Path, k: nat): map<Path, Subnet>
    requires k <= |g.operations|
    decreases g, 0, k
  {
    if k == 0 then m
    else OperationSubnets(NestedSubnets(m, g, p, k - 1), g.operations[k - 1], p + [k - 1], k - 1, InputsOf(g, k - 1))
  }

  /** The subnet table after `op.net(...)` builds the subnet of `op` (identity `id`) at `p`. */
  function OperationSubnets(m: map<Path, Subnet>, op: Operation, p: Path, id: nat, inputs: Inputs): map<Path, Subnet>
    decreases op
  {
    if op.Model? then NetSubnets(m, op.graph, p, ModelNet(op.name, id, inputs))
    else m[p := LeafSubnet(op, id, inputs)]
  }

  /** A model nested in a finished graph is finished too. */
  lemma NestedComplete(g: Graph, i: nat)
    requires GraphComplete(g) && i < |g.operations| && g.operations[i].Model?
    ensures GraphComplete(g.operations[i].graph)
  {
    assert OperationComplete(g.operations[i]);
  }

  /** One bridge more: the bridges to `done + {v}` are those to `done` and the one to `v`. */
  lemma BridgesFromStep(from: Node, done: set<nat>, v: nat, ports: seq<Ports>)
    requires v < |ports|
    ensures BridgesFrom(from, done + {v}, ports) == BridgesFrom(from, done, ports) + BridgeArcs(from, ports[v].start)
  {
    var l := BridgesFrom(from, done + {v}, ports);
    var r := BridgesFrom(from, done, ports) + BridgeArcs(from, ports[v].start);
    forall a | a in r
      ensures a in l
    {
      if a !in BridgesFrom(from, done, ports) {
        assert v in done + {v} && a in BridgeArcs(from, ports[v].start);
      }
    }
  }

  /** The arcs `parse_workflow_xml` draws between the outer envelope at `outer` and the model net at `inner`. */
  function EnvelopeArcs(outer: Path, inner: Path): set<Arc>
  {
    var m := ModelPorts(inner);
    {(Place(outer, "start"), m.start), (m.success, Place(outer, "success"))}
    + (if m.failure.Some? then {(m.failure.value, Place(outer, "failure"))} else {})
  }

  /**
   * The net builder: the subnets created so far (by path), the arcs drawn,
   * and the actions attached to transitions after their creation.
   */
  class NetBuilder {
    var arcs: set<Arc>
    var subnets: map<Path, Subnet>
    var actions: map<Node, Action>

    constructor ()
      ensures arcs == {} && subnets == map[] && actions == map[]
    {
      arcs := {};
      subnets := map[];
      actions := map[];
    }

    /** `add_subnet(cls, ...)` placing the new net at `path`. */
    method AddSubnet(path: Path, s: Subnet)
      modifies this`subnets
      ensures subnets == old(subnets)[path := s]
    {
      subnets := subnets[path := s];
    }

    /** `bridge_transitions(a, b)`. */
    method BridgeTransitions(a: Node, b: Node)
      modifies this`arcs
      ensures arcs == old(arcs) + BridgeArcs(a, b)
    {
      arcs := arcs + BridgeArcs(a, b);
    }

    /** `a.arcs_out.add(b)`. */
    method AddArc(a: Node, b: Node)
      modifies this`arcs
      ensures arcs == old(arcs) + {(a, b)}
    {
      arcs := arcs + {(a, b)};
    }

    /** `op.net(builder, input_conns)` for the operation with index `id`, built at `path`. */
    method OperationNet(op: Operation, path: Path, id: nat, inputs: Inputs) returns (ports: Ports)
      requires op.Model? ==> GraphComplete(op.graph)
      modifies this`arcs, this`subnets
      ensures ports == PortsOf(op, path)
      ensures arcs == old(arcs) + OperationArcs(op, path)
      ensures subnets == OperationSubnets(old(subnets), op, path, id, inputs)
      decreases op, 0
    {
      if op.Model? {
        ports := ModelOperationNet(op.graph, path, op.name, id, inputs);
      } else {
        AddSubnet(path, LeafSubnet(op, id, inputs));
        ports := PortsOf(op, path);
      }
    }

    /**
     * `ModelOperation.net`: a model net at `path`, a subnet per operation in
     * list order, then the bridges and failure arcs of this level.
     */
    method ModelOperationNet(g: Graph, path: Path, name: string, id: nat, inputs: Inputs) returns (ports: Ports)
      requires GraphComplete(g)
      modifies this`arcs, this`subnets
      ensures ports == ModelPorts(path)
      ensures arcs == old(arcs) + NetArcs(g, path)
      ensures subnets == NetSubnets(old(subnets), g, path, ModelNet(name, id, inputs))
      decreases g, 2
    {
      AddSubnet(path, ModelNet(name, id, inputs));
      var levelPorts := BuildSubnets(g, path);
      WireLevel(g.edges, path, levelPorts);
      ports := ModelPorts(path);
      SetUnionAssoc(old(arcs) + NestedArcs(g, path, |g.operations|), EndBridges(levelPorts, path), LevelWiring(g.edges, levelPorts, path, |levelPorts|));
      SetUnionAssoc(old(arcs), NestedArcs(g, path, |g.operations|), OwnArcs(g, path));
    }

    /** The first loop of `ModelOperation.net`: one subnet per operation, collecting their ports. */
    method BuildSubnets(g: Graph, path: Path) returns (levelPorts: seq<Ports>)
      requires GraphComplete(g)
      modifies this`arcs, this`subnets
      ensures levelPorts == LevelPorts(g, path)
      ensures arcs == old(arcs) + NestedArcs(g, path, |g.operations|)
      ensures subnets == NestedSubnets(old(subnets), g, path, |g.operations|)
      decreases g, 1
    {
      levelPorts := [];
      var i := 0;
      while i < |g.operations|
        invariant 0 <= i <= |g.operations|
        invariant levelPorts == LevelPorts(g, path)[..i]
        invariant arcs == old(arcs) + NestedArcs(g, path, i)
        invariant subnets == NestedSubnets(old(subnets), g, path, i)
      {
        var p := BuildSubnet(g, path, i);
        SetUnionAssoc(old(arcs), NestedArcs(g, path, i), OperationArcs(g.operations[i], path + [i]));
        PrefixStep(LevelPorts(g, path), i);
        levelPorts := levelPorts + [p];
        i := i + 1;
      }
    }

    /** One iteration of the first loop: the subnet of operation `i`. */
    method BuildSubnet(g: Graph, path: Path, i: nat) returns (p: Ports)
      requires GraphComplete(g) && i < |g.operations|
      modifies this`arcs, this`subnets
      ensures p == LevelPorts(g, path)[i]
      ensures arcs == old(arcs) + OperationArcs(g.operations[i], path + [i])
      ensures subnets == OperationSubnets(old(subnets), g.operations[i], path + [i], i, InputsOf(g, i))
      decreases g, 0
    {
      var op := g.operations[i];
      if op.Model? {
        NestedComplete(g, i);
      }
      p := OperationNet(op, path + [i], i, InputsOf(g, i));
    }

    /** The bridges and failure arcs of one model level, the second loop of `ModelOperation.net`. */
    method WireLevel(e: Edges, path: Path, levelPorts: seq<Ports>)
      requires |levelPorts| >= 2 && EdgesWithin(e, |levelPorts|)
      modifies this`arcs
      ensures arcs == old(arcs) + EndBridges(levelPorts, path) + LevelWiring(e, levelPorts, path, |levelPorts|)
    {
      BridgeTransitions(ModelPorts(path).start, levelPorts[0].start);
      BridgeTransitions(levelPorts[1].success, ModelPorts(path).success);
      ghost var ends := EndBridges(levelPorts, path);
      assert arcs == old(arcs) + ends;
      var idx := 0;
      while idx < |levelPorts|
        invariant 0 <= idx <= |levelPorts|
        invariant arcs == old(arcs) + ends + LevelWiring(e, levelPorts, path, idx)
      {
        WireSubnet(e, levelPorts, path, idx);
        SetUnionAssoc(old(arcs) + ends, LevelWiring(e, levelPorts, path, idx), SubnetWiring(e, levelPorts, path, idx));
        idx := idx + 1;
      }
    }

    /** One round of the second loop: the failure arc of subnet `idx`, then the bridges along its out-edges. */
    method WireSubnet(e: Edges, ports: seq<Ports>, path: Path, idx: nat)
      requires idx < |ports| && forall v :: v in Succs(e, idx) ==> v < |ports|
      modifies this`arcs
      ensures arcs == old(arcs) + SubnetWiring(e, ports, path, idx)
    {
      if ports[idx].failure.Some? {
        AddArc(ports[idx].failure.value, FailurePlace(path));
      }
      BridgeAll(ports[idx].success, Succs(e, idx), ports);
      SetUnionAssoc(old(arcs), FailureArc(ports, path, idx), BridgesFrom(ports[idx].success, Succs(e, idx), ports));
    }

    /** `for dst in edges_out: bridge_transitions(success, start of dst)`. */
    method BridgeAll(from: Node, targets: set<nat>, ports: seq<Ports>)
      requires forall v :: v in targets ==> v < |ports|
      modifies this`arcs
      ensures arcs == old(arcs) + BridgesFrom(from, targets, ports)
    {
      var todo := targets;
      ghost var done: set<nat> := {};
      while todo != {}
        invariant todo + done == targets && todo !! done
        invariant arcs == old(arcs) + BridgesFrom(from, done, ports)
        decreases todo
      {
        var v :| v in todo;
        BridgeTransitions(from, ports[v].start);
        BridgesFromStep(from, done, v, ports);
        todo := todo - {v};
        done := done + {v};
      }
    }

    /**
     * `parse_workflow_xml`: an outer success/failure net at the root path,
     * the model built from `xml` with identity `rootId`, its net inside the
     * outer net, a token-merging action on its start, and the envelope arcs.
     */
    method ParseWorkflowXml(xml: Element, rootId: nat, reduce: Edges -> Edges) returns (res: Outcome<Error>)
      requires ReducesToSubgraph(reduce)
      modifies this`arcs, this`subnets, this`actions
      ensures var b := BuildModel(xml, "", rootId, reduce);
        && (res.Pass? <==> b.Success?)
        && (res.Fail? ==>
              && res.error == b.error && arcs == old(arcs) && actions == old(actions)
              && subnets == old(subnets)[[] := SuccessFailureNet("workflow")])
        && (res.Pass? ==>
              && b.value.Model? && GraphComplete(b.value.graph)
              && arcs == old(arcs) + NetArcs(b.value.graph, [0]) + EnvelopeArcs([], [0])
              && subnets == NetSubnets(old(subnets)[[] := SuccessFailureNet(b.value.name)], b.value.graph, [0], ModelNet(b.value.name, rootId, None))
              && actions == old(actions)[ModelPorts([0]).start := MergeTokens("output", "output")])
    {
      AddSubnet([], SuccessFailureNet("workflow"));
      var built := NewModelOperation(xml, "", rootId, reduce);
      if built.Failure? {
        return Fail(built.error);
      }
      BuildModelComplete(xml, "", rootId, reduce);
      ghost var m0 := old(subnets);
      assert subnets == m0[[] := SuccessFailureNet("workflow")];
      MapUpdateTwice(m0, [], SuccessFailureNet("workflow"), SuccessFailureNet(built.value.name));
      Envelope(built.value.name, built.value.Snapshot(), rootId);
      return Pass;
    }

    /**
     * The rest of `parse_workflow_xml` once the model is built: the outer net
     * takes the model's name, the model net goes inside it, its start
     * transition gets the token-merging action, and the envelope arcs are drawn.
     */
    method Envelope(name: string, g: Graph, rootId: nat)
      requires GraphComplete(g)
      modifies this`arcs, this`subnets, this`actions
      ensures arcs == old(arcs) + NetArcs(g, [0]) + EnvelopeArcs([], [0])
      ensures subnets == NetSubnets(old(subnets)[[] := SuccessFailureNet(name)], g, [0], ModelNet(name, rootId, None))
      ensures actions == old(actions)[ModelPorts([0]).start := MergeTokens("output", "output")]
    {
      AddSubnet([], SuccessFailureNet(name));
      var inner := ModelOperationNet(g, [0], name, rootId, None);
      actions := actions[inner.start := MergeTokens("output", "output")];
      AddArc(Place([], "start"), inner.start);
      AddArc(inner.success, Place([], "success"));
      if inner.failure.Some? {
        AddArc(inner.failure.value, Place([], "failure"));
      }
    }
  }

  lemma PrefixStep<T>(s: seq<T>, i: nat)
    requires i < |s|
    ensures s[..i + 1] == s[..i] + [s[i]]
  {
  }

  lemma MapUpdateTwice<K, V>(m: map<K, V>, k: K, a: V, b: V)
    ensures m[k := a][k := b] == m[k := b]
  {
  }

  lemma SetUnionAssoc<T>(a: set<T>, b: set<T>, c: set<T>)
    ensures (a + b) + c == a + (b + c)
  {
  }

  // ---- What the wiring guarantees ----

  /** Node `n` lies inside the net at `p` (a bridge place lies where both its ends do). */
  ghost predicate Under(n: Node, p: Path)
  {
    match n
    case Trans(q, _) => p <= q
    case Place(q, _) => p <= q
    case Between(a, b) => Under(a, p) && Under(b, p)
  }

  /** Every arc of the set joins two nodes inside the net at `p`. */
  ghost predicate ArcsUnder(arcs: set<Arc>, p: Path)
  {
    forall arc :: arc in arcs ==> Under(arc.0, p) && Under(arc.1, p)
  }

  lemma {:induction false} UnderParent(n: Node, p: Path, i: nat)
    requires Under(n, p + [i])
    ensures Under(n, p)
  {
    match n
    case Trans(q, _) =>
      assert q[..|p|] == (p + [i])[..|p|] == p;
    case Place(q, _) =>
      assert q[..|p|] == (p + [i])[..|p|] == p;
    case Between(a, b) =>
      UnderParent(a, p, i);
      UnderParent(b, p, i);
  }

  /** A transition of the subnet at `p + [u]` lies inside the subnet at `p + [i]` only when `i == u`. */
  lemma ChildPath(p: Path, u: nat, i: nat, t: string)
    requires Under(Trans(p + [u], t), p + [i])
    ensures i == u
  {
    assert (p + [i])[|p|] == (p + [u])[|p|];
  }

  lemma ChildIndex(p: Path, w: nat, u: nat)
    requires p + [w] == p + [u]
    ensures w == u
  {
    assert (p + [w])[|p|] == w;
  }

  /** The nested model nets among the first `k` operations stay inside their own subnets. */
  lemma {:induction false} NestedArcsInside(g: Graph, p: Path, k: nat, arc: Arc)
    requires k <= |g.operations| && arc in NestedArcs(g, p, k)
    ensures exists i :: 0 <= i < k && Under(arc.0, p + [i]) && Under(arc.1, p + [i])
    decreases k
  {
    if arc in NestedArcs(g, p, k - 1) {
      NestedArcsInside(g, p, k - 1, arc);
      var i :| 0 <= i < k - 1 && Under(arc.0, p + [i]) && Under(arc.1, p + [i]);
    } else {
      var op := g.operations[k - 1];
      NetArcsUnder(op.graph, p + [k - 1]);
    }
  }

  /** Every arc of the model net at `p` lies inside it. */
  lemma {:induction false} NetArcsUnder(g: Graph, p: Path)
    ensures ArcsUnder(NetArcs(g, p), p)
    decreases g, 1
  {
    forall arc | arc in NetArcs(g, p)
      ensures Under(arc.0, p) && Under(arc.1, p)
    {
      if arc in NestedArcs(g, p, |g.operations|) {
        NestedArcsUnderParent(g, p, |g.operations|, arc);
      } else {
        OwnArcsUnder(g, p, arc);
      }
    }
  }

  lemma {:induction false} NestedArcsUnderParent(g: Graph, p: Path, k: nat, arc: Arc)
    requires k <= |g.operations| && arc in NestedArcs(g, p, k)
    ensures Under(arc.0, p) && Under(arc.1, p)
    decreases g, 0, k
  {
    if arc in NestedArcs(g, p, k - 1) {
      NestedArcsUnderParent(g, p, k - 1, arc);
    } else {
      var op := g.operations[k - 1];
      NetArcsUnder(op.graph, p + [k - 1]);
      UnderParent(arc.0, p, k - 1);
      UnderParent(arc.1, p, k - 1);
    }
  }

  lemma OwnArcsUnder(g: Graph, p: Path, arc: Arc)
    requires arc in OwnArcs(g, p)
    ensures Under(arc.0, p) && Under(arc.1, p)
  {
    var ports := LevelPorts(g, p);
    if arc in LevelWiring(g.edges, ports, p, |ports|) {
      var w := LevelWiringFrom(g.edges, ports, p, |ports|, arc);
      PortsInside(g.operations[w], p + [w]);
      assert Under(ports[w].success, p);
      if arc !in FailureArc(ports, p, w) {
        var x := BridgesFromTarget(ports[w].success, Succs(g.edges, w), ports, arc);
        PortsInside(g.operations[x], p + [x]);
        assert Under(ports[x].start, p);
      }
    } else if |ports| >= 2 {
      PortsInside(g.operations[0], p + [0]);
      PortsInside(g.operations[1], p + [1]);
      assert Under(ports[0].start, p) && Under(ports[1].success, p);
    }
  }

  /** An arc of the level wiring comes from the round of one subnet `w`. */
  lemma {:induction false} LevelWiringFrom(e: Edges, ports: seq<Ports>, p: Path, k: nat, arc: Arc) returns (w: nat)
    requires k <= |ports| && arc in LevelWiring(e, ports, p, k)
    ensures w < k && arc in SubnetWiring(e, ports, p, w)
    decreases k
  {
    if arc in LevelWiring(e, ports, p, k - 1) {
      w := LevelWiringFrom(e, ports, p, k - 1, arc);
    } else {
      w := k - 1;
    }
  }

  /** The round of subnet `w` is part of the level wiring of every longer prefix. */
  lemma {:induction false} LevelWiringHas(e: Edges, ports: seq<Ports>, p: Path, k: nat, w: nat)
    requires w < k <= |ports|
    ensures SubnetWiring(e, ports, p, w) <= LevelWiring(e, ports, p, k)
    decreases k
  {
    if w < k - 1 {
      LevelWiringHas(e, ports, p, k - 1, w);
    }
  }

  /** An arc among the bridges from `from` belongs to the bridge towards some target `x`. */
  lemma BridgesFromTarget(from: Node, targets: set<nat>, ports: seq<Ports>, arc: Arc) returns (x: nat)
    requires arc in BridgesFrom(from, targets, ports)
    ensures x in targets && x < |ports| && arc in BridgeArcs(from, ports[x].start)
  {
    x :| x in targets && x < |ports| && arc in BridgeArcs(from, ports[x].start);
  }

  /**
   * The model's start is bridged to the input connector's start, and the
   * output connector's success to the model's success.
   */
  lemma ModelEnds(g: Graph, p: Path)
    requires WellFormed(g)
    ensures BridgeArcs(ModelPorts(p).start, Trans(p + [0], "input connector start")) <= NetArcs(g, p)
    ensures BridgeArcs(Trans(p + [1], "output connector start"), ModelPorts(p).success) <= NetArcs(g, p)
  {
    var ports := LevelPorts(g, p);
    assert ports[0].start == Trans(p + [0], "input connector start");
    assert ports[1].success == Trans(p + [1], "output connector start");
  }

  /**
   * Control edges become bridges and nothing else does: the success of
   * operation `u` is bridged to the start of a different operation `v`
   * exactly when `v` is a successor of `u` in the (reduced) edge map.
   */
  lemma EdgeBridged(g: Graph, p: Path, u: nat, v: nat)
    requires WellFormed(g) && u < |g.operations| && v < |g.operations| && u != v
    ensures var ports := LevelPorts(g, p);
      var s, t := ports[u].success, ports[v].start;
      && (v in Succs(g.edges, u) ==> BridgeArcs(s, t) <= NetArcs(g, p))
      && ((s, Between(s, t)) in NetArcs(g, p) ==> v in Succs(g.edges, u))
  {
    if v in Succs(g.edges, u) {
      SuccessorBridged(g, p, u, v);
    }
    var ports := LevelPorts(g, p);
    if (ports[u].success, Between(ports[u].success, ports[v].start)) in NetArcs(g, p) {
      BridgeOnlyForSuccessor(g, p, u, v);
    }
  }

  /** Every edge of the model is drawn as a bridge between the two subnets. */
  lemma SuccessorBridged(g: Graph, p: Path, u: nat, v: nat)
    requires u < |g.operations| && v < |g.operations| && v in Succs(g.edges, u)
    ensures var ports := LevelPorts(g, p);
      BridgeArcs(ports[u].success, ports[v].start) <= NetArcs(g, p)
  {
    var ports := LevelPorts(g, p);
    LevelWiringHas(g.edges, ports, p, |ports|, u);
    forall arc | arc in BridgeArcs(ports[u].success, ports[v].start)
      ensures arc in BridgesFrom(ports[u].success, Succs(g.edges, u), ports)
    {
    }
  }

  /** A bridge from one subnet's success to another subnet's start is drawn only for an edge of the model. */
  lemma BridgeOnlyForSuccessor(g: Graph, p: Path, u: nat, v: nat)
    requires u < |g.operations| && v < |g.operations| && u != v
    requires var ports := LevelPorts(g, p);
      (ports[u].success, Between(ports[u].success, ports[v].start)) in NetArcs(g, p)
    ensures v in Succs(g.edges, u)
  {
    var ports := LevelPorts(g, p);
    var s, t := ports[u].success, ports[v].start;
    var arc := (s, Between(s, t));
    PortsInside(g.operations[u], p + [u]);
    PortsInside(g.operations[v], p + [v]);
    if arc in NestedArcs(g, p, |g.operations|) {
      NestedArcsInside(g, p, |g.operations|, arc);
      var i :| 0 <= i < |g.operations| && Under(arc.0, p + [i]) && Under(arc.1, p + [i]);
      ChildPath(p, u, i, s.tag);
      ChildPath(p, v, i, t.tag);
      assert false;
    } else if arc in LevelWiring(g.edges, ports, p, |ports|) {
      var w := LevelWiringFrom(g.edges, ports, p, |ports|, arc);
      assert arc !in FailureArc(ports, p, w);
      var x := BridgesFromTarget(ports[w].success, Succs(g.edges, w), ports, arc);
      assert ports[w].success == s && ports[x].start == t;
      PortsInside(g.operations[w], p + [w]);
      PortsInside(g.operations[x], p + [x]);
      ChildIndex(p, w, u);
      ChildIndex(p, x, v);
    }
  }

  /**
   * Failure fan-in: every subnet with a failure transition has an arc from it
   * straight into the model's single failure place.
   */
  lemma FailureFanIn(g: Graph, p: Path, i: nat)
    requires i < |g.operations|
    ensures var f := PortsOf(g.operations[i], p + [i]).failure;
      f.Some? ==> (f.value, FailurePlace(p)) in NetArcs(g, p)
  {
    var ports := LevelPorts(g, p);
    LevelWiringHas(g.edges, ports, p, |ports|, i);
  }

  /**
   * Nothing else feeds the model's failure place: every arc into it comes
   * from the failure transition of one of the model's own subnets.
   */
  lemma FailureSources(g: Graph, p: Path, a: Node)
    requires (a, FailurePlace(p)) in NetArcs(g, p)
    ensures exists i :: 0 <= i < |g.operations| && PortsOf(g.operations[i], p + [i]).failure == Some(a)
  {
    var ports := LevelPorts(g, p);
    var arc := (a, FailurePlace(p));
    if arc in NestedArcs(g, p, |g.operations|) {
      NestedArcsInside(g, p, |g.operations|, arc);
      assert false;
    } else if arc in LevelWiring(g.edges, ports, p, |ports|) {
      var w := LevelWiringFrom(g.edges, ports, p, |ports|, arc);
      if arc !in FailureArc(ports, p, w) {
        var x := BridgesFromTarget(ports[w].success, Succs(g.edges, w), ports, arc);
        PortsInside(g.operations[x], p + [x]);
        assert false;
      }
      assert ports[w].failure == Some(a);
    } else {
      PortsInside(g.operations[0], p + [0]);
      assert false;
    }
  }
}
