/**
 * The net of a Converge operation (`ConvergeNet`): one transition carrying
 * the converge action, between the net's internal start and success
 * transitions.
 */
module ConvergeNets {
  import opened Wrappers
  import opened Digraph
  import opened LogNames
  import opened NetParts

  /** The arguments the converge action is created with. */
  datatype ConvergeActionArgs = ConvergeActionArgs(
    operationId: nat,
    inputPropertyOrder: seq<string>,
    outputProperties: Option<seq<string>>,
    inputConnections: map<nat, map<string, string>>)

  // The internal transitions every workflow net has.
  const InternalStartTransition := Trans(Own, StartRole)
  const InternalSuccessTransition := Trans(Own, SuccessRole)
  const InternalFailureTransition := Trans(Own, FailureRole)

  /** `'converge(%s)' % operation_id`. */
  function ConvergeName(operationId: nat): string
  {
    "converge(" + NatToString(operationId) + ")"
  }

  /** Converge transitions of different operations have different names. */
  lemma ConvergeNameInjective(a: nat, b: nat)
    requires ConvergeName(a) == ConvergeName(b)
    ensures a == b
  {
    var s := ConvergeName(a);
    assert NatToString(a) == s[9..|s| - 1];
    assert NatToString(b) == ConvergeName(b)[9..|ConvergeName(b)| - 1];
    DecimalRoundTrip(a);
    DecimalRoundTrip(b);
  }

  /** The nodes of the converge net, from the internal start to the internal success. */
  function Chain(operationId: nat): (r: seq<Node>)
    ensures |r| == 5 && r[0] == InternalStartTransition && r[4] == InternalSuccessTransition
  {
    var t := Basic(ConvergeName(operationId));
    [InternalStartTransition, Bridge(InternalStartTransition, t, "starting"), t,
     Bridge(t, InternalSuccessTransition, "succeeding"), InternalSuccessTransition]
  }

  /** The arcs `ConvergeNet.__init__` draws. */
  function ConvergeWiring(operationId: nat): set<Arc>
  {
    var t := Basic(ConvergeName(operationId));
    BridgeArcs(InternalStartTransition, t, "starting") + BridgeArcs(t, InternalSuccessTransition, "succeeding")
  }

  class ConvergeNet {
    const name: string
    const operationId: nat
    const inputConnections: map<nat, map<string, string>>
    const resources: map<string, string>
    const parentOperationId: Option<nat>
    var convergeAction: ConvergeActionArgs
    var convergeTransition: Node
    var startingPlace: Node
    var succeedingPlace: Node
    var arcs: set<Arc>
    /** The action attached to each basic transition this net added. */
    var actions: map<Node, ConvergeActionArgs>

    /**
     * `ConvergeNet.__init__`: the converge action with exactly the net's
     * operation id, property order, output properties and input
     * connections; its transition; the `starting` and `succeeding` places.
     */
    constructor (name: string, operationId: nat, inputConnections: map<nat, map<string, string>>,
                 inputPropertyOrder: seq<string>, outputProperties: Option<seq<string>>,
                 resources: map<string, string>, parentOperationId: Option<nat>)
      ensures this.name == name && this.operationId == operationId && this.inputConnections == inputConnections
      ensures this.resources == resources && this.parentOperationId == parentOperationId
      ensures convergeAction == ConvergeActionArgs(operationId, inputPropertyOrder, outputProperties, inputConnections)
      ensures convergeTransition == Basic(ConvergeName(operationId))
      ensures actions == map[convergeTransition := convergeAction]
      ensures startingPlace == Chain(operationId)[1] && succeedingPlace == Chain(operationId)[3]
      ensures arcs == ConvergeWiring(operationId)
    {
      this.name := name;
      this.operationId := operationId;
      this.inputConnections := inputConnections;
      this.resources := resources;
      this.parentOperationId := parentOperationId;
      convergeAction := ConvergeActionArgs(operationId, inputPropertyOrder, outputProperties, inputConnections);
      convergeTransition := InternalStartTransition;
      startingPlace := InternalStartTransition;
      succeedingPlace := InternalStartTransition;
      arcs := {};
      actions := map[];
      new;
      convergeTransition := AddBasicTransition(ConvergeName(operationId), convergeAction);
      startingPlace := BridgeTransitions(InternalStartTransition, convergeTransition, "starting");
      assert arcs == BridgeArcs(InternalStartTransition, convergeTransition, "starting");
      succeedingPlace := BridgeTransitions(convergeTransition, InternalSuccessTransition, "succeeding");
    }

    /** `add_basic_transition(name, action)`. */
    method AddBasicTransition(name: string, action: ConvergeActionArgs) returns (t: Node)
      modifies this`actions
      ensures t == Basic(name) && actions == old(actions)[t := action]
    {
      t := Basic(name);
      actions := actions[t := action];
    }

    /** `bridge_transitions(src, dst, name)`: a new place from `src` to `dst`. */
    method BridgeTransitions(src: Node, dst: Node, name: string) returns (p: Node)
      modifies this`arcs
      ensures p == Bridge(src, dst, name) && arcs == old(arcs) + BridgeArcs(src, dst, name)
    {
      p := Bridge(src, dst, name);
      arcs := arcs + BridgeArcs(src, dst, name);
    }
  }

  /**
   * The net is one straight line: its arcs are exactly the steps of
   * `Chain`, so the start leads through `starting`, the converge transition
   * and `succeeding` to the success.
   */
  lemma ConvergeIsLinear(operationId: nat)
    ensures var c := Chain(operationId);
      forall a :: a in ConvergeWiring(operationId) <==> exists i :: 0 <= i < 4 && a == (c[i], c[i + 1])
    ensures IsPath(ConvergeWiring(operationId), Chain(operationId))
    ensures Reaches(ConvergeWiring(operationId), InternalStartTransition, InternalSuccessTransition)
  {
    var c := Chain(operationId);
    var w := ConvergeWiring(operationId);
    assert (c[0], c[1]) in w && (c[1], c[2]) in w && (c[2], c[3]) in w && (c[3], c[4]) in w;
    assert IsPath(w, c);
  }

  /** Nothing in the converge net leads to the internal failure transition. */
  lemma ConvergeNeverFails(operationId: nat)
    ensures !Reaches(ConvergeWiring(operationId), InternalStartTransition, InternalFailureTransition)
  {
    var c := Chain(operationId);
    var inside := {c[0], c[1], c[2], c[3], c[4]};
    NotReachable(ConvergeWiring(operationId), inside, InternalStartTransition, InternalFailureTransition);
  }
}
