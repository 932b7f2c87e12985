/**
 * The net of a Perl action (`PerlActionNet` and its `CommandNet` / `EventNet`
 * kinds): a shortcut stage, then, if the shortcut fails, an execute stage
 * that runs the action locally or through LSF.
 */
module PerlNets {
  import opened Wrappers
  import opened Digraph
  import opened NetParts

  /** The dispatch action class of a step net. */
  datatype DispatchAction = ShortcutAction | LSFExecuteAction | ForkExecuteAction

  /** The action arguments a step net is created with; `lsfOptions` is absent unless given. */
  datatype ActionArgs = ActionArgs(
    operationId: nat,
    inputConnections: map<nat, map<string, string>>,
    actionId: string,
    actionType: string,
    stderr: string,
    stdout: string,
    resources: map<string, string>,
    lsfOptions: Option<map<string, string>>)

  /** A subnet added by `add_subnet`: its dispatch action and arguments. */
  datatype StepNet = StepNet(dispatch: DispatchAction, args: ActionArgs)

  /** The two concrete Perl action nets. */
  datatype ActionKind = CommandKind | EventKind

  /** The `action_type` class attribute of each kind. */
  function ActionType(kind: ActionKind): (r: string)
    ensures kind == CommandKind <==> r == "command"
    ensures kind == EventKind <==> r == "event"
  {
    match kind
    case CommandKind => "command"
    case EventKind => "event"
  }

  /** `ExecuteNet.DISPATCH_ACTION`: LSF when executing remotely, a local fork otherwise. */
  function ExecuteDispatch(remoteExecute: bool): (r: DispatchAction)
    ensures r != ShortcutAction
    ensures r == LSFExecuteAction <==> remoteExecute
  {
    if remoteExecute then LSFExecuteAction else ForkExecuteAction
  }

  /** The execute stage's arguments: a copy of the shared ones with `lsf_options = {'project': projectName}` added. */
  function ExecuteArgs(base: ActionArgs, projectName: string): (r: ActionArgs)
    ensures r.lsfOptions == Some(map["project" := projectName])
    ensures r.(lsfOptions := base.lsfOptions) == base
  {
    base.(lsfOptions := Some(map["project" := projectName]))
  }

  // The places of the action net itself, and the ports of its subnets.
  const InternalStart := Place(Own, StartRole)
  const InternalSuccess := Place(Own, SuccessRole)
  const InternalFailure := Place(Own, FailureRole)

  function StartOf(i: nat): Node { Place(Sub(i), StartRole) }
  function SuccessOf(i: nat): Node { Place(Sub(i), SuccessRole) }
  function FailureOf(i: nat): Node { Place(Sub(i), FailureRole) }

  /** The shortcut stage is the first subnet added, the execute stage the second. */
  const Shortcut: nat := 0
  const Execute: nat := 1

  /** Every arc `PerlActionNet.__init__` draws between its places and its subnets. */
  function PerlWiring(): set<Arc>
  {
    BridgeArcs(InternalStart, StartOf(Shortcut), "start")
    + BridgeArcs(SuccessOf(Shortcut), InternalSuccess, "")
    + BridgeArcs(FailureOf(Shortcut), StartOf(Execute), "shortcut-failed")
    + BridgeArcs(FailureOf(Execute), InternalFailure, "")
    + BridgeArcs(SuccessOf(Execute), InternalSuccess, "")
  }

  class PerlActionNet {
    const kind: ActionKind
    const name: string
    const operationId: nat
    const parentOperationId: Option<nat>
    var subnets: seq<StepNet>
    var arcs: set<Arc>
    var startTransition: Node
    var shortcutFailureTransition: Node

    /**
     * `PerlActionNet.__init__`: the shortcut subnet with the shared
     * arguments, the execute subnet with a copy extended by the LSF options,
     * then the five bridges.
     */
    constructor (kind: ActionKind, name: string, operationId: nat, inputConnections: map<nat, map<string, string>>,
                 stderr: string, stdout: string, resources: map<string, string>, actionId: string,
                 remoteExecute: bool, projectName: string, parentOperationId: Option<nat>)
      ensures this.kind == kind && this.name == name && this.operationId == operationId
      ensures this.parentOperationId == parentOperationId
      ensures var base := ActionArgs(operationId, inputConnections, actionId, ActionType(kind), stderr, stdout, resources, None);
        subnets == [StepNet(ShortcutAction, base), StepNet(ExecuteDispatch(remoteExecute), ExecuteArgs(base, projectName))]
      ensures arcs == PerlWiring()
      ensures startTransition == Bridge(InternalStart, StartOf(Shortcut), "start")
      ensures shortcutFailureTransition == Bridge(FailureOf(Shortcut), StartOf(Execute), "shortcut-failed")
    {
      this.kind := kind;
      this.name := name;
      this.operationId := operationId;
      this.parentOperationId := parentOperationId;
      subnets := [];
      arcs := {};
      startTransition := InternalStart;
      shortcutFailureTransition := InternalStart;
      new;
      var base := ActionArgs(operationId, inputConnections, actionId, ActionType(kind), stderr, stdout, resources, None);
      var shortcut := AddSubnet(StepNet(ShortcutAction, base));
      var execute := AddSubnet(StepNet(ExecuteDispatch(remoteExecute), ExecuteArgs(base, projectName)));
      assert subnets == [StepNet(ShortcutAction, base), StepNet(ExecuteDispatch(remoteExecute), ExecuteArgs(base, projectName))];
      startTransition := BridgePlaces(InternalStart, StartOf(shortcut), "start");
      assert arcs == BridgeArcs(InternalStart, StartOf(Shortcut), "start");
      var _ := BridgePlaces(SuccessOf(shortcut), InternalSuccess, "");
      shortcutFailureTransition := BridgePlaces(FailureOf(shortcut), StartOf(execute), "shortcut-failed");
      var _ := BridgePlaces(FailureOf(execute), InternalFailure, "");
      var _ := BridgePlaces(SuccessOf(execute), InternalSuccess, "");
    }

    /** `add_subnet`: the new subnet's index. */
    method AddSubnet(s: StepNet) returns (index: nat)
      modifies this`subnets
      ensures subnets == old(subnets) + [s] && index == |old(subnets)|
    {
      index := |subnets|;
      subnets := subnets + [s];
    }

    /** `bridge_places`: a new transition from `src` to `dst`. */
    method BridgePlaces(src: Node, dst: Node, name: string) returns (t: Node)
      modifies this`arcs
      ensures t == Bridge(src, dst, name) && arcs == old(arcs) + BridgeArcs(src, dst, name)
    {
      t := Bridge(src, dst, name);
      arcs := arcs + BridgeArcs(src, dst, name);
    }
  }

  /**
   * Failover: however the two stages are wired inside, every route from the
   * shortcut's failure to the action net's failure enters the execute stage.
   * With the arcs touching the execute subnet removed, the failure is out of
   * reach.
   */
  lemma ShortcutFailureNeedsExecute(inner: set<Arc>)
    requires InsideSubnets(inner)
    ensures !Reaches(Avoiding(PerlWiring() + inner, Sub(Execute)), FailureOf(Shortcut), InternalFailure)
  {
    forall a, b | (a, b) in PerlWiring() && (a in ShortcutSide() || OwnerOf(a) == Sub(Shortcut))
      ensures b in ShortcutSide() || OwnerOf(b) == Sub(Execute)
    {
      WiringFromShortcutSide(a, b);
    }
    SideIsClosed(PerlWiring(), inner);
  }

  /**
   * Any wiring whose arcs out of the shortcut side stay on it or enter the
   * execute stage keeps the shortcut's failure away from the net's failure
   * once the execute stage is cut out.
   */
  lemma SideIsClosed(wiring: set<Arc>, inner: set<Arc>)
    requires InsideSubnets(inner)
    requires forall a, b :: (a, b) in wiring && (a in ShortcutSide() || OwnerOf(a) == Sub(Shortcut)) ==>
      b in ShortcutSide() || OwnerOf(b) == Sub(Execute)
    ensures !Reaches(Avoiding(wiring + inner, Sub(Execute)), FailureOf(Shortcut), InternalFailure)
  {
    var arcs := Avoiding(wiring + inner, Sub(Execute));
    var c := NodesOf(inner, Sub(Shortcut)) + ShortcutSide();
    forall a, b | (a, b) in arcs && a in c
      ensures b in c
    {
      if (a, b) in inner {
        assert OwnerOf(b) == OwnerOf(a) == Sub(Shortcut);
      }
    }
    NotReachable(arcs, c, FailureOf(Shortcut), InternalFailure);
  }

  /** The nodes the shortcut's own ports lead to before the execute stage is entered. */
  function ShortcutSide(): set<Node>
  {
    {FailureOf(Shortcut), SuccessOf(Shortcut), Bridge(SuccessOf(Shortcut), InternalSuccess, ""), InternalSuccess,
     Bridge(FailureOf(Shortcut), StartOf(Execute), "shortcut-failed")}
  }

  /** A drawn arc out of the shortcut side stays on it or enters the execute stage. */
  lemma WiringFromShortcutSide(a: Node, b: Node)
    requires (a, b) in PerlWiring() && (a in ShortcutSide() || OwnerOf(a) == Sub(Shortcut))
    ensures b in ShortcutSide() || OwnerOf(b) == Sub(Execute)
  {
  }

  /** ... and once the execute stage fails, the failure is reached. */
  lemma ExecuteFailureReachesFailure()
    ensures Reaches(PerlWiring() + {(StartOf(Execute), FailureOf(Execute))}, FailureOf(Shortcut), InternalFailure)
  {
    var arcs := PerlWiring() + {(StartOf(Execute), FailureOf(Execute))};
    var p := [FailureOf(Shortcut), Bridge(FailureOf(Shortcut), StartOf(Execute), "shortcut-failed"), StartOf(Execute),
              FailureOf(Execute), Bridge(FailureOf(Execute), InternalFailure, ""), InternalFailure];
    assert IsPath(arcs, p);
  }

  /** A shortcut that succeeds never starts the execute stage: it leads straight to the net's success. */
  lemma ShortcutSuccessSkipsExecute()
    ensures !Reaches(PerlWiring(), SuccessOf(Shortcut), StartOf(Execute))
    ensures Reaches(PerlWiring(), SuccessOf(Shortcut), InternalSuccess)
  {
    var t := Bridge(SuccessOf(Shortcut), InternalSuccess, "");
    var c := {SuccessOf(Shortcut), t, InternalSuccess};
    NotReachable(PerlWiring(), c, SuccessOf(Shortcut), StartOf(Execute));
    assert IsPath(PerlWiring(), [SuccessOf(Shortcut), t, InternalSuccess]);
  }

  /** The net's start leads only into the shortcut stage. */
  lemma StartEntersShortcut()
    ensures forall b :: (InternalStart, b) in PerlWiring() ==> b == Bridge(InternalStart, StartOf(Shortcut), "start")
    ensures forall b :: (Bridge(InternalStart, StartOf(Shortcut), "start"), b) in PerlWiring() ==> b == StartOf(Shortcut)
  {
  }
}
