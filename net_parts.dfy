/**
 * The pieces a workflow net is assembled from, as far as the net classes of
 * the operations use them: the places and transitions of the net itself and
 * of the subnets it adds, and the node `bridge_places` / `bridge_transitions`
 * inserts between two others.
 */
module NetParts {
  /** Which net a node belongs to: the net being built, or its `index`-th subnet. */
  datatype Owner = Own | Sub(index: nat)

  /** The role of a place or transition every success-failure net has. */
  datatype Role = StartRole | SuccessRole | FailureRole

  datatype Node =
    | Place(owner: Owner, role: Role)
    | Trans(owner: Owner, role: Role)
    | Basic(name: string)                          // `add_basic_transition(name)` on the net being built
    | Bridge(src: Node, dst: Node, name: string)   // created by the net being built

  type Arc = (Node, Node)

  function OwnerOf(n: Node): Owner
  {
    match n
    case Place(o, _) => o
    case Trans(o, _) => o
    case Basic(_) => Own
    case Bridge(_, _, _) => Own
  }

  /** The arcs of `bridge_places(src, dst, name)` / `bridge_transitions(src, dst, name)`: in to the new node, out to `dst`. */
  function BridgeArcs(src: Node, dst: Node, name: string): set<Arc>
  {
    {(src, Bridge(src, dst, name)), (Bridge(src, dst, name), dst)}
  }

  /** Arcs that stay inside subnets: both ends belong to the same subnet. */
  ghost predicate InsideSubnets(inner: set<Arc>)
  {
    forall a :: a in inner ==> OwnerOf(a.0).Sub? && OwnerOf(a.0) == OwnerOf(a.1)
  }

  /** `arcs` without the arcs that touch a node of `o`. */
  function Avoiding(arcs: set<Arc>, o: Owner): (r: set<Arc>)
    ensures r <= arcs && forall a :: a in r ==> OwnerOf(a.0) != o && OwnerOf(a.1) != o
  {
    set a | a in arcs && OwnerOf(a.0) != o && OwnerOf(a.1) != o
  }

  /** The nodes of `o` some arc of `arcs` touches. */
  function NodesOf(arcs: set<Arc>, o: Owner): (r: set<Node>)
    ensures forall a :: a in arcs && OwnerOf(a.0) == o ==> a.0 in r
    ensures forall a :: a in arcs && OwnerOf(a.1) == o ==> a.1 in r
    ensures forall n :: n in r ==> OwnerOf(n) == o
  {
    (set a | a in arcs && OwnerOf(a.0) == o :: a.0) + (set a | a in arcs && OwnerOf(a.1) == o :: a.1)
  }
}
