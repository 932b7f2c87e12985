/**
 * Control-flow graphs as maps from a node to its set of successors, the
 * predecessor map derived from them, and reachability over arc sets.
 */
module Digraph {

  /** `edges[src]` is the set of direct successors of `src`. */
  type Edges = map<nat, set<nat>>

  function Succs(e: Edges, s: nat): set<nat>
  {
    if s in e then e[s] else {}
  }

  predicate HasEdge(e: Edges, s: nat, d: nat)
  {
    s in e && d in e[s]
  }

  /** `edges.setdefault(src, set()).add(dst)`. */
  function WithEdge(e: Edges, s: nat, d: nat): (r: Edges)
    ensures r.Keys == e.Keys + {s}
    ensures r[s] == Succs(e, s) + {d}
    ensures forall x :: x in e && x != s ==> r[x] == e[x]
  {
    e[s := Succs(e, s) + {d}]
  }

  /** Every node that has `d` as a direct successor. */
  function Predecessors(e: Edges, d: nat): set<nat>
  {
    set s | s in e && d in e[s]
  }

  /**
   * `r` is the predecessor map of `e`: `s in r[d]` exactly when `d in e[s]`,
   * and a node appears as a key only when it has a predecessor.
   */
  ghost predicate IsInverse(e: Edges, r: Edges)
  {
    && (forall s, d :: HasEdge(r, d, s) <==> HasEdge(e, s, d))
    && (forall d :: d in r ==> r[d] != {})
  }

  /** Every node that is the target of some edge. */
  function Targets(e: Edges): set<nat>
  {
    set s, d | s in e && d in e[s] :: d
  }

  /** The predecessor map of `e`, as a value. */
  function Inverse(e: Edges): (r: Edges)
    ensures IsInverse(e, r)
  {
    var r := map d | d in Targets(e) :: Predecessors(e, d);
    forall d | d in r
      ensures r[d] != {}
    {
      var s :| s in e && d in e[s];
      assert s in r[d];
    }
    r
  }

  /** The predecessor map records, for every node, exactly its predecessors. */
  lemma InverseIsPredecessors(e: Edges, r: Edges, d: nat)
    requires IsInverse(e, r)
    ensures d in r <==> Predecessors(e, d) != {}
    ensures d in r ==> r[d] == Predecessors(e, d)
  {
    if d in r {
      var s :| s in r[d];
      assert HasEdge(r, d, s);
      assert s in Predecessors(e, d);
      forall x ensures x in r[d] <==> x in Predecessors(e, d) {
        assert HasEdge(r, d, x) <==> HasEdge(e, x, d);
      }
    } else if Predecessors(e, d) != {} {
      var s :| s in Predecessors(e, d);
      assert HasEdge(e, s, d);
      assert false;
    }
  }

  /** There is only one predecessor map for a given edge map. */
  lemma InverseUnique(e: Edges, r1: Edges, r2: Edges)
    requires IsInverse(e, r1) && IsInverse(e, r2)
    ensures r1 == r2
  {
    forall d | d in r1 || d in r2
      ensures d in r1 && d in r2 && r1[d] == r2[d]
    {
      InverseIsPredecessors(e, r1, d);
      InverseIsPredecessors(e, r2, d);
    }
    assert r1.Keys == r2.Keys;
  }

  /**
   * The loop that builds the predecessor map: for every source and every one of
   * its successors, `rev.setdefault(dst, set()).add(src)`.
   */
  method Invert(e: Edges) returns (r: Edges)
    ensures IsInverse(e, r)
    ensures r == Inverse(e)
  {
    r := map[];
    var todo := e.Keys;
    ghost var done: set<nat> := {};
    while todo != {}
      invariant todo + done == e.Keys && todo !! done
      invariant forall s, d :: HasEdge(r, d, s) <==> (s in done && HasEdge(e, s, d))
      invariant forall d :: d in r ==> r[d] != {}
      decreases todo
    {
      var src :| src in todo;
      var dsts := e[src];
      ghost var seen: set<nat> := {};
      while dsts != {}
        invariant dsts + seen == e[src] && dsts !! seen
        invariant forall s, d :: HasEdge(r, d, s) <==> ((s in done && HasEdge(e, s, d)) || (s == src && d in seen))
        invariant forall d :: d in r ==> r[d] != {}
        decreases dsts
      {
        var dst :| dst in dsts;
        ghost var r0 := r;
        r := r[dst := (if dst in r then r[dst] else {}) + {src}];
        forall s, d ensures HasEdge(r, d, s) <==> (HasEdge(r0, d, s) || (s == src && d == dst)) {
          if d != dst { assert HasEdge(r, d, s) == HasEdge(r0, d, s); }
        }
        dsts := dsts - {dst};
        seen := seen + {dst};
      }
      todo := todo - {src};
      done := done + {src};
    }
    InverseUnique(e, r, Inverse(e));
  }

  /** All endpoints are below `n`. */
  ghost predicate EdgesWithin(e: Edges, n: nat)
  {
    forall s :: s in e ==> s < n && forall d :: d in e[s] ==> d < n
  }

  ghost predicate NoSelfLoops(e: Edges)
  {
    forall s :: s in e ==> s !in e[s]
  }

  /** `r` keeps only edges of `e`. */
  ghost predicate IsSubgraph(r: Edges, e: Edges)
  {
    forall s :: s in r ==> s in e && r[s] <= e[s]
  }

  /**
   * The one thing assumed of the external transitive reduction: it removes
   * edges and never invents one.
   */
  ghost predicate ReducesToSubgraph(reduce: Edges -> Edges)
  {
    forall e :: IsSubgraph(reduce(e), e)
  }

  lemma SubgraphKeepsShape(r: Edges, e: Edges, n: nat)
    requires IsSubgraph(r, e) && EdgesWithin(e, n) && NoSelfLoops(e)
    ensures EdgesWithin(r, n) && NoSelfLoops(r)
  {
  }

  // ---- Reachability over arc sets of any node type ----

  ghost predicate IsPath<N(!new)>(arcs: set<(N, N)>, p: seq<N>)
  {
    |p| >= 1 && forall i :: 0 <= i < |p| - 1 ==> (p[i], p[i + 1]) in arcs
  }

  /** Some path of arcs leads from `a` to `b`. */
  ghost predicate Reaches<N(!new)>(arcs: set<(N, N)>, a: N, b: N)
  {
    exists p :: IsPath(arcs, p) && p[0] == a && p[|p| - 1] == b
  }

  /** No arc leaves `c`. */
  ghost predicate ClosedUnder<N(!new)>(arcs: set<(N, N)>, c: set<N>)
  {
    forall a, b :: (a, b) in arcs && a in c ==> b in c
  }

  lemma {:induction false} PathStaysInside<N(!new)>(arcs: set<(N, N)>, c: set<N>, p: seq<N>)
    requires IsPath(arcs, p) && p[0] in c && ClosedUnder(arcs, c)
    ensures p[|p| - 1] in c
    decreases |p|
  {
    if |p| > 1 {
      var q := p[..|p| - 1];
      assert IsPath(arcs, q) by {
        forall i | 0 <= i < |q| - 1 ensures (q[i], q[i + 1]) in arcs {
          assert (p[i], p[i + 1]) in arcs;
        }
      }
      PathStaysInside(arcs, c, q);
      assert (p[|p| - 2], p[|p| - 1]) in arcs;
    }
  }

  /** A node outside a closed set that holds `a` cannot be reached from `a`. */
  lemma NotReachable<N(!new)>(arcs: set<(N, N)>, c: set<N>, a: N, b: N)
    requires ClosedUnder(arcs, c) && a in c && b !in c
    ensures !Reaches(arcs, a, b)
  {
    if Reaches(arcs, a, b) {
      var p :| IsPath(arcs, p) && p[0] == a && p[|p| - 1] == b;
      PathStaysInside(arcs, c, p);
    }
  }
}
