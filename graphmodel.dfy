/**
 * The parts of the workflow graph model shared by both compiler generations:
 * definition errors, the data-arc table, name resolution and the meaning of a
 * sequence of `<link>` elements.
 */
module GraphModel {
  import opened Wrappers
  import opened XmlDoc
  import opened Digraph

  /** Why compiling a definition fails. */
  datatype Error =
    | MissingAttribute(element: string, attribute: string)
    | WrongTypeTagCount(operation: string, count: nat)
    | UnknownOperationType(typeClass: string)
    | WrongPropertyCount(operation: string, tag: string, count: nat)
    | UnknownOperation(name: string)
    | SelfCycle(node: nat)
    | BadRootTag(tag: string)
    | NotSimple(operationCount: nat)
    | BrokenConverge(operation: string)

  /**
   * Data arcs: `arcs[dst][src][toProperty] == fromProperty` says that input
   * `toProperty` of operation `dst` is read from output `fromProperty` of `src`.
   */
  type DataArcs = map<nat, map<nat, map<string, string>>>

  function Bindings(a: DataArcs, dst: nat, src: nat): map<string, string>
  {
    if dst in a && src in a[dst] then a[dst][src] else map[]
  }

  /** The source property feeding `toProperty` of `dst` from `src`, if declared. */
  function ArcLookup(a: DataArcs, dst: nat, src: nat, toProperty: string): Option<string>
  {
    if dst in a && src in a[dst] && toProperty in a[dst][src] then Some(a[dst][src][toProperty]) else None
  }

  /** `arcs[dst][src] = bindings`, creating the `dst` entry when missing. */
  function SetBindings(a: DataArcs, dst: nat, src: nat, bindings: map<string, string>): (r: DataArcs)
    ensures r.Keys == a.Keys + {dst} && src in r[dst] && r[dst][src] == bindings
    ensures forall d: nat, s: nat :: (d, s) != (dst, src) ==> Bindings(r, d, s) == Bindings(a, d, s)
  {
    var inner := if dst in a then a[dst] else map[];
    a[dst := inner[src := bindings]]
  }

  /** `arcs[dst][src][toProperty] = fromProperty`, creating entries as a nested defaultdict does. */
  function SetArc(a: DataArcs, dst: nat, src: nat, toProperty: string, fromProperty: string): (r: DataArcs)
    ensures r.Keys == a.Keys + {dst} && src in r[dst]
    ensures ArcLookup(r, dst, src, toProperty) == Some(fromProperty)
    ensures forall d: nat, s: nat, p :: (d, s, p) != (dst, src, toProperty) ==> ArcLookup(r, d, s, p) == ArcLookup(a, d, s, p)
    ensures forall d :: d in r && d != dst ==> r[d].Keys == a[d].Keys
    ensures r[dst].Keys == (if dst in a then a[dst].Keys else {}) + {src}
  {
    var r := SetBindings(a, dst, src, Bindings(a, dst, src)[toProperty := fromProperty]);
    assert forall d: nat, s: nat :: (d, s) != (dst, src) ==> Bindings(r, d, s) == Bindings(a, d, s);
    r
  }

  /** Every operation index mentioned by the table is below `n`. */
  ghost predicate ArcsWithin(a: DataArcs, n: nat)
  {
    forall d :: d in a ==> d < n && forall s :: s in a[d] ==> s < n
  }

  /**
   * `dict((op.name, index) for ...)`: each name resolves to the index of its
   * LAST occurrence.
   */
  function IndexByName(names: seq<string>): (r: map<string, nat>)
    ensures forall n :: n in r <==> n in names
    ensures forall n :: n in r ==> r[n] < |names| && names[r[n]] == n
    ensures forall n :: n in r ==> forall j :: r[n] < j < |names| ==> names[j] != n
    decreases |names|
  {
    if names == [] then map[]
    else
      var init := names[..|names| - 1];
      var last := names[|names| - 1];
      var m := IndexByName(init);
      var r := m[last := |names| - 1];
      assert names == init + [last];
      r
  }

  /** A `<link>` whose attributes are present and whose operation names resolved. */
  datatype ResolvedLink = ResolvedLink(src: nat, dst: nat, fromProperty: string, toProperty: string)

  /**
   * Reading one `<link>`: `fromOperation`, `toOperation`, their resolution,
   * then `fromProperty` and `toProperty`, each failing in that order.
   */
  function CheckLink(names: map<string, nat>, link: Element): (r: Result<ResolvedLink, Error>)
    ensures r.Success? <==>
      && "fromOperation" in link.attrs && "toOperation" in link.attrs
      && link.attrs["fromOperation"] in names && link.attrs["toOperation"] in names
      && "fromProperty" in link.attrs && "toProperty" in link.attrs
    ensures r.Success? ==>
      && r.value.src == names[link.attrs["fromOperation"]]
      && r.value.dst == names[link.attrs["toOperation"]]
      && r.value.fromProperty == link.attrs["fromProperty"]
      && r.value.toProperty == link.attrs["toProperty"]
  {
    if "fromOperation" !in link.attrs then Failure(MissingAttribute("link", "fromOperation"))
    else if "toOperation" !in link.attrs then Failure(MissingAttribute("link", "toOperation"))
    else
      var src := link.attrs["fromOperation"];
      var dst := link.attrs["toOperation"];
      if src !in names then Failure(UnknownOperation(src))
      else if dst !in names then Failure(UnknownOperation(dst))
      else if "fromProperty" !in link.attrs then Failure(MissingAttribute("link", "fromProperty"))
      else if "toProperty" !in link.attrs then Failure(MissingAttribute("link", "toProperty"))
      else Success(ResolvedLink(names[src], names[dst], link.attrs["fromProperty"], link.attrs["toProperty"]))
  }

  /** The edge map and data-arc table while links are being read. */
  datatype LinkState = LinkState(edges: Edges, arcs: DataArcs)

  /** A link that is well formed and does not close a self-cycle. */
  predicate LinkOk(names: map<string, nat>, link: Element)
  {
    match CheckLink(names, link)
    case Success(l) => l.src != l.dst
    case Failure(_) => false
  }

  /** One link: add the control edge, then record the data arc. */
  function ApplyLink(names: map<string, nat>, st: LinkState, link: Element): Result<LinkState, Error>
  {
    match CheckLink(names, link)
    case Failure(e) => Failure(e)
    case Success(l) =>
      if l.src == l.dst then Failure(SelfCycle(l.src))
      else Success(LinkState(WithEdge(st.edges, l.src, l.dst), SetArc(st.arcs, l.dst, l.src, l.toProperty, l.fromProperty)))
  }

  /** All links in document order; the first failing link aborts the whole read. */
  function ApplyLinks(names: map<string, nat>, st: LinkState, links: seq<Element>): Result<LinkState, Error>
    decreases |links|
  {
    if links == [] then Success(st)
    else
      match ApplyLinks(names, st, links[..|links| - 1])
      case Failure(e) => Failure(e)
      case Success(s) => ApplyLink(names, s, links[|links| - 1])
  }

  /** Reading one more link continues from the state the earlier links left. */
  lemma ApplyLinksPrefix(names: map<string, nat>, st: LinkState, links: seq<Element>, i: nat, s: LinkState)
    requires i < |links| && ApplyLinks(names, st, links[..i]) == Success(s)
    ensures ApplyLinks(names, st, links[..i + 1]) == ApplyLink(names, s, links[i])
  {
    assert links[..i + 1][..i] == links[..i];
  }

  /** Once a prefix of the links fails, reading all of them fails with the same error. */
  lemma {:induction false} ApplyLinksStops(names: map<string, nat>, st: LinkState, links: seq<Element>, i: nat, e: Error)
    requires i <= |links| && ApplyLinks(names, st, links[..i]) == Failure(e)
    ensures ApplyLinks(names, st, links) == Failure(e)
    decreases |links|
  {
    if i < |links| {
      var init := links[..|links| - 1];
      assert init[..i] == links[..i];
      ApplyLinksStops(names, st, init, i, e);
    } else {
      assert links[..i] == links;
    }
  }

  /** Reading the links succeeds exactly when every link is well formed and no link is a self-cycle. */
  lemma ApplyLinksSucceeds(names: map<string, nat>, st: LinkState, links: seq<Element>)
    ensures ApplyLinks(names, st, links).Success? <==> forall l :: l in links ==> LinkOk(names, l)
  {
    if ApplyLinks(names, st, links).Success? {
      SuccessNeedsGoodLinks(names, st, links);
    }
    GoodLinksSucceed(names, st, links);
  }

  lemma {:induction false} SuccessNeedsGoodLinks(names: map<string, nat>, st: LinkState, links: seq<Element>)
    requires ApplyLinks(names, st, links).Success?
    ensures forall l :: l in links ==> LinkOk(names, l)
    decreases |links|
  {
    if links != [] {
      var init := links[..|links| - 1];
      var last := links[|links| - 1];
      ApplyLinksUnfold(names, st, links);
      var prev := ApplyLinks(names, st, init).value;
      SuccessNeedsGoodLinks(names, st, init);
      ApplyLinkOk(names, prev, last);
      assert LinkOk(names, last);
      forall l | l in links
        ensures LinkOk(names, l)
      {
        if l != last {
          InInit(links, l);
        }
      }
    }
  }

  /** An element other than the last one is in the list without its last element. */
  lemma InInit<T>(s: seq<T>, x: T)
    requires x in s && x != s[|s| - 1]
    ensures x in s[..|s| - 1]
  {
    var k :| 0 <= k < |s| && s[k] == x;
    assert s[..|s| - 1][k] == x;
  }

  lemma {:induction false} GoodLinksSucceed(names: map<string, nat>, st: LinkState, links: seq<Element>)
    ensures (forall l :: l in links ==> LinkOk(names, l)) ==> ApplyLinks(names, st, links).Success?
    decreases |links|
  {
    if links != [] && forall l :: l in links ==> LinkOk(names, l) {
      var init := links[..|links| - 1];
      var last := links[|links| - 1];
      assert links == init + [last];
      GoodLinksSucceed(names, st, init);
      ApplyLinksUnfold(names, st, links);
      ApplyLinkOk(names, ApplyLinks(names, st, init).value, last);
    }
  }

  /** One link succeeds exactly when it is well formed and not a self-cycle. */
  lemma ApplyLinkOk(names: map<string, nat>, st: LinkState, link: Element)
    ensures ApplyLink(names, st, link).Success? <==> LinkOk(names, link)
  {
  }

  /** Link `l` joins `s` to `d`. */
  predicate Joins(names: map<string, nat>, l: Element, s: nat, d: nat)
  {
    match CheckLink(names, l)
    case Success(r) => r.src == s && r.dst == d
    case Failure(_) => false
  }

  /** After reading the links, the edges are the earlier ones plus one per link. */
  lemma ApplyLinksEdges(names: map<string, nat>, st: LinkState, links: seq<Element>, s: nat, d: nat)
    requires ApplyLinks(names, st, links).Success?
    ensures HasEdge(ApplyLinks(names, st, links).value.edges, s, d) <==>
      (HasEdge(st.edges, s, d) || exists j :: 0 <= j < |links| && Joins(names, links[j], s, d))
  {
    if HasEdge(ApplyLinks(names, st, links).value.edges, s, d) {
      NewEdgeHasLink(names, st, links, s, d);
    }
    if HasEdge(st.edges, s, d) {
      OldEdgeKept(names, st, links, s, d);
    }
    if exists j :: 0 <= j < |links| && Joins(names, links[j], s, d) {
      var j :| 0 <= j < |links| && Joins(names, links[j], s, d);
      LinkEdgeKept(names, st, links, j, s, d);
    }
  }

  lemma {:induction false} NewEdgeHasLink(names: map<string, nat>, st: LinkState, links: seq<Element>, s: nat, d: nat)
    requires ApplyLinks(names, st, links).Success?
    requires HasEdge(ApplyLinks(names, st, links).value.edges, s, d)
    ensures HasEdge(st.edges, s, d) || exists j :: 0 <= j < |links| && Joins(names, links[j], s, d)
    decreases |links|
  {
    if links != [] {
      var init := links[..|links| - 1];
      EdgesStep(names, st, links, s, d);
      if Joins(names, links[|links| - 1], s, d) {
      } else {
        NewEdgeHasLink(names, st, init, s, d);
        if !HasEdge(st.edges, s, d) {
          var j :| 0 <= j < |init| && Joins(names, init[j], s, d);
          assert init[j] == links[j];
        }
      }
    }
  }

  lemma {:induction false} OldEdgeKept(names: map<string, nat>, st: LinkState, links: seq<Element>, s: nat, d: nat)
    requires ApplyLinks(names, st, links).Success? && HasEdge(st.edges, s, d)
    ensures HasEdge(ApplyLinks(names, st, links).value.edges, s, d)
    decreases |links|
  {
    if links != [] {
      EdgesStep(names, st, links, s, d);
      OldEdgeKept(names, st, links[..|links| - 1], s, d);
    }
  }

  lemma {:induction false} LinkEdgeKept(names: map<string, nat>, st: LinkState, links: seq<Element>, j: nat, s: nat, d: nat)
    requires ApplyLinks(names, st, links).Success? && j < |links| && Joins(names, links[j], s, d)
    ensures HasEdge(ApplyLinks(names, st, links).value.edges, s, d)
    decreases |links|
  {
    EdgesStep(names, st, links, s, d);
    if j < |links| - 1 {
      var init := links[..|links| - 1];
      assert init[j] == links[j];
      LinkEdgeKept(names, st, init, j, s, d);
    }
  }

  /** The last link adds exactly its own edge. */
  lemma EdgesStep(names: map<string, nat>, st: LinkState, links: seq<Element>, s: nat, d: nat)
    requires links != [] && ApplyLinks(names, st, links).Success?
    ensures ApplyLinks(names, st, links[..|links| - 1]).Success?
    ensures HasEdge(ApplyLinks(names, st, links).value.edges, s, d) <==>
      (HasEdge(ApplyLinks(names, st, links[..|links| - 1]).value.edges, s, d) || Joins(names, links[|links| - 1], s, d))
  {
    var prev := ApplyLinks(names, st, links[..|links| - 1]);
    var last := links[|links| - 1];
    ApplyLinksUnfold(names, st, links);
    var l := CheckLink(names, last).value;
    assert ApplyLinks(names, st, links).value.edges == WithEdge(prev.value.edges, l.src, l.dst);
  }

  /** Link `l` writes input `toProperty` of `d` from `s`. */
  predicate Writes(names: map<string, nat>, l: Element, d: nat, s: nat, toProperty: string)
  {
    Joins(names, l, s, d) && CheckLink(names, l).value.toProperty == toProperty
  }

  /** Among links with the same (destination, source, input property), the last one decides the arc. */
  lemma {:induction false} LastLinkWins(names: map<string, nat>, st: LinkState, links: seq<Element>, j: nat)
    requires ApplyLinks(names, st, links).Success?
    requires j < |links| && CheckLink(names, links[j]).Success?
    requires var l := CheckLink(names, links[j]).value;
      forall k :: j < k < |links| ==> !Writes(names, links[k], l.dst, l.src, l.toProperty)
    ensures var l := CheckLink(names, links[j]).value;
      ArcLookup(ApplyLinks(names, st, links).value.arcs, l.dst, l.src, l.toProperty) == Some(l.fromProperty)
    decreases |links|
  {
    var l := CheckLink(names, links[j]).value;
    var init := links[..|links| - 1];
    var last := links[|links| - 1];
    ApplyLinksUnfold(names, st, links);
    var prev := ApplyLinks(names, st, init).value;
    ApplyLinkArc(names, prev, last, l.dst, l.src, l.toProperty);
    if j < |links| - 1 {
      assert init[j] == links[j];
      forall k | j < k < |init|
        ensures !Writes(names, init[k], l.dst, l.src, l.toProperty)
      {
        assert init[k] == links[k];
      }
      LastLinkWins(names, st, init, j);
    }
  }

  /** An arc that no link writes keeps its earlier value. */
  lemma {:induction false} UnwrittenArcKept(names: map<string, nat>, st: LinkState, links: seq<Element>, d: nat, s: nat, p: string)
    requires ApplyLinks(names, st, links).Success?
    requires forall k :: 0 <= k < |links| ==> !Writes(names, links[k], d, s, p)
    ensures ArcLookup(ApplyLinks(names, st, links).value.arcs, d, s, p) == ArcLookup(st.arcs, d, s, p)
    decreases |links|
  {
    if links != [] {
      var init := links[..|links| - 1];
      ApplyLinksUnfold(names, st, links);
      ApplyLinkArc(names, ApplyLinks(names, st, init).value, links[|links| - 1], d, s, p);
      forall k | 0 <= k < |init|
        ensures !Writes(names, init[k], d, s, p)
      {
        assert init[k] == links[k];
      }
      UnwrittenArcKept(names, st, init, d, s, p);
    }
  }

  /** `ApplyLinks` on a non-empty list, one level unfolded. */
  lemma ApplyLinksUnfold(names: map<string, nat>, st: LinkState, links: seq<Element>)
    requires links != []
    ensures var p := ApplyLinks(names, st, links[..|links| - 1]);
      ApplyLinks(names, st, links) == if p.Failure? then Failure(p.error) else ApplyLink(names, p.value, links[|links| - 1])
  {
  }

  /** One link changes only the arc it writes. */
  lemma ApplyLinkArc(names: map<string, nat>, st: LinkState, link: Element, d: nat, s: nat, p: string)
    requires ApplyLink(names, st, link).Success?
    ensures ArcLookup(ApplyLink(names, st, link).value.arcs, d, s, p) ==
      if Writes(names, link, d, s, p) then Some(CheckLink(names, link).value.fromProperty) else ArcLookup(st.arcs, d, s, p)
  {
  }

  lemma SetArcWithin(a: DataArcs, n: nat, dst: nat, src: nat, toProperty: string, fromProperty: string)
    requires ArcsWithin(a, n) && dst < n && src < n
    ensures ArcsWithin(SetArc(a, dst, src, toProperty, fromProperty), n)
  {
  }

  /** Links between resolved indices below `n` keep every index below `n` and add no self-cycle. */
  lemma {:induction false} ApplyLinksWithin(names: map<string, nat>, st: LinkState, links: seq<Element>, n: nat)
    requires forall x :: x in names ==> names[x] < n
    requires EdgesWithin(st.edges, n) && NoSelfLoops(st.edges) && ArcsWithin(st.arcs, n)
    requires ApplyLinks(names, st, links).Success?
    ensures var r := ApplyLinks(names, st, links).value;
      EdgesWithin(r.edges, n) && NoSelfLoops(r.edges) && ArcsWithin(r.arcs, n)
    decreases |links|
  {
    if links != [] {
      var init := links[..|links| - 1];
      ApplyLinksUnfold(names, st, links);
      ApplyLinksWithin(names, st, init, n);
      ApplyLinkWithin(names, ApplyLinks(names, st, init).value, links[|links| - 1], n);
    }
  }

  /** One link between resolved indices below `n` keeps every index below `n` and adds no self-cycle. */
  lemma ApplyLinkWithin(names: map<string, nat>, st: LinkState, link: Element, n: nat)
    requires forall x :: x in names ==> names[x] < n
    requires EdgesWithin(st.edges, n) && NoSelfLoops(st.edges) && ArcsWithin(st.arcs, n)
    requires ApplyLink(names, st, link).Success?
    ensures var r := ApplyLink(names, st, link).value;
      EdgesWithin(r.edges, n) && NoSelfLoops(r.edges) && ArcsWithin(r.arcs, n)
  {
    var l := CheckLink(names, link).value;
    SetArcWithin(st.arcs, n, l.dst, l.src, l.toProperty, l.fromProperty);
  }

  /** The simple form's edges and data arcs, written out. */
  lemma SimpleWiring()
    ensures WithEdge(WithEdge(map[], 0, 2), 2, 1) == map[0 := {2}, 2 := {1}]
    ensures SetBindings(map[], 2, 0, map[]) == map[2 := map[0 := map[]]]
  {
    var e1 := WithEdge(map[], 0, 2);
    assert e1.Keys == {0} && e1[0] == {2};
    assert e1 == map[0 := {2}];
    var e2 := WithEdge(e1, 2, 1);
    assert e2.Keys == {0, 2} && e2[0] == {2} && e2[2] == {1};
  }

  /** Appending to a concatenation appends to its second part. */
  lemma AppendOne<T>(a: seq<T>, b: seq<T>, x: T)
    ensures (a + b) + [x] == a + (b + [x]) && |b + [x]| == |b| + 1
  {
  }
}
