/**
 * A parsed workflow-definition document: every element has a tag, an
 * attribute map, its child elements in document order and its text.
 * The two element-lookup disciplines the compilers rely on are defined here:
 * direct-children lookup (`findall`/`find` of the lxml-based compiler) and
 * pre-order descendant lookup (`getElementsByTagName` of the minidom-based one).
 */
module XmlDoc {
  import opened Wrappers

  /** An element; text of an element without text is the empty string. */
  datatype Element = Element(tag: string, attrs: map<string, string>, children: seq<Element>, text: string)

  /** Direct children carrying `tag`, in document order. */
  function FindAll(e: Element, tag: string): (r: seq<Element>)
    ensures forall x :: x in r ==> x in e.children && x.tag == tag
    ensures forall i :: 0 <= i < |e.children| && e.children[i].tag == tag ==> e.children[i] in r
  {
    ChildrenWithTag(e.children, tag)
  }

  function ChildrenWithTag(cs: seq<Element>, tag: string): (r: seq<Element>)
    ensures |r| <= |cs|
    ensures forall x :: x in r ==> x in cs && x.tag == tag
    ensures forall i :: 0 <= i < |cs| && cs[i].tag == tag ==> cs[i] in r
  {
    if cs == [] then []
    else (if cs[0].tag == tag then [cs[0]] else []) + ChildrenWithTag(cs[1..], tag)
  }

  /** Each child carrying `tag` is kept as often as it occurs, every other element is dropped. */
  lemma {:induction false} ChildrenWithTagCount(cs: seq<Element>, tag: string)
    ensures forall x :: multiset(ChildrenWithTag(cs, tag))[x] == (if x.tag == tag then multiset(cs)[x] else 0)
    decreases cs
  {
    if cs != [] {
      assert cs == [cs[0]] + cs[1..];
      ChildrenWithTagCount(cs[1..], tag);
    }
  }

  /** The lookup keeps document order: it distributes over concatenation, one child at a time. */
  lemma {:induction false} ChildrenWithTagConcat(a: seq<Element>, b: seq<Element>, tag: string)
    ensures ChildrenWithTag(a + b, tag) == ChildrenWithTag(a, tag) + ChildrenWithTag(b, tag)
    decreases a
  {
    if a == [] {
      assert a + b == b;
    } else {
      var head := if a[0].tag == tag then [a[0]] else [];
      assert (a + b)[0] == a[0] && (a + b)[1..] == a[1..] + b;
      calc {
        ChildrenWithTag(a + b, tag);
        head + ChildrenWithTag(a[1..] + b, tag);
        { ChildrenWithTagConcat(a[1..], b, tag); }
        head + (ChildrenWithTag(a[1..], tag) + ChildrenWithTag(b, tag));
        (head + ChildrenWithTag(a[1..], tag)) + ChildrenWithTag(b, tag);
      }
      assert ChildrenWithTag(a, tag) == head + ChildrenWithTag(a[1..], tag);
    }
  }

  lemma ChildrenWithTagOne(c: Element, tag: string)
    ensures ChildrenWithTag([c], tag) == if c.tag == tag then [c] else []
  {
    assert [c][1..] == [];
  }

  /** The text of every element of `es`, in order. */
  function Texts(es: seq<Element>): (r: seq<string>)
    ensures |r| == |es|
    ensures forall i :: 0 <= i < |es| ==> r[i] == es[i].text
  {
    if es == [] then [] else [es[0].text] + Texts(es[1..])
  }

  /** Attribute lookup with a default, as `attrib.get(name, default)`. */
  function AttrOr(e: Element, name: string, default: string): string
  {
    if name in e.attrs then e.attrs[name] else default
  }

  /** Descendants of `e` (not `e` itself) carrying `tag`, in pre-order. */
  function Descendants(e: Element, tag: string): seq<Element>
  {
    DescendantsIn(e.children, tag)
  }

  function DescendantsIn(cs: seq<Element>, tag: string): seq<Element>
    decreases cs
  {
    if cs == [] then []
    else
      (if cs[0].tag == tag then [cs[0]] else [])
      + DescendantsIn(cs[0].children, tag)
      + DescendantsIn(cs[1..], tag)
  }

  /** Document-wide lookup: the root element itself counts when it carries `tag`. */
  function DocumentElements(root: Element, tag: string): seq<Element>
  {
    (if root.tag == tag then [root] else []) + Descendants(root, tag)
  }

  /** Only elements carrying `tag` are found, and the root comes first when it carries it. */
  lemma DocumentElementsTagged(root: Element, tag: string)
    ensures forall x :: x in DocumentElements(root, tag) ==> x.tag == tag
    ensures root.tag == tag ==> |DocumentElements(root, tag)| > 0 && DocumentElements(root, tag)[0] == root
  {
    DescendantsTagged(root.children, tag);
  }

  /** `x` occurs somewhere in the forest `cs`: as one of its trees or inside one. */
  ghost predicate Inside(x: Element, cs: seq<Element>)
    decreases cs
  {
    exists i :: 0 <= i < |cs| && (x == cs[i] || Inside(x, cs[i].children))
  }

  /** Document-wide lookup finds exactly the elements of the document carrying `tag`. */
  lemma DocumentElementsExact(root: Element, tag: string, x: Element)
    ensures x in DocumentElements(root, tag) <==> x.tag == tag && (x == root || Inside(x, root.children))
  {
    if x in Descendants(root, tag) {
      DescendantsSound(root.children, tag, x);
    }
    if x.tag == tag && x != root && Inside(x, root.children) {
      DescendantsComplete(root.children, tag, x);
    }
  }

  /** Every element the descendant lookup returns carries `tag` and lies inside the forest. */
  lemma {:induction false} DescendantsSound(cs: seq<Element>, tag: string, x: Element)
    requires x in DescendantsIn(cs, tag)
    ensures x.tag == tag && Inside(x, cs)
    decreases cs
  {
    var head := if cs[0].tag == tag then [cs[0]] else [];
    if x in head {
    } else if x in DescendantsIn(cs[0].children, tag) {
      DescendantsSound(cs[0].children, tag, x);
    } else {
      DescendantsSound(cs[1..], tag, x);
      var i :| 0 <= i < |cs[1..]| && (x == cs[1..][i] || Inside(x, cs[1..][i].children));
      assert cs[1..][i] == cs[i + 1];
    }
  }

  /** Every element inside the forest that carries `tag` is returned by the descendant lookup. */
  lemma {:induction false} DescendantsComplete(cs: seq<Element>, tag: string, x: Element)
    requires x.tag == tag && Inside(x, cs)
    ensures x in DescendantsIn(cs, tag)
    decreases cs
  {
    var i :| 0 <= i < |cs| && (x == cs[i] || Inside(x, cs[i].children));
    if i == 0 {
      if x != cs[0] {
        DescendantsComplete(cs[0].children, tag, x);
      }
    } else {
      assert cs[1..][i - 1] == cs[i];
      DescendantsComplete(cs[1..], tag, x);
    }
  }

  lemma {:induction false} DescendantsTagged(cs: seq<Element>, tag: string)
    ensures forall x :: x in DescendantsIn(cs, tag) ==> x.tag == tag
    decreases cs
  {
    if cs != [] {
      DescendantsTagged(cs[0].children, tag);
      DescendantsTagged(cs[1..], tag);
    }
  }
}
