/**
 * An abstract document tree standing for the DOM that DOMParser builds: elements
 * with a tag name, an attribute map and children, and text nodes. The queries the
 * analyzer uses (querySelectorAll, querySelector, getElementById, closest,
 * textContent) are defined over it in document order.
 */
module Dom {
  import opened Wrappers
  import opened Seqs

  datatype Node = Elem(element: Element) | Text(data: string)

  datatype Element = Element(tag: string, attrs: map<string, string>, children: seq<Node>)

  /** An element with its ancestors, nearest first: what closest() walks up through. */
  datatype Located = Located(element: Element, ancestors: seq<Element>)

  /** getAttribute(name) || '': the value, or the empty string for an absent attribute. */
  function Attr(e: Element, name: string): string {
    if name in e.attrs then e.attrs[name] else ""
  }

  /** The element carries the attribute with exactly this value. */
  predicate HasAttrValue(e: Element, name: string, value: string) {
    name in e.attrs && e.attrs[name] == value
  }

  /** textContent: the text of all descendant text nodes, in document order. */
  function TextContent(e: Element): string {
    ChildrenText(e.children)
  }

  function NodeText(n: Node): string {
    match n
    case Text(s) => s
    case Elem(e) => ChildrenText(e.children)
  }

  function ChildrenText(cs: seq<Node>): string {
    if cs == [] then "" else NodeText(cs[0]) + ChildrenText(cs[1..])
  }

  /** The elements of the subtree rooted at e, in document (pre-)order, e first. */
  function Walk(e: Element, ancestors: seq<Element>): (r: seq<Located>)
    ensures |r| >= 1 && r[0] == Located(e, ancestors)
  {
    WalkNode(Elem(e), ancestors)
  }

  function WalkNode(n: Node, ancestors: seq<Element>): seq<Located> {
    match n
    case Text(_) => []
    case Elem(e) => [Located(e, ancestors)] + WalkChildren(e.children, [e] + ancestors)
  }

  function WalkChildren(cs: seq<Node>, ancestors: seq<Element>): seq<Located> {
    if cs == [] then [] else WalkNode(cs[0], ancestors) + WalkChildren(cs[1..], ancestors)
  }

  /** The chain a ends with the chain b. */
  predicate EndsWith(a: seq<Element>, b: seq<Element>) {
    |b| <= |a| && a[|a| - |b|..] == b
  }

  /** Every entry of a walk lies inside the subtree: its ancestor chain extends the one the walk started with. */
  lemma {:induction false} WalkNodeInside(n: Node, ancestors: seq<Element>)
    ensures forall l :: l in WalkNode(n, ancestors) ==> EndsWith(l.ancestors, ancestors)
    decreases n
  {
    match n
    case Text(_) =>
    case Elem(e) =>
      var inner := [e] + ancestors;
      WalkChildrenInside(e.children, inner);
      forall l | l in WalkChildren(e.children, inner)
        ensures EndsWith(l.ancestors, ancestors)
      {
        var a := l.ancestors;
        assert a[|a| - |inner|..] == inner;
        assert a[|a| - |ancestors|..] == inner[1..];
      }
  }

  lemma {:induction false} WalkChildrenInside(cs: seq<Node>, ancestors: seq<Element>)
    ensures forall l :: l in WalkChildren(cs, ancestors) ==> EndsWith(l.ancestors, ancestors)
    decreases cs
  {
    if cs != [] {
      WalkNodeInside(cs[0], ancestors);
      WalkChildrenInside(cs[1..], ancestors);
    }
  }

  /** The walk from e lists e first, and every later entry is a proper descendant of e. */
  lemma {:induction false} WalkSubtree(e: Element, ancestors: seq<Element>)
    ensures forall k :: 0 < k < |Walk(e, ancestors)| ==> EndsWith(Walk(e, ancestors)[k].ancestors, [e] + ancestors)
  {
    var w := Walk(e, ancestors);
    var rest := WalkChildren(e.children, [e] + ancestors);
    WalkChildrenInside(e.children, [e] + ancestors);
    assert w == [Located(e, ancestors)] + rest;
    forall k | 0 < k < |w|
      ensures EndsWith(w[k].ancestors, [e] + ancestors)
    {
      assert w[k] == rest[k - 1];
    }
  }

  /** Every element of the document, in document order; doc is the document element. */
  function DocumentOrder(doc: Element): seq<Located> {
    Walk(doc, [])
  }

  /** The proper descendants of an element, in document order. */
  function Descendants(l: Located): seq<Located> {
    WalkChildren(l.element.children, [l.element] + l.ancestors)
  }

  /** The entries of ls whose tag is tag, in their order: querySelectorAll(tag) over ls. */
  function WithTag(ls: seq<Located>, tag: string): (r: seq<Located>)
    ensures |r| <= |ls|
    ensures forall x :: x in r <==> x in ls && x.element.tag == tag
  {
    if ls == [] then []
    else (if ls[0].element.tag == tag then [ls[0]] else []) + WithTag(ls[1..], tag)
  }

  /** The element of l has this tag. */
  function HasTag(tag: string): Located -> bool {
    (l: Located) => l.element.tag == tag
  }

  /** WithTag is the order-preserving filter by tag: nothing is reordered, merged or dropped. */
  lemma {:induction false} WithTagFilter(ls: seq<Located>, tag: string)
    ensures WithTag(ls, tag) == Filter(ls, HasTag(tag))
  {
    if ls != [] {
      var p, head, rest := HasTag(tag), [ls[0]], ls[1..];
      WithTagFilter(rest, tag);
      assert ls == head + rest;
      FilterConcat(head, rest, p);
      assert Filter(head, p) == if p(ls[0]) then head else [] by {
        assert head[..0] == [];
      }
    }
  }

  /** A tag query over two runs of elements is the query over the first, then over the second. */
  lemma {:induction false} WithTagConcat(a: seq<Located>, b: seq<Located>, tag: string)
    ensures WithTag(a + b, tag) == WithTag(a, tag) + WithTag(b, tag)
  {
    WithTagFilter(a + b, tag);
    WithTagFilter(a, tag);
    WithTagFilter(b, tag);
    FilterConcat(a, b, HasTag(tag));
  }

  /** A tag query returns one entry per walked element with that tag, equal entries included. */
  lemma {:induction false} WithTagCount(ls: seq<Located>, tag: string)
    ensures |WithTag(ls, tag)| == Count(ls, HasTag(tag))
  {
    WithTagFilter(ls, tag);
    FilterLength(ls, HasTag(tag));
  }

  function Elements(ls: seq<Located>): (r: seq<Element>)
    ensures |r| == |ls| && forall k :: 0 <= k < |ls| ==> r[k] == ls[k].element
  {
    seq(|ls|, k requires 0 <= k < |ls| => ls[k].element)
  }

  /** The first entry of ls whose element satisfies p: querySelector / getElementById. */
  function First(ls: seq<Located>, p: Element -> bool): (r: Option<Element>)
    ensures r.None? <==> forall k :: 0 <= k < |ls| ==> !p(ls[k].element)
    ensures r.Some? ==> p(r.value)
    ensures r.Some? ==> exists k :: 0 <= k < |ls| && ls[k].element == r.value
                                    && forall j :: 0 <= j < k ==> !p(ls[j].element)
  {
    if ls == [] then None
    else if p(ls[0].element) then Some(ls[0].element)
    else
      First(ls[1..], p)
  }

  /** doc.getElementById(id): the first element of the document whose id is id. */
  function GetElementById(doc: Element, id: string): Option<Element> {
    First(DocumentOrder(doc), e => HasAttrValue(e, "id", id))
  }

  /** doc.querySelector(`label[for="id"]`): the first label of the document whose for is id. */
  function LabelFor(doc: Element, id: string): Option<Element> {
    First(DocumentOrder(doc), (e: Element) => e.tag == "label" && HasAttrValue(e, "for", id))
  }

  /** The nearest element of es (nearest first) with this tag. */
  function Nearest(es: seq<Element>, tag: string): (r: Option<Element>)
    ensures r.None? <==> forall k :: 0 <= k < |es| ==> es[k].tag != tag
    ensures r.Some? ==> exists k :: 0 <= k < |es| && es[k] == r.value && es[k].tag == tag
                                    && forall j :: 0 <= j < k ==> es[j].tag != tag
  {
    if es == [] then None
    else if es[0].tag == tag then Some(es[0])
    else
      Nearest(es[1..], tag)
  }

  /** element.closest(tag): the element itself or its nearest ancestor with this tag. */
  function Closest(l: Located, tag: string): (r: Option<Element>)
    ensures r.Some? ==> r.value.tag == tag && (r.value == l.element || r.value in l.ancestors)
    ensures r.None? <==> l.element.tag != tag && forall a :: a in l.ancestors ==> a.tag != tag
    ensures l.element.tag == tag ==> r == Some(l.element)
    ensures l.element.tag != tag && r.Some? ==>
              exists k :: 0 <= k < |l.ancestors| && l.ancestors[k] == r.value
                          && forall j :: 0 <= j < k ==> l.ancestors[j].tag != tag
  {
    if l.element.tag == tag then Some(l.element) else Nearest(l.ancestors, tag)
  }
}
