/** The parsed HTML tree the scraper works on: text nodes, elements with their (lower-case)
    tag, attributes and child nodes, and the other node kinds (comments, data nodes) that
    the rendering ignores. Parsing itself is not part of this model. */
module Dom {

  datatype Node =
    | TextNode(wholeText: string)
    | Element(tag: string, attrs: map<string, string>, children: seq<Node>)
    | OtherNode

  /** jsoup's `attr(key)`: the value, or "" when the attribute is absent. */
  function Attr(n: Node, key: string): string
    requires n.Element?
  {
    if key in n.attrs then n.attrs[key] else ""
  }

  /** The element children of an element (jsoup's `children()`), in order. */
  function ElementChildren(cs: seq<Node>): (r: seq<Node>)
    ensures forall i :: 0 <= i < |r| ==> r[i].Element? && r[i] in cs
  {
    if cs == [] then []
    else if cs[0].Element? then [cs[0]] + ElementChildren(cs[1..])
    else ElementChildren(cs[1..])
  }

  /** Every element under a list of sibling nodes, in document order (each element before
      its descendants, and those before its later siblings). */
  function Elements(cs: seq<Node>): seq<Node>
  {
    if cs == [] then []
    else if cs[0].Element? then [cs[0]] + Elements(cs[0].children) + Elements(cs[1..])
    else Elements(cs[1..])
  }

  /** An ancestor on the way down: the element and whether it is the first element among its
      siblings (CSS `:first-child`). */
  datatype Anc = Anc(node: Node, firstChild: bool)

  /** An element found under a root, with its own `:first-child` flag and its ancestors below
      the root, outermost first. */
  datatype Found = Found(node: Node, firstChild: bool, ancestors: seq<Anc>)

  /** What a selector query walks: every element under `cs`, in document order, with its
      context. `seen` says whether an element sibling came before `cs[0]`. */
  function Descendants(cs: seq<Node>, ancestors: seq<Anc>, seen: bool): (r: seq<Found>)
    ensures forall i :: 0 <= i < |r| ==> r[i].node.Element? && |ancestors| <= |r[i].ancestors|
                                         && r[i].ancestors[..|ancestors|] == ancestors
  {
    if cs == [] then []
    else if cs[0].Element? then
      [Found(cs[0], !seen, ancestors)]
      + Descendants(cs[0].children, ancestors + [Anc(cs[0], !seen)], false)
      + Descendants(cs[1..], ancestors, true)
    else Descendants(cs[1..], ancestors, seen)
  }
}
