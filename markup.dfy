/**
 * The document tree the site generator builds: namespaced elements with
 * ordered attributes and ordered children, and text nodes.
 */
module Markup {
  import opened Wrappers

  /**
   * The XHTML namespace. Both markup helper classes (the XOM one and the DOM
   * one) declare this same constant and create every element in it.
   */
  const XHTML: string := "http://www.w3.org/1999/xhtml"

  datatype Attribute = Attribute(name: string, value: string)

  datatype Node =
    | Element(namespace: string, name: string, attributes: seq<Attribute>, children: seq<Node>)
    | Text(text: string)

  /** The value of the first attribute called `name`, if there is one. */
  function AttributeValue(attributes: seq<Attribute>, name: string): Option<string> {
    if attributes == [] then None
    else if attributes[0].name == name then Some(attributes[0].value)
    else AttributeValue(attributes[1..], name)
  }

  /** The `id` attribute of an element. */
  function Id(n: Node): Option<string> {
    if n.Element? then AttributeValue(n.attributes, "id") else None
  }

  /** The `href` attribute of an element. */
  function Href(n: Node): Option<string> {
    if n.Element? then AttributeValue(n.attributes, "href") else None
  }

  /** The character data of a node, as a serializer would write it without markup. */
  function TextContent(n: Node): string {
    match n
    case Text(s) => s
    case Element(_, _, _, children) => TextContentAll(children)
  }

  function TextContentAll(ns: seq<Node>): string {
    if ns == [] then "" else TextContent(ns[0]) + TextContentAll(ns[1..])
  }

  /** The character data of a single child is that child's. */
  lemma TextContentAllSingle(n: Node)
    ensures TextContentAll([n]) == TextContent(n)
  {
    assert [n][1..] == [];
  }

  /** Character data distributes over the concatenation of sibling lists. */
  lemma {:induction false} TextContentAllAppend(a: seq<Node>, b: seq<Node>)
    ensures TextContentAll(a + b) == TextContentAll(a) + TextContentAll(b)
  {
    if a == [] {
      assert a + b == b;
    } else {
      assert (a + b)[0] == a[0];
      assert (a + b)[1..] == a[1..] + b;
      TextContentAllAppend(a[1..], b);
    }
  }

  /** The character data of three siblings is theirs in order. */
  lemma TextContentOfThree(a: Node, b: Node, d: Node)
    ensures TextContentAll([a, b, d]) == TextContent(a) + TextContent(b) + TextContent(d)
  {
    TextContentAllSingle(d);
    TextContentAllAppend([a, b], [d]);
    TextContentAllSingle(b);
    TextContentAllAppend([a], [b]);
    TextContentAllSingle(a);
    assert [a, b, d] == [a, b] + [d];
    assert [a, b] == [a] + [b];
  }

  /** The character data of two siblings is theirs in order. */
  lemma TextContentOfTwo(a: Node, b: Node)
    ensures TextContentAll([a, b]) == TextContent(a) + TextContent(b)
  {
    TextContentAllSingle(b);
    TextContentAllAppend([a], [b]);
    TextContentAllSingle(a);
    assert [a, b] == [a] + [b];
  }
}
