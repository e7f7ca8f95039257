/** The markup primitives of the XOM-based generator: fresh XHTML elements. */
module XomMarkup {
  import opened Wrappers
  import opened Markup

  /** A level-two heading holding exactly the given text. */
  function H2(text: string): (r: Node)
    ensures r.Element? && r.namespace == XHTML && r.name == "h2" && r.attributes == []
    ensures r.children == [Text(text)] && TextContent(r) == text
  {
    TextContentAllSingle(Text(text));
    Element(XHTML, "h2", [], [Text(text)])
  }

  /** A list item whose only child is `e`. */
  function ListItem(e: Node): (r: Node)
    ensures r.Element? && r.namespace == XHTML && r.name == "li" && r.attributes == []
    ensures r.children == [e] && TextContent(r) == TextContent(e)
  {
    TextContentAllSingle(e);
    Element(XHTML, "li", [], [e])
  }

  /** A link with exactly one attribute, `href`, and exactly one text child. */
  function Link(target: string, text: string): (r: Node)
    ensures r.Element? && r.namespace == XHTML && r.name == "a"
    ensures r.attributes == [Attribute("href", target)] && Href(r) == Some(target)
    ensures r.children == [Text(text)] && TextContent(r) == text
  {
    TextContentAllSingle(Text(text));
    Element(XHTML, "a", [Attribute("href", target)], [Text(text)])
  }
}
