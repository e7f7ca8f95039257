/**
 * The markup primitives of the DOM-based code. A DOM node belongs to the
 * document that created it, so every node here records its owner document;
 * `Strip` forgets the owners and gives the plain tree.
 */
module DomMarkup {
  import opened Wrappers
  import opened Markup
  import opened Failures
  import XomMarkup

  /** A DOM document, identified only as the owner of nodes. */
  datatype Document = Document(id: nat)

  datatype DomNode =
    | DomElement(owner: Document, namespace: string, name: string,
                 attributes: seq<Attribute>, children: seq<DomNode>)
    | DomText(owner: Document, text: string)

  /** The plain tree of a DOM node: same names, attributes, text and order. */
  function Strip(n: DomNode): Node {
    match n
    case DomText(_, s) => Text(s)
    case DomElement(_, ns, name, attrs, children) => Element(ns, name, attrs, StripAll(children))
  }

  function StripAll(ns: seq<DomNode>): seq<Node> {
    if ns == [] then [] else [Strip(ns[0])] + StripAll(ns[1..])
  }

  lemma StripAllSingle(n: DomNode)
    ensures StripAll([n]) == [Strip(n)]
  {
    assert [n][1..] == [];
  }

  /** Every node of the subtree belongs to document `d`. */
  predicate Owned(n: DomNode, d: Document) {
    match n
    case DomText(o, _) => o == d
    case DomElement(o, _, _, _, children) => o == d && OwnedAll(children, d)
  }

  predicate OwnedAll(ns: seq<DomNode>, d: Document) {
    ns == [] || (Owned(ns[0], d) && OwnedAll(ns[1..], d))
  }

  /** `Document.adoptNode`: the subtree changes owner to `d` and nothing else. */
  function Adopt(n: DomNode, d: Document): DomNode {
    match n
    case DomText(_, s) => DomText(d, s)
    case DomElement(_, ns, name, attrs, children) => DomElement(d, ns, name, attrs, AdoptAll(children, d))
  }

  function AdoptAll(ns: seq<DomNode>, d: Document): seq<DomNode> {
    if ns == [] then [] else [Adopt(ns[0], d)] + AdoptAll(ns[1..], d)
  }

  /** An adopted subtree belongs entirely to its new document... */
  lemma {:induction false} AdoptOwns(n: DomNode, d: Document)
    ensures Owned(Adopt(n, d), d)
  {
    match n
    case DomText(_, _) =>
    case DomElement(_, _, _, _, children) => AdoptAllOwns(children, d);
  }

  lemma {:induction false} AdoptAllOwns(ns: seq<DomNode>, d: Document)
    ensures OwnedAll(AdoptAll(ns, d), d)
  {
    if ns != [] {
      AdoptOwns(ns[0], d);
      AdoptAllOwns(ns[1..], d);
    }
  }

  /** ...and keeps its structure: adoption neither drops nor reorders content. */
  lemma {:induction false} AdoptKeepsTree(n: DomNode, d: Document)
    ensures Strip(Adopt(n, d)) == Strip(n)
  {
    match n
    case DomText(_, _) =>
    case DomElement(_, _, _, _, children) => AdoptAllKeepsTree(children, d);
  }

  lemma {:induction false} AdoptAllKeepsTree(ns: seq<DomNode>, d: Document)
    ensures StripAll(AdoptAll(ns, d)) == StripAll(ns)
  {
    if ns != [] {
      AdoptKeepsTree(ns[0], d);
      AdoptAllKeepsTree(ns[1..], d);
    }
  }

  /** `createTextNode` on `document`. */
  function TextNode(document: Document, text: string): (r: DomNode)
    ensures Owned(r, document) && Strip(r) == Text(text)
  {
    DomText(document, text)
  }

  /** A level-two heading created through `document`; the same tree as the XOM helper's. */
  function H2(document: Document, text: string): (r: DomNode)
    ensures Owned(r, document)
    ensures Strip(r) == XomMarkup.H2(text)
  {
    StripAllSingle(TextNode(document, text));
    DomElement(document, XHTML, "h2", [], [TextNode(document, text)])
  }

  /**
   * A list item created through `document` whose only child is `e`. DOM's
   * appendChild refuses a node that another document owns.
   */
  function ListItem(document: Document, e: DomNode): (r: Result<DomNode, Failure>)
    ensures r.Success? <==> e.owner == document
    ensures r.Failure? ==> r.error == WrongDocument
    ensures r.Success? ==> r.value.DomElement? && r.value.owner == document
    ensures r.Success? ==> r.value.children == [e] && Strip(r.value) == XomMarkup.ListItem(Strip(e))
    ensures r.Success? && Owned(e, document) ==> Owned(r.value, document)
  {
    if e.owner != document then Failure(WrongDocument)
    else StripAllSingle(e); Success(DomElement(document, XHTML, "li", [], [e]))
  }

  /** A link created through `document`; the same tree as the XOM helper's. */
  function Link(document: Document, target: string, text: string): (r: DomNode)
    ensures Owned(r, document)
    ensures Strip(r) == XomMarkup.Link(target, text)
  {
    StripAllSingle(TextNode(document, text));
    DomElement(document, XHTML, "a", [Attribute("href", target)], [TextNode(document, text)])
  }

  /** The plain children of a DOM sibling list, position by position. */
  lemma {:induction false} StripAllIndex(ns: seq<DomNode>)
    ensures |StripAll(ns)| == |ns|
    ensures forall i :: 0 <= i < |ns| ==> StripAll(ns)[i] == Strip(ns[i])
  {
    if ns != [] {
      StripAllIndex(ns[1..]);
      assert forall i :: 1 <= i < |ns| ==> ns[1..][i - 1] == ns[i];
    }
  }

  /** A sibling list belongs to `d` exactly when each of its nodes does. */
  lemma {:induction false} OwnedAllIndex(ns: seq<DomNode>, d: Document)
    ensures OwnedAll(ns, d) <==> forall i :: 0 <= i < |ns| ==> Owned(ns[i], d)
  {
    if ns != [] {
      OwnedAllIndex(ns[1..], d);
      assert forall i :: 1 <= i < |ns| ==> ns[1..][i - 1] == ns[i];
    }
  }

  /**
   * `createElementNS(XHTML, name)` on `document`, with the given attributes
   * set and the given children appended in order; every child was created
   * through the same document.
   */
  function Create(document: Document, name: string, attributes: seq<Attribute>, children: seq<DomNode>): (r: DomNode)
    requires forall i :: 0 <= i < |children| ==> Owned(children[i], document)
    ensures Owned(r, document)
    ensures Strip(r) == Element(XHTML, name, attributes, StripAll(children))
  {
    OwnedAllIndex(children, document);
    DomElement(document, XHTML, name, attributes, children)
  }
}
