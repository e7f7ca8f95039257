/**
 * The changes section as the DOM-based helper builds it into a caller's
 * document: the same section as the XOM-generated page, with the rendered
 * changelog re-parsed from the writer's output and adopted into that document.
 */
module DomChangelogs {
  import opened Wrappers
  import opened Markup
  import opened Failures
  import opened Configurations
  import opened Collaborators
  import opened DomMarkup
  import SiteChangelog

  /** The paragraph linking the Atom feed of releases, created through `document`. */
  function AtomParagraph(document: Document): (r: DomNode)
    ensures Owned(r, document) && Strip(r) == SiteChangelog.AtomParagraph()
  {
    var children := [TextNode(document, "Subscribe to the releases "),
      Link(document, "releases.atom", "atom feed"), TextNode(document, ".")];
    StripAllIndex(children);
    assert StripAll(children) == [Strip(children[0]), Strip(children[1]), Strip(children[2])];
    Create(document, "p", [], children)
  }

  /** The paragraph shown when the changelog has no release, created through `document`. */
  function NoReleasesParagraph(document: Document): (r: DomNode)
    ensures Owned(r, document) && Strip(r) == SiteChangelog.NoReleasesParagraph()
  {
    var children := [TextNode(document, "No formal releases have been made.")];
    StripAllSingle(children[0]);
    Create(document, "p", [], children)
  }

  /**
   * `serializeChangelog`: the writer's output, parsed back, has its root
   * element adopted into `document`. Output that does not parse is a failure.
   */
  function SerializeChangelog(document: Document, model: ChangelogModel<DomNode>): (r: Result<DomNode, Failure>)
    ensures r.Failure? <==> model.rendered.None?
    ensures r.Failure? ==> r.error == RenderedChangelogMalformed
    ensures r.Success? ==> Owned(r.value, document) && Strip(r.value) == Strip(model.rendered.value)
  {
    match model.rendered
    case None => Failure(RenderedChangelogMalformed)
    case Some(root) =>
      AdoptOwns(root, document);
      AdoptKeepsTree(root, document);
      Success(Adopt(root, document))
  }

  /**
   * The changes section built into `document`. The parser provider is looked
   * up before the writer provider; then the file is read and parsed, and the
   * writer is used only when there is at least one release.
   */
  function Changelog(document: Document, changes: ChangesConfig, services: ChangelogServices<DomNode>): (r: Result<DomNode, Failure>)
    ensures !services.parserPresent ==> r == Failure(NoChangelogParser)
    ensures services.parserPresent && !services.writerPresent ==> r == Failure(NoChangelogWriter)
    ensures r.Success? ==> Owned(r.value, document)
  {
    if !services.parserPresent then Failure(NoChangelogParser)
    else if !services.writerPresent then Failure(NoChangelogWriter)
    else if changes.file !in services.files then Failure(ChangelogUnreadable(changes.file))
    else match services.files[changes.file]
      case None => Failure(ChangelogMalformed(changes.file))
      case Some(model) =>
        var last :- if model.releaseCount == 0 then Success(NoReleasesParagraph(document))
                    else SerializeChangelog(document, model);
        var children := [H2(document, "Changes"), AtomParagraph(document), last];
        Success(Create(document, "div", [Attribute("id", "changes")], children))
  }

  /** A changelog model with its rendered root reduced to the plain tree. */
  function StripModel(model: ChangelogModel<DomNode>): ChangelogModel<Node> {
    ChangelogModel(model.releaseCount, if model.rendered.Some? then Some(Strip(model.rendered.value)) else None)
  }

  /** The changelog library with every rendered root reduced to the plain tree. */
  function StripServices(services: ChangelogServices<DomNode>): (r: ChangelogServices<Node>)
    ensures r.parserPresent == services.parserPresent && r.writerPresent == services.writerPresent
    ensures r.files.Keys == services.files.Keys
    ensures forall p :: p in services.files ==>
      r.files[p] == if services.files[p].Some? then Some(StripModel(services.files[p].value)) else None
  {
    ChangelogServices(services.parserPresent, services.writerPresent,
      map p | p in services.files :: if services.files[p].Some? then Some(StripModel(services.files[p].value)) else None)
  }

  /**
   * The DOM helper and the XOM generator build the same changes section:
   * each fails exactly when the other does, with the same failure, and on
   * success the DOM section is the XOM section once owners are forgotten.
   */
  lemma ChangelogAgrees(document: Document, changes: ChangesConfig, services: ChangelogServices<DomNode>)
    ensures Changelog(document, changes, services).Success? <==>
      SiteChangelog.Changelog(changes, StripServices(services)).Success?
    ensures Changelog(document, changes, services).Failure? ==>
      Changelog(document, changes, services).error == SiteChangelog.Changelog(changes, StripServices(services)).error
    ensures Changelog(document, changes, services).Success? ==>
      Strip(Changelog(document, changes, services).value) == SiteChangelog.Changelog(changes, StripServices(services)).value
  {
    var r := Changelog(document, changes, services);
    if services.parserPresent && services.writerPresent && changes.file in services.files &&
       services.files[changes.file].Some? {
      var model := services.files[changes.file].value;
      var last := if model.releaseCount == 0 then Success(NoReleasesParagraph(document))
                  else SerializeChangelog(document, model);
      if last.Success? {
        var children := [H2(document, "Changes"), AtomParagraph(document), last.value];
        StripAllIndex(children);
        assert StripAll(children) == [Strip(children[0]), Strip(children[1]), Strip(children[2])];
      }
    }
  }
}
