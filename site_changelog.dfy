/**
 * The changes section of the XOM-generated page: the changelog library is
 * asked for a parser and an XHTML writer, the changelog file is parsed, and
 * the section shows either a placeholder or the writer's rendering.
 */
module SiteChangelog {
  import opened Wrappers
  import opened Markup
  import opened Failures
  import opened Configurations
  import opened Collaborators
  import opened SiteBlocks
  import XomMarkup

  /**
   * The paragraph linking the Atom feed of releases: its middle child is an
   * XHTML link to the feed file `releases.atom` reading "atom feed".
   */
  function AtomParagraph(): (r: Node)
    ensures TextContent(r) == "Subscribe to the releases atom feed."
    ensures r.Element? && r.namespace == XHTML && r.name == "p" && |r.children| == 3
    ensures r.children[1].Element? && r.children[1].namespace == XHTML && r.children[1].name == "a"
    ensures Href(r.children[1]) == Some("releases.atom") && TextContent(r.children[1]) == "atom feed"
  {
    var link := XomMarkup.Link("releases.atom", "atom feed");
    TextContentOfThree(Text("Subscribe to the releases "), link, Text("."));
    Plain("p", [Text("Subscribe to the releases "), link, Text(".")])
  }

  /** The paragraph shown when the changelog has no release. */
  function NoReleasesParagraph(): Node {
    Plain("p", [Text("No formal releases have been made.")])
  }

  /**
   * The changes section. The parser provider is looked up first, then the
   * writer provider; then the file is read and parsed. The writer's output
   * is only needed when there is at least one release.
   */
  function Changelog(changes: ChangesConfig, services: ChangelogServices<Node>): (r: Result<Node, Failure>)
    ensures !services.parserPresent ==> r == Failure(NoChangelogParser)
    ensures services.parserPresent && !services.writerPresent ==> r == Failure(NoChangelogWriter)
    ensures (services.parserPresent && services.writerPresent && changes.file !in services.files) ==>
              r == Failure(ChangelogUnreadable(changes.file))
    ensures (services.parserPresent && services.writerPresent && changes.file in services.files &&
             services.files[changes.file].None?) ==>
              r == Failure(ChangelogMalformed(changes.file))
    ensures (services.parserPresent && services.writerPresent && changes.file in services.files &&
             services.files[changes.file].Some? && services.files[changes.file].value.releaseCount > 0 &&
             services.files[changes.file].value.rendered.None?) ==>
              r == Failure(RenderedChangelogMalformed)
    ensures r.Success? <==>
              (services.parserPresent && services.writerPresent &&
               changes.file in services.files && services.files[changes.file].Some? &&
               (services.files[changes.file].value.releaseCount == 0 ||
                services.files[changes.file].value.rendered.Some?))
    ensures r.Success? ==> Id(r.value) == Some("changes") && |r.value.children| == 3
    ensures r.Success? ==> r.value.children[0] == XomMarkup.H2("Changes") && r.value.children[1] == AtomParagraph()
    ensures r.Success? ==>
              var model := services.files[changes.file].value;
              r.value.children[2] == if model.releaseCount == 0 then NoReleasesParagraph() else model.rendered.value
  {
    if !services.parserPresent then Failure(NoChangelogParser)
    else if !services.writerPresent then Failure(NoChangelogWriter)
    else if changes.file !in services.files then Failure(ChangelogUnreadable(changes.file))
    else match services.files[changes.file]
      case None => Failure(ChangelogMalformed(changes.file))
      case Some(model) =>
        var last :- if model.releaseCount == 0 then Success(NoReleasesParagraph())
                    else if model.rendered.None? then Failure(RenderedChangelogMalformed)
                    else Success(model.rendered.value);
        Success(Section("changes", [XomMarkup.H2("Changes"), AtomParagraph(), last]))
  }

  /**
   * With no release the writer's output is never looked at: two libraries
   * that differ only in what they would render give the same section.
   */
  lemma ChangelogEmptyIgnoresWriter(changes: ChangesConfig, services: ChangelogServices<Node>, other: Option<Node>)
    requires changes.file in services.files && services.files[changes.file].Some?
    requires services.files[changes.file].value.releaseCount == 0
    ensures Changelog(changes, services) ==
      Changelog(changes, services.(files := services.files[changes.file :=
        Some(services.files[changes.file].value.(rendered := other))]))
  {
  }
}
