/**
 * The sources provider for Git repositories: it handles the system `Git`
 * and renders, through the page's DOM document, a section naming Git, linking
 * the repository and showing the command that clones it.
 */
module GitProvider {
  import opened Wrappers
  import opened Markup
  import opened Failures
  import opened Configurations
  import opened DomMarkup
  import XomMarkup
  import SiteEnvironment
  import SiteSources

  /** The source-control system the provider answers for. */
  const GitSystem: string := "Git"

  /** The paragraph naming Git and linking its home page. */
  function Intro(document: Document): (r: DomNode)
    ensures Owned(r, document)
    ensures var s := Strip(r);
      s.Element? && s.name == "p" && |s.children| == 3 &&
      s.children[1] == XomMarkup.Link("http://www.git-scm.com", "Git") &&
      TextContent(s) == "This project uses " + "Git" + " to manage source code."
  {
    var children := [TextNode(document, "This project uses "),
      Link(document, "http://www.git-scm.com", "Git"), TextNode(document, " to manage source code.")];
    StripAllIndex(children);
    TextContentOfThree(Strip(children[0]), Strip(children[1]), Strip(children[2]));
    assert StripAll(children) == [Strip(children[0]), Strip(children[1]), Strip(children[2])];
    Create(document, "p", [], children)
  }

  /** The paragraph linking the repository URI, as its own link text. */
  function RepositoryParagraph(document: Document, uri: string): (r: DomNode)
    ensures Owned(r, document)
    ensures var s := Strip(r);
      s.Element? && s.name == "p" && |s.children| == 2 && s.children[0] == Text("Repository: ") &&
      Href(s.children[1]) == Some(uri) && TextContent(s.children[1]) == uri
  {
    var children := [TextNode(document, "Repository: "), Link(document, uri, uri)];
    StripAllIndex(children);
    Create(document, "p", [], children)
  }

  /** The preformatted clone command for the repository URI. */
  function CloneCommand(document: Document, uri: string): (r: DomNode)
    ensures Owned(r, document)
    ensures var s := Strip(r);
      s.Element? && s.name == "pre" && TextContent(s) == "$ git clone " + uri
  {
    var children := [TextNode(document, "$ git clone "), TextNode(document, uri)];
    StripAllIndex(children);
    TextContentOfTwo(Strip(children[0]), Strip(children[1]));
    assert StripAll(children) == [Strip(children[0]), Strip(children[1])];
    Create(document, "pre", [], children)
  }

  /**
   * The sources section for the configured repository. A missing
   * configuration is rejected; otherwise the section is a `div` with id
   * `Sources` holding a heading, the paragraph naming Git, the paragraph
   * linking the repository and the clone command, every node created
   * through `document`.
   */
  function Evaluate(document: Document, configuration: Option<SourcesConfig>): (r: Result<DomNode, Failure>)
    ensures configuration.None? <==> r.Failure?
    ensures r.Failure? ==> r.error == NullArgument("Configuration")
    ensures r.Success? ==> Owned(r.value, document)
    ensures r.Success? ==>
      var s := Strip(r.value);
      s.Element? && s.namespace == XHTML && s.name == "div" && Id(s) == Some("Sources") &&
      s.children == [XomMarkup.H2("Sources"), Strip(Intro(document)),
        Strip(RepositoryParagraph(document, configuration.value.uri)),
        Strip(CloneCommand(document, configuration.value.uri))]
  {
    match configuration
    case None => Failure(NullArgument("Configuration"))
    case Some(config) =>
      var children := [H2(document, "Sources"), Intro(document),
        RepositoryParagraph(document, config.uri), CloneCommand(document, config.uri)];
      StripAllIndex(children);
      assert StripAll(children) == [Strip(children[0]), Strip(children[1]), Strip(children[2]), Strip(children[3])];
      Success(Create(document, "div", [Attribute("id", "Sources")], children))
  }

  /**
   * With a provider registered for `Git` that renders through this one, a
   * `Git` sources attachment gets the Git section unless an earlier provider
   * also claims `Git`; an attachment for another system is never answered by it.
   */
  lemma ProviderDispatch(document: Document, sources: SourcesConfig, git: SiteEnvironment.SourcesProvider,
                         before: seq<SiteEnvironment.SourcesProvider>, after: seq<SiteEnvironment.SourcesProvider>)
    requires git.system == GitSystem
    requires forall config :: git.evaluate(config) == Strip(Evaluate(document, Some(config)).value)
    requires forall j :: 0 <= j < |before| ==> before[j].system != GitSystem
    ensures sources.system == GitSystem ==>
      SiteSources.SourcesSpec(sources, before + [git] + after) == Success(Strip(Evaluate(document, Some(sources)).value))
    ensures sources.system != GitSystem ==>
      SiteSources.SourcesSpec(sources, before + [git] + after) == SiteSources.SourcesSpec(sources, before + after)
  {
    if sources.system == GitSystem {
      SkipNonMatching(sources, before, [git] + after);
      assert before + [git] + after == before + ([git] + after);
    } else {
      SkipInserted(sources, before, git, after);
    }
  }

  /** Dispatch passes over providers for other systems. */
  lemma {:induction false} SkipNonMatching(sources: SourcesConfig, skipped: seq<SiteEnvironment.SourcesProvider>,
                                           rest: seq<SiteEnvironment.SourcesProvider>)
    requires forall j :: 0 <= j < |skipped| ==> skipped[j].system != sources.system
    ensures SiteSources.SourcesSpec(sources, skipped + rest) == SiteSources.SourcesSpec(sources, rest)
  {
    if skipped == [] {
      assert skipped + rest == rest;
    } else {
      assert (skipped + rest)[0] == skipped[0];
      assert (skipped + rest)[1..] == skipped[1..] + rest;
      SkipNonMatching(sources, skipped[1..], rest);
    }
  }

  /** Dispatch passes over a provider for another system, wherever it sits. */
  lemma {:induction false} SkipInserted(sources: SourcesConfig, before: seq<SiteEnvironment.SourcesProvider>,
                                        p: SiteEnvironment.SourcesProvider, after: seq<SiteEnvironment.SourcesProvider>)
    requires p.system != sources.system
    ensures SiteSources.SourcesSpec(sources, before + [p] + after) == SiteSources.SourcesSpec(sources, before + after)
  {
    if before == [] {
      assert before + [p] + after == [p] + after;
      assert ([p] + after)[1..] == after;
      assert before + after == after;
    } else {
      assert (before + [p] + after)[0] == before[0];
      assert (before + [p] + after)[1..] == before[1..] + [p] + after;
      assert (before + after)[0] == before[0];
      assert (before + after)[1..] == before[1..] + after;
      SkipInserted(sources, before[1..], p, after);
    }
  }
}
