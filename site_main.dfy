/**
 * The whole XOM-generated page: the `main` division holding one section per
 * present block in body order, the body around it, and the document with
 * the head before the body. A failure of any block (an unreadable file, a
 * missing provider) is the failure of the page, and the first block to fail,
 * in body order, decides which failure it is.
 */
module SiteMain {
  import opened Wrappers
  import opened Markup
  import opened Failures
  import opened Configurations
  import opened Sections
  import opened SiteEnvironment
  import opened SiteBlocks
  import opened SiteContents
  import opened SiteMaven
  import opened SiteDocumentation
  import opened SiteSources
  import opened SiteChangelog

  /** The section a present block renders to. */
  function SectionNode(k: SectionKind, c: SiteConfiguration, env: Environment): Result<Node, Failure>
    requires Present(k, c)
  {
    match k
    case OverviewSection => Overview(c, env)
    case ContentsSection => Success(ContentsSpec(c))
    case FeaturesSection => Features(c.features.value, env.files)
    case ReleasesSection => Success(Releases(c))
    case DocumentationSection => Success(DocumentationSpec(c))
    case MavenSection => Success(MavenSpec(c, env.lineSeparator))
    case ChangesSection => Changelog(c.changelog.value, env.changelogs)
    case SourcesSection => SourcesSpec(c.sources.value, env.sourcesProviders)
    case LicenseSection => License(c.license.value, env.files)
    case BugTrackerSection => Success(BugTracker(c.bugTracker.value))
  }

  /** The renderer `main` applies to each present block. */
  function Renderer(c: SiteConfiguration, env: Environment): SectionKind --> Result<Node, Failure> {
    k requires Present(k, c) => SectionNode(k, c, env)
  }

  /** The sections of `ks`, rendered in order; the first failure stops the rendering. */
  function RenderAll(ks: seq<SectionKind>, render: SectionKind --> Result<Node, Failure>): Result<seq<Node>, Failure>
    requires forall i :: 0 <= i < |ks| ==> render.requires(ks[i])
  {
    if ks == [] then Success([])
    else
      var init :- RenderAll(ks[..|ks| - 1], render);
      var last :- render(ks[|ks| - 1]);
      Success(init + [last])
  }

  /**
   * Rendering succeeds exactly when every block renders; then section `i` is
   * what block `i` renders. Otherwise the failure is that of the first block
   * that fails.
   */
  lemma {:induction false} RenderAllLayout(ks: seq<SectionKind>, render: SectionKind --> Result<Node, Failure>)
    requires forall i :: 0 <= i < |ks| ==> render.requires(ks[i])
    ensures RenderAll(ks, render).Success? <==> forall i :: 0 <= i < |ks| ==> render(ks[i]).Success?
    ensures RenderAll(ks, render).Success? ==>
      |RenderAll(ks, render).value| == |ks| &&
      forall i :: 0 <= i < |ks| ==> RenderAll(ks, render).value[i] == render(ks[i]).value
    ensures RenderAll(ks, render).Failure? ==>
      exists i :: 0 <= i < |ks| && render(ks[i]).Failure? &&
        RenderAll(ks, render).error == render(ks[i]).error &&
        forall j :: 0 <= j < i ==> render(ks[j]).Success?
  {
    if ks != [] {
      var init := ks[..|ks| - 1];
      var n := |ks| - 1;
      RenderAllLayout(init, render);
      assert forall i :: 0 <= i < n ==> init[i] == ks[i];
      if RenderAll(init, render).Failure? {
        var i :| 0 <= i < n && render(init[i]).Failure? &&
          RenderAll(init, render).error == render(init[i]).error &&
          forall j :: 0 <= j < i ==> render(init[j]).Success?;
        assert render(ks[i]).Failure?;
      } else if render(ks[n]).Failure? {
        assert forall j :: 0 <= j < n ==> render(ks[j]).Success?;
      }
    }
  }

  /** Every block of the body is present. */
  lemma BodyAllPresent(c: SiteConfiguration)
    ensures forall i :: 0 <= i < |PresentSections(c)| ==> Present(PresentSections(c)[i], c)
  {
    PresentSectionsExact(c);
    var ps := PresentSections(c);
    forall i | 0 <= i < |ps| ensures Present(ps[i], c) {
      assert ps[i] in ps;
    }
  }

  /** `main`: a `div` with id `main` holding the sections of the body. */
  function MainSpec(c: SiteConfiguration, env: Environment): Result<Node, Failure> {
    BodyAllPresent(c);
    var children :- RenderAll(PresentSections(c), Renderer(c, env));
    Success(Section("main", children))
  }

  /**
   * `main` succeeds exactly when every present block renders; its id is
   * `main` and child `i` is the section of body block `i`. Otherwise its
   * failure is that of the first block, in body order, that fails.
   */
  lemma MainLayout(c: SiteConfiguration, env: Environment)
    ensures forall i :: 0 <= i < |PresentSections(c)| ==> Present(PresentSections(c)[i], c)
    ensures MainSpec(c, env).Success? <==>
      forall i :: 0 <= i < |PresentSections(c)| ==> SectionNode(PresentSections(c)[i], c, env).Success?
    ensures MainSpec(c, env).Success? ==>
      Id(MainSpec(c, env).value) == Some("main") &&
      |MainSpec(c, env).value.children| == |PresentSections(c)| &&
      forall i :: 0 <= i < |PresentSections(c)| ==>
        MainSpec(c, env).value.children[i] == SectionNode(PresentSections(c)[i], c, env).value
    ensures MainSpec(c, env).Failure? ==>
      exists i :: 0 <= i < |PresentSections(c)| && SectionNode(PresentSections(c)[i], c, env).Failure? &&
        MainSpec(c, env).error == SectionNode(PresentSections(c)[i], c, env).error &&
        forall j :: 0 <= j < i ==> SectionNode(PresentSections(c)[j], c, env).Success?
  {
    BodyAllPresent(c);
    RenderAllLayout(PresentSections(c), Renderer(c, env));
  }

  /** `document`: the head, then the body holding `main`. The head is built first. */
  function DocumentSpec(c: SiteConfiguration, env: Environment): (r: Result<Node, Failure>)
    ensures Head(c, env).Failure? ==> r == Failure(Head(c, env).error)
    ensures Head(c, env).Success? && MainSpec(c, env).Failure? ==> r == Failure(MainSpec(c, env).error)
    ensures r.Success? <==> Head(c, env).Success? && MainSpec(c, env).Success?
    ensures r.Success? ==> r.value.Element? && r.value.name == "html" && |r.value.children| == 2
    ensures r.Success? ==> r.value.children[0] == Head(c, env).value
    ensures r.Success? ==> r.value.children[1].Element? && r.value.children[1].name == "body"
    ensures r.Success? ==> r.value.children[1].children == [MainSpec(c, env).value]
  {
    var head :- Head(c, env);
    var main :- MainSpec(c, env);
    Success(Plain("html", [head, Plain("body", [main])]))
  }
}
