/**
 * The blocks of the XOM-generated page that are built in one go: the head
 * elements, the overview, features, releases, license and bug tracker
 * sections. Each section is a `div` whose `id` is its block's anchor.
 */
module SiteBlocks {
  import opened Wrappers
  import opened Markup
  import opened Failures
  import opened Configurations
  import opened Sections
  import opened SiteText
  import opened Collaborators
  import opened SiteEnvironment
  import XomMarkup

  /** A `div` carrying the given id. */
  function Section(id: string, children: seq<Node>): (r: Node)
    ensures r.Element? && r.name == "div" && r.children == children && Id(r) == Some(id)
  {
    Element(XHTML, "div", [Attribute("id", id)], children)
  }

  /** An XHTML element without attributes. */
  function Plain(name: string, children: seq<Node>): Node {
    Element(XHTML, name, [], children)
  }

  // ---- head -------------------------------------------------------------

  /** The generator stamp: the project's URL and the implementation version, or UNKNOWN. */
  function MetaGenerator(implementationVersion: Option<string>): (r: Node)
    ensures r.Element? && r.name == "meta" && r.children == []
    ensures AttributeValue(r.attributes, "name") == Some("generator")
    ensures AttributeValue(r.attributes, "content") ==
      Some("https://www.github.com/io7m/minisite; " +
        (if implementationVersion.Some? then implementationVersion.value else "UNKNOWN"))
  {
    Element(XHTML, "meta", [Attribute("name", "generator"),
      Attribute("content", GeneratorContent(implementationVersion))], [])
  }

  /** The content-type declaration: XHTML in UTF-8. */
  function MetaType(): (r: Node)
    ensures r.Element? && r.name == "meta" && r.children == []
    ensures AttributeValue(r.attributes, "http-equiv") == Some("Content-Type")
    ensures AttributeValue(r.attributes, "content") == Some("application/xhtml+xml; charset=UTF-8")
  {
    Element(XHTML, "meta", [Attribute("http-equiv", "Content-Type"),
      Attribute("content", "application/xhtml+xml; charset=UTF-8")], [])
  }

  /** The bundled style sheet embedded in a `style` element; fails when the resource is missing. */
  function Css(styleResource: Option<string>): (r: Result<Node, Failure>)
    ensures styleResource.None? <==> r == Failure(StyleResourceMissing)
    ensures r.Success? ==> r.value.Element? && r.value.name == "style"
    ensures r.Success? ==> AttributeValue(r.value.attributes, "type") == Some("text/css")
    ensures r.Success? ==> TextContent(r.value) == styleResource.value
  {
    match styleResource
    case None => Failure(StyleResourceMissing)
    case Some(text) =>
      TextContentAllSingle(Text(text));
      Success(Element(XHTML, "style", [Attribute("type", "text/css")], [Text(text)]))
  }

  /**
   * The head: the generator stamp, the content type, the style sheet and the
   * title, in that order; the title is the project name.
   */
  function Head(c: SiteConfiguration, env: Environment): (r: Result<Node, Failure>)
    ensures r.Failure? <==> env.styleResource.None?
    ensures r.Success? ==> r.value.Element? && r.value.name == "head" && |r.value.children| == 4
    ensures r.Success? ==> r.value.children[0] == MetaGenerator(env.implementationVersion)
    ensures r.Success? ==> r.value.children[1] == MetaType()
    ensures r.Success? ==> Css(env.styleResource) == Success(r.value.children[2])
    ensures r.Success? ==> r.value.children[3].Element? && r.value.children[3].name == "title"
    ensures r.Success? ==> TextContent(r.value.children[3]) == c.projectName
  {
    var style :- Css(env.styleResource);
    TextContentAllSingle(Text(c.projectName));
    Success(Plain("head", [MetaGenerator(env.implementationVersion), MetaType(), style,
      Plain("title", [Text(c.projectName)])]))
  }

  // ---- overview ---------------------------------------------------------

  /** The project icon, 64 by 64. */
  function Icon(): Node {
    Element(XHTML, "img", [Attribute("src", "icon.png"), Attribute("width", "64"),
      Attribute("height", "64"), Attribute("class", "icon"), Attribute("alt", "Project icon")], [])
  }

  /** The title area: the icon, then the project name as the level-one heading. */
  function OverviewTitleArea(projectName: string): (r: Node)
    ensures r.Element? && AttributeValue(r.attributes, "class") == Some("overview_title_area")
    ensures r.children == [Icon(), Plain("h1", [Text(projectName)])]
  {
    Element(XHTML, "div", [Attribute("class", "overview_title_area")],
      [Icon(), Plain("h1", [Text(projectName)])])
  }

  /** The content area: empty without an overview file, otherwise that file's root element. */
  function OverviewContentArea(overview: Option<Path>, files: map<Path, FileBody<Node>>): (r: Result<Node, Failure>)
    ensures r.Success? ==> r.value.Element? && AttributeValue(r.value.attributes, "class") == Some("overview_content_area")
    ensures overview.None? ==> r.Success? && r.value.children == []
    ensures overview.Some? ==> r.Failure? == ReadFragment(files, overview.value).Failure?
    ensures overview.Some? && r.Failure? ==> r.error == ReadFragment(files, overview.value).error
    ensures overview.Some? && r.Success? ==> r.value.children == [files[overview.value].root.value]
  {
    var children :- match overview
      case None => Success([])
      case Some(path) => (var root :- ReadFragment(files, path); Success([root]));
    Success(Element(XHTML, "div", [Attribute("class", "overview_content_area")], children))
  }

  /** The overview section: the title area, then the content area. */
  function Overview(c: SiteConfiguration, env: Environment): (r: Result<Node, Failure>)
    ensures r.Failure? <==> OverviewContentArea(c.overview, env.files).Failure?
    ensures r.Failure? ==> r.error == OverviewContentArea(c.overview, env.files).error
    ensures r.Success? ==> Id(r.value) == Some("overview")
    ensures r.Success? ==> r.value.children ==
                           [OverviewTitleArea(c.projectName), OverviewContentArea(c.overview, env.files).value]
  {
    var content :- OverviewContentArea(c.overview, env.files);
    Success(Section("overview", [OverviewTitleArea(c.projectName), content]))
  }

  // ---- features ---------------------------------------------------------

  /** The features section: the heading, then the features file's root element. */
  function Features(path: Path, files: map<Path, FileBody<Node>>): (r: Result<Node, Failure>)
    ensures r.Failure? <==> ReadFragment(files, path).Failure?
    ensures r.Failure? ==> r.error == ReadFragment(files, path).error
    ensures r.Success? ==> Id(r.value) == Some("features")
    ensures r.Success? ==> r.value.children == [XomMarkup.H2("Features"), files[path].root.value]
  {
    var root :- ReadFragment(files, path);
    Success(Section("features", [XomMarkup.H2("Features"), root]))
  }

  // ---- releases ---------------------------------------------------------

  /** The paragraph naming the current release in a `tt` element. */
  function CurrentRelease(release: string): (r: Node)
    ensures r.Element? && r.name == "p" && |r.children| == 3
    ensures r.children[1] == Plain("tt", [Text(release)])
    ensures TextContent(r) == "The current release is " + release + "."
  {
    TextContentOfThree(Text("The current release is "), Plain("tt", [Text(release)]), Text("."));
    TextContentAllSingle(Text(release));
    Plain("p", [Text("The current release is "), Plain("tt", [Text(release)]), Text(".")])
  }

  /** The paragraph linking the project's directory in the central repository. */
  function RepositoryParagraph(centralReposPath: string): (r: Node)
    ensures r.Element? && r.name == "p" && |r.children| == 3
    ensures r.children[1] == XomMarkup.Link(CentralRepos(centralReposPath), "repository")
    ensures Href(r.children[1]) == Some(CentralBase + CleanReposPath(centralReposPath))
  {
    Plain("p", [Text("Source code and binaries are available from the "),
      XomMarkup.Link(CentralRepos(centralReposPath), "repository"), Text(".")])
  }

  /**
   * The releases section: the current release in a `tt` element, then a
   * link to the central repository under the cleaned group path.
   */
  function Releases(c: SiteConfiguration): (r: Node)
    ensures Id(r) == Some("releases")
    ensures r.children == [XomMarkup.H2("Releases"), CurrentRelease(c.release), RepositoryParagraph(c.centralReposPath)]
  {
    Section("releases", [XomMarkup.H2("Releases"), CurrentRelease(c.release), RepositoryParagraph(c.centralReposPath)])
  }

  // ---- license ----------------------------------------------------------

  /** The license section: the heading, then the license text verbatim in a `pre` element. */
  function License(path: Path, files: map<Path, FileBody<Node>>): (r: Result<Node, Failure>)
    ensures r.Failure? <==> path !in files
    ensures r.Failure? ==> r.error == FileUnreadable(path)
    ensures r.Success? ==> Id(r.value) == Some("license") && |r.value.children| == 2
    ensures r.Success? ==> r.value.children[0] == XomMarkup.H2("License")
    ensures r.Success? ==> r.value.children[1] == Plain("pre", [Text(files[path].text)])
    ensures r.Success? ==> TextContent(r.value.children[1]) == files[path].text
  {
    var text :- ReadText(files, path);
    TextContentAllSingle(Text(text));
    Success(Section("license", [XomMarkup.H2("License"), Plain("pre", [Text(text)])]))
  }

  // ---- bug tracker ------------------------------------------------------

  /** The bug tracker section: one sentence linking the tracker's URI under the tracker's name. */
  function BugTracker(tracker: BugTrackerConfig): (r: Node)
    ensures Id(r) == Some("bug-tracker") && |r.children| == 2
    ensures r.children[0] == XomMarkup.H2("Bug Tracker")
    ensures r.children[1] == Plain("p", [Text("The project uses "), XomMarkup.Link(tracker.uri, tracker.system),
                                         Text(" to track issues.")])
    ensures TextContent(r.children[1]) == "The project uses " + tracker.system + " to track issues."
  {
    var link := XomMarkup.Link(tracker.uri, tracker.system);
    TextContentOfThree(Text("The project uses "), link, Text(" to track issues."));
    Section("bug-tracker", [XomMarkup.H2("Bug Tracker"),
      Plain("p", [Text("The project uses "), link, Text(" to track issues.")])])
  }
}
