/**
 * Everything the XOM site generator takes from outside its configuration,
 * passed in as one value: the files it embeds, the bundled style sheet, the
 * package version, the platform line separator, the registered sources
 * providers and the changelog library.
 */
module SiteEnvironment {
  import opened Wrappers
  import opened Markup
  import opened Failures
  import opened Configurations
  import opened Collaborators

  /**
   * A sources provider as the generator sees it: the source-control system it
   * handles and the section it renders for a sources attachment.
   */
  datatype SourcesProvider = SourcesProvider(system: string, evaluate: SourcesConfig -> Node)

  datatype Environment = Environment(
    files: map<Path, FileBody<Node>>,
    styleResource: Option<string>,          // the bundled style.css, None when it is missing
    implementationVersion: Option<string>,  // the package's implementation version
    lineSeparator: string,                  // System.lineSeparator()
    sourcesProviders: seq<SourcesProvider>, // in ServiceLoader order
    changelogs: ChangelogServices<Node>)

  /**
   * The root element of an embedded XML file: fails when the file cannot be
   * read and when it is not well-formed.
   */
  function ReadFragment(files: map<Path, FileBody<Node>>, path: Path): (r: Result<Node, Failure>)
    ensures path !in files ==> r == Failure(FileUnreadable(path))
    ensures path in files && files[path].root.None? ==> r == Failure(FileMalformed(path))
    ensures path in files && files[path].root.Some? ==> r == Success(files[path].root.value)
  {
    if path !in files then Failure(FileUnreadable(path))
    else if files[path].root.None? then Failure(FileMalformed(path))
    else Success(files[path].root.value)
  }

  /** The whole text of a file; fails only when the file cannot be read. */
  function ReadText(files: map<Path, FileBody<Node>>, path: Path): (r: Result<string, Failure>)
    ensures path !in files ==> r == Failure(FileUnreadable(path))
    ensures path in files ==> r == Success(files[path].text)
  {
    if path !in files then Failure(FileUnreadable(path)) else Success(files[path].text)
  }
}
