/**
 * The immutable site configuration and its parts. Every optional attachment is
 * an independent `Option`; `cssIncludes` and `cssGenerateStyle` have defaults.
 *
 * The repository's revisions disagree on the documentation attachment: the
 * configuration interface declares an optional path, while the site generator
 * reads a list of named entries with formats. `Configuration` is therefore
 * generic in that one field.
 */
module Configurations {
  import opened Wrappers

  /** A file-system path, as text. */
  type Path = string

  /** One format of a documentation entry: a display name and the path it links to. */
  datatype DocumentationFormat = DocumentationFormat(name: string, path: Path)

  /** A named documentation entry with its formats, in order. */
  datatype DocumentationEntry = DocumentationEntry(name: string, formats: seq<DocumentationFormat>)

  /** The changelog attachment: the changelog file and the e-mail address for the feed. */
  datatype ChangesConfig = ChangesConfig(file: Path, feedEmail: string)

  /** The bug tracker attachment: the tracker's name and its URI. */
  datatype BugTrackerConfig = BugTrackerConfig(system: string, uri: string)

  /** The sources attachment: the source-control system's name and the repository URI. */
  datatype SourcesConfig = SourcesConfig(system: string, uri: string)

  datatype Configuration<Doc> = Configuration(
    projectName: string,
    projectGroupName: string,
    projectModules: seq<string>,   // an ordered list, not a set
    release: string,
    centralReposPath: string,
    overview: Option<Path>,
    features: Option<Path>,
    documentation: Doc,
    changelog: Option<ChangesConfig>,
    license: Option<Path>,
    bugTracker: Option<BugTrackerConfig>,
    sources: Option<SourcesConfig>,
    cssIncludes: seq<string>,
    cssGenerateStyle: bool)

  /**
   * The builder of the immutable configuration: every attribute is taken as
   * given, and the two defaulted attributes fall back to their defaults when
   * they are not set.
   */
  function Build<Doc>(
    projectName: string, projectGroupName: string, projectModules: seq<string>,
    release: string, centralReposPath: string,
    overview: Option<Path>, features: Option<Path>, documentation: Doc,
    changelog: Option<ChangesConfig>, license: Option<Path>,
    bugTracker: Option<BugTrackerConfig>, sources: Option<SourcesConfig>,
    cssIncludes: Option<seq<string>>, cssGenerateStyle: Option<bool>): (c: Configuration<Doc>)
    ensures cssIncludes.None? ==> c.cssIncludes == ["minisite.css", "site.css"]
    ensures cssIncludes.Some? ==> c.cssIncludes == cssIncludes.value
    ensures cssGenerateStyle.None? ==> c.cssGenerateStyle
    ensures cssGenerateStyle.Some? ==> c.cssGenerateStyle == cssGenerateStyle.value
    ensures c.projectName == projectName && c.projectGroupName == projectGroupName
    ensures c.projectModules == projectModules && c.release == release
    ensures c.centralReposPath == centralReposPath
    ensures c.overview == overview && c.features == features && c.documentation == documentation
    ensures c.changelog == changelog && c.license == license
    ensures c.bugTracker == bugTracker && c.sources == sources
  {
    Configuration(
      projectName, projectGroupName, projectModules, release, centralReposPath,
      overview, features, documentation, changelog, license, bugTracker, sources,
      cssIncludes.GetOr(DefaultCssIncludes()), cssGenerateStyle.GetOr(DefaultCssGenerateStyle()))
  }

  /** The default stylesheet list. */
  function DefaultCssIncludes(): seq<string> {
    ["minisite.css", "site.css"]
  }

  /** By default the bundled style is copied next to the page. */
  function DefaultCssGenerateStyle(): bool {
    true
  }
}
