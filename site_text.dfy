/**
 * The string rules of the site generator: the central-repository path and
 * URL, the generator stamp, and the Maven Central search links.
 */
module SiteText {
  import opened Wrappers

  /** The base of the central Maven repository. */
  const CentralBase: string := "https://repo1.maven.org/maven2/"

  /**
   * The repository path with its leading run of `/` removed: the result is a
   * suffix of `path`, everything removed is `/`, and the result does not
   * itself start with `/`.
   */
  function CleanReposPath(path: string): (r: string)
    ensures |r| <= |path| && r == path[|path| - |r|..]
    ensures forall i :: 0 <= i < |path| - |r| ==> path[i] == '/'
    ensures r == [] || r[0] != '/'
  {
    if path != [] && path[0] == '/' then CleanReposPath(path[1..]) else path
  }

  /**
   * The run removed is the maximal one: any split of `path` into a run of `/`
   * followed by text that does not start with `/` is the one the function makes.
   */
  lemma {:induction false} CleanReposPathUnique(path: string, k: nat)
    requires k <= |path|
    requires forall i :: 0 <= i < k ==> path[i] == '/'
    requires k == |path| || path[k] != '/'
    ensures CleanReposPath(path) == path[k..]
  {
    if k > 0 {
      CleanReposPathUnique(path[1..], k - 1);
      assert path[1..][k - 1..] == path[k..];
    }
  }

  /** Cleaning twice is cleaning once. */
  lemma CleanReposPathIdempotent(path: string)
    ensures CleanReposPath(CleanReposPath(path)) == CleanReposPath(path)
  {
    var r := CleanReposPath(path);
    CleanReposPathUnique(r, 0);
  }

  /**
   * The central repository URL: the fixed base followed by the cleaned
   * path, so the base's own `/` is never doubled.
   */
  function CentralRepos(centralReposPath: string): (r: string)
    ensures |r| >= |CentralBase| && r[..|CentralBase|] == CentralBase
    ensures r[|CentralBase|..] == CleanReposPath(centralReposPath)
    ensures |r| == |CentralBase| || r[|CentralBase|] != '/'
  {
    CentralBase + CleanReposPath(centralReposPath)
  }

  /** The implementation version, or "UNKNOWN" when the package declares none. */
  function Version(implementationVersion: Option<string>): (r: string)
    ensures implementationVersion.Some? ==> r == implementationVersion.value
    ensures implementationVersion.None? ==> r == "UNKNOWN"
  {
    implementationVersion.GetOr("UNKNOWN")
  }

  /** The content of the generator meta element. */
  function GeneratorContent(implementationVersion: Option<string>): string {
    "https://www.github.com/io7m/minisite; " + Version(implementationVersion)
  }

  /** The Maven Central search for every artifact of a group. */
  function GroupSearchUrl(group: string): string {
    "http://search.maven.org/#search%7Cga%7C1%7Cg%3A%22" + group + "%22"
  }

  /** The Maven Central search for an artifact id. */
  function ArtifactSearchUrl(artifact: string): string {
    "http://search.maven.org/#search%7Cga%7C1%7Ca%3A%22" + artifact + "%22"
  }

  /** The Maven Central details page of one released jar. */
  function ArtifactDetailsUrl(group: string, artifact: string, version: string): string {
    "http://search.maven.org/#artifactdetails%7C" + group + "%7C" + artifact + "%7C" + version + "%7Cjar"
  }
}
