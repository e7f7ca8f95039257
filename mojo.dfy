/**
 * The pure rules of the Maven plugin's `generateSite` goal: how it chooses a
 * network proxy for the license download, how it turns the project's SCM,
 * issue-management and group data and its own parameters into the site
 * configuration, and when it does nothing at all.
 */
module MinSiteMojo {
  import opened Wrappers
  import opened Failures
  import opened Configurations
  import SiteText
  import opened UnixPaths

  // ---- proxy selection --------------------------------------------------

  /** A proxy entry of the Maven settings. */
  datatype MavenProxy = MavenProxy(id: string, active: bool, protocol: string, host: string, port: int)

  /** The proxy a connection is opened through: none, or an HTTP proxy at an unresolved address. */
  datatype NetProxy = NoProxy | HttpProxy(host: string, port: int)

  /** ASCII lower case; other characters are left alone. */
  function LowerAscii(c: char): char {
    if 'A' <= c <= 'Z' then (c as int + 32) as char else c
  }

  /** `String.equalsIgnoreCase`, for ASCII letters. */
  predicate EqualsIgnoreCase(a: string, b: string) {
    |a| == |b| && forall i :: 0 <= i < |a| ==> LowerAscii(a[i]) == LowerAscii(b[i])
  }

  /** Whether a protocol is `http` or `https`, in any case. */
  predicate IsHttpProtocol(protocol: string) {
    EqualsIgnoreCase("http", protocol) || EqualsIgnoreCase("https", protocol)
  }

  /** An HTTP proxy for a settings entry; an unresolved address refuses a port outside 0..65535. */
  function HttpProxyFor(proxy: MavenProxy): (r: Result<NetProxy, Failure>)
    ensures r.Success? <==> 0 <= proxy.port <= 65535
    ensures r.Success? ==> r.value == HttpProxy(proxy.host, proxy.port)
    ensures r.Failure? ==> r.error == InvalidProxyPort(proxy.port)
  {
    if 0 <= proxy.port <= 65535 then Success(HttpProxy(proxy.host, proxy.port))
    else Failure(InvalidProxyPort(proxy.port))
  }

  /** Whether the search stops at `proxy`: it is active, its protocol is the target's, and that is HTTP(S). */
  predicate Usable(proxy: MavenProxy, target: string) {
    proxy.active && proxy.protocol == target && IsHttpProtocol(target)
  }

  /** The proxy for a URL with protocol `target`, by the settings' proxies in order. */
  function ProxyFor(proxies: seq<MavenProxy>, target: string): Result<NetProxy, Failure> {
    if proxies == [] then Success(NoProxy)
    else if !proxies[0].active then ProxyFor(proxies[1..], target)
    else if proxies[0].protocol != target then ProxyFor(proxies[1..], target)
    else if IsHttpProtocol(target) then HttpProxyFor(proxies[0])
    else ProxyFor(proxies[1..], target)
  }

  /**
   * The first usable proxy decides: when there is one, the result is the
   * HTTP proxy at its host and port; when there is none (every entry is
   * inactive, has another protocol, or the target is not HTTP(S)), there is
   * no proxy.
   */
  lemma {:induction false} ProxyForFirstUsable(proxies: seq<MavenProxy>, target: string)
    ensures (forall i :: 0 <= i < |proxies| ==> !Usable(proxies[i], target)) ==>
      ProxyFor(proxies, target) == Success(NoProxy)
    ensures forall i :: (0 <= i < |proxies| && Usable(proxies[i], target) &&
      forall j :: 0 <= j < i ==> !Usable(proxies[j], target)) ==>
      ProxyFor(proxies, target) == HttpProxyFor(proxies[i])
  {
    if proxies != [] {
      ProxyForFirstUsable(proxies[1..], target);
      forall i | 0 <= i < |proxies| && Usable(proxies[i], target) &&
        (forall j :: 0 <= j < i ==> !Usable(proxies[j], target))
        ensures ProxyFor(proxies, target) == HttpProxyFor(proxies[i])
      {
        if i > 0 {
          assert proxies[1..][i - 1] == proxies[i];
          assert forall j :: 0 <= j < i - 1 ==> proxies[1..][j] == proxies[j + 1];
        }
      }
      if forall i :: 0 <= i < |proxies| ==> !Usable(proxies[i], target) {
        assert forall i :: 0 <= i < |proxies| - 1 ==> proxies[1..][i] == proxies[i + 1];
      }
    }
  }

  /** A target that is not HTTP(S) never gets a proxy, whatever the settings hold. */
  lemma ProxyForNonHttp(proxies: seq<MavenProxy>, target: string)
    requires !IsHttpProtocol(target)
    ensures ProxyFor(proxies, target) == Success(NoProxy)
  {
    ProxyForFirstUsable(proxies, target);
  }

  /**
   * `configureProxyForURL`: skip inactive entries and entries for another
   * protocol, return at the first remaining entry when the target is
   * HTTP(S), and fall back to no proxy.
   */
  method ConfigureProxyForUrl(proxies: seq<MavenProxy>, target: string) returns (r: Result<NetProxy, Failure>)
    ensures r == ProxyFor(proxies, target)
  {
    var i := 0;
    while i < |proxies|
      invariant 0 <= i <= |proxies|
      invariant ProxyFor(proxies[i..], target) == ProxyFor(proxies, target)
    {
      var proxy := proxies[i];
      assert proxies[i..][1..] == proxies[i + 1..];
      i := i + 1;
      if !proxy.active {
        continue;
      }
      if proxy.protocol != target {
        continue;
      }
      if EqualsIgnoreCase("http", target) || EqualsIgnoreCase("https", target) {
        return HttpProxyFor(proxy);
      }
    }
    return Success(NoProxy);
  }

  // ---- project data -----------------------------------------------------

  /** URL text from the project model, and whether `URI.create` accepts it as a URI. */
  datatype UriText = UriText(text: string, wellFormed: bool)

  /** The project's SCM section: the connection string and the repository URL, either possibly unset. */
  datatype Scm = Scm(connection: Option<string>, url: Option<UriText>)

  /** The project's issue-management section: the system name and the URL, either possibly unset. */
  datatype IssueManagement = IssueManagement(system: Option<string>, url: Option<UriText>)

  /** Whether `s` begins with `prefix`. */
  predicate StartsWith(s: string, prefix: string) {
    |prefix| <= |s| && s[..|prefix|] == prefix
  }

  /** Whether `s` ends with `suffix`. */
  predicate EndsWith(s: string, suffix: string) {
    |suffix| <= |s| && s[|s| - |suffix|..] == suffix
  }

  /** `URI.create`: a null text and a text that is not a URI are both refused. */
  function CreateUri(url: Option<UriText>): (r: Result<string, Failure>)
    ensures r.Success? <==> url.Some? && url.value.wellFormed
    ensures r.Success? ==> r.value == url.value.text
    ensures url.None? ==> r == Failure(NullValue("url"))
    ensures url.Some? && !url.value.wellFormed ==> r == Failure(InvalidUri(url.value.text))
  {
    match url
    case None => Failure(NullValue("url"))
    case Some(u) => if u.wellFormed then Success(u.text) else Failure(InvalidUri(u.text))
  }

  /**
   * `sources`: a Git SCM connection names the Git system and the SCM URL, and
   * any other connection gives nothing. An SCM section without a connection
   * fails on the `startsWith` call, and a Git one whose URL `URI.create`
   * refuses fails there.
   */
  function Sources(scm: Option<Scm>): (r: Result<Option<SourcesConfig>, Failure>)
    ensures scm.None? ==> r == Success(None)
    ensures scm.Some? && scm.value.connection.None? ==> r == Failure(NullValue("connection"))
    ensures scm.Some? && scm.value.connection.Some? && !StartsWith(scm.value.connection.value, "scm:git") ==>
      r == Success(None)
    ensures scm.Some? && scm.value.connection.Some? && StartsWith(scm.value.connection.value, "scm:git") ==>
      (r.Success? <==> CreateUri(scm.value.url).Success?) &&
      (r.Success? ==> r.value == Some(SourcesConfig("Git", CreateUri(scm.value.url).value))) &&
      (r.Failure? ==> r.error == CreateUri(scm.value.url).error)
  {
    match scm
    case None => Success(None)
    case Some(s) =>
      match s.connection
      case None => Failure(NullValue("connection"))
      case Some(connection) =>
        if StartsWith(connection, "scm:git") then
          match CreateUri(s.url)
          case Success(uri) => Success(Some(SourcesConfig("Git", uri)))
          case Failure(e) => Failure(e)
        else Success(None)
  }

  /**
   * `bugTracker`: the issue-management system and URL, when the project
   * declares the section. The URL is parsed first, then the builder refuses
   * an unset system.
   */
  function BugTracker(issues: Option<IssueManagement>): (r: Result<Option<BugTrackerConfig>, Failure>)
    ensures issues.None? ==> r == Success(None)
    ensures issues.Some? && CreateUri(issues.value.url).Failure? ==> r == Failure(CreateUri(issues.value.url).error)
    ensures issues.Some? && CreateUri(issues.value.url).Success? && issues.value.system.None? ==>
      r == Failure(NullArgument("system"))
    ensures r.Success? && issues.Some? ==>
      issues.value.system.Some? && CreateUri(issues.value.url).Success? &&
      r.value == Some(BugTrackerConfig(issues.value.system.value, issues.value.url.value.text))
  {
    match issues
    case None => Success(None)
    case Some(i) =>
      match CreateUri(i.url)
      case Failure(e) => Failure(e)
      case Success(uri) =>
        match i.system
        case None => Failure(NullArgument("system"))
        case Some(system) => Success(Some(BugTrackerConfig(system, uri)))
  }

  /** The central-repository path of a group: every `.` becomes `/`. */
  function CentralReposPath(groupId: string): (r: string)
    ensures |r| == |groupId|
    ensures forall i :: 0 <= i < |r| ==> r[i] == if groupId[i] == '.' then '/' else groupId[i]
  {
    seq(|groupId|, i requires 0 <= i < |groupId| => if groupId[i] == '.' then '/' else groupId[i])
  }

  /**
   * Turning the slashes of a path back into dots. The goal never does this;
   * it is the reference inverse that `CentralReposPathInverts` states
   * `CentralReposPath` against.
   */
  function GroupOfPath(path: string): (r: string)
    ensures |r| == |path|
    ensures forall i :: 0 <= i < |r| ==> r[i] == if path[i] == '/' then '.' else path[i]
  {
    seq(|path|, i requires 0 <= i < |path| => if path[i] == '/' then '.' else path[i])
  }

  /**
   * The path has no dot left, and for a group without slashes the group can
   * be read back from it.
   */
  lemma CentralReposPathInverts(groupId: string)
    ensures '.' !in CentralReposPath(groupId)
    ensures '/' !in groupId ==> GroupOfPath(CentralReposPath(groupId)) == groupId
  {
    if '/' !in groupId {
      assert forall i :: 0 <= i < |groupId| ==> groupId[i] != '/';
    }
  }

  /**
   * The page's release links use the derived path as it is: a group that
   * starts with neither `.` nor `/` gives a path with no leading `/` to strip.
   */
  lemma CentralReposPathClean(groupId: string)
    requires groupId == [] || (groupId[0] != '.' && groupId[0] != '/')
    ensures SiteText.CleanReposPath(CentralReposPath(groupId)) == CentralReposPath(groupId)
  {
    var p := CentralReposPath(groupId);
    assert p == [] || p[0] != '/';
    SiteText.CleanReposPathUnique(p, 0);
  }

  // ---- paths and parameters ---------------------------------------------

  /**
   * `Path.resolve` on Unix paths, both sides in the normal form `Path` keeps:
   * an empty name keeps the base, an absolute name or an empty base gives the
   * name, and otherwise the two are joined by one separator.
   */
  function Resolve(base: Path, other: string): (r: Path)
    ensures IsNormal(r)
    ensures other == [] ==> r == Normalize(base)
    ensures StartsWith(other, "/") || base == [] ==> r == Normalize(other)
    ensures other != [] && base != [] && !StartsWith(other, "/") ==>
      StartsWith(r, Normalize(base)) && EndsWith(r, Normalize(other)) &&
      Segments(r) == Segments(base) + Segments(other)
  {
    var b := Normalize(base);
    var o := Normalize(other);
    if o == [] then b
    else if o[0] == '/' || b == [] then
      assert StartsWith(other, "/") ==> other[0] == '/';
      o
    else if b == "/" then
      RootJoin(o);
      "/" + o
    else
      NormalEnd(b);
      RelativeJoin(b, o);
      b + "/" + o
  }

  /** The root directory followed by a normal relative name is a normal path. */
  lemma RootJoin(name: string)
    requires IsNormal(name) && name != [] && name[0] != '/'
    ensures IsNormal("/" + name) && Segments("/" + name) == Segments(name)
    ensures StartsWith("/" + name, "/") && EndsWith("/" + name, name)
  {
    NormalEnd(name);
    JoinSingle("/", name);
    assert ("/" + name)[1..] == name;
  }

  /** A normal directory other than the root, one separator and a normal relative name make a normal path. */
  lemma RelativeJoin(dir: string, name: string)
    requires IsNormal(dir) && IsNormal(name) && dir != [] && name != [] && name[0] != '/'
    requires dir[|dir| - 1] != '/'
    ensures IsNormal(dir + "/" + name) && Segments(dir + "/" + name) == Segments(dir) + Segments(name)
    ensures StartsWith(dir + "/" + name, dir) && EndsWith(dir + "/" + name, name)
  {
    var tail := "/" + name;
    RootJoin(name);
    JoinSingle(dir, tail);
    SegmentsJoin(dir, name);
    assert dir + "/" + name == dir + tail;
    assert (dir + tail)[..|dir|] == dir;
  }

  /** A resolved name that is already normal ends the resolved path. */
  lemma ResolveEndsWith(base: Path, other: string)
    requires IsNormal(other)
    ensures EndsWith(Resolve(base, other), other)
  {
    NormalizeKeepsNormal(other);
  }

  /** An optional file parameter: present exactly when set, resolved against the project directory. */
  function OptionalPath(basedir: Path, parameter: Option<string>): (r: Option<Path>)
    ensures r.Some? <==> parameter.Some?
    ensures r.Some? ==> r.value == Resolve(basedir, parameter.value)
  {
    match parameter
    case None => None
    case Some(p) => Some(Resolve(basedir, p))
  }

  /** The feed address used when the parameter is not set. */
  const DefaultFeedEmail: string := "nobody@example.com"

  /** `changelog`: present exactly when a changelog file is set, with the effective feed address. */
  function ChangelogConfig(basedir: Path, changelogFile: Option<string>, feedEmail: Option<string>): (r: Option<ChangesConfig>)
    ensures r.Some? <==> changelogFile.Some?
    ensures r.Some? ==> r.value.file == Resolve(basedir, changelogFile.value)
    ensures r.Some? && feedEmail.Some? ==> r.value.feedEmail == feedEmail.value
    ensures r.Some? && feedEmail.None? ==> r.value.feedEmail == DefaultFeedEmail
  {
    match changelogFile
    case None => None
    case Some(f) => Some(ChangesConfig(Resolve(basedir, f), feedEmail.GetOr(DefaultFeedEmail)))
  }

  /** A license URL as the project declares it, with the parts `URI.create` finds in it. */
  datatype LicenseUri = LicenseUri(text: string, scheme: Option<string>, path: Option<string>)

  /** The directory `new File(parent, child)` starts from: the parent's normal form, or `/` for an empty one. */
  function FileParent(parent: Path): (r: Path)
    ensures IsNormal(r) && r != [] && Segments(r) == Segments(parent)
    ensures r == "/" || r[|r| - 1] != '/'
  {
    var p := Normalize(parent);
    if p == [] then "/" else (if p != "/" then NormalEnd(p); p else p)
  }

  /**
   * `new File(parent, child)` as text: the child, put in normal form, is
   * joined to the parent's directory by one separator; an empty child gives
   * the directory itself, and an absolute child is appended as it is.
   */
  function FileJoin(parent: Path, child: string): (r: Path)
    ensures child == [] ==> r == FileParent(parent)
    ensures StartsWith(r, FileParent(parent)) && EndsWith(r, Normalize(child))
    ensures SingleSeparators(r) && Segments(r) == Segments(parent) + Segments(child)
    ensures (|r| > 1 && r[|r| - 1] == '/') <==> Normalize(child) == "/" && FileParent(parent) != "/"
  {
    var dir := FileParent(parent);
    var c := Normalize(child);
    if c == [] then dir
    else if c[0] == '/' then
      if dir == "/" then
        assert Segments(dir) == [];
        c
      else
        AbsoluteAppend(dir, c);
        dir + c
    else if dir == "/" then
      RootJoin(c);
      assert Segments(dir) == [];
      dir + c
    else
      RelativeJoin(dir, c);
      dir + "/" + c
  }

  /**
   * A normal directory other than the root followed by a normal absolute name:
   * no doubled separator, the names follow one another, and the result ends in a
   * separator exactly when the name is the root.
   */
  lemma AbsoluteAppend(dir: string, name: string)
    requires IsNormal(dir) && IsNormal(name) && dir != [] && dir != "/" && name != [] && name[0] == '/'
    ensures SingleSeparators(dir + name) && Segments(dir + name) == Segments(dir) + Segments(name)
    ensures StartsWith(dir + name, dir) && EndsWith(dir + name, name)
    ensures (dir + name)[|dir + name| - 1] == '/' <==> name == "/"
  {
    NormalEnd(dir);
    JoinSingle(dir, name);
    SegmentsAppend(dir, name);
    if name != "/" {
      NormalEnd(name);
    }
    assert (dir + name)[..|dir|] == dir;
  }

  /**
   * `transformURIToPath`: a license URI without a scheme names a file under
   * the project directory and becomes a `file:///` URL; any other URI is used
   * as written.
   */
  function TransformUriToPath(basedir: Path, uri: LicenseUri): (r: string)
    ensures uri.scheme.None? && uri.path.Some? ==> r == "file:///" + FileJoin(basedir, uri.path.value)
    ensures uri.scheme.Some? || uri.path.None? ==> r == uri.text
  {
    if uri.scheme.None? && uri.path.Some? then "file:///" + FileJoin(basedir, uri.path.value) else uri.text
  }

  /**
   * A relative license path under a normal project directory other than the
   * root becomes a `file:///` URL of the directory, one separator and the path.
   */
  lemma TransformUriRelative(basedir: Path, uri: LicenseUri)
    requires IsNormal(basedir) && basedir != [] && basedir != "/"
    requires uri.scheme.None? && uri.path.Some?
    requires IsNormal(uri.path.value) && uri.path.value != [] && uri.path.value[0] != '/'
    ensures TransformUriToPath(basedir, uri) == "file:///" + basedir + "/" + uri.path.value
  {
    NormalizeKeepsNormal(basedir);
    NormalizeKeepsNormal(uri.path.value);
    NormalEnd(basedir);
  }

  // ---- the goal ---------------------------------------------------------

  /** The Maven project as the goal reads it. */
  datatype Project = Project(
    name: string,
    groupId: string,
    version: string,
    modules: seq<string>,
    basedir: Path,
    scm: Option<Scm>,
    issueManagement: Option<IssueManagement>)

  /** The goal's parameters; None is a parameter that is not set. */
  datatype Parameters = Parameters(
    skip: bool,
    overviewFile: Option<string>,
    featuresFile: Option<string>,
    headerFile: Option<string>,
    documentationFile: Option<string>,
    changelogFile: Option<string>,
    changelogFeedEmail: Option<string>,
    cssStyles: Option<seq<string>>,
    cssGenerateDefault: Option<bool>)

  /** The style sheets listed when the parameter is not set. */
  function DefaultCssStyles(): seq<string> {
    ["minisite.css", "site.css"]
  }

  /**
   * The site configuration the goal builds. `license` is the file the
   * project's first license was downloaded to, if it has one. The builder
   * chain reads the SCM section before the issue-management section, so a
   * failure of the first is the one reported.
   */
  function MojoConfiguration(params: Parameters, project: Project, license: Option<Path>): (r: Result<Configuration<Option<Path>>, Failure>)
    ensures r.Success? <==> Sources(project.scm).Success? && BugTracker(project.issueManagement).Success?
    ensures Sources(project.scm).Failure? ==> r == Failure(Sources(project.scm).error)
    ensures Sources(project.scm).Success? && BugTracker(project.issueManagement).Failure? ==>
      r == Failure(BugTracker(project.issueManagement).error)
    ensures r.Success? ==>
      var c := r.value;
      c.projectName == project.name && c.projectGroupName == project.groupId &&
      c.projectModules == project.modules && c.release == project.version &&
      c.centralReposPath == CentralReposPath(project.groupId) &&
      c.overview == OptionalPath(project.basedir, params.overviewFile) &&
      c.features == OptionalPath(project.basedir, params.featuresFile) &&
      c.documentation == OptionalPath(project.basedir, params.documentationFile) &&
      c.changelog == ChangelogConfig(project.basedir, params.changelogFile, params.changelogFeedEmail) &&
      c.license == license &&
      c.bugTracker == BugTracker(project.issueManagement).value &&
      c.sources == Sources(project.scm).value &&
      c.cssIncludes == params.cssStyles.GetOr(DefaultCssStyles()) &&
      c.cssGenerateStyle == params.cssGenerateDefault.GetOr(true)
  {
    match Sources(project.scm)
    case Failure(e) => Failure(e)
    case Success(sources) =>
      match BugTracker(project.issueManagement)
      case Failure(e) => Failure(e)
      case Success(bugTracker) =>
        Success(Build(project.name, project.groupId, project.modules, project.version, CentralReposPath(project.groupId),
          OptionalPath(project.basedir, params.overviewFile), OptionalPath(project.basedir, params.featuresFile),
          OptionalPath(project.basedir, params.documentationFile),
          ChangelogConfig(project.basedir, params.changelogFile, params.changelogFeedEmail),
          license, bugTracker, sources,
          Some(params.cssStyles.GetOr(DefaultCssStyles())), Some(params.cssGenerateDefault.GetOr(true))))
  }

  /**
   * The goal's own defaults agree with the configuration type's: leaving the
   * style parameters unset gives the configuration the builder would give
   * with those attributes unset.
   */
  lemma MojoDefaultsAgree(params: Parameters, project: Project, license: Option<Path>)
    requires params.cssStyles.None? && params.cssGenerateDefault.None?
    ensures MojoConfiguration(params, project, license).Success? ==>
      MojoConfiguration(params, project, license).value.cssIncludes == DefaultCssIncludes() &&
      MojoConfiguration(params, project, license).value.cssGenerateStyle == DefaultCssGenerateStyle()
  {
  }

  /**
   * `execute`: nothing is configured, and so nothing generated, when the goal
   * is skipped; otherwise the configuration is built or its failure reported.
   */
  function Execute(params: Parameters, project: Project, license: Option<Path>): (r: Result<Option<Configuration<Option<Path>>>, Failure>)
    ensures params.skip ==> r == Success(None)
    ensures !params.skip ==> (r.Success? <==> MojoConfiguration(params, project, license).Success?)
    ensures !params.skip && r.Success? ==> r.value == Some(MojoConfiguration(params, project, license).value)
    ensures !params.skip && r.Failure? ==> r.error == MojoConfiguration(params, project, license).error
  {
    if params.skip then Success(None)
    else
      match MojoConfiguration(params, project, license)
      case Success(c) => Success(Some(c))
      case Failure(e) => Failure(e)
  }
}
