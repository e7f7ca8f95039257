# minisite, modelled in Dafny

minisite generates a one-page XHTML web site for a software project. Its core
is in two parts. The site generator turns an immutable configuration into one
XHTML document. The configuration holds the project name, group, modules,
release, the path in Maven Central, and optional overview, features,
documentation, changelog, license, bug tracker and sources attachments. The
Maven goal builds that configuration from the Maven project and the goal's
parameters, choosing a network proxy for the license download on the way.

The model covers these parts:

- The page itself, as XOM builds it. The head holds the generator and type
  metadata, the bundled style sheet and the title. The body holds a `main`
  division with the overview, the table of contents, and then the releases,
  documentation, Maven, changes, sources, license and bug-tracker sections,
  each one present exactly when its attachment is.
  - Section order and presence: `Sections`.
  - Each block: `SiteBlocks`, `SiteContents`, `SiteDocumentation`,
    `SiteMaven`, `SiteChangelog`, `SiteSources`.
  - The whole page: `SiteMain`.
- The element helpers, for both XOM and the W3C DOM: `XomMarkup`,
  `DomMarkup`. DOM nodes carry their owning document, and forgetting the
  owners (`DomMarkup.Strip`) maps a DOM tree onto the XOM tree it
  corresponds to.
- The DOM-based changes section and the Git sources provider:
  `DomChangelogs`, `GitProvider`. Each is proved to give, owners aside, the
  same tree as its XOM counterpart.
- The configuration type and its defaults: `Configurations`.
- The Maven goal: `MinSiteMojo`. `MinSiteMojo.GroupOfPath` turns the
  central-repository path back into a group id; it is the reference inverse
  that `MinSiteMojo.CentralReposPathInverts` relates `CentralReposPath` to.
  - Proxy selection.
  - The sources and bug-tracker attachments.
  - The Central path derived from the group id.
  - Optional paths resolved against the project directory.
  - The changelog attachment with its default feed address.
  - The license URI rewrite.
  - The skip switch.
- Unix path normal form, as `java.io.File` and `java.nio.file.Path` keep it
  (no doubled and no trailing separator), and the names of a path, its runs
  of characters between separators: `UnixPaths`. Keeping the names of the
  parts while leaving no doubled separator is what pins one separator
  between two names.
- The goal's parse-error logging handler: `ErrorHandlers`.
- The mutable documentation-item parameter bean:
  `DocumentationItems.DocumentationItem`, a class with `modifies` clauses.

Where the Java code appends children to an element one at a time, or loops,
the model has a method that does the same, proved equal to a specification
function. These are `BuildContents`, `BuildDocumentation` (with
`AppendEntries` and `BuildFormatList`), `BuildMaven` (with `AppendModules`
and `AppendDependency`), `FindSources` and `ConfigureProxyForUrl`. The
properties are proved about the specification functions.

Everything the generator takes from outside its configuration is one
`SiteEnvironment.Environment` value:

- the embedded files, as a map from path to text and parsed root;
- the bundled style sheet;
- the package version;
- the platform line separator;
- the registered sources providers, in service-loader order;
- the changelog library.

A thrown exception is the error half of a `Result`. `Failures.Failure` names
each one, and `Exception()` maps it to the Java exception class.

## Model

| member | source | states |
|---|---|---|
| Configurations.Build | com.io7m.minisite.core/src/main/java/com/io7m/minisite/core/MinConfigurationType.java:30-138 | every attribute is kept exactly as given; `cssIncludes` falls back to `minisite.css`, `site.css` and `cssGenerateStyle` to true when they are not set |
| XomMarkup.H2 | com.io7m.minisite.core/src/main/java/com/io7m/minisite/core/MinXHTML.java:31-37 | an XHTML `h2` with no attributes whose only child is the given text, so its text content is that text |
| XomMarkup.ListItem | com.io7m.minisite.core/src/main/java/com/io7m/minisite/core/MinXHTML.java:39-45 | an XHTML `li` with no attributes wrapping exactly the given element and sharing its text content |
| XomMarkup.Link | com.io7m.minisite.core/src/main/java/com/io7m/minisite/core/MinXHTML.java:47-55 | an XHTML `a` whose one attribute is `href` = target and whose only child is the link text |
| DomMarkup.TextNode | com.io7m.minisite.core/src/main/java/com/io7m/minisite/core/internal/MinXHTML.java:54 | a text node created by a document is owned by it and carries the text |
| DomMarkup.Create | com.io7m.minisite.core/src/main/java/com/io7m/minisite/core/internal/MinXHTML.java:53-54 | an element created by a document, with children owned by it, is owned by the document and keeps its name, attributes and children |
| DomMarkup.H2 | com.io7m.minisite.core/src/main/java/com/io7m/minisite/core/internal/MinXHTML.java:49-56 | the DOM `h2` is owned by its document and, owners aside, is the same tree as the XOM `h2` |
| DomMarkup.ListItem | com.io7m.minisite.core/src/main/java/com/io7m/minisite/core/internal/MinXHTML.java:67-74 | appending succeeds exactly when the element belongs to the document (otherwise the wrong-document error); the item wraps exactly that element and equals the XOM list item; an element owned, with its whole subtree, by the document gives an item owned by it |
| DomMarkup.Link | com.io7m.minisite.core/src/main/java/com/io7m/minisite/core/internal/MinXHTML.java:86-95 | the DOM link is owned by its document and equals the XOM link: one `href` attribute and the text |
| DomMarkup.AdoptOwns | com.io7m.minisite.core/src/main/java/com/io7m/minisite/core/internal/MinXHTMLChangelogs.java:156 | after adoption every node of the subtree is owned by the adopting document |
| DomMarkup.AdoptAllOwns | com.io7m.minisite.core/src/main/java/com/io7m/minisite/core/internal/MinXHTMLChangelogs.java:156 | adopting a list of siblings makes every node of every subtree owned by the document |
| DomMarkup.AdoptKeepsTree | com.io7m.minisite.core/src/main/java/com/io7m/minisite/core/internal/MinXHTMLChangelogs.java:156 | adoption changes only owners: the tree (names, attributes, text, children) is unchanged |
| DomMarkup.AdoptAllKeepsTree | com.io7m.minisite.core/src/main/java/com/io7m/minisite/core/internal/MinXHTMLChangelogs.java:156 | adopting siblings leaves the list of trees unchanged |
| SiteText.CleanReposPath | com.io7m.minisite.core/src/main/java/com/io7m/minisite/core/MinSite.java:235-239 | removes the leading run of `/`: the result is a suffix of the path, everything removed is `/`, and the result does not start with `/` |
| SiteText.CleanReposPathUnique | com.io7m.minisite.core/src/main/java/com/io7m/minisite/core/MinSite.java:235-239 | the result is exactly the path after its maximal leading run of slashes |
| SiteText.CleanReposPathIdempotent | com.io7m.minisite.core/src/main/java/com/io7m/minisite/core/MinSite.java:235-239 | cleaning a cleaned path changes nothing |
| SiteText.CentralRepos | com.io7m.minisite.core/src/main/java/com/io7m/minisite/core/MinSite.java:564-570 | the repository link is `https://repo1.maven.org/maven2/` followed by the cleaned path, so no doubled slash follows the base |
| SiteText.Version | com.io7m.minisite.core/src/main/java/com/io7m/minisite/core/MinSite.java:332-336 | the package implementation version when there is one, `UNKNOWN` otherwise |
| SiteEnvironment.ReadFragment | com.io7m.minisite.core/src/main/java/com/io7m/minisite/core/MinSite.java:182-192 | an embedded XHTML file fails as unreadable when it cannot be opened, as malformed when it does not parse, and otherwise yields its root element |
| SiteEnvironment.ReadText | com.io7m.minisite.core/src/main/java/com/io7m/minisite/core/MinSite.java:222-229 | the license text fails as unreadable when the file cannot be read, and otherwise is the file text |
| SiteBlocks.Section | com.io7m.minisite.core/src/main/java/com/io7m/minisite/core/MinSite.java:396-397 | a `div` whose `id` attribute is the given id and whose children are the given ones |
| SiteBlocks.MetaGenerator | com.io7m.minisite.core/src/main/java/com/io7m/minisite/core/MinSite.java:308-320 | a childless `meta` with `name` = `generator` and `content` = the project URL followed by the version |
| SiteBlocks.MetaType | com.io7m.minisite.core/src/main/java/com/io7m/minisite/core/MinSite.java:322-330 | a childless `meta` declaring `application/xhtml+xml; charset=UTF-8` under `http-equiv` = `Content-Type` |
| SiteBlocks.Css | com.io7m.minisite.core/src/main/java/com/io7m/minisite/core/MinSite.java:281-306 | fails exactly when the bundled style sheet is missing; otherwise a `style` of type `text/css` whose text is the whole style sheet |
| SiteBlocks.Head | com.io7m.minisite.core/src/main/java/com/io7m/minisite/core/MinSite.java:650-661 | fails exactly when the style sheet is missing; otherwise `head` holds, in order, the generator meta, the type meta, the style and a `title` whose text is the project name |
| SiteBlocks.OverviewTitleArea | com.io7m.minisite.core/src/main/java/com/io7m/minisite/core/MinSite.java:581-599 | the `overview_title_area` holds the icon and an `h1` with the project name, in that order |
| SiteBlocks.OverviewContentArea | com.io7m.minisite.core/src/main/java/com/io7m/minisite/core/MinSite.java:601-619 | empty without an overview file; with one, fails exactly as reading the file fails and otherwise holds its root element |
| SiteBlocks.Overview | com.io7m.minisite.core/src/main/java/com/io7m/minisite/core/MinSite.java:572-579 | id `overview`; fails exactly when the content area fails, with the same failure; otherwise the title area then the content area |
| SiteBlocks.Features | com.io7m.minisite.core/src/main/java/com/io7m/minisite/core/MinSite.java:175-195 | fails exactly when the features file cannot be read or parsed, with that failure; otherwise id `features`, the heading, then the file root |
| SiteBlocks.CurrentRelease | com.io7m.minisite.core/src/main/java/com/io7m/minisite/core/MinSite.java:543-551 | a paragraph whose middle child is a `tt` with the release and whose text reads "The current release is <release>." |
| SiteBlocks.RepositoryParagraph | com.io7m.minisite.core/src/main/java/com/io7m/minisite/core/MinSite.java:553-559 | a paragraph whose middle child links `repository` to the central repository URL of the cleaned path |
| SiteBlocks.Releases | com.io7m.minisite.core/src/main/java/com/io7m/minisite/core/MinSite.java:537-562 | id `releases`; the heading, the current-release paragraph and the repository paragraph, in that order |
| SiteBlocks.License | com.io7m.minisite.core/src/main/java/com/io7m/minisite/core/MinSite.java:215-233 | fails exactly when the license file is unreadable; otherwise id `license`, the heading and a `pre` whose text is the whole file |
| SiteBlocks.BugTracker | com.io7m.minisite.core/src/main/java/com/io7m/minisite/core/MinSite.java:197-213 | id `bug-tracker`; the heading and a paragraph linking the tracker URI under its system name, reading "The project uses <system> to track issues." |
| Sections.PresentBeforeMembers | com.io7m.minisite.core/src/main/java/com/io7m/minisite/core/MinSite.java:364-392 | a block is among the first n positions of the body order exactly when its rank is below n and its attachment is present |
| Sections.PresentBeforeOrdered | com.io7m.minisite.core/src/main/java/com/io7m/minisite/core/MinSite.java:364-392 | blocks appear in strictly increasing rank of the fixed order, so none is repeated |
| Sections.PresentSectionsExact | com.io7m.minisite.core/src/main/java/com/io7m/minisite/core/MinSite.java:364-392 | the body holds exactly the present blocks, in the fixed order, with the overview and the contents block first |
| Sections.PresentSectionsByPosition | com.io7m.minisite.core/src/main/java/com/io7m/minisite/core/MinSite.java:364-392 | the body as appended equals the present blocks taken position by position through the fixed order |
| Sections.ContentsSectionsExact | com.io7m.minisite.core/src/main/java/com/io7m/minisite/core/MinSite.java:621-648 | the contents list names exactly the present blocks other than the overview and itself, in body order |
| Sections.ListedIffPresent | com.io7m.minisite.core/src/main/java/com/io7m/minisite/core/MinSite.java:621-648 | a block other than the overview and the contents block is listed exactly when it is in the body |
| Sections.ContentsAttachments | com.io7m.minisite.core/src/main/java/com/io7m/minisite/core/MinSite.java:628-644 | features, documentation, changes, sources, license and bug tracker are listed exactly when configured; releases and Maven always |
| Sections.TargetSectionInverts | com.io7m.minisite.core/src/main/java/com/io7m/minisite/core/MinSite.java:241-279 | each linked anchor leads back to its own block |
| Sections.TargetInverts | com.io7m.minisite.core/src/main/java/com/io7m/minisite/core/MinSite.java:241-279 | the contents target of a block leads back to that block, so distinct blocks have distinct targets |
| Sections.BareSections | com.io7m.minisite.core/src/main/java/com/io7m/minisite/core/MinSite.java:364-392 | with no optional attachment the body is overview, contents, releases, Maven, and the contents list names releases and Maven |
| SiteContents.ContentsSpec | com.io7m.minisite.core/src/main/java/com/io7m/minisite/core/MinSite.java:621-648 | a `div` without attributes holding the `Contents` heading and a `ul` with one entry per listed block |
| SiteContents.TargetsMembers | com.io7m.minisite.core/src/main/java/com/io7m/minisite/core/MinSite.java:241-279 | a block's target is among the listed targets exactly when the block is listed |
| SiteContents.ContentsTargets | com.io7m.minisite.core/src/main/java/com/io7m/minisite/core/MinSite.java:621-648 | the list links a block's target exactly when the block is present and is not the overview |
| SiteContents.ContentsEntriesLinks | com.io7m.minisite.core/src/main/java/com/io7m/minisite/core/MinSite.java:621-648 | entry i is a list item linking the target of listed block i under its title, and that target leads back to block i |
| SiteContents.AppendEntry | com.io7m.minisite.core/src/main/java/com/io7m/minisite/core/MinSite.java:628-644 | one conditional append: the entry is added exactly when the block is present, and the list stays the entries of the blocks shown so far |
| SiteContents.BuildContents | com.io7m.minisite.core/src/main/java/com/io7m/minisite/core/MinSite.java:621-648 | the in-place appends build exactly the contents block |
| SiteDocumentation.FormatItem | com.io7m.minisite.core/src/main/java/com/io7m/minisite/core/MinSite.java:527-530 | a list item linking a format's path, whose text is the format name |
| SiteDocumentation.FormatItemsLayout | com.io7m.minisite.core/src/main/java/com/io7m/minisite/core/MinSite.java:526-531 | one item per format, item i for format i |
| SiteDocumentation.EntriesNodesLayout | com.io7m.minisite.core/src/main/java/com/io7m/minisite/core/MinSite.java:522-532 | two nodes per entry, in order: an `h3` with the entry name and a `ul` of its formats |
| SiteDocumentation.DocumentationRelease | com.io7m.minisite.core/src/main/java/com/io7m/minisite/core/MinSite.java:503-511 | a paragraph whose middle child is a `tt` holding the release |
| SiteDocumentation.DocumentationArchive | com.io7m.minisite.core/src/main/java/com/io7m/minisite/core/MinSite.java:513-520 | a paragraph whose middle child links `repository` to the central repository URL |
| SiteDocumentation.DocumentationSpec | com.io7m.minisite.core/src/main/java/com/io7m/minisite/core/MinSite.java:497-535 | id `documentation`; the heading, the two introductory paragraphs, then the nodes of each entry in order |
| SiteDocumentation.DocumentationLayout | com.io7m.minisite.core/src/main/java/com/io7m/minisite/core/MinSite.java:497-535 | 3 + 2n children; entry j contributes its `h3` and its `ul` at positions 3 + 2j and 4 + 2j, and format i of entry j is item i of that list |
| SiteDocumentation.BuildFormatList | com.io7m.minisite.core/src/main/java/com/io7m/minisite/core/MinSite.java:526-531 | the loop over formats builds the `ul` of format items |
| SiteDocumentation.AppendEntries | com.io7m.minisite.core/src/main/java/com/io7m/minisite/core/MinSite.java:522-532 | the loop over entries appends exactly the entries' nodes after what is already there |
| SiteDocumentation.BuildDocumentation | com.io7m.minisite.core/src/main/java/com/io7m/minisite/core/MinSite.java:497-535 | the in-place appends build exactly the documentation block |
| SiteMaven.Stanza | com.io7m.minisite.core/src/main/java/com/io7m/minisite/core/MinSite.java:460-494 | seven nodes: text pieces at even positions, links to the group search, artifact search and artifact details at positions 1, 3 and 5 |
| SiteMaven.StanzaText | com.io7m.minisite.core/src/main/java/com/io7m/minisite/core/MinSite.java:460-494 | read without its markup, a stanza is exactly the Maven `<dependency>` declaration for the group, artifact and version |
| SiteMaven.StanzasLayout | com.io7m.minisite.core/src/main/java/com/io7m/minisite/core/MinSite.java:411-414 | seven nodes per artifact; stanza j is the j-th run of seven and is the stanza of artifact j |
| SiteMaven.MavenSpec | com.io7m.minisite.core/src/main/java/com/io7m/minisite/core/MinSite.java:394-427 | id `maven`; the heading, the introduction, a `pre` with the stanzas of the project then its modules, and the Central notice |
| SiteMaven.ProjectStanzas | com.io7m.minisite.core/src/main/java/com/io7m/minisite/core/MinSite.java:411-414 | the project's stanza comes first and module j's stanza is run j + 1, all sharing group and release |
| SiteMaven.StanzasCons | com.io7m.minisite.core/src/main/java/com/io7m/minisite/core/MinSite.java:411-414 | the project's stanza followed by the modules' stanzas is the stanzas of the whole list |
| SiteMaven.AppendDependency | com.io7m.minisite.core/src/main/java/com/io7m/minisite/core/MinSite.java:429-495 | appends exactly one stanza to the `pre` children |
| SiteMaven.AppendModules | com.io7m.minisite.core/src/main/java/com/io7m/minisite/core/MinSite.java:412-414 | the loop over modules appends their stanzas in list order |
| SiteMaven.BuildMaven | com.io7m.minisite.core/src/main/java/com/io7m/minisite/core/MinSite.java:394-427 | the project stanza and the module loop build exactly the Maven block |
| SiteChangelog.AtomParagraph | com.io7m.minisite.core/src/main/java/com/io7m/minisite/core/MinSite.java:133-139 | an XHTML `p` reading "Subscribe to the releases atom feed.", whose middle child is an XHTML link to `releases.atom` reading "atom feed" |
| SiteChangelog.Changelog | com.io7m.minisite.core/src/main/java/com/io7m/minisite/core/MinSite.java:98-156 | missing parser provider first, then missing writer provider, then an unreadable or unparsable file, then a rendered changelog that does not parse back, fail in that order; success exactly when all are present and the changelog has no release or its rendering parses; then id `changes`, the heading, the feed paragraph and the no-release paragraph or the rendered changelog |
| SiteChangelog.ChangelogEmptyIgnoresWriter | com.io7m.minisite.core/src/main/java/com/io7m/minisite/core/MinSite.java:141-148 | with no release the writer's rendering is never used |
| SiteSources.SourcesFirstMatch | com.io7m.minisite.core/src/main/java/com/io7m/minisite/core/MinSite.java:80-96 | succeeds exactly when some provider handles the system; then the section is that of the first such provider |
| SiteSources.SourcesNoProvider | com.io7m.minisite.core/src/main/java/com/io7m/minisite/core/MinSite.java:94-95 | when no provider matches, the failure names the system, with message "No providers are available for source repositories of type: <system>" |
| SiteSources.FindSources | com.io7m.minisite.core/src/main/java/com/io7m/minisite/core/MinSite.java:80-96 | the provider loop returns exactly the first-match section or the no-provider failure |
| SiteMain.RenderAllLayout | com.io7m.minisite.core/src/main/java/com/io7m/minisite/core/MinSite.java:364-392 | rendering succeeds exactly when every block renders, child i is block i; otherwise the failure is that of the first failing block |
| SiteMain.BodyAllPresent | com.io7m.minisite.core/src/main/java/com/io7m/minisite/core/MinSite.java:364-392 | every block of the body is present, so its renderer applies |
| SiteMain.MainLayout | com.io7m.minisite.core/src/main/java/com/io7m/minisite/core/MinSite.java:364-392 | `main` succeeds exactly when every present block renders; its id is `main` and child i is the section of body block i; otherwise the first failing block decides the failure |
| SiteMain.DocumentSpec | com.io7m.minisite.core/src/main/java/com/io7m/minisite/core/MinSite.java:344-362 | the head is built first and its failure wins; success exactly when head and main succeed; then `html` holds the head and a `body` holding only `main` |
| GitProvider.Intro | com.io7m.minisite.core/src/main/java/com/io7m/minisite/core/MinSourcesGitProvider.java:58-65 | a `p` owned by the document linking `http://www.git-scm.com` under `Git`, reading "This project uses Git to manage source code." |
| GitProvider.RepositoryParagraph | com.io7m.minisite.core/src/main/java/com/io7m/minisite/core/MinSourcesGitProvider.java:70-76 | a `p` owned by the document: the text `Repository: ` then a link whose target and text are both the URI |
| GitProvider.CloneCommand | com.io7m.minisite.core/src/main/java/com/io7m/minisite/core/MinSourcesGitProvider.java:78-84 | a `pre` owned by the document reading "$ git clone <uri>" |
| GitProvider.Evaluate | com.io7m.minisite.core/src/main/java/com/io7m/minisite/core/MinSourcesGitProvider.java:47-87 | fails with the null-argument error `Configuration` exactly when there is no configuration; otherwise an owned `div` with id `Sources` holding the heading, the introduction, the repository paragraph and the clone command |
| GitProvider.ProviderDispatch | com.io7m.minisite.core/src/main/java/com/io7m/minisite/core/MinSourcesGitProvider.java:40-44 | registered under system `Git`, the provider renders every `Git` sources attachment, and any other system passes it by |
| GitProvider.SkipNonMatching | com.io7m.minisite.core/src/main/java/com/io7m/minisite/core/MinSite.java:87-92 | providers whose system differs are skipped without effect |
| GitProvider.SkipInserted | com.io7m.minisite.core/src/main/java/com/io7m/minisite/core/MinSite.java:87-92 | inserting a provider for another system anywhere leaves the result unchanged |
| DomChangelogs.AtomParagraph | com.io7m.minisite.core/src/main/java/com/io7m/minisite/core/internal/MinXHTMLChangelogs.java:105-111 | owned by the document and equal to the XOM feed paragraph, so its middle child links `releases.atom` |
| DomChangelogs.NoReleasesParagraph | com.io7m.minisite.core/src/main/java/com/io7m/minisite/core/internal/MinXHTMLChangelogs.java:113-117 | owned by the document and equal to the XOM no-release paragraph |
| DomChangelogs.SerializeChangelog | com.io7m.minisite.core/src/main/java/com/io7m/minisite/core/internal/MinXHTMLChangelogs.java:132-162 | fails exactly when the writer's output does not parse; otherwise the adopted root is owned by the document and is the rendered tree |
| DomChangelogs.Changelog | com.io7m.minisite.core/src/main/java/com/io7m/minisite/core/internal/MinXHTMLChangelogs.java:65-130 | missing parser provider fails first, then missing writer provider; a success is owned by the document |
| DomChangelogs.StripServices | com.io7m.minisite.core/src/main/java/com/io7m/minisite/core/internal/MinXHTMLChangelogs.java:65-130 | forgetting owners keeps the provider flags, the files and each file's release count |
| DomChangelogs.ChangelogAgrees | com.io7m.minisite.core/src/main/java/com/io7m/minisite/core/internal/MinXHTMLChangelogs.java:65-130 | the DOM section succeeds exactly when the XOM section does, fails with the same failure, and owners aside is the same tree |
| ErrorHandlers.Digit | com.io7m.minisite.maven_plugin/src/main/java/com/io7m/minisite/maven_plugin/ErrorHandlers.java:86-87 | the decimal digit character of a number below ten |
| ErrorHandlers.NatString | com.io7m.minisite.maven_plugin/src/main/java/com/io7m/minisite/maven_plugin/ErrorHandlers.java:86-87 | `%d` of a natural number: non-empty, all digits, no leading zero |
| ErrorHandlers.DecimalString | com.io7m.minisite.maven_plugin/src/main/java/com/io7m/minisite/maven_plugin/ErrorHandlers.java:86-87 | `%d` of an integer: non-empty, starting with `-` exactly when negative |
| ErrorHandlers.NatStringRoundTrip | com.io7m.minisite.maven_plugin/src/main/java/com/io7m/minisite/maven_plugin/ErrorHandlers.java:86-87 | reading the digits back gives the number |
| ErrorHandlers.DecimalStringRoundTrip | com.io7m.minisite.maven_plugin/src/main/java/com/io7m/minisite/maven_plugin/ErrorHandlers.java:86-87 | reading the signed digits back gives the integer |
| ErrorHandlers.FormatFilePrefix | com.io7m.minisite.maven_plugin/src/main/java/com/io7m/minisite/maven_plugin/ErrorHandlers.java:80-98 | a file adds exactly `<file>:` in front of the message without file |
| ErrorHandlers.FormatExceptionSuffix | com.io7m.minisite.maven_plugin/src/main/java/com/io7m/minisite/maven_plugin/ErrorHandlers.java:81-89 | an exception adds exactly `: (<exception>)` after the message without exception |
| ErrorHandlers.OnWarn | com.io7m.minisite.maven_plugin/src/main/java/com/io7m/minisite/maven_plugin/ErrorHandlers.java:74-117 | one warning-level call to the given logger with the formatted text |
| ErrorHandlers.OnError | com.io7m.minisite.maven_plugin/src/main/java/com/io7m/minisite/maven_plugin/ErrorHandlers.java:119-162 | one error-level call to the given logger with the formatted text |
| ErrorHandlers.Handle | com.io7m.minisite.maven_plugin/src/main/java/com/io7m/minisite/maven_plugin/ErrorHandlers.java:54-71 | warnings go to the warning level and errors and critical errors to the error level, always with the formatted text |
| ErrorHandlers.LoggingHandler | com.io7m.minisite.maven_plugin/src/main/java/com/io7m/minisite/maven_plugin/ErrorHandlers.java:49-72 | fails with the null-argument error `Logger` exactly when there is no logger; otherwise handles every parse error as `Handle` does |
| DocumentationItems.DocumentationItem.constructor | com.io7m.minisite.maven_plugin/src/main/java/com/io7m/minisite/maven_plugin/DocumentationItem.java:54-57 | a new item has no name and an empty format list |
| DocumentationItems.DocumentationItem.SetName | com.io7m.minisite.maven_plugin/src/main/java/com/io7m/minisite/maven_plugin/DocumentationItem.java:35-40 | a missing name fails with `name` and changes nothing; otherwise the name is set and the item itself returned; the formats never change |
| DocumentationItems.DocumentationItem.SetFormats | com.io7m.minisite.maven_plugin/src/main/java/com/io7m/minisite/maven_plugin/DocumentationItem.java:47-52 | a missing list fails with `formats` and changes nothing; otherwise the list is set and the item itself returned; the name never changes |
| DocumentationItems.FillItem | com.io7m.minisite.maven_plugin/src/main/java/com/io7m/minisite/maven_plugin/DocumentationItem.java:30-52 | a fresh item filled through the setters, in either order, reads back the name and formats set |
| MinSiteMojo.HttpProxyFor | com.io7m.minisite.maven_plugin/src/main/java/com/io7m/minisite/maven_plugin/MinSiteMojo.java:504-508 | an HTTP proxy at the host and port when the port is in 0..65535, the invalid-port failure otherwise |
| MinSiteMojo.ProxyForFirstUsable | com.io7m.minisite.maven_plugin/src/main/java/com/io7m/minisite/maven_plugin/MinSiteMojo.java:458-515 | no proxy when no configured proxy is active with the target protocol; otherwise the first such decides the result |
| MinSiteMojo.ProxyForNonHttp | com.io7m.minisite.maven_plugin/src/main/java/com/io7m/minisite/maven_plugin/MinSiteMojo.java:496-511 | for a protocol other than HTTP or HTTPS the result is always no proxy |
| MinSiteMojo.ConfigureProxyForUrl | com.io7m.minisite.maven_plugin/src/main/java/com/io7m/minisite/maven_plugin/MinSiteMojo.java:452-516 | the loop over the settings' proxies returns exactly the first-usable result |
| MinSiteMojo.Sources | com.io7m.minisite.maven_plugin/src/main/java/com/io7m/minisite/maven_plugin/MinSiteMojo.java:549-566 | no SCM gives nothing; an SCM without a connection fails with a null-pointer failure; a connection not starting with `scm:git` gives nothing; a Git connection gives system `Git` and the parsed SCM URL, or the URL's own failure |
| MinSiteMojo.BugTracker | com.io7m.minisite.maven_plugin/src/main/java/com/io7m/minisite/maven_plugin/MinSiteMojo.java:535-547 | no issue management gives nothing; otherwise the URL is parsed first and its failure reported, then an unset system fails as a null argument `system`; success carries the system and URL |
| MinSiteMojo.CentralReposPath | com.io7m.minisite.maven_plugin/src/main/java/com/io7m/minisite/maven_plugin/MinSiteMojo.java:250 | the group id with every `.` replaced by `/`, character by character |
| MinSiteMojo.CentralReposPathInverts | com.io7m.minisite.maven_plugin/src/main/java/com/io7m/minisite/maven_plugin/MinSiteMojo.java:250 | the path has no `.`, and a group id without `/` is recovered from it |
| MinSiteMojo.CentralReposPathClean | com.io7m.minisite.maven_plugin/src/main/java/com/io7m/minisite/maven_plugin/MinSiteMojo.java:250 | a group id not starting with `.` or `/` gives a path the site generator does not trim |
| MinSiteMojo.Resolve | com.io7m.minisite.maven_plugin/src/main/java/com/io7m/minisite/maven_plugin/MinSiteMojo.java:369 | the result is in normal form; an empty name keeps the normalised base; an absolute name, or any name under an empty base, gives the normalised name; a relative name under a non-empty base gives a path that starts with the normalised base, ends with the normalised name, and whose names are the base's followed by the name's, so exactly one separator sits between them |
| MinSiteMojo.ResolveEndsWith | com.io7m.minisite.maven_plugin/src/main/java/com/io7m/minisite/maven_plugin/MinSiteMojo.java:369 | a resolved path ends with the resolved name when that name is already in normal form |
| MinSiteMojo.OptionalPath | com.io7m.minisite.maven_plugin/src/main/java/com/io7m/minisite/maven_plugin/MinSiteMojo.java:365-408 | a path exactly when the parameter is set, resolved against the project directory |
| MinSiteMojo.ChangelogConfig | com.io7m.minisite.maven_plugin/src/main/java/com/io7m/minisite/maven_plugin/MinSiteMojo.java:410-420 | a changelog exactly when the file parameter is set; the file resolved against the project directory, and the feed address defaulting to `nobody@example.com` |
| MinSiteMojo.FileJoin | com.io7m.minisite.maven_plugin/src/main/java/com/io7m/minisite/maven_plugin/MinSiteMojo.java:528 | an empty child gives the parent directory (`/` for an empty parent); otherwise the path starts with that directory, ends with the normalised child, has no doubled separator, and its names are the parent's followed by the child's, so the two are kept apart by one separator; it ends in a separator exactly when the child is `/` and the directory is not the root |
| MinSiteMojo.TransformUriToPath | com.io7m.minisite.maven_plugin/src/main/java/com/io7m/minisite/maven_plugin/MinSiteMojo.java:518-533 | a license URI with no scheme and a path becomes `file:///` followed by the path under the project directory; any other URI is kept |
| MinSiteMojo.MojoConfiguration | com.io7m.minisite.maven_plugin/src/main/java/com/io7m/minisite/maven_plugin/MinSiteMojo.java:234-251 | given the license download's result as an input: built exactly when the sources and the bug tracker both succeed, the sources failure reported first; when built, each configuration field is the project's or parameter's value as the goal computes it |
| MinSiteMojo.MojoDefaultsAgree | com.io7m.minisite.maven_plugin/src/main/java/com/io7m/minisite/maven_plugin/MinSiteMojo.java:194-211 | when built with the style parameters unset, the styles and style flag are the configuration's own defaults |
| MinSiteMojo.Execute | com.io7m.minisite.maven_plugin/src/main/java/com/io7m/minisite/maven_plugin/MinSiteMojo.java:224-251 | skipping gives nothing; otherwise the configuration or its failure |
| MinSiteMojo.CreateUri | com.io7m.minisite.maven_plugin/src/main/java/com/io7m/minisite/maven_plugin/MinSiteMojo.java:541 | an unset URL fails as a null pointer, a malformed one as an invalid URI; a well-formed one gives its text |
| MinSiteMojo.RootJoin | com.io7m.minisite.maven_plugin/src/main/java/com/io7m/minisite/maven_plugin/MinSiteMojo.java:369 | the root followed by a normal relative name is normal, has the name's names, and ends with the name |
| MinSiteMojo.RelativeJoin | com.io7m.minisite.maven_plugin/src/main/java/com/io7m/minisite/maven_plugin/MinSiteMojo.java:369 | a normal non-root directory, one separator and a normal relative name form a normal path starting with the directory and ending with the name, whose names are the directory's followed by the name's |
| MinSiteMojo.FileParent | com.io7m.minisite.maven_plugin/src/main/java/com/io7m/minisite/maven_plugin/MinSiteMojo.java:528 | the directory a child is resolved against: normal, non-empty, with the parent's names, and without a trailing separator unless it is the root |
| MinSiteMojo.AbsoluteAppend | com.io7m.minisite.maven_plugin/src/main/java/com/io7m/minisite/maven_plugin/MinSiteMojo.java:528 | a normal non-root directory followed by an absolute normal child has no doubled separator, the directory's names followed by the child's, and ends in a separator exactly when the child is `/` |
| MinSiteMojo.TransformUriRelative | com.io7m.minisite.maven_plugin/src/main/java/com/io7m/minisite/maven_plugin/MinSiteMojo.java:524-528 | a relative normal license path under a normal non-root project directory becomes `file:///`, the directory, one separator and the path |
| UnixPaths.Segments | com.io7m.minisite.maven_plugin/src/main/java/com/io7m/minisite/maven_plugin/MinSiteMojo.java:369 | the names of a path, its maximal runs of non-separator characters: a path starting with a name has a first name starting with that character |
| UnixPaths.SegmentsAreNames | com.io7m.minisite.maven_plugin/src/main/java/com/io7m/minisite/maven_plugin/MinSiteMojo.java:369 | every name is non-empty and holds no separator |
| UnixPaths.SegmentsJoin | com.io7m.minisite.maven_plugin/src/main/java/com/io7m/minisite/maven_plugin/MinSiteMojo.java:369 | the names of `a/b` are the names of `a` followed by those of `b`, whatever `a` and `b` are |
| UnixPaths.SegmentsAppend | com.io7m.minisite.maven_plugin/src/main/java/com/io7m/minisite/maven_plugin/MinSiteMojo.java:369 | a path followed by an absolute path has the names of the first followed by those of the second |
| UnixPaths.Collapse | com.io7m.minisite.maven_plugin/src/main/java/com/io7m/minisite/maven_plugin/MinSiteMojo.java:528 | at most as long as its input, empty exactly when it is, with the same first and last character; with `CollapseSingle` and `CollapseSegments` a run of separators becomes exactly one |
| UnixPaths.CollapseSingle | com.io7m.minisite.maven_plugin/src/main/java/com/io7m/minisite/maven_plugin/MinSiteMojo.java:528 | after collapsing no separator follows another |
| UnixPaths.CollapseSegments | com.io7m.minisite.maven_plugin/src/main/java/com/io7m/minisite/maven_plugin/MinSiteMojo.java:528 | collapsing keeps the names, so no separator between two names is lost |
| UnixPaths.CollapseKeepsSingle | com.io7m.minisite.maven_plugin/src/main/java/com/io7m/minisite/maven_plugin/MinSiteMojo.java:528 | a path without doubled separators is unchanged by collapsing |
| UnixPaths.DropTrailing | com.io7m.minisite.maven_plugin/src/main/java/com/io7m/minisite/maven_plugin/MinSiteMojo.java:369 | dropping the trailing separator of a path without doubled separators leaves a normal path with the same first character and the same names |
| UnixPaths.DropTrailingNormal | com.io7m.minisite.maven_plugin/src/main/java/com/io7m/minisite/maven_plugin/MinSiteMojo.java:369 | dropping the trailing separator of a path without doubled separators leaves a normal path |
| UnixPaths.Normalize | com.io7m.minisite.maven_plugin/src/main/java/com/io7m/minisite/maven_plugin/MinSiteMojo.java:369 | the result is normal, has the same names (so each run of separators between names becomes one separator), is empty exactly when the input is, and is absolute exactly when the input is |
| UnixPaths.NormalizeKeepsNormal | com.io7m.minisite.maven_plugin/src/main/java/com/io7m/minisite/maven_plugin/MinSiteMojo.java:369 | a normal path is its own normal form |
| UnixPaths.NormalizeIdempotent | com.io7m.minisite.maven_plugin/src/main/java/com/io7m/minisite/maven_plugin/MinSiteMojo.java:369 | normalising twice is normalising once |
| UnixPaths.JoinSingle | com.io7m.minisite.maven_plugin/src/main/java/com/io7m/minisite/maven_plugin/MinSiteMojo.java:369 | joining two paths without doubled separators, where the seam does not double one, has none either |
| UnixPaths.NormalEnd | com.io7m.minisite.maven_plugin/src/main/java/com/io7m/minisite/maven_plugin/MinSiteMojo.java:369 | a normal path other than `/` does not end in a separator |

## Left out

- File and network I/O are values, not effects. Embedded files are a map, so an absent key is an unreadable file. The changelog library is a pair of presence flags plus a parse result per file. The service loader is a sequence of providers.
- The changelog parser and writer are not part of this model. A parsed changelog is only its release count and the parsed-back root of its XHTML rendering.
- Logging is left out of the generator. In `ErrorHandlers` a log call is a value (`LogCall`), not an effect.
- The pretty printer (`MinXHTMLReindent`) and the resource copier (`CopyTreeVisitor`) are not part of this model.
- The XML parsers (`MinXMLParse`) are not part of this model either. Whether a file parses is an input.
- The rest of the goal's `execute` is left out: the license download through a `URLConnection`, writing the page, copying the style sheet and resources, and writing the Atom feed with the current time.
- `MinSiteMojo.Resolve` and `MinSiteMojo.FileJoin` follow the Unix file system only: runs of separators collapse and a trailing separator is dropped, while `.` and `..` segments are kept, as `Path` and `File` keep them. Windows paths and a NUL character in a path are not modelled.
- `MinSiteMojo.CreateUri` does not parse URIs: whether `URI.create` accepts a URL is an input flag of `UriText`.
- `MinSiteMojo.MojoConfiguration` takes the project's name, group, version and modules as present; the null-pointer failures of unset coordinates are not modelled.
- `MinSiteMojo.MojoConfiguration` takes the license download's result as an input. In the Java goal `license(log)` runs between `sources()` and `bugTracker()`, so its failures (a malformed license URL, an unknown protocol, an I/O error) would be reported before a bug-tracker failure; the model does not order them.
- `DocumentationItems.DocumentationItem.SetFormats` stores a sequence value. The Java setter keeps a reference to the caller's list, so a later change to that list shows through `getFormats`; that aliasing is not modelled.
- `ErrorHandlers.NatString` and `ErrorHandlers.DecimalString` produce ASCII digits. `String.format("%d")` uses the default locale's digits, which the model does not take into account.
- `MinSiteMojo.EqualsIgnoreCase` folds ASCII letters only. The protocol comparison is on strings, with no null protocol.
- `MinSiteMojo.TransformUriToPath` does not parse URIs. The scheme and path come in already separated, and a malformed URL is not modelled.
- `MinSiteMojo.HttpProxyFor` does not model a null proxy host.
- `MinSiteMojo.Parameters` carries the `headerFile` parameter, but it is not part of the configuration. The configuration type has no header attribute, so it is ignored.
- The generator never reads `cssIncludes`. It always embeds the bundled style sheet. The model keeps the attribute in the configuration and uses it nowhere else.
- The repository's revisions disagree on the documentation attachment. The configuration type declares an optional path, while the generator reads a list of named entries with formats. `Configurations.Configuration` is generic in that field, and each revision is modelled as written: `Option<Path>` for the goal and a sequence of entries for the generator.
- The Git provider gives its section the id `Sources`, while the contents list links `#sources`. Both are modelled as written.
- `SiteMain.MainSpec` and `SiteMain.DocumentSpec` are functions, not methods that append in place. Each child they add is a whole section built by a function or by one of the proved methods above.
- `DomMarkup.ListItem` does not re-parent an element that already has a parent.
- `DocumentationItems.DocumentationItem.GetName` and `DocumentationItems.DocumentationItem.GetFormats` only read the fields. `FillItem` states what they return.
- `SiteContents.TargetsMembers` and the `Sections` target lemmas leave the contents block out, since it has no anchor of its own.
