/**
 * The documentation section of the XOM-generated page: two fixed
 * paragraphs, then for every documentation entry its name as a heading and a
 * list linking each of its formats.
 */
module SiteDocumentation {
  import opened Wrappers
  import opened Markup
  import opened Configurations
  import opened Sections
  import opened SiteText
  import opened SiteBlocks
  import XomMarkup

  /** The list item linking one format: the format's path, under the format's name. */
  function FormatItem(f: DocumentationFormat): (r: Node)
    ensures r == XomMarkup.ListItem(XomMarkup.Link(f.path, f.name))
    ensures TextContent(r) == f.name
  {
    XomMarkup.ListItem(XomMarkup.Link(f.path, f.name))
  }

  function FormatItems(formats: seq<DocumentationFormat>): seq<Node> {
    if formats == [] then []
    else FormatItems(formats[..|formats| - 1]) + [FormatItem(formats[|formats| - 1])]
  }

  /** One list item per format, in the order of the formats. */
  lemma {:induction false} FormatItemsLayout(formats: seq<DocumentationFormat>)
    ensures |FormatItems(formats)| == |formats|
    ensures forall i :: 0 <= i < |formats| ==> FormatItems(formats)[i] == FormatItem(formats[i])
  {
    if formats != [] {
      FormatItemsLayout(formats[..|formats| - 1]);
    }
  }

  /** The heading and the list of one entry. */
  function EntryNodes(e: DocumentationEntry): seq<Node> {
    [Plain("h3", [Text(e.name)]), Plain("ul", FormatItems(e.formats))]
  }

  function EntriesNodes(entries: seq<DocumentationEntry>): seq<Node> {
    if entries == [] then []
    else EntriesNodes(entries[..|entries| - 1]) + EntryNodes(entries[|entries| - 1])
  }

  /** Entry `j` contributes the nodes `2j` and `2j + 1`, in the order of the entries. */
  lemma {:induction false} EntriesNodesLayout(entries: seq<DocumentationEntry>)
    ensures |EntriesNodes(entries)| == 2 * |entries|
    ensures forall j :: 0 <= j < |entries| ==>
      EntriesNodes(entries)[2 * j] == Plain("h3", [Text(entries[j].name)]) &&
      EntriesNodes(entries)[2 * j + 1] == Plain("ul", FormatItems(entries[j].formats))
  {
    if entries != [] {
      EntriesNodesLayout(entries[..|entries| - 1]);
    }
  }

  /** The paragraph naming the current release in a `tt` element. */
  function DocumentationRelease(release: string): (r: Node)
    ensures r.Element? && r.name == "p" && |r.children| == 3
    ensures r.children[1] == Plain("tt", [Text(release)])
  {
    Plain("p", [Text("Documentation for the "), Plain("tt", [Text(release)]),
      Text(" release is available for reading online.")])
  }

  /** The paragraph linking the archive of documentation in the central repository. */
  function DocumentationArchive(centralReposPath: string): (r: Node)
    ensures r.Element? && r.name == "p" && |r.children| == 3
    ensures r.children[1] == XomMarkup.Link(CentralRepos(centralReposPath), "repository")
  {
    Plain("p", [Text("Documentation for current and older releases is archived in the "),
      XomMarkup.Link(CentralRepos(centralReposPath), "repository"), Text(".")])
  }

  /** The two fixed paragraphs: the current release, and the archive link. */
  function DocumentationIntro(c: SiteConfiguration): seq<Node> {
    [DocumentationRelease(c.release), DocumentationArchive(c.centralReposPath)]
  }

  /** The documentation section. */
  function DocumentationSpec(c: SiteConfiguration): (r: Node)
    ensures Id(r) == Some("documentation")
    ensures r.children == [XomMarkup.H2("Documentation")] + DocumentationIntro(c) + EntriesNodes(c.documentation)
  {
    Section("documentation", [XomMarkup.H2("Documentation")] + DocumentationIntro(c) + EntriesNodes(c.documentation))
  }

  /** After any prefix, entry `j` contributes the two nodes at `2j` past the prefix. */
  lemma EntriesAfter(prefix: seq<Node>, entries: seq<DocumentationEntry>)
    ensures |prefix + EntriesNodes(entries)| == |prefix| + 2 * |entries|
    ensures forall j :: 0 <= j < |entries| ==>
      (prefix + EntriesNodes(entries))[|prefix| + 2 * j] == Plain("h3", [Text(entries[j].name)]) &&
      (prefix + EntriesNodes(entries))[|prefix| + 2 * j + 1] == Plain("ul", FormatItems(entries[j].formats))
  {
    EntriesNodesLayout(entries);
  }

  /**
   * After the heading and the two paragraphs, every entry appears as its
   * name in an `h3` and a `ul` with one link per format, entries and formats
   * in list order.
   */
  lemma DocumentationLayout(c: SiteConfiguration)
    ensures |DocumentationSpec(c).children| == 3 + 2 * |c.documentation|
    ensures forall j :: 0 <= j < |c.documentation| ==>
      DocumentationSpec(c).children[3 + 2 * j] == Plain("h3", [Text(c.documentation[j].name)]) &&
      DocumentationSpec(c).children[4 + 2 * j] == Plain("ul", FormatItems(c.documentation[j].formats))
    ensures forall j, i :: 0 <= j < |c.documentation| && 0 <= i < |c.documentation[j].formats| ==>
      |FormatItems(c.documentation[j].formats)| == |c.documentation[j].formats| &&
      FormatItems(c.documentation[j].formats)[i] == FormatItem(c.documentation[j].formats[i])
  {
    var prefix := [XomMarkup.H2("Documentation")] + DocumentationIntro(c);
    EntriesAfter(prefix, c.documentation);
    forall j | 0 <= j < |c.documentation|
      ensures |FormatItems(c.documentation[j].formats)| == |c.documentation[j].formats|
      ensures forall i :: 0 <= i < |c.documentation[j].formats| ==>
        FormatItems(c.documentation[j].formats)[i] == FormatItem(c.documentation[j].formats[i])
    {
      FormatItemsLayout(c.documentation[j].formats);
    }
  }

  /** The `ul` of one entry, built by appending one item per format. */
  method BuildFormatList(formats: seq<DocumentationFormat>) returns (r: Node)
    ensures r == Plain("ul", FormatItems(formats))
  {
    var items: seq<Node> := [];
    var i := 0;
    while i < |formats|
      invariant 0 <= i <= |formats|
      invariant items == FormatItems(formats[..i])
    {
      assert formats[..i + 1][..i] == formats[..i];
      items := items + [XomMarkup.ListItem(XomMarkup.Link(formats[i].path, formats[i].name))];
      i := i + 1;
    }
    assert formats[..i] == formats;
    r := Plain("ul", items);
  }

  /** The loop of `documentation`: per entry, its name as a heading, then its list of formats. */
  method AppendEntries(prefix: seq<Node>, entries: seq<DocumentationEntry>) returns (children: seq<Node>)
    ensures children == prefix + EntriesNodes(entries)
  {
    children := prefix;
    var j := 0;
    while j < |entries|
      invariant 0 <= j <= |entries|
      invariant children == prefix + EntriesNodes(entries[..j])
    {
      assert entries[..j + 1][..j] == entries[..j];
      children := children + [Plain("h3", [Text(entries[j].name)])];
      var ul := BuildFormatList(entries[j].formats);
      children := children + [ul];
      j := j + 1;
    }
    assert entries[..j] == entries;
  }

  /** `documentation`: the heading, the two paragraphs, then one heading and list per entry. */
  method BuildDocumentation(c: SiteConfiguration) returns (r: Node)
    ensures r == DocumentationSpec(c)
  {
    var children := AppendEntries([XomMarkup.H2("Documentation")] + DocumentationIntro(c), c.documentation);
    r := Section("documentation", children);
  }
}
