/**
 * The Maven section of the XOM-generated page: one dependency stanza for the
 * project and one per module, each linking its group, artifact and version
 * to Maven Central searches.
 */
module SiteMaven {
  import opened Wrappers
  import opened Markup
  import opened Sections
  import opened SiteText
  import opened SiteBlocks
  import XomMarkup

  /**
   * The dependency declaration a Maven user pastes into a build file, with
   * `nl` as the line separator.
   */
  function DependencyXml(artifact: string, group: string, version: string, nl: string): string {
    ("<dependency>" + nl + "  <groupId>") + group
      + ("</groupId>" + nl + "  <artifactId>") + artifact
      + ("</artifactId>" + nl + "  <version>") + version
      + ("</version>" + nl + "</dependency>" + nl + nl)
  }

  /**
   * One stanza as the generator lays it out: four text pieces interleaved
   * with the group, artifact and version links.
   */
  function Stanza(artifact: string, group: string, version: string, nl: string): (r: seq<Node>)
    ensures |r| == 7
    ensures r[1] == XomMarkup.Link(GroupSearchUrl(group), group)
    ensures r[3] == XomMarkup.Link(ArtifactSearchUrl(artifact), artifact)
    ensures r[5] == XomMarkup.Link(ArtifactDetailsUrl(group, artifact, version), version)
    ensures forall i :: 0 <= i < 7 && i % 2 == 0 ==> r[i].Text?
  {
    [Text("<dependency>" + nl + "  <groupId>"),
     XomMarkup.Link(GroupSearchUrl(group), group),
     Text("</groupId>" + nl + "  <artifactId>"),
     XomMarkup.Link(ArtifactSearchUrl(artifact), artifact),
     Text("</artifactId>" + nl + "  <version>"),
     XomMarkup.Link(ArtifactDetailsUrl(group, artifact, version), version),
     Text("</version>" + nl + "</dependency>" + nl + nl)]
  }

  /** Appending one sibling appends its character data. */
  lemma TextContentAllSnoc(ns: seq<Node>, n: Node)
    ensures TextContentAll(ns + [n]) == TextContentAll(ns) + TextContent(n)
  {
    TextContentAllAppend(ns, [n]);
    TextContentAllSingle(n);
  }

  /** The character data of seven siblings is theirs in order. */
  lemma TextContentOfSeven(n0: Node, n1: Node, n2: Node, n3: Node, n4: Node, n5: Node, n6: Node)
    ensures TextContentAll([n0, n1, n2, n3, n4, n5, n6]) ==
      TextContent(n0) + TextContent(n1) + TextContent(n2) + TextContent(n3) +
      TextContent(n4) + TextContent(n5) + TextContent(n6)
  {
    TextContentOfThree(n0, n1, n2);
    assert [n0, n1, n2, n3] == [n0, n1, n2] + [n3];
    TextContentAllSnoc([n0, n1, n2], n3);
    assert [n0, n1, n2, n3, n4] == [n0, n1, n2, n3] + [n4];
    TextContentAllSnoc([n0, n1, n2, n3], n4);
    assert [n0, n1, n2, n3, n4, n5] == [n0, n1, n2, n3, n4] + [n5];
    TextContentAllSnoc([n0, n1, n2, n3, n4], n5);
    assert [n0, n1, n2, n3, n4, n5, n6] == [n0, n1, n2, n3, n4, n5] + [n6];
    TextContentAllSnoc([n0, n1, n2, n3, n4, n5], n6);
  }

  /** Read without its markup, a stanza is exactly the Maven dependency declaration. */
  lemma StanzaText(artifact: string, group: string, version: string, nl: string)
    ensures TextContentAll(Stanza(artifact, group, version, nl)) == DependencyXml(artifact, group, version, nl)
  {
    var s := Stanza(artifact, group, version, nl);
    TextContentOfSeven(s[0], s[1], s[2], s[3], s[4], s[5], s[6]);
    assert s == [s[0], s[1], s[2], s[3], s[4], s[5], s[6]];
  }

  /** The stanzas of `artifacts`, in order, all sharing one group and one version. */
  function Stanzas(artifacts: seq<string>, group: string, version: string, nl: string): seq<Node> {
    if artifacts == [] then []
    else
      Stanzas(artifacts[..|artifacts| - 1], group, version, nl)
      + Stanza(artifacts[|artifacts| - 1], group, version, nl)
  }

  /** Stanza `j` occupies the `j`-th run of seven nodes and is the stanza of `artifacts[j]`. */
  lemma {:induction false} StanzasLayout(artifacts: seq<string>, group: string, version: string, nl: string)
    ensures |Stanzas(artifacts, group, version, nl)| == 7 * |artifacts|
    ensures forall j :: 0 <= j < |artifacts| ==>
      Stanzas(artifacts, group, version, nl)[7 * j .. 7 * j + 7] == Stanza(artifacts[j], group, version, nl)
  {
    if artifacts != [] {
      var init := artifacts[..|artifacts| - 1];
      StanzasLayout(init, group, version, nl);
      var s := Stanzas(artifacts, group, version, nl);
      var prefix := Stanzas(init, group, version, nl);
      assert s == prefix + Stanza(artifacts[|artifacts| - 1], group, version, nl);
      forall j | 0 <= j < |artifacts|
        ensures s[7 * j .. 7 * j + 7] == Stanza(artifacts[j], group, version, nl)
      {
        if j < |init| {
          assert s[7 * j .. 7 * j + 7] == prefix[7 * j .. 7 * j + 7];
          assert init[j] == artifacts[j];
        } else {
          assert s[7 * j .. 7 * j + 7] == s[|prefix|..];
        }
      }
    }
  }

  /** The paragraph pointing at Maven Central. */
  function CentralNotice(): Node {
    Plain("p", [Text("Each release of the project is made available on "),
      XomMarkup.Link("http://search.maven.org", "Maven Central"),
      Text(" within ten minutes of the release announcement.")])
  }

  /** The paragraph introducing the stanzas. */
  function MavenIntro(): Node {
    Plain("p", [Text("The following is a complete list of the project's modules expressed as Maven dependencies: ")])
  }

  /** The Maven section around the children of its `pre` element. */
  function MavenSection(pre: seq<Node>): Node {
    Section("maven", [XomMarkup.H2("Maven"), MavenIntro(), Plain("pre", pre), CentralNotice()])
  }

  /**
   * The Maven section: the heading, the introduction, the `pre` block with the
   * project's stanza followed by one per module in list order, and the notice.
   */
  function MavenSpec(c: SiteConfiguration, nl: string): (r: Node)
    ensures Id(r) == Some("maven")
    ensures r.children == [XomMarkup.H2("Maven"), MavenIntro(),
      Plain("pre", Stanzas([c.projectName] + c.projectModules, c.projectGroupName, c.release, nl)), CentralNotice()]
  {
    MavenSection(Stanzas([c.projectName] + c.projectModules, c.projectGroupName, c.release, nl))
  }

  /**
   * The project's stanza comes first, then every module gets its own
   * stanza in list order, all sharing the group and the release.
   */
  lemma ProjectStanzas(project: string, modules: seq<string>, group: string, version: string, nl: string)
    ensures |Stanzas([project] + modules, group, version, nl)| == 7 * (1 + |modules|)
    ensures Stanzas([project] + modules, group, version, nl)[..7] == Stanza(project, group, version, nl)
    ensures forall j :: 0 <= j < |modules| ==>
      Stanzas([project] + modules, group, version, nl)[7 * (j + 1) .. 7 * (j + 1) + 7] ==
      Stanza(modules[j], group, version, nl)
  {
    var names := [project] + modules;
    StanzasLayout(names, group, version, nl);
    assert names[0] == project;
    forall j | 0 <= j < |modules|
      ensures names[j + 1] == modules[j]
    {
    }
  }

  /** `mavenDependency`: appends one stanza to the children of the `pre` element. */
  method AppendDependency(pre: seq<Node>, artifact: string, group: string, version: string, nl: string)
    returns (r: seq<Node>)
    ensures r == pre + Stanza(artifact, group, version, nl)
  {
    r := pre;
    r := r + [Text("<dependency>" + nl + "  <groupId>")];
    r := r + [XomMarkup.Link(GroupSearchUrl(group), group)];
    r := r + [Text("</groupId>" + nl + "  <artifactId>")];
    r := r + [XomMarkup.Link(ArtifactSearchUrl(artifact), artifact)];
    r := r + [Text("</artifactId>" + nl + "  <version>")];
    r := r + [XomMarkup.Link(ArtifactDetailsUrl(group, artifact, version), version)];
    r := r + [Text("</version>" + nl + "</dependency>" + nl + nl)];
  }

  /** The project's stanza followed by the modules' stanzas is the stanzas of the whole list. */
  lemma {:induction false} StanzasCons(first: string, rest: seq<string>, group: string, version: string, nl: string)
    ensures Stanzas([first] + rest, group, version, nl) ==
      Stanza(first, group, version, nl) + Stanzas(rest, group, version, nl)
  {
    if rest == [] {
      assert [first] + rest == [first];
      assert [first][..0] == [];
    } else {
      var init := rest[..|rest| - 1];
      StanzasCons(first, init, group, version, nl);
      assert ([first] + rest)[..|[first] + rest| - 1] == [first] + init;
    }
  }

  lemma AppendAssociates<T>(a: seq<T>, b: seq<T>, c: seq<T>)
    ensures (a + b) + c == a + (b + c)
  {
  }

  /** The loop of `maven`: one appended stanza per module, in list order. */
  method AppendModules(pre: seq<Node>, modules: seq<string>, group: string, version: string, nl: string)
    returns (r: seq<Node>)
    ensures r == pre + Stanzas(modules, group, version, nl)
  {
    r := pre;
    var i := 0;
    while i < |modules|
      invariant 0 <= i <= |modules|
      invariant r == pre + Stanzas(modules[..i], group, version, nl)
    {
      ghost var done := Stanzas(modules[..i], group, version, nl);
      ghost var next := Stanza(modules[i], group, version, nl);
      assert modules[..i + 1][..i] == modules[..i];
      assert Stanzas(modules[..i + 1], group, version, nl) == done + next;
      r := AppendDependency(r, modules[i], group, version, nl);
      AppendAssociates(pre, done, next);
      i := i + 1;
    }
    assert modules[..i] == modules;
  }

  /** `maven`: the project's stanza, then a loop over the modules. */
  method BuildMaven(c: SiteConfiguration, nl: string) returns (r: Node)
    ensures r == MavenSpec(c, nl)
  {
    ghost var first := Stanza(c.projectName, c.projectGroupName, c.release, nl);
    var pre := AppendDependency([], c.projectName, c.projectGroupName, c.release, nl);
    assert pre == first;
    pre := AppendModules(pre, c.projectModules, c.projectGroupName, c.release, nl);
    StanzasCons(c.projectName, c.projectModules, c.projectGroupName, c.release, nl);
    r := MavenSection(pre);
  }
}
