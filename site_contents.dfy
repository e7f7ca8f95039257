/**
 * The table of contents of the XOM-generated page: a heading and a list with
 * one linked entry per block listed in `ContentsSections`.
 */
module SiteContents {
  import opened Wrappers
  import opened Markup
  import opened Sections
  import opened SiteBlocks
  import XomMarkup

  /** The entry of one block: a list item linking the block's anchor under its title. */
  function ContentsEntry(k: SectionKind): Node {
    XomMarkup.ListItem(XomMarkup.Link(Target(k), Title(k)))
  }

  /** One entry per listed block, in the order of the blocks. */
  function ContentsEntries(ks: seq<SectionKind>): seq<Node> {
    seq(|ks|, i requires 0 <= i < |ks| => ContentsEntry(ks[i]))
  }

  /** The contents block: the heading, then the list of entries. It carries no id. */
  function ContentsSpec(c: SiteConfiguration): (r: Node)
    ensures r.Element? && r.name == "div" && r.attributes == []
    ensures r.children == [XomMarkup.H2("Contents"), Plain("ul", ContentsEntries(ContentsSections(c)))]
  {
    Element(XHTML, "div", [], [XomMarkup.H2("Contents"), Plain("ul", ContentsEntries(ContentsSections(c)))])
  }

  /** The link targets of the entries for `ks`, in order. */
  function Targets(ks: seq<SectionKind>): (r: seq<string>)
    ensures |r| == |ks| && forall i :: 0 <= i < |ks| ==> r[i] == Target(ks[i])
  {
    seq(|ks|, i requires 0 <= i < |ks| => Target(ks[i]))
  }

  /** A block's target is among the targets of `ks` exactly when the block is in `ks`. */
  lemma TargetsMembers(ks: seq<SectionKind>, k: SectionKind)
    requires k != ContentsSection && ContentsSection !in ks
    ensures Target(k) in Targets(ks) <==> k in ks
  {
    var ts := Targets(ks);
    if k in ks {
      var i :| 0 <= i < |ks| && ks[i] == k;
      assert ts[i] == Target(k);
    }
    if Target(k) in ts {
      var i :| 0 <= i < |ts| && ts[i] == Target(k);
      TargetInverts(ks[i]);
      TargetInverts(k);
    }
  }

  /**
   * The list links the target of a block other than itself exactly when the
   * block is present and is not the overview: `#features` exactly when
   * features are configured, `#releases` and `#maven` always, `#overview`
   * never, and so on.
   */
  lemma ContentsTargets(c: SiteConfiguration, k: SectionKind)
    requires k != ContentsSection
    ensures Target(k) in Targets(ContentsSections(c)) <==> Present(k, c) && k != OverviewSection
  {
    ContentsSectionsExact(c);
    TargetsMembers(ContentsSections(c), k);
  }

  /**
   * Entry `i` of the list is a list item linking the target of listed block
   * `i` under its title, and that target leads back to block `i`.
   */
  lemma ContentsEntriesLinks(c: SiteConfiguration)
    ensures |ContentsSpec(c).children[1].children| == |ContentsSections(c)|
    ensures forall i :: 0 <= i < |ContentsSections(c)| ==>
      ContentsSpec(c).children[1].children[i] ==
      XomMarkup.ListItem(XomMarkup.Link(Target(ContentsSections(c)[i]), Title(ContentsSections(c)[i])))
    ensures forall i :: 0 <= i < |ContentsSections(c)| ==>
      TargetSection(Target(ContentsSections(c)[i])) == Some(ContentsSections(c)[i])
  {
    var cs := ContentsSections(c);
    ContentsSectionsExact(c);
    forall i | 0 <= i < |cs| ensures TargetSection(Target(cs[i])) == Some(cs[i]) {
      assert cs[i] in cs;
      TargetInverts(cs[i]);
    }
  }

  /** Listing one more block appends its entry. */
  lemma ContentsEntriesSnoc(listed: seq<SectionKind>, k: SectionKind)
    ensures ContentsEntries(listed + [k]) == ContentsEntries(listed) + [ContentsEntry(k)]
  {
  }

  /** One conditional append of `contents`: the entry of `k` is added when the block is present. */
  method AppendEntry(entries: seq<Node>, ghost shown: seq<SectionKind>, present: bool, k: SectionKind)
    returns (r: seq<Node>, ghost after: seq<SectionKind>)
    requires |shown| >= 2 && entries == ContentsEntries(shown[2..])
    ensures after == shown + Slot(present, k)
    ensures r == ContentsEntries(after[2..])
    ensures present ==> r == entries + [ContentsEntry(k)]
    ensures !present ==> r == entries
  {
    after := shown + Slot(present, k);
    assert after[2..] == shown[2..] + Slot(present, k);
    if present {
      ContentsEntriesSnoc(shown[2..], k);
      r := entries + [ContentsEntry(k)];
    } else {
      r := entries;
    }
  }

  /** `contents`: the list grows by one entry for each present block, in body order. */
  method BuildContents(c: SiteConfiguration) returns (r: Node)
    ensures r == ContentsSpec(c)
  {
    var entries: seq<Node> := [];
    ghost var shown: seq<SectionKind> := [OverviewSection, ContentsSection];
    assert shown[2..] == [];
    entries, shown := AppendEntry(entries, shown, c.features.Some?, FeaturesSection);
    entries, shown := AppendEntry(entries, shown, true, ReleasesSection);
    entries, shown := AppendEntry(entries, shown, |c.documentation| > 0, DocumentationSection);
    entries, shown := AppendEntry(entries, shown, true, MavenSection);
    entries, shown := AppendEntry(entries, shown, c.changelog.Some?, ChangesSection);
    entries, shown := AppendEntry(entries, shown, c.sources.Some?, SourcesSection);
    entries, shown := AppendEntry(entries, shown, c.license.Some?, LicenseSection);
    entries, shown := AppendEntry(entries, shown, c.bugTracker.Some?, BugTrackerSection);
    assert shown == PresentSections(c);
    r := Element(XHTML, "div", [], [XomMarkup.H2("Contents"), Plain("ul", entries)]);
  }
}
