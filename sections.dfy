/**
 * Which blocks the page body holds, and in which order. The body is the
 * overview, the contents block, then the blocks of the fixed order whose
 * attachment is present; the contents block lists exactly those sections.
 */
module Sections {
  import opened Wrappers
  import opened Configurations

  /** The configuration as the site generator reads it. */
  type SiteConfiguration = Configuration<seq<DocumentationEntry>>

  datatype SectionKind =
    | OverviewSection
    | ContentsSection
    | FeaturesSection
    | ReleasesSection
    | DocumentationSection
    | MavenSection
    | ChangesSection
    | SourcesSection
    | LicenseSection
    | BugTrackerSection

  /** The number of blocks in the fixed order. */
  const SectionCount: nat := 10

  /** The block at position `i` of the fixed order of the page body. */
  function KindAt(i: nat): (k: SectionKind)
    requires i < SectionCount
  {
    if i == 0 then OverviewSection
    else if i == 1 then ContentsSection
    else if i == 2 then FeaturesSection
    else if i == 3 then ReleasesSection
    else if i == 4 then DocumentationSection
    else if i == 5 then MavenSection
    else if i == 6 then ChangesSection
    else if i == 7 then SourcesSection
    else if i == 8 then LicenseSection
    else BugTrackerSection
  }

  /** The position of a block in the fixed order; the inverse of `KindAt`. */
  function Rank(k: SectionKind): (r: nat)
    ensures r < SectionCount && KindAt(r) == k
  {
    match k
    case OverviewSection => 0
    case ContentsSection => 1
    case FeaturesSection => 2
    case ReleasesSection => 3
    case DocumentationSection => 4
    case MavenSection => 5
    case ChangesSection => 6
    case SourcesSection => 7
    case LicenseSection => 8
    case BugTrackerSection => 9
  }

  /** Every position holds the block of that rank, so the order lists each block exactly once. */
  lemma RankOfKindAt(i: nat)
    requires i < SectionCount
    ensures Rank(KindAt(i)) == i
  {
  }

  /** The id a block carries and its table-of-contents entry targets; the contents block has none. */
  function Anchor(k: SectionKind): Option<string> {
    match k
    case OverviewSection => Some("overview")
    case ContentsSection => None
    case FeaturesSection => Some("features")
    case ReleasesSection => Some("releases")
    case DocumentationSection => Some("documentation")
    case MavenSection => Some("maven")
    case ChangesSection => Some("changes")
    case SourcesSection => Some("sources")
    case LicenseSection => Some("license")
    case BugTrackerSection => Some("bug-tracker")
  }

  /** The text of a block's entry in the table of contents. */
  function Title(k: SectionKind): string {
    match k
    case OverviewSection => "Overview"
    case ContentsSection => "Contents"
    case FeaturesSection => "Features"
    case ReleasesSection => "Releases"
    case DocumentationSection => "Documentation"
    case MavenSection => "Maven"
    case ChangesSection => "Changes"
    case SourcesSection => "Sources"
    case LicenseSection => "License"
    case BugTrackerSection => "Bug Tracker"
  }

  /** The presence rule of each block. */
  predicate Present(k: SectionKind, c: SiteConfiguration) {
    match k
    case FeaturesSection => c.features.Some?
    case DocumentationSection => |c.documentation| > 0
    case ChangesSection => c.changelog.Some?
    case SourcesSection => c.sources.Some?
    case LicenseSection => c.license.Some?
    case BugTrackerSection => c.bugTracker.Some?
    case _ => true
  }

  /** `Present` as one optional slot of the body. */
  function Slot(present: bool, k: SectionKind): seq<SectionKind> {
    if present then [k] else []
  }

  /** The present blocks among the first `n` positions of the fixed order, in order. */
  function PresentBefore(n: nat, c: SiteConfiguration): seq<SectionKind>
    requires n <= SectionCount
  {
    if n == 0 then [] else PresentBefore(n - 1, c) + Slot(Present(KindAt(n - 1), c), KindAt(n - 1))
  }

  /**
   * The blocks of the page body, as the generator appends them: the overview
   * and the contents block, then one slot per block, optional attachments
   * contributing only when set.
   */
  function PresentSections(c: SiteConfiguration): seq<SectionKind> {
    [OverviewSection, ContentsSection]
      + Slot(c.features.Some?, FeaturesSection)
      + [ReleasesSection]
      + Slot(|c.documentation| > 0, DocumentationSection)
      + [MavenSection]
      + Slot(c.changelog.Some?, ChangesSection)
      + Slot(c.sources.Some?, SourcesSection)
      + Slot(c.license.Some?, LicenseSection)
      + Slot(c.bugTracker.Some?, BugTrackerSection)
  }

  /** The blocks the table of contents lists: those after the overview and the contents block. */
  function ContentsSections(c: SiteConfiguration): seq<SectionKind> {
    PresentSections(c)[2..]
  }

  lemma {:induction false} PresentBeforeMembers(n: nat, c: SiteConfiguration, k: SectionKind)
    requires n <= SectionCount
    ensures k in PresentBefore(n, c) <==> Rank(k) < n && Present(k, c)
  {
    if n > 0 {
      PresentBeforeMembers(n - 1, c, k);
    }
  }

  lemma {:induction false} PresentBeforeOrdered(n: nat, c: SiteConfiguration)
    requires n <= SectionCount
    ensures forall i, j :: 0 <= i < j < |PresentBefore(n, c)| ==>
      Rank(PresentBefore(n, c)[i]) < Rank(PresentBefore(n, c)[j])
  {
    if n > 0 {
      PresentBeforeOrdered(n - 1, c);
      var init := PresentBefore(n - 1, c);
      forall k | k in init ensures Rank(k) < n - 1 {
        PresentBeforeMembers(n - 1, c, k);
      }
      RankOfKindAt(n - 1);
    }
  }

  /**
   * The body holds exactly the present blocks (both directions), each once,
   * strictly in the fixed order; the overview and the contents block come first.
   */
  lemma PresentSectionsExact(c: SiteConfiguration)
    ensures forall k :: k in PresentSections(c) <==> Present(k, c)
    ensures forall i, j :: 0 <= i < j < |PresentSections(c)| ==>
      Rank(PresentSections(c)[i]) < Rank(PresentSections(c)[j])
    ensures |PresentSections(c)| >= 2
    ensures PresentSections(c)[0] == OverviewSection && PresentSections(c)[1] == ContentsSection
  {
    PresentSectionsByPosition(c);
    forall k ensures k in PresentSections(c) <==> Present(k, c) {
      PresentBeforeMembers(SectionCount, c, k);
    }
    PresentBeforeOrdered(SectionCount, c);
  }

  /** The appended body agrees with the position-by-position presence rule. */
  lemma PresentSectionsByPosition(c: SiteConfiguration)
    ensures PresentSections(c) == PresentBefore(SectionCount, c)
  {
    assert PresentBefore(1, c) == [OverviewSection];
    assert PresentBefore(2, c) == [OverviewSection, ContentsSection];
    assert PresentBefore(3, c) == PresentBefore(2, c) + Slot(c.features.Some?, FeaturesSection);
    assert PresentBefore(4, c) == PresentBefore(3, c) + [ReleasesSection];
    assert PresentBefore(5, c) == PresentBefore(4, c) + Slot(|c.documentation| > 0, DocumentationSection);
    assert PresentBefore(6, c) == PresentBefore(5, c) + [MavenSection];
    assert PresentBefore(7, c) == PresentBefore(6, c) + Slot(c.changelog.Some?, ChangesSection);
    assert PresentBefore(8, c) == PresentBefore(7, c) + Slot(c.sources.Some?, SourcesSection);
    assert PresentBefore(9, c) == PresentBefore(8, c) + Slot(c.license.Some?, LicenseSection);
  }

  /**
   * The table of contents lists exactly the present blocks other than the
   * overview and itself, strictly in body order.
   */
  lemma ContentsSectionsExact(c: SiteConfiguration)
    ensures forall k :: k in ContentsSections(c) <==>
      Present(k, c) && k != OverviewSection && k != ContentsSection
    ensures forall i, j :: 0 <= i < j < |ContentsSections(c)| ==>
      Rank(ContentsSections(c)[i]) < Rank(ContentsSections(c)[j])
  {
    PresentSectionsExact(c);
    var ps := PresentSections(c);
    var cs := ContentsSections(c);
    forall k ensures k in cs <==> Present(k, c) && k != OverviewSection && k != ContentsSection {
      if k in cs {
        var i :| 0 <= i < |cs| && cs[i] == k;
        assert ps[i + 2] == k;
        assert Rank(ps[0]) < Rank(k) && Rank(ps[1]) < Rank(k);
      }
      if Present(k, c) && k != OverviewSection && k != ContentsSection {
        var i :| 0 <= i < |ps| && ps[i] == k;
        assert i >= 2;
        assert cs[i - 2] == k;
      }
    }
    forall i, j | 0 <= i < j < |cs| ensures Rank(cs[i]) < Rank(cs[j]) {
      assert cs[i] == ps[i + 2] && cs[j] == ps[j + 2];
    }
  }

  /** A block other than the overview and the contents block is listed exactly when it is present. */
  lemma ListedIffPresent(c: SiteConfiguration, k: SectionKind)
    requires k != OverviewSection && k != ContentsSection
    ensures k in ContentsSections(c) <==> Present(k, c)
  {
    ContentsSectionsExact(c);
  }

  /** The entry of each optional attachment is listed exactly when it is set; releases and Maven always are. */
  lemma ContentsAttachments(c: SiteConfiguration)
    ensures FeaturesSection in ContentsSections(c) <==> c.features.Some?
    ensures ReleasesSection in ContentsSections(c) && MavenSection in ContentsSections(c)
    ensures DocumentationSection in ContentsSections(c) <==> |c.documentation| > 0
    ensures ChangesSection in ContentsSections(c) <==> c.changelog.Some?
    ensures SourcesSection in ContentsSections(c) <==> c.sources.Some?
    ensures LicenseSection in ContentsSections(c) <==> c.license.Some?
    ensures BugTrackerSection in ContentsSections(c) <==> c.bugTracker.Some?
  {
    ListedIffPresent(c, FeaturesSection);
    ListedIffPresent(c, ReleasesSection);
    ListedIffPresent(c, DocumentationSection);
    ListedIffPresent(c, MavenSection);
    ListedIffPresent(c, ChangesSection);
    ListedIffPresent(c, SourcesSection);
    ListedIffPresent(c, LicenseSection);
    ListedIffPresent(c, BugTrackerSection);
  }

  /** The block a table-of-contents target points at, if any. */
  function TargetSection(target: string): Option<SectionKind> {
    if target == "#overview" then Some(OverviewSection)
    else if target == "#features" then Some(FeaturesSection)
    else if target == "#releases" then Some(ReleasesSection)
    else if target == "#documentation" then Some(DocumentationSection)
    else if target == "#maven" then Some(MavenSection)
    else if target == "#changes" then Some(ChangesSection)
    else if target == "#sources" then Some(SourcesSection)
    else if target == "#license" then Some(LicenseSection)
    else if target == "#bug-tracker" then Some(BugTrackerSection)
    else None
  }

  /** Every anchor leads back to its block, so distinct blocks have distinct targets. */
  lemma TargetSectionInverts(k: SectionKind)
    requires k != ContentsSection
    ensures TargetSection("#" + Anchor(k).value) == Some(k)
  {
    var t := "#" + Anchor(k).value;
    match k
    case OverviewSection =>
      assert t == "#overview";
    case FeaturesSection =>
      assert t == "#features" && t[1] != 'o';
    case ReleasesSection =>
      assert t == "#releases" && t[1] != 'o' && t[1] != 'f';
    case DocumentationSection =>
      assert t == "#documentation" && t[1] != 'o' && t[1] != 'f' && t[1] != 'r';
    case MavenSection =>
      assert t == "#maven" && t[1] != 'o' && t[1] != 'f' && t[1] != 'r' && t[1] != 'd';
    case ChangesSection =>
      assert t == "#changes" && t[1] != 'o' && t[1] != 'f' && t[1] != 'r' && t[1] != 'd' && t[1] != 'm';
    case SourcesSection =>
      assert t == "#sources" && t[1] != 'o' && t[1] != 'f' && t[1] != 'r' && t[1] != 'd' && t[1] != 'm' && t[1] != 'c';
    case LicenseSection =>
      assert t == "#license" && t[1] != 'o' && t[1] != 'f' && t[1] != 'r' && t[1] != 'd' && t[1] != 'm' && t[1] != 'c' && t[1] != 's';
    case BugTrackerSection =>
      assert t == "#bug-tracker" && t[1] != 'o' && t[1] != 'f' && t[1] != 'r' && t[1] != 'd' && t[1] != 'm' && t[1] != 'c' && t[1] != 's' && t[1] != 'l';
  }

  /** The link target of a listed block: its anchor as a fragment (the contents block is never listed). */
  function Target(k: SectionKind): string {
    "#" + Anchor(k).GetOr("")
  }

  /** Distinct listed blocks have distinct targets: the target leads back to its block. */
  lemma TargetInverts(k: SectionKind)
    requires k != ContentsSection
    ensures TargetSection(Target(k)) == Some(k)
  {
    TargetSectionInverts(k);
  }

  /** With every optional attachment absent, the body holds overview, contents, releases and Maven only. */
  lemma BareSections(c: SiteConfiguration)
    requires c.features.None? && c.documentation == [] && c.changelog.None?
    requires c.sources.None? && c.license.None? && c.bugTracker.None?
    ensures PresentSections(c) == [OverviewSection, ContentsSection, ReleasesSection, MavenSection]
    ensures ContentsSections(c) == [ReleasesSection, MavenSection]
  {
    assert PresentSections(c) == [OverviewSection, ContentsSection, ReleasesSection, MavenSection];
  }
}
