/** The fixed, ordered catalog of badges that `generateTopContent` renders:
    for each badge a condition on the options, a fingerprint that recognises
    an existing snippet as that badge, and its canonical rendering. */
module BadgeCatalog {
  import opened Wrappers
  import opened Text
  import opened Markup
  import opened SharedTypes

  datatype BadgeId =
    | AllContributors
    | Codecov
    | ContributorCovenant
    | License
    | Sponsor
    | Prettier
    | TypeScriptStrict
    | NpmVersion

  /** Only the Sponsor badge is conditional: it needs a funding account. */
  predicate AppliesTo(id: BadgeId, o: Options)
  {
    id == Sponsor ==> o.funding.Some?
  }

  /** Position of `id` in the catalog. */
  function Rank(id: BadgeId): nat
  {
    match id
    case AllContributors => 0
    case Codecov => 1
    case ContributorCovenant => 2
    case License => 3
    case Sponsor => 4
    case Prettier => 5
    case TypeScriptStrict => 6
    case NpmVersion => 7
  }

  /** The badges this run renders: every catalog entry that applies, each
      once, in catalog order. */
  function Applicable(o: Options): (r: seq<BadgeId>)
    ensures forall id :: id in r <==> AppliesTo(id, o)
    ensures forall i, j :: 0 <= i < j < |r| ==> Rank(r[i]) < Rank(r[j])
  {
    [AllContributors, Codecov, ContributorCovenant, License]
    + (if o.funding.Some? then [Sponsor] else [])
    + [Prettier, TypeScriptStrict, NpmVersion]
  }

  // ---- fingerprints -------------------------------------------------------

  const AllContributorsBadgeStart := "ALL-CONTRIBUTORS-BADGE:START"
  const CodecovHome := "https://codecov.io/gh/"
  const CodecovLabel := "Codecov Test Coverage"
  const CovenantLabel := "Contributor Covenant"
  const LicenseLabel := "License: MIT"
  const SponsorLabel := "Sponsor: On GitHub"
  const PrettierLabel := "Style: Prettier"
  const TypeScriptStrictLabel := "TypeScript: Strict"
  const NpmVersionLabel := "npm package version"

  /** The stable text by which an existing snippet is recognised as `id`,
      whatever its link targets, image sources or counts say. The
      all-contributors entry is recognised by its start marker; Codecov by
      its link target, so that a Codecov link without an image still counts;
      every other badge by its image's alt text. */
  function Fingerprint(id: BadgeId): string
  {
    match id
    case AllContributors => AllContributorsBadgeStart
    case Codecov => CodecovHome
    case ContributorCovenant => CovenantLabel
    case License => LicenseLabel
    case Sponsor => SponsorLabel
    case Prettier => PrettierLabel
    case TypeScriptStrict => TypeScriptStrictLabel
    case NpmVersion => NpmVersionLabel
  }

  predicate Recognises(id: BadgeId, snippet: string)
  {
    Contains(snippet, Fingerprint(id))
  }

  /** Some badge rendered in this run claims `snippet`. */
  predicate RecognisedByAny(o: Options, snippet: string)
  {
    exists id | id in Applicable(o) :: Recognises(id, snippet)
  }

  /** The outcome of matching one existing snippet against the catalog. */
  datatype Classification = Known(id: BadgeId) | Unknown(snippet: string)

  /** The position of the first entry of `ids` that `recognises` accepts, if any
      (the catalog walk of one snippet, with the matching rule as a parameter). */
  function FirstRecognising(ids: seq<BadgeId>, recognises: BadgeId -> bool): (r: Option<nat>)
    ensures r.Some? ==> r.value < |ids| && recognises(ids[r.value])
    ensures r.Some? ==> forall j | 0 <= j < r.value :: !recognises(ids[j])
    ensures r.None? <==> forall id | id in ids :: !recognises(id)
  {
    if ids == [] then None
    else if recognises(ids[0]) then Some(0)
    else match FirstRecognising(ids[1..], recognises)
      case Some(k) => Some(k + 1)
      case None => None
  }

  /** A snippet is known as the first applicable badge that recognises it,
      and unknown (kept as it is) when none does. */
  function Classify(o: Options, snippet: string): (c: Classification)
    ensures c.Known? <==> RecognisedByAny(o, snippet)
    ensures c.Known? ==> c.id in Applicable(o) && Recognises(c.id, snippet)
    ensures c.Unknown? ==> c.snippet == snippet
  {
    var ids := Applicable(o);
    match FirstRecognising(ids, id => Recognises(id, snippet))
    case Some(k) => Known(ids[k])
    case None => Unknown(snippet)
  }

  // ---- canonical renderings -------------------------------------------------

  const ShieldsBadge := "https://img.shields.io/badge/"

  const AllContributorsBadgeLine :=
    Anchor("#contributors", ImgTag("All Contributors: 2", ShieldsBadge + "all_contributors-17-21bb42" + ".svg", " />"))

  const PrettierIgnoreStart := Comment("prettier-ignore-start")
  const PrettierIgnoreEnd := Comment("prettier-ignore-end")
  const AllContributorsBadgeStartComment := Comment(AllContributorsBadgeStart + " - Do not remove or modify this section")
  const AllContributorsBadgeEndComment := Comment("ALL-CONTRIBUTORS-BADGE:END")

  /** The all-contributors badge between its markers: five lines. */
  const AllContributorsBlock: seq<string> :=
    [PrettierIgnoreStart, AllContributorsBadgeStartComment, AllContributorsBadgeLine, AllContributorsBadgeEndComment, PrettierIgnoreEnd]

  function CodecovProject(owner: string, repository: string): string
  {
    CodecovHome + owner + "/" + repository
  }

  function CodecovBadge(owner: string, repository: string): string
  {
    Anchor(CodecovProject(owner, repository),
      ImgTag(CodecovLabel, CodecovProject(owner, repository) + "/branch/main/graph/badge.svg", "/>"))
  }

  function GitHubBlob(owner: string, repository: string, path: string): string
  {
    "https://github.com/" + owner + "/" + repository + "/blob/main/" + path
  }

  function CovenantBadge(owner: string, repository: string): string
  {
    Anchor(GitHubBlob(owner, repository, ".github/CODE_OF_CONDUCT.md"),
      ImgTag(CovenantLabel, ShieldsBadge + "code_of_conduct-enforced-21bb42", " />"))
  }

  function LicenseBadge(owner: string, repository: string): string
  {
    Anchor(GitHubBlob(owner, repository, "LICENSE.md"),
      ImgTag(LicenseLabel, "https://img.shields.io/github/license/" + owner + "/" + repository + "?color=21bb42", ">"))
  }

  function SponsorBadge(funding: string): string
  {
    Anchor("https://github.com/sponsors/" + funding,
      ImgTag(SponsorLabel, ShieldsBadge + "sponsor-on_github-21bb42.svg", " />"))
  }

  const PrettierBadge := ImgTag(PrettierLabel, ShieldsBadge + "style-prettier-21bb42.svg", " />")

  const TypeScriptStrictBadge := ImgTag(TypeScriptStrictLabel, ShieldsBadge + "typescript-strict-21bb42.svg", " />")

  function NpmVersionBadge(repository: string): string
  {
    ImgTag(NpmVersionLabel, "https://img.shields.io/npm/v/" + repository + "?color=21bb42", " />")
  }

  /** The lines `id` contributes to the badge paragraph. */
  function Render(o: Options, id: BadgeId): (r: seq<string>)
    ensures r != [] <==> AppliesTo(id, o)
    ensures id != AllContributors ==> |r| <= 1
  {
    match id
    case AllContributors => AllContributorsBlock
    case Codecov => [CodecovBadge(o.owner, o.repository)]
    case ContributorCovenant => [CovenantBadge(o.owner, o.repository)]
    case License => [LicenseBadge(o.owner, o.repository)]
    case Sponsor => (match o.funding case Some(f) => [SponsorBadge(f)] case None => [])
    case Prettier => [PrettierBadge]
    case TypeScriptStrict => [TypeScriptStrictBadge]
    case NpmVersion => [NpmVersionBadge(o.repository)]
  }

  // ---- properties -------------------------------------------------------------

  /** A badge line that a canonical rendering of `id` produces carries the
      fingerprint of `id`, so a later run replaces it instead of keeping a
      stale copy; the all-contributors entry is recognised only through its
      start-marker line, and every other badge is one recognised line. */
  lemma RenderRecognisedByOwnEntry(o: Options, id: BadgeId)
    requires AppliesTo(id, o)
    ensures id != AllContributors ==> |Render(o, id)| == 1 && Recognises(id, Render(o, id)[0])
    ensures id == AllContributors ==> Recognises(id, Render(o, id)[1])
  {
    match id
    case AllContributors => BlockRecognised();
    case Codecov => CodecovRecognised(o.owner, o.repository);
    case ContributorCovenant =>
      LinkedBadgeShowsLabel(GitHubBlob(o.owner, o.repository, ".github/CODE_OF_CONDUCT.md"),
        CovenantLabel, ShieldsBadge + "code_of_conduct-enforced-21bb42", " />");
    case License =>
      LinkedBadgeShowsLabel(GitHubBlob(o.owner, o.repository, "LICENSE.md"),
        LicenseLabel, "https://img.shields.io/github/license/" + o.owner + "/" + o.repository + "?color=21bb42", ">");
    case Sponsor =>
      LinkedBadgeShowsLabel("https://github.com/sponsors/" + o.funding.value,
        SponsorLabel, ShieldsBadge + "sponsor-on_github-21bb42.svg", " />");
    case Prettier => ImageShowsLabel(PrettierLabel, ShieldsBadge + "style-prettier-21bb42.svg", " />");
    case TypeScriptStrict => ImageShowsLabel(TypeScriptStrictLabel, ShieldsBadge + "typescript-strict-21bb42.svg", " />");
    case NpmVersion =>
      ImageShowsLabel(NpmVersionLabel, "https://img.shields.io/npm/v/" + o.repository + "?color=21bb42", " />");
  }

  lemma BlockRecognised()
    ensures Recognises(AllContributors, AllContributorsBlock[1])
  {
    ContainsSelf(AllContributorsBadgeStart);
    ContainsInLeft(AllContributorsBadgeStart, " - Do not remove or modify this section", AllContributorsBadgeStart);
    CommentShows(AllContributorsBadgeStart + " - Do not remove or modify this section", AllContributorsBadgeStart);
  }

  lemma CodecovRecognised(owner: string, repository: string)
    ensures Recognises(Codecov, CodecovBadge(owner, repository))
  {
    CodecovProjectShowsHome(owner, repository);
    AnchorShows(CodecovProject(owner, repository),
      ImgTag(CodecovLabel, CodecovProject(owner, repository) + "/branch/main/graph/badge.svg", "/>"), CodecovHome);
  }

  /** An image shows its alt text. */
  lemma ImageShowsLabel(alt: string, src: string, close: string)
    ensures Contains(ImgTag(alt, src, close), alt)
  {
    ContainsSelf(alt);
    ImgTagShows(alt, src, close, alt);
  }

  /** A linked image shows its alt text. */
  lemma LinkedBadgeShowsLabel(href: string, alt: string, src: string, close: string)
    ensures Contains(Anchor(href, ImgTag(alt, src, close)), alt)
  {
    ContainsSelf(alt);
    ImgTagShows(alt, src, close, alt);
    AnchorShows(href, ImgTag(alt, src, close), alt);
  }

  lemma CodecovProjectShowsHome(owner: string, repository: string)
    ensures Contains(CodecovProject(owner, repository), CodecovHome)
  {
    ContainsSelf(CodecovHome);
    ContainsInLeft(CodecovHome, owner, CodecovHome);
    ContainsInLeft(CodecovHome + owner, "/", CodecovHome);
    ContainsInLeft(CodecovHome + owner + "/", repository, CodecovHome);
  }

  /** The Codecov badge links to and draws from `owner/repository`. */
  lemma CodecovBadgeNamesProject(owner: string, repository: string)
    ensures Contains(CodecovBadge(owner, repository), "codecov.io/gh/" + owner + "/" + repository)
  {
    var project := CodecovProject(owner, repository);
    var slug := "codecov.io/gh/" + owner + "/" + repository;
    assert project == "https://" + slug + "";
    ContainsBetween("https://", slug, "");
    AnchorShows(project, ImgTag(CodecovLabel, project + "/branch/main/graph/badge.svg", "/>"), slug);
  }

  /** A GitHub blob link names the project it points into. */
  lemma GitHubBlobNamesProject(owner: string, repository: string, path: string)
    ensures Contains(GitHubBlob(owner, repository, path), "github.com/" + owner + "/" + repository + "/")
  {
    var gh := "github.com/" + owner + "/" + repository + "/";
    assert GitHubBlob(owner, repository, path) == "https://" + gh + ("blob/main/" + path);
    ContainsBetween("https://", gh, "blob/main/" + path);
  }

  /** The Contributor Covenant badge links into `owner/repository`. */
  lemma CovenantBadgeNamesProject(owner: string, repository: string)
    ensures Contains(CovenantBadge(owner, repository), "github.com/" + owner + "/" + repository + "/")
  {
    GitHubBlobNamesProject(owner, repository, ".github/CODE_OF_CONDUCT.md");
    AnchorShows(GitHubBlob(owner, repository, ".github/CODE_OF_CONDUCT.md"),
      ImgTag(CovenantLabel, ShieldsBadge + "code_of_conduct-enforced-21bb42", " />"),
      "github.com/" + owner + "/" + repository + "/");
  }

  /** The License badge links into `owner/repository`. */
  lemma LicenseBadgeNamesProject(owner: string, repository: string)
    ensures Contains(LicenseBadge(owner, repository), "github.com/" + owner + "/" + repository + "/")
  {
    GitHubBlobNamesProject(owner, repository, "LICENSE.md");
    AnchorShows(GitHubBlob(owner, repository, "LICENSE.md"),
      ImgTag(LicenseLabel, "https://img.shields.io/github/license/" + owner + "/" + repository + "?color=21bb42", ">"),
      "github.com/" + owner + "/" + repository + "/");
  }

  /** The npm version badge reads the package named after the repository. */
  lemma NpmBadgeNamesPackage(repository: string)
    ensures Contains(NpmVersionBadge(repository), "npm/v/" + repository + "?")
  {
    var npm := "npm/v/" + repository + "?";
    var src := "https://img.shields.io/npm/v/" + repository + "?color=21bb42";
    assert src == "https://img.shields.io/" + npm + "color=21bb42";
    ContainsBetween("https://img.shields.io/", npm, "color=21bb42");
    ImgTagShows(NpmVersionLabel, src, " />", npm);
  }

  /** The Sponsor badge links to the funding account's sponsor page. */
  lemma SponsorBadgeNamesAccount(funding: string)
    ensures Contains(SponsorBadge(funding), "github.com/sponsors/" + funding)
  {
    var sponsors := "github.com/sponsors/" + funding;
    var href := "https://github.com/sponsors/" + funding;
    assert href == "https://" + sponsors + "";
    ContainsBetween("https://", sponsors, "");
    AnchorShows(href, ImgTag(SponsorLabel, ShieldsBadge + "sponsor-on_github-21bb42.svg", " />"), sponsors);
  }

  // ---- the all-contributors badge line on its own -----------------------------

  /** The badge line between the all-contributors markers carries no
      fingerprint: once separated from its start marker, no catalog entry
      claims it, so it is carried over as an unknown snippet. */
  lemma AllContributorsBadgeLineUnclaimed(o: Options)
    ensures !RecognisedByAny(o, AllContributorsBadgeLine)
  {
    forall id | id in Applicable(o)
      ensures !Recognises(id, AllContributorsBadgeLine)
    {
      BadgeLineUnclaimedBy(id);
    }
  }

  lemma BadgeLineUnclaimedBy(id: BadgeId)
    ensures !Recognises(id, AllContributorsBadgeLine)
  {
    var line := AllContributorsBadgeLine;
    match id
    case AllContributors =>
      BadgeLineLacks('L');
      assert AllContributorsBadgeStart[1] == 'L';
      MissingCharRulesOut(line, AllContributorsBadgeStart, 'L');
    case License =>
      BadgeLineLacks('L');
      assert LicenseLabel[0] == 'L';
      MissingCharRulesOut(line, LicenseLabel, 'L');
    case Sponsor =>
      BadgeLineLacks('S');
      assert SponsorLabel[0] == 'S';
      MissingCharRulesOut(line, SponsorLabel, 'S');
    case Prettier =>
      BadgeLineLacks('S');
      assert PrettierLabel[0] == 'S';
      MissingCharRulesOut(line, PrettierLabel, 'S');
    case TypeScriptStrict =>
      BadgeLineLacks('T');
      assert TypeScriptStrictLabel[0] == 'T';
      MissingCharRulesOut(line, TypeScriptStrictLabel, 'T');
    case Codecov =>
      BadgeLineLacksPair('v', '.');
      assert CodecovHome[14] == 'v' && CodecovHome[15] == '.';
      MissingPairRulesOut(line, CodecovHome, 14, 'v', '.');
    case ContributorCovenant =>
      BadgeLineLacksPair('r', ' ');
      assert CovenantLabel[10] == 'r' && CovenantLabel[11] == ' ';
      MissingPairRulesOut(line, CovenantLabel, 10, 'r', ' ');
    case NpmVersion =>
      BadgeLineLacksPair('k', 'a');
      assert NpmVersionLabel[7] == 'k' && NpmVersionLabel[8] == 'a';
      MissingPairRulesOut(line, NpmVersionLabel, 7, 'k', 'a');
  }

  lemma BadgeLineLacks(c: char)
    requires c in "LST"
    ensures c !in AllContributorsBadgeLine
  {
    BadgeImageLacks(c);
    assert c !in "<a href=\"";
    assert c !in "#contributors";
    assert c !in "\" target=\"_blank\">";
    assert c !in "</a>";
  }

  lemma BadgeImageLacks(c: char)
    requires c in "LST"
    ensures c !in ImgTag("All Contributors: 2", ShieldsBadge + "all_contributors-17-21bb42" + ".svg", " />")
  {
    assert c !in "<img alt=\"";
    assert c !in "All Contributors: 2";
    assert c !in "\" src=\"";
    assert c !in ShieldsBadge;
    assert c !in "all_contributors-17-21bb42";
    assert c !in ".svg";
    assert c !in "\"" + " />";
  }

  /** The adjacent pairs `v.`, `r ` and `ka` never occur in the badge line. */
  lemma BadgeLineLacksPair(c1: char, c2: char)
    requires (c1, c2) == ('v', '.') || (c1, c2) == ('r', ' ') || (c1, c2) == ('k', 'a')
    ensures LacksPair(AllContributorsBadgeLine, c1, c2)
  {
    var img := ImgTag("All Contributors: 2", ShieldsBadge + "all_contributors-17-21bb42" + ".svg", " />");
    BadgeImageLacksPair(c1, c2);
    LacksPairConcat("<a href=\"", "#contributors", c1, c2);
    LacksPairConcat("<a href=\"" + "#contributors", "\" target=\"_blank\">", c1, c2);
    LacksPairConcat("<a href=\"" + "#contributors" + "\" target=\"_blank\">", img, c1, c2);
    LacksPairConcat("<a href=\"" + "#contributors" + "\" target=\"_blank\">" + img, "</a>", c1, c2);
  }

  lemma BadgeImageLacksPair(c1: char, c2: char)
    requires (c1, c2) == ('v', '.') || (c1, c2) == ('r', ' ') || (c1, c2) == ('k', 'a')
    ensures LacksPair(ImgTag("All Contributors: 2", ShieldsBadge + "all_contributors-17-21bb42" + ".svg", " />"), c1, c2)
  {
    var src := ShieldsBadge + "all_contributors-17-21bb42" + ".svg";
    BadgeSourceLacksPair(c1, c2);
    LacksPairConcat("<img alt=\"", "All Contributors: 2", c1, c2);
    LacksPairConcat("<img alt=\"" + "All Contributors: 2", "\" src=\"", c1, c2);
    LacksPairConcat("<img alt=\"" + "All Contributors: 2" + "\" src=\"", src, c1, c2);
    LacksPairConcat("<img alt=\"" + "All Contributors: 2" + "\" src=\"" + src, "\"", c1, c2);
    LacksPairConcat("<img alt=\"" + "All Contributors: 2" + "\" src=\"" + src + "\"", " />", c1, c2);
  }

  lemma BadgeSourceLacksPair(c1: char, c2: char)
    requires (c1, c2) == ('v', '.') || (c1, c2) == ('r', ' ') || (c1, c2) == ('k', 'a')
    ensures LacksPair(ShieldsBadge + "all_contributors-17-21bb42" + ".svg", c1, c2)
  {
    LacksPairConcat(ShieldsBadge, "all_contributors-17-21bb42", c1, c2);
    LacksPairConcat(ShieldsBadge + "all_contributors-17-21bb42", ".svg", c1, c2);
  }
}
