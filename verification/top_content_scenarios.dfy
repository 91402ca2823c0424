/** The four documented runs of `generateTopContent`, each stated as the
    exact list of output lines. */
module TopContentScenarios {
  import opened Wrappers
  import opened Text
  import opened Markup
  import opened SharedTypes
  import opened BadgeCatalog
  import opened TopContent

  /** No funding account, contributors not excluded, `create` mode. */
  const Sample := Options("Test description", None, None, Create, "test-owner", "test-repository", "Test Title")

  const SampleHeader: seq<string> :=
    [CenteredHeading("Test Title"), "", Centered("Test description"), ""]

  /** The canonical badge lines for the sample project: no Sponsor badge. */
  const SampleBadges: seq<string> :=
    AllContributorsBlock
    + [CodecovBadge("test-owner", "test-repository"),
       CovenantBadge("test-owner", "test-repository"),
       LicenseBadge("test-owner", "test-repository"),
       PrettierBadge,
       TypeScriptStrictBadge,
       NpmVersionBadge("test-repository")]

  const SampleUsage: seq<string> :=
    ["## Usage", "", "```shell", "npm i test-repository", "```",
     "```ts", "import { greet } from \"test-repository\";", "", GreetCall, "```"]

  /** Header, the badge paragraph and the Usage block. */
  lemma NoExistingBadges()
    ensures GenerateTopContent(Sample, [])
      == SampleHeader + [BadgeParagraphOpen] + SampleBadges + [BadgeParagraphClose, ""] + SampleUsage
  {
    NoExistingBadgesFor(Sample);
  }

  lemma NoExistingBadgesFor(o: Options)
    requires o == Sample
    ensures GenerateTopContent(o, [])
      == SampleHeader + [BadgeParagraphOpen] + SampleBadges + [BadgeParagraphClose, ""] + SampleUsage
  {
    SampleRun(o, [], []);
    ParagraphThenUsage(SampleHeader, SampleBadges, [], SampleUsage);
    var none: seq<string> := [];
    assert SampleBadges + none == SampleBadges;
  }

  /** Any run for the sample project whose leftovers are `leftovers`. */
  lemma SampleRun(o: Options, existing: seq<string>, leftovers: seq<string>)
    requires o == Sample.(mode := o.mode)
    requires Unrecognised(o, existing) == leftovers
    ensures GenerateTopContent(o, existing)
      == SampleHeader + [BadgeParagraphOpen] + SampleBadges + leftovers + [BadgeParagraphClose]
         + (if o.mode == Create then [""] + SampleUsage else [])
  {
    UnsponsoredBadgeOrder(o);
    SampleUsageLines();
    TopContentLayout(o, existing);
    assert Header(o) + [""] == SampleHeader;
    var tail := if o.mode == Create then [""] + SampleUsage else [];
    Regroup(SampleHeader, CanonicalBadgeLines(o), leftovers, tail);
  }

  /** Regrouping the line groups of a top content.
      Associativity only: a helper that keeps its callers' proofs small. */
  lemma Regroup(head: seq<string>, badges: seq<string>, leftovers: seq<string>, tail: seq<string>)
    ensures head + [BadgeParagraphOpen] + badges + leftovers + [BadgeParagraphClose] + tail
      == head + [BadgeParagraphOpen] + badges + leftovers + ([BadgeParagraphClose] + tail)
  {
  }

  lemma SampleUsageLines()
    ensures UsageBlock("test-repository") == SampleUsage
  {
    var u := UsageBlock("test-repository");
    assert |u| == |SampleUsage| == 10;
    assert u[2] == "```shell";
    assert u[3] == "npm i test-repository";
    assert u[4] == "```";
    assert u[5] == "```ts";
    assert u[9] == "```";
    assert UsageBlock("test-repository")[6] == "import { greet } from \"test-repository\";";
  }

  /** The sample header, spelled out character for character. */
  lemma SampleHeaderText()
    ensures SampleHeader
      == ["<h1 align=\"center\">Test Title</h1>", "", "<p align=\"center\">Test description</p>", ""]
  {
    SampleTitleText();
    SampleDescriptionText();
  }

  lemma SampleTitleText()
    ensures CenteredHeading("Test Title") == "<h1 align=\"center\">Test Title</h1>"
  {
  }

  lemma SampleDescriptionText()
    ensures Centered("Test description") == "<p align=\"center\">Test description</p>"
  {
  }

  /** The comments that fence the badge lines off from Prettier, spelled out. */
  lemma PrettierIgnoreText()
    ensures PrettierIgnoreStart == "<!-- prettier-ignore-start -->"
    ensures PrettierIgnoreEnd == "<!-- prettier-ignore-end -->"
  {
    IgnoreStartText();
    IgnoreEndText();
  }

  lemma IgnoreStartText()
    ensures Comment("prettier-ignore-start") == "<!-- prettier-ignore-start -->"
  {
  }

  lemma IgnoreEndText()
    ensures Comment("prettier-ignore-end") == "<!-- prettier-ignore-end -->"
  {
  }

  /** A TypeScript Strict badge with a stale image source is replaced by the
      canonical one: the output is that of a run without existing badges. */
  lemma KnownBadgeReplaced()
    ensures GenerateTopContent(Sample, [ImgTag("TypeScript: Strict", "invalid svg", " />")])
      == SampleHeader + [BadgeParagraphOpen] + SampleBadges + [BadgeParagraphClose, ""] + SampleUsage
  {
    KnownBadgeReplacedFor(Sample, ImgTag(TypeScriptStrictLabel, "invalid svg", " />"));
  }

  lemma KnownBadgeReplacedFor(o: Options, stale: string)
    requires o == Sample && stale == ImgTag(TypeScriptStrictLabel, "invalid svg", " />")
    ensures GenerateTopContent(o, [stale])
      == SampleHeader + [BadgeParagraphOpen] + SampleBadges + [BadgeParagraphClose, ""] + SampleUsage
  {
    ContainsSelf(TypeScriptStrictLabel);
    ImgTagShows(TypeScriptStrictLabel, "invalid svg", " />", TypeScriptStrictLabel);
    assert Recognises(TypeScriptStrict, stale);
    UnrecognisedSingle(o, stale);
    SameLeftoversSameOutput(o, [stale], []);
    NoExistingBadgesFor(o);
  }

  /** A badge no catalog entry recognises is kept verbatim after the npm
      version badge, right before the closing `</p>`. */
  lemma UnknownBadgeKeptAtEnd()
    ensures GenerateTopContent(Sample, [ImgTag("Unknown Badge", "unknown.svg", " />")])
      == SampleHeader + [BadgeParagraphOpen] + SampleBadges
         + [ImgTag("Unknown Badge", "unknown.svg", " />")] + [BadgeParagraphClose, ""] + SampleUsage
  {
    UnknownBadgeUnrecognised();
    UnknownBadgeKeptAtEndFor(Sample, ImgTag("Unknown Badge", "unknown.svg", " />"));
  }

  lemma UnknownBadgeKeptAtEndFor(o: Options, unknown: string)
    requires o == Sample && !RecognisedByAny(o, unknown)
    ensures GenerateTopContent(o, [unknown])
      == SampleHeader + [BadgeParagraphOpen] + SampleBadges + [unknown] + [BadgeParagraphClose, ""] + SampleUsage
  {
    UnrecognisedSingle(o, unknown);
    SampleRun(o, [unknown], [unknown]);
    ParagraphThenUsage(SampleHeader, SampleBadges, [unknown], SampleUsage);
  }

  lemma UnknownBadgeUnrecognised()
    ensures !RecognisedByAny(Sample, ImgTag("Unknown Badge", "unknown.svg", " />"))
  {
    var unknown := ImgTag("Unknown Badge", "unknown.svg", " />");
    forall id | id in Applicable(Sample)
      ensures !Recognises(id, unknown)
    {
      var c := FingerprintLetter(id);
      UnknownBadgeLacks(c);
      MissingCharRulesOut(unknown, Fingerprint(id), c);
    }
  }

  /** A character of each fingerprint that the unknown badge does not use. */
  function FingerprintLetter(id: BadgeId): (c: char)
    ensures c in Fingerprint(id)
  {
    match id
    case AllContributors => assert Fingerprint(id)[1] == 'L'; 'L'
    case Codecov => assert Fingerprint(id)[0] == 'h'; 'h'
    case ContributorCovenant => assert Fingerprint(id)[0] == 'C'; 'C'
    case License => assert Fingerprint(id)[0] == 'L'; 'L'
    case Sponsor => assert Fingerprint(id)[0] == 'S'; 'S'
    case Prettier => assert Fingerprint(id)[0] == 'S'; 'S'
    case TypeScriptStrict => assert Fingerprint(id)[0] == 'T'; 'T'
    case NpmVersion => assert Fingerprint(id)[1] == 'p'; 'p'
  }

  lemma UnknownBadgeLacks(c: char)
    requires c in "LhCSTp"
    ensures c !in ImgTag("Unknown Badge", "unknown.svg", " />")
  {
    assert c !in "<img alt=\"";
    assert c !in "Unknown Badge";
    assert c !in "\" src=\"";
    assert c !in "unknown.svg";
    assert c !in "\"" + " />";
  }

  /** In `migrate` mode the output ends at the closing `</p>`. */
  lemma MigrateHasNoUsage()
    ensures GenerateTopContent(Sample.(mode := Migrate), [])
      == SampleHeader + [BadgeParagraphOpen] + SampleBadges + [BadgeParagraphClose]
  {
    MigrateHasNoUsageFor(Sample.(mode := Migrate));
  }

  lemma MigrateHasNoUsageFor(o: Options)
    requires o == Sample.(mode := Migrate)
    ensures GenerateTopContent(o, [])
      == SampleHeader + [BadgeParagraphOpen] + SampleBadges + [BadgeParagraphClose]
  {
    SampleRun(o, [], []);
    NothingAround(SampleHeader + [BadgeParagraphOpen] + SampleBadges, [BadgeParagraphClose]);
  }

  /** Dropping empty line groups.
      Associativity only: a helper that keeps its callers' proofs small. */
  lemma NothingAround(a: seq<string>, b: seq<string>)
    ensures a + [] + b + [] == a + b
  {
  }
}
