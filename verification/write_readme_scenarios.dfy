/** The four documented runs of `writeReadme`, each stated as the exact list
    of lines written to README.md. */
module WriteReadmeScenarios {
  import opened Wrappers
  import opened Text
  import opened Markup
  import opened SharedTypes
  import opened BadgeCatalog
  import opened TopContent
  import opened TopContentScenarios
  import opened WriteReadme

  /** A funded project in `create` mode, contributors not excluded. */
  const Funded := Options("Test description.", None, Some("TestFunding"), Create, "TestOwner", "test-repository", "Test Title")

  const FundedHeader: seq<string> :=
    [CenteredHeading("Test Title"), "", Centered("Test description."), ""]

  /** The canonical badge lines of the funded project, Sponsor included. */
  const FundedBadges: seq<string> :=
    AllContributorsBlock
    + [CodecovBadge("TestOwner", "test-repository"),
       CovenantBadge("TestOwner", "test-repository"),
       LicenseBadge("TestOwner", "test-repository"),
       SponsorBadge("TestFunding"),
       PrettierBadge,
       TypeScriptStrictBadge,
       NpmVersionBadge("test-repository")]

  /** The top content of the funded project's first README. */
  const FreshTop: seq<string> :=
    FundedHeader + [BadgeParagraphOpen] + FundedBadges + [BadgeParagraphClose, ""] + SampleUsage

  /** The README written when none exists yet. */
  const FreshReadme: seq<string> :=
    FreshTop + [""] + ContributorsSection + [""] + TemplateNotice

  /** An absent README: the full document. */
  lemma AbsentReadmeWritten()
    ensures MergeReadme(Funded, []) == FreshReadme
  {
    AbsentReadmeWrittenFor(Funded);
  }

  lemma AbsentReadmeWrittenFor(o: Options)
    requires o == Funded
    ensures MergeReadme(o, []) == FreshReadme
  {
    EmptyPriorYieldsFullDocument(o);
    FundedRun(o, [], []);
    ParagraphThenUsage(FundedHeader, FundedBadges, [], SampleUsage);
    var none: seq<string> := [];
    assert FundedBadges + none == FundedBadges;
    RegroupDocument(FreshTop, ContributorsSection, TemplateNotice);
  }

  /** Any `create` run for the funded project whose leftovers are `leftovers`. */
  lemma FundedRun(o: Options, existing: seq<string>, leftovers: seq<string>)
    requires o == Funded
    requires Unrecognised(o, existing) == leftovers
    ensures GenerateTopContent(o, existing)
      == FundedHeader + [BadgeParagraphOpen] + FundedBadges + leftovers + [BadgeParagraphClose] + ([""] + SampleUsage)
  {
    SponsoredBadgeOrder(o, "TestFunding");
    SampleUsageLines();
    TopContentLayout(o, existing);
    assert Header(o) + [""] == FundedHeader;
  }

  /** Regrouping the line groups of a document.
      Associativity only: a helper that keeps its callers' proofs small. */
  lemma RegroupDocument(top: seq<string>, section: seq<string>, notice: seq<string>)
    ensures top + ([""] + section) + [""] + notice == top + [""] + section + [""] + notice
  {
  }

  const SparsePrior: seq<string> := ["# Test Title"]

  lemma SparsePriorLine()
    ensures !IsHeading2("# Test Title") && !IsBadgeLine("# Test Title")
  {
    var l := "# Test Title";
    assert l[..3] == "# T" && "# T" != "## ";
    FirstCharRulesOut(l, "<a ");
    FirstCharRulesOut(l, "<img ");
  }

  /** A README holding only `# Test Title`: the title line is regenerated away
      and every section is added. */
  lemma SparseReadmeCompleted()
    ensures MergeReadme(Funded, SparsePrior) == FreshReadme
  {
    SparsePriorLine();
    SparsePriorSameAsEmpty(Funded, SparsePrior);
    AbsentReadmeWritten();
  }

  /** The same with `excludeAllContributors: false`. */
  lemma SparseReadmeWithContributorsIncluded()
    ensures MergeReadme(Funded.(excludeAllContributors := Some(false)), SparsePrior) == FreshReadme
  {
    ExcludeFalseSameAsUnset(Funded, SparsePrior);
    assert Funded.(excludeAllContributors := None) == Funded;
    SparseReadmeCompleted();
  }

  // ---- a README that already has its sections ----------------------------------

  /** A Codecov link whose image went missing. */
  const BareCodecov := Anchor(CodecovProject("TestOwner", "test-repository"), "")

  /** Badges already in place, the Codecov one without its image; no Sponsor
      and no npm badge yet. */
  const PriorBadges: seq<string> := [
    BareCodecov,
    CovenantBadge("TestOwner", "test-repository"),
    LicenseBadge("TestOwner", "test-repository"),
    PrettierBadge,
    TypeScriptStrictBadge
  ]

  const PriorHead: seq<string> :=
    [CenteredHeading("Test Title"), "", Centered("Test description."), "", BadgeParagraphOpen]

  /** The prior top, ending with two blank lines before the first section. */
  const PriorTop: seq<string> :=
    PriorHead + AllContributorsBlock + PriorBadges + [BadgeParagraphClose, "", ""]

  /** A footer crediting the template in other words than the generated one. */
  const BasedOnNotice :=
    "> " + BlueHeart + " This package is based on [@JoshuaKGoldberg](https://github.com/JoshuaKGoldberg)'s ["
    + TemplateName + ("](https://github.com/JoshuaKGoldberg/" + TemplateName + ").")

  /** The prior sections: a contributors table with extra blank lines and the
      footer above. */
  const PriorSections: seq<string> := [
    "## Contributors",
    "",
    Comment("spellchecker: disable"),
    Comment(ContributorsListStart + " - Do not remove or modify this section"),
    PrettierIgnoreStart,
    Comment("markdownlint-disable"),
    "<table>",
    Comment("(this will be filled in by all-contributors)"),
    "</table>",
    "",
    Comment("markdownlint-restore"),
    PrettierIgnoreEnd,
    "",
    Comment("ALL-CONTRIBUTORS-LIST:END"),
    Comment("spellchecker: enable"),
    "",
    RemovableNotice,
    "",
    BasedOnNotice
  ]

  const CompletePrior: seq<string> := PriorTop + PriorSections

  /** The canonical badges, the all-contributors line carried over once more
      at the end, the Usage block, then the prior sections untouched. */
  const CompletedReadme: seq<string> :=
    FundedHeader + [BadgeParagraphOpen] + FundedBadges + [AllContributorsBadgeLine] + [BadgeParagraphClose, ""]
    + SampleUsage + [""] + PriorSections

  /** Neither the contributors section nor the notice is duplicated. */
  lemma CompleteReadmeNotDuplicated()
    ensures MergeReadme(Funded, CompletePrior) == CompletedReadme
  {
    CompleteReadmeNotDuplicatedFor(Funded);
  }

  lemma CompleteReadmeNotDuplicatedFor(o: Options)
    requires o == Funded
    ensures MergeReadme(o, CompletePrior) == CompletedReadme
  {
    PriorSplit();
    PriorBadgesFound(PriorTop);
    PriorLeftovers(o);
    PriorSectionsKept(o);
    FundedRun(o, [AllContributorsBadgeLine] + PriorBadges, [AllContributorsBadgeLine]);
    ParagraphThenUsage(FundedHeader, FundedBadges, [AllContributorsBadgeLine], SampleUsage);
    MergeOfParts(o, CompletePrior,
      FundedHeader + [BadgeParagraphOpen] + FundedBadges + [AllContributorsBadgeLine] + [BadgeParagraphClose, ""] + SampleUsage);
  }

  /** The prior splits between its top and its sections. */
  lemma PriorSplit()
    ensures TopRegion(CompletePrior) == PriorTop && KeptTail(CompletePrior) == PriorSections
  {
    assert PriorSections[0][..3] == "## ";
    NotHeading2("");
    NotHeading2(BadgeParagraphClose);
    NotHeading2(BadgeParagraphOpen);
    NotHeading2(CenteredHeading("Test Title"));
    NotHeading2(Centered("Test description."));
    forall l | l in AllContributorsBlock ensures !IsHeading2(l) {
      if l == AllContributorsBadgeLine {
        BadgeLinesNoHeading2([l]);
      } else {
        NotHeading2(l);
      }
    }
    BadgeLinesNoHeading2(PriorBadges);
    assert forall l | l in PriorTop :: !IsHeading2(l);
    KeptTailAfter(PriorTop, PriorSections);
    FirstHeading2Append(PriorTop, PriorSections);
  }

  /** A comment, a paragraph or a heading tag is not a badge line. */
  lemma NotBadgeLine(line: string)
    requires |line| > 1 && line[1] != 'a' && line[1] != 'i'
    ensures !IsBadgeLine(line)
  {
  }

  lemma {:induction false} AllBadgeLines(lines: seq<string>)
    requires forall l | l in lines :: IsBadgeLine(l)
    ensures ExistingBadges(lines) == lines
  {
    if lines != [] {
      assert forall l | l in lines[1..] :: l in lines;
      AllBadgeLines(lines[1..]);
    }
  }

  lemma NoBadgeLines(lines: seq<string>)
    requires forall l | l in lines :: !IsBadgeLine(l)
    ensures ExistingBadges(lines) == []
  {
  }

  /** The badge snippets of the prior top: the all-contributors line, then
      the five badges. */
  lemma PriorBadgesFound(top: seq<string>)
    requires top == PriorTop
    ensures ExistingBadges(top) == [AllContributorsBadgeLine] + PriorBadges
  {
    var foot := [BadgeParagraphClose, "", ""];
    PriorHeadHasNoBadges(PriorHead);
    BlockHasOneBadgeLine(AllContributorsBlock);
    PriorBadgeLines(PriorBadges);
    PriorFootHasNoBadges(foot);
    ExistingBadgesOfFour(PriorHead, AllContributorsBlock, PriorBadges, foot,
      [], [AllContributorsBadgeLine], PriorBadges, []);
    NoneAround([AllContributorsBadgeLine], PriorBadges);
  }

  /** Dropping empty line groups.
      Associativity only: a helper that keeps its callers' proofs small. */
  lemma NoneAround(b: seq<string>, c: seq<string>)
    ensures [] + b + c + [] == b + c
  {
  }

  lemma ExistingBadgesOfFour(a: seq<string>, b: seq<string>, c: seq<string>, d: seq<string>,
                             ea: seq<string>, eb: seq<string>, ec: seq<string>, ed: seq<string>)
    requires ExistingBadges(a) == ea && ExistingBadges(b) == eb
    requires ExistingBadges(c) == ec && ExistingBadges(d) == ed
    ensures ExistingBadges(a + b + c + d) == ea + eb + ec + ed
  {
    ExistingBadgesAppend(a + b + c, d);
    ExistingBadgesAppend(a + b, c);
    ExistingBadgesAppend(a, b);
  }

  lemma PriorBadgeLines(badges: seq<string>)
    requires badges == PriorBadges
    ensures ExistingBadges(badges) == badges
  {
    AllBadgeLines(badges);
  }

  lemma PriorFootHasNoBadges(foot: seq<string>)
    requires foot == [BadgeParagraphClose, "", ""]
    ensures ExistingBadges(foot) == []
  {
    NotBadgeLine(BadgeParagraphClose);
    NoBadgeLines(foot);
  }

  lemma PriorHeadHasNoBadges(head: seq<string>)
    requires head == PriorHead
    ensures ExistingBadges(head) == []
  {
    NotBadgeLine(CenteredHeading("Test Title"));
    NotBadgeLine(Centered("Test description."));
    NotBadgeLine(BadgeParagraphOpen);
    NoBadgeLines(head);
  }

  /** Of the five lines between and including the all-contributors markers
      only the badge line itself is a badge snippet. */
  lemma BlockHasOneBadgeLine(block: seq<string>)
    requires block == AllContributorsBlock
    ensures ExistingBadges(block) == [AllContributorsBadgeLine]
  {
    var a := [PrettierIgnoreStart, AllContributorsBadgeStartComment];
    var b := [AllContributorsBadgeEndComment, PrettierIgnoreEnd];
    NotBadgeLine(PrettierIgnoreStart);
    NotBadgeLine(PrettierIgnoreEnd);
    NotBadgeLine(AllContributorsBadgeStartComment);
    NotBadgeLine(AllContributorsBadgeEndComment);
    NoBadgeLines(a);
    NoBadgeLines(b);
    AllBadgeLines([AllContributorsBadgeLine]);
    assert block == a + [AllContributorsBadgeLine] + b;
    ExistingBadgesAppend(a + [AllContributorsBadgeLine], b);
    ExistingBadgesAppend(a, [AllContributorsBadgeLine]);
  }

  /** Of those snippets only the all-contributors line is unclaimed. */
  lemma PriorLeftovers(o: Options)
    requires o == Funded
    ensures Unrecognised(o, [AllContributorsBadgeLine] + PriorBadges) == [AllContributorsBadgeLine]
  {
    AllContributorsBadgeLineUnclaimed(o);
    assert Unrecognised(o, [AllContributorsBadgeLine]) == [AllContributorsBadgeLine] by {
      assert [AllContributorsBadgeLine][1..] == [];
    }
    PriorBadgesClaimed(o);
    AllClaimed(o, PriorBadges);
    UnrecognisedAppend(o, [AllContributorsBadgeLine], PriorBadges);
  }

  lemma {:induction false} AllClaimed(o: Options, lines: seq<string>)
    requires forall l | l in lines :: RecognisedByAny(o, l)
    ensures Unrecognised(o, lines) == []
  {
    if lines != [] {
      assert lines[0] in lines;
      assert forall l | l in lines[1..] :: l in lines;
      AllClaimed(o, lines[1..]);
    }
  }

  lemma PriorBadgesClaimed(o: Options)
    requires o == Funded
    ensures forall l | l in PriorBadges :: RecognisedByAny(o, l)
  {
    CodecovProjectShowsHome("TestOwner", "test-repository");
    AnchorShows(CodecovProject("TestOwner", "test-repository"), "", CodecovHome);
    assert Recognises(Codecov, BareCodecov);
    RenderRecognisedByOwnEntry(o, ContributorCovenant);
    RenderRecognisedByOwnEntry(o, License);
    RenderRecognisedByOwnEntry(o, Prettier);
    RenderRecognisedByOwnEntry(o, TypeScriptStrict);
  }

  /** The prior sections have no Usage heading but already hold the list and
      a template notice, so nothing is appended after them. */
  lemma PriorSectionsKept(o: Options)
    ensures TopOptions(o, PriorSections) == o
    ensures Continuation(o, PriorSections) == [""] + PriorSections
  {
    PriorSectionsHaveNoUsage();
    PriorSectionsHaveList();
    PriorSectionsHaveNotice();
    NothingAppended(o, PriorSections);
  }

  lemma PriorSectionsHaveNoUsage()
    ensures !HasUsage(PriorSections)
  {
    assert UsageHeading[1] == '#' && |UsageHeading| == 8;
    forall i | 0 <= i < |PriorSections|
      ensures PriorSections[i] != UsageHeading
    {
    }
  }

  lemma PriorSectionsHaveList()
    ensures HasContributorsList(PriorSections)
  {
    var marker := Comment(ContributorsListStart + " - Do not remove or modify this section");
    ContainsSelf(ContributorsListStart);
    ContainsInLeft(ContributorsListStart, " - Do not remove or modify this section", ContributorsListStart);
    CommentShows(ContributorsListStart + " - Do not remove or modify this section", ContributorsListStart);
    assert PriorSections[3] == marker;
  }

  lemma PriorSectionsHaveNotice()
    ensures HasTemplateNotice(PriorSections)
  {
    CreditsTemplate("> ", " This package is based on [@JoshuaKGoldberg](https://github.com/JoshuaKGoldberg)'s [",
      "](https://github.com/JoshuaKGoldberg/" + TemplateName + ").");
    assert PriorSections[18] == BasedOnNotice;
  }
}
