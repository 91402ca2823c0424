/** `generateTopContent(options, existingBadges)`: the part of the README above
    its first level-2 heading. A centred title and description, a centred
    badge paragraph that reconciles the snippets already present with the
    badge catalog, and, for a freshly created project, a Usage block. */
module TopContent {
  import opened Wrappers
  import opened Text
  import opened Markup
  import opened SharedTypes
  import opened BadgeCatalog

  /** Centred title, a blank line, centred description. */
  function Header(o: Options): (r: seq<string>)
    ensures |r| == 3 && r[1] == ""
  {
    [CenteredHeading(o.title), "", Centered(o.description)]
  }

  const BadgeParagraphOpen := "<p align=\"center\">"
  const BadgeParagraphClose := "</p>"

  /** The renderings of `ids`, one after the other. */
  function RenderAll(o: Options, ids: seq<BadgeId>): seq<string>
  {
    if ids == [] then [] else Render(o, ids[0]) + RenderAll(o, ids[1..])
  }

  /** Every applicable catalog entry, rendered canonically, in catalog order. */
  function CanonicalBadgeLines(o: Options): seq<string>
  {
    RenderAll(o, Applicable(o))
  }

  /** The existing snippets that no applicable catalog entry recognises,
      in their original order. */
  function Unrecognised(o: Options, existing: seq<string>): (r: seq<string>)
    ensures forall s :: s in r <==> s in existing && !RecognisedByAny(o, s)
    ensures |r| <= |existing|
  {
    if existing == [] then []
    else if Classify(o, existing[0]).Known? then Unrecognised(o, existing[1..])
    else [existing[0]] + Unrecognised(o, existing[1..])
  }

  /** The badge lines: canonical badges first, then the leftovers verbatim. */
  function ReconciledBadges(o: Options, existing: seq<string>): seq<string>
  {
    CanonicalBadgeLines(o) + Unrecognised(o, existing)
  }

  function BadgeParagraph(o: Options, existing: seq<string>): seq<string>
  {
    [BadgeParagraphOpen] + ReconciledBadges(o, existing) + [BadgeParagraphClose]
  }

  const Fence := "```"
  const GreetCall := "greet(\"Hello, world! \U{1F496}\");"

  /** How to install and call the package named `repository`. */
  function UsageBlock(repository: string): (r: seq<string>)
    ensures |r| == 10 && r[0] == "## Usage"
  {
    ["## Usage", "", Fence + "shell", "npm i " + repository, Fence,
     Fence + "ts", "import { greet } from \"" + repository + "\";", "", GreetCall, Fence]
  }

  function GenerateTopContent(o: Options, existing: seq<string>): (r: seq<string>)
    ensures |r| == 6 + |CanonicalBadgeLines(o)| + |Unrecognised(o, existing)| + (if o.mode == Create then 11 else 0)
    ensures forall s {:trigger RecognisedByAny(o, s)} | s in existing && !RecognisedByAny(o, s) :: s in r
  {
    Header(o) + [""] + BadgeParagraph(o, existing)
    + (if o.mode == Create then [""] + UsageBlock(o.repository) else [])
  }

  /** Regrouping a badge paragraph followed by the Usage block.
      Associativity only: a helper that keeps its callers' proofs small. */
  lemma ParagraphThenUsage(head: seq<string>, badges: seq<string>, leftovers: seq<string>, usage: seq<string>)
    ensures head + [BadgeParagraphOpen] + badges + leftovers + [BadgeParagraphClose] + ([""] + usage)
      == head + [BadgeParagraphOpen] + (badges + leftovers) + [BadgeParagraphClose, ""] + usage
      == head + [BadgeParagraphOpen] + badges + leftovers + [BadgeParagraphClose, ""] + usage
  {
  }

  /** The top content laid out line group by line group. */
  lemma TopContentLayout(o: Options, existing: seq<string>)
    ensures GenerateTopContent(o, existing)
      == (Header(o) + [""]) + [BadgeParagraphOpen] + CanonicalBadgeLines(o) + Unrecognised(o, existing)
         + [BadgeParagraphClose] + (if o.mode == Create then [""] + UsageBlock(o.repository) else [])
  {
    var rest := if o.mode == Create then [""] + UsageBlock(o.repository) else [];
    ParagraphRegroup(Header(o) + [""], CanonicalBadgeLines(o), Unrecognised(o, existing), rest);
  }

  /** Regrouping the badge paragraph.
      Associativity only: a helper that keeps its callers' proofs small. */
  lemma ParagraphRegroup(head: seq<string>, canonical: seq<string>, left: seq<string>, rest: seq<string>)
    ensures head + ([BadgeParagraphOpen] + (canonical + left) + [BadgeParagraphClose]) + rest
      == head + [BadgeParagraphOpen] + canonical + left + [BadgeParagraphClose] + rest
  {
  }

  /** The top content opens with the header and a blank line; in `migrate`
      mode it ends with the closing `</p>` of the badge paragraph, in `create`
      mode with the Usage block. */
  lemma TopContentShape(o: Options, existing: seq<string>)
    ensures var r := GenerateTopContent(o, existing);
      |r| >= 6 && r[..3] == Header(o) && r[3] == ""
      && (o.mode == Migrate ==> r[|r| - 1] == BadgeParagraphClose)
      && (o.mode == Create ==> |r| >= 10 && r[|r| - 10..] == UsageBlock(o.repository))
  {
    var r := GenerateTopContent(o, existing);
    assert r[..3] == Header(o);
  }

  // ---- rendering ---------------------------------------------------------------

  lemma {:induction false} RenderAllAppend(o: Options, a: seq<BadgeId>, b: seq<BadgeId>)
    ensures RenderAll(o, a + b) == RenderAll(o, a) + RenderAll(o, b)
  {
    if a == [] {
      assert a + b == b;
    } else {
      assert (a + b)[0] == a[0];
      assert (a + b)[1..] == a[1..] + b;
      RenderAllAppend(o, a[1..], b);
      calc {
        RenderAll(o, a + b);
        Render(o, a[0]) + RenderAll(o, a[1..] + b);
        Render(o, a[0]) + (RenderAll(o, a[1..]) + RenderAll(o, b));
        (Render(o, a[0]) + RenderAll(o, a[1..])) + RenderAll(o, b);
      }
    }
  }

  /** The canonical badge lines: the all-contributors block, Codecov,
      Contributor Covenant, License, the Sponsor badge exactly when a funding
      account is set, Prettier, TypeScript Strict and npm version. */
  lemma CanonicalBadgeOrder(o: Options)
    ensures CanonicalBadgeLines(o) ==
      AllContributorsBlock
      + [CodecovBadge(o.owner, o.repository), CovenantBadge(o.owner, o.repository), LicenseBadge(o.owner, o.repository)]
      + (match o.funding case Some(f) => [SponsorBadge(f)] case None => [])
      + [PrettierBadge, TypeScriptStrictBadge, NpmVersionBadge(o.repository)]
  {
    var front := [AllContributors, Codecov, ContributorCovenant, License];
    var sponsor := if o.funding.Some? then [Sponsor] else [];
    var back := [Prettier, TypeScriptStrict, NpmVersion];
    RenderAllAppend(o, front + sponsor, back);
    RenderAllAppend(o, front, sponsor);
    FrontBadges(o);
    BackBadges(o);
    if o.funding.Some? {
      RenderAllSingle(o, Sponsor);
    }
  }

  lemma FrontBadges(o: Options)
    ensures RenderAll(o, [AllContributors, Codecov, ContributorCovenant, License])
      == AllContributorsBlock
         + [CodecovBadge(o.owner, o.repository), CovenantBadge(o.owner, o.repository), LicenseBadge(o.owner, o.repository)]
  {
    RenderAllSingle(o, AllContributors);
    RenderAllAppend(o, [AllContributors], [Codecov, ContributorCovenant, License]);
    RenderAllAppend(o, [Codecov], [ContributorCovenant, License]);
    RenderAllAppend(o, [ContributorCovenant], [License]);
  }

  lemma BackBadges(o: Options)
    ensures RenderAll(o, [Prettier, TypeScriptStrict, NpmVersion])
      == [PrettierBadge, TypeScriptStrictBadge, NpmVersionBadge(o.repository)]
  {
    RenderAllAppend(o, [Prettier], [TypeScriptStrict, NpmVersion]);
    RenderAllAppend(o, [TypeScriptStrict], [NpmVersion]);
  }

  /** With a funding account the Sponsor badge sits between License and Prettier. */
  lemma SponsoredBadgeOrder(o: Options, account: string)
    requires o.funding == Some(account)
    ensures CanonicalBadgeLines(o) ==
      AllContributorsBlock
      + [CodecovBadge(o.owner, o.repository), CovenantBadge(o.owner, o.repository), LicenseBadge(o.owner, o.repository),
         SponsorBadge(account), PrettierBadge, TypeScriptStrictBadge, NpmVersionBadge(o.repository)]
  {
    CanonicalBadgeOrder(o);
  }

  /** Without one, License is directly followed by Prettier. */
  lemma UnsponsoredBadgeOrder(o: Options)
    requires o.funding == None
    ensures CanonicalBadgeLines(o) ==
      AllContributorsBlock
      + [CodecovBadge(o.owner, o.repository), CovenantBadge(o.owner, o.repository), LicenseBadge(o.owner, o.repository),
         PrettierBadge, TypeScriptStrictBadge, NpmVersionBadge(o.repository)]
  {
    CanonicalBadgeOrder(o);
  }

  lemma RenderAllSingle(o: Options, id: BadgeId)
    ensures RenderAll(o, [id]) == Render(o, id)
  {
    assert [id][1..] == [];
  }

  // ---- reconciliation ------------------------------------------------------------

  lemma {:induction false} UnrecognisedAppend(o: Options, a: seq<string>, b: seq<string>)
    ensures Unrecognised(o, a + b) == Unrecognised(o, a) + Unrecognised(o, b)
  {
    if a == [] {
      assert a + b == b;
    } else {
      assert (a + b)[0] == a[0];
      assert (a + b)[1..] == a[1..] + b;
      UnrecognisedAppend(o, a[1..], b);
      if !RecognisedByAny(o, a[0]) {
        assert Unrecognised(o, a + b) == [a[0]] + (Unrecognised(o, a[1..]) + Unrecognised(o, b));
      }
    }
  }

  /** Leftovers are never filtered again: reconciling them a second time
      keeps every one of them, in order. */
  lemma {:induction false} UnrecognisedIdempotent(o: Options, existing: seq<string>)
    ensures Unrecognised(o, Unrecognised(o, existing)) == Unrecognised(o, existing)
  {
    if existing != [] {
      UnrecognisedIdempotent(o, existing[1..]);
      if !RecognisedByAny(o, existing[0]) {
        var rest := Unrecognised(o, existing[1..]);
        assert ([existing[0]] + rest)[1..] == rest;
      }
    }
  }

  /** A single snippet is left over exactly when no applicable entry recognises it. */
  lemma UnrecognisedSingle(o: Options, snippet: string)
    ensures Unrecognised(o, [snippet]) == (if RecognisedByAny(o, snippet) then [] else [snippet])
  {
    assert [snippet][1..] == [];
  }

  /** A snippet recognised as a catalog badge leaves no trace: the output is
      the one produced without it, the canonical rendering taking its place. */
  lemma KnownSnippetReplaced(o: Options, before: seq<string>, known: string, after: seq<string>)
    requires RecognisedByAny(o, known)
    ensures GenerateTopContent(o, before + [known] + after) == GenerateTopContent(o, before + after)
  {
    var b, a := Unrecognised(o, before), Unrecognised(o, after);
    assert Unrecognised(o, [known]) == [] by { assert [known][1..] == []; }
    UnrecognisedAppend(o, before, [known]);
    assert Unrecognised(o, before + [known]) == b;
    UnrecognisedAppend(o, before + [known], after);
    UnrecognisedAppend(o, before, after);
    assert Unrecognised(o, before + [known] + after) == b + a;
    SameLeftoversSameOutput(o, before + [known] + after, before + after);
  }

  /** The existing snippets influence the output only through the leftovers. */
  lemma SameLeftoversSameOutput(o: Options, e1: seq<string>, e2: seq<string>)
    requires Unrecognised(o, e1) == Unrecognised(o, e2)
    ensures GenerateTopContent(o, e1) == GenerateTopContent(o, e2)
  {
  }

  /** A snippet no catalog entry recognises is kept verbatim, at its place
      among the other leftovers. */
  lemma UnknownSnippetKept(o: Options, before: seq<string>, unknown: string, after: seq<string>)
    requires !RecognisedByAny(o, unknown)
    ensures Unrecognised(o, before + [unknown] + after)
      == Unrecognised(o, before) + [unknown] + Unrecognised(o, after)
  {
    UnrecognisedAppend(o, before + [unknown], after);
    UnrecognisedAppend(o, before, [unknown]);
    assert Unrecognised(o, [unknown]) == [unknown] by { assert [unknown][1..] == []; }
  }

  /** The leftovers sit after every canonical badge and right before the
      closing `</p>` of the badge paragraph. */
  lemma LeftoversCloseBadgeParagraph(o: Options, existing: seq<string>)
    ensures var r := GenerateTopContent(o, existing);
      var start := 5 + |CanonicalBadgeLines(o)|;
      var left := Unrecognised(o, existing);
      r[4] == BadgeParagraphOpen
      && r[5..start] == CanonicalBadgeLines(o)
      && r[start..start + |left|] == left
      && r[start + |left|] == BadgeParagraphClose
  {
    var rest := if o.mode == Create then [""] + UsageBlock(o.repository) else [];
    Layout(Header(o) + [""], BadgeParagraphOpen, CanonicalBadgeLines(o), Unrecognised(o, existing), BadgeParagraphClose, rest);
  }

  lemma Layout(head: seq<string>, open: string, c: seq<string>, left: seq<string>, close: string, rest: seq<string>)
    ensures var r := head + ([open] + (c + left) + [close]) + rest;
      var start := |head| + 1 + |c|;
      r[|head|] == open
      && r[|head| + 1..start] == c
      && r[start..start + |left|] == left
      && r[start + |left|] == close
  {
    var r := head + ([open] + (c + left) + [close]) + rest;
    var start := |head| + 1 + |c|;
    assert r[|head| + 1..start] == c by {
      forall k | 0 <= k < |c| ensures r[|head| + 1 + k] == c[k] { }
    }
    assert r[start..start + |left|] == left by {
      forall k | 0 <= k < |left| ensures r[start + k] == left[k] { }
    }
  }

  // ---- mode ----------------------------------------------------------------------

  /** `create` and `migrate` differ only in the trailing Usage block. */
  lemma ModeOnlyAffectsUsage(o: Options, existing: seq<string>)
    ensures GenerateTopContent(o.(mode := Create), existing)
      == GenerateTopContent(o.(mode := Migrate), existing) + [""] + UsageBlock(o.repository)
  {
    BadgeParagraphSameProject(o.(mode := Create), o.(mode := Migrate), existing);
  }

  /** Two runs for the same project (same owner, repository and funding
      account) produce the same badge paragraph, whatever their other options. */
  lemma BadgeParagraphSameProject(o1: Options, o2: Options, existing: seq<string>)
    requires SameProject(o1, o2)
    ensures BadgeParagraph(o1, existing) == BadgeParagraph(o2, existing)
  {
    assert Applicable(o1) == Applicable(o2);
    RenderAllSameProject(o1, o2, Applicable(o1));
    UnrecognisedSameProject(o1, o2, existing);
  }

  predicate SameProject(o1: Options, o2: Options)
  {
    o1.funding == o2.funding && o1.owner == o2.owner && o1.repository == o2.repository
  }

  lemma {:induction false} RenderAllSameProject(o1: Options, o2: Options, ids: seq<BadgeId>)
    requires SameProject(o1, o2)
    ensures RenderAll(o1, ids) == RenderAll(o2, ids)
  {
    if ids != [] {
      RenderAllSameProject(o1, o2, ids[1..]);
    }
  }

  lemma {:induction false} UnrecognisedSameProject(o1: Options, o2: Options, existing: seq<string>)
    requires SameProject(o1, o2)
    ensures Unrecognised(o1, existing) == Unrecognised(o2, existing)
  {
    if existing != [] {
      UnrecognisedSameProject(o1, o2, existing[1..]);
      assert Applicable(o1) == Applicable(o2);
    }
  }

  /** The header shows the project's title and description. */
  lemma HeaderNamesProject(o: Options)
    ensures Contains(Header(o)[0], o.title) && Contains(Header(o)[2], o.description)
  {
  }

  /** The Usage block installs and imports the package named after the repository. */
  lemma UsageNamesPackage(repository: string)
    ensures Contains(UsageBlock(repository)[3], repository)
    ensures Contains(UsageBlock(repository)[6], "\"" + repository + "\"")
  {
    ContainsSelf(repository);
    ContainsInRight("npm i ", repository, repository);
    var quoted := "\"" + repository + "\"";
    assert UsageBlock(repository)[6] == "import { greet } from " + quoted + ";";
    ContainsBetween("import { greet } from ", quoted, ";");
  }
}
