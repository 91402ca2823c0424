/** The text merge performed by `writeReadme`: from the options and the prior
    README (as lines; an absent file reads as no lines) to the new README.
    Everything above the first level-2 heading is regenerated from the badge
    snippets found there; everything from that heading on is kept verbatim,
    and the contributors section and the template notice are appended when
    the kept part lacks them. */
module WriteReadme {
  import opened Wrappers
  import opened Text
  import opened Markup
  import opened SharedTypes
  import opened BadgeCatalog
  import opened TopContent

  predicate IsHeading2(line: string)
  {
    StartsWith(line, "## ")
  }

  /** Index of the first level-2 heading, `|doc|` when there is none. */
  function FirstHeading2(doc: seq<string>): (i: nat)
    ensures i <= |doc|
    ensures i < |doc| ==> IsHeading2(doc[i])
    ensures forall j | 0 <= j < i :: !IsHeading2(doc[j])
  {
    if doc == [] then 0
    else if IsHeading2(doc[0]) then 0
    else 1 + FirstHeading2(doc[1..])
  }

  /** The region that is regenerated. */
  function TopRegion(doc: seq<string>): seq<string>
  {
    doc[..FirstHeading2(doc)]
  }

  /** The region that is carried over verbatim. */
  function KeptTail(doc: seq<string>): seq<string>
  {
    doc[FirstHeading2(doc)..]
  }

  /** A line holding one inline badge snippet: a link or an image. */
  predicate IsBadgeLine(line: string)
  {
    StartsWith(line, "<a ") || StartsWith(line, "<img ")
  }

  /** The badge snippets of `lines`, in order. */
  function ExistingBadges(lines: seq<string>): (r: seq<string>)
    ensures forall l :: l in r <==> l in lines && IsBadgeLine(l)
    ensures |r| <= |lines|
  {
    if lines == [] then []
    else if IsBadgeLine(lines[0]) then [lines[0]] + ExistingBadges(lines[1..])
    else ExistingBadges(lines[1..])
  }

  const UsageHeading := "## Usage"
  const ContributorsListStart := "ALL-CONTRIBUTORS-LIST:START"
  const BlueHeart := "\U{1F499}"
  const TemplateName := "create-typescript-app"

  predicate HasUsage(tail: seq<string>)
  {
    UsageHeading in tail
  }

  predicate HasContributorsList(tail: seq<string>)
  {
    exists l | l in tail :: Contains(l, ContributorsListStart)
  }

  /** The closing notice credits the template: it carries the blue heart and
      the template's name, whatever its wording. */
  predicate IsTemplateNotice(line: string)
  {
    Contains(line, BlueHeart) && Contains(line, TemplateName)
  }

  predicate HasTemplateNotice(tail: seq<string>)
  {
    exists l | l in tail :: IsTemplateNotice(l)
  }

  /** The all-contributors table between its markers, still empty. */
  const ContributorsSection: seq<string> := [
    "## Contributors",
    Comment("spellchecker: disable"),
    Comment(ContributorsListStart + " - Do not remove or modify this section"),
    PrettierIgnoreStart,
    Comment("markdownlint-disable"),
    "<table>",
    Comment("(this will be filled in by all-contributors)"),
    "</table>",
    Comment("markdownlint-restore"),
    PrettierIgnoreEnd,
    Comment("ALL-CONTRIBUTORS-LIST:END"),
    Comment("spellchecker: enable")
  ]

  const RemovableNotice := Comment("You can remove this notice if you don't want it \U{1F642} no worries!")

  const TemplatedWith :=
    "> " + BlueHeart + " This package was templated with [`" + TemplateName
    + ("`](https://github.com/JoshuaKGoldberg/" + TemplateName + ").")

  const TemplateNotice: seq<string> := [RemovableNotice, "", TemplatedWith]

  /** A Usage section already kept from the prior text is not generated a
      second time: the top is then produced as for a migration. */
  function TopOptions(o: Options, tail: seq<string>): (r: Options)
    ensures r.mode == (if HasUsage(tail) then Migrate else o.mode)
    ensures r.(mode := o.mode) == o
  {
    if HasUsage(tail) then o.(mode := Migrate) else o
  }

  /** What follows the regenerated top: the kept part, then whichever of the
      contributors section and the template notice it lacks. */
  function Continuation(o: Options, tail: seq<string>): seq<string>
  {
    Appended(tail, IncludesAllContributors(o), ContributorsSection, TemplateNotice)
  }

  /** `tail` (after a blank line), then `section` when `wanted` and the tail has
      no contributors list, then `notice` when the tail has no template notice. */
  function Appended(tail: seq<string>, wanted: bool, section: seq<string>, notice: seq<string>): seq<string>
  {
    (if tail == [] then [] else [""] + tail)
    + (if wanted && !HasContributorsList(tail) then [""] + section else [])
    + (if HasTemplateNotice(tail) then [] else [""] + notice)
  }

  function MergeReadme(o: Options, prior: seq<string>): seq<string>
  {
    var tail := KeptTail(prior);
    GenerateTopContent(TopOptions(o, tail), ExistingBadges(TopRegion(prior))) + Continuation(o, tail)
  }

  // ---- splitting the prior text ----------------------------------------------------

  lemma SplitRecombines(doc: seq<string>)
    ensures TopRegion(doc) + KeptTail(doc) == doc
    ensures forall l | l in TopRegion(doc) :: !IsHeading2(l)
    ensures KeptTail(doc) != [] ==> IsHeading2(KeptTail(doc)[0])
  {
  }

  lemma {:induction false} FirstHeading2Append(a: seq<string>, b: seq<string>)
    requires forall l | l in a :: !IsHeading2(l)
    ensures FirstHeading2(a + b) == |a| + FirstHeading2(b)
  {
    if a == [] {
      assert a + b == b;
    } else {
      assert (a + b)[0] == a[0] && !IsHeading2(a[0]);
      assert (a + b)[1..] == a[1..] + b;
      assert forall l | l in a[1..] :: l in a;
      FirstHeading2Append(a[1..], b);
      calc {
        FirstHeading2(a + b);
        1 + FirstHeading2((a + b)[1..]);
        1 + FirstHeading2(a[1..] + b);
        1 + |a[1..]| + FirstHeading2(b);
      }
    }
  }

  lemma {:induction false} ExistingBadgesAppend(a: seq<string>, b: seq<string>)
    ensures ExistingBadges(a + b) == ExistingBadges(a) + ExistingBadges(b)
  {
    if a == [] {
      assert a + b == b;
    } else {
      assert (a + b)[0] == a[0];
      assert (a + b)[1..] == a[1..] + b;
      ExistingBadgesAppend(a[1..], b);
      if IsBadgeLine(a[0]) {
        assert ExistingBadges(a + b) == [a[0]] + (ExistingBadges(a[1..]) + ExistingBadges(b));
      }
    }
  }

  // ---- merge properties ------------------------------------------------------------

  /** An absent README becomes the full document: the top content, the
      contributors section unless contributors are excluded, and the
      template notice. */
  lemma EmptyPriorYieldsFullDocument(o: Options)
    ensures MergeReadme(o, []) ==
      GenerateTopContent(o, [])
      + (if IncludesAllContributors(o) then [""] + ContributorsSection else [])
      + [""] + TemplateNotice
  {
    assert FirstHeading2([]) == 0;
    assert !HasContributorsList([]);
    assert !HasTemplateNotice([]);
  }

  /** A prior text without level-2 headings and without badge lines (such as
      a lone `# Title`) is replaced entirely: the result is the one for an
      absent README. */
  lemma SparsePriorSameAsEmpty(o: Options, prior: seq<string>)
    requires forall l | l in prior :: !IsHeading2(l) && !IsBadgeLine(l)
    ensures MergeReadme(o, prior) == MergeReadme(o, [])
  {
    FirstHeading2Append(prior, []);
    assert prior + [] == prior;
    assert TopRegion(prior) == prior;
    assert KeptTail(prior) == [];
  }

  /** `excludeAllContributors: false` behaves exactly like leaving it unset. */
  lemma ExcludeFalseSameAsUnset(o: Options, prior: seq<string>)
    ensures MergeReadme(o.(excludeAllContributors := Some(false)), prior)
      == MergeReadme(o.(excludeAllContributors := None), prior)
  {
    var tail := KeptTail(prior);
    var o1 := TopOptions(o.(excludeAllContributors := Some(false)), tail);
    var o2 := TopOptions(o.(excludeAllContributors := None), tail);
    BadgeParagraphSameProject(o1, o2, ExistingBadges(TopRegion(prior)));
  }

  /** The part of the prior text from its first level-2 heading on follows
      the regenerated top, unchanged. */
  lemma TailKeptVerbatim(o: Options, prior: seq<string>)
    ensures var tail := KeptTail(prior);
      var top := GenerateTopContent(TopOptions(o, tail), ExistingBadges(TopRegion(prior)));
      var r := MergeReadme(o, prior);
      r[..|top|] == top
      && (tail != [] ==> r[|top|] == "" && r[|top| + 1..|top| + 1 + |tail|] == tail)
  {
    var tail := KeptTail(prior);
    var top := GenerateTopContent(TopOptions(o, tail), ExistingBadges(TopRegion(prior)));
    var cont := Continuation(o, tail);
    MergeSplit(o, prior, top, cont);
    if tail != [] {
      ContinuationOpensWithTail(o, tail);
    }
    KeptBetween(MergeReadme(o, prior), top, tail, cont);
  }

  lemma ContinuationOpensWithTail(o: Options, tail: seq<string>)
    requires tail != []
    ensures |Continuation(o, tail)| > |tail| && Continuation(o, tail)[..1 + |tail|] == [""] + tail
  {
    var more := (if IncludesAllContributors(o) && !HasContributorsList(tail) then [""] + ContributorsSection else [])
      + (if HasTemplateNotice(tail) then [] else [""] + TemplateNotice);
    assert Continuation(o, tail) == ([""] + tail) + more;
  }

  lemma KeptBetween(r: seq<string>, top: seq<string>, tail: seq<string>, cont: seq<string>)
    requires r == top + cont
    requires tail != [] ==> |cont| > |tail| && cont[..1 + |tail|] == [""] + tail
    ensures r[..|top|] == top && (tail != [] ==> r[|top|] == "" && r[|top| + 1..|top| + 1 + |tail|] == tail)
  {
    if tail != [] {
      assert cont[0] == "";
      assert r[|top| + 1..|top| + 1 + |tail|] == tail by {
        forall k | 0 <= k < |tail| ensures r[|top| + 1 + k] == tail[k] {
          assert cont[..1 + |tail|][1 + k] == tail[k];
        }
      }
    }
  }

  /** A prior text that already has the contributors list and a template
      notice gets neither again: the output ends with the kept part. */
  lemma ExistingSectionsNotDuplicated(o: Options, prior: seq<string>)
    requires HasContributorsList(KeptTail(prior)) && HasTemplateNotice(KeptTail(prior))
    ensures var tail := KeptTail(prior);
      var r := MergeReadme(o, prior);
      |tail| < |r| && r[|r| - |tail|..] == tail
  {
    var tail := KeptTail(prior);
    var top := GenerateTopContent(TopOptions(o, tail), ExistingBadges(TopRegion(prior)));
    NothingAppended(o, tail);
    MergeOfParts(o, prior, top);
    EndsWith(top, tail);
  }

  /** A merge whose kept part needs nothing appended: the regenerated top,
      a blank line, the kept part. The merge unfolded once, a helper that
      keeps its callers' proofs small. */
  lemma MergeOfParts(o: Options, prior: seq<string>, top: seq<string>)
    requires GenerateTopContent(TopOptions(o, KeptTail(prior)), ExistingBadges(TopRegion(prior))) == top
    requires Continuation(o, KeptTail(prior)) == [""] + KeptTail(prior)
    ensures MergeReadme(o, prior) == top + [""] + KeptTail(prior)
  {
  }

  /** Where the tail sits in a joined document: a helper about sequences. */
  lemma EndsWith(top: seq<string>, tail: seq<string>)
    ensures var r := top + [""] + tail; |tail| < |r| && r[|r| - |tail|..] == tail
  {
  }

  /** A prior text lacking the contributors list and the template notice gets
      both, in this order, at its end. */
  lemma MissingSectionsAppended(o: Options, prior: seq<string>)
    requires IncludesAllContributors(o)
    requires !HasContributorsList(KeptTail(prior)) && !HasTemplateNotice(KeptTail(prior))
    ensures var r := MergeReadme(o, prior);
      var added := [""] + ContributorsSection + [""] + TemplateNotice;
      |added| < |r| && r[|r| - |added|..] == added
  {
    var tail := KeptTail(prior);
    var top := GenerateTopContent(TopOptions(o, tail), ExistingBadges(TopRegion(prior)));
    var kept := if tail == [] then [] else [""] + tail;
    MergeWithBoth(o, prior);
    EndsWithAppended(MergeReadme(o, prior), top, kept, ContributorsSection, TemplateNotice);
  }

  /** The merge of a prior text lacking both sections, unfolded. */
  lemma MergeWithBoth(o: Options, prior: seq<string>)
    requires IncludesAllContributors(o)
    requires !HasContributorsList(KeptTail(prior)) && !HasTemplateNotice(KeptTail(prior))
    ensures var tail := KeptTail(prior);
      var top := GenerateTopContent(TopOptions(o, tail), ExistingBadges(TopRegion(prior)));
      var kept := if tail == [] then [] else [""] + tail;
      top != [] && MergeReadme(o, prior) == top + (kept + ([""] + ContributorsSection) + ([""] + TemplateNotice))
  {
    var tail := KeptTail(prior);
    var top := GenerateTopContent(TopOptions(o, tail), ExistingBadges(TopRegion(prior)));
    var kept := if tail == [] then [] else [""] + tail;
    AppendedBoth(tail, ContributorsSection, TemplateNotice);
    MergeSplit(o, prior, top, kept + ([""] + ContributorsSection) + ([""] + TemplateNotice));
  }

  /** A tail lacking both sections gets both, after a blank line each. */
  lemma AppendedBoth(tail: seq<string>, section: seq<string>, notice: seq<string>)
    requires !HasContributorsList(tail) && !HasTemplateNotice(tail)
    ensures Appended(tail, true, section, notice)
      == (if tail == [] then [] else [""] + tail) + ([""] + section) + ([""] + notice)
  {
  }

  /** The merge unfolded once: a helper that keeps its callers' proofs small. */
  lemma MergeSplit(o: Options, prior: seq<string>, top: seq<string>, cont: seq<string>)
    requires GenerateTopContent(TopOptions(o, KeptTail(prior)), ExistingBadges(TopRegion(prior))) == top
    requires Continuation(o, KeptTail(prior)) == cont
    ensures MergeReadme(o, prior) == top + cont
  {
  }

  /** Where appended groups sit in a joined document: a helper about sequences. */
  lemma EndsWithAppended(r: seq<string>, top: seq<string>, kept: seq<string>, section: seq<string>, notice: seq<string>)
    requires top != [] && r == top + (kept + ([""] + section) + ([""] + notice))
    ensures var added := [""] + section + [""] + notice;
      |added| < |r| && r[|r| - |added|..] == added
  {
  }

  // ---- a second run ----------------------------------------------------------------

  /** A line that opens an HTML tag, or an empty line, is not a level-2 heading. */
  lemma NotHeading2(line: string)
    requires line == [] || line[0] == '<'
    ensures !IsHeading2(line)
  {
    FirstCharRulesOut(line, "## ");
  }

  /** Nothing the top content puts before its Usage block is a level-2
      heading, provided the leftover snippets are not. */
  lemma TopHasNoHeading2(o: Options, existing: seq<string>)
    requires forall l | l in existing :: !IsHeading2(l)
    ensures forall l | l in Header(o) + [""] + BadgeParagraph(o, existing) :: !IsHeading2(l)
  {
    CanonicalBadgeOrder(o);
    forall l | l in CanonicalBadgeLines(o) + [CenteredHeading(o.title), "", Centered(o.description), BadgeParagraphOpen, BadgeParagraphClose]
      ensures !IsHeading2(l)
    {
      NotHeading2(l);
    }
  }

  /** A Usage section kept from the prior text is not generated a second
      time: the regenerated top then holds no Usage heading. */
  lemma UsageNotRepeated(o: Options, prior: seq<string>)
    requires HasUsage(KeptTail(prior))
    ensures UsageHeading !in GenerateTopContent(TopOptions(o, KeptTail(prior)), ExistingBadges(TopRegion(prior)))
  {
    var existing := ExistingBadges(TopRegion(prior));
    BadgeLinesNoHeading2(existing);
    TopHasNoHeading2(TopOptions(o, KeptTail(prior)), existing);
    assert IsHeading2(UsageHeading);
  }

  lemma ContributorsSectionFacts()
    ensures IsHeading2(ContributorsSection[0]) && HasContributorsList(ContributorsSection)
  {
    ContainsSelf(ContributorsListStart);
    ContainsInLeft(ContributorsListStart, " - Do not remove or modify this section", ContributorsListStart);
    CommentShows(ContributorsListStart + " - Do not remove or modify this section", ContributorsListStart);
    assert ContributorsSection[2] in ContributorsSection;
  }

  lemma TemplateNoticeFacts()
    ensures HasTemplateNotice(TemplateNotice)
  {
    CreditsTemplate("> ", " This package was templated with [`",
      "`](https://github.com/JoshuaKGoldberg/" + TemplateName + ").");
    assert TemplateNotice[2] in TemplateNotice;
  }

  /** A line that names the template somewhere after the blue heart credits
      it, whatever the surrounding words. */
  lemma CreditsTemplate(before: string, middle: string, after: string)
    ensures IsTemplateNotice(before + BlueHeart + middle + TemplateName + after)
  {
    var line := before + BlueHeart + middle + TemplateName + after;
    assert line == before + BlueHeart + (middle + TemplateName + after);
    ContainsBetween(before, BlueHeart, middle + TemplateName + after);
    ContainsBetween(before + BlueHeart + middle, TemplateName, after);
  }

  /** The markers are found in a joined text when found in either part. */
  lemma MarkersInJoin(a: seq<string>, b: seq<string>)
    ensures HasContributorsList(a) || HasContributorsList(b) ==> HasContributorsList(a + b)
    ensures HasTemplateNotice(a) || HasTemplateNotice(b) ==> HasTemplateNotice(a + b)
    ensures HasUsage(a) || HasUsage(b) ==> HasUsage(a + b)
  {
    assert forall l | l in a :: l in a + b;
    assert forall l | l in b :: l in a + b;
  }

  /** With contributors included, what follows the top is a blank line, then
      a level-2 heading opening a part that holds the contributors list and
      the template notice. */
  lemma ContinuationComplete(o: Options, tail: seq<string>)
    requires IncludesAllContributors(o)
    requires tail != [] ==> IsHeading2(tail[0])
    ensures var c := Continuation(o, tail);
      |c| > 1 && c[0] == "" && IsHeading2(c[1])
      && HasContributorsList(c[1..]) && HasTemplateNotice(c[1..])
      && (HasUsage(tail) ==> HasUsage(c[1..]))
  {
    ContributorsSectionFacts();
    TemplateNoticeFacts();
    AppendedComplete(tail, ContributorsSection, TemplateNotice);
  }

  lemma AppendedComplete(tail: seq<string>, section: seq<string>, notice: seq<string>)
    requires tail != [] ==> IsHeading2(tail[0])
    requires section != [] && IsHeading2(section[0]) && HasContributorsList(section)
    requires HasTemplateNotice(notice)
    ensures var c := Appended(tail, true, section, notice);
      |c| > 1 && c[0] == "" && IsHeading2(c[1])
      && HasContributorsList(c[1..]) && HasTemplateNotice(c[1..])
      && (HasUsage(tail) ==> HasUsage(c[1..]))
  {
    var c := Appended(tail, true, section, notice);
    var notes := if HasTemplateNotice(tail) then [] else [""] + notice;
    MarkersInJoin([""], section);
    MarkersInJoin([""], notice);
    if tail == [] {
      assert c[1..] == section + notes;
      MarkersInJoin(section, notes);
    } else {
      var contributors := if !HasContributorsList(tail) then [""] + section else [];
      assert c[1..] == tail + contributors + notes;
      MarkersInJoin(tail, contributors);
      MarkersInJoin(tail + contributors, notes);
    }
  }

  /** After one run the kept part of the output already holds the
      contributors list, the template notice and, in `create` mode, the Usage
      section: a second run appends nothing and generates no Usage block. */
  lemma FirstRunCompletesSections(o: Options, prior: seq<string>)
    requires IncludesAllContributors(o)
    ensures var t := KeptTail(MergeReadme(o, prior));
      HasContributorsList(t) && HasTemplateNotice(t) && (o.mode == Create ==> HasUsage(t))
  {
    var tail := KeptTail(prior);
    var o' := TopOptions(o, tail);
    var existing := ExistingBadges(TopRegion(prior));
    var top := Header(o') + [""] + BadgeParagraph(o', existing);
    var usage := UsageBlock(o'.repository);
    var c := Continuation(o, tail);
    BadgeLinesNoHeading2(existing);
    TopHasNoHeading2(o', existing);
    SplitRecombines(prior);
    ContinuationComplete(o, tail);
    UsageOpensSection(o'.repository);
    assert MergeReadme(o, prior) == top + (if o'.mode == Create then [""] + usage else []) + c;
    TailAfterTop(top, usage, c, o'.mode == Create);
  }

  lemma UsageOpensSection(repository: string)
    ensures var u := UsageBlock(repository); u != [] && IsHeading2(u[0]) && HasUsage(u)
  {
    assert UsageBlock(repository)[0] == UsageHeading;
  }

  /** The kept part of a top free of level-2 headings, an optional Usage
      block and a continuation opening with a heading. */
  lemma TailAfterTop(top: seq<string>, usage: seq<string>, c: seq<string>, create: bool)
    requires forall l | l in top :: !IsHeading2(l)
    requires usage != [] && IsHeading2(usage[0]) && HasUsage(usage)
    requires |c| > 1 && c[0] == "" && IsHeading2(c[1])
    requires HasContributorsList(c[1..]) && HasTemplateNotice(c[1..])
    ensures var t := KeptTail(top + (if create then [""] + usage else []) + c);
      HasContributorsList(t) && HasTemplateNotice(t)
      && (create || HasUsage(c[1..]) ==> HasUsage(t))
  {
    if create {
      assert top + ([""] + usage) + c == (top + [""] + usage) + c;
      assert forall l | l in top + [""] :: !IsHeading2(l) by { NotHeading2(""); }
      KeptTailOfJoin(top + [""], usage, c);
      MarkersInJoin(usage, c);
      MarkersInJoin([""], c[1..]);
      assert c == [""] + c[1..];
    } else {
      assert top + [] + c == (top + [""]) + c[1..];
      assert forall l | l in top + [""] :: !IsHeading2(l) by { NotHeading2(""); }
      KeptTailAfter(top + [""], c[1..]);
    }
  }

  lemma KeptTailOfJoin(pre: seq<string>, u: seq<string>, c: seq<string>)
    requires forall l | l in pre :: !IsHeading2(l)
    requires u != [] && IsHeading2(u[0])
    ensures KeptTail((pre + u) + c) == u + c
  {
    assert (pre + u) + c == pre + (u + c);
    KeptTailAfter(pre, u + c);
  }

  lemma BadgeLinesNoHeading2(lines: seq<string>)
    requires forall l | l in lines :: IsBadgeLine(l)
    ensures forall l | l in lines :: !IsHeading2(l)
  {
    forall l | l in lines ensures !IsHeading2(l) {
      FirstCharRulesOut(l, "## ");
    }
  }

  lemma KeptTailAfter(pre: seq<string>, rest: seq<string>)
    requires forall l | l in pre :: !IsHeading2(l)
    requires rest != [] && IsHeading2(rest[0])
    ensures KeptTail(pre + rest) == rest
  {
    FirstHeading2Append(pre, rest);
  }

  /** A kept part that already holds both markers gets nothing appended. */
  lemma NothingAppended(o: Options, tail: seq<string>)
    requires HasContributorsList(tail) && HasTemplateNotice(tail)
    ensures Continuation(o, tail) == [""] + tail
  {
    AppendedNothing(tail, IncludesAllContributors(o), ContributorsSection, TemplateNotice);
  }

  lemma AppendedNothing(tail: seq<string>, wanted: bool, section: seq<string>, notice: seq<string>)
    requires HasContributorsList(tail) && HasTemplateNotice(tail)
    ensures Appended(tail, wanted, section, notice) == [""] + tail
  {
    assert tail != [];
  }

  /** Consequently a second run keeps everything from the first level-2
      heading of the first run's output and regenerates only the top. */
  lemma SecondRunRegeneratesOnlyTop(o: Options, prior: seq<string>)
    requires IncludesAllContributors(o)
    ensures var once := MergeReadme(o, prior);
      var t := KeptTail(once);
      MergeReadme(o, once)
        == GenerateTopContent(TopOptions(o, t), ExistingBadges(TopRegion(once))) + [""] + t
  {
    FirstRunCompletesSections(o, prior);
    NothingAppended(o, KeptTail(MergeReadme(o, prior)));
  }
}
