# README top content and README merge of create-typescript-app, modelled in Dafny

This project models the `writeReadme` step of create-typescript-app. The step has two parts.

- **`generateTopContent(options, existingBadges)`** builds the top of a README.
  - The top starts with a centred `<h1>` holding the title and a centred `<p>` holding the description.
  - Next comes a badge paragraph (`<p align="center">` … `</p>`). It opens with the all-contributors badge inside the `ALL-CONTRIBUTORS-BADGE` markers. Then come the catalog badges in a fixed order: Codecov, Contributor Covenant, License, Sponsor (only when `funding` is set), Prettier, TypeScript Strict and npm version.
  - Existing badge snippets that a catalog entry recognises are dropped in favour of that entry's canonical rendering.
  - Existing snippets that no entry recognises are kept verbatim, in order, just before `</p>`.
  - In `create` mode a `## Usage` block follows, showing `npm i <repository>` and an `import` from `<repository>`. In `migrate` mode the top ends at `</p>`.
- **The README merge** is the text transformation inside `writeReadme`. It maps the options and the prior README text to the new README text.
  - Everything before the first level-2 heading is regenerated. The existing badge lines found there are handed to `generateTopContent`.
  - Everything from the first level-2 heading on is kept verbatim.
  - A `## Contributors` section with the `ALL-CONTRIBUTORS-LIST` markers is appended when it is missing.
  - The "templated with create-typescript-app" notice is appended when no notice crediting the template is present.

A document is a `seq<string>` of lines.

## Modules

- `Wrappers` holds the `Option` datatype.
- `Text` holds substring and prefix predicates, and lemmas for proving that a text contains or lacks a pattern.
- `SharedTypes` holds `Options` and `Mode`. Only the fields the output depends on are modelled.
- `Markup` holds the HTML fragments (`<img>`, `<a>`, comments, centred elements).
- `BadgeCatalog` holds the badge identities, the order and conditions of the catalog, the canonical renderings, and the fingerprint each entry uses to recognise an existing snippet.
- `TopContent` holds `GenerateTopContent` and its general properties.
- `TopContentScenarios` holds the four scenarios of `generateTopContent.test.ts`.
- `WriteReadme` holds `MergeReadme` and its general properties.
- `WriteReadmeScenarios` holds the four scenarios of `index.test.ts`.

The inline snapshots fix some behaviour one might not expect, and the model follows them. One example is the repeated all-contributors badge: the all-contributors badge found between the badge markers of a prior README is not recognised by any catalog entry. It is therefore re-emitted after the npm badge, so it appears twice in the output.

## Model

| member | source | states |
|---|---|---|
| BadgeCatalog.Applicable | src/steps/writeReadme/generateTopContent.test.ts:27-38 | A badge is in the catalog sequence iff it applies to the options (Sponsor iff `funding` is set, all others always). The sequence is strictly increasing in catalog rank, so it has no duplicates and follows the fixed order. |
| BadgeCatalog.FirstRecognising | src/steps/writeReadme/generateTopContent.test.ts:54-58 | Returns the index of the first entry of the list that the matching rule accepts: that entry is accepted and no earlier one is. Returns nothing iff no entry of the list is accepted. |
| BadgeCatalog.Classify | src/steps/writeReadme/generateTopContent.test.ts:54-95 | A snippet is Known iff some applicable entry recognises it. The entry named is applicable and recognises it. An Unknown result carries the snippet unchanged. |
| BadgeCatalog.Render | src/steps/writeReadme/generateTopContent.test.ts:27-38 | An entry renders to some lines iff it applies to the options. Every entry except the all-contributors block renders to at most one line. That each rendering is recognised by its own entry is RenderRecognisedByOwnEntry. |
| BadgeCatalog.RenderRecognisedByOwnEntry | src/steps/writeReadme/generateTopContent.test.ts:30-38 | Every applicable entry's canonical rendering is recognised by that same entry. A single-line entry renders to one line. For the all-contributors block, the badge-marker line is recognised. |
| BadgeCatalog.CodecovBadgeNamesProject | src/steps/writeReadme/generateTopContent.test.ts:33 | The Codecov badge links to `codecov.io/gh/<owner>/<repository>`. |
| BadgeCatalog.CovenantBadgeNamesProject | src/steps/writeReadme/generateTopContent.test.ts:34 | The Contributor Covenant badge links into `github.com/<owner>/<repository>/`. |
| BadgeCatalog.LicenseBadgeNamesProject | src/steps/writeReadme/generateTopContent.test.ts:35 | The License badge links into `github.com/<owner>/<repository>/`. |
| BadgeCatalog.NpmBadgeNamesPackage | src/steps/writeReadme/generateTopContent.test.ts:38 | The npm version badge shows `npm/v/<repository>`. |
| BadgeCatalog.SponsorBadgeNamesAccount | src/steps/writeReadme/index.test.ts:66 | The Sponsor badge links to `github.com/sponsors/<funding>`. |
| BadgeCatalog.AllContributorsBadgeLineUnclaimed | src/steps/writeReadme/index.test.ts:283-293 | No catalog entry recognises the lone all-contributors badge line, for any options. |
| TopContent.Unrecognised | src/steps/writeReadme/generateTopContent.test.ts:91-127 | The leftovers are exactly the existing snippets that no applicable entry recognises, and there are no more of them than existing snippets. |
| TopContent.Header | src/steps/writeReadme/generateTopContent.test.ts:23-25 | The header is three lines with a blank line in the middle. That they show the title and the description is HeaderNamesProject. |
| TopContent.HeaderNamesProject | src/steps/writeReadme/generateTopContent.test.ts:23-25 | The first header line contains the title and the third contains the description. |
| TopContent.UsageBlock | src/steps/writeReadme/generateTopContent.test.ts:41-50 | The Usage block is ten lines and opens with `## Usage`. That it names the package is UsageNamesPackage. |
| TopContent.GenerateTopContent | src/steps/writeReadme/generateTopContent.test.ts:21-150 | The output has six lines of frame, the canonical badge lines, the leftovers and, in create mode, eleven Usage lines. Every existing snippet that no applicable entry recognises appears in the output. Its shape, replacement and ordering properties are TopContentShape, LeftoversCloseBadgeParagraph, ModeOnlyAffectsUsage, KnownSnippetReplaced and UnknownSnippetKept. |
| TopContent.TopContentShape | src/steps/writeReadme/generateTopContent.test.ts:129-150 | The output starts with the three header lines and a blank line. In migrate mode it ends with `</p>`. In create mode it ends with the Usage block. |
| TopContent.CanonicalBadgeOrder | src/steps/writeReadme/generateTopContent.test.ts:27-38 | The canonical badge lines are the all-contributors block, then Codecov, Covenant and License, then Sponsor only when `funding` is set, then Prettier, TypeScript Strict and npm version. |
| TopContent.SponsoredBadgeOrder | src/steps/writeReadme/index.test.ts:63-69 | With `funding` set, the Sponsor badge naming that account sits between License and Prettier. |
| TopContent.UnsponsoredBadgeOrder | src/steps/writeReadme/generateTopContent.test.ts:6-38 | Without `funding`, the canonical badge lines hold no Sponsor badge: License is followed directly by Prettier. |
| TopContent.RenderAllAppend | src/steps/writeReadme/generateTopContent.test.ts:27-38 | Rendering a concatenated list of entries is the concatenation of the renderings. |
| TopContent.UnrecognisedAppend | src/steps/writeReadme/generateTopContent.test.ts:91-127 | Leftover filtering distributes over concatenation, so the order of existing snippets is kept. |
| TopContent.UnrecognisedIdempotent | src/steps/writeReadme/generateTopContent.test.ts:91-127 | Filtering the leftovers again changes nothing. |
| TopContent.KnownSnippetReplaced | src/steps/writeReadme/generateTopContent.test.ts:54-89 | Adding a recognised snippet anywhere among the existing snippets leaves the output unchanged. |
| TopContent.SameLeftoversSameOutput | src/steps/writeReadme/generateTopContent.test.ts:54-89 | Two existing-snippet lists with the same leftovers give the same output. |
| TopContent.UnknownSnippetKept | src/steps/writeReadme/generateTopContent.test.ts:91-127 | An unrecognised snippet survives verbatim, between the leftovers of what precedes it and of what follows it. |
| TopContent.LeftoversCloseBadgeParagraph | src/steps/writeReadme/generateTopContent.test.ts:101-114 | Line 4 opens the badge paragraph. The canonical badges follow, then the leftovers, and `</p>` comes immediately after them. |
| TopContent.ModeOnlyAffectsUsage | src/steps/writeReadme/generateTopContent.test.ts:129-150 | The create-mode output is the migrate-mode output followed by a blank line and the Usage block. |
| TopContent.BadgeParagraphSameProject | src/steps/writeReadme/generateTopContent.test.ts:6-18 | The badge paragraph depends only on owner, repository and funding, not on title, description or mode. |
| TopContent.UsageNamesPackage | src/steps/writeReadme/generateTopContent.test.ts:43-49 | The Usage block installs `<repository>` with npm and imports from `"<repository>"`. |
| TopContentScenarios.NoExistingBadges | src/steps/writeReadme/generateTopContent.test.ts:21-51 | With no existing badges, the output is the full snapshot: header, all badges in order, Usage block. |
| TopContentScenarios.KnownBadgeReplaced | src/steps/writeReadme/generateTopContent.test.ts:54-89 | A stale `TypeScript: Strict` image gives exactly the no-existing-badges output. |
| TopContentScenarios.UnknownBadgeKeptAtEnd | src/steps/writeReadme/generateTopContent.test.ts:91-127 | An unknown badge is emitted verbatim after the npm badge, just before `</p>`. |
| TopContentScenarios.UnknownBadgeUnrecognised | src/steps/writeReadme/generateTopContent.test.ts:94-113 | No catalog entry recognises the `Unknown Badge` image. |
| TopContentScenarios.SampleHeaderText | src/steps/writeReadme/generateTopContent.test.ts:23-25 | The sample header is, character for character, `<h1 align="center">Test Title</h1>`, a blank line and `<p align="center">Test description</p>`, followed by a blank line. |
| TopContentScenarios.PrettierIgnoreText | src/steps/writeReadme/generateTopContent.test.ts:28-32 | The comments fencing the badges are, character for character, `<!-- prettier-ignore-start -->` and `<!-- prettier-ignore-end -->`. |
| TopContentScenarios.MigrateHasNoUsage | src/steps/writeReadme/generateTopContent.test.ts:129-150 | In migrate mode the output is header and badges and ends at `</p>`. |
| WriteReadme.FirstHeading2 | src/steps/writeReadme/index.test.ts:246-249 | Returns the index of the first `## ` line, or the length when there is none. No earlier line is a level-2 heading. |
| WriteReadme.ExistingBadges | src/steps/writeReadme/index.test.ts:235-246 | The extracted lines are exactly the badge lines (`<a ` / `<img `) of the region, kept in order. |
| WriteReadme.UsageNotRepeated | src/steps/writeReadme/index.test.ts:294-305 | When the kept tail already has a `## Usage` section, the regenerated top holds no `## Usage` line, so the section is not generated a second time. |
| WriteReadme.SplitRecombines | src/steps/writeReadme/index.test.ts:246-249 | The regenerated region and the kept tail partition the prior text. The region has no level-2 heading, and the tail opens with one. |
| WriteReadme.EmptyPriorYieldsFullDocument | src/steps/writeReadme/index.test.ts:44-103 | An empty prior text gives the top content, the contributors section (when included) and the template notice, each preceded by a blank line. |
| WriteReadme.SparsePriorSameAsEmpty | src/steps/writeReadme/index.test.ts:105-164 | A prior text with no level-2 heading and no badge line (such as `# Test Title`) gives the same output as an empty one. |
| WriteReadme.ExcludeFalseSameAsUnset | src/steps/writeReadme/index.test.ts:166-228 | `excludeAllContributors: false` gives the same output as leaving it unset. |
| WriteReadme.TailKeptVerbatim | src/steps/writeReadme/index.test.ts:307-325 | The output starts with the regenerated top. When there is a kept tail, a blank line follows and then the tail, unchanged. |
| WriteReadme.ExistingSectionsNotDuplicated | src/steps/writeReadme/index.test.ts:249-325 | When the kept tail already has the contributors list and a template notice, the output ends with that tail and nothing is appended. |
| WriteReadme.MissingSectionsAppended | src/steps/writeReadme/index.test.ts:83-98 | When both are missing and contributors are included, the output ends with the contributors section and the template notice. |
| WriteReadme.ContinuationComplete | src/steps/writeReadme/index.test.ts:83-98 | With contributors included, the text after the top opens with a blank line and a level-2 heading, and contains the contributors list and a template notice. |
| WriteReadme.AppendedComplete | src/steps/writeReadme/index.test.ts:83-98 | For any section opening with a level-2 heading and holding the contributors list, and any notice crediting the template, appending them with the section wanted gives a text that opens with a blank line and a level-2 heading and holds both. |
| WriteReadme.AppendedNothing | src/steps/writeReadme/index.test.ts:249-325 | When the tail already has the contributors list and a template notice, nothing is appended to it, whatever the section and notice. |
| WriteReadme.FirstRunCompletesSections | src/steps/writeReadme/index.test.ts:44-103 | With contributors included, after one merge, the kept tail of the result has the contributors list and a template notice, and in create mode a Usage section. |
| WriteReadme.ContinuationOpensWithTail | src/steps/writeReadme/index.test.ts:307-325 | When the kept tail is not empty, the continuation opens with a blank line and then the whole tail. |
| WriteReadme.NothingAppended | src/steps/writeReadme/index.test.ts:249-325 | When both markers are present, the continuation is a blank line followed by the tail. |
| WriteReadme.SecondRunRegeneratesOnlyTop | src/steps/writeReadme/index.test.ts:230-330 | With contributors included, merging a merged README again only regenerates its top. Its tail is kept and nothing is appended. |
| WriteReadmeScenarios.AbsentReadmeWritten | src/steps/writeReadme/index.test.ts:44-103 | An absent README (empty text) gives the full snapshot document, with the Sponsor badge. |
| WriteReadmeScenarios.SparseReadmeCompleted | src/steps/writeReadme/index.test.ts:105-164 | The README `# Test Title` gives the same full document; the markdown heading is replaced by the centred h1. |
| WriteReadmeScenarios.SparseReadmeWithContributorsIncluded | src/steps/writeReadme/index.test.ts:166-228 | The same holds with `excludeAllContributors: false`. |
| WriteReadmeScenarios.CompleteReadmeNotDuplicated | src/steps/writeReadme/index.test.ts:230-330 | A README that already has its sections gives the snapshot: canonical badges with Sponsor and npm added, the canonical Codecov badge in place of the bare anchor, the all-contributors badge repeated after npm, a Usage block, and the prior sections verbatim with no second contributors section or notice. |
| WriteReadmeScenarios.PriorBadgesFound | src/steps/writeReadme/index.test.ts:235-246 | The badge lines extracted from that README are the all-contributors badge followed by the bare Codecov anchor, Covenant, License, Prettier and TypeScript Strict. |
| WriteReadmeScenarios.PriorLeftovers | src/steps/writeReadme/index.test.ts:238-293 | Of those, only the all-contributors badge is left over; the bare Codecov anchor is recognised. |
| WriteReadmeScenarios.PriorSectionsKept | src/steps/writeReadme/index.test.ts:249-267 | The prior sections keep the caller's mode (they have no Usage section) and get nothing appended. |

## Left out

- Reading and writing `README.md` is left out, along with the async API. The merge is a pure function of the prior text.
- Indentation and blank-line runs are not reproduced. Lines are dedented, and no trailing newline element is modelled. The snapshots normalise both.
- Options fields that never reach the output are not modelled: `access`, `author`, `base`, `directory`, `email`.
- Markdown and HTML rendering are not modelled, and neither is URL validity.
- BadgeCatalog.Recognises: the implementation's matching rule is not part of this model.
  - Each entry recognises a snippet containing its fingerprint. For most entries that is the `alt` label. For Codecov it is the `https://codecov.io/gh/` link, so the bare anchor is recognised. For all-contributors it is the `ALL-CONTRIBUTORS-BADGE:START` marker, so a lone badge line is never claimed.
  - The properties hold for this rule, not for an arbitrary one.
- WriteReadme.ExistingBadges: the extraction rule for existing badges is not part of this model. The model takes the lines starting with `<a ` or `<img ` before the first level-2 heading.
- WriteReadme.IsTemplateNotice: a line counts as a template notice when it contains both the blue heart and `create-typescript-app`. This covers both the "templated with" and the "based on" wording. The exact detection rule is not part of this model.
- WriteReadme.TopOptions: the switch to migrate mode when a `## Usage` section is already kept is a modelling choice. No test exercises it; WriteReadme.UsageNotRepeated states its consequence.
- WriteReadme.TopRegion: splitting the prior text at its first `## ` line is a modelling choice. Non-badge text above that line (such as an introductory paragraph) is not kept; only its badge lines reach `generateTopContent`. The tests give no prior text with such prose.
- WriteReadme.SecondRunRegeneratesOnlyTop: the contributor-related lemmas require contributors to be included. With `excludeAllContributors: true` in migrate mode, merging an empty prior text gives no `## ` line at all, so the template notice lies inside the regenerated region. A second merge then drops that notice with the region and appends it again at the end.
- WriteReadme.MergeReadme, WriteReadme.Continuation and WriteReadme.Appended carry no contract of their own. Their properties are the lemmas about them: EmptyPriorYieldsFullDocument, TailKeptVerbatim, ExistingSectionsNotDuplicated, MissingSectionsAppended, ContinuationOpensWithTail, ContinuationComplete, AppendedComplete, NothingAppended and AppendedNothing.
- The contributors section is appended at the end of the kept text. No test fixes its position relative to other existing sections.
- The all-contributors badge is always emitted. No test sets `excludeAllContributors: true`, so its effect on the badge is not modelled. It only removes the appended contributors section.
- Idempotence does not hold, and no property claims it: every merge re-emits the all-contributors badge line as a leftover, so that line accumulates. WriteReadme.SecondRunRegeneratesOnlyTop states what a second merge does keep.
- TopContent.UnsponsoredBadgeOrder: once `funding` is removed, a Sponsor badge already in the README is recognised by no applicable entry, so it is kept as an unknown leftover before `</p>`. The tests do not fix this case.
- TopContent.Unrecognised does not remove duplicate unknown snippets. Each one is kept as often as it occurs.
- Header handling when the prior text has no recognisable title is not modelled; the title always comes from the options.
- A Codecov condition on the coverage provider is not modelled; Codecov is always emitted.
