# libgit2 patch-to-email formatter: a Dafny model

This project models libgit2's patch-to-email formatter as its public header
`include/git2/email.h` declares it. The header has the flags enum
`git_email_create_flags_t`, the options record `git_email_create_options`,
its initializer `GIT_EMAIL_CREATE_OPTIONS_INIT`, and the two entry points
`git_email_create_from_diff` and `git_email_create_from_commit`.
The header gives no implementation. The model holds only what its comments
and declarations state, written as pure functions and lemmas:

- `options.dfy` (module `EmailOptions`): the `uint32_t` flags word (`bv32`)
  and its two independent bits, `OMIT_NUMBERS` and `ALWAYS_NUMBER`. It also
  has the options record and the all-zero initializer. Resolving the options
  maps unset fields to the documented defaults: a NULL prefix becomes
  "PATCH", start number 0 becomes 1, and re-roll 0 means no re-roll.
- `subject.dfy` (module `EmailSubject`): the subject-tag decision. It
  decides whether the `N/M` numbers are shown and which prefix word is used.
  It also decides whether a bracketed tag appears at all. The tag is a
  datatype holding the prefix word, the re-roll number and the numbers. It
  is not a byte string.
- `email.dfy` (module `Email`): `FromDiff` and `FromCommit`. An e-mail body
  is a sequence of abstract sections: the optional body text, the diffstat,
  and the diff. `FromCommit` formats a commit as patch 1 of 1 and refuses
  merge commits.
- `series.dfy` (module `EmailSeries`): a series formatted patch by patch
  with the same options and patch count. The numbering and labelling agree
  across the series.
- `wrappers.dfy` (module `Wrappers`): `Option` and `Result`.

Modelling choices where the header is silent:

- When both `OMIT_NUMBERS` and `ALWAYS_NUMBER` are set, `OMIT_NUMBERS` wins
  (`EmailSubject.ShowNumbers`). The header phrases it unconditionally ("Do
  not include patch numbers"). This case is a choice of the model, not a
  property the header promises.
- The start number shifts the displayed index: patch `idx` of `count` shows
  `start + idx - 1`. The displayed total is shifted by the same amount to
  `start + count - 1`, as `git format-patch --start-number` does. The header
  says only that the start number is "the starting patch number".
- The patch index is 1-based, as the "1/1" of a single commit shows. An
  index outside `1..patch_count` is an error (`InvalidPatchIndex`) and
  yields no e-mail.
- A start number of 0 is read as "unset" and gives 1. The header says the
  field "cannot be 0" and defaults to 1, while the initializer zero-fills it.
  So 0 cannot be an error, as a stricter reading would make it.
- An empty prefix with no numbers shown gives no tag at all. The header says
  the prefix "will be omitted entirely" in that case, so a re-roll number is
  dropped too.
- With the initializer's options, a one-patch series gets the tag `[PATCH]`
  with no numbers. It is not the bare summary: per the header, the prefix is
  omitted only when it is empty.
- `from_commit` refuses only commits with more than one parent ("must not be
  a merge commit"). A root commit is formatted against no base.

## Model

| member | source | states |
|---|---|---|
| EmailOptions.EncodeFlags | include/git2/email.h:23-35 | the word built from two switches decodes back to them and sets no bit other than bits 0 and 1 |
| EmailOptions.NamedFlagValues | include/git2/email.h:23-35 | DEFAULT sets neither switch, OMIT_NUMBERS (bit 0) only omit, ALWAYS_NUMBER (bit 1) only always; the two bits do not overlap |
| EmailOptions.FlagsWordExact | include/git2/email.h:23-35 | decoding is exact: a word using only the two known bits is rebuilt from its decoding |
| EmailOptions.OmitBitIndependent | include/git2/email.h:27-28 | setting or clearing OMIT_NUMBERS changes only the omit switch |
| EmailOptions.AlwaysBitIndependent | include/git2/email.h:30-34 | setting or clearing ALWAYS_NUMBER changes only the always switch |
| EmailOptions.Resolve | include/git2/email.h:49-64 | NULL prefix means "PATCH", a set prefix is used verbatim; the effective start number is never 0, is 1 when unset and the given value otherwise; re-roll 0 means no re-roll |
| EmailOptions.InitResolvesToDefaults | include/git2/email.h:71-76 | the zero-filled initializer resolves to no flags, prefix "PATCH", start 1, no re-roll |
| EmailOptions.UnsetIsDocumentedDefault | include/git2/email.h:49-64 | leaving the prefix NULL equals setting "PATCH", leaving the start number 0 equals setting 1, re-roll 0 gives no re-roll |
| EmailSubject.SubjectTag | include/git2/email.h:27-55 | no tag exactly when the prefix is empty and numbers are not shown; otherwise numbers present iff shown, prefix word absent iff prefix empty, re-roll carried; shown numbers run from the start number, index and total offset by the same amount, index never above total |
| EmailSubject.MakeSubject | include/git2/email.h:27-64 | over the options as set: NULL prefix gives a tag with word "PATCH"; a non-empty prefix is used verbatim; an empty prefix gives numbers only, or no tag when numbers are not shown; OMIT_NUMBERS hides numbers (with ALWAYS_NUMBER also set: by the model's choice); ALWAYS_NUMBER alone shows them; with neither, numbered iff more than one patch; re-roll present iff non-zero; numbers never 0, index at most total, 1-based idx/count with the default start; summary kept |
| EmailSubject.UnsetPrefixIsPatch | include/git2/email.h:49-50 | with the prefix unset there is a tag and its prefix word is "PATCH" |
| EmailSubject.EmptyPrefixShowsOnlyNumbers | include/git2/email.h:50-52 | an empty prefix with numbers shown gives a tag with numbers and no prefix word |
| EmailSubject.EmptyPrefixNoNumbersIsBareSummary | include/git2/email.h:52-54 | an empty prefix with numbers not shown gives no tag: the subject is the summary alone |
| EmailSubject.OmitNumbersHidesNumbers | include/git2/email.h:27-28 | with OMIT_NUMBERS set no numbers appear, for any patch count (with ALWAYS_NUMBER also set: by the model's choice in ShowNumbers) |
| EmailSubject.AlwaysNumberSinglePatch | include/git2/email.h:30-34 | with ALWAYS_NUMBER (and not OMIT_NUMBERS) a one-patch series is numbered start/start, 1/1 by default |
| EmailSubject.DefaultNumbering | include/git2/email.h:24-34 | with neither flag a patch is numbered iff the series has more than one patch |
| EmailSubject.DefaultSinglePatchSubject | include/git2/email.h:49-54 | the initializer's options give a single patch the tag "PATCH" with no numbers and no re-roll |
| Email.Sections | include/git2/email.h:87 | the body text, when given, is the first section; the diffstat and then the diff of the change close the body |
| Email.SectionsOrder | include/git2/email.h:87 | the body text stands above the diffstat; there is body text exactly when some is given; there is exactly one diffstat |
| Email.FromDiff | include/git2/email.h:78-100 | fails exactly when the patch index is outside 1..patch count; on success carries the given commit id, author, the decided subject and the sections |
| Email.DiffBase | include/git2/email.h:102-104 | a non-merge commit is diffed against its parent, or against nothing when it has none |
| Email.FromCommit | include/git2/email.h:102-113 | fails with MergeCommit exactly when the commit has more than one parent; otherwise formats it as patch 1 of 1 against its parent's diff |
| Email.FromDiffBodyAboveDiffstat | include/git2/email.h:87 | a formatted e-mail's body text stands above the diffstat, and only when body text is given |
| Email.FromCommitIsSinglePatch | include/git2/email.h:102-113 | a non-merge commit always formats; it is numbered only under ALWAYS_NUMBER without OMIT_NUMBERS, and then shows start/start |
| EmailSeries.FormatFirst | include/git2/email.h:83-84 | formatting the first n patches of a series yields one e-mail per patch, in order, e-mail j being patch j+1 of the full count |
| EmailSeries.FormatSeries | include/git2/email.h:83-84 | a series yields one e-mail per patch, in order, and for every patch the from-diff entry point succeeds with exactly that e-mail |
| EmailSeries.PatchNumbering | include/git2/email.h:57-61 | patch j+1 is numbered iff the series is, and then shows start+j of start+n-1 |
| EmailSeries.SeriesNumbering | include/git2/email.h:57-61 | all e-mails of a series are numbered or none is; numbers are consecutive from the start number and share one total |
| EmailSeries.SeriesLabelsAgree | include/git2/email.h:49-55 | every e-mail of a series has a tag or none has, and all tags agree on prefix word and re-roll |
| EmailSeries.SeriesIndexesIncrease | include/git2/email.h:57-61 | in a numbered series the displayed indexes strictly increase in series order |

## Left out

- Diff computation and the `diff_opts` passthrough (include/git2/email.h:47, 75) belong to the diff engine. The engine is a function parameter of `FromCommit`. Its diffstat and diff text are opaque strings.
- The `git_buf` output, the text of a `git_oid` and the rendering of a `git_signature` (the From and Date lines) are not modelled. Ids and authors are carried into the e-mail unchanged.
- The header fixes no bytes: no re-roll marker text, index zero-padding, `---` separator, blank lines or trailer. The subject is kept as a tag datatype and the body as sections.
- The `version` field, `GIT_EMAIL_CREATE_OPTIONS_VERSION` and the linkage macros have no behaviour.
- Reading the summary and body out of a commit message is the commit object's work. `Email.Commit` holds them already split, and what a multi-line summary does is not modelled.
- EmailSubject.SubjectTag: `size_t` wrap-around of `start + idx - 1` is not modelled, because the header states no bound; numbers are unbounded.
- Errors from the diff engine or from a failed allocation are not modelled; the engine is a total function here.
