/**
 * The two entry points: an e-mail from a diff and its commit metadata, and
 * an e-mail from a single commit, which refuses merge commits.
 */
module Email {
  import opened Wrappers
  import opened EmailOptions
  import opened EmailSubject

  /** An object id, kept as its raw bytes; its text form is not modelled. */
  datatype Oid = Oid(bytes: seq<bv8>)

  /** An author identity: name, address, time and offset from UTC in minutes. */
  datatype Signature = Signature(name: string, email: string, time: int, offset: int)

  /** What the diff engine renders for a change: its diffstat and its diff text. */
  datatype Diff = Diff(diffstat: string, patch: string)

  /** The parts of an e-mail's body, in the order they appear. */
  datatype Section = BodyText(text: string) | Diffstat(text: string) | DiffText(text: string)

  /** A formatted e-mail: who, which commit, the subject and the body sections. */
  datatype Email = Email(commitId: Oid, author: Signature, subject: Subject, sections: seq<Section>)

  datatype EmailError =
    | InvalidPatchIndex   // the patch index is not within 1..patch count
    | MergeCommit         // the commit has more than one parent

  /** Every body text in `secs` stands above every diffstat. */
  ghost predicate BodyAboveDiffstat(secs: seq<Section>)
  {
    forall i, j :: 0 <= i < |secs| && 0 <= j < |secs| && secs[i].BodyText? && secs[j].Diffstat? ==> i < j
  }

  /** The body of the e-mail: the optional text, then the diffstat, then the diff. */
  function Sections(diff: Diff, body: Option<string>): (secs: seq<Section>)
    ensures |secs| == if body.Some? then 3 else 2
    ensures body.Some? ==> secs[0] == BodyText(body.value)
    ensures secs[|secs| - 2] == Diffstat(diff.diffstat) && secs[|secs| - 1] == DiffText(diff.patch)
  {
    var tail := [Diffstat(diff.diffstat), DiffText(diff.patch)];
    match body
    case None => tail
    case Some(text) => [BodyText(text)] + tail
  }

  /**
   * The body text stands above the diffstat; there is body text exactly when
   * some is given, and there is one diffstat, the one of the change.
   */
  lemma SectionsOrder(diff: Diff, body: Option<string>)
    ensures var secs := Sections(diff, body);
      && BodyAboveDiffstat(secs)
      && ((exists i :: 0 <= i < |secs| && secs[i].BodyText?) <==> body.Some?)
      && (forall i :: 0 <= i < |secs| && secs[i].Diffstat? ==> i == |secs| - 2)
  {
    var secs := Sections(diff, body);
    if body.Some? {
      assert secs[0].BodyText?;
    }
  }

  /**
   * The formatting both entry points share: the e-mail of patch `patchIdx`
   * of `patchCount`, once the index is known to be valid.
   */
  function Compose(
    diff: Diff, patchIdx: nat, patchCount: nat, commitId: Oid, summary: string,
    body: Option<string>, author: Signature, opts: Options): (e: Email)
    requires 1 <= patchIdx <= patchCount
  {
    Email(commitId, author, MakeSubject(opts, patchIdx, patchCount, summary), Sections(diff, body))
  }

  /**
   * Formats patch `patchIdx` (1-based) of a `patchCount`-patch series. An
   * index outside 1..patchCount is an error and yields no e-mail.
   */
  function FromDiff(
    diff: Diff, patchIdx: nat, patchCount: nat, commitId: Oid, summary: string,
    body: Option<string>, author: Signature, opts: Options): (r: Result<Email, EmailError>)
    ensures r.Err? <==> !(1 <= patchIdx <= patchCount)
    ensures r.Err? ==> r.error == InvalidPatchIndex
    ensures r.Ok? ==>
      && r.value.commitId == commitId
      && r.value.author == author
      && r.value.subject == MakeSubject(opts, patchIdx, patchCount, summary)
      && r.value.sections == Sections(diff, body)
  {
    if 1 <= patchIdx <= patchCount then
      Ok(Compose(diff, patchIdx, patchCount, commitId, summary, body, author, opts))
    else
      Err(InvalidPatchIndex)
  }

  /**
   * A commit as the formatter reads it: its id, its parents, the summary
   * (first line of its message), the rest of the message, and its author.
   */
  datatype Commit = Commit(id: Oid, parents: seq<Oid>, summary: string, body: Option<string>, author: Signature)

  /** The diff a single-parent (or root) commit is shown against: its first parent, if any. */
  function DiffBase(c: Commit): (base: Option<Oid>)
    requires |c.parents| <= 1
    ensures base.None? <==> c.parents == []
    ensures base.Some? ==> base.value in c.parents
  {
    if c.parents == [] then None else Some(c.parents[0])
  }

  /**
   * Formats one commit as patch 1 of 1. `diffOf(base, target)` is the diff
   * engine. A merge commit is refused and yields no e-mail.
   */
  function FromCommit(c: Commit, diffOf: (Option<Oid>, Oid) -> Diff, opts: Options): (r: Result<Email, EmailError>)
    ensures r.Err? <==> |c.parents| > 1
    ensures r.Err? ==> r.error == MergeCommit
    ensures r.Ok? ==>
      && r.value.commitId == c.id
      && r.value.author == c.author
      && r.value.subject == MakeSubject(opts, 1, 1, c.summary)
      && r.value.sections == Sections(diffOf(DiffBase(c), c.id), c.body)
  {
    if |c.parents| > 1 then
      Err(MergeCommit)
    else
      FromDiff(diffOf(DiffBase(c), c.id), 1, 1, c.id, c.summary, c.body, c.author, opts)
  }

  /** The body text of a successful e-mail stands above its diffstat. */
  lemma FromDiffBodyAboveDiffstat(
    diff: Diff, patchIdx: nat, patchCount: nat, commitId: Oid, summary: string,
    body: Option<string>, author: Signature, opts: Options)
    requires 1 <= patchIdx <= patchCount
    ensures var r := FromDiff(diff, patchIdx, patchCount, commitId, summary, body, author, opts);
      && r.Ok?
      && BodyAboveDiffstat(r.value.sections)
      && (body.Some? ==> r.value.sections == [BodyText(body.value), Diffstat(diff.diffstat), DiffText(diff.patch)])
      && (body.None? ==> r.value.sections == [Diffstat(diff.diffstat), DiffText(diff.patch)])
  {
    SectionsOrder(diff, body);
  }

  /**
   * A commit formatted on its own is a one-patch series: with the default
   * flags it shows no numbers, with ALWAYS_NUMBER it shows start/start.
   */
  lemma FromCommitIsSinglePatch(c: Commit, diffOf: (Option<Oid>, Oid) -> Diff, opts: Options)
    requires |c.parents| <= 1
    ensures var r := FromCommit(c, diffOf, opts);
      var f := DecodeFlags(opts.flags);
      var t := r.value.subject.tag;
      && r.Ok?
      && ((t.Some? && t.value.numbers.Some?) <==> (f.alwaysNumber && !f.omitNumbers))
      && (t.Some? && t.value.numbers.Some? ==> t.value.numbers.value == Numbers(Resolve(opts).start, Resolve(opts).start))
  {
  }
}
