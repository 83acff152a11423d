/**
 * A patch series as a caller formats it: patch k of n for k = 1..n, every
 * call given the same options and the same patch count. The lemmas state
 * that the numbering and labelling agree across the whole series.
 */
module EmailSeries {
  import opened Wrappers
  import opened EmailOptions
  import opened EmailSubject
  import opened Email

  /** One patch of a series: its diff and its commit metadata. */
  datatype Patch = Patch(diff: Diff, commitId: Oid, summary: string, body: Option<string>, author: Signature)

  /** Formats patch `p` as patch `idx` of `count`. */
  function FormatPatch(p: Patch, idx: nat, count: nat, opts: Options): Email
    requires 1 <= idx <= count
  {
    Compose(p.diff, idx, count, p.commitId, p.summary, p.body, p.author, opts)
  }

  /** The e-mails of the first `n` patches of the series `ps`, in order. */
  function FormatFirst(ps: seq<Patch>, n: nat, opts: Options): (emails: seq<Email>)
    requires n <= |ps|
    ensures |emails| == n
    ensures forall j :: 0 <= j < n ==> emails[j] == FormatPatch(ps[j], j + 1, |ps|, opts)
  {
    if n == 0 then []
    else FormatFirst(ps, n - 1, opts) + [FormatPatch(ps[n - 1], n, |ps|, opts)]
  }

  /**
   * The e-mails of a whole series, one per patch, in order: for each patch
   * the e-mail that the from-diff entry point returns for its index, which
   * never fails.
   */
  function FormatSeries(ps: seq<Patch>, opts: Options): (emails: seq<Email>)
    ensures |emails| == |ps|
    ensures forall j :: 0 <= j < |ps| ==>
      FromDiff(ps[j].diff, j + 1, |ps|, ps[j].commitId, ps[j].summary, ps[j].body, ps[j].author, opts) == Ok(emails[j])
  {
    FormatFirst(ps, |ps|, opts)
  }

  /** Whether e-mail `e` shows patch numbers. */
  predicate Numbered(e: Email)
  {
    e.subject.tag.Some? && e.subject.tag.value.numbers.Some?
  }

  /** Patch j + 1 of a series is numbered exactly when the series is, and then shows start + j of start + n - 1. */
  lemma PatchNumbering(ps: seq<Patch>, opts: Options, j: nat)
    requires j < |ps|
    ensures var e := FormatSeries(ps, opts)[j];
      var s := Resolve(opts);
      && (Numbered(e) <==> ShowNumbers(s.flags, |ps|))
      && (Numbered(e) ==> e.subject.tag.value.numbers.value == Numbers(s.start + j, s.start + |ps| - 1))
  {
    assert FormatSeries(ps, opts)[j] == FormatPatch(ps[j], j + 1, |ps|, opts);
  }

  /**
   * Across a series, either every e-mail is numbered or none is; when they
   * are, patch j + 1 shows start + j and every one shows the same total,
   * start + n - 1, so the last patch's index equals the total.
   */
  lemma SeriesNumbering(ps: seq<Patch>, opts: Options)
    ensures var es := FormatSeries(ps, opts);
      var s := Resolve(opts);
      forall j :: 0 <= j < |es| ==>
        && (Numbered(es[j]) <==> ShowNumbers(s.flags, |ps|))
        && (Numbered(es[j]) ==> es[j].subject.tag.value.numbers.value == Numbers(s.start + j, s.start + |ps| - 1))
  {
    forall j | 0 <= j < |ps| {
      PatchNumbering(ps, opts, j);
    }
  }

  /**
   * Every e-mail of a series carries the same label: all have a tag or none
   * has, and the tags agree on the prefix word and the re-roll number.
   */
  lemma SeriesLabelsAgree(ps: seq<Patch>, opts: Options, i: nat, j: nat)
    requires i < |ps| && j < |ps|
    ensures var es := FormatSeries(ps, opts);
      var ti := es[i].subject.tag;
      var tj := es[j].subject.tag;
      && (ti.Some? <==> tj.Some?)
      && (ti.Some? ==> ti.value.prefix == tj.value.prefix && ti.value.reroll == tj.value.reroll)
  {
    var es := FormatSeries(ps, opts);
    assert es[i] == FormatPatch(ps[i], i + 1, |ps|, opts);
    assert es[j] == FormatPatch(ps[j], j + 1, |ps|, opts);
  }

  /** When a series is numbered, its patch indexes strictly increase in series order. */
  lemma SeriesIndexesIncrease(ps: seq<Patch>, opts: Options, i: nat, j: nat)
    requires i < j < |ps|
    requires ShowNumbers(Resolve(opts).flags, |ps|)
    ensures var es := FormatSeries(ps, opts);
      && Numbered(es[i]) && Numbered(es[j])
      && es[i].subject.tag.value.numbers.value.index < es[j].subject.tag.value.numbers.value.index
  {
    SeriesNumbering(ps, opts);
  }
}
