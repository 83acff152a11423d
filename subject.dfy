/**
 * The subject-tag decision: whether the patch numbers are shown, which
 * prefix word is used, and whether a bracketed tag appears at all.
 */
module EmailSubject {
  import opened Wrappers
  import opened EmailOptions

  /** The "N/M" pair as displayed. */
  datatype Numbers = Numbers(index: nat, total: nat)

  /**
   * The bracketed tag of a subject, kept as its parts rather than as bytes:
   * the prefix word (absent when the prefix is empty), the re-roll number,
   * and the patch numbers.
   */
  datatype Tag = Tag(prefix: Option<string>, reroll: Option<Positive>, numbers: Option<Numbers>)

  /** A subject line: an optional tag followed by the commit summary. */
  datatype Subject = Subject(tag: Option<Tag>, summary: string)

  /**
   * Whether a patch of a `count`-patch series shows its numbers. OMIT_NUMBERS
   * always wins, including when ALWAYS_NUMBER is set too (a modelling choice);
   * ALWAYS_NUMBER shows them even for a single commit; otherwise only a
   * series of more than one patch is numbered.
   */
  function ShowNumbers(f: Flags, count: nat): bool
  {
    if f.omitNumbers then false
    else if f.alwaysNumber then true
    else count > 1
  }

  /**
   * The tag of patch `idx` (1-based) of a `count`-patch series. Numbering
   * starts at the start number, so the displayed index is shifted by
   * `start - 1`, and so is the displayed total.
   */
  function SubjectTag(s: Settings, idx: nat, count: nat): (t: Option<Tag>)
    requires 1 <= idx <= count
    ensures t.None? <==> s.prefix == [] && !ShowNumbers(s.flags, count)
    ensures t.Some? ==> (t.value.numbers.Some? <==> ShowNumbers(s.flags, count))
    ensures t.Some? ==> (t.value.prefix.None? <==> s.prefix == [])
    ensures t.Some? && t.value.prefix.Some? ==> t.value.prefix.value == s.prefix
    ensures t.Some? ==> t.value.reroll == s.reroll
    ensures t.Some? && t.value.numbers.Some? ==>
      var n := t.value.numbers.value;
      && 1 <= s.start <= n.index <= n.total
      && n.index - s.start == idx - 1
      && n.total - n.index == count - idx
  {
    var word := if s.prefix == [] then None else Some(s.prefix);
    var numbers :=
      if ShowNumbers(s.flags, count)
      then Some(Numbers(s.start + idx - 1, s.start + count - 1))
      else None;
    match (word, numbers)
    case (None, None) => None
    case _ => Some(Tag(word, s.reroll, numbers))
  }

  /**
   * The subject of patch `idx` of `count` with the given summary, stated in
   * terms of the options as the caller sets them: a NULL prefix gives the
   * word "PATCH", a non-empty prefix is used verbatim, an empty prefix gives
   * numbers only, or no tag at all when the numbers are not shown.
   * OMIT_NUMBERS hides the numbers (also when ALWAYS_NUMBER is set, by the
   * choice made in ShowNumbers); ALWAYS_NUMBER alone shows them; with
   * neither, only a series of more than one patch is numbered.
   */
  function MakeSubject(o: Options, idx: nat, count: nat, summary: string): (subj: Subject)
    requires 1 <= idx <= count
    ensures subj.summary == summary
    ensures o.subjectPrefix.None? ==> subj.tag.Some? && subj.tag.value.prefix == Some("PATCH")
    ensures o.subjectPrefix.Some? && o.subjectPrefix.value != "" ==>
      subj.tag.Some? && subj.tag.value.prefix == o.subjectPrefix
    ensures o.subjectPrefix == Some("") ==>
      && (subj.tag.Some? ==> subj.tag.value.prefix.None?)
      && (subj.tag.None? <==> !ShowNumbers(DecodeFlags(o.flags), count))
    ensures o.flags & OMIT_NUMBERS != 0 ==> subj.tag.None? || subj.tag.value.numbers.None?
    ensures o.flags & ALWAYS_NUMBER != 0 && o.flags & OMIT_NUMBERS == 0 ==>
      subj.tag.Some? && subj.tag.value.numbers.Some?
    ensures o.flags & KNOWN_FLAGS == 0 ==>
      (subj.tag.Some? && subj.tag.value.numbers.Some? <==> count > 1)
    ensures subj.tag.Some? ==> (subj.tag.value.reroll.None? <==> o.rerollNumber == 0)
    ensures subj.tag.Some? && subj.tag.value.numbers.Some? ==>
      var n := subj.tag.value.numbers.value;
      && 1 <= n.index <= n.total
      && n.total - n.index == count - idx
      && (o.startNumber <= 1 ==> n == Numbers(idx, count))
  {
    Subject(SubjectTag(Resolve(o), idx, count), summary)
  }

  /** With the prefix unset, the prefix word is "PATCH". */
  lemma UnsetPrefixIsPatch(o: Options, idx: nat, count: nat, summary: string)
    requires 1 <= idx <= count
    requires o.subjectPrefix.None?
    ensures MakeSubject(o, idx, count, summary).tag.Some?
    ensures MakeSubject(o, idx, count, summary).tag.value.prefix == Some("PATCH")
  {
  }

  /** An empty prefix with the numbers shown: the tag holds only the numbers (and any re-roll). */
  lemma EmptyPrefixShowsOnlyNumbers(o: Options, idx: nat, count: nat, summary: string)
    requires 1 <= idx <= count
    requires o.subjectPrefix == Some("")
    requires ShowNumbers(DecodeFlags(o.flags), count)
    ensures MakeSubject(o, idx, count, summary).tag.Some?
    ensures MakeSubject(o, idx, count, summary).tag.value.prefix.None?
    ensures MakeSubject(o, idx, count, summary).tag.value.numbers.Some?
  {
  }

  /** An empty prefix with the numbers not shown: no tag, the subject is the summary alone. */
  lemma EmptyPrefixNoNumbersIsBareSummary(o: Options, idx: nat, count: nat, summary: string)
    requires 1 <= idx <= count
    requires o.subjectPrefix == Some("")
    requires !ShowNumbers(DecodeFlags(o.flags), count)
    ensures MakeSubject(o, idx, count, summary) == Subject(None, summary)
  {
  }

  /**
   * With OMIT_NUMBERS set no numbers appear, whatever the patch count (with
   * ALWAYS_NUMBER also set: by the model's choice in ShowNumbers).
   */
  lemma OmitNumbersHidesNumbers(o: Options, idx: nat, count: nat, summary: string)
    requires 1 <= idx <= count
    requires o.flags & OMIT_NUMBERS != 0
    ensures var t := MakeSubject(o, idx, count, summary).tag;
      t.None? || t.value.numbers.None?
  {
  }

  /**
   * With ALWAYS_NUMBER set (and OMIT_NUMBERS clear) a one-patch series is
   * numbered: "1/1" with the default start number.
   */
  lemma AlwaysNumberSinglePatch(o: Options, summary: string)
    requires o.flags & ALWAYS_NUMBER != 0 && o.flags & OMIT_NUMBERS == 0
    ensures var t := MakeSubject(o, 1, 1, summary).tag;
      t.Some? && t.value.numbers == Some(Numbers(Resolve(o).start, Resolve(o).start))
    ensures o.startNumber <= 1 ==>
      MakeSubject(o, 1, 1, summary).tag.value.numbers == Some(Numbers(1, 1))
  {
  }

  /** With neither flag, a single-commit patch shows no numbers; a longer series does. */
  lemma DefaultNumbering(o: Options, idx: nat, count: nat, summary: string)
    requires 1 <= idx <= count
    requires o.flags & KNOWN_FLAGS == 0
    ensures var t := MakeSubject(o, idx, count, summary).tag;
      (t.Some? && t.value.numbers.Some?) <==> count > 1
  {
  }

  /**
   * With the initializer's options a one-patch series keeps the "PATCH"
   * word but shows no numbers: the prefix is omitted only when it is empty.
   */
  lemma DefaultSinglePatchSubject(summary: string)
    ensures MakeSubject(OPTIONS_INIT, 1, 1, summary)
      == Subject(Some(Tag(Some("PATCH"), None, None)), summary)
  {
  }
}
