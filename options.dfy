/**
 * The options record of the e-mail formatter: the flags word with its two
 * bits, the subject prefix, the start number and the re-roll number, the
 * all-defaults initializer, and how unset fields resolve to the documented
 * defaults.
 */
module EmailOptions {
  import opened Wrappers

  /** The flags word is a `uint32_t`. */
  type FlagsWord = bv32

  /** Normal patch, the default: no bit set. */
  const DEFAULT: FlagsWord := 0
  /** Bit 0: do not include patch numbers in the subject prefix. */
  const OMIT_NUMBERS: FlagsWord := 1 << 0
  /** Bit 1: include patch numbers even for a single-commit patch. */
  const ALWAYS_NUMBER: FlagsWord := 1 << 1
  /** Every bit that has a meaning. */
  const KNOWN_FLAGS: FlagsWord := OMIT_NUMBERS | ALWAYS_NUMBER

  /** The flags word read as two independent switches. */
  datatype Flags = Flags(omitNumbers: bool, alwaysNumber: bool)

  /** Reads the two bits of a flags word; bits without a meaning are ignored. */
  function DecodeFlags(w: FlagsWord): Flags
  {
    Flags(w & OMIT_NUMBERS != 0, w & ALWAYS_NUMBER != 0)
  }

  /** The flags word that sets exactly the switches of `f`. */
  function EncodeFlags(f: Flags): (w: FlagsWord)
    ensures DecodeFlags(w) == f
    ensures w & !KNOWN_FLAGS == 0
  {
    (if f.omitNumbers then OMIT_NUMBERS else DEFAULT) |
    (if f.alwaysNumber then ALWAYS_NUMBER else DEFAULT)
  }

  /** The three named values decode to: neither, omit only, always only. */
  lemma NamedFlagValues()
    ensures DecodeFlags(DEFAULT) == Flags(false, false)
    ensures DecodeFlags(OMIT_NUMBERS) == Flags(true, false)
    ensures DecodeFlags(ALWAYS_NUMBER) == Flags(false, true)
    ensures OMIT_NUMBERS & ALWAYS_NUMBER == 0
  {
  }

  /** Decoding is exact: a word using only the known bits is rebuilt from its decoding. */
  lemma FlagsWordExact(w: FlagsWord)
    requires w & !KNOWN_FLAGS == 0
    ensures EncodeFlags(DecodeFlags(w)) == w
  {
  }

  /** The bits are independent: setting or clearing OMIT_NUMBERS leaves ALWAYS_NUMBER as it was. */
  lemma OmitBitIndependent(w: FlagsWord)
    ensures DecodeFlags(w | OMIT_NUMBERS) == DecodeFlags(w).(omitNumbers := true)
    ensures DecodeFlags(w & !OMIT_NUMBERS) == DecodeFlags(w).(omitNumbers := false)
  {
  }

  /** The bits are independent: setting or clearing ALWAYS_NUMBER leaves OMIT_NUMBERS as it was. */
  lemma AlwaysBitIndependent(w: FlagsWord)
    ensures DecodeFlags(w | ALWAYS_NUMBER) == DecodeFlags(w).(alwaysNumber := true)
    ensures DecodeFlags(w & !ALWAYS_NUMBER) == DecodeFlags(w).(alwaysNumber := false)
  {
  }

  /**
   * The options record. A NULL subject prefix is `None`; `startNumber` and
   * `rerollNumber` are `size_t`, where 0 means "unset".
   */
  datatype Options = Options(
    flags: FlagsWord,
    subjectPrefix: Option<string>,
    startNumber: nat,
    rerollNumber: nat)

  /** The initializer: default flags, and every other field zero or NULL. */
  const OPTIONS_INIT: Options := Options(DEFAULT, None, 0, 0)

  /** The subject prefix used when none is set. */
  const DEFAULT_SUBJECT_PREFIX: string := "PATCH"

  type Positive = n: nat | 1 <= n witness 1

  /** The options after every unset field has been given its documented default. */
  datatype Settings = Settings(
    flags: Flags,
    prefix: string,
    start: Positive,
    reroll: Option<Positive>)

  /**
   * Resolves the options: a NULL prefix means "PATCH", a start number of 0
   * means the default 1, a re-roll number of 0 means no re-roll.
   */
  function Resolve(o: Options): (s: Settings)
    ensures s.flags == DecodeFlags(o.flags)
    ensures s.prefix == (if o.subjectPrefix.Some? then o.subjectPrefix.value else "PATCH")
    ensures s.start >= 1 && (o.startNumber != 0 ==> s.start == o.startNumber)
    ensures o.startNumber == 0 ==> s.start == 1
    ensures s.reroll.None? <==> o.rerollNumber == 0
    ensures s.reroll.Some? ==> s.reroll.value == o.rerollNumber
  {
    var prefix := match o.subjectPrefix
      case None => DEFAULT_SUBJECT_PREFIX
      case Some(p) => p;
    var start := if o.startNumber == 0 then 1 else o.startNumber;
    var reroll := if o.rerollNumber == 0 then None else Some(o.rerollNumber);
    Settings(DecodeFlags(o.flags), prefix, start, reroll)
  }

  /** The initializer resolves to the documented defaults: no flag, "PATCH", start 1, no re-roll. */
  lemma InitResolvesToDefaults()
    ensures Resolve(OPTIONS_INIT) == Settings(Flags(false, false), "PATCH", 1, None)
  {
  }

  /**
   * Leaving a field unset is the same as setting it to its documented
   * default: NULL prefix and "PATCH", start 0 and start 1, re-roll 0 and none.
   */
  lemma UnsetIsDocumentedDefault(o: Options)
    ensures o.subjectPrefix.None? ==>
      Resolve(o) == Resolve(o.(subjectPrefix := Some(DEFAULT_SUBJECT_PREFIX)))
    ensures o.startNumber == 0 ==> Resolve(o) == Resolve(o.(startNumber := 1))
    ensures o.rerollNumber == 0 ==> Resolve(o).reroll.None?
  {
  }
}
