/** Model prices: the terms of an entry, the rules each model family imposes on
    them, and the validators of extracted entries. */
module PricingRules {
  import opened Text

  type Price = Option<real>

  /** The canonical families and bases, and any other text. */
  datatype Family =
    | Llm | Embeddings | RealtimeVoice | TextToSpeech | SpeechToText | ImageGeneration | VideoGeneration | Moderation
    | OtherFamily(name: string)

  datatype Basis = PerTokens | PerCharacters | PerImage | PerSecond | PerMinute | OtherBasis(name: string)

  datatype Terms = Terms(
    basis: Basis,
    input: Price,
    cached: Price,
    output: Price,
    normalized: Price,
    unit: string,
    notes: seq<string>)

  function UnitName(basis: Basis): string {
    match basis
    case PerTokens => "per_1m_tokens"
    case PerCharacters => "per_1m_characters"
    case PerImage => "medium_1024x1536_per_image"
    case PerSecond => "per_second"
    case PerMinute => "per_minute"
    case OtherBasis(_) => "unknown"
  }

  function DefaultBasis(family: Family): Basis {
    match family
    case TextToSpeech => PerCharacters
    case SpeechToText => PerMinute
    case ImageGeneration => PerImage
    case VideoGeneration => PerSecond
    case _ => PerTokens
  }

  function OrPrice(a: Price, b: Price): Price {
    if a.Some? then a else b
  }

  /** A price of zero is no price. */
  function DropZero(p: Price): Price {
    if p == Some(0.0) then None else p
  }

  /** Prices that a basis other than tokens has no use for. */
  function Sanitize(t: Terms): Terms {
    if t.basis == PerTokens then t
    else t.(input := DropZero(t.input), cached := None, output := DropZero(t.output))
  }

  /** The given normalised price, else the output price, else the input price. */
  function Normalized(t: Terms): Terms {
    t.(normalized := OrPrice(t.normalized, OrPrice(t.output, t.input)))
  }

  // ---- Notes ------------------------------------------------------------

  /** `sorted(set(note for note in notes if note.strip()))`. */
  ghost function NoteSet(notes: seq<string>): set<string> {
    set note | note in notes && NonBlank(note)
  }

  predicate FreeNote(note: string) {
    Contains(Lower(note), "free of charge") || Lower(note) == "free"
  }

  ghost predicate IsFree(notes: seq<string>) {
    exists note :: note in notes && FreeNote(note)
  }

  const STATUS_FREE := "status:free"
  const STATUS_PRICED := "status:priced"

  // ---- The rules --------------------------------------------------------

  function FamilyBasis(family: Family, basis: Basis): Basis {
    match family
    case TextToSpeech => if basis == PerCharacters || basis == PerMinute then basis else PerCharacters
    case ImageGeneration => if basis == PerTokens then basis else PerImage
    case OtherFamily(_) => basis
    case _ => DefaultBasis(family)
  }

  /** `_enforce_family_pricing_rules`. */
  ghost function Enforce(family: Family, t: Terms): Terms {
    var basis, notes := FamilyBasis(family, t.basis), Sorted(NoteSet(t.notes));
    match family
    case OtherFamily(_) => t.(notes := notes)
    case Moderation =>
      var free := IsFree(notes);
      var status := if free then STATUS_FREE else STATUS_PRICED;
      var zero := free && t.normalized.None? && t.output.None? && t.input.None?;
      Normalized(t.(basis := basis, unit := UnitName(basis), notes := Sorted(Elements(notes) + {status}),
                    normalized := if zero then Some(0.0) else t.normalized))
    case _ =>
      Normalized(Sanitize(t.(basis := basis, unit := UnitName(basis), notes := notes)))
  }

  // ---- Rules applied twice ----------------------------------------------

  lemma StatusIsNotFree()
    ensures !FreeNote(STATUS_FREE) && !FreeNote(STATUS_PRICED)
    ensures NonBlank(STATUS_FREE) && NonBlank(STATUS_PRICED)
  {
    assert |Lower(STATUS_FREE)| == 11 && |Lower(STATUS_PRICED)| == 13 && |"free of charge"| == 14 && |"free"| == 4;
    StartsUnspaced(STATUS_FREE);
    StartsUnspaced(STATUS_PRICED);
  }

  lemma StartsUnspaced(s: string)
    requires s != "" && !IsSpace(s[0])
    ensures NonBlank(s)
  {
  }

  lemma NotesSettle(notes: seq<string>)
    ensures NoteSet(Sorted(NoteSet(notes))) == NoteSet(notes)
    ensures Sorted(NoteSet(Sorted(NoteSet(notes)))) == Sorted(NoteSet(notes))
  {
    hide NonBlank;
    assert forall x :: x in Sorted(NoteSet(notes)) <==> x in NoteSet(notes);
    assert NoteSet(Sorted(NoteSet(notes))) == NoteSet(notes);
  }

  /** The moderation status is decided by the other notes, so it is decided alike again. */
  lemma ModerationNotesSettle(notes: seq<string>, status: string, once: seq<string>)
    requires status == if IsFree(Sorted(NoteSet(notes))) then STATUS_FREE else STATUS_PRICED
    requires once == Sorted(Elements(Sorted(NoteSet(notes))) + {status})
    ensures NoteSet(once) == Elements(once) && Sorted(NoteSet(once)) == once
    ensures IsFree(once) <==> IsFree(Sorted(NoteSet(notes)))
    ensures Sorted(Elements(once) + {status}) == once
  {
    hide NonBlank, FreeNote;
    StatusIsNotFree();
    var first := Sorted(NoteSet(notes));
    var all := Elements(first) + {status};
    assert forall x :: x in once <==> x in first || x == status;
    assert NoteSet(once) == all && Elements(once) == all && Elements(once) + {status} == all;
  }

  /** Enforcing the rules a second time changes nothing. */
  lemma EnforceIsIdempotent(family: Family, t: Terms)
    ensures Enforce(family, Enforce(family, t)) == Enforce(family, t)
  {
    hide NoteSet, Elements, IsFree, StrictlySorted;
    NotesSettle(t.notes);
    if family == Moderation {
      var first := Sorted(NoteSet(t.notes));
      var status := if IsFree(first) then STATUS_FREE else STATUS_PRICED;
      ModerationNotesSettle(t.notes, status, Sorted(Elements(first) + {status}));
    }
  }

  // ---- The validators ---------------------------------------------------

  datatype Entry = Entry(
    modelId: string,
    family: Family,
    terms: Terms,
    sourceUrl: string,
    extractedAt: string,
    status: string)

  predicate NotNegative(p: Price) {
    p.Some? ==> p.value >= 0.0
  }

  predicate NoNegatives(t: Terms) {
    NotNegative(t.input) && NotNegative(t.cached) && NotNegative(t.output) && NotNegative(t.normalized)
  }

  /** What `validate_openai_pricing_entries` asks of one entry. */
  predicate ValidEntry(e: Entry) {
    && NonBlank(e.modelId)
    && !e.terms.basis.OtherBasis?
    && !e.family.OtherFamily?
    && NonBlank(e.terms.unit)
    && NoNegatives(e.terms)
  }

  /** A catalogue lists each model once, by its id. */
  type Catalog = map<string, Entry>

  /** `validate_openai_pricing_entries`: some entry, and every entry valid. */
  predicate ValidCatalog(c: Catalog) {
    c != map[] && forall id :: id in c ==> ValidEntry(c[id])
  }

  predicate IsStatus(note: string) {
    |note| >= 7 && note[..7] == "status:"
  }

  /** What `_validate_family_extracted_entries` asks of one entry of the family. */
  predicate ValidForFamily(family: Family, t: Terms) {
    match family
    case Moderation => exists i :: 0 <= i < |t.notes| && IsStatus(t.notes[i])
    case SpeechToText => t.basis == PerMinute && t.normalized.Some?
    case VideoGeneration => t.basis == PerSecond && t.normalized.Some?
    case ImageGeneration => (t.basis == PerImage || t.basis == PerTokens) && t.normalized.Some?
    case TextToSpeech =>
      && (t.basis == PerCharacters || t.basis == PerMinute)
      && t.unit in ["per_1m_characters", "per_minute"]
      && t.normalized.Some?
    case OtherFamily(_) => true
    case _ => t.basis == PerTokens && (t.input.Some? || t.output.Some? || t.normalized.Some?)
  }

  /** A price the family's basis can use. */
  predicate HasPrice(family: Family, t: Terms) {
    || t.normalized.Some?
    || (if FamilyBasis(family, t.basis) == PerTokens then t.input.Some? || t.output.Some?
        else DropZero(t.input).Some? || DropZero(t.output).Some?)
  }

  /** After the rules an entry meets every basis, unit and status clause of the
      family validator; what it can still lack is a price. */
  lemma EnforcedIsValidIffPriced(family: Family, t: Terms)
    requires !family.OtherFamily?
    ensures ValidForFamily(family, Enforce(family, t)) <==> family == Moderation || HasPrice(family, t)
    ensures !Enforce(family, t).basis.OtherBasis? && NonBlank(Enforce(family, t).unit)
    ensures Enforce(family, t).unit == UnitName(Enforce(family, t).basis)
  {
    hide NoteSet, IsFree, NonBlank;
    UnitsAreNamed(Enforce(family, t).basis);
    if family == Moderation {
      var notes := Enforce(family, t).notes;
      var status := if IsFree(Sorted(NoteSet(t.notes))) then STATUS_FREE else STATUS_PRICED;
      assert status in notes && IsStatus(status);
    }
  }

  lemma UnitsAreNamed(basis: Basis)
    ensures NonBlank(UnitName(basis))
  {
    StartsUnspaced(UnitName(basis));
  }

  /** The rules bring in no negative price, and lose none that the basis can use. */
  lemma EnforceKeepsPrices(family: Family, t: Terms)
    requires NoNegatives(t)
    ensures NoNegatives(Enforce(family, t))
    ensures t.normalized.Some? ==> Enforce(family, t).normalized == t.normalized
    ensures FamilyBasis(family, t.basis) == PerTokens ==>
              var e := Enforce(family, t); e.input == t.input && e.cached == t.cached && e.output == t.output
  {
    hide NoteSet, IsFree;
  }

  // ---- Base identifiers -------------------------------------------------

  predicate Digits(s: string) {
    forall i :: 0 <= i < |s| ==> '0' <= s[i] <= '9'
  }

  /** Ends in a date like -2024-05-13. */
  predicate EndsInLongDate(s: string) {
    |s| > 11
    && var d := s[|s| - 11..];
    d[0] == '-' && Digits(d[1..5]) && d[5] == '-' && Digits(d[6..8]) && d[8] == '-' && Digits(d[9..11])
  }

  /** Ends in a date like -20240513. */
  predicate EndsInShortDate(s: string) {
    |s| > 9 && s[|s| - 9] == '-' && Digits(s[|s| - 8..])
  }

  /** `resolve_openai_base_model_id`. */
  function BaseId(id: string): string
    decreases |Strip(id)|
  {
    var n := Lower(Strip(id));
    if EndsInLongDate(n) then (StripShortens(n[..|n| - 11]); BaseId(n[..|n| - 11]))
    else if EndsInShortDate(n) then (StripShortens(n[..|n| - 9]); BaseId(n[..|n| - 9]))
    else if EndsWith(n, "-latest") && |n| > 7 then n[..|n| - 7]
    else if EndsWith(n, "-preview") && |n| > 8 then n[..|n| - 8]
    else n
  }

  lemma StripShortens(s: string)
    ensures |Strip(s)| <= |s|
  {
    TrimStartShortens(s);
    TrimEndShortens(TrimStart(s));
  }

  lemma {:induction false} TrimStartShortens(s: string)
    ensures |TrimStart(s)| <= |s|
  {
    if s != "" && IsSpace(s[0]) {
      TrimStartShortens(s[1..]);
    }
  }

  lemma {:induction false} TrimEndShortens(s: string)
    ensures |TrimEnd(s)| <= |s|
  {
    if s != "" && IsSpace(s[|s| - 1]) {
      TrimEndShortens(s[..|s| - 1]);
    }
  }
}
