/** Refreshing the price catalogue: extraction answers are read family by
    family, merged with the last good prices, overridden and validated. */
module PricingRefresh {
  import opened Text
  import opened PricingRules

  /** One extracted model; an absent text is the empty text. */
  datatype RawItem = RawItem(
    modelId: string,
    basis: string,
    input: Price,
    cached: Price,
    output: Price,
    normalized: Price,
    unit: string,
    notes: seq<string>,
    batchPrices: bool)

  /** An answer that parses: its items, those that are not dictionaries as `None`. */
  type Answer = seq<Option<RawItem>>

  datatype Source = Source(url: string, fetchedAt: string)

  function ParseBasis(text: string): Basis {
    var t := Lower(Strip(text));
    if t == "per_1m_tokens" then PerTokens
    else if t == "per_1m_characters" then PerCharacters
    else if t == "per_image" then PerImage
    else if t == "per_second" then PerSecond
    else if t == "per_minute" then PerMinute
    else OtherBasis(t)
  }

  function BasisOr(text: string, otherwise: Basis): Basis {
    if NonBlank(text) then ParseBasis(text) else otherwise
  }

  /** A negative price is no price. */
  function NormalizePrice(p: Price): Price {
    if p.Some? && p.value < 0.0 then None else p
  }

  function PricesOf(raw: RawItem, basis: Basis): Terms {
    Sanitize(Terms(basis, NormalizePrice(raw.input), NormalizePrice(raw.cached), NormalizePrice(raw.output),
                   NormalizePrice(raw.normalized), Named(raw.unit, UnitName(basis)), raw.notes))
  }

  ghost function ItemNotes(raw: RawItem): seq<string> {
    var trimmed := set note | note in raw.notes && NonBlank(note) :: Strip(note);
    Sorted(if raw.batchPrices then trimmed + {"batch_prices_ignored"} else trimmed)
  }

  /** The allowed model an item is for: as it is named, or by its base name. */
  function ItemId(allowed: map<string, Family>, raw: RawItem): string {
    var named := Lower(Strip(raw.modelId));
    if named in allowed then named else BaseId(raw.modelId)
  }

  ghost function ItemEntry(allowed: map<string, Family>, raw: RawItem, source: Source): Entry
    requires ItemId(allowed, raw) in allowed
  {
    var id := ItemId(allowed, raw);
    var family := allowed[id];
    var prices := PricesOf(raw, BasisOr(raw.basis, DefaultBasis(family)));
    Entry(id, family, Enforce(family, prices.(notes := ItemNotes(raw))), source.url, source.fetchedAt, "ok")
  }

  /** The entries of the first `n` items; an item that is no dictionary or names
      no canonical basis spoils the answer. */
  ghost function ItemEntries(allowed: map<string, Family>, items: Answer, n: nat, source: Source): Option<Catalog>
    requires n <= |items|
  {
    if n == 0 then Some(map[])
    else
      var before := ItemEntries(allowed, items, n - 1, source);
      if before.None? || items[n - 1].None? then None
      else
        var raw := items[n - 1].value;
        var id := ItemId(allowed, raw);
        if id !in allowed || id in before.value then before
        else if BasisOr(raw.basis, DefaultBasis(allowed[id])).OtherBasis? then None
        else Some(before.value[id := ItemEntry(allowed, raw, source)])
  }

  // ---- Families and jobs ------------------------------------------------

  /** The extraction prompts, each for one or two families. */
  datatype Job = TextJob | AudioJob | ImageJob | VideoJob | SpeechJob | EmbeddingJob

  const JOBS := [TextJob, AudioJob, ImageJob, VideoJob, SpeechJob, EmbeddingJob]

  function JobOf(family: Family): Option<Job> {
    match family
    case Llm => Some(TextJob)
    case RealtimeVoice => Some(AudioJob)
    case ImageGeneration => Some(ImageJob)
    case VideoGeneration => Some(VideoJob)
    case SpeechToText => Some(SpeechJob)
    case TextToSpeech => Some(SpeechJob)
    case Embeddings => Some(EmbeddingJob)
    case Moderation => Some(EmbeddingJob)
    case OtherFamily(_) => None
  }

  function Targets(allowed: map<string, Family>, job: Job): (r: map<string, Family>)
    ensures forall id :: id in r <==> id in allowed && JobOf(allowed[id]) == Some(job)
    ensures forall id :: id in r ==> r[id] == allowed[id]
  {
    map id | id in allowed && JobOf(allowed[id]) == Some(job) :: allowed[id]
  }

  /** The families of the allowed models that a job covers. */
  predicate Covers(allowed: map<string, Family>, job: Job, family: Family) {
    exists id :: id in allowed && allowed[id] == family && JobOf(family) == Some(job)
  }

  /** A job's entries, when its answer parses and is valid as a whole and family by family. */
  ghost function JobEntries(allowed: map<string, Family>, job: Job, answer: Option<Answer>, source: Source): Option<Catalog> {
    if answer.None? then None
    else
      var entries := ItemEntries(Targets(allowed, job), answer.value, |answer.value|, source);
      if entries.None? || !ValidCatalog(entries.value) then None
      else if exists id :: id in entries.value && !ValidForFamily(entries.value[id].family, entries.value[id].terms) then None
      else entries
  }

  /** What the jobs answered; a job without targets is not run. */
  type Answers = map<Job, Option<Answer>>

  /** The answer of a job, if there is one that parses. */
  function AnswerTo(answers: Answers, job: Job): Option<Answer> {
    if job in answers then answers[job] else None
  }

  ghost predicate Succeeds(allowed: map<string, Family>, answers: Answers, source: Source, job: Job) {
    Targets(allowed, job) != map[] && JobEntries(allowed, job, AnswerTo(answers, job), source).Some?
  }

  /** The entries of all jobs that succeeded, among the first `n`. */
  ghost function Merged(allowed: map<string, Family>, answers: Answers, source: Source, n: nat): Catalog
    requires n <= |JOBS|
  {
    if n == 0 then map[]
    else if Succeeds(allowed, answers, source, JOBS[n - 1]) then
      Merged(allowed, answers, source, n - 1) + JobEntries(allowed, JOBS[n - 1], AnswerTo(answers, JOBS[n - 1]), source).value
    else Merged(allowed, answers, source, n - 1)
  }

  /** The families of the first `n` jobs that were run and succeeded, or failed. */
  ghost function Families(allowed: map<string, Family>, answers: Answers, source: Source, succeeded: bool, n: nat): set<Family>
    requires n <= |JOBS|
  {
    if n == 0 then {}
    else
      var before := Families(allowed, answers, source, succeeded, n - 1);
      if Targets(allowed, JOBS[n - 1]) != map[] && Succeeds(allowed, answers, source, JOBS[n - 1]) == succeeded
      then before + set id | id in Targets(allowed, JOBS[n - 1]) :: allowed[id]
      else before
  }

  ghost function Succeeded(allowed: map<string, Family>, answers: Answers, source: Source): set<Family> {
    Families(allowed, answers, source, true, |JOBS|)
  }

  ghost function FailedOnes(allowed: map<string, Family>, answers: Answers, source: Source): set<Family> {
    Families(allowed, answers, source, false, |JOBS|)
  }

  ghost predicate Canonical(allowed: map<string, Family>) {
    forall id :: id in allowed ==> !allowed[id].OtherFamily? && NonBlank(id)
  }

  /** A family is covered by one job alone. */
  lemma {:induction false} FamiliesAre(allowed: map<string, Family>, answers: Answers, source: Source, succeeded: bool, n: nat, family: Family)
    requires n <= |JOBS|
    ensures family in Families(allowed, answers, source, succeeded, n) <==>
            exists j :: 0 <= j < n && Covers(allowed, JOBS[j], family) && Succeeds(allowed, answers, source, JOBS[j]) == succeeded
  {
    hide Targets, Succeeds, Covers;
    if n > 0 {
      FamiliesAre(allowed, answers, source, succeeded, n - 1, family);
      TargetsAreCovered(allowed, JOBS[n - 1], family);
    }
  }

  lemma TargetsAreCovered(allowed: map<string, Family>, job: Job, family: Family)
    ensures family in (set id | id in Targets(allowed, job) :: allowed[id]) <==> Covers(allowed, job, family)
    ensures Covers(allowed, job, family) ==> Targets(allowed, job) != map[]
  {
    hide Targets;
    if id :| id in allowed && allowed[id] == family && JobOf(family) == Some(job) {
      assert id in Targets(allowed, job);
    }
  }

  lemma JobIsListed(job: Job)
    ensures exists j :: 0 <= j < |JOBS| && JOBS[j] == job
  {
    var j := match job case TextJob => 0 case AudioJob => 1 case ImageJob => 2 case VideoJob => 3 case SpeechJob => 4 case EmbeddingJob => 5;
    assert JOBS[j] == job;
  }

  /** Whatever the answers, the families of the allowed models split into those
      that succeeded and those that failed; none is in both or in neither. */
  lemma SucceededAndFailedPartition(allowed: map<string, Family>, answers: Answers, source: Source, family: Family)
    requires Canonical(allowed)
    ensures !(family in Succeeded(allowed, answers, source) && family in FailedOnes(allowed, answers, source))
    ensures (exists id :: id in allowed && allowed[id] == family) <==>
            family in Succeeded(allowed, answers, source) || family in FailedOnes(allowed, answers, source)
    ensures family in Succeeded(allowed, answers, source) <==>
            exists id :: id in allowed && allowed[id] == family && Succeeds(allowed, answers, source, JobOf(family).value)
  {
    hide Succeeds, NonBlank;
    FamiliesAre(allowed, answers, source, true, |JOBS|, family);
    FamiliesAre(allowed, answers, source, false, |JOBS|, family);
    if JobOf(family).Some? {
      JobIsListed(JobOf(family).value);
    }
  }

  // ---- Falling back -----------------------------------------------------

  /** A previous entry of an allowed model whose family did not succeed. */
  predicate KeptIn(allowed: map<string, Family>, succeeded: set<Family>, previous: Catalog, id: string) {
    id in previous && id in allowed && previous[id].family == allowed[id] && allowed[id] !in succeeded
  }

  ghost predicate Kept(allowed: map<string, Family>, answers: Answers, source: Source, previous: Catalog, id: string) {
    KeptIn(allowed, Succeeded(allowed, answers, source), previous, id)
  }

  ghost function Preserve(e: Entry, status: string): Entry {
    e.(status := status, terms := e.terms.(notes := Sorted(Elements(e.terms.notes) + {"family_" + status})))
  }

  /** `stale` is for a family that neither succeeded nor failed. */
  function PreservedStatus(failed: set<Family>, family: Family): string {
    if family in failed then "fallback_used" else "stale"
  }

  /** The merged entries, with the previous ones of the other families put over them. */
  ghost function PutBack(allowed: map<string, Family>, succeeded: set<Family>, failed: set<Family>, previous: Catalog, merged: Catalog): Catalog {
    map id | id in merged.Keys + previous.Keys && (id in merged || KeptIn(allowed, succeeded, previous, id)) ::
      if KeptIn(allowed, succeeded, previous, id) then Preserve(previous[id], PreservedStatus(failed, allowed[id])) else merged[id]
  }

  ghost function WithPrevious(allowed: map<string, Family>, answers: Answers, source: Source, previous: Catalog): Catalog {
    PutBack(allowed, Succeeded(allowed, answers, source), FailedOnes(allowed, answers, source), previous,
            Merged(allowed, answers, source, |JOBS|))
  }

  // ---- Overrides --------------------------------------------------------

  datatype Override = Override(
    family: string,
    basis: string,
    input: Price,
    cached: Price,
    output: Price,
    normalized: Price,
    unit: string)

  function ParseFamily(text: string): Family {
    var t := Lower(Strip(text));
    if t == "llm" then Llm
    else if t == "embeddings" then Embeddings
    else if t == "realtime" || t == "realtime_voice" then RealtimeVoice
    else if t == "text_to_speech" then TextToSpeech
    else if t == "speech_to_text" then SpeechToText
    else if t == "image_generation" then ImageGeneration
    else if t == "video_generation" then VideoGeneration
    else if t == "moderation" then Moderation
    else OtherFamily(t)
  }

  /** The family a model's name suggests. */
  function FamilyByName(modelId: string): (f: Family)
    ensures !f.OtherFamily?
  {
    var n := Lower(Strip(modelId));
    if n in ["gpt-image-1", "gpt-image-1-mini", "gpt-image-1.5"] then ImageGeneration
    else if StartsWith(n, "sora-") then VideoGeneration
    else if StartsWith(n, "gpt-realtime-") then RealtimeVoice
    else if StartsWith(n, "whisper-") then SpeechToText
    else if StartsWith(n, "tts-") then TextToSpeech
    else if StartsWith(n, "text-embedding-") then Embeddings
    else if StartsWith(n, "omni-moderation-") then Moderation
    else Llm
  }

  function NormalizeFamily(text: string, modelId: string): (f: Family)
    ensures !f.OtherFamily?
  {
    if ParseFamily(text).OtherFamily? then FamilyByName(modelId) else ParseFamily(text)
  }

  function OverrideFamily(existing: Option<Entry>, id: string, raw: Override): Family {
    if existing.Some? then existing.value.family else NormalizeFamily(raw.family, id)
  }

  function OverrideBasis(existing: Option<Entry>, id: string, raw: Override): Basis {
    BasisOr(raw.basis, if existing.Some? then existing.value.terms.basis else DefaultBasis(OverrideFamily(existing, id, raw)))
  }

  function OverridePrices(existing: Option<Entry>, id: string, raw: Override): Terms {
    var basis := OverrideBasis(existing, id, raw);
    var given := Sanitize(Terms(basis, NormalizePrice(raw.input), NormalizePrice(raw.cached), NormalizePrice(raw.output),
                                NormalizePrice(raw.normalized), "", ["pricing_override_applied"]));
    match existing
    case None => given.(unit := Named(raw.unit, UnitName(basis)))
    case Some(e) =>
      Terms(basis, OrPrice(given.input, e.terms.input), OrPrice(given.cached, e.terms.cached),
            OrPrice(given.output, e.terms.output), OrPrice(given.normalized, e.terms.normalized),
            Named(raw.unit, e.terms.unit), e.terms.notes + given.notes)
  }

  function ManualUrl(url: string): string {
    if StartsWith(url, "http") then "manual://pricing_overrides" else url
  }

  ghost function OverrideEntry(existing: Option<Entry>, id: string, raw: Override, source: Source): Entry {
    var family := OverrideFamily(existing, id, raw);
    var terms := Enforce(family, OverridePrices(existing, id, raw));
    Entry(id, family, terms.(notes := Sorted(NoteSet(terms.notes))), ManualUrl(source.url), source.fetchedAt,
          if existing.Some? then existing.value.status else "manual_override")
  }

  function Find(c: Catalog, id: string): Option<Entry> {
    if id in c then Some(c[id]) else None
  }

  /** `_apply_overrides`: one that names no canonical basis is passed over. */
  ghost function Overridden(entries: Catalog, overrides: map<string, Override>, source: Source): Catalog {
    map id | id in entries.Keys + overrides.Keys
             && (id in entries || !OverrideBasis(Find(entries, id), id, overrides[id]).OtherBasis?) ::
      if id in overrides && !OverrideBasis(Find(entries, id), id, overrides[id]).OtherBasis?
      then OverrideEntry(Find(entries, id), id, overrides[id], source)
      else entries[id]
  }

  // ---- The models to price ----------------------------------------------

  /** Ends in four digits after a hyphen, as the oldest dated names do. */
  predicate EndsInFourDigits(s: string) {
    |s| >= 5 && s[|s| - 5] == '-' && Digits(s[|s| - 4..])
  }

  /** `_is_ai_extraction_target_model_id`. */
  predicate IsTarget(modelId: string) {
    var n := Lower(Strip(modelId));
    && n != ""
    && (EndsInLongDate(n) || EndsInShortDate(n) || EndsInFourDigits(n) ==> StartsWith(n, "omni-moderation-"))
    && !Contains(n, "latest") && !Contains(n, "preview")
  }

  /** The targets among the first `n` models, each with the family its name suggests. */
  function Allowed(modelIds: seq<string>, n: nat): map<string, Family>
    requires n <= |modelIds|
  {
    if n == 0 then map[]
    else
      var before, id := Allowed(modelIds, n - 1), Lower(Strip(modelIds[n - 1]));
      if IsTarget(modelIds[n - 1]) then before[id := FamilyByName(id)] else before
  }

  function AllowedFrom(modelIds: seq<string>): map<string, Family> {
    Allowed(modelIds, |modelIds|)
  }

  /** `_select_pricing_extraction_model` finds a language model to ask. */
  predicate HasExtractionModel(allowed: map<string, Family>) {
    exists id :: id in allowed && FamilyByName(BaseId(id)) == Llm
  }

  // ---- The refresh ------------------------------------------------------

  datatype State = RefreshOk | RefreshFailed | ManuallyPriced

  /** What is saved: the entries, and how they came to be. */
  datatype Snapshot = Snapshot(entries: Catalog, state: State)

  /** What the page and the extraction come to: an exception, or the entries
      that can be read off the page and, where a model may be asked, its answers. */
  datatype Fetched = Raised | Fetched(answers: Option<Answers>, parsed: Catalog)

  datatype Outcome = Skipped | Refreshed | Preserved | NothingKept

  /** The entries before overrides; `None` stands for an exception. */
  ghost function FreshEntries(allowed: map<string, Family>, fetched: Fetched, source: Source, previous: Catalog): Option<Catalog> {
    if fetched.Raised? then None
    else if fetched.answers.Some? && HasExtractionModel(allowed) then
      Some(WithPrevious(allowed, fetched.answers.value, source, previous))
    else if allowed == map[] then Some(fetched.parsed)
    else Some(map id | id in fetched.parsed && id in allowed :: fetched.parsed[id])
  }

  ghost function NextEntries(allowed: map<string, Family>, fetched: Fetched, source: Source, overrides: map<string, Override>,
                             previous: Catalog): Option<Catalog>
  {
    var read := FreshEntries(allowed, fetched, source, previous);
    if read.None? || read.value == map[] then None
    else
      var next := Overridden(read.value, overrides, source);
      if ValidCatalog(next) then Some(next) else None
  }

  datatype Effect = Effect(stored: Option<Snapshot>, outcome: Outcome)

  function Entries(stored: Option<Snapshot>): Catalog {
    if stored.Some? then stored.value.entries else map[]
  }

  /** `refresh`, with what is due, fetched and overridden. */
  ghost function Refresh(stored: Option<Snapshot>, due: bool, modelIds: seq<string>, fetched: Fetched, source: Source,
                         overrides: map<string, Override>): Effect
  {
    var next := NextEntries(AllowedFrom(modelIds), fetched, source, overrides, Entries(stored));
    if stored.Some? && !due then Effect(stored, Skipped)
    else if next.Some? then Effect(Some(Snapshot(next.value, RefreshOk)), Refreshed)
    else if stored.Some? then Effect(Some(stored.value.(state := RefreshFailed)), Preserved)
    else Effect(None, NothingKept)
  }

  // ---- Pricing by hand --------------------------------------------------

  /** The terms a price set by hand starts from. */
  function ManualTerms(existing: Option<Entry>, family: Family, input: Price, output: Price): Terms {
    var image := family == ImageGeneration;
    var basis := if image then PerTokens else if existing.Some? then existing.value.terms.basis else DefaultBasis(family);
    var was := if existing.Some? then existing.value.terms else Terms(basis, None, None, None, None, UnitName(basis), []);
    Terms(basis, OrPrice(input, was.input), was.cached, OrPrice(output, was.output), None,
          if image then UnitName(PerTokens) else was.unit, was.notes + ["manual_pricing_override"])
  }

  ghost function ManualEntry(existing: Option<Entry>, id: string, input: Price, output: Price, now: string): Entry {
    var family := if existing.Some? then existing.value.family else FamilyByName(id);
    Entry(id, family, Enforce(family, ManualTerms(existing, family, input, output)), "manual://local_override", now, "manual")
  }

  /** `save_manual_pricing`; a call without a name or a price raises. */
  ghost function PriceByHand(stored: Option<Snapshot>, modelId: string, input: Price, output: Price, now: string): Option<Snapshot> {
    var id, entries := BaseId(modelId), Entries(stored);
    if id == "" || (input.None? && output.None?) then stored
    else Some(Snapshot(entries[id := ManualEntry(Find(entries, id), id, input, output, now)], ManuallyPriced))
  }
}
