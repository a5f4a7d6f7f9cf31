/** What a refresh keeps, drops and saves. */
module PricingRuns {
  import opened Text
  import opened PricingRules
  import opened PricingRefresh

  // ---- Extracted entries ------------------------------------------------

  ghost predicate AllValid(c: Catalog) {
    forall id :: id in c ==> ValidEntry(c[id])
  }

  /** Entries filed under their own ids, each of an allowed model and its family, priced without negatives. */
  ghost predicate Extracted(allowed: map<string, Family>, c: Catalog) {
    forall id :: id in c ==>
      && id in allowed && c[id].modelId == id && c[id].family == allowed[id]
      && !c[id].terms.basis.OtherBasis? && NonBlank(c[id].terms.unit) && NoNegatives(c[id].terms)
  }

  lemma NormalPricesAreNotNegative(raw: RawItem, basis: Basis, notes: seq<string>)
    ensures NoNegatives(PricesOf(raw, basis).(notes := notes))
  {
    hide Named;
  }

  lemma ItemIsExtracted(allowed: map<string, Family>, raw: RawItem, source: Source)
    requires ItemId(allowed, raw) in allowed && Canonical(allowed)
    ensures var e := ItemEntry(allowed, raw, source);
      && e.modelId == ItemId(allowed, raw) && e.family == allowed[e.modelId]
      && !e.terms.basis.OtherBasis? && NonBlank(e.terms.unit) && NoNegatives(e.terms)
  {
    hide ItemId, PricesOf, BasisOr, Enforce, NonBlank, ValidForFamily, NoNegatives, ItemNotes;
    var family := allowed[ItemId(allowed, raw)];
    var basis := BasisOr(raw.basis, DefaultBasis(family));
    var prices := PricesOf(raw, basis).(notes := ItemNotes(raw));
    NormalPricesAreNotNegative(raw, basis, ItemNotes(raw));
    EnforcedIsValidIffPriced(family, prices);
    EnforceKeepsPrices(family, prices);
  }

  lemma {:induction false} ItemsAreExtracted(allowed: map<string, Family>, items: Answer, n: nat, source: Source)
    requires n <= |items| && Canonical(allowed)
    ensures var r := ItemEntries(allowed, items, n, source); r.Some? ==> Extracted(allowed, r.value)
  {
    hide ItemId, ItemEntry, BasisOr, NonBlank, NoNegatives;
    if n > 0 {
      ItemsAreExtracted(allowed, items, n - 1, source);
      if items[n - 1].Some? && ItemId(allowed, items[n - 1].value) in allowed {
        ItemIsExtracted(allowed, items[n - 1].value, source);
      }
    }
  }

  /** A job that succeeds gives entries of its own targets only, at least one, all of them valid. */
  lemma JobEntriesAreSound(allowed: map<string, Family>, job: Job, answer: Option<Answer>, source: Source)
    requires Canonical(allowed)
    ensures var r := JobEntries(allowed, job, answer, source);
      r.Some? ==>
        && r.value != map[] && AllValid(r.value)
        && Extracted(allowed, r.value)
        && (forall id :: id in r.value ==> JobOf(allowed[id]) == Some(job) && ValidForFamily(allowed[id], r.value[id].terms))
  {
    hide ItemEntries, NonBlank, NoNegatives, ValidForFamily, ValidEntry;
    var r := JobEntries(allowed, job, answer, source);
    if r.Some? {
      ItemsAreExtracted(Targets(allowed, job), answer.value, |answer.value|, source);
    }
  }

  /** The job's entries, none when it did not succeed. */
  ghost function Gives(allowed: map<string, Family>, answers: Answers, source: Source, job: Job): Catalog {
    if Succeeds(allowed, answers, source, job) then JobEntries(allowed, job, AnswerTo(answers, job), source).value else map[]
  }

  /** What the job of a family gives. */
  ghost function GivesFor(allowed: map<string, Family>, answers: Answers, source: Source, family: Family): Catalog {
    match JobOf(family)
    case None => map[]
    case Some(job) => Gives(allowed, answers, source, job)
  }

  /** What is merged under a model comes from the job of its family. */
  lemma {:induction false} MergedAt(allowed: map<string, Family>, answers: Answers, source: Source, n: nat, id: string)
    requires n <= |JOBS| && Canonical(allowed)
    ensures id in Merged(allowed, answers, source, n) <==>
            exists j :: 0 <= j < n && id in Gives(allowed, answers, source, JOBS[j])
    ensures id in Merged(allowed, answers, source, n) ==>
              && id in allowed && JobOf(allowed[id]).Some?
              && id in Gives(allowed, answers, source, JobOf(allowed[id]).value)
              && Merged(allowed, answers, source, n)[id] == Gives(allowed, answers, source, JobOf(allowed[id]).value)[id]
  {
    hide JobEntries, Targets, ValidForFamily, NonBlank, NoNegatives;
    if n > 0 {
      MergedAt(allowed, answers, source, n - 1, id);
      JobEntriesAreSound(allowed, JOBS[n - 1], AnswerTo(answers, JOBS[n - 1]), source);
    }
  }

  lemma MergedModel(allowed: map<string, Family>, answers: Answers, source: Source, id: string)
    requires Canonical(allowed)
    ensures var merged := Merged(allowed, answers, source, |JOBS|);
      && (id in merged <==> id in allowed && id in GivesFor(allowed, answers, source, allowed[id]))
      && (id in merged ==> merged[id] == GivesFor(allowed, answers, source, allowed[id])[id])
      && (id in merged ==> allowed[id] in Succeeded(allowed, answers, source))
  {
    hide Gives, Merged, Families, NonBlank;
    MergedAt(allowed, answers, source, |JOBS|, id);
    if id in allowed {
      JobIsListed(JobOf(allowed[id]).value);
      SucceededAndFailedPartition(allowed, answers, source, allowed[id]);
      GivesIfSucceeds(allowed, answers, source, JobOf(allowed[id]).value);
    }
  }

  lemma GivesIfSucceeds(allowed: map<string, Family>, answers: Answers, source: Source, job: Job)
    requires Canonical(allowed)
    ensures var r := Gives(allowed, answers, source, job);
      && (r != map[] <==> Succeeds(allowed, answers, source, job))
      && AllValid(r)
      && (forall id :: id in r ==> id in allowed && r[id].family == allowed[id] && JobOf(allowed[id]) == Some(job))
  {
    hide JobEntries, NonBlank, NoNegatives, ValidEntry, ValidForFamily, Targets;
    JobEntriesAreSound(allowed, job, AnswerTo(answers, job), source);
  }

  // ---- Main results: the merge ------------------------------------------

  /** Before overrides, a model of a family that succeeded has the entry just
      extracted for it, or none; one of a family that failed has its previous
      entry, marked, or none; and no other model has any. */
  lemma MergeIsExact(allowed: map<string, Family>, answers: Answers, source: Source, previous: Catalog, id: string)
    requires Canonical(allowed)
    ensures var r := WithPrevious(allowed, answers, source, previous);
      && (id in r ==> id in allowed)
      && (id in allowed && allowed[id] in Succeeded(allowed, answers, source) ==>
            && (id in r <==> id in GivesFor(allowed, answers, source, allowed[id]))
            && (id in r ==> r[id] == GivesFor(allowed, answers, source, allowed[id])[id]))
      && (id in allowed && allowed[id] in FailedOnes(allowed, answers, source) ==>
            && (id in r <==> id in previous && previous[id].family == allowed[id])
            && (id in r ==> r[id] == Preserve(previous[id], "fallback_used")))
  {
    hide Merged, GivesFor, Families, Preserve, NonBlank;
    MergedModel(allowed, answers, source, id);
    if id in allowed {
      SucceededAndFailedPartition(allowed, answers, source, allowed[id]);
    }
  }

  /** A preserved entry keeps its prices, basis and unit. */
  lemma PreservingKeepsPrices(e: Entry, status: string)
    ensures var p := Preserve(e, status);
      && p.modelId == e.modelId && p.family == e.family && p.terms == e.terms.(notes := p.terms.notes)
      && (forall note :: note in p.terms.notes <==> note in e.terms.notes || note == "family_" + status)
      && (ValidEntry(e) ==> ValidEntry(p))
  {
    hide NonBlank;
  }

  /** An answer's items that name a model of the family among a job's targets. */
  ghost predicate NamesFamily(allowed: map<string, Family>, job: Job, answer: Answer, family: Family) {
    exists i :: 0 <= i < |answer| && ItemNames(Targets(allowed, job), answer[i], family)
  }

  predicate ItemNames(targets: map<string, Family>, item: Option<RawItem>, family: Family) {
    item.Some? && ItemId(targets, item.value) in targets && targets[ItemId(targets, item.value)] == family
  }

  /** An answer that is read gives an entry to each target it names and to no other. */
  lemma {:induction false} EntriesAreNamed(targets: map<string, Family>, items: Answer, n: nat, source: Source, id: string)
    requires n <= |items| && ItemEntries(targets, items, n, source).Some?
    ensures id in ItemEntries(targets, items, n, source).value <==>
            id in targets && exists i :: 0 <= i < n && items[i].Some? && ItemId(targets, items[i].value) == id
  {
    hide ItemId, ItemEntry, BasisOr;
    if n > 0 {
      EntriesAreNamed(targets, items, n - 1, source, id);
    }
  }

  /** Some entry is of the family. */
  ghost predicate HoldsFamily(c: Catalog, family: Family) {
    exists id :: id in c && c[id].family == family
  }

  lemma SucceededJobsAnswer(allowed: map<string, Family>, answers: Answers, source: Source, job: Job)
    ensures Succeeds(allowed, answers, source, job) ==> AnswerTo(answers, job).Some?
  {
  }

  lemma GivesAreItems(allowed: map<string, Family>, answers: Answers, source: Source, job: Job)
    requires AnswerTo(answers, job).Some?
    ensures var items := AnswerTo(answers, job).value;
      Succeeds(allowed, answers, source, job) ==>
      ItemEntries(Targets(allowed, job), items, |items|, source) == Some(Gives(allowed, answers, source, job))
  {
    hide ItemEntries, ValidCatalog, ValidForFamily, Targets;
  }

  lemma NamedFamiliesAreHeld(targets: map<string, Family>, items: Answer, source: Source, c: Catalog, family: Family)
    requires ItemEntries(targets, items, |items|, source) == Some(c)
    requires forall id :: id in c ==> id in targets && c[id].family == targets[id]
    ensures (exists i :: 0 <= i < |items| && ItemNames(targets, items[i], family)) <==> HoldsFamily(c, family)
  {
    forall id
      ensures id in c <==> id in targets && exists i :: 0 <= i < |items| && items[i].Some? && ItemId(targets, items[i].value) == id
    {
      EntriesAreNamed(targets, items, |items|, source, id);
    }
    hide ItemEntries, ItemId;
    if id :| id in c && c[id].family == family {
      var i :| 0 <= i < |items| && items[i].Some? && ItemId(targets, items[i].value) == id;
      assert ItemNames(targets, items[i], family);
    }
  }

  /** A job that succeeds gives entries of a family exactly when its answer names one. */
  lemma GivesTheNamedFamilies(allowed: map<string, Family>, answers: Answers, source: Source, job: Job, family: Family)
    requires Canonical(allowed) && AnswerTo(answers, job).Some?
    ensures Succeeds(allowed, answers, source, job) ==>
              (NamesFamily(allowed, job, AnswerTo(answers, job).value, family) <==>
               HoldsFamily(Gives(allowed, answers, source, job), family))
  {
    GivesAreItems(allowed, answers, source, job);
    GivesIfSucceeds(allowed, answers, source, job);
    hide ItemEntries, Gives, Succeeds, Canonical, AllValid, HoldsFamily, ItemNames;
    if Succeeds(allowed, answers, source, job) {
      NamedFamiliesAreHeld(Targets(allowed, job), AnswerTo(answers, job).value, source, Gives(allowed, answers, source, job), family);
    }
  }

  ghost predicate HasTarget(allowed: map<string, Family>, family: Family) {
    exists id :: id in allowed && allowed[id] == family
  }

  /** No model of the family has a price before overrides. */
  ghost predicate Emptied(allowed: map<string, Family>, merged: Catalog, family: Family) {
    forall id :: id in allowed && allowed[id] == family ==> id !in merged
  }

  /** A family counts as refreshed and yet loses every price exactly when its
      job succeeds and the answer names none of its models: possible only where
      two families share a job. */
  lemma RefreshedAndEmptyIff(allowed: map<string, Family>, answers: Answers, source: Source, previous: Catalog, family: Family)
    requires Canonical(allowed) && HasTarget(allowed, family)
    ensures JobOf(family).Some? && (Succeeds(allowed, answers, source, JobOf(family).value) ==> AnswerTo(answers, JobOf(family).value).Some?)
    ensures family in Succeeded(allowed, answers, source) && Emptied(allowed, WithPrevious(allowed, answers, source, previous), family) <==>
            var job := JobOf(family).value;
            Succeeds(allowed, answers, source, job) && !NamesFamily(allowed, job, AnswerTo(answers, job).value, family)
  {
    hide Merged, Families, Preserve, NonBlank, Gives, Succeeds, WithPrevious, NamesFamily;
    var job := JobOf(family).value;
    SucceededAndFailedPartition(allowed, answers, source, family);
    forall id | id in allowed && allowed[id] == family
      ensures family in Succeeded(allowed, answers, source) ==>
                (id in WithPrevious(allowed, answers, source, previous) <==> id in Gives(allowed, answers, source, job))
    {
      MergeIsExact(allowed, answers, source, previous, id);
    }
    GivesIfSucceeds(allowed, answers, source, job);
    SucceededJobsAnswer(allowed, answers, source, job);
    if Succeeds(allowed, answers, source, job) {
      GivesTheNamedFamilies(allowed, answers, source, job, family);
    }
  }

  /** A model of a family that a successful answer does not name loses its price. */
  lemma UnnamedFamilyIsLost(allowed: map<string, Family>, answers: Answers, source: Source, previous: Catalog, id: string)
    requires Canonical(allowed) && id in allowed && JobOf(allowed[id]).Some? && AnswerTo(answers, JobOf(allowed[id]).value).Some?
    ensures var job := JobOf(allowed[id]).value;
      Succeeds(allowed, answers, source, job) && !NamesFamily(allowed, job, AnswerTo(answers, job).value, allowed[id]) ==>
      allowed[id] in Succeeded(allowed, answers, source) && id !in WithPrevious(allowed, answers, source, previous)
  {
    hide Succeeded, WithPrevious, Succeeds, NamesFamily, Canonical;
    RefreshedAndEmptyIff(allowed, answers, source, previous, allowed[id]);
  }

  /** The families that have a job to themselves. */
  predicate HasOwnJob(family: Family) {
    family in {Llm, RealtimeVoice, ImageGeneration, VideoGeneration}
  }

  /** A family with a job to itself that counts as refreshed always has a price. */
  lemma OwnJobNeverEmpties(allowed: map<string, Family>, answers: Answers, source: Source, previous: Catalog, family: Family)
    requires Canonical(allowed) && HasOwnJob(family) && family in Succeeded(allowed, answers, source)
    ensures !Emptied(allowed, WithPrevious(allowed, answers, source, previous), family)
  {
    hide Merged, Families, Preserve, NonBlank, Gives, Succeeds, WithPrevious;
    var job := JobOf(family).value;
    SucceededAndFailedPartition(allowed, answers, source, family);
    GivesIfSucceeds(allowed, answers, source, job);
    var id :| id in Gives(allowed, answers, source, job);
    MergeIsExact(allowed, answers, source, previous, id);
  }

  // ---- Main results: what is saved --------------------------------------

  lemma MergeIsValid(allowed: map<string, Family>, answers: Answers, source: Source, previous: Catalog)
    requires Canonical(allowed) && AllValid(previous)
    ensures AllValid(WithPrevious(allowed, answers, source, previous))
  {
    hide Merged, Families, Preserve, NonBlank, WithPrevious, Gives, Succeeds, ValidEntry;
    forall id | id in WithPrevious(allowed, answers, source, previous)
      ensures ValidEntry(WithPrevious(allowed, answers, source, previous)[id])
    {
      MergeIsExact(allowed, answers, source, previous, id);
      SucceededAndFailedPartition(allowed, answers, source, allowed[id]);
      GivesIfSucceeds(allowed, answers, source, JobOf(allowed[id]).value);
      if allowed[id] !in Succeeded(allowed, answers, source) {
        PreservingKeepsPrices(previous[id], "fallback_used");
      }
    }
  }

  lemma OverridePricesAreNotNegative(existing: Option<Entry>, id: string, raw: Override)
    requires existing.Some? ==> NoNegatives(existing.value.terms)
    ensures NoNegatives(OverridePrices(existing, id, raw))
  {
    hide Named, OverrideBasis;
  }

  lemma OverriddenEntryIsValid(existing: Option<Entry>, id: string, raw: Override, source: Source)
    requires NonBlank(id)
    requires existing.Some? ==> ValidEntry(existing.value)
    ensures ValidEntry(OverrideEntry(existing, id, raw, source))
  {
    hide OverridePrices, Enforce, NonBlank, NoteSet, ValidForFamily, HasPrice;
    var family := OverrideFamily(existing, id, raw);
    OverridePricesAreNotNegative(existing, id, raw);
    EnforcedIsValidIffPriced(family, OverridePrices(existing, id, raw));
    EnforceKeepsPrices(family, OverridePrices(existing, id, raw));
  }

  ghost predicate NamedOverrides(overrides: map<string, Override>) {
    forall id :: id in overrides ==> NonBlank(id)
  }

  /** Overriding valid entries gives valid entries; no entry is lost. */
  lemma OverridingKeepsValid(entries: Catalog, overrides: map<string, Override>, source: Source)
    requires AllValid(entries) && NamedOverrides(overrides)
    ensures AllValid(Overridden(entries, overrides, source))
    ensures forall id :: id in entries ==> id in Overridden(entries, overrides, source)
    ensures forall id :: id in entries && id !in overrides ==> Overridden(entries, overrides, source)[id] == entries[id]
  {
    hide OverrideEntry, OverrideBasis, ValidEntry, NonBlank;
    var r := Overridden(entries, overrides, source);
    forall id | id in r ensures ValidEntry(r[id]) {
      if id in overrides {
        OverriddenEntryIsValid(Find(entries, id), id, overrides[id], source);
      }
    }
  }

  lemma EnforceKeepsNotes(family: Family, t: Terms, note: string)
    requires note in t.notes && NonBlank(note)
    ensures note in Enforce(family, t).notes
  {
    hide NonBlank, FreeNote;
    assert note in NoteSet(t.notes);
  }

  /** An override's normalised price is the one saved, whatever the family's
      rules, and the entry says that it was overridden. */
  lemma OverriddenPricesHold(existing: Option<Entry>, id: string, raw: Override, source: Source)
    requires raw.normalized.Some? && raw.normalized.value >= 0.0
    ensures OverrideEntry(existing, id, raw, source).terms.normalized == raw.normalized
    ensures "pricing_override_applied" in OverrideEntry(existing, id, raw, source).terms.notes
  {
    hide NonBlank, Strip, OverrideBasis, OverrideFamily, Enforce, HasPrice;
    var family, t := OverrideFamily(existing, id, raw), OverridePrices(existing, id, raw);
    assert t.normalized == raw.normalized;
    StartsUnspaced("pricing_override_applied");
    EnforceKeepsNotes(family, t, "pricing_override_applied");
    EnforceKeepsNormalized(family, t);
    assert "pricing_override_applied" in NoteSet(Enforce(family, t).notes);
  }

  /** Priced per token, each price is the override's if it gives one, else the
      existing entry's. */
  lemma OverridesFallBackPriceByPrice(existing: Option<Entry>, id: string, raw: Override, source: Source)
    requires OverrideBasis(existing, id, raw) == PerTokens
    ensures FamilyBasis(OverrideFamily(existing, id, raw), PerTokens) == PerTokens ==>
              var t := OverrideEntry(existing, id, raw, source).terms;
              && t.input == OrPrice(NormalizePrice(raw.input), if existing.Some? then existing.value.terms.input else None)
              && t.cached == OrPrice(NormalizePrice(raw.cached), if existing.Some? then existing.value.terms.cached else None)
              && t.output == OrPrice(NormalizePrice(raw.output), if existing.Some? then existing.value.terms.output else None)
  {
    hide NormalizePrice, OverrideBasis, OverrideFamily, Named, NoteSet, IsFree;
  }

  lemma EnforceKeepsNormalized(family: Family, t: Terms)
    requires t.normalized.Some?
    ensures Enforce(family, t).normalized == t.normalized
  {
    hide NoteSet, IsFree;
  }

  lemma {:induction false} AllowedIsCanonical(modelIds: seq<string>, n: nat)
    requires n <= |modelIds|
    ensures Canonical(Allowed(modelIds, n))
    ensures forall id :: id in Allowed(modelIds, n) ==> Lower(id) == id && Allowed(modelIds, n)[id] == FamilyByName(id)
  {
    hide FamilyByName, EndsInLongDate, EndsInShortDate, EndsInFourDigits, StartsWith, Contains, LowerChar, TrimStart, TrimEnd;
    if n > 0 {
      AllowedIsCanonical(modelIds, n - 1);
      LowerIsStable(Strip(modelIds[n - 1]));
    }
  }

  lemma TargetsAreCanonical(modelIds: seq<string>)
    ensures Canonical(AllowedFrom(modelIds))
  {
    AllowedIsCanonical(modelIds, |modelIds|);
  }

  /** When every extraction call returns and the catalogue was sound, a refresh
      fails only for want of any entry: it succeeds exactly when some family
      succeeded or some previous entry of a failed one is kept. */
  lemma RefreshSucceedsIff(stored: Option<Snapshot>, modelIds: seq<string>, answers: Answers, parsed: Catalog, source: Source,
                           overrides: map<string, Override>)
    requires NamedOverrides(overrides) && AllValid(Entries(stored))
    ensures HasExtractionModel(AllowedFrom(modelIds)) ==>
              (Refresh(stored, true, modelIds, Fetched(Some(answers), parsed), source, overrides).outcome == Refreshed <==>
               || Succeeded(AllowedFrom(modelIds), answers, source) != {}
               || exists id :: Kept(AllowedFrom(modelIds), answers, source, Entries(stored), id))
  {
    hide Merged, Overridden, Families, Succeeded, Kept, ValidEntry, NonBlank, WithPrevious, HasExtractionModel, AllowedFrom, Succeeds, JobEntries;
    var allowed, previous := AllowedFrom(modelIds), Entries(stored);
    TargetsAreCanonical(modelIds);
    var merged := WithPrevious(allowed, answers, source, previous);
    MergeIsValid(allowed, answers, source, previous);
    OverridingKeepsValid(merged, overrides, source);
    SomethingMergedIff(allowed, answers, source, previous);
    if merged != map[] {
      var id :| id in merged;
      assert id in Overridden(merged, overrides, source);
    }
  }

  lemma SomethingMergedIff(allowed: map<string, Family>, answers: Answers, source: Source, previous: Catalog)
    requires Canonical(allowed)
    ensures WithPrevious(allowed, answers, source, previous) != map[] <==>
            || Succeeded(allowed, answers, source) != {}
            || exists id :: Kept(allowed, answers, source, previous, id)
  {
    hide Merged, Families, Preserve, NonBlank, Gives, Succeeds;
    var r := WithPrevious(allowed, answers, source, previous);
    if family :| family in Succeeded(allowed, answers, source) {
      SucceededAndFailedPartition(allowed, answers, source, family);
      var job := JobOf(family).value;
      GivesIfSucceeds(allowed, answers, source, job);
      var id :| id in Gives(allowed, answers, source, job);
      MergedModel(allowed, answers, source, id);
      assert id in r;
    }
    assert forall id :: Kept(allowed, answers, source, previous, id) ==> id in r;
    forall id | id in r
      ensures Kept(allowed, answers, source, previous, id) || Succeeded(allowed, answers, source) != {}
    {
      MergedModel(allowed, answers, source, id);
    }
  }

  /** Whatever happens, what a refresh saves either validates or has exactly the previous entries. */
  lemma SavedValidatesOrIsPrevious(stored: Option<Snapshot>, due: bool, modelIds: seq<string>, fetched: Fetched,
                                   source: Source, overrides: map<string, Override>)
    ensures var after := Refresh(stored, due, modelIds, fetched, source, overrides);
      && (after.stored.Some? ==>
            ValidCatalog(after.stored.value.entries) || (stored.Some? && after.stored.value.entries == stored.value.entries))
      && (after.outcome == Refreshed ==> after.stored.Some? && ValidCatalog(after.stored.value.entries))
      && (stored.Some? ==> after.stored.Some?)
  {
    hide FreshEntries, Overridden, ValidCatalog, AllowedFrom;
  }

  // ---- Pricing by hand --------------------------------------------------

  /** An entry priced by hand validates exactly when no price given is negative. */
  lemma ManualEntryIsValidIff(existing: Option<Entry>, id: string, input: Price, output: Price, now: string)
    requires NonBlank(id) && (existing.Some? ==> ValidEntry(existing.value))
    ensures ValidEntry(ManualEntry(existing, id, input, output, now)) <==> NotNegative(input) && NotNegative(output)
  {
    hide Enforce, FamilyByName, ManualTerms, NonBlank, HasPrice, NotNegative, ValidForFamily, UnitName;
    var family := if existing.Some? then existing.value.family else FamilyByName(id);
    var t := ManualTerms(existing, family, input, output);
    NamedFamilies(id);
    EnforcedIsValidIffPriced(family, t);
    ManualTermsPrices(existing, family, input, output);
    if NotNegative(input) && NotNegative(output) { EnforceKeepsPrices(family, t); } else { NegativePricesStay(family, t); }
  }

  lemma NamedFamilies(id: string)
    ensures !FamilyByName(id).OtherFamily?
  {
  }

  /** Prices given by hand go in as they are; where none is given the previous one stays. */
  lemma ManualTermsPrices(existing: Option<Entry>, family: Family, input: Price, output: Price)
    requires existing.Some? ==> NoNegatives(existing.value.terms)
    ensures var t := ManualTerms(existing, family, input, output);
      && (NotNegative(input) && NotNegative(output) ==> NoNegatives(t))
      && (!NotNegative(input) ==> !NotNegative(t.input))
      && (!NotNegative(output) ==> !NotNegative(t.output))
  {
    hide DefaultBasis, UnitName;
  }

  /** The rules drop zeros, never a negative price. */
  lemma NegativePricesStay(family: Family, t: Terms)
    ensures !NotNegative(t.input) ==> !NotNegative(Enforce(family, t).input)
    ensures !NotNegative(t.output) ==> !NotNegative(Enforce(family, t).output)
  {
    hide NoteSet, IsFree, UnitName;
  }

  lemma {:induction false} BaseIdIsNamed(id: string)
    ensures BaseId(id) != "" ==> NonBlank(BaseId(id))
    decreases |Strip(id)|
  {
    var n := Lower(Strip(id));
    LowerIsStable(Strip(id));
    if EndsInLongDate(n) {
      StripShortens(n[..|n| - 11]);
      BaseIdIsNamed(n[..|n| - 11]);
    } else if EndsInShortDate(n) {
      StripShortens(n[..|n| - 9]);
      BaseIdIsNamed(n[..|n| - 9]);
    } else if n != "" {
      assert !IsSpace(n[0]);
      StartsUnspaced(n);
      if |n| > 7 {
        StartsUnspaced(n[..|n| - 7]);
      }
      if |n| > 8 {
        StartsUnspaced(n[..|n| - 8]);
      }
    }
  }

  /** Pricing by hand keeps a sound catalogue valid exactly when it gives no negative price. */
  lemma PricedByHandValidatesIff(stored: Option<Snapshot>, modelId: string, input: Price, output: Price, now: string)
    requires AllValid(Entries(stored)) && (input.Some? || output.Some?)
    ensures BaseId(modelId) != "" ==>
              && PriceByHand(stored, modelId, input, output, now).Some?
              && (ValidCatalog(PriceByHand(stored, modelId, input, output, now).value.entries) <==>
                  NotNegative(input) && NotNegative(output))
  {
    hide BaseId, ManualEntry, NonBlank, ValidEntry, NotNegative;
    var id := BaseId(modelId);
    BaseIdIsNamed(modelId);
    if id != "" {
      ManualEntryIsValidIff(Find(Entries(stored), id), id, input, output, now);
      assert id in PriceByHand(stored, modelId, input, output, now).value.entries;
    }
  }

  // ---- Whole runs -------------------------------------------------------

  datatype Event =
    | RefreshEvent(due: bool, modelIds: seq<string>, fetched: Fetched, source: Source, overrides: map<string, Override>)
    | ManualEvent(modelId: string, input: Price, output: Price, now: string)

  ghost function Step(stored: Option<Snapshot>, e: Event): Option<Snapshot> {
    match e
    case RefreshEvent(due, modelIds, fetched, source, overrides) =>
      Refresh(stored, due, modelIds, fetched, source, overrides).stored
    case ManualEvent(modelId, input, output, now) => PriceByHand(stored, modelId, input, output, now)
  }

  ghost function After(events: seq<Event>): Option<Snapshot> {
    if events == [] then None else Step(After(events[..|events| - 1]), events[|events| - 1])
  }

  ghost predicate PricesNotNegative(events: seq<Event>) {
    forall i :: 0 <= i < |events| && events[i].ManualEvent? ==> NotNegative(events[i].input) && NotNegative(events[i].output)
  }

  lemma StepValidates(stored: Option<Snapshot>, e: Event)
    requires stored.Some? ==> ValidCatalog(stored.value.entries)
    requires e.ManualEvent? ==> NotNegative(e.input) && NotNegative(e.output)
    ensures Step(stored, e).Some? ==> ValidCatalog(Step(stored, e).value.entries)
    ensures stored.Some? ==> Step(stored, e).Some?
  {
    hide Refresh, BaseId, ManualEntry, NonBlank, ValidEntry, NotNegative;
    match e
    case RefreshEvent(due, modelIds, fetched, source, overrides) =>
      SavedValidatesOrIsPrevious(stored, due, modelIds, fetched, source, overrides);
    case ManualEvent(modelId, input, output, now) =>
      if BaseId(modelId) != "" && (input.Some? || output.Some?) {
        PricedByHandValidatesIff(stored, modelId, input, output, now);
      }
  }

  /** Over every run of refreshes and prices set by hand, none of these
      negative, every snapshot ever saved validates, and once there is one there
      always is. */
  lemma {:induction false} EverySnapshotValidates(events: seq<Event>, n: nat)
    requires n <= |events| && PricesNotNegative(events)
    ensures After(events).Some? ==> ValidCatalog(After(events).value.entries)
    ensures After(events[..n]).Some? ==> After(events).Some?
  {
    hide Step, ValidCatalog, NotNegative;
    if n == |events| {
      assert events[..n] == events;
    }
    if events != [] {
      var before := events[..|events| - 1];
      EverySnapshotValidates(before, if n < |events| then n else 0);
      StepValidates(After(before), events[|events| - 1]);
      if n < |events| {
        assert before[..n] == events[..n];
      }
    }
  }

  /** A negative price set by hand is saved, and a refresh that fails keeps it. */
  lemma NegativePriceIsKept(modelId: string, now: string, source: Source)
    ensures var events := [ManualEvent(modelId, Some(-1.0), None, now), RefreshEvent(true, [], Raised, source, map[])];
      BaseId(modelId) != "" ==> After(events).Some? && !ValidCatalog(After(events).value.entries)
  {
    hide BaseId, ManualEntry, ValidCatalog, FreshEntries, Overridden;
    var first := ManualEvent(modelId, Some(-1.0), None, now);
    var second := RefreshEvent(true, [], Raised, source, map[]);
    assert [first, second][..1] == [first] && [first][..0] == [];
    assert After([first]) == Step(None, first);
    PricedByHandValidatesIff(None, modelId, Some(-1.0), None, now);
    assert FreshEntries(AllowedFrom([]), Raised, source, Entries(After([first]))).None? by {
      RaisedIsNothing(source, Entries(After([first])));
    }
  }

  lemma RaisedIsNothing(source: Source, previous: Catalog)
    ensures FreshEntries(AllowedFrom([]), Raised, source, previous).None?
  {
  }
}
