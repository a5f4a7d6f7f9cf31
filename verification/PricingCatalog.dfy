/** The price catalogue service: the refresh as it runs, job by job and family
    by family, proved to save exactly what `PricingRefresh` specifies. */
module PricingCatalog {
  import opened Text
  import opened PricingRules
  import opened PricingRefresh

  /** `_enforce_family_pricing_rules`. */
  method EnforceFamilyPricingRules(family: Family, t: Terms) returns (r: Terms)
    ensures r == Enforce(family, t)
  {
    hide NonBlank, FreeNote;
    var notes := SortSet(set note | note in t.notes && NonBlank(note));
    assert notes == Sorted(NoteSet(t.notes));
    if family.OtherFamily? {
      return t.(notes := notes);
    }
    var basis := FamilyBasis(family, t.basis);
    r := t.(basis := basis, unit := UnitName(basis), notes := notes);
    if family == Moderation {
      var free := exists note :: note in notes && FreeNote(note);
      if free && r.normalized.None? && r.output.None? && r.input.None? {
        r := r.(normalized := Some(0.0));
      }
      var marked := SortSet((set note | note in notes) + {if free then STATUS_FREE else STATUS_PRICED});
      r := r.(notes := marked);
    } else {
      r := Sanitize(r);
    }
    r := Normalized(r);
  }

  /** The loop of `_normalize_extracted_payload` over the items of an answer. */
  method NormalizeExtractedItems(allowed: map<string, Family>, items: Answer, source: Source) returns (r: Option<Catalog>)
    ensures r == ItemEntries(allowed, items, |items|, source)
  {
    hide ItemId, PricesOf, BasisOr, NonBlank, Strip, Enforce;
    var entries: Catalog := map[];
    for n := 0 to |items|
      invariant ItemEntries(allowed, items, n, source) == Some(entries)
    {
      if items[n].None? {
        SpoiltStaysSpoilt(allowed, items, n + 1, |items|, source);
        return None;
      }
      var raw := items[n].value;
      var id := ItemId(allowed, raw);
      if id !in allowed || id in entries {
        continue;
      }
      var basis := BasisOr(raw.basis, DefaultBasis(allowed[id]));
      if basis.OtherBasis? {
        SpoiltStaysSpoilt(allowed, items, n + 1, |items|, source);
        return None;
      }
      var trimmed := set note | note in raw.notes && NonBlank(note) :: Strip(note);
      var notes := SortSet(if raw.batchPrices then trimmed + {"batch_prices_ignored"} else trimmed);
      assert notes == ItemNotes(raw);
      var terms := EnforceFamilyPricingRules(allowed[id], PricesOf(raw, basis).(notes := notes));
      entries := entries[id := Entry(id, allowed[id], terms, source.url, source.fetchedAt, "ok")];
    }
    r := Some(entries);
  }

  lemma {:induction false} SpoiltStaysSpoilt(allowed: map<string, Family>, items: Answer, n: nat, m: nat, source: Source)
    requires n <= m <= |items| && ItemEntries(allowed, items, n, source).None?
    ensures ItemEntries(allowed, items, m, source).None?
  {
    hide ItemId, ItemEntry, BasisOr;
    if n < m {
      SpoiltStaysSpoilt(allowed, items, n, m - 1, source);
    }
  }

  /** One job's answer read and validated. */
  method RunJob(allowed: map<string, Family>, job: Job, answer: Option<Answer>, source: Source) returns (r: Option<Catalog>)
    ensures r == JobEntries(allowed, job, answer, source)
  {
    hide ItemEntries, ValidCatalog, ValidForFamily, Targets;
    if answer.None? {
      return None;
    }
    var entries := NormalizeExtractedItems(Targets(allowed, job), answer.value, source);
    if entries.None? || !ValidCatalog(entries.value) {
      return None;
    }
    if exists id :: id in entries.value && !ValidForFamily(entries.value[id].family, entries.value[id].terms) {
      return None;
    }
    r := entries;
  }

  /** The loop over the jobs: what they extracted, and the families that succeeded or failed. */
  method RunJobs(allowed: map<string, Family>, answers: Answers, source: Source)
    returns (merged: Catalog, succeeded: set<Family>, failed: set<Family>)
    ensures merged == Merged(allowed, answers, source, |JOBS|)
    ensures succeeded == Succeeded(allowed, answers, source)
    ensures failed == FailedOnes(allowed, answers, source)
  {
    hide JobEntries, Targets;
    merged, succeeded, failed := map[], {}, {};
    for n := 0 to |JOBS|
      invariant merged == Merged(allowed, answers, source, n)
      invariant succeeded == Families(allowed, answers, source, true, n)
      invariant failed == Families(allowed, answers, source, false, n)
    {
      var targets := Targets(allowed, JOBS[n]);
      if targets == map[] {
        continue;
      }
      var entries := RunJob(allowed, JOBS[n], AnswerTo(answers, JOBS[n]), source);
      var families := set id | id in targets :: allowed[id];
      if entries.Some? {
        merged := merged + entries.value;
        succeeded := succeeded + families;
      } else {
        failed := failed + families;
      }
    }
  }

  method PreserveEntry(e: Entry, status: string) returns (r: Entry)
    ensures r == Preserve(e, status)
  {
    var notes := SortSet((set note | note in e.terms.notes) + {"family_" + status});
    r := e.(status := status, terms := e.terms.(notes := notes));
  }

  /** A family without fresh prices takes its previous ones. */
  method KeepPrevious(allowed: map<string, Family>, succeeded: set<Family>, failed: set<Family>, previous: Catalog, merged: Catalog)
    returns (r: Catalog)
    ensures r == PutBack(allowed, succeeded, failed, previous, merged)
  {
    hide Preserve, PreservedStatus, PutBack, PutBackBut;
    r := merged;
    var left := previous.Keys;
    NothingPutBack(allowed, succeeded, failed, previous, merged);
    while left != {}
      invariant left <= previous.Keys
      invariant PutBackBut(allowed, succeeded, failed, previous, merged, left, r)
      decreases left
    {
      var id :| id in left;
      PutBackOne(allowed, succeeded, failed, previous, merged, left, r, id);
      left := left - {id};
      if KeptIn(allowed, succeeded, previous, id) {
        var kept := PreserveEntry(previous[id], PreservedStatus(failed, allowed[id]));
        r := r[id := kept];
      }
    }
    AllPutBack(allowed, succeeded, failed, previous, merged, r);
  }

  /** `r` is `merged` with the previous entries put back, but for those in `left`. */
  ghost predicate PutBackBut(allowed: map<string, Family>, succeeded: set<Family>, failed: set<Family>,
                             previous: Catalog, merged: Catalog, left: set<string>, r: Catalog)
  {
    && (forall id :: id in r <==> id in merged || (KeptIn(allowed, succeeded, previous, id) && id !in left))
    && (forall id :: id in r ==>
          r[id] == if id !in left && KeptIn(allowed, succeeded, previous, id)
                   then Preserve(previous[id], PreservedStatus(failed, allowed[id])) else merged[id])
  }

  lemma NothingPutBack(allowed: map<string, Family>, succeeded: set<Family>, failed: set<Family>, previous: Catalog, merged: Catalog)
    ensures PutBackBut(allowed, succeeded, failed, previous, merged, previous.Keys, merged)
  {
    hide Preserve, PreservedStatus;
  }

  lemma PutBackOne(allowed: map<string, Family>, succeeded: set<Family>, failed: set<Family>,
                   previous: Catalog, merged: Catalog, left: set<string>, r: Catalog, id: string)
    requires id in left && PutBackBut(allowed, succeeded, failed, previous, merged, left, r)
    ensures PutBackBut(allowed, succeeded, failed, previous, merged, left - {id},
                       if KeptIn(allowed, succeeded, previous, id)
                       then r[id := Preserve(previous[id], PreservedStatus(failed, allowed[id]))] else r)
  {
    hide Preserve, PreservedStatus;
  }

  lemma AllPutBack(allowed: map<string, Family>, succeeded: set<Family>, failed: set<Family>,
                   previous: Catalog, merged: Catalog, r: Catalog)
    requires PutBackBut(allowed, succeeded, failed, previous, merged, {}, r)
    ensures r == PutBack(allowed, succeeded, failed, previous, merged)
  {
    hide Preserve, PreservedStatus;
  }

  /** The answers merged with the previous entries. */
  method MergeWithPrevious(allowed: map<string, Family>, answers: Answers, source: Source, previous: Catalog) returns (r: Catalog)
    ensures r == WithPrevious(allowed, answers, source, previous)
  {
    hide PutBack, Merged, Succeeded, FailedOnes;
    var merged, succeeded, failed := RunJobs(allowed, answers, source);
    r := KeepPrevious(allowed, succeeded, failed, previous, merged);
  }

  method OverrideOne(existing: Option<Entry>, id: string, raw: Override, source: Source) returns (r: Entry)
    ensures r == OverrideEntry(existing, id, raw, source)
  {
    hide OverridePrices, OverrideFamily, NonBlank, Enforce;
    var terms := EnforceFamilyPricingRules(OverrideFamily(existing, id, raw), OverridePrices(existing, id, raw));
    var notes := SortSet(set note | note in terms.notes && NonBlank(note));
    assert notes == Sorted(NoteSet(terms.notes));
    r := Entry(id, OverrideFamily(existing, id, raw), terms.(notes := notes), ManualUrl(source.url), source.fetchedAt,
               if existing.Some? then existing.value.status else "manual_override");
  }

  /** `_apply_overrides`. */
  method ApplyOverrides(entries: Catalog, overrides: map<string, Override>, source: Source) returns (r: Catalog)
    ensures r == Overridden(entries, overrides, source)
  {
    hide OverrideEntry, OverrideBasis;
    r := entries;
    var left := overrides.Keys;
    while left != {}
      invariant left <= overrides.Keys
      invariant forall id :: id in r <==>
                  id in entries || (id in overrides && id !in left && !OverrideBasis(Find(entries, id), id, overrides[id]).OtherBasis?)
      invariant forall id :: id in r ==>
                  r[id] == if id in overrides && id !in left && !OverrideBasis(Find(entries, id), id, overrides[id]).OtherBasis?
                           then OverrideEntry(Find(entries, id), id, overrides[id], source) else entries[id]
      decreases left
    {
      var id :| id in left;
      left := left - {id};
      var existing := Find(entries, id);
      if OverrideBasis(existing, id, overrides[id]).OtherBasis? {
        continue;
      }
      var overridden := OverrideOne(existing, id, overrides[id], source);
      r := r[id := overridden];
    }
  }

  method TargetModels(modelIds: seq<string>) returns (allowed: map<string, Family>)
    ensures allowed == AllowedFrom(modelIds)
  {
    hide IsTarget, FamilyByName, Lower, Strip;
    allowed := map[];
    for n := 0 to |modelIds|
      invariant allowed == Allowed(modelIds, n)
    {
      var id := Lower(Strip(modelIds[n]));
      if IsTarget(modelIds[n]) {
        allowed := allowed[id := FamilyByName(id)];
      }
    }
  }

  class OpenAIPricingCatalogService {
    var stored: Option<Snapshot>

    constructor ()
      ensures stored == None
    {
      stored := None;
    }

    /** `refresh`: save fresh entries, or on any failure the previous ones again. */
    method RefreshCatalog(due: bool, modelIds: seq<string>, fetched: Fetched, source: Source, overrides: map<string, Override>)
      returns (outcome: Outcome)
      modifies this
      ensures Effect(stored, outcome) == Refresh(old(stored), due, modelIds, fetched, source, overrides)
    {
      hide WithPrevious, Overridden, ValidCatalog, AllowedFrom, HasExtractionModel;
      if stored.Some? && !due {
        return Skipped;
      }
      var allowed := TargetModels(modelIds);
      var entries: Catalog := map[];
      if !fetched.Raised? {
        if fetched.answers.Some? && HasExtractionModel(allowed) {
          entries := MergeWithPrevious(allowed, fetched.answers.value, source, Entries(stored));
        } else if allowed == map[] {
          entries := fetched.parsed;
        } else {
          entries := map id | id in fetched.parsed && id in allowed :: fetched.parsed[id];
        }
      }
      if entries != map[] {
        entries := ApplyOverrides(entries, overrides, source);
        if ValidCatalog(entries) {
          stored := Some(Snapshot(entries, RefreshOk));
          return Refreshed;
        }
      }
      if stored.Some? {
        stored := Some(stored.value.(state := RefreshFailed));
        return Preserved;
      }
      outcome := NothingKept;
    }

    /** `save_manual_pricing`: one entry priced by hand, saved as it is; whether the call returned. */
    method SaveManualPricing(modelId: string, input: Price, output: Price, now: string) returns (ok: bool)
      modifies this
      ensures stored == PriceByHand(old(stored), modelId, input, output, now)
      ensures ok == (BaseId(modelId) != "" && (input.Some? || output.Some?))
    {
      hide BaseId, Enforce, ManualTerms;
      var id := BaseId(modelId);
      if id == "" || (input.None? && output.None?) {
        return false;
      }
      var entries := Entries(stored);
      var existing := Find(entries, id);
      var family := if existing.Some? then existing.value.family else FamilyByName(id);
      var terms := EnforceFamilyPricingRules(family, ManualTerms(existing, family, input, output));
      entries := entries[id := Entry(id, family, terms, "manual://local_override", now, "manual")];
      stored := Some(Snapshot(entries, ManuallyPriced));
      ok := true;
    }
  }
}
