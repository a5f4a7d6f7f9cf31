/** A refresh of real model names after which a family that counts as refreshed
    has lost its price. */
module PricingLoss {
  import opened Text
  import opened PricingRules
  import opened PricingRefresh
  import opened PricingRuns

  const LANGUAGE := "gpt-5"
  const EMBEDDING := "text-embedding-3-small"
  const MODERATION := "omni-moderation-2024-09-26"

  const MODELS := [LANGUAGE, EMBEDDING, MODERATION]

  /** The embedding job's answer names the embedding model alone, at one unit of output price. */
  const ITEM := RawItem(EMBEDDING, "", None, None, Some(1.0), None, "", [], false)

  const ANSWERS: Answers := map[EmbeddingJob := Some([Some(ITEM)])]

  // ---- The names --------------------------------------------------------

  /** A name of lower-case letters, digits and hyphens. */
  predicate PlainName(s: string) {
    s != "" && forall i :: 0 <= i < |s| ==> 'a' <= s[i] <= 'z' || '0' <= s[i] <= '9' || s[i] == '-'
  }

  lemma PlainNameIsKept(s: string)
    requires PlainName(s)
    ensures Strip(s) == s && Lower(s) == s && NonBlank(s)
  {
    hide TrimStart, TrimEnd;
    assert !IsSpace(s[0]) && !IsSpace(s[|s| - 1]) && Trimmed(s);
    assert forall i :: 0 <= i < |s| ==> LowerChar(s[i]) == s[i];
    assert Lower(s) == s;
    StartsUnspaced(s);
  }

  lemma StartsAlike(s: string, part: string)
    requires part != ""
    ensures StartsWith(s, part) ==> s != "" && s[0] == part[0]
  {
    if StartsWith(s, part) {
      assert s[..|part|][0] == s[0];
    }
  }

  /** A text does not contain a part whose first letter it has only near its end, if at all. */
  lemma ContainsNeedsRoom(s: string, part: string)
    requires part != ""
    requires forall i :: 0 <= i <= |s| - |part| ==> s[i] != part[0]
    ensures !Contains(s, part)
  {
    forall i | 0 <= i <= |s| ensures !StartsWith(s[i..], part) {
      StartsAlike(s[i..], part);
    }
  }

  lemma LanguageName()
    ensures PlainName(LANGUAGE) && IsTarget(LANGUAGE) && FamilyByName(LANGUAGE) == Llm && BaseId(LANGUAGE) == LANGUAGE
  {
    var n := LANGUAGE;
    assert |n| == 5 && n[0] == 'g';
    assert PlainName(n);
    PlainNameIsKept(n);
    hide Strip, Lower;
    assert !Contains(n, "latest") && !Contains(n, "preview");
  }

  lemma EmbeddingName()
    ensures PlainName(EMBEDDING) && IsTarget(EMBEDDING) && FamilyByName(EMBEDDING) == Embeddings
  {
    EmbeddingIsPlain();
    PlainNameIsKept(EMBEDDING);
    EmbeddingLetters();
    hide Strip, Lower, Contains, EndsInLongDate, EndsInShortDate, EndsInFourDigits;
    EmbeddingFamily();
    EmbeddingIsNotDated();
  }

  lemma EmbeddingIsPlain()
    ensures PlainName(EMBEDDING)
  {
  }

  lemma EmbeddingLetters()
    ensures !Contains(EMBEDDING, "latest") && !Contains(EMBEDDING, "preview")
  {
    var s := EMBEDDING;
    assert |s| == 22 && |"latest"| == 6 && |"preview"| == 7;
    assert forall i :: 0 <= i <= 16 ==> s[i] != 'l' && s[i] != 'p';
    ContainsNeedsRoom(s, "latest");
    ContainsNeedsRoom(s, "preview");
  }

  lemma EmbeddingIsNotDated()
    ensures !EndsInLongDate(EMBEDDING) && !EndsInShortDate(EMBEDDING) && !EndsInFourDigits(EMBEDDING)
  {
    var s := EMBEDDING;
    assert |s| == 22 && s[21] == 'l';
    assert s[11..][10] == 'l' && s[14..][7] == 'l' && s[18..][3] == 'l';
    assert s[11..][9..11][1] == 'l';
  }

  lemma EmbeddingFamily()
    ensures StartsWith(EMBEDDING, "text-embedding-") && !StartsWith(EMBEDDING, "sora-") && !StartsWith(EMBEDDING, "gpt-realtime-")
    ensures !StartsWith(EMBEDDING, "whisper-") && !StartsWith(EMBEDDING, "tts-")
    ensures EMBEDDING !in ["gpt-image-1", "gpt-image-1-mini", "gpt-image-1.5"]
  {
    var s := EMBEDDING;
    assert |s| == 22 && s[0] == 't' && s[1] == 'e';
    assert s[..15] == "text-embedding-";
    assert s[..5][0] == 't' && s[..13][0] == 't' && s[..8][0] == 't' && s[..4][1] == 'e';
    assert "sora-"[0] == 's' && "gpt-realtime-"[0] == 'g' && "whisper-"[0] == 'w' && "tts-"[1] == 't';
    assert "gpt-image-1"[0] == 'g' && "gpt-image-1-mini"[0] == 'g' && "gpt-image-1.5"[0] == 'g';
  }

  lemma ModerationName()
    ensures PlainName(MODERATION) && IsTarget(MODERATION) && FamilyByName(MODERATION) == Moderation
  {
    ModerationIsPlain();
    PlainNameIsKept(MODERATION);
    ModerationLetters();
    hide Strip, Lower, Contains, EndsInLongDate, EndsInShortDate, EndsInFourDigits;
    ModerationFamily();
  }

  lemma ModerationIsPlain()
    ensures PlainName(MODERATION)
  {
  }

  lemma ModerationLetters()
    ensures !Contains(MODERATION, "latest") && !Contains(MODERATION, "preview")
  {
    var s := MODERATION;
    assert |s| == 26 && |"latest"| == 6 && |"preview"| == 7;
    assert forall i :: 0 <= i < 26 ==> s[i] != 'l' && s[i] != 'p';
    ContainsNeedsRoom(s, "latest");
    ContainsNeedsRoom(s, "preview");
  }

  lemma ModerationFamily()
    ensures StartsWith(MODERATION, "omni-moderation-") && !StartsWith(MODERATION, "sora-") && !StartsWith(MODERATION, "gpt-realtime-")
    ensures !StartsWith(MODERATION, "whisper-") && !StartsWith(MODERATION, "tts-") && !StartsWith(MODERATION, "text-embedding-")
    ensures MODERATION !in ["gpt-image-1", "gpt-image-1-mini", "gpt-image-1.5"]
  {
    var s := MODERATION;
    assert |s| == 26 && s[0] == 'o';
    assert s[..16] == "omni-moderation-";
    StartsAlike(s, "sora-");
    StartsAlike(s, "gpt-realtime-");
    StartsAlike(s, "whisper-");
    StartsAlike(s, "tts-");
    StartsAlike(s, "text-embedding-");
    assert "gpt-image-1"[0] == 'g' && "gpt-image-1-mini"[0] == 'g' && "gpt-image-1.5"[0] == 'g';
  }

  // ---- The refresh ------------------------------------------------------

  /** The targets are the three models, each in the family its name suggests. */
  lemma TargetsAre()
    ensures AllowedFrom(MODELS) == map[LANGUAGE := Llm, EMBEDDING := Embeddings, MODERATION := Moderation]
    ensures HasExtractionModel(AllowedFrom(MODELS)) && LANGUAGE != EMBEDDING && EMBEDDING != MODERATION && LANGUAGE != MODERATION
  {
    LanguageName();
    EmbeddingName();
    ModerationName();
    PlainNameIsKept(LANGUAGE);
    PlainNameIsKept(EMBEDDING);
    PlainNameIsKept(MODERATION);
    assert |LANGUAGE| == 5 && |EMBEDDING| == 22 && |MODERATION| == 26;
    hide IsTarget, FamilyByName, Strip, Lower, BaseId, PlainName;
    assert Allowed(MODELS, 0) == map[];
    assert Allowed(MODELS, 1) == map[LANGUAGE := Llm];
    assert Allowed(MODELS, 2) == map[LANGUAGE := Llm, EMBEDDING := Embeddings];
    assert Allowed(MODELS, 3) == map[LANGUAGE := Llm, EMBEDDING := Embeddings, MODERATION := Moderation];
    assert LANGUAGE in AllowedFrom(MODELS) && FamilyByName(BaseId(LANGUAGE)) == Llm;
  }

  /** The targets of the embedding job. */
  const TARGETS := map[EMBEDDING := Embeddings, MODERATION := Moderation]

  lemma JobTargets()
    ensures Targets(AllowedFrom(MODELS), EmbeddingJob) == TARGETS
  {
    TargetsAre();
    hide AllowedFrom;
    EmbeddingTargets(LANGUAGE, EMBEDDING, MODERATION);
  }

  lemma EmbeddingTargets(language: string, embedding: string, moderation: string)
    requires language != embedding && embedding != moderation && language != moderation
    ensures Targets(map[language := Llm, embedding := Embeddings, moderation := Moderation], EmbeddingJob) ==
            map[embedding := Embeddings, moderation := Moderation]
  {
  }

  lemma ItemIsForTheEmbedding()
    ensures EMBEDDING in TARGETS && TARGETS[EMBEDDING] == Embeddings && ItemId(TARGETS, ITEM) == EMBEDDING
    ensures BasisOr(ITEM.basis, DefaultBasis(Embeddings)) == PerTokens
  {
    EmbeddingName();
    PlainNameIsKept(EMBEDDING);
    assert |EMBEDDING| == 22 && |MODERATION| == 26;
    assert Strip("") == "" && !NonBlank("");
  }

  lemma ItemIsPriced(source: Source)
    ensures ItemId(TARGETS, ITEM) == EMBEDDING && EMBEDDING in TARGETS
    ensures var e := ItemEntry(TARGETS, ITEM, source);
      e.family == Embeddings && ValidEntry(e) && ValidForFamily(Embeddings, e.terms)
  {
    ItemIsForTheEmbedding();
    EmbeddingIsPlain();
    PlainNameIsKept(EMBEDDING);
    hide BaseId, Enforce, NonBlank, Strip, Lower, ItemNotes, ItemId, BasisOr, PlainName;
    var prices := PricesOf(ITEM, PerTokens).(notes := ItemNotes(ITEM));
    NormalPricesAreNotNegative(ITEM, PerTokens, ItemNotes(ITEM));
    assert prices.output == Some(1.0) && HasPrice(Embeddings, prices);
    EnforcedIsValidIffPriced(Embeddings, prices);
    EnforceKeepsPrices(Embeddings, prices);
  }

  lemma AnswerIsRead(source: Source)
    ensures ItemId(TARGETS, ITEM) == EMBEDDING && EMBEDDING in TARGETS
    ensures ItemEntries(TARGETS, [Some(ITEM)], 1, source) == Some(map[EMBEDDING := ItemEntry(TARGETS, ITEM, source)])
  {
    ItemIsForTheEmbedding();
    hide ItemEntry, ItemId, BasisOr;
    assert ItemEntries(TARGETS, [Some(ITEM)], 0, source) == Some(map[]);
  }

  lemma OneEntryIsACatalog(id: string, e: Entry)
    ensures map[id := e] != map[]
    ensures ValidEntry(e) ==> ValidCatalog(map[id := e])
  {
    hide ValidEntry;
    assert id in map[id := e];
  }

  lemma JobSucceeds(source: Source)
    ensures Succeeds(AllowedFrom(MODELS), ANSWERS, source, EmbeddingJob)
    ensures AnswerTo(ANSWERS, EmbeddingJob) == Some([Some(ITEM)])
  {
    JobTargets();
    ItemIsPriced(source);
    AnswerIsRead(source);
    hide ItemEntries, ItemEntry, ValidEntry, ValidForFamily, AllowedFrom, ItemId;
    OneEntryIsACatalog(EMBEDDING, ItemEntry(TARGETS, ITEM, source));
    assert EMBEDDING in TARGETS;
  }

  lemma ModerationIsNotNamed()
    ensures !NamesFamily(AllowedFrom(MODELS), EmbeddingJob, [Some(ITEM)], Moderation)
  {
    JobTargets();
    ItemIsForTheEmbedding();
    hide ItemId, AllowedFrom, BasisOr;
  }

  /** So moderation counts as refreshed, and whatever was stored of it is gone. */
  lemma ModerationIsEmptied(source: Source, previous: Catalog)
    ensures Moderation in Succeeded(AllowedFrom(MODELS), ANSWERS, source)
    ensures MODERATION !in WithPrevious(AllowedFrom(MODELS), ANSWERS, source, previous)
  {
    ModerationIsATarget();
    TargetsAreCanonical(MODELS);
    JobSucceeds(source);
    ModerationIsNotNamed();
    hide AllowedFrom, Succeeded, WithPrevious, Succeeds, NamesFamily, Canonical;
    UnnamedFamilyIsLost(AllowedFrom(MODELS), ANSWERS, source, previous, MODERATION);
  }

  lemma ModerationIsATarget()
    ensures MODERATION in AllowedFrom(MODELS) && AllowedFrom(MODELS)[MODERATION] == Moderation
  {
    TargetsAre();
    hide AllowedFrom;
  }

  /** The refresh succeeds, and the snapshot it saves has no price for the
      moderation model, whatever sound catalogue was stored before. */
  lemma AModerationPriceIsLost(stored: Option<Snapshot>, parsed: Catalog, source: Source)
    requires AllValid(Entries(stored))
    ensures var after := Refresh(stored, true, MODELS, Fetched(Some(ANSWERS), parsed), source, map[]);
      after.outcome == Refreshed && after.stored.Some? && MODERATION !in after.stored.value.entries
  {
    ModerationIsEmptied(source, Entries(stored));
    TargetsAre();
    hide AllowedFrom, Succeeded, WithPrevious, AllValid, ValidCatalog, HasExtractionModel;
    RefreshSucceedsIff(stored, MODELS, ANSWERS, parsed, source, map[]);
  }
}
