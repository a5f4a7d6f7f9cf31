/** What holds of the prompt registry after any sequence of operations. */
module PromptRuns {
  import opened Text
  import opened PromptEntries
  import opened PromptRegistry

  ghost predicate DistinctIds(es: seq<Entry>) {
    forall i, j :: 0 <= i < j < |es| ==> es[i].promptId != es[j].promptId
  }

  ghost predicate SoundEntries(es: seq<Entry>) {
    DistinctIds(es) && forall i :: 0 <= i < |es| ==> SoundEntry(es[i])
  }

  ghost predicate SettledPreferences(es: seq<Entry>) {
    forall i :: 0 <= i < |es| ==> NormalizePreferences(es[i].preferences) == es[i].preferences
  }

  /** A normalised state: sound entries, settled preferences, and the probation index of its entries. */
  ghost predicate Settled(s: RegistryState) {
    SoundEntries(s.entries) && SettledPreferences(s.entries) && s.probation == IndexOf(s.entries)
  }

  ghost predicate SoundRegistry(r: Registry) {
    SoundEntries(r.memory.entries) && Settled(r.stored)
  }

  // ---- Normalising ------------------------------------------------------

  function Settle(e: Entry): Entry {
    e.(preferences := NormalizePreferences(e.preferences))
  }

  function SettleAll(es: seq<Entry>, n: nat): (r: seq<Entry>)
    requires n <= |es|
    ensures |r| == n && forall i :: 0 <= i < n ==> r[i] == Settle(es[i])
  {
    seq(n, i requires 0 <= i < n => Settle(es[i]))
  }

  lemma {:induction false} NormalizeSoundEntries(es: seq<Entry>, n: nat)
    requires n <= |es| && forall i :: 0 <= i < |es| ==> SoundEntry(es[i])
    ensures NormalizeEntries(es, n) == Some(SettleAll(es, n))
  {
    hide SoundEntry, NormalizeEntry, NormalizePreferences;
    if n == 0 {
      assert SettleAll(es, 0) == [];
    } else {
      NormalizeSoundEntries(es, n - 1);
      NormalizeSoundEntry(es[n - 1]);
      assert SettleAll(es, n) == SettleAll(es, n - 1) + [Settle(es[n - 1])];
    }
  }

  lemma SettledEntriesAreSound(es: seq<Entry>)
    requires SoundEntries(es)
    ensures SoundEntries(SettleAll(es, |es|)) && SettledPreferences(SettleAll(es, |es|))
  {
    hide SoundEntry, NormalizePreferences;
    forall i | 0 <= i < |es|
      ensures SoundEntry(SettleAll(es, |es|)[i])
      ensures NormalizePreferences(SettleAll(es, |es|)[i].preferences) == SettleAll(es, |es|)[i].preferences
    {
      NormalizeSoundEntry(es[i]);
    }
  }

  /** Normalising never raises on sound entries, and yields a settled state. */
  lemma NormalizeSettles(s: RegistryState)
    requires SoundEntries(s.entries)
    ensures Normalize(s).Some? && Settled(Normalize(s).value)
    ensures Normalize(s).value.entries == SettleAll(s.entries, |s.entries|)
  {
    hide SoundEntry, NormalizeEntries, NormalizePreferences, IndexOf;
    NormalizeSoundEntries(s.entries, |s.entries|);
    SettledEntriesAreSound(s.entries);
  }

  /** A settled state is a fixpoint of the normaliser. */
  lemma SettledIsFixpoint(s: RegistryState)
    requires Settled(s)
    ensures Normalize(s) == Some(s)
  {
    hide SoundEntry, NormalizeEntries, NormalizePreferences, IndexOf;
    NormalizeSettles(s);
    assert SettleAll(s.entries, |s.entries|) == s.entries;
  }

  /** Saving sound entries leaves memory and store equal and settled. */
  lemma SavedIsSettled(r: Registry)
    requires SoundEntries(r.memory.entries)
    ensures Saved(r).memory == Saved(r).stored && Settled(Saved(r).stored)
  {
    hide Normalize, Settled;
    NormalizeSettles(r.memory);
    SettledIsFixpoint(Normalize(r.memory).value);
  }

  // ---- Every operation --------------------------------------------------

  lemma ReplacedEntryIsSound(es: seq<Entry>, i: nat, e: Entry)
    requires SoundEntries(es) && i < |es| && SoundEntry(e) && e.promptId == es[i].promptId
    ensures SoundEntries(es[i := e])
  {
    hide SoundEntry;
  }

  lemma AppendedEntryIsSound(es: seq<Entry>, e: Entry)
    requires SoundEntries(es) && SoundEntry(e)
    requires forall i :: 0 <= i < |es| ==> es[i].promptId != e.promptId
    ensures SoundEntries(es + [e])
  {
    hide SoundEntry;
  }

  /** Among sound entries the search finds the entry with the id, if there is one. */
  lemma FindIsById(es: seq<Entry>, promptId: string)
    requires SoundEntries(es)
    ensures Find(es, promptId).Some? ==> es[Find(es, promptId).value].promptId == Strip(promptId)
    ensures Find(es, promptId).None? ==> forall i :: 0 <= i < |es| ==> es[i].promptId != Strip(promptId)
  {
    forall i | 0 <= i < |es| ensures Strip(es[i].promptId) == es[i].promptId && es[i].promptId != "" {
      NamesAreKept(es[i]);
    }
    hide Strip, SoundEntry;
  }

  lemma CreateKeepsSound(es: seq<Entry>, a: CreateArgs, f: Families)
    requires SoundFamilies(f) && SoundEntries(es)
    ensures SoundEntries(CreateIn(es, a, f).entries)
  {
    hide *;
    FindIsById(es, a.promptId);
    CreatedEntryIsSound(a, f);
    var at, entry := Find(es, a.promptId), CreateEntry(a, f);
    if entry.Some? { InsertedEntryIsSound(es, at, entry.value); }
    CreateInserts(es, a, f);
  }

  function Insert(es: seq<Entry>, at: Option<nat>, e: Entry): seq<Entry>
    requires at.Some? ==> at.value < |es|
  {
    if at.Some? then es[at.value := e] else es + [e]
  }

  lemma CreateInserts(es: seq<Entry>, a: CreateArgs, f: Families)
    ensures var entries := CreateIn(es, a, f).entries;
      entries == es || (CreateEntry(a, f).Some? && entries == Insert(es, Find(es, a.promptId), CreateEntry(a, f).value))
  {
    hide CreateEntry, Find;
  }

  lemma InsertedEntryIsSound(es: seq<Entry>, at: Option<nat>, e: Entry)
    requires SoundEntries(es) && SoundEntry(e)
    requires at.Some? ==> at.value < |es| && es[at.value].promptId == e.promptId
    requires at.None? ==> forall i :: 0 <= i < |es| ==> es[i].promptId != e.promptId
    ensures SoundEntries(Insert(es, at, e))
  {
    hide SoundEntry, SoundEntries;
    if at.Some? { ReplacedEntryIsSound(es, at.value, e); } else { AppendedEntryIsSound(es, e); }
  }

  lemma EditKeepsSound(e: Entry, op: Operation, f: Families)
    requires SoundFamilies(f) && SoundEntry(e) && !op.Create? && !op.MigrateToReviewDue?
    ensures SoundEntry(EditEntry(e, op, f).entry) && EditEntry(e, op, f).entry.promptId == e.promptId
  {
    hide SoundEntry, UpdateEntry, Review, ApplyProbation, ParseState, TransitionTo, RecordAuthorization, RecordExecution;
    match op
    case Update(_, a) => UpdateKeepsSound(e, a, f);
    case ReviewPrompt(_, reviewedBy, reason, state) => ReviewKeepsSound(e, reviewedBy, reason, state);
    case TransitionPrompt(_, target, reason) =>
      if ParseState(target).Some? { TransitionKeepsSound(e, ParseState(target).value, reason); }
    case UpdateProbation(_, action, reason) => ProbationKeepsSound(e, action, reason);
    case Authorization(_, allowed, reason, usedAt) => RecordingKeepsSound(e, allowed, reason, usedAt, None);
    case Execution(_, status, recordedAt, error) => RecordingKeepsSound(e, true, status, recordedAt, error);
  }

  lemma MigrationKeepsSound(es: seq<Entry>, reason: string)
    requires SoundEntries(es)
    ensures SoundEntries(Migrated(es, |es|, reason))
  {
    hide SoundEntry, TransitionTo;
    forall i | 0 <= i < |es| { TransitionKeepsSound(es[i], ReviewDue, reason); }
  }

  lemma ApplyKeepsSound(es: seq<Entry>, op: Operation, f: Families)
    requires SoundFamilies(f) && SoundEntries(es)
    ensures SoundEntries(Apply(es, op, f).entries)
  {
    hide SoundEntry, EditEntry, Find, CreateIn, Migrated;
    if op.Create? {
      CreateKeepsSound(es, op.create, f);
    } else if op.MigrateToReviewDue? {
      MigrationKeepsSound(es, op.reason);
    } else {
      var at := Find(es, op.promptId);
      if at.Some? {
        EditKeepsSound(es[at.value], op, f);
        ReplacedEntryIsSound(es, at.value, EditEntry(es[at.value], op, f).entry);
      }
    }
  }

  /** Every operation keeps the registry sound, also when it raises half-way;
      when it saves, memory and store agree. */
  lemma PerformKeepsSound(r: Registry, op: Operation, f: Families)
    requires SoundFamilies(f) && SoundRegistry(r)
    ensures SoundRegistry(Perform(r, op, f))
    ensures Apply(r.memory.entries, op, f).saves ==> Perform(r, op, f).memory == Perform(r, op, f).stored
  {
    hide Apply, SoundEntries, SettledPreferences, Saved, IndexOf;
    ApplyKeepsSound(r.memory.entries, op, f);
    var edited := Apply(r.memory.entries, op, f);
    SavedIsSettled(r.(memory := r.memory.(entries := edited.entries)));
  }

  ghost function RegistryAfter(ops: seq<Operation>, n: nat, f: Families): Registry
    requires n <= |ops|
  {
    if n == 0 then Registry(EMPTY_STATE, EMPTY_STATE) else Perform(RegistryAfter(ops, n - 1, f), ops[n - 1], f)
  }

  /** After any sequence of operations from the empty registry: prompt ids and
      version names are distinct, current versions are stored, histories end in
      the present status, executions add up, in memory and in the store. */
  lemma {:induction false} EveryRegistryIsSound(ops: seq<Operation>, n: nat, f: Families)
    requires n <= |ops| && SoundFamilies(f)
    ensures SoundRegistry(RegistryAfter(ops, n, f))
  {
    hide Perform, SoundEntry, SettledPreferences, IndexOf;
    if n == 0 {
      EmptyIsSettled();
    } else {
      hide SoundRegistry;
      EveryRegistryIsSound(ops, n - 1, f);
      PerformKeepsSound(RegistryAfter(ops, n - 1, f), ops[n - 1], f);
    }
  }

  lemma EmptyIsSettled()
    ensures Settled(EMPTY_STATE)
  {
    SortedListingIsUnique(Sorted({}), []);
  }

  /** What is saved is a fixpoint of the normaliser in every run. */
  lemma SavedStatesAreFixpoints(ops: seq<Operation>, n: nat, f: Families)
    requires n <= |ops| && SoundFamilies(f)
    ensures Normalize(RegistryAfter(ops, n, f).stored) == Some(RegistryAfter(ops, n, f).stored)
  {
    hide RegistryAfter, Normalize, Settled;
    EveryRegistryIsSound(ops, n, f);
    SettledIsFixpoint(RegistryAfter(ops, n, f).stored);
  }

  // ---- The probation index ----------------------------------------------

  lemma {:induction false} OnProbationIff(es: seq<Entry>, n: nat, id: string)
    requires n <= |es| && forall i :: 0 <= i < |es| ==> Name(es[i].promptId)
    ensures id in OnProbation(es, n) <==> exists i :: 0 <= i < n && es[i].status == Probation && es[i].promptId == id
  {
    if n > 0 {
      OnProbationIff(es, n - 1, id);
      assert Strip(es[n - 1].promptId) == es[n - 1].promptId;
      hide Strip, Trimmed;
    }
  }

  function LastReason(e: Entry): string
    requires e.history != []
  {
    e.history[|e.history| - 1].reason
  }

  lemma ReasonStep(es: seq<Entry>, n: nat)
    requires 0 < n <= |es| && SoundEntry(es[n - 1])
    ensures es[n - 1].history != []
    ensures ProbationReasons(es, n) ==
            if es[n - 1].status == Probation then ProbationReasons(es, n - 1)[es[n - 1].promptId := LastReason(es[n - 1])]
            else ProbationReasons(es, n - 1)
  {
    EntryNames(es[n - 1]);
    hide Strip, SoundEntry, Name;
  }

  ghost predicate HasReason(reasons: map<string, string>, e: Entry) {
    e.history != [] && e.promptId in reasons && reasons[e.promptId] == LastReason(e)
  }

  lemma {:induction false} ProbationReasonsAre(es: seq<Entry>, n: nat, i: nat)
    requires i < n <= |es| && SoundEntries(es) && es[i].status == Probation
    ensures HasReason(ProbationReasons(es, n), es[i])
  {
    hide SoundEntry, ProbationReasons;
    ReasonStep(es, n);
    if i < n - 1 {
      IdsDiffer(es, i, n - 1);
      hide SoundEntries;
      ProbationReasonsAre(es, n - 1, i);
    }
  }

  lemma IdsDiffer(es: seq<Entry>, i: nat, j: nat)
    requires SoundEntries(es) && i <= j < |es|
    ensures i < j ==> es[i].promptId != es[j].promptId
  {
    hide SoundEntry;
  }

  lemma EntryNames(e: Entry)
    requires SoundEntry(e)
    ensures e.promptId != "" && Strip(e.promptId) == e.promptId && Name(e.promptId)
    ensures e.history != []
    ensures e.history[|e.history| - 1].reason != "" && Strip(e.history[|e.history| - 1].reason) == e.history[|e.history| - 1].reason
  {
    hide SoundLists, SoundPreferences, SoundVersions;
  }

  /** Sound entries under the index made of them. */
  ghost predicate Indexed(s: RegistryState) {
    SoundEntries(s.entries) && s.probation == IndexOf(s.entries)
  }

  /** Under its own index, exactly the ids of the entries whose status is
      probation are listed, in order, each with its latest reason. */
  lemma IndexIsExact(s: RegistryState)
    requires Indexed(s)
    ensures StrictlySorted(s.probation.ids)
    ensures forall id :: id in s.probation.ids <==>
              exists i :: 0 <= i < |s.entries| && s.entries[i].status == Probation && s.entries[i].promptId == id
    ensures forall i :: 0 <= i < |s.entries| && s.entries[i].status == Probation ==>
              HasReason(s.probation.reasons, s.entries[i])
  {
    var es := s.entries;
    forall i | 0 <= i < |es| ensures Name(es[i].promptId) && es[i].history != [] { EntryNames(es[i]); }
    hide SoundEntry, Name, StrictlySorted, OnProbation, ProbationReasons, SettledPreferences, HasReason;
    forall id: string
      ensures id in s.probation.ids <==> exists i :: 0 <= i < |es| && es[i].status == Probation && es[i].promptId == id
    {
      OnProbationIff(es, |es|, id);
    }
    forall i | 0 <= i < |es| && es[i].status == Probation
      ensures HasReason(s.probation.reasons, es[i])
    {
      ProbationReasonsAre(es, |es|, i);
    }
  }

  // ---- The index in memory, over runs -----------------------------------

  lemma {:induction false} SamePlacesSameIndex(es: seq<Entry>, fs: seq<Entry>, n: nat)
    requires n <= |es| == |fs| && forall i :: 0 <= i < n ==> SamePlace(es[i], fs[i])
    ensures OnProbation(es, n) == OnProbation(fs, n) && ProbationReasons(es, n) == ProbationReasons(fs, n)
  {
    hide Strip;
    if n > 0 {
      SamePlacesSameIndex(es, fs, n - 1);
      assert SamePlace(es[n - 1], fs[n - 1]);
    }
  }

  /** An edit that raises keeps id, status and history. */
  lemma RaisingEditKeepsPlace(e: Entry, op: Operation, f: Families)
    requires !op.Create? && !op.MigrateToReviewDue?
    ensures !EditEntry(e, op, f).ok ==> SamePlace(EditEntry(e, op, f).entry, e)
  {
    hide UpdateEntry, Review, RecordAuthorization, RecordExecution, TransitionTo, ParseState, Lower, Strip;
    match op
    case Update(_, a) => UpdateKeepsPlace(e, a, f);
    case ReviewPrompt(_, reviewedBy, reason, state) => RaisingReviewKeepsPlace(e, reviewedBy, reason, state);
    case _ =>
  }

  /** An operation that raises leaves the index of the entries in memory as it was. */
  lemma RaisingKeepsIndex(es: seq<Entry>, op: Operation, f: Families)
    ensures !Apply(es, op, f).saves ==> IndexOf(Apply(es, op, f).entries) == IndexOf(es)
  {
    hide CreateEntry, EditEntry, Migrated, Find, OnProbation, ProbationReasons;
    if !op.Create? && !op.MigrateToReviewDue? {
      var at := Find(es, op.promptId);
      if at.Some? {
        RaisingEditKeepsPlace(es[at.value], op, f);
        var edit := EditEntry(es[at.value], op, f);
        if !edit.ok {
          SamePlacesSameIndex(es[at.value := edit.entry], es, |es|);
        }
      }
    }
  }

  lemma SettledIsIndexed(s: RegistryState)
    requires Settled(s)
    ensures Indexed(s)
  {
    hide SoundEntries, SettledPreferences, IndexOf;
  }

  /** Memory and store are sound and indexed exactly in every run. */
  lemma {:induction false} EveryStateIsIndexed(ops: seq<Operation>, n: nat, f: Families)
    requires n <= |ops| && SoundFamilies(f)
    ensures Indexed(RegistryAfter(ops, n, f).memory) && Indexed(RegistryAfter(ops, n, f).stored)
  {
    hide Perform, SoundEntries, SettledPreferences, IndexOf, Apply, Settled;
    EveryRegistryIsSound(ops, n, f);
    SettledIsIndexed(RegistryAfter(ops, n, f).stored);
    if n == 0 {
      EmptyIsSettled();
    } else {
      EveryRegistryIsSound(ops, n - 1, f);
      EveryStateIsIndexed(ops, n - 1, f);
      PerformKeepsIndexed(RegistryAfter(ops, n - 1, f), ops[n - 1], f);
    }
  }

  lemma PerformKeepsIndexed(r: Registry, op: Operation, f: Families)
    requires SoundFamilies(f) && SoundRegistry(r)
    ensures Indexed(r.memory) ==> Indexed(Perform(r, op, f).memory)
  {
    hide SoundEntries, SettledPreferences, IndexOf, Apply, Saved, Settled;
    PerformKeepsSound(r, op, f);
    RaisingKeepsIndex(r.memory.entries, op, f);
    if Apply(r.memory.entries, op, f).saves {
      SettledIsIndexed(Perform(r, op, f).stored);
    }
  }

  /** In every run, in memory and in the store, the probation index lists
      exactly the ids whose status is probation, in order, each with its latest
      reason: also after an operation that raised half-way. */
  lemma ProbationIndexIsExact(ops: seq<Operation>, n: nat, f: Families, s: RegistryState)
    requires n <= |ops| && SoundFamilies(f)
    requires s in [RegistryAfter(ops, n, f).memory, RegistryAfter(ops, n, f).stored]
    ensures StrictlySorted(s.probation.ids)
    ensures forall id :: id in s.probation.ids <==>
              exists i :: 0 <= i < |s.entries| && s.entries[i].status == Probation && s.entries[i].promptId == id
    ensures forall i :: 0 <= i < |s.entries| && s.entries[i].status == Probation ==>
              HasReason(s.probation.reasons, s.entries[i])
  {
    hide RegistryAfter, Indexed, StrictlySorted, HasReason;
    EveryStateIsIndexed(ops, n, f);
    IndexIsExact(s);
  }

  // ---- When operations raise --------------------------------------------

  lemma SavingSoundReturns(s: RegistryState)
    requires SoundEntries(s.entries)
    ensures SaveReturns(s)
  {
    hide Normalize, Settled, SoundEntries;
    NormalizeSettles(s);
    SettledIsFixpoint(Normalize(s).value);
  }

  /** In every run saving never raises: an operation raises exactly when its
      own edit does, or when it names a prompt that is not registered; counting
      usage never raises. */
  lemma OnlyEditsRaise(ops: seq<Operation>, n: nat, f: Families, op: Operation)
    requires n <= |ops| && SoundFamilies(f)
    ensures Returns(RegistryAfter(ops, n, f), op, f) <==> Apply(RegistryAfter(ops, n, f).memory.entries, op, f).saves || IsRecording(op)
  {
    hide RegistryAfter, Apply, SaveReturns, SoundEntries, Settled;
    var r := RegistryAfter(ops, n, f);
    EveryRegistryIsSound(ops, n, f);
    ApplyKeepsSound(r.memory.entries, op, f);
    SavingSoundReturns(r.memory.(entries := Apply(r.memory.entries, op, f).entries));
  }
}
