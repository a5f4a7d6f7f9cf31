/** The prompt registry: the entries in memory, the normaliser that runs on
    every save, the derived probation index and the saved copy; and what holds
    after any sequence of operations from the empty registry. */
module PromptRegistry {
  import opened Text
  import opened PromptEntries

  // ---- The normalised state ---------------------------------------------

  datatype ProbationIndex = ProbationIndex(ids: seq<string>, reasons: map<string, string>)

  datatype RegistryState = RegistryState(entries: seq<Entry>, probation: ProbationIndex)

  const EMPTY_STATE := RegistryState([], ProbationIndex([], map[]))

  /** The probation ids and the latest reasons among the first `n` entries. */
  function OnProbation(es: seq<Entry>, n: nat): set<string>
    requires n <= |es|
  {
    if n == 0 then {}
    else
      var id := Strip(es[n - 1].promptId);
      if es[n - 1].status == Probation && id != "" then OnProbation(es, n - 1) + {id} else OnProbation(es, n - 1)
  }

  function ProbationReasons(es: seq<Entry>, n: nat): map<string, string>
    requires n <= |es|
  {
    if n == 0 then map[]
    else
      var before, e := ProbationReasons(es, n - 1), es[n - 1];
      var id := Strip(e.promptId);
      if e.status != Probation || id == "" || e.history == [] then before
      else
        var reason := Strip(e.history[|e.history| - 1].reason);
        if reason == "" then before else before[id := reason]
  }

  ghost function IndexOf(es: seq<Entry>): ProbationIndex {
    ProbationIndex(Sorted(OnProbation(es, |es|)), ProbationReasons(es, |es|))
  }

  method RebuildProbationIndex(es: seq<Entry>) returns (index: ProbationIndex)
    ensures index == IndexOf(es)
  {
    hide Strip;
    var active := {};
    var reasons := map[];
    for i := 0 to |es|
      invariant active == OnProbation(es, i) && reasons == ProbationReasons(es, i)
    {
      var e := es[i];
      var id := Strip(e.promptId);
      if e.status == Probation && id != "" {
        active := active + {id};
        if e.history != [] {
          var reason := Strip(e.history[|e.history| - 1].reason);
          if reason != "" {
            reasons := reasons[id := reason];
          }
        }
      }
    }
    var ids := SortSet(active);
    index := ProbationIndex(ids, reasons);
  }

  /** Every entry normalised, or None as soon as one raises. */
  function NormalizeEntries(es: seq<Entry>, n: nat): (r: Option<seq<Entry>>)
    requires n <= |es|
    ensures r.Some? ==> |r.value| == n
  {
    if n == 0 then Some([])
    else
      var before, last := NormalizeEntries(es, n - 1), NormalizeEntry(es[n - 1]);
      if before.None? || last.None? then None else Some(before.value + [last.value])
  }

  /** `normalize_prompt_service_state`. */
  ghost function Normalize(s: RegistryState): Option<RegistryState> {
    var entries := NormalizeEntries(s.entries, |s.entries|);
    if entries.None? then None else Some(RegistryState(entries.value, IndexOf(entries.value)))
  }

  // ---- Operations on the state in memory --------------------------------

  /** `find_prompt_entry`: the first entry with that trimmed id. */
  function FindFrom(es: seq<Entry>, id: string, i: nat): (r: Option<nat>)
    requires i <= |es|
    ensures r.Some? ==> i <= r.value < |es| && Strip(es[r.value].promptId) == id
    ensures forall j :: i <= j < (if r.Some? then r.value else |es|) ==> Strip(es[j].promptId) != id
    decreases |es| - i
  {
    if i == |es| then None
    else if Strip(es[i].promptId) == id then Some(i)
    else FindFrom(es, id, i + 1)
  }

  function Find(es: seq<Entry>, promptId: string): (r: Option<nat>)
    ensures r.Some? ==> r.value < |es|
  {
    if Strip(promptId) == "" then None else FindFrom(es, Strip(promptId), 0)
  }

  datatype Operation =
    | Create(create: CreateArgs)
    | Update(promptId: string, update: UpdateArgs)
    | ReviewPrompt(promptId: string, reviewedBy: string, reason: string, state: Option<string>)
    | MigrateToReviewDue(reason: string)
    | TransitionPrompt(promptId: string, target: string, reason: string)
    | UpdateProbation(promptId: string, action: string, reason: string)
    | Authorization(promptId: string, allowed: bool, reason: string, usedAt: string)
    | Execution(promptId: string, status: string, recordedAt: string, error: Option<string>)

  /** Counting usage on a prompt that is not registered does nothing and does not raise. */
  predicate IsRecording(op: Operation) {
    op.Authorization? || op.Execution?
  }

  /** The entries an operation leaves in memory, and whether it goes on to save. */
  datatype Edited = Edited(entries: seq<Entry>, saves: bool)

  function CreateIn(es: seq<Entry>, a: CreateArgs, f: Families): Edited {
    var at, entry := Find(es, a.promptId), CreateEntry(a, f);
    if at.Some? && es[at.value].status != Retired then Edited(es, false)
    else if entry.None? then Edited(es, false)
    else if at.Some? then Edited(es[at.value := entry.value], true)
    else Edited(es + [entry.value], true)
  }

  function EditEntry(e: Entry, op: Operation, f: Families): Edit
    requires !op.Create? && !op.MigrateToReviewDue?
  {
    match op
    case Update(_, a) => UpdateEntry(e, a, f)
    case ReviewPrompt(_, reviewedBy, reason, state) => Review(e, reviewedBy, reason, state)
    case TransitionPrompt(_, target, reason) => Transition(e, target, reason)
    case UpdateProbation(_, action, reason) => ApplyProbation(e, action, reason)
    case Authorization(_, allowed, reason, usedAt) => Edit(RecordAuthorization(e, allowed, reason, usedAt), true)
    case Execution(_, status, recordedAt, error) => Edit(RecordExecution(e, status, recordedAt, error), true)
  }

  /** The first `n` entries migrated. */
  function Migrated(es: seq<Entry>, n: nat, reason: string): (r: seq<Entry>)
    requires n <= |es|
    ensures |r| == |es|
    ensures forall i :: 0 <= i < |es| ==> r[i] == if i < n then MigrateEntry(es[i], reason) else es[i]
  {
    seq(|es|, i requires 0 <= i < |es| => if i < n then MigrateEntry(es[i], reason) else es[i])
  }

  function MigrateEntry(e: Entry, reason: string): Entry {
    if e.status == Retired || e.status == Expired then e else TransitionTo(e, ReviewDue, reason)
  }

  lemma NoneMigrated(es: seq<Entry>, reason: string)
    ensures Migrated(es, 0, reason) == es
  {
    hide MigrateEntry;
  }

  lemma MigratedStep(es: seq<Entry>, n: nat, reason: string)
    requires n < |es|
    ensures var before, e := Migrated(es, n, reason), es[n];
      && before[n] == e
      && Migrated(es, n + 1, reason) ==
           if e.status == Retired || e.status == Expired then before else before[n := TransitionTo(e, ReviewDue, reason)]
  {
    hide TransitionTo;
  }

  function Apply(es: seq<Entry>, op: Operation, f: Families): Edited {
    match op
    case Create(a) => CreateIn(es, a, f)
    case MigrateToReviewDue(reason) => Edited(Migrated(es, |es|, reason), true)
    case _ =>
      var at := Find(es, op.promptId);
      if at.None? then Edited(es, false)
      else
        var edit := EditEntry(es[at.value], op, f);
        Edited(es[at.value := edit.entry], edit.ok)
  }

  /** What is in memory and what is in the store. */
  datatype Registry = Registry(memory: RegistryState, stored: RegistryState)

  /** `save`: the state in memory is normalised, and normalised again on its way into the store. */
  ghost function Saved(r: Registry): Registry {
    var once := Normalize(r.memory);
    if once.None? then r
    else
      var twice := Normalize(once.value);
      if twice.None? then Registry(once.value, r.stored) else Registry(once.value, twice.value)
  }

  /** An operation edits the entries in memory, even when it then raises
      without saving; otherwise it saves. */
  ghost function Perform(r: Registry, op: Operation, f: Families): Registry {
    var edited := Apply(r.memory.entries, op, f);
    var kept := r.(memory := r.memory.(entries := edited.entries));
    if edited.saves then Saved(kept) else kept
  }

  /** Saving returns when neither normalisation raises. */
  ghost predicate SaveReturns(s: RegistryState) {
    Normalize(s).Some? && Normalize(Normalize(s).value).Some?
  }

  /** Whether an operation returns rather than raises. */
  ghost predicate Returns(r: Registry, op: Operation, f: Families) {
    var edited := Apply(r.memory.entries, op, f);
    if edited.saves then SaveReturns(r.memory.(entries := edited.entries)) else IsRecording(op)
  }

  /** How many of the first `n` entries a migration moves. */
  function Moved(es: seq<Entry>, n: nat): nat
    requires n <= |es|
  {
    if n == 0 then 0
    else Moved(es, n - 1) + if es[n - 1].status in {Retired, Expired, ReviewDue} then 0 else 1
  }

  // ---- The registry object ----------------------------------------------

  class PromptRegistry {
    var state: RegistryState
    var store: RegistryState
    const families: Families

    ghost function Contents(): Registry
      reads this
    {
      Registry(state, store)
    }

    constructor (families: Families)
      ensures this.families == families
      ensures Contents() == Registry(EMPTY_STATE, EMPTY_STATE)
    {
      this.families := families;
      state, store := EMPTY_STATE, EMPTY_STATE;
    }

    method NormalizeState(s: RegistryState) returns (r: Option<RegistryState>)
      ensures r == Normalize(s)
    {
      hide NormalizeEntry, IndexOf;
      var entries := [];
      for i := 0 to |s.entries|
        invariant NormalizeEntries(s.entries, i) == Some(entries)
      {
        var normal := NormalizeEntry(s.entries[i]);
        if normal.None? {
          OneRaises(s.entries, i + 1);
          return None;
        }
        entries := entries + [normal.value];
      }
      var index := RebuildProbationIndex(entries);
      r := Some(RegistryState(entries, index));
    }

    method Save() returns (ok: bool)
      modifies this
      ensures Contents() == Saved(old(Contents()))
      ensures ok == SaveReturns(old(state))
    {
      hide Normalize;
      var once := NormalizeState(state);
      if once.None? {
        return false;
      }
      state := once.value;
      var twice := NormalizeState(state);
      if twice.None? {
        return false;
      }
      store := twice.value;
      ok := true;
    }

    method FindEntry(promptId: string) returns (at: Option<nat>)
      ensures at == Find(state.entries, promptId)
    {
      hide Strip;
      var id := Strip(promptId);
      if id == "" {
        return None;
      }
      for i := 0 to |state.entries|
        invariant FindFrom(state.entries, id, 0) == FindFrom(state.entries, id, i)
      {
        if Strip(state.entries[i].promptId) == id {
          return Some(i);
        }
      }
      at := None;
    }

    method CreatePrompt(a: CreateArgs) returns (ok: bool)
      modifies this
      ensures Contents() == Perform(old(Contents()), Create(a), families)
      ensures ok == Returns(old(Contents()), Create(a), families)
    {
      hide CreateEntry, Saved, SaveReturns, Find;
      var at := FindEntry(a.promptId);
      if at.Some? && state.entries[at.value].status != Retired {
        return false;
      }
      var registration := CreateEntry(a, families);
      if registration.None? {
        return false;
      }
      if at.Some? {
        state := state.(entries := state.entries[at.value := registration.value]);
      } else {
        state := state.(entries := state.entries + [registration.value]);
      }
      ok := Save();
    }

    /** Edits the entry field by field; when a field raises, what was set before stays. */
    method EditEntry(entry: Entry, a: UpdateArgs) returns (edit: Edit)
      ensures edit == UpdateEntry(entry, a, families)
    {
      hide Canonicalize, ParsePrivacy, NextVersion, CleanList, NormalizePreferences, NormalizeConstraints, NormalizeDefinition;
      hide UpdateAccess, UpdateSettings, UpdateVersions, Strip, OptionalText;
      var e := entry;
      if a.taskFamily.Some? {
        var task := Canonicalize(families, a.taskFamily.value);
        if task.None? {
          return Edit(e, false);
        }
        e := e.(taskFamily := task.value);
      }
      if a.promptName.Some? {
        var name := Strip(a.promptName.value);
        if name == "" {
          return Edit(e, false);
        }
        e := e.(promptName := name);
      }
      if a.ownerService.Some? {
        var owner := Strip(a.ownerService.value);
        if owner == "" {
          return Edit(e, false);
        }
        e := e.(ownerService := owner);
      }
      if a.ownerClient.Some? {
        e := e.(ownerClient := OptionalText(a.ownerClient.value));
      }
      if a.privacy.Some? {
        var privacy := ParsePrivacy(a.privacy.value);
        if privacy.None? {
          return Edit(e, false);
        }
        e := e.(privacy := privacy.value);
      }
      var access := UpdateAccess(e, a);
      if !access.ok {
        return access;
      }
      edit := UpdateVersions(UpdateSettings(access.entry, a), a);
    }

    method UpdateDefinition(at: nat, a: UpdateArgs) returns (ok: bool)
      requires at < |state.entries|
      modifies this`state
      ensures var edit := UpdateEntry(old(state).entries[at], a, families);
        ok == edit.ok && state == old(state).(entries := old(state).entries[at := edit.entry])
    {
      hide UpdateEntry;
      var edit := EditEntry(state.entries[at], a);
      state := state.(entries := state.entries[at := edit.entry]);
      ok := edit.ok;
    }

    method UpdatePrompt(promptId: string, a: UpdateArgs) returns (ok: bool)
      modifies this
      ensures Contents() == Perform(old(Contents()), Update(promptId, a), families)
      ensures ok == Returns(old(Contents()), Update(promptId, a), families)
    {
      hide UpdateEntry, Saved, SaveReturns, Find;
      var at := FindEntry(promptId);
      if at.None? {
        return false;
      }
      ok := UpdateDefinition(at.value, a);
      if ok {
        ok := Save();
      }
    }

    method Review(promptId: string, reviewedBy: string, reason: string, target: Option<string>) returns (ok: bool)
      modifies this
      ensures Contents() == Perform(old(Contents()), ReviewPrompt(promptId, reviewedBy, reason, target), families)
      ensures ok == Returns(old(Contents()), ReviewPrompt(promptId, reviewedBy, reason, target), families)
    {
      hide Saved, SaveReturns, Find, ParseState, TransitionTo, OrElse;
      var at := FindEntry(promptId);
      if at.None? {
        return false;
      }
      var i := at.value;
      var why := OrElse(reason, "manual_review");
      var e := state.entries[i].(reviewedBy := OptionalText(reviewedBy), reviewReason := Some(why));
      if target.Some? {
        var next := ParseState(target.value);
        if next.None? {
          state := state.(entries := state.entries[i := e]);
          return false;
        }
        e := TransitionTo(e, next.value, why);
      }
      state := state.(entries := state.entries[i := e]);
      ok := Save();
    }

    method MigrateAllToReviewDue(reason: string) returns (ok: bool, changed: nat)
      modifies this
      ensures Contents() == Perform(old(Contents()), MigrateToReviewDue(reason), families)
      ensures ok == Returns(old(Contents()), MigrateToReviewDue(reason), families)
      ensures changed == Moved(old(state).entries, |old(state).entries|)
    {
      hide Saved, SaveReturns, TransitionTo, Migrated, MigrateEntry;
      ghost var before := state.entries;
      changed := 0;
      NoneMigrated(before, reason);
      for i := 0 to |state.entries|
        modifies this`state
        invariant state == old(state).(entries := Migrated(before, i, reason))
        invariant changed == Moved(before, i)
      {
        MigratedStep(before, i, reason);
        var e := state.entries[i];
        if e.status == Retired || e.status == Expired {
          continue;
        }
        if e.status != ReviewDue {
          changed := changed + 1;
        }
        state := state.(entries := state.entries[i := TransitionTo(e, ReviewDue, reason)]);
      }
      ok := Save();
    }

    method Transition(promptId: string, target: string, reason: string) returns (ok: bool)
      modifies this
      ensures Contents() == Perform(old(Contents()), TransitionPrompt(promptId, target, reason), families)
      ensures ok == Returns(old(Contents()), TransitionPrompt(promptId, target, reason), families)
    {
      hide Saved, SaveReturns, Find, ParseState, TransitionTo;
      var at := FindEntry(promptId);
      if at.None? {
        return false;
      }
      var next := ParseState(target);
      if next.None? {
        assert state.entries[at.value := state.entries[at.value]] == state.entries;
        return false;
      }
      state := state.(entries := state.entries[at.value := TransitionTo(state.entries[at.value], next.value, reason)]);
      ok := Save();
    }

    method SetProbation(promptId: string, action: string, reason: string) returns (ok: bool)
      modifies this
      ensures Contents() == Perform(old(Contents()), UpdateProbation(promptId, action, reason), families)
      ensures ok == Returns(old(Contents()), UpdateProbation(promptId, action, reason), families)
    {
      hide Saved, SaveReturns, Find, TransitionTo;
      var at := FindEntry(promptId);
      if at.None? {
        return false;
      }
      var edit := ApplyProbation(state.entries[at.value], action, reason);
      if !edit.ok {
        assert state.entries[at.value := state.entries[at.value]] == state.entries;
        return false;
      }
      state := state.(entries := state.entries[at.value := edit.entry]);
      ok := Save();
    }

    method RecordAuthorization(promptId: string, allowed: bool, reason: string, usedAt: string) returns (ok: bool)
      modifies this
      ensures Contents() == Perform(old(Contents()), Authorization(promptId, allowed, reason, usedAt), families)
      ensures ok == Returns(old(Contents()), Authorization(promptId, allowed, reason, usedAt), families)
    {
      hide Saved, SaveReturns, Find;
      var at := FindEntry(promptId);
      if at.None? {
        return true;
      }
      var e := state.entries[at.value];
      if allowed {
        e := e.(usage := e.usage.(lastUsedAt := Some(usedAt)));
      } else {
        e := e.(usage := e.usage.(denials := AtLeastZero(e.usage.denials) + 1));
        e := e.(usage := e.usage.(lastDenial := Some(reason)));
        e := e.(usage := e.usage.(lastDeniedAt := Some(usedAt)));
      }
      state := state.(entries := state.entries[at.value := e]);
      ok := Save();
    }

    method RecordExecution(promptId: string, status: string, recordedAt: string, error: Option<string>) returns (ok: bool)
      modifies this
      ensures Contents() == Perform(old(Contents()), Execution(promptId, status, recordedAt, error), families)
      ensures ok == Returns(old(Contents()), Execution(promptId, status, recordedAt, error), families)
    {
      hide Saved, SaveReturns, Find;
      var at := FindEntry(promptId);
      if at.None? {
        return true;
      }
      var e := state.entries[at.value];
      e := e.(usage := e.usage.(executions := AtLeastZero(e.usage.executions) + 1));
      e := e.(usage := e.usage.(lastUsedAt := Some(recordedAt)));
      e := e.(usage := e.usage.(lastStatus := Some(status)));
      if status == "completed" {
        e := e.(usage := e.usage.(successes := AtLeastZero(e.usage.successes) + 1));
      } else {
        e := e.(usage := e.usage.(failures := AtLeastZero(e.usage.failures) + 1));
        e := e.(usage := e.usage.(lastFailure := error));
        e := e.(usage := e.usage.(lastFailureAt := Some(recordedAt)));
      }
      state := state.(entries := state.entries[at.value := e]);
      ok := Save();
    }
  }

  lemma {:induction false} OneRaises(es: seq<Entry>, n: nat)
    requires n <= |es| && NormalizeEntries(es, n).None?
    ensures NormalizeEntries(es, |es|).None?
    decreases |es| - n
  {
    hide NormalizeEntry;
    if n < |es| { OneRaises(es, n + 1); }
  }
}
