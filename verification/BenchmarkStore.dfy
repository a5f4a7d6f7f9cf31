/** The local benchmark store: one row for each record and model, claimed by
    workers in two statements, a select and a guarded update, between which
    other workers may run. */
module BenchmarkStore {
  import opened Text
  import opened Traces

  datatype Status = Pending | Running | Completed | Failed

  datatype Key = Key(record: string, model: string)

  /** When each record was created, and the status of each row. */
  datatype Tables = Tables(created: map<string, string>, rows: map<Key, Status>)

  const EMPTY_TABLES := Tables(map[], map[])

  const DEFAULT_MODELS := [
    "qwen3-8b-q4_k_m", "qwen3-14b-q4_k_m", "gemma-3-12b-it-q4_k_m", "mistral-nemo-instruct-2407-q4_k_m"]

  // ---- The statements ---------------------------------------------------

  /** `ON CONFLICT DO NOTHING`. */
  function Inserted<K, V>(table: map<K, V>, key: K, value: V): map<K, V> {
    if key in table then table else table[key := value]
  }

  /** The rows after the first `n` models of a record are inserted. */
  function WithModels(rows: map<Key, Status>, record: string, models: seq<string>, n: nat): map<Key, Status>
    requires n <= |models|
  {
    if n == 0 then rows
    else
      var before := WithModels(rows, record, models, n - 1);
      if NonBlank(models[n - 1]) then Inserted(before, Key(record, Strip(models[n - 1])), Pending) else before
  }

  function Targets(models: seq<string>): seq<string> {
    if models == [] then DEFAULT_MODELS else models
  }

  function Captured(t: Tables, record: string, now: string, models: seq<string>): Tables {
    Tables(Inserted(t.created, record, now), WithModels(t.rows, record, Targets(models), |Targets(models)|))
  }

  predicate IsPending(t: Tables, key: Key) {
    key in t.rows && t.rows[key] == Pending && key.record in t.created
  }

  /** A row the select may return: pending, and no pending row of its model is of an older record. */
  ghost predicate Oldest(t: Tables, key: Key) {
    && IsPending(t, key)
    && forall other :: other in t.rows && other.model == key.model && IsPending(t, other) ==>
         !Before(t.created[other.record], t.created[key.record])
  }

  /** The guarded update to `running`. */
  function Started(t: Tables, key: Key): Tables {
    if key in t.rows && t.rows[key] == Pending then t.(rows := t.rows[key := Running]) else t
  }

  /** The unguarded update that ends a row. */
  function Settled(t: Tables, key: Key, status: Status): Tables {
    if key in t.rows then t.(rows := t.rows[key := status]) else t
  }

  class LocalLLMBenchmarkStore {
    var created: map<string, string>
    var rows: map<Key, Status>
    var captureEnabled: bool

    constructor ()
      ensures Contents() == EMPTY_TABLES && captureEnabled
    {
      created, rows, captureEnabled := map[], map[], true;
    }

    function Contents(): Tables
      reads this
    {
      Tables(created, rows)
    }

    /** `record_openai_execution`; the record's identifier is a digest of the execution. */
    method RecordOpenAIExecution(provider: string, digest: string, now: string, models: seq<string>) returns (record: Option<string>)
      modifies this`created, this`rows
      ensures record == if Lower(Strip(provider)) == "openai" && captureEnabled then Some("openai-" + digest) else None
      ensures Contents() == if record.Some? then Captured(old(Contents()), record.value, now, models) else old(Contents())
    {
      hide Strip, Lower, NonBlank;
      if Lower(Strip(provider)) != "openai" {
        return None;
      }
      if !captureEnabled {
        return None;
      }
      var id := "openai-" + digest;
      var targets := Targets(models);
      created := Inserted(created, id, now);
      for n := 0 to |targets|
        invariant rows == WithModels(old(rows), id, targets, n)
        invariant created == Inserted(old(created), id, now)
      {
        if NonBlank(targets[n]) {
          rows := Inserted(rows, Key(id, Strip(targets[n])), Pending);
        }
      }
      record := Some(id);
    }

    /** The select: some oldest pending row of the model, or none when none is pending. */
    method SelectPending(model: string) returns (key: Option<Key>)
      ensures key.Some? ==> key.value.model == model && Oldest(Contents(), key.value)
      ensures key.None? ==> forall k :: k in rows && k.model == model ==> !IsPending(Contents(), k)
    {
      hide Before;
      key := None;
      var left := rows.Keys;
      while left != {}
        invariant left <= rows.Keys
        invariant key.Some? ==> key.value in rows && key.value.model == model && IsPending(Contents(), key.value)
        invariant forall k :: k in rows && k !in left && k.model == model && IsPending(Contents(), k) ==>
                    key.Some? && !Before(created[k.record], created[key.value.record])
        decreases left
      {
        var k :| k in left;
        left := left - {k};
        if k.model == model && IsPending(Contents(), k) {
          BeforeIsTotalOrder(created[k.record], created[k.record], "");
          if key.None? {
            key := Some(k);
          } else if Before(created[k.record], created[key.value.record]) {
            forall other | other in rows && other !in left && other.model == model && IsPending(Contents(), other)
              ensures !Before(created[other.record], created[k.record])
            {
              BeforeIsTotalOrder(created[other.record], created[k.record], created[key.value.record]);
            }
            key := Some(k);
          }
        }
      }
    }

    /** The guarded update; whether it changed a row. */
    method MarkRunning(key: Key) returns (updated: bool)
      modifies this`rows
      ensures updated == (key in old(rows) && old(rows)[key] == Pending)
      ensures Contents() == Started(old(Contents()), key)
    {
      updated := key in rows && rows[key] == Pending;
      if updated {
        rows := rows[key := Running];
      }
    }

    /** `claim_next_pending`, with no one else running: a pending model is always served. */
    method ClaimNextPending(model: string) returns (record: Option<string>)
      modifies this`rows
      ensures record.Some? ==>
                && var key := Key(record.value, Strip(model));
                && Oldest(old(Contents()), key) && Contents() == Started(old(Contents()), key)
      ensures record.None? ==>
                && Contents() == old(Contents())
                && (NonBlank(model) ==> forall k :: k in rows && k.model == Strip(model) ==> !IsPending(Contents(), k))
    {
      hide Before;
      var name := Strip(model);
      if name == "" {
        return None;
      }
      var key := SelectPending(name);
      if key.None? {
        return None;
      }
      var updated := MarkRunning(key.value);
      if !updated {
        return None;
      }
      record := Some(key.value.record);
    }

    method RecordModelResult(record: string, model: string)
      modifies this`rows
      ensures Contents() == Settled(old(Contents()), Key(Strip(record), Strip(model)), Completed)
    {
      var key := Key(Strip(record), Strip(model));
      if key in rows {
        rows := rows[key := Completed];
      }
    }

    method RecordModelFailure(record: string, model: string)
      modifies this`rows
      ensures Contents() == Settled(old(Contents()), Key(Strip(record), Strip(model)), Failed)
    {
      var key := Key(Strip(record), Strip(model));
      if key in rows {
        rows := rows[key := Failed];
      }
    }
  }

  // ---- Interleaved workers ----------------------------------------------

  /** One statement of one of any number of workers, or a recording. */
  datatype Step =
    | Capture(record: string, now: string, models: seq<string>)
    | Select(worker: nat, key: Key)
    | Update(worker: nat)
    | Result(key: Key)
    | Failure(key: Key)

  /** A row, the worker that selected it, and the number of steps taken before that select. */
  datatype Selection = Selection(worker: nat, key: Key, at: nat)

  /** The tables, what each worker has selected, and the rows handed out. */
  datatype State = State(tables: Tables, selected: map<nat, Selection>, handed: seq<Selection>)

  const START := State(EMPTY_TABLES, map[], [])

  /** A worker selects an oldest pending row of its model; a step that finds nothing to do does nothing. */
  ghost function Apply(s: State, step: Step, at: nat): State {
    match step
    case Capture(record, now, models) => s.(tables := Captured(s.tables, record, now, models))
    case Select(worker, key) =>
      if worker !in s.selected && Oldest(s.tables, key) then s.(selected := s.selected[worker := Selection(worker, key, at)]) else s
    case Update(worker) =>
      if worker !in s.selected then s
      else
        var selection := s.selected[worker];
        var won := selection.key in s.tables.rows && s.tables.rows[selection.key] == Pending;
        State(Started(s.tables, selection.key), s.selected - {worker}, if won then s.handed + [selection] else s.handed)
    case Result(key) => s.(tables := Settled(s.tables, key, Completed))
    case Failure(key) => s.(tables := Settled(s.tables, key, Failed))
  }

  ghost function After(steps: seq<Step>): State {
    if steps == [] then START else Apply(After(steps[..|steps| - 1]), steps[|steps| - 1], |steps| - 1)
  }

  // ---- Rows only move forward -------------------------------------------

  ghost predicate Beyond(t: Tables, key: Key) {
    key in t.rows && t.rows[key] != Pending
  }

  lemma {:induction false} InsertedRowsStay(rows: map<Key, Status>, record: string, models: seq<string>, n: nat, key: Key)
    requires n <= |models|
    ensures key in rows ==> key in WithModels(rows, record, models, n) && WithModels(rows, record, models, n)[key] == rows[key]
    ensures key in WithModels(rows, record, models, n) && key !in rows ==>
              key.record == record && WithModels(rows, record, models, n)[key] == Pending
  {
    hide NonBlank, Strip;
    if n > 0 {
      InsertedRowsStay(rows, record, models, n - 1, key);
    }
  }

  /** No step takes a row away or back to pending: recording an execution again included. */
  lemma StepMovesForward(s: State, step: Step, at: nat, key: Key)
    ensures key in s.tables.rows ==> key in Apply(s, step, at).tables.rows
    ensures Beyond(s.tables, key) ==> Beyond(Apply(s, step, at).tables, key)
  {
    hide Targets, Oldest;
    if step.Capture? {
      InsertedRowsStay(s.tables.rows, step.record, Targets(step.models), |Targets(step.models)|, key);
    }
  }

  ghost function ClaimOf(key: Key): Selection -> bool {
    (c: Selection) => c.key == key
  }

  /** Each row was handed out at most once, and only a row no longer pending ever was. */
  ghost predicate ClaimedOnce(s: State, key: Key) {
    Count(s.handed, ClaimOf(key)) <= if Beyond(s.tables, key) then 1 else 0
  }

  /** The select behind a selection, found where it says. */
  ghost predicate WasOldest(steps: seq<Step>, selection: Selection) {
    && selection.at < |steps|
    && steps[selection.at] == Select(selection.worker, selection.key)
    && Oldest(After(steps[..selection.at]).tables, selection.key)
  }

  ghost predicate Inv(steps: seq<Step>, s: State) {
    && (forall key :: ClaimedOnce(s, key))
    && (forall worker :: worker in s.selected ==> s.selected[worker].worker == worker && WasOldest(steps, s.selected[worker]))
    && (forall i :: 0 <= i < |s.handed| ==> WasOldest(steps, s.handed[i]))
    && (forall key :: key in s.tables.rows ==> key.record in s.tables.created)
  }

  lemma LongerRun(steps: seq<Step>, longer: seq<Step>, selection: Selection)
    requires steps <= longer && WasOldest(steps, selection)
    ensures WasOldest(longer, selection)
  {
    assert longer[..selection.at] == steps[..selection.at];
  }

  lemma ClaimStaysOnce(s: State, step: Step, at: nat, key: Key)
    requires ClaimedOnce(s, key)
    ensures ClaimedOnce(Apply(s, step, at), key)
  {
    hide Oldest, Captured;
    StepMovesForward(s, step, at, key);
    if step.Update? && step.worker in s.selected {
      CountOneMore(s.handed, s.selected[step.worker], ClaimOf(key));
    }
  }

  lemma RecordsAreKnown(s: State, step: Step, at: nat, key: Key)
    requires key in Apply(s, step, at).tables.rows
    requires key in s.tables.rows ==> key.record in s.tables.created
    ensures key.record in Apply(s, step, at).tables.created
  {
    hide Targets, Oldest;
    if step.Capture? {
      InsertedRowsStay(s.tables.rows, step.record, Targets(step.models), |Targets(step.models)|, key);
    }
  }

  lemma {:induction false} RunsKeepInv(steps: seq<Step>)
    ensures Inv(steps, After(steps))
  {
    hide Captured, Started, Settled, Oldest, Count, ClaimedOnce, WasOldest;
    if steps == [] {
      forall key ensures ClaimedOnce(START, key) {
        NothingClaimed(key);
      }
    } else {
      var before, step, at := steps[..|steps| - 1], steps[|steps| - 1], |steps| - 1;
      var s := After(before);
      RunsKeepInv(before);
      forall key ensures ClaimedOnce(After(steps), key) {
        ClaimStaysOnce(s, step, at, key);
      }
      forall key | key in After(steps).tables.rows ensures key.record in After(steps).tables.created {
        RecordsAreKnown(s, step, at, key);
      }
      forall selection | WasOldest(before, selection) ensures WasOldest(steps, selection) {
        LongerRun(before, steps, selection);
      }
      if step.Select? && Oldest(s.tables, step.key) {
        SelectedNow(steps);
      }
    }
  }

  lemma NothingClaimed(key: Key)
    ensures ClaimedOnce(START, key)
  {
  }

  lemma SelectedNow(steps: seq<Step>)
    requires steps != [] && steps[|steps| - 1].Select?
    requires Oldest(After(steps[..|steps| - 1]).tables, steps[|steps| - 1].key)
    ensures WasOldest(steps, Selection(steps[|steps| - 1].worker, steps[|steps| - 1].key, |steps| - 1))
  {
  }

  // ---- Main results -----------------------------------------------------

  /** Whatever the interleaving, no row is handed out twice. */
  lemma NoRowIsClaimedTwice(steps: seq<Step>, i: nat, j: nat)
    requires i < j < |After(steps).handed|
    ensures After(steps).handed[i].key != After(steps).handed[j].key
  {
    hide After, Count, Beyond;
    RunsKeepInv(steps);
    var handed := After(steps).handed;
    var key := handed[j].key;
    assert ClaimedOnce(After(steps), key);
    if handed[i].key == key {
      TwoAreCounted(handed, ClaimOf(key), i, j);
    }
  }

  lemma {:induction false} TwoAreCounted(handed: seq<Selection>, picks: Selection -> bool, i: nat, j: nat)
    requires i < j < |handed| && picks(handed[i]) && picks(handed[j])
    ensures Count(handed, picks) >= 2
  {
    var rest := handed[..|handed| - 1];
    if j < |rest| {
      TwoAreCounted(rest, picks, i, j);
    } else {
      OneIsCounted(rest, picks, i);
    }
  }

  lemma {:induction false} OneIsCounted(handed: seq<Selection>, picks: Selection -> bool, i: nat)
    requires i < |handed| && picks(handed[i])
    ensures Count(handed, picks) >= 1
  {
    var rest := handed[..|handed| - 1];
    if i < |rest| {
      OneIsCounted(rest, picks, i);
    }
  }

  /** A row handed out had been selected by the worker that got it, when it
      was an oldest pending row of its model. */
  lemma ClaimsWereOldestWhenSelected(steps: seq<Step>, i: nat)
    requires i < |After(steps).handed|
    ensures WasOldest(steps, After(steps).handed[i])
  {
    hide After, WasOldest, ClaimedOnce;
    RunsKeepInv(steps);
  }

  /** Only an update hands a row out, and to the worker that makes it. */
  lemma RowsGoToTheirWorkers(steps: seq<Step>, step: Step)
    ensures var before, after := After(steps).handed, After(steps + [step]).handed;
      after != before ==> step.Update? && |after| == |before| + 1 && after[..|before|] == before && after[|before|].worker == step.worker
  {
    hide Oldest, Captured, Started, Settled, ClaimedOnce, WasOldest;
    RunsKeepInv(steps);
    assert (steps + [step])[..|steps|] == steps;
  }

  /** A row that has left pending stays so, whatever follows. */
  lemma {:induction false} NoRowReturnsToPending(steps: seq<Step>, more: seq<Step>, key: Key)
    requires Beyond(After(steps).tables, key)
    ensures Beyond(After(steps + more).tables, key)
    decreases |more|
  {
    hide Beyond, Apply;
    if more == [] {
      assert steps + more == steps;
    } else {
      var rest := more[..|more| - 1];
      NoRowReturnsToPending(steps, rest, key);
      assert (steps + more)[..|steps + more| - 1] == steps + rest;
      StepMovesForward(After(steps + rest), more[|more| - 1], |steps + rest|, key);
    }
  }
}
