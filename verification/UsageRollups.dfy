/** The client usage store: two tables of running totals, one per client and
    prompt, one per client, prompt and model, each kept for the lifetime and
    for every month. Rows are also given a declarative reading, as totals of
    the calls that were recorded. */
module UsageRollups {
  import opened Text
  import opened Money
  import opened UsageCounters

  datatype Scope = Lifetime | Monthly

  datatype RowKey = RowKey(scope: Scope, period: string, client: string, prompt: string)

  datatype ModelKey = ModelKey(row: RowKey, model: string)

  datatype Row = Row(customer: Option<string>, counters: Counters, lastUsed: Option<string>)

  datatype Tables = Tables(usage: map<RowKey, Row>, models: map<ModelKey, Row>)

  const EMPTY_TABLES := Tables(map[], map[])

  /** The arguments of one upsert, with the clock's reading. An absent text is the empty text. */
  datatype Call = Call(
    client: string,
    prompt: string,
    model: string,
    customer: string,
    aggregate: bool,
    amounts: Counters,
    usedAt: string,
    now: string)

  function Attributed(s: string): Option<string> {
    if NonBlank(s) then Some(Strip(s)) else None
  }

  function FirstSeven(s: string): string {
    if |s| <= 7 then s else s[..7]
  }

  function MonthKey(value: string, now: string): string {
    if |Strip(value)| >= 7 then FirstSeven(Strip(value)) else FirstSeven(now)
  }

  function UsedAt(call: Call): string {
    Named(if call.usedAt == "" then call.now else call.usedAt, call.now)
  }

  function Client(call: Call): string {
    Named(call.client, "unknown-client")
  }

  function Prompt(call: Call): string {
    Named(call.prompt, "unattributed-prompt")
  }

  function Month(call: Call): string {
    MonthKey(UsedAt(call), call.now)
  }

  function Charge(call: Call): Counters {
    Clamp(call.amounts)
  }

  function LifetimeKey(client: string, prompt: string): RowKey {
    RowKey(Lifetime, "all", client, prompt)
  }

  function MonthlyKey(month: string, client: string, prompt: string): RowKey {
    RowKey(Monthly, month, client, prompt)
  }

  // ---- One upsert -------------------------------------------------------

  function Lookup<K>(table: map<K, Row>, key: K): Option<Row> {
    if key in table then Some(table[key]) else None
  }

  /** `COALESCE(excluded.customer_id, customer_id)`. */
  function Coalesce(a: Option<string>, b: Option<string>): Option<string> {
    if a.Some? then a else b
  }

  function Later(last: Option<string>, used: string): Option<string> {
    if last.None? || Before(last.value, used) then Some(used) else last
  }

  /** The row an upsert leaves under a key. */
  function MergedRow(prior: Option<Row>, call: Call): Row {
    match prior
    case None => Row(Attributed(call.customer), Charge(call), Some(UsedAt(call)))
    case Some(r) =>
      Row(Coalesce(Attributed(call.customer), r.customer), Plus(r.counters, Charge(call)), Later(r.lastUsed, UsedAt(call)))
  }

  function Upserted<K>(table: map<K, Row>, key: K, call: Call): map<K, Row> {
    table[key := MergedRow(Lookup(table, key), call)]
  }

  /** The tables after one upsert under one scope. */
  function BookedUnder(t: Tables, key: RowKey, call: Call): Tables {
    Tables(
      if call.aggregate then Upserted(t.usage, key, call) else t.usage,
      if NonBlank(call.model) then Upserted(t.models, ModelKey(key, Strip(call.model)), call) else t.models)
  }

  /** `_upsert_usage`: the lifetime rows, then the rows of the call's month. */
  function Booked(t: Tables, call: Call): Tables {
    BookedUnder(
      BookedUnder(t, LifetimeKey(Client(call), Prompt(call)), call),
      MonthlyKey(Month(call), Client(call), Prompt(call)),
      call)
  }

  // ---- Recording and seeding --------------------------------------------

  datatype Event = Recorded(call: Call) | Seeded(call: Call)

  /** The upsert an event asks for: recording counts one call and always
      aggregates; seeding nothing is skipped. */
  function Accepted(event: Event): Option<Call> {
    match event
    case Recorded(call) => Some(call.(aggregate := true, amounts := call.amounts.(calls := 1)))
    case Seeded(call) =>
      if call.amounts.calls <= 0 && call.amounts.totalTokens <= 0 && call.amounts.cost <= 0 then None else Some(call)
  }

  function Step(t: Tables, event: Event): Tables {
    match Accepted(event)
    case None => t
    case Some(call) => Booked(t, call)
  }

  class ClientUsageStore {
    var usage: map<RowKey, Row>
    var models: map<ModelKey, Row>

    constructor ()
      ensures Contents() == EMPTY_TABLES
    {
      usage, models := map[], map[];
    }

    function Contents(): Tables
      reads this
    {
      Tables(usage, models)
    }

    method UpsertUsage(call: Call)
      modifies this
      ensures Contents() == Booked(old(Contents()), call)
    {
      var client, prompt := Client(call), Prompt(call);
      var keys := [LifetimeKey(client, prompt), MonthlyKey(Month(call), client, prompt)];
      ghost var before := Contents();
      for i := 0 to 2
        invariant Contents() ==
                  if i == 0 then before
                  else if i == 1 then BookedUnder(before, keys[0], call)
                  else BookedUnder(BookedUnder(before, keys[0], call), keys[1], call)
      {
        if call.aggregate {
          usage := Upserted(usage, keys[i], call);
        }
        if NonBlank(call.model) {
          models := Upserted(models, ModelKey(keys[i], Strip(call.model)), call);
        }
      }
    }

    method RecordExecution(call: Call)
      modifies this
      ensures Contents() == Step(old(Contents()), Recorded(call))
    {
      UpsertUsage(call.(aggregate := true, amounts := call.amounts.(calls := 1)));
    }

    method SeedHistoricalUsage(call: Call)
      modifies this
      ensures Contents() == Step(old(Contents()), Seeded(call))
    {
      if call.amounts.calls <= 0 && call.amounts.totalTokens <= 0 && call.amounts.cost <= 0 {
        return;
      }
      UpsertUsage(call);
    }
  }

  // ---- Whole runs -------------------------------------------------------

  /** The tables after a sequence of events on an empty store. */
  ghost function After(events: seq<Event>): Tables {
    if events == [] then EMPTY_TABLES else Step(After(events[..|events| - 1]), events[|events| - 1])
  }

  /** The calls that were booked. */
  ghost function Log(events: seq<Event>): seq<Call> {
    if events == [] then []
    else
      var before := Log(events[..|events| - 1]);
      match Accepted(events[|events| - 1])
      case None => before
      case Some(call) => before + [call]
  }

  /** The row made by merging the picked calls of a log in order. */
  ghost function RowOf(log: seq<Call>, picks: Call -> bool): Option<Row> {
    if log == [] then None
    else
      var before := RowOf(log[..|log| - 1], picks);
      if picks(log[|log| - 1]) then Some(MergedRow(before, log[|log| - 1])) else before
  }

  /** A call that counts in a row. */
  ghost predicate Fills(call: Call, key: RowKey) {
    && key.client == Client(call) && key.prompt == Prompt(call)
    && (key.scope == Lifetime ==> key.period == "all")
    && (key.scope == Monthly ==> key.period == Month(call))
  }

  ghost function Aggregated(key: RowKey): Call -> bool {
    (call: Call) => call.aggregate && Fills(call, key)
  }

  ghost function Modelled(key: ModelKey): Call -> bool {
    (call: Call) => NonBlank(call.model) && Strip(call.model) == key.model && Fills(call, key.row)
  }

  /** Each row is made of exactly the calls that fill it. */
  lemma {:induction false} RowsAreMergedCalls(events: seq<Event>, key: RowKey, modelKey: ModelKey)
    ensures Lookup(After(events).usage, key) == RowOf(Log(events), Aggregated(key))
    ensures Lookup(After(events).models, modelKey) == RowOf(Log(events), Modelled(modelKey))
  {
    hide MergedRow, NonBlank, Strip, Client, Prompt, Month, Accepted;
    if events != [] {
      var before := events[..|events| - 1];
      RowsAreMergedCalls(before, key, modelKey);
      match Accepted(events[|events| - 1])
      case None =>
      case Some(call) =>
        assert Log(events)[..|Log(events)| - 1] == Log(before);
        BookedRows(After(before), call, key, modelKey);
    }
  }

  lemma BookedRows(t: Tables, call: Call, key: RowKey, modelKey: ModelKey)
    ensures Lookup(Booked(t, call).usage, key) ==
            if Aggregated(key)(call) then Some(MergedRow(Lookup(t.usage, key), call)) else Lookup(t.usage, key)
    ensures Lookup(Booked(t, call).models, modelKey) ==
            if Modelled(modelKey)(call) then Some(MergedRow(Lookup(t.models, modelKey), call)) else Lookup(t.models, modelKey)
  {
    hide MergedRow, NonBlank, Strip, Client, Prompt, Month;
  }

  // ---- What a row says --------------------------------------------------

  /** `used` is the latest time among the picked calls. */
  ghost predicate LatestUse(log: seq<Call>, picks: Call -> bool, used: string) {
    && (exists i :: 0 <= i < |log| && picks(log[i]) && UsedAt(log[i]) == used)
    && (forall i :: 0 <= i < |log| && picks(log[i]) ==> !Before(used, UsedAt(log[i])))
  }

  /** The customer of the last picked call that names one. */
  ghost predicate LastCustomer(log: seq<Call>, picks: Call -> bool, customer: Option<string>) {
    match customer
    case None => forall i :: 0 <= i < |log| && picks(log[i]) ==> Attributed(log[i].customer) == None
    case Some(_) =>
      exists i :: 0 <= i < |log| && picks(log[i]) && Attributed(log[i].customer) == customer
                  && forall j :: i < j < |log| && picks(log[j]) ==> Attributed(log[j].customer) == None
  }

  ghost predicate Describes(log: seq<Call>, picks: Call -> bool, row: Row) {
    && row.counters == Charged(log, Charge, picks)
    && row.lastUsed.Some? && LatestUse(log, picks, row.lastUsed.value)
    && LastCustomer(log, picks, row.customer)
  }

  ghost predicate Picked(log: seq<Call>, picks: Call -> bool) {
    exists i :: 0 <= i < |log| && picks(log[i])
  }

  /** Merging call after call gives the total of the charges, the latest use
      and the last customer named; there is a row once some call is picked. */
  lemma {:induction false} MergedCallsDescribe(log: seq<Call>, picks: Call -> bool)
    ensures RowOf(log, picks).Some? <==> Picked(log, picks)
    ensures RowOf(log, picks).Some? ==> Describes(log, picks, RowOf(log, picks).value)
    ensures RowOf(log, picks).None? ==> Charged(log, Charge, picks) == ZERO
  {
    hide Charge, UsedAt, Attributed, Before, MergedRow;
    if log != [] {
      var before, last := log[..|log| - 1], log[|log| - 1];
      assert log == before + [last];
      MergedCallsDescribe(before, picks);
      assert Picked(log, picks) <==> Picked(before, picks) || picks(last);
      if picks(last) {
        MergeDescribes(before, last, picks, RowOf(before, picks));
      } else if RowOf(before, picks).Some? {
        assert LatestUse(log, picks, RowOf(before, picks).value.lastUsed.value);
        var row := RowOf(before, picks).value;
        assert LastCustomer(log, picks, row.customer) by {
          if row.customer.Some? {
            var i :| 0 <= i < |before| && picks(before[i]) && Attributed(before[i].customer) == row.customer
                     && forall j :: i < j < |before| && picks(before[j]) ==> Attributed(before[j].customer) == None;
            assert log[i] == before[i];
          }
        }
      }
    }
  }

  lemma MergeDescribes(before: seq<Call>, last: Call, picks: Call -> bool, row: Option<Row>)
    requires row.Some? <==> Picked(before, picks)
    requires row.Some? ==> Describes(before, picks, row.value)
    requires row.None? ==> Charged(before, Charge, picks) == ZERO
    requires picks(last)
    ensures Describes(before + [last], picks, MergedRow(row, last))
  {
    hide Charge, UsedAt, Attributed;
    var log, merged := before + [last], MergedRow(row, last);
    assert log[..|log| - 1] == before && log[|log| - 1] == last;
    assert merged.counters == Charged(log, Charge, picks);
    LatestOfMerged(before, last, picks, row);
    CustomerOfMerged(before, last, picks, row);
  }

  lemma LatestOfMerged(before: seq<Call>, last: Call, picks: Call -> bool, row: Option<Row>)
    requires row.Some? ==> row.value.lastUsed.Some? && LatestUse(before, picks, row.value.lastUsed.value)
    requires row.None? ==> !Picked(before, picks)
    requires picks(last)
    ensures MergedRow(row, last).lastUsed.Some?
    ensures LatestUse(before + [last], picks, MergedRow(row, last).lastUsed.value)
  {
    hide Charge, UsedAt, Attributed, Before;
    var log, used := before + [last], MergedRow(row, last).lastUsed.value;
    forall i | 0 <= i < |log| && picks(log[i]) ensures !Before(used, UsedAt(log[i])) {
      if i < |before| {
        assert log[i] == before[i] && Picked(before, picks);
        BeforeIsTotalOrder(row.value.lastUsed.value, used, UsedAt(log[i]));
      } else {
        BeforeIsTotalOrder(used, UsedAt(last), used);
      }
    }
    if row.Some? && used == row.value.lastUsed.value {
      var i :| 0 <= i < |before| && picks(before[i]) && UsedAt(before[i]) == used;
      assert log[i] == before[i];
    } else {
      assert log[|before|] == last;
    }
  }

  lemma CustomerOfMerged(before: seq<Call>, last: Call, picks: Call -> bool, row: Option<Row>)
    requires row.Some? ==> LastCustomer(before, picks, row.value.customer)
    requires row.None? ==> !Picked(before, picks)
    requires picks(last)
    ensures LastCustomer(before + [last], picks, MergedRow(row, last).customer)
  {
    hide Charge, UsedAt, Attributed, Before;
    var log, customer := before + [last], MergedRow(row, last).customer;
    assert log[|before|] == last;
    if Attributed(last.customer).None? && row.Some? && customer.Some? {
      var i :| 0 <= i < |before| && picks(before[i]) && Attributed(before[i].customer) == customer
               && forall j :: i < j < |before| && picks(before[j]) ==> Attributed(before[j].customer) == None;
      assert log[i] == before[i];
      assert forall j :: i < j < |log| && picks(log[j]) ==> Attributed(log[j].customer) == None;
    }
  }

  // ---- Main results -----------------------------------------------------

  /** After any events, a row exists exactly when some booked call fills it,
      and it holds the total of those calls' clamped counters, their latest
      use and the last customer they name. */
  lemma RowsAgreeWithTheLog(events: seq<Event>, key: RowKey, modelKey: ModelKey)
    ensures key in After(events).usage <==> Picked(Log(events), Aggregated(key))
    ensures key in After(events).usage ==> Describes(Log(events), Aggregated(key), After(events).usage[key])
    ensures modelKey in After(events).models <==> Picked(Log(events), Modelled(modelKey))
    ensures modelKey in After(events).models ==> Describes(Log(events), Modelled(modelKey), After(events).models[modelKey])
  {
    hide After, Log, Describes, Picked, Aggregated, Modelled;
    RowsAreMergedCalls(events, key, modelKey);
    MergedCallsDescribe(Log(events), Aggregated(key));
    MergedCallsDescribe(Log(events), Modelled(modelKey));
  }

  /** The counters under a key, zero when there is no row. */
  function CountersAt<K>(table: map<K, Row>, key: K): Counters {
    if key in table then table[key].counters else ZERO
  }

  lemma CountersAreCharges(events: seq<Event>, key: RowKey, modelKey: ModelKey)
    ensures CountersAt(After(events).usage, key) == Charged(Log(events), Charge, Aggregated(key))
    ensures CountersAt(After(events).models, modelKey) == Charged(Log(events), Charge, Modelled(modelKey))
  {
    hide After, Log, Aggregated, Modelled, Charge;
    RowsAreMergedCalls(events, key, modelKey);
    MergedCallsDescribe(Log(events), Aggregated(key));
    MergedCallsDescribe(Log(events), Modelled(modelKey));
  }

  ghost function MonthPart(usage: map<RowKey, Row>, client: string, prompt: string): string -> Counters {
    month => CountersAt(usage, MonthlyKey(month, client, prompt))
  }

  /** `months` lists, once each, at least the months in which the pair has a row. */
  ghost predicate ListsMonths(months: seq<string>, usage: map<RowKey, Row>, client: string, prompt: string) {
    Distinct(months) && forall month :: MonthlyKey(month, client, prompt) in usage ==> month in months
  }

  /** A lifetime row is the sum of its monthly rows. */
  lemma LifetimeIsTheSumOfMonths(events: seq<Event>, client: string, prompt: string, months: seq<string>)
    requires ListsMonths(months, After(events).usage, client, prompt)
    ensures CountersAt(After(events).usage, LifetimeKey(client, prompt)) ==
            SumOf(months, MonthPart(After(events).usage, client, prompt))
  {
    hide After, Log, Charge, Client, Prompt, Month, CountersAt;
    var log, usage, lifetime := Log(events), After(events).usage, LifetimeKey(client, prompt);
    var picks, parts := Aggregated(lifetime), ChargedUnder(Log(events), Charge, Aggregated(lifetime), Month);
    forall i | 0 <= i < |log| && picks(log[i]) ensures Month(log[i]) in months {
      var key := MonthlyKey(Month(log[i]), client, prompt);
      assert Aggregated(key)(log[i]);
      RowsAgreeWithTheLog(events, key, ModelKey(key, ""));
    }
    PartsMakeTheWhole(log, Charge, picks, Month, months);
    forall month | month in months ensures parts(month) == MonthPart(usage, client, prompt)(month) {
      var key := MonthlyKey(month, client, prompt);
      CountersAreCharges(events, key, ModelKey(key, ""));
      SamePicks(log, Charge, Under(picks, Month, month), Aggregated(key));
    }
    SameParts(months, parts, MonthPart(usage, client, prompt));
    CountersAreCharges(events, lifetime, ModelKey(lifetime, ""));
  }

  ghost function ModelPart(models: map<ModelKey, Row>, key: RowKey): string -> Counters {
    model => CountersAt(models, ModelKey(key, model))
  }

  function Model(call: Call): string {
    Strip(call.model)
  }

  /** The calls of a row that name a model. */
  ghost function NamesAModel(key: RowKey): Call -> bool {
    (call: Call) => NonBlank(call.model) && Fills(call, key)
  }

  /** The model rows beneath a key add up to the calls that name a model; when
      every call of the key both aggregates and names one, to the row itself. */
  lemma ModelRowsSplitTheRow(events: seq<Event>, key: RowKey, listed: seq<string>)
    requires Distinct(listed) && forall model :: ModelKey(key, model) in After(events).models ==> model in listed
    ensures SumOf(listed, ModelPart(After(events).models, key)) == Charged(Log(events), Charge, NamesAModel(key))
    ensures (forall i :: 0 <= i < |Log(events)| && Fills(Log(events)[i], key) ==>
               Log(events)[i].aggregate && NonBlank(Log(events)[i].model)) ==>
            SumOf(listed, ModelPart(After(events).models, key)) == CountersAt(After(events).usage, key)
  {
    hide After, Log, Charge, Fills, CountersAt, NonBlank, Strip;
    var log, models, picks := Log(events), After(events).models, NamesAModel(key);
    var parts := ChargedUnder(log, Charge, picks, Model);
    forall i | 0 <= i < |log| && picks(log[i]) ensures Model(log[i]) in listed {
      var modelKey := ModelKey(key, Model(log[i]));
      assert Modelled(modelKey)(log[i]);
      RowsAgreeWithTheLog(events, key, modelKey);
    }
    PartsMakeTheWhole(log, Charge, picks, Model, listed);
    forall model | model in listed ensures parts(model) == ModelPart(models, key)(model) {
      CountersAreCharges(events, key, ModelKey(key, model));
      SamePicks(log, Charge, Under(picks, Model, model), Modelled(ModelKey(key, model)));
    }
    SameParts(listed, parts, ModelPart(models, key));
    if forall i :: 0 <= i < |log| && Fills(log[i], key) ==> log[i].aggregate && NonBlank(log[i].model) {
      SamePicks(log, Charge, picks, Aggregated(key));
      CountersAreCharges(events, key, ModelKey(key, ""));
    }
  }
}
