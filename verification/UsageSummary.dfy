/** The summary of the usage tables, client by client, and its agreement with
    the calls that were recorded. */
module UsageSummary {
  import opened Text
  import opened Money
  import opened UsageCounters
  import opened UsageRollups

  datatype Bucket = Bucket(counters: Counters, lastUsed: Option<string>)

  datatype ModelUsage = ModelUsage(model: string, customer: Option<string>, lifetime: Bucket, month: Bucket)

  datatype PromptUsage = PromptUsage(
    prompt: string,
    customer: Option<string>,
    lifetime: Bucket,
    month: Bucket,
    models: seq<ModelUsage>)

  datatype ClientUsage = ClientUsage(
    client: string,
    customer: Option<string>,
    lifetime: Counters,
    month: Counters,
    prompts: seq<PromptUsage>)

  /** The month asked for, or the current one. */
  function SelectedMonth(asked: string, now: string): string {
    Named(if asked == "" then FirstSeven(now) else asked, FirstSeven(now))
  }

  // ---- Sorting by cost --------------------------------------------------

  ghost predicate Descending<T>(xs: seq<T>, cost: T -> int) {
    forall i, j :: 0 <= i < j < |xs| ==> cost(xs[i]) >= cost(xs[j])
  }

  function InsertByCost<T>(xs: seq<T>, x: T, cost: T -> int): (r: seq<T>)
    ensures multiset(r) == multiset(xs) + multiset{x}
  {
    if xs == [] then [x]
    else
      assert xs == xs[..|xs| - 1] + [xs[|xs| - 1]];
      if cost(xs[|xs| - 1]) >= cost(x) then xs + [x]
      else InsertByCost(xs[..|xs| - 1], x, cost) + [xs[|xs| - 1]]
  }

  /** `sorted(..., key=cost, reverse=True)`: dearest first, equals in their old order. */
  function SortByCost<T>(xs: seq<T>, cost: T -> int): (r: seq<T>)
    ensures multiset(r) == multiset(xs)
  {
    if xs == [] then []
    else
      assert xs == xs[..|xs| - 1] + [xs[|xs| - 1]];
      InsertByCost(SortByCost(xs[..|xs| - 1], cost), xs[|xs| - 1], cost)
  }

  lemma {:induction false} InsertKeepsDescending<T>(xs: seq<T>, x: T, cost: T -> int)
    requires Descending(xs, cost)
    ensures Descending(InsertByCost(xs, x, cost), cost)
  {
    if xs != [] && cost(xs[|xs| - 1]) < cost(x) {
      var rest, last := xs[..|xs| - 1], xs[|xs| - 1];
      var r := InsertByCost(rest, x, cost);
      InsertKeepsDescending(rest, x, cost);
      forall i | 0 <= i < |r| ensures cost(r[i]) >= cost(last) {
        assert r[i] in multiset(r);
        assert r[i] in rest || r[i] == x;
      }
    }
  }

  /** Sorting puts the dearest first and leaves a list already in that order alone. */
  lemma {:induction false} SortByCostSorts<T>(xs: seq<T>, cost: T -> int)
    ensures Descending(SortByCost(xs, cost), cost)
    ensures Descending(xs, cost) ==> SortByCost(xs, cost) == xs
  {
    if xs != [] {
      var rest, last := xs[..|xs| - 1], xs[|xs| - 1];
      assert xs == rest + [last];
      SortByCostSorts(rest, cost);
      hide SortByCost;
      InsertKeepsDescending(SortByCost(rest, cost), last, cost);
      if Descending(xs, cost) { InsertLast(rest, last, cost); }
    }
  }

  lemma InsertLast<T>(xs: seq<T>, x: T, cost: T -> int)
    requires Descending(xs + [x], cost)
    ensures Descending(xs, cost) && InsertByCost(xs, x, cost) == xs + [x]
  {
    assert forall i :: 0 <= i < |xs| ==> (xs + [x])[i] == xs[i];
    assert (xs + [x])[|xs|] == x;
  }

  function ModelCost(): ModelUsage -> int {
    (m: ModelUsage) => m.lifetime.counters.cost
  }

  function PromptCost(): PromptUsage -> int {
    (p: PromptUsage) => p.lifetime.counters.cost
  }

  function ClientCost(): ClientUsage -> int {
    (c: ClientUsage) => c.lifetime.cost
  }

  // ---- Grouping rows by client ------------------------------------------

  function BucketAt<K>(table: map<K, Row>, key: K): Bucket {
    if key in table then Bucket(Clamp(table[key].counters), table[key].lastUsed) else Bucket(ZERO, None)
  }

  function CustomerAt<K>(table: map<K, Row>, key: K): Option<string> {
    if key in table && table[key].customer.Some? then Attributed(table[key].customer.value) else None
  }

  function InMonth(key: RowKey, month: string): RowKey {
    MonthlyKey(month, key.client, key.prompt)
  }

  function ModelEntry(models: map<ModelKey, Row>, month: string, key: ModelKey): ModelUsage {
    ModelUsage(key.model, CustomerAt(models, key), BucketAt(models, key),
               BucketAt(models, ModelKey(InMonth(key.row, month), key.model)))
  }

  /** What a summary is made from: the usage table, the month, and the models
      listed under each row. */
  datatype View = View(usage: map<RowKey, Row>, month: string, models: map<RowKey, seq<ModelUsage>>)

  function ModelsUnder(models: map<RowKey, seq<ModelUsage>>, key: RowKey): seq<ModelUsage> {
    if key in models then models[key] else []
  }

  /** The models of each row, after the first `n` lifetime rows of the model table. */
  function GroupedModels(models: map<ModelKey, Row>, month: string, rows: seq<ModelKey>, n: nat): map<RowKey, seq<ModelUsage>>
    requires n <= |rows|
  {
    if n == 0 then map[]
    else
      var before, key := GroupedModels(models, month, rows, n - 1), rows[n - 1];
      before[key.row := ModelsUnder(before, key.row) + [ModelEntry(models, month, key)]]
  }

  function ViewOf(t: Tables, month: string, modelRows: seq<ModelKey>): View {
    View(t.usage, month, GroupedModels(t.models, month, modelRows, |modelRows|))
  }

  function PromptEntry(v: View, key: RowKey): PromptUsage {
    PromptUsage(key.prompt, CustomerAt(v.usage, key), BucketAt(v.usage, key), BucketAt(v.usage, InMonth(key, v.month)),
                SortByCost(ModelsUnder(v.models, key), ModelCost()))
  }

  /** The position of a client in the list, or the list's length. */
  function IndexOfClient(clients: seq<ClientUsage>, client: string): (i: nat)
    ensures i <= |clients|
    ensures i < |clients| ==> clients[i].client == client
    ensures forall j :: 0 <= j < i ==> clients[j].client != client
  {
    if clients == [] then 0
    else if clients[0].client == client then 0
    else 1 + IndexOfClient(clients[1..], client)
  }

  /** A client's entry with one more of its rows. */
  function WithRow(c: ClientUsage, v: View, key: RowKey): ClientUsage {
    c.(customer := Coalesce(c.customer, CustomerAt(v.usage, key)),
       lifetime := Plus(c.lifetime, BucketAt(v.usage, key).counters),
       month := Plus(c.month, BucketAt(v.usage, InMonth(key, v.month)).counters),
       prompts := c.prompts + [PromptEntry(v, key)])
  }

  function NoRows(client: string): ClientUsage {
    ClientUsage(client, None, ZERO, ZERO, [])
  }

  /** The clients once one more row is added to the client it belongs to. */
  function AddRow(clients: seq<ClientUsage>, v: View, key: RowKey): seq<ClientUsage> {
    var i := IndexOfClient(clients, key.client);
    if i < |clients| then clients[i := WithRow(clients[i], v, key)]
    else clients + [WithRow(NoRows(key.client), v, key)]
  }

  /** The clients, in order of first appearance, after the first `n` rows. */
  function Grouped(v: View, rows: seq<RowKey>, n: nat): seq<ClientUsage>
    requires n <= |rows|
  {
    if n == 0 then [] else AddRow(Grouped(v, rows, n - 1), v, rows[n - 1])
  }

  function SortedPrompts(clients: seq<ClientUsage>): (r: seq<ClientUsage>)
    ensures |r| == |clients|
    ensures forall i :: 0 <= i < |r| ==> r[i] == clients[i].(prompts := SortByCost(clients[i].prompts, PromptCost()))
  {
    seq(|clients|, i requires 0 <= i < |clients| => clients[i].(prompts := SortByCost(clients[i].prompts, PromptCost())))
  }

  function Summary(v: View, rows: seq<RowKey>): seq<ClientUsage> {
    SortByCost(SortedPrompts(Grouped(v, rows, |rows|)), ClientCost())
  }

  method GroupRows(v: View, rows: seq<RowKey>) returns (clients: seq<ClientUsage>)
    ensures clients == Grouped(v, rows, |rows|)
  {
    hide WithRow, NoRows;
    clients := [];
    for n := 0 to |rows|
      invariant clients == Grouped(v, rows, n)
    {
      var key := rows[n];
      var i := IndexOfClient(clients, key.client);
      if i == |clients| {
        clients := clients + [WithRow(NoRows(key.client), v, key)];
      } else {
        clients := clients[i := WithRow(clients[i], v, key)];
      }
    }
  }

  method GroupModels(models: map<ModelKey, Row>, month: string, rows: seq<ModelKey>) returns (r: map<RowKey, seq<ModelUsage>>)
    ensures r == GroupedModels(models, month, rows, |rows|)
  {
    hide ModelEntry;
    r := map[];
    for n := 0 to |rows|
      invariant r == GroupedModels(models, month, rows, n)
    {
      var key := rows[n].row;
      if key !in r {
        r := r[key := []];
      }
      r := r[key := r[key] + [ModelEntry(models, month, rows[n])]];
    }
  }

  /** `summary_payload`, from the lifetime rows of both tables in the order the queries return them. */
  method SummaryPayload(t: Tables, asked: string, now: string, rows: seq<RowKey>, modelRows: seq<ModelKey>)
    returns (r: seq<ClientUsage>)
    ensures r == Summary(ViewOf(t, SelectedMonth(asked, now), modelRows), rows)
  {
    hide SelectedMonth, Grouped, SortByCost;
    var month := SelectedMonth(asked, now);
    var models := GroupModels(t.models, month, modelRows);
    var clients := GroupRows(View(t.usage, month, models), rows);
    r := [];
    for n := 0 to |clients|
      invariant r == SortedPrompts(clients)[..n]
    {
      r := r + [clients[n].(prompts := SortByCost(clients[n].prompts, PromptCost()))];
    }
    assert r == SortedPrompts(clients);
    r := SortByCost(r, ClientCost());
  }

  // ---- What a client's entry holds --------------------------------------

  /** The rows of one client among the first `n`. */
  ghost function RowsOf(rows: seq<RowKey>, n: nat, client: string): seq<RowKey>
    requires n <= |rows|
  {
    if n == 0 then []
    else
      var before := RowsOf(rows, n - 1, client);
      if rows[n - 1].client == client then before + [rows[n - 1]] else before
  }

  ghost function LifetimePart(usage: map<RowKey, Row>): RowKey -> Counters {
    key => BucketAt(usage, key).counters
  }

  ghost function MonthlyPart(usage: map<RowKey, Row>, month: string): RowKey -> Counters {
    key => BucketAt(usage, InMonth(key, month)).counters
  }

  ghost function PromptEntries(v: View, keys: seq<RowKey>): (r: seq<PromptUsage>)
    ensures |r| == |keys|
    ensures forall i :: 0 <= i < |r| ==> r[i] == PromptEntry(v, keys[i])
  {
    seq(|keys|, i requires 0 <= i < |keys| => PromptEntry(v, keys[i]))
  }

  /** The first customer named by a list of rows. */
  ghost function FirstCustomer(usage: map<RowKey, Row>, keys: seq<RowKey>): Option<string> {
    if keys == [] then None
    else Coalesce(FirstCustomer(usage, keys[..|keys| - 1]), CustomerAt(usage, keys[|keys| - 1]))
  }

  /** An entry made of a list of one client's rows, all at once. */
  ghost function EntryOf(v: View, client: string, keys: seq<RowKey>): ClientUsage {
    ClientUsage(client, FirstCustomer(v.usage, keys), SumOf(keys, LifetimePart(v.usage)), SumOf(keys, MonthlyPart(v.usage, v.month)),
                PromptEntries(v, keys))
  }

  lemma WithRowExtends(v: View, client: string, keys: seq<RowKey>, key: RowKey)
    ensures WithRow(EntryOf(v, client, keys), v, key) == EntryOf(v, client, keys + [key])
  {
    hide BucketAt, CustomerAt, PromptEntry;
    var longer := keys + [key];
    assert longer[..|longer| - 1] == keys && longer[|longer| - 1] == key;
    assert PromptEntries(v, longer) == PromptEntries(v, keys) + [PromptEntry(v, key)];
  }

  ghost predicate HasEntry(clients: seq<ClientUsage>, client: string) {
    exists i :: 0 <= i < |clients| && clients[i].client == client
  }

  ghost predicate DistinctClients(clients: seq<ClientUsage>) {
    forall i, j :: 0 <= i < j < |clients| ==> clients[i].client != clients[j].client
  }

  ghost predicate GroupedWell(v: View, rows: seq<RowKey>, n: nat, clients: seq<ClientUsage>)
    requires n <= |rows|
  {
    && DistinctClients(clients)
    && (forall i :: 0 <= i < |clients| ==>
          clients[i] == EntryOf(v, clients[i].client, RowsOf(rows, n, clients[i].client)))
    && (forall client :: HasEntry(clients, client) <==> RowsOf(rows, n, client) != [])
  }

  lemma NoRowsIsEmpty(v: View, client: string)
    ensures NoRows(client) == EntryOf(v, client, [])
  {
  }

  /** Adding a row touches the entry of its client, which it opens when there is none. */
  lemma AddRowIsExact(clients: seq<ClientUsage>, v: View, key: RowKey, c: ClientUsage)
    requires DistinctClients(clients)
    requires c == if HasEntry(clients, key.client) then clients[IndexOfClient(clients, key.client)] else NoRows(key.client)
    ensures DistinctClients(AddRow(clients, v, key))
    ensures forall client :: HasEntry(AddRow(clients, v, key), client) <==> HasEntry(clients, client) || client == key.client
    ensures forall d :: d in AddRow(clients, v, key) ==>
              if d.client == key.client then d == WithRow(c, v, key) else d in clients
  {
    hide BucketAt, CustomerAt, PromptEntry;
    var i, grown := IndexOfClient(clients, key.client), AddRow(clients, v, key);
    assert HasEntry(clients, key.client) <==> i < |clients|;
    assert grown[i].client == key.client;
    assert forall j :: 0 <= j < |clients| ==> grown[j].client == clients[j].client;
    forall client ensures HasEntry(grown, client) <==> HasEntry(clients, client) || client == key.client {
      if HasEntry(clients, client) {
        var j :| 0 <= j < |clients| && clients[j].client == client;
        assert grown[j].client == client;
      }
    }
  }

  /** Grouping gives one entry to each client with a row, made of all its rows and no other. */
  lemma {:induction false} GroupingIsExact(v: View, rows: seq<RowKey>, n: nat)
    requires n <= |rows|
    ensures GroupedWell(v, rows, n, Grouped(v, rows, n))
  {
    hide EntryOf, WithRow, AddRow, HasEntry, NoRows, DistinctClients;
    if n == 0 {
      NothingGrouped();
    } else {
      var clients, key := Grouped(v, rows, n - 1), rows[n - 1];
      GroupingIsExact(v, rows, n - 1);
      var keys := RowsOf(rows, n - 1, key.client);
      var c := EntryOf(v, key.client, keys);
      NoRowsIsEmpty(v, key.client);
      EntryAt(clients, key.client);
      AddRowIsExact(clients, v, key, c);
      WithRowExtends(v, key.client, keys, key);
      forall d | d in Grouped(v, rows, n)
        ensures d == EntryOf(v, d.client, RowsOf(rows, n, d.client))
      {
        assert d.client != key.client ==> d in clients;
      }
    }
  }

  lemma NothingGrouped()
    ensures DistinctClients([]) && forall client :: !HasEntry([], client)
  {
  }

  lemma EntryAt(clients: seq<ClientUsage>, client: string)
    ensures HasEntry(clients, client) ==>
              IndexOfClient(clients, client) < |clients| && clients[IndexOfClient(clients, client)].client == client
  {
  }

  // ---- The summary and the log ------------------------------------------

  ghost function RowCost(usage: map<RowKey, Row>): RowKey -> int {
    key => BucketAt(usage, key).counters.cost
  }

  /** The lifetime rows of the table, each once, dearest first. */
  ghost predicate ListsRows(rows: seq<RowKey>, usage: map<RowKey, Row>) {
    && Distinct(rows)
    && (forall key :: key in rows <==> key in usage && key.scope == Lifetime)
    && Descending(rows, RowCost(usage))
  }

  lemma {:induction false} RowsOfOneClient(rows: seq<RowKey>, n: nat, client: string, cost: RowKey -> int)
    requires n <= |rows| && Distinct(rows) && Descending(rows, cost)
    ensures forall key :: key in RowsOf(rows, n, client) <==> key in rows[..n] && key.client == client
    ensures Distinct(RowsOf(rows, n, client)) && Descending(RowsOf(rows, n, client), cost)
  {
    if n > 0 {
      RowsOfOneClient(rows, n - 1, client, cost);
      assert rows[..n] == rows[..n - 1] + [rows[n - 1]];
      var before := RowsOf(rows, n - 1, client);
      forall i | 0 <= i < |before| ensures before[i] != rows[n - 1] && cost(before[i]) >= cost(rows[n - 1]) {
        assert before[i] in rows[..n - 1];
      }
    }
  }

  ghost function OfClient(client: string): Call -> bool {
    (call: Call) => call.aggregate && Client(call) == client
  }

  ghost function OfClientIn(client: string, month: string): Call -> bool {
    (call: Call) => call.aggregate && Client(call) == client && Month(call) == month
  }

  function KeyOf(call: Call): RowKey {
    LifetimeKey(Client(call), Prompt(call))
  }

  /** What the summary reads from a row is what the log charged to it. */
  lemma BucketsAreCharges(events: seq<Event>, key: RowKey)
    ensures BucketAt(After(events).usage, key).counters == Charged(Log(events), Charge, Aggregated(key))
    ensures key in After(events).usage && key.scope == Lifetime ==> key.period == "all"
  {
    hide After, Log, Client, Prompt, Month;
    CountersAreCharges(events, key, ModelKey(key, ""));
    ChargesAreNotNegative(Log(events), Charge, Aggregated(key));
    RowsAgreeWithTheLog(events, key, ModelKey(key, ""));
  }

  lemma CallsHaveRows(events: seq<Event>, rows: seq<RowKey>, client: string, i: nat)
    requires i < |Log(events)|
    ensures ListsRows(rows, After(events).usage) && OfClient(client)(Log(events)[i]) ==>
              KeyOf(Log(events)[i]) in RowsOf(rows, |rows|, client)
  {
    hide After, Log, Client, Prompt, Month, BucketAt;
    if ListsRows(rows, After(events).usage) && OfClient(client)(Log(events)[i]) {
      var key := KeyOf(Log(events)[i]);
      assert Aggregated(key)(Log(events)[i]);
      RowsAgreeWithTheLog(events, key, ModelKey(key, ""));
      RowsOfOneClient(rows, |rows|, client, RowCost(After(events).usage));
      assert rows[..|rows|] == rows;
    }
  }

  /** A client's lifetime rows add up to all the calls of the client, and their
      rows of one month to its calls of that month. */
  lemma RowsOfClientAreItsCalls(events: seq<Event>, month: string, rows: seq<RowKey>, client: string)
    requires ListsRows(rows, After(events).usage)
    ensures SumOf(RowsOf(rows, |rows|, client), LifetimePart(After(events).usage)) ==
            Charged(Log(events), Charge, OfClient(client))
    ensures SumOf(RowsOf(rows, |rows|, client), MonthlyPart(After(events).usage, month)) ==
            Charged(Log(events), Charge, OfClientIn(client, month))
  {
    hide After, Log, Charge, Client, Prompt, Month, BucketAt, RowsOf, Charged, SumOf;
    var log, usage, keys := Log(events), After(events).usage, RowsOf(rows, |rows|, client);
    var all, inMonth := OfClient(client), OfClientIn(client, month);
    RowsOfOneClient(rows, |rows|, client, RowCost(usage));
    assert rows[..|rows|] == rows;
    forall i | 0 <= i < |log| && all(log[i]) ensures KeyOf(log[i]) in keys {
      CallsHaveRows(events, rows, client, i);
    }
    PartsMakeTheWhole(log, Charge, all, KeyOf, keys);
    PartsMakeTheWhole(log, Charge, inMonth, KeyOf, keys);
    var wholes, months := ChargedUnder(log, Charge, all, KeyOf), ChargedUnder(log, Charge, inMonth, KeyOf);
    forall key | key in keys
      ensures wholes(key) == LifetimePart(usage)(key) && months(key) == MonthlyPart(usage, month)(key)
    {
      BucketsAreCharges(events, key);
      BucketsAreCharges(events, InMonth(key, month));
      SamePicks(log, Charge, Under(all, KeyOf, key), Aggregated(key));
      SamePicks(log, Charge, Under(inMonth, KeyOf, key), Aggregated(InMonth(key, month)));
    }
    SameParts(keys, wholes, LifetimePart(usage));
    SameParts(keys, months, MonthlyPart(usage, month));
  }

  lemma SummaryEntries(v: View, rows: seq<RowKey>)
    requires ListsRows(rows, v.usage)
    ensures multiset(Summary(v, rows)) == multiset(Grouped(v, rows, |rows|))
    ensures Descending(Summary(v, rows), ClientCost())
  {
    hide EntryOf, BucketAt, CustomerAt, Grouped, HasEntry, RowsOf;
    var clients := Grouped(v, rows, |rows|);
    GroupingIsExact(v, rows, |rows|);
    forall i | 0 <= i < |clients| ensures SortedPrompts(clients)[i] == clients[i] {
      PromptsComeSorted(v, rows, clients[i].client);
    }
    assert SortedPrompts(clients) == clients;
    SortByCostSorts(clients, ClientCost());
  }

  /** A client's prompts are already in order of cost, since its rows are. */
  lemma PromptsComeSorted(v: View, rows: seq<RowKey>, client: string)
    requires ListsRows(rows, v.usage)
    ensures var e := EntryOf(v, client, RowsOf(rows, |rows|, client));
      SortByCost(e.prompts, PromptCost()) == e.prompts
  {
    hide BucketAt, CustomerAt, SortByCost;
    RowsOfOneClient(rows, |rows|, client, RowCost(v.usage));
    var prompts := EntryOf(v, client, RowsOf(rows, |rows|, client)).prompts;
    assert forall i :: 0 <= i < |prompts| ==> PromptCost()(prompts[i]) == RowCost(v.usage)(RowsOf(rows, |rows|, client)[i]);
    SortByCostSorts(prompts, PromptCost());
  }

  /** After any events the summary has one entry for each client with an
      aggregated call and no other, dearest first; an entry's totals are
      those of all the client's calls and of its calls in the month, whatever
      the prompts they were for. */
  lemma SummaryAgreesWithTheLog(events: seq<Event>, month: string, rows: seq<RowKey>, modelRows: seq<ModelKey>, client: string)
    requires ListsRows(rows, After(events).usage)
    ensures var r := Summary(ViewOf(After(events), month, modelRows), rows);
      && Descending(r, ClientCost()) && DistinctClients(r)
      && (HasEntry(r, client) <==> Picked(Log(events), OfClient(client)))
      && (forall e :: e in r && e.client == client ==>
            && e == EntryOf(ViewOf(After(events), month, modelRows), client, RowsOf(rows, |rows|, client))
            && e.lifetime == Charged(Log(events), Charge, OfClient(client))
            && e.month == Charged(Log(events), Charge, OfClientIn(client, month)))
  {
    hide After, Log, Charge, BucketAt, RowsOf, Grouped, GroupedModels, Charged, SumOf, Summary, Descending, OfClient, OfClientIn;
    var v := ViewOf(After(events), month, modelRows);
    var clients, r := Grouped(v, rows, |rows|), Summary(v, rows);
    SummaryEntries(v, rows);
    GroupingIsExact(v, rows, |rows|);
    SameClients(clients, r, client);
    RowsOfClientAreItsCalls(events, month, rows, client);
    ClientsHaveCalls(events, rows, client);
    forall e | e in r && e.client == client ensures e in clients {
      assert e in multiset(r);
    }
  }

  // ---- The models of a prompt -------------------------------------------

  /** The models of one row among the first `n`. */
  ghost function ModelRowsOf(rows: seq<ModelKey>, n: nat, key: RowKey): seq<ModelKey>
    requires n <= |rows|
  {
    if n == 0 then []
    else
      var before := ModelRowsOf(rows, n - 1, key);
      if rows[n - 1].row == key then before + [rows[n - 1]] else before
  }

  ghost function ModelEntries(models: map<ModelKey, Row>, month: string, keys: seq<ModelKey>): (r: seq<ModelUsage>)
    ensures |r| == |keys|
    ensures forall i :: 0 <= i < |r| ==> r[i] == ModelEntry(models, month, keys[i])
  {
    seq(|keys|, i requires 0 <= i < |keys| => ModelEntry(models, month, keys[i]))
  }

  /** Grouping lists under each row exactly its own model rows, in order. */
  lemma {:induction false} ModelsAreGrouped(models: map<ModelKey, Row>, month: string, rows: seq<ModelKey>, n: nat, key: RowKey)
    requires n <= |rows|
    ensures ModelsUnder(GroupedModels(models, month, rows, n), key) == ModelEntries(models, month, ModelRowsOf(rows, n, key))
  {
    hide ModelEntry;
    if n > 0 {
      ModelsAreGrouped(models, month, rows, n - 1, key);
    }
  }

  ghost function ModelRowCost(models: map<ModelKey, Row>): ModelKey -> int {
    key => BucketAt(models, key).counters.cost
  }

  /** The lifetime rows of the model table, each once, dearest first. */
  ghost predicate ListsModelRows(rows: seq<ModelKey>, models: map<ModelKey, Row>) {
    && Distinct(rows)
    && (forall key :: key in rows <==> key in models && key.row.scope == Lifetime)
    && Descending(rows, ModelRowCost(models))
  }

  lemma {:induction false} ModelRowsOfOneRow(rows: seq<ModelKey>, n: nat, key: RowKey, cost: ModelKey -> int)
    requires n <= |rows| && Distinct(rows) && Descending(rows, cost)
    ensures forall k :: k in ModelRowsOf(rows, n, key) <==> k in rows[..n] && k.row == key
    ensures Distinct(ModelRowsOf(rows, n, key)) && Descending(ModelRowsOf(rows, n, key), cost)
  {
    if n > 0 {
      ModelRowsOfOneRow(rows, n - 1, key, cost);
      assert rows[..n] == rows[..n - 1] + [rows[n - 1]];
      var before := ModelRowsOf(rows, n - 1, key);
      forall i | 0 <= i < |before| ensures before[i] != rows[n - 1] && cost(before[i]) >= cost(rows[n - 1]) {
        assert before[i] in rows[..n - 1];
      }
    }
  }

  ghost function ModelNames(keys: seq<ModelKey>): (r: seq<string>)
    ensures |r| == |keys| && forall i :: 0 <= i < |keys| ==> r[i] == keys[i].model
  {
    seq(|keys|, i requires 0 <= i < |keys| => keys[i].model)
  }

  /** After any events a prompt lists exactly the models its calls name, dearest
      first, and their lifetime counters add up to those of the calls that name one. */
  lemma PromptModelsAgreeWithTheLog(events: seq<Event>, month: string, modelRows: seq<ModelKey>, key: RowKey)
    requires ListsModelRows(modelRows, After(events).models) && key.scope == Lifetime
    ensures var v, keys := ViewOf(After(events), month, modelRows), ModelRowsOf(modelRows, |modelRows|, key);
      && PromptEntry(v, key).models == ModelEntries(After(events).models, month, keys)
      && (forall model :: model in ModelNames(keys) <==> Picked(Log(events), Modelled(ModelKey(key, model))))
      && SumOf(ModelNames(keys), ModelPart(After(events).models, key)) == Charged(Log(events), Charge, NamesAModel(key))
  {
    hide After, Log, Charge, BucketAt, CustomerAt, GroupedModels, ModelRowsOf, Charged, SumOf, Picked, Modelled, NamesAModel, ModelPart;
    var models, keys := After(events).models, ModelRowsOf(modelRows, |modelRows|, key);
    ModelsAreGrouped(models, month, modelRows, |modelRows|, key);
    ModelRowsOfOneRow(modelRows, |modelRows|, key, ModelRowCost(models));
    assert modelRows[..|modelRows|] == modelRows;
    ModelsComeSorted(models, month, keys);
    RowNames(keys, key);
    forall model ensures model in ModelNames(keys) <==> ModelKey(key, model) in models {
      assert ModelKey(key, model) in keys <==> ModelKey(key, model) in models;
    }
    forall model ensures model in ModelNames(keys) <==> Picked(Log(events), Modelled(ModelKey(key, model))) {
      RowsAgreeWithTheLog(events, key, ModelKey(key, model));
    }
    ModelRowsSplitTheRow(events, key, ModelNames(keys));
  }

  lemma ModelsComeSorted(models: map<ModelKey, Row>, month: string, keys: seq<ModelKey>)
    requires Descending(keys, ModelRowCost(models))
    ensures SortByCost(ModelEntries(models, month, keys), ModelCost()) == ModelEntries(models, month, keys)
  {
    hide BucketAt, CustomerAt, SortByCost;
    var entries := ModelEntries(models, month, keys);
    assert forall i :: 0 <= i < |entries| ==> ModelCost()(entries[i]) == ModelRowCost(models)(keys[i]);
    SortByCostSorts(entries, ModelCost());
  }

  /** The rows of one key are told apart by their models. */
  lemma RowNames(keys: seq<ModelKey>, key: RowKey)
    requires Distinct(keys) && forall k :: k in keys ==> k.row == key
    ensures Distinct(ModelNames(keys))
    ensures forall model :: model in ModelNames(keys) <==> ModelKey(key, model) in keys
  {
    var names := ModelNames(keys);
    forall i | 0 <= i < |keys| ensures keys[i] == ModelKey(key, names[i]) {
      assert keys[i] in keys;
    }
    forall model ensures model in names <==> ModelKey(key, model) in keys {
      if ModelKey(key, model) in keys {
        var i :| 0 <= i < |keys| && keys[i] == ModelKey(key, model);
        assert names[i] == model;
      }
    }
  }

  lemma SameClients(a: seq<ClientUsage>, b: seq<ClientUsage>, client: string)
    requires multiset(a) == multiset(b) && DistinctClients(a)
    ensures HasEntry(a, client) <==> HasEntry(b, client)
    ensures DistinctClients(b)
  {
    forall x ensures x in a <==> x in b {
      assert x in a <==> x in multiset(a);
      assert x in b <==> x in multiset(b);
    }
    assert forall x :: x in a && x.client == client ==> HasEntry(a, client);
    assert forall x :: x in b && x.client == client ==> HasEntry(b, client);
    forall i, j | 0 <= i < j < |b| ensures b[i].client != b[j].client {
      assert b[i] in b && b[j] in b && b[i] in a && b[j] in a;
      if b[i] == b[j] {
        assert b == b[..i] + [b[i]] + b[i + 1..j] + [b[j]] + b[j + 1..];
        assert multiset(a)[b[i]] >= 2;
        AtMostOnce(a, b[i]);
      }
    }
  }

  lemma {:induction false} AtMostOnce(a: seq<ClientUsage>, x: ClientUsage)
    requires DistinctClients(a)
    ensures multiset(a)[x] <= 1
  {
    if a != [] {
      var rest := a[..|a| - 1];
      assert a == rest + [a[|a| - 1]];
      AtMostOnce(rest, x);
      assert x == a[|a| - 1] ==> x !in rest;
    }
  }

  lemma ClientsHaveCalls(events: seq<Event>, rows: seq<RowKey>, client: string)
    requires ListsRows(rows, After(events).usage)
    ensures RowsOf(rows, |rows|, client) != [] <==> Picked(Log(events), OfClient(client))
  {
    hide After, Log, BucketAt, Client, Prompt, Month, RowsOf;
    var keys := RowsOf(rows, |rows|, client);
    RowsOfOneClient(rows, |rows|, client, RowCost(After(events).usage));
    assert rows[..|rows|] == rows;
    if keys != [] {
      assert keys[0] in keys;
      RowsAgreeWithTheLog(events, keys[0], ModelKey(keys[0], ""));
      var i :| 0 <= i < |Log(events)| && Aggregated(keys[0])(Log(events)[i]);
      assert OfClient(client)(Log(events)[i]);
    }
    if Picked(Log(events), OfClient(client)) {
      var i :| 0 <= i < |Log(events)| && OfClient(client)(Log(events)[i]);
      CallsHaveRows(events, rows, client, i);
    }
  }
}
