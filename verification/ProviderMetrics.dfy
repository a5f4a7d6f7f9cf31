/** Per-model execution counters with a window of the latest latencies, and
    the snapshot they are saved as. */
module ProviderMetrics {
  import opened Money
  import opened Text

  /** The collector keeps this many latencies for each model. */
  const WINDOW := 50

  type Queue = xs: seq<real> | |xs| <= WINDOW

  datatype Key = Key(provider: string, model: string)

  datatype ModelState = ModelState(
    samples: Queue,
    total: int,
    successful: int,
    failed: int,
    failures: map<string, int>,
    promptTokens: int,
    cachedInputTokens: int,
    completionTokens: int,
    totalTokens: int,
    cost: real)

  const NEW_MODEL := ModelState([], 0, 0, 0, map[], 0, 0, 0, 0, 0.0)

  datatype Event =
    | Succeeded(provider: string, model: string, latency: real, promptTokens: int, cachedInputTokens: int,
                completionTokens: int, cost: real)
    | Failed(provider: string, model: string, errorClass: string)

  function KeyFor(provider: string, model: string): Key {
    Key(Named(provider, "unknown"), Named(model, "unknown"))
  }

  function EventKey(e: Event): Key {
    KeyFor(e.provider, e.model)
  }

  function MostReal(a: real, b: real): real {
    if a < b then b else a
  }

  /** What a bounded queue keeps of all that was appended to it. */
  function Latest<T>(xs: seq<T>): (r: seq<T>)
    ensures |r| <= WINDOW
    ensures |xs| <= WINDOW ==> r == xs
  {
    if |xs| <= WINDOW then xs else xs[|xs| - WINDOW..]
  }

  lemma LatestOfLatest<T>(xs: seq<T>, x: T)
    ensures Latest(Latest(xs) + [x]) == Latest(xs + [x])
  {
  }

  // ---- Recording --------------------------------------------------------

  function FailuresOf(failures: map<string, int>, errorClass: string): int {
    if errorClass in failures then failures[errorClass] else 0
  }

  /** One event counted in the state of its model. */
  function Counted(s: ModelState, e: Event): ModelState {
    match e
    case Succeeded(_, _, latency, prompt, cached, completion, cost) =>
      s.(total := s.total + 1,
         successful := s.successful + 1,
         samples := Latest(s.samples + [MostReal(latency, 0.0)]),
         promptTokens := s.promptTokens + Max(prompt, 0),
         cachedInputTokens := s.cachedInputTokens + Max(cached, 0),
         completionTokens := s.completionTokens + Max(completion, 0),
         totalTokens := s.totalTokens + Max(prompt + completion, 0),
         cost := s.cost + MostReal(cost, 0.0))
    case Failed(_, _, errorClass) =>
      var name := Named(errorClass, "unknown_error");
      s.(total := s.total + 1,
         failed := s.failed + 1,
         failures := s.failures[name := FailuresOf(s.failures, name) + 1])
  }

  function StateAt(state: map<Key, ModelState>, key: Key): ModelState {
    if key in state then state[key] else NEW_MODEL
  }

  function Recorded(state: map<Key, ModelState>, e: Event): map<Key, ModelState> {
    state[EventKey(e) := Counted(StateAt(state, EventKey(e)), e)]
  }

  // ---- Rounding ---------------------------------------------------------

  /** The nearest whole number, an exact half going to the even one. */
  function Nearest(y: real): int {
    var below := y.Floor;
    var rest := y - below as real;
    if rest < 0.5 || (rest == 0.5 && below % 2 == 0) then below else below + 1
  }

  /** `round(x, 3)`. */
  function Round3(x: real): real {
    Nearest(x * 1000.0) as real / 1000.0
  }

  /** `round(x, 4)`. */
  function Round4(x: real): real {
    Nearest(x * 10000.0) as real / 10000.0
  }

  /** The share of requests that succeeded, none when there was none. */
  function Rate(successful: int, total: int): real {
    if total == 0 then 0.0 else Round4(successful as real / total as real)
  }

  /** `round(x, 8)`. */
  function Round8(x: real): real {
    Nearest(x * 100000000.0) as real / 100000000.0
  }

  lemma RoundingSettles(x: real, y: real)
    ensures Round3(Round3(x)) == Round3(x) && Round8(Round8(x)) == Round8(x)
    ensures x <= y ==> Round3(x) <= Round3(y)
  {
    var n, m := Nearest(x * 1000.0), Nearest(x * 100000000.0);
    assert (n as real).Floor == n && (m as real).Floor == m;
    NearestIsMonotone(x * 1000.0, y * 1000.0);
  }

  lemma NearestIsMonotone(x: real, y: real)
    ensures x <= y ==> Nearest(x) <= Nearest(y)
  {
  }

  function RoundAll(xs: seq<real>): (r: seq<real>)
    ensures |r| == |xs| && forall i :: 0 <= i < |xs| ==> r[i] == Round3(xs[i])
  {
    seq(|xs|, i requires 0 <= i < |xs| => Round3(xs[i]))
  }

  // ---- The snapshot -----------------------------------------------------

  function SumReal(xs: seq<real>): real {
    if xs == [] then 0.0 else SumReal(xs[..|xs| - 1]) + xs[|xs| - 1]
  }

  function InsertUp(xs: seq<real>, x: real): (r: seq<real>)
    ensures multiset(r) == multiset(xs) + multiset{x}
  {
    if xs == [] then [x]
    else
      assert xs == xs[..|xs| - 1] + [xs[|xs| - 1]];
      if xs[|xs| - 1] <= x then xs + [x] else InsertUp(xs[..|xs| - 1], x) + [xs[|xs| - 1]]
  }

  function SortUp(xs: seq<real>): (r: seq<real>)
    ensures multiset(r) == multiset(xs) && |r| == |xs|
  {
    if xs == [] then []
    else
      assert xs == xs[..|xs| - 1] + [xs[|xs| - 1]];
      var r := InsertUp(SortUp(xs[..|xs| - 1]), xs[|xs| - 1]);
      assert |multiset(r)| == |multiset(xs)|;
      r
  }

  function Average(xs: seq<real>): Option<real> {
    if xs == [] then None else Some(Round3(SumReal(xs) / |xs| as real))
  }

  /** `max(0, ceil(n * 0.95) - 1)`. */
  function RankOf95(n: nat): (i: nat)
    ensures n > 0 ==> i < n && 95 * n <= 100 * (i + 1) < 95 * n + 100
  {
    if n == 0 then 0 else (95 * n + 99) / 100 - 1
  }

  function Percentile95(xs: seq<real>): Option<real> {
    if xs == [] then None else Some(Round3(SortUp(xs)[RankOf95(|xs|)]))
  }

  datatype ModelSnapshot = ModelSnapshot(
    average: Option<real>,
    percentile95: Option<real>,
    recent: seq<real>,
    total: int,
    successful: int,
    failed: int,
    failures: map<string, int>,
    promptTokens: int,
    cachedInputTokens: int,
    completionTokens: int,
    totalTokens: int,
    cost: real,
    rate: real)

  function SnapshotOf(s: ModelState): ModelSnapshot {
    ModelSnapshot(
      Average(s.samples), Percentile95(s.samples), RoundAll(s.samples), s.total, s.successful, s.failed, s.failures,
      s.promptTokens, s.cachedInputTokens, s.completionTokens, s.totalTokens, Round8(s.cost), Rate(s.successful, s.total))
  }

  // ---- Totals by provider -----------------------------------------------

  function Total(): ModelState -> int {
    (s: ModelState) => s.total
  }

  function Successful(): ModelState -> int {
    (s: ModelState) => s.successful
  }

  function Failing(): ModelState -> int {
    (s: ModelState) => s.failed
  }

  /** A counter summed over all models. */
  ghost function SumOver(state: map<Key, ModelState>, counter: ModelState -> int): int {
    if state == map[] then 0
    else
      var key :| key in state;
      counter(state[key]) + SumOver(state - {key}, counter)
  }

  lemma {:induction false} SumSplits(state: map<Key, ModelState>, counter: ModelState -> int, key: Key)
    requires key in state
    ensures SumOver(state, counter) == counter(state[key]) + SumOver(state - {key}, counter)
    decreases |state|
  {
    var first :| first in state && SumOver(state, counter) == counter(state[first]) + SumOver(state - {first}, counter);
    if first != key {
      SumSplits(state - {first}, counter, key);
      SumSplits(state - {key}, counter, first);
      assert state - {first} - {key} == state - {key} - {first};
    }
  }

  lemma SumOfUpdate(state: map<Key, ModelState>, counter: ModelState -> int, key: Key, s: ModelState)
    requires counter(NEW_MODEL) == 0
    ensures SumOver(state[key := s], counter) == SumOver(state, counter) + counter(s) - counter(StateAt(state, key))
  {
    SumSplits(state[key := s], counter, key);
    assert state[key := s] - {key} == state - {key};
    if key in state {
      SumSplits(state, counter, key);
    } else {
      assert state - {key} == state;
    }
  }

  datatype ProviderTotals = ProviderTotals(total: int, successful: int, failed: int, rate: real)

  function TotalsFrom(total: int, successful: int): ProviderTotals {
    ProviderTotals(total, successful, total - successful, Rate(successful, total))
  }

  ghost function OfProvider(state: map<Key, ModelState>, provider: string): map<Key, ModelState> {
    map key | key in state && key.provider == provider :: state[key]
  }

  /** The counters of a provider's models together. */
  ghost function TotalsOf(state: map<Key, ModelState>, provider: string): ProviderTotals {
    TotalsFrom(SumOver(OfProvider(state, provider), Total()), SumOver(OfProvider(state, provider), Successful()))
  }

  /** One total for each provider with a model, of all its models. */
  ghost predicate TotalsByProvider(state: map<Key, ModelState>, totals: map<string, ProviderTotals>) {
    && (forall p :: p in totals <==> exists key :: key in state && key.provider == p)
    && (forall p :: p in totals ==> totals[p] == TotalsOf(state, p))
  }

  function Tallied(totals: map<string, ProviderTotals>, provider: string, s: ModelState): map<string, ProviderTotals> {
    if provider in totals then
      totals[provider := TotalsFrom(totals[provider].total + s.total, totals[provider].successful + s.successful)]
    else totals[provider := TotalsFrom(s.total, s.successful)]
  }

  lemma TalliedCounts(state: map<Key, ModelState>, key: Key, s: ModelState, totals: map<string, ProviderTotals>)
    requires key !in state && TotalsByProvider(state, totals)
    ensures TotalsByProvider(state[key := s], Tallied(totals, key.provider, s))
  {
    hide TotalsOf, TotalsFrom;
    var after := state[key := s];
    forall p ensures p in Tallied(totals, key.provider, s) <==> exists k :: k in after && k.provider == p {
      assert key in after;
      if k :| k in state && k.provider == p {
        assert k in after;
      }
    }
    forall p | p != key.provider && p in totals ensures TotalsOf(after, p) == TotalsOf(state, p) {
      OtherProvidersKeep(state, key, s, p);
    }
    OwnProviderAdds(state, key, s);
    if key.provider !in totals { NothingOfProvider(state, key.provider); }
  }

  lemma OtherProvidersKeep(state: map<Key, ModelState>, key: Key, s: ModelState, p: string)
    requires p != key.provider
    ensures TotalsOf(state[key := s], p) == TotalsOf(state, p)
  {
    hide SumOver, TotalsFrom;
    assert OfProvider(state[key := s], p) == OfProvider(state, p);
  }

  /** A new model adds its counters to its provider's. */
  lemma OwnProviderAdds(state: map<Key, ModelState>, key: Key, s: ModelState)
    requires key !in state
    ensures var before := TotalsOf(state, key.provider);
      TotalsOf(state[key := s], key.provider) == TotalsFrom(before.total + s.total, before.successful + s.successful)
  {
    hide SumOver, Rate;
    var mine := OfProvider(state[key := s], key.provider);
    assert mine - {key} == OfProvider(state, key.provider);
    SumSplits(mine, Total(), key);
    SumSplits(mine, Successful(), key);
  }

  lemma NothingOfProvider(state: map<Key, ModelState>, provider: string)
    requires forall key :: key in state ==> key.provider != provider
    ensures TotalsOf(state, provider).total == 0 && TotalsOf(state, provider).successful == 0
  {
    hide Rate;
    assert OfProvider(state, provider) == map[];
    NothingSummed();
  }

  lemma NothingSummed()
    ensures SumOver(map[], Total()) == 0 && SumOver(map[], Successful()) == 0
  {
  }

  lemma NothingTallied()
    ensures TotalsByProvider(map[], map[])
  {
  }

  method SumProviders(state: map<Key, ModelState>) returns (totals: map<string, ProviderTotals>)
    ensures TotalsByProvider(state, totals)
  {
    hide TotalsByProvider, Tallied;
    totals := map[];
    NothingTallied();
    var left := state.Keys;
    ghost var done: map<Key, ModelState> := map[];
    while left != {}
      invariant left <= state.Keys && done == state - left
      invariant TotalsByProvider(done, totals)
      decreases left
    {
      var key :| key in left;
      TalliedCounts(done, key, state[key], totals);
      totals := Tallied(totals, key.provider, state[key]);
      done := done[key := state[key]];
      left := left - {key};
    }
    assert done == state;
  }

  function SnapshotAll(state: map<Key, ModelState>): map<Key, ModelSnapshot> {
    map key | key in state :: SnapshotOf(state[key])
  }

  /** A model state read back; its samples join those already queued. */
  function Loaded(s: ModelState, m: ModelSnapshot): ModelState {
    ModelState(Latest(s.samples + m.recent), m.total, m.successful, m.failed, m.failures,
               m.promptTokens, m.cachedInputTokens, m.completionTokens, m.totalTokens, m.cost)
  }

  /** The state after the first `n` items of a saved file. */
  function Hydrated(state: map<Key, ModelState>, items: seq<(Key, ModelSnapshot)>, n: nat): map<Key, ModelState>
    requires n <= |items|
  {
    if n == 0 then state
    else
      var before, (saved, m) := Hydrated(state, items, n - 1), items[n - 1];
      var key := KeyFor(saved.provider, saved.model);
      before[key := Loaded(StateAt(before, key), m)]
  }

  method AppendAll(queue: Queue, xs: seq<real>) returns (r: Queue)
    ensures r == Latest(queue + xs)
  {
    r := queue;
    for i := 0 to |xs|
      invariant r == Latest(queue + xs[..i])
    {
      LatestOfLatest(queue + xs[..i], xs[i]);
      assert queue + xs[..i] + [xs[i]] == queue + xs[..i + 1];
      r := Latest(r + [xs[i]]);
    }
    assert xs[..|xs|] == xs;
  }

  class ProviderMetricsCollector {
    var state: map<Key, ModelState>

    constructor ()
      ensures state == map[]
    {
      state := map[];
    }

    method EnsureModelState(provider: string, model: string) returns (key: Key)
      modifies this
      ensures key == KeyFor(provider, model)
      ensures state == old(state)[key := StateAt(old(state), key)]
    {
      key := KeyFor(provider, model);
      if key !in state {
        state := state[key := NEW_MODEL];
      }
    }

    method RecordSuccess(provider: string, model: string, latency: real, promptTokens: int, cachedInputTokens: int,
                         completionTokens: int, cost: real)
      modifies this
      ensures state == Recorded(old(state), Succeeded(provider, model, latency, promptTokens, cachedInputTokens, completionTokens, cost))
    {
      var key := EnsureModelState(provider, model);
      var s := state[key];
      s := s.(total := s.total + 1);
      s := s.(successful := s.successful + 1);
      s := s.(samples := Latest(s.samples + [MostReal(latency, 0.0)]));
      s := s.(promptTokens := s.promptTokens + Max(promptTokens, 0));
      s := s.(cachedInputTokens := s.cachedInputTokens + Max(cachedInputTokens, 0));
      s := s.(completionTokens := s.completionTokens + Max(completionTokens, 0));
      s := s.(totalTokens := s.totalTokens + Max(promptTokens + completionTokens, 0));
      s := s.(cost := s.cost + MostReal(cost, 0.0));
      state := state[key := s];
    }

    method RecordFailure(provider: string, model: string, errorClass: string)
      modifies this
      ensures state == Recorded(old(state), Failed(provider, model, errorClass))
    {
      var key := EnsureModelState(provider, model);
      var s := state[key];
      s := s.(total := s.total + 1);
      s := s.(failed := s.failed + 1);
      var name := Named(errorClass, "unknown_error");
      s := s.(failures := s.failures[name := FailuresOf(s.failures, name) + 1]);
      state := state[key := s];
    }

    method SnapshotModels() returns (r: map<Key, ModelSnapshot>)
      ensures r == SnapshotAll(state)
    {
      hide SnapshotOf;
      r := map[];
      var left := state.Keys;
      while left != {}
        invariant left <= state.Keys
        invariant forall key :: key in r <==> key in state && key !in left
        invariant forall key :: key in r ==> r[key] == SnapshotOf(state[key])
        decreases left
      {
        var key :| key in left;
        r := r[key := SnapshotOf(state[key])];
        left := left - {key};
      }
    }

    /** The models' snapshots, and the totals of each provider. */
    method Snapshot() returns (r: map<Key, ModelSnapshot>, totals: map<string, ProviderTotals>)
      ensures r == SnapshotAll(state) && TotalsByProvider(state, totals)
    {
      hide SnapshotAll, TotalsByProvider;
      r := SnapshotModels();
      totals := SumProviders(state);
    }

    method Hydrate(items: seq<(Key, ModelSnapshot)>)
      modifies this
      ensures state == Hydrated(old(state), items, |items|)
    {
      hide KeyFor, Latest;
      for n := 0 to |items|
        invariant state == Hydrated(old(state), items, n)
      {
        var m := items[n].1;
        ghost var before := state;
        var key := EnsureModelState(items[n].0.provider, items[n].0.model);
        var samples := AppendAll(state[key].samples, m.recent);
        state := state[key := ModelState(samples, m.total, m.successful, m.failed, m.failures, m.promptTokens,
                                         m.cachedInputTokens, m.completionTokens, m.totalTokens, m.cost)];
      }
    }
  }
}
