/** What the metrics say of the executions recorded, and what survives saving
    and loading them. */
module ProviderMetricsRuns {
  import opened Money
  import opened Text
  import opened Traces
  import opened ProviderMetrics

  // ---- Counters and the log ---------------------------------------------

  ghost function After(events: seq<Event>): map<Key, ModelState> {
    if events == [] then map[] else Recorded(After(events[..|events| - 1]), events[|events| - 1])
  }

  ghost function OfKey(key: Key): Event -> bool {
    (e: Event) => EventKey(e) == key
  }

  ghost function SuccessOf(key: Key): Event -> bool {
    (e: Event) => EventKey(e) == key && e.Succeeded?
  }

  ghost function FailureOf(key: Key): Event -> bool {
    (e: Event) => EventKey(e) == key && e.Failed?
  }

  ghost function FailureAs(key: Key, errorClass: string): Event -> bool {
    (e: Event) => EventKey(e) == key && e.Failed? && Named(e.errorClass, "unknown_error") == errorClass
  }

  /** The latencies of a model's successes, in order. */
  ghost function Latencies(events: seq<Event>, key: Key): seq<real> {
    if events == [] then []
    else
      var before, e := Latencies(events[..|events| - 1], key), events[|events| - 1];
      if SuccessOf(key)(e) then before + [MostReal(e.latency, 0.0)] else before
  }

  /** Every event of a model is counted once, as a success or as a failure of
      its class, and the window holds the latest fifty latencies. */
  lemma {:induction false} CountersAreTheLog(events: seq<Event>, key: Key, errorClass: string)
    ensures key in After(events) <==> Count(events, OfKey(key)) > 0
    ensures var s := StateAt(After(events), key);
      && s.total == Count(events, OfKey(key))
      && s.successful == Count(events, SuccessOf(key))
      && s.failed == Count(events, FailureOf(key))
      && s.total == s.successful + s.failed
      && FailuresOf(s.failures, errorClass) == Count(events, FailureAs(key, errorClass))
      && s.samples == Latest(Latencies(events, key))
  {
    hide EventKey, Named, Latest;
    if events == [] {
      assert Latest(Latencies(events, key)) == [];
    } else {
      var before, e := events[..|events| - 1], events[|events| - 1];
      CountersAreTheLog(before, key, errorClass);
      if SuccessOf(key)(e) {
        LatestOfLatest(Latencies(before, key), MostReal(e.latency, 0.0));
      }
    }
  }

  /** An amount summed over the successes of a model. */
  ghost function Added(events: seq<Event>, key: Key, amount: Event -> int): int {
    if events == [] then 0
    else
      var before, e := Added(events[..|events| - 1], key, amount), events[|events| - 1];
      if SuccessOf(key)(e) then before + amount(e) else before
  }

  ghost function Spent(events: seq<Event>, key: Key): real {
    if events == [] then 0.0
    else
      var before, e := Spent(events[..|events| - 1], key), events[|events| - 1];
      if SuccessOf(key)(e) then before + MostReal(e.cost, 0.0) else before
  }

  ghost function PromptTokens(): Event -> int {
    (e: Event) => if e.Succeeded? then Max(e.promptTokens, 0) else 0
  }

  ghost function CachedTokens(): Event -> int {
    (e: Event) => if e.Succeeded? then Max(e.cachedInputTokens, 0) else 0
  }

  ghost function CompletionTokens(): Event -> int {
    (e: Event) => if e.Succeeded? then Max(e.completionTokens, 0) else 0
  }

  ghost predicate CountsNoNegatives(events: seq<Event>) {
    forall i :: 0 <= i < |events| && events[i].Succeeded? ==> events[i].promptTokens >= 0 && events[i].completionTokens >= 0
  }

  /** Tokens and cost are the sums over a model's successes; the total is that
      of prompt and completion tokens, as long as none is reported negative. */
  lemma {:induction false} AmountsAreTheLog(events: seq<Event>, key: Key)
    ensures var s := StateAt(After(events), key);
      && s.promptTokens == Added(events, key, PromptTokens())
      && s.cachedInputTokens == Added(events, key, CachedTokens())
      && s.completionTokens == Added(events, key, CompletionTokens())
      && s.cost == Spent(events, key)
      && s.totalTokens <= s.promptTokens + s.completionTokens
      && (CountsNoNegatives(events) ==> s.totalTokens == s.promptTokens + s.completionTokens)
  {
    hide EventKey, Named, Latest;
    if events != [] {
      AmountsAreTheLog(events[..|events| - 1], key);
    }
  }

  lemma {:induction false} SumsAddUp(state: map<Key, ModelState>)
    requires forall key :: key in state ==> state[key].total == state[key].successful + state[key].failed
    ensures SumOver(state, Total()) == SumOver(state, Successful()) + SumOver(state, Failing())
    decreases |state|
  {
    if state != map[] {
      var key :| key in state;
      SumSplits(state, Total(), key);
      SumSplits(state, Successful(), key);
      SumSplits(state, Failing(), key);
      SumsAddUp(state - {key});
    }
  }

  /** In every run a provider's failures, taken as requests less successes, are
      the failures counted on its models. */
  lemma ProviderFailuresAreCounted(events: seq<Event>, provider: string)
    ensures TotalsOf(After(events), provider).failed == SumOver(OfProvider(After(events), provider), Failing())
  {
    hide After, SumOver, Rate;
    forall key | key in OfProvider(After(events), provider)
      ensures After(events)[key].total == After(events)[key].successful + After(events)[key].failed
    {
      CountersAreTheLog(events, key, "");
    }
    SumsAddUp(OfProvider(After(events), provider));
  }

  // ---- The 95th percentile ----------------------------------------------

  ghost function AtMost(bound: real): real -> bool {
    (x: real) => x <= bound
  }

  ghost function Under(bound: real): real -> bool {
    (x: real) => x < bound
  }

  ghost predicate Ascending(xs: seq<real>) {
    forall i, j :: 0 <= i < j < |xs| ==> xs[i] <= xs[j]
  }

  lemma {:induction false} InsertCounts(xs: seq<real>, x: real, picks: real -> bool)
    ensures Count(InsertUp(xs, x), picks) == Count(xs, picks) + if picks(x) then 1 else 0
  {
    if xs == [] {
      assert [x][..0] == [];
    } else if xs[|xs| - 1] <= x {
      assert (xs + [x])[..|xs|] == xs;
    } else {
      var r := InsertUp(xs[..|xs| - 1], x);
      InsertCounts(xs[..|xs| - 1], x, picks);
      assert (r + [xs[|xs| - 1]])[..|r|] == r;
    }
  }

  lemma {:induction false} InsertKeepsAscending(xs: seq<real>, x: real)
    requires Ascending(xs)
    ensures Ascending(InsertUp(xs, x))
  {
    if xs != [] && xs[|xs| - 1] > x {
      var rest, last := xs[..|xs| - 1], xs[|xs| - 1];
      InsertKeepsAscending(rest, x);
      var r := InsertUp(rest, x);
      forall i | 0 <= i < |r| ensures r[i] <= last {
        assert r[i] in multiset(r);
        assert r[i] in rest || r[i] == x;
      }
    }
  }

  lemma {:induction false} SortCounts(xs: seq<real>, picks: real -> bool)
    ensures Count(SortUp(xs), picks) == Count(xs, picks) && Ascending(SortUp(xs))
  {
    hide InsertUp, Ascending;
    if xs == [] {
      NothingAscends();
    } else {
      SortCounts(xs[..|xs| - 1], picks);
      InsertCounts(SortUp(xs[..|xs| - 1]), xs[|xs| - 1], picks);
      InsertKeepsAscending(SortUp(xs[..|xs| - 1]), xs[|xs| - 1]);
    }
  }

  lemma NothingAscends()
    ensures Ascending([])
  {
  }

  lemma {:induction false} CountOfAscending(xs: seq<real>, i: nat)
    requires Ascending(xs) && i < |xs|
    ensures Count(xs, AtMost(xs[i])) >= i + 1
    ensures Count(xs, Under(xs[i])) <= i
    decreases |xs|
  {
    var rest := xs[..|xs| - 1];
    if i < |rest| {
      CountOfAscending(rest, i);
    } else {
      EveryCounts(rest, xs[i]);
    }
  }

  lemma {:induction false} EveryCounts(xs: seq<real>, bound: real)
    requires forall i :: 0 <= i < |xs| ==> xs[i] <= bound
    ensures Count(xs, AtMost(bound)) == |xs| && Count(xs, Under(bound)) <= |xs|
  {
    if xs != [] {
      EveryCounts(xs[..|xs| - 1], bound);
    }
  }

  lemma {:induction false} InsertRounds(xs: seq<real>, x: real)
    requires Ascending(xs)
    ensures InsertUp(RoundAll(xs), Round3(x)) == RoundAll(InsertUp(xs, x))
  {
    if xs == [] {
      assert RoundAll([x]) == [Round3(x)];
    } else {
      var rest, last := xs[..|xs| - 1], xs[|xs| - 1];
      assert xs == rest + [last];
      hide *;
      if last <= x {
        InsertRoundsLast(rest, last, x);
      } else {
        AscendingStart(rest, last);
        InsertRounds(rest, x);
        InsertRoundsBefore(rest, last, x);
      }
    }
  }

  lemma AscendingStart(rest: seq<real>, last: real)
    ensures Ascending(rest + [last]) ==> Ascending(rest)
  {
    assert forall i :: 0 <= i < |rest| ==> (rest + [last])[i] == rest[i];
  }

  lemma InsertRoundsLast(rest: seq<real>, last: real, x: real)
    requires last <= x
    ensures InsertUp(RoundAll(rest + [last]), Round3(x)) == RoundAll(InsertUp(rest + [last], x))
  {
    hide *;
    RoundOneMore(rest, last);
    RoundOneMore(rest + [last], x);
    InsertAtEnd(rest, last, x);
    RoundingSettles(last, x);
    InsertAtEnd(RoundAll(rest), Round3(last), Round3(x));
  }

  lemma InsertRoundsBefore(rest: seq<real>, last: real, x: real)
    requires Ascending(rest + [last]) && x < last
    requires InsertUp(RoundAll(rest), Round3(x)) == RoundAll(InsertUp(rest, x))
    ensures InsertUp(RoundAll(rest + [last]), Round3(x)) == RoundAll(InsertUp(rest + [last], x))
  {
    hide *;
    RoundOneMore(rest, last);
    RoundOneMore(InsertUp(rest, x), last);
    InsertAtEnd(rest, last, x);
    InsertAtEnd(RoundAll(rest), Round3(last), Round3(x));
    RoundingSettles(x, last);
    if Round3(last) <= Round3(x) {
      RoundedBelow(rest, last, x);
    }
  }

  lemma RoundOneMore(xs: seq<real>, x: real)
    ensures RoundAll(xs + [x]) == RoundAll(xs) + [Round3(x)]
  {
    hide Round3;
  }

  lemma InsertAtEnd(rest: seq<real>, last: real, x: real)
    ensures InsertUp(rest + [last], x) == if last <= x then rest + [last] + [x] else InsertUp(rest, x) + [last]
  {
    assert (rest + [last])[..|rest|] == rest;
  }

  /** A value that rounds like the last one comes after all of the rounded ones. */
  lemma RoundedBelow(rest: seq<real>, last: real, x: real)
    requires Ascending(rest + [last]) && Round3(last) <= Round3(x)
    ensures InsertUp(RoundAll(rest), Round3(x)) == RoundAll(rest) + [Round3(x)]
  {
    hide Round3;
    forall i | 0 <= i < |rest| ensures Round3(rest[i]) <= Round3(x) {
      assert rest[i] == (rest + [last])[i] && last == (rest + [last])[|rest|];
      RoundingSettles(rest[i], last);
    }
    InsertAbove(RoundAll(rest), Round3(x));
  }

  lemma InsertAbove(xs: seq<real>, x: real)
    requires forall i :: 0 <= i < |xs| ==> xs[i] <= x
    ensures InsertUp(xs, x) == xs + [x]
  {
  }

  /** Rounding and sorting commute. */
  lemma {:induction false} SortRounds(xs: seq<real>)
    ensures SortUp(RoundAll(xs)) == RoundAll(SortUp(xs))
  {
    hide Round3, InsertUp;
    if xs != [] {
      var rest, last := xs[..|xs| - 1], xs[|xs| - 1];
      assert RoundAll(xs)[..|xs| - 1] == RoundAll(rest);
      SortRounds(rest);
      SortCounts(rest, AtMost(0.0));
      InsertRounds(SortUp(rest), last);
    }
  }

  /** At least 95 of each 100 saved latencies are no more than the saved
      percentile, and it is the least saved latency of which that is so. */
  lemma PercentileCovers(s: ModelState)
    requires s.samples != []
    ensures var m := SnapshotOf(s);
      && m.percentile95.Some? && m.percentile95.value in m.recent
      && 100 * Count(m.recent, AtMost(m.percentile95.value)) >= 95 * |m.recent|
      && 100 * Count(m.recent, Under(m.percentile95.value)) < 95 * |m.recent|
  {
    hide Round3, SortUp, RankOf95, Average, Count;
    var xs := s.samples;
    var sorted, i := SortUp(RoundAll(xs)), RankOf95(|xs|);
    SortRounds(xs);
    var p := sorted[i];
    assert Percentile95(xs) == Some(p);
    SortCounts(RoundAll(xs), AtMost(p));
    SortCounts(RoundAll(xs), Under(p));
    CountOfAscending(sorted, i);
    assert p in multiset(sorted);
  }

  ghost predicate WholeThousandths(xs: seq<real>) {
    forall i :: 0 <= i < |xs| ==> Round3(xs[i]) == xs[i]
  }

  /** Of the raw latencies the same holds when they are whole thousandths. */
  lemma PercentileCoversRawSamples(s: ModelState)
    requires s.samples != [] && WholeThousandths(s.samples)
    ensures var p := SnapshotOf(s).percentile95;
      && p.Some? && p.value in s.samples
      && 100 * Count(s.samples, AtMost(p.value)) >= 95 * |s.samples|
      && 100 * Count(s.samples, Under(p.value)) < 95 * |s.samples|
  {
    hide Round3, SnapshotOf;
    PercentileCovers(s);
    SnapshotRounds(s);
    assert RoundAll(s.samples) == s.samples;
  }

  lemma SnapshotRounds(s: ModelState)
    ensures SnapshotOf(s).recent == RoundAll(s.samples)
  {
  }

  /** A finer latency can lie above its own percentile: that of 0.4 thousandths alone is none. */
  lemma FinerLatencyExceedsItsPercentile(s: ModelState)
    requires s.samples == [0.0004]
    ensures SnapshotOf(s).percentile95 == Some(0.0) && Count(s.samples, AtMost(0.0)) == 0
  {
    hide Round3;
    RoundIs(0.0004, 0);
    assert [0.0004][..0] == [];
    assert SortUp([0.0004]) == [0.0004];
  }

  // ---- Saving and loading -----------------------------------------------

  /** States whose keys are already trimmed and named, as recording leaves them. */
  ghost predicate NormalKeys(state: map<Key, ModelState>) {
    forall key :: key in state ==> KeyFor(key.provider, key.model) == key
  }

  lemma {:induction false} RecordedKeysAreNormal(events: seq<Event>)
    ensures NormalKeys(After(events))
  {
    hide Strip;
    if events != [] {
      RecordedKeysAreNormal(events[..|events| - 1]);
      var e := events[|events| - 1];
      NamesSettle(e.provider);
      NamesSettle(e.model);
    }
  }

  lemma NamesSettle(s: string)
    ensures Named(Named(s, "unknown"), "unknown") == Named(s, "unknown")
  {
    hide TrimStart, TrimEnd;
    assert Strip(Strip(s)) == Strip(s);
    assert Trimmed("unknown") && Strip("unknown") == "unknown";
  }

  /** The items of a saved snapshot, each key once, in any order. */
  ghost predicate Lists(items: seq<(Key, ModelSnapshot)>, snapshot: map<Key, ModelSnapshot>) {
    && (forall i, j :: 0 <= i < j < |items| ==> items[i].0 != items[j].0)
    && (forall i :: 0 <= i < |items| ==> items[i].0 in snapshot && snapshot[items[i].0] == items[i].1)
    && (forall key :: key in snapshot ==> exists i :: 0 <= i < |items| && items[i].0 == key)
  }

  ghost predicate HoldsItem(items: seq<(Key, ModelSnapshot)>, n: nat, key: Key)
    requires n <= |items|
  {
    exists i :: 0 <= i < n && items[i].0 == key
  }

  lemma {:induction false} LoadedItems(items: seq<(Key, ModelSnapshot)>, snapshot: map<Key, ModelSnapshot>, n: nat, key: Key)
    requires n <= |items| && Lists(items, snapshot)
    requires forall k :: k in snapshot ==> KeyFor(k.provider, k.model) == k
    ensures key in Hydrated(map[], items, n) <==> HoldsItem(items, n, key)
    ensures HoldsItem(items, n, key) ==> Hydrated(map[], items, n)[key] == Loaded(NEW_MODEL, snapshot[key])
  {
    hide KeyFor, Loaded;
    if n > 0 {
      LoadedItems(items, snapshot, n - 1, key);
      assert HoldsItem(items, n, key) <==> HoldsItem(items, n - 1, key) || items[n - 1].0 == key;
    }
  }

  /** A model's snapshot after it was saved and loaded: only the average is
      computed anew, from the rounded latencies. */
  lemma ReloadedSnapshot(s: ModelState)
    ensures SnapshotOf(Loaded(NEW_MODEL, SnapshotOf(s))) == SnapshotOf(s).(average := Average(RoundAll(s.samples)))
  {
    hide Round3, Round8, SortUp, RankOf95, Average;
    var again := Loaded(NEW_MODEL, SnapshotOf(s));
    assert again.samples == RoundAll(s.samples) by {
      assert [] + RoundAll(s.samples) == RoundAll(s.samples);
    }
    assert RoundAll(RoundAll(s.samples)) == RoundAll(s.samples) by {
      forall i | 0 <= i < |s.samples| {
        RoundingSettles(s.samples[i], 0.0);
      }
    }
    RoundingSettles(s.cost, 0.0);
    if s.samples != [] {
      SortRounds(s.samples);
      RoundingSettles(SortUp(s.samples)[RankOf95(|s.samples|)], 0.0);
    }
  }

  /** Loading a saved snapshot and taking it again gives the same models and
      counters, windows, percentiles and costs; it is the same snapshot exactly
      when no average changes on rounding its latencies first. */
  lemma ReloadIsIdentityIff(state: map<Key, ModelState>, items: seq<(Key, ModelSnapshot)>)
    requires NormalKeys(state) && Lists(items, SnapshotAll(state))
    ensures var again := SnapshotAll(Hydrated(map[], items, |items|));
      && (forall key :: key in again <==> key in state)
      && (forall key :: key in state ==> again[key] == SnapshotOf(state[key]).(average := Average(RoundAll(state[key].samples))))
      && (again == SnapshotAll(state) <==>
            forall key :: key in state ==> Average(RoundAll(state[key].samples)) == Average(state[key].samples))
  {
    hide SnapshotOf, Loaded, KeyFor, Average, RoundAll;
    var snapshot, loaded := SnapshotAll(state), Hydrated(map[], items, |items|);
    forall key
      ensures key in loaded <==> key in state
      ensures key in state ==>
                SnapshotOf(loaded[key]) == SnapshotOf(state[key]).(average := Average(RoundAll(state[key].samples)))
    {
      LoadedItems(items, snapshot, |items|, key);
      assert HoldsItem(items, |items|, key) <==> key in snapshot;
      if key in state {
        ReloadedSnapshot(state[key]);
      }
    }
    SameAverages(state, SnapshotAll(loaded));
  }

  lemma SameAverages(state: map<Key, ModelState>, again: map<Key, ModelSnapshot>)
    requires forall key :: key in again <==> key in state
    requires forall key :: key in state ==> again[key] == SnapshotOf(state[key]).(average := Average(RoundAll(state[key].samples)))
    ensures again == SnapshotAll(state) <==>
            forall key :: key in state ==> Average(RoundAll(state[key].samples)) == Average(state[key].samples)
  {
    hide Average, RoundAll, Percentile95;
    if again == SnapshotAll(state) {
      forall key | key in state ensures Average(RoundAll(state[key].samples)) == Average(state[key].samples) {
        assert again[key] == SnapshotOf(state[key]);
      }
    }
  }

  /** A state survives whose latencies are whole thousandths, as are those of every state that was loaded. */
  lemma WholeThousandthsSurvive(s: ModelState)
    requires WholeThousandths(s.samples)
    ensures SnapshotOf(Loaded(NEW_MODEL, SnapshotOf(s))) == SnapshotOf(s)
  {
    ReloadedSnapshot(s);
    assert RoundAll(s.samples) == s.samples;
  }

  /** Every latency recorded is a whole number of thousandths. */
  ghost predicate RecordsThousandths(events: seq<Event>) {
    forall i :: 0 <= i < |events| && events[i].Succeeded? ==> Round3(events[i].latency) == events[i].latency
  }

  lemma {:induction false} RecordedLatenciesAreWhole(events: seq<Event>, key: Key)
    requires RecordsThousandths(events)
    ensures WholeThousandths(Latencies(events, key))
  {
    hide EventKey;
    if events != [] {
      RecordedLatenciesAreWhole(events[..|events| - 1], key);
      assert Round3(0.0) == 0.0 by {
        RoundIs(0.0, 0);
      }
    }
  }

  lemma WindowIsWhole(events: seq<Event>, key: Key)
    requires RecordsThousandths(events)
    ensures WholeThousandths(StateAt(After(events), key).samples)
  {
    hide Round3, Latencies, After;
    CountersAreTheLog(events, key, "");
    RecordedLatenciesAreWhole(events, key);
  }

  /** In every run that records whole thousandths, as every adapter that rounds
      to three places does, snapshot, save, load and snapshot is the identity. */
  lemma RunsOfWholeThousandthsSurvive(events: seq<Event>, items: seq<(Key, ModelSnapshot)>)
    requires RecordsThousandths(events) && Lists(items, SnapshotAll(After(events)))
    ensures SnapshotAll(Hydrated(map[], items, |items|)) == SnapshotAll(After(events))
  {
    hide After, Lists, SnapshotOf, Average, NormalKeys, Hydrated, Round3;
    var state := After(events);
    RecordedKeysAreNormal(events);
    ReloadIsIdentityIff(state, items);
    forall key | key in state ensures Average(RoundAll(state[key].samples)) == Average(state[key].samples) {
      WindowIsWhole(events, key);
      assert RoundAll(state[key].samples) == state[key].samples;
    }
  }

  lemma NearestIs(y: real, n: int)
    requires n as real - 0.5 < y < n as real + 0.5
    ensures Nearest(y) == n
  {
  }

  lemma RoundIs(x: real, n: int)
    requires n as real - 0.5 < x * 1000.0 < n as real + 0.5
    ensures Round3(x) == n as real / 1000.0
  {
    hide Nearest;
    NearestIs(x * 1000.0, n);
  }

  lemma SumOfThree(x: real, y: real, z: real)
    ensures SumReal([x, y, z]) == x + y + z
  {
    assert [x, y, z][..2] == [x, y] && [x, y][..1] == [x] && [x][..0] == [];
    assert SumReal([x]) == x;
    assert SumReal([x, y]) == x + y;
  }

  /** Three latencies of 0.4, 0.4 and 0.8 thousandths average to one thousandth, once rounded to none. */
  lemma FinerLatenciesShift(s: ModelState)
    requires s.samples == [0.0004, 0.0004, 0.0008]
    ensures SnapshotOf(s).average == Some(0.001)
    ensures SnapshotOf(Loaded(NEW_MODEL, SnapshotOf(s))).average == Some(0.0)
  {
    hide Round3, SumReal, Loaded, Percentile95;
    ReloadedSnapshot(s);
    RoundIs(0.0004, 0);
    RoundIs(0.0008, 1);
    assert RoundAll(s.samples) == [0.0, 0.0, 0.001];
    SumOfThree(0.0004, 0.0004, 0.0008);
    SumOfThree(0.0, 0.0, 0.001);
    RoundIs(0.0016 / 3.0, 1);
    RoundIs(0.001 / 3.0, 0);
  }
}
