/** The execution router: providers in order, retries, and one metrics record per call. */
module ExecutionRouter {
  import opened Text
  import opened ProviderMetrics
  import opened ProviderMetricsRuns

  datatype Response = Response(
    provider: string,
    model: string,
    latency: real,
    promptTokens: int,
    cachedInputTokens: int,
    completionTokens: int,
    cost: real)

  /** What one call of an adapter comes to. */
  datatype Outcome = Returned(response: Response) | Raised(errorClass: string, message: string)

  datatype Result = Answered(response: Response) | NotConfigured | NothingTried | FirstError(message: string)

  /** What a run finds in the registry, looking at the list once and at each
      provider once: its providers in order, those with an adapter, and their
      availability. */
  datatype Registry = Registry(listing: seq<string>, adapters: set<string>, availability: map<string, string>)

  datatype Request = Request(provider: string, model: string)

  predicate Ready(registry: Registry, provider: string) {
    && provider in registry.adapters
    && provider in registry.availability
    && registry.availability[provider] in ["available", "degraded"]
  }

  // ---- The order of providers -------------------------------------------

  function With(order: seq<string>, provider: string): seq<string> {
    if provider in order then order else order + [provider]
  }

  function Preferred(request: Request, default: string, fallback: string): seq<string> {
    var requested := if NonBlank(request.provider) then [Strip(request.provider)] else [];
    var second := if default != "" then With(requested, default) else requested;
    if fallback != "" then With(second, fallback) else second
  }

  function WithListed(order: seq<string>, listing: seq<string>, n: nat): seq<string>
    requires n <= |listing|
  {
    if n == 0 then order else With(WithListed(order, listing, n - 1), listing[n - 1])
  }

  function ProviderOrder(request: Request, default: string, fallback: string, registry: Registry): seq<string> {
    WithListed(Preferred(request, default, fallback), registry.listing, |registry.listing|)
  }

  // ---- The calls --------------------------------------------------------

  /** The calls made if every one fails: each ready provider in turn, `attempts` times over. */
  function Slots(order: seq<string>, n: nat, registry: Registry, attempts: nat): seq<string>
    requires n <= |order|
  {
    if n == 0 then []
    else
      Slots(order, n - 1, registry, attempts) + if Ready(registry, order[n - 1]) then Repeat(order[n - 1], attempts) else []
  }

  function Repeat(provider: string, times: nat): (r: seq<string>)
    ensures |r| == times && forall i :: 0 <= i < times ==> r[i] == provider
  {
    seq(times, i => provider)
  }

  /** The first of `m` calls that returns, or `m`. */
  function FirstReturn(outcome: nat -> Outcome, m: nat): (i: nat)
    ensures i <= m
    ensures i < m ==> outcome(i).Returned?
    ensures forall j: nat :: j < i ==> outcome(j).Raised?
  {
    if m == 0 then 0
    else
      var i := FirstReturn(outcome, m - 1);
      if i == m - 1 && outcome(m - 1).Raised? then m else i
  }

  function CallsMade(slots: seq<string>, outcome: nat -> Outcome): seq<string> {
    var i := FirstReturn(outcome, |slots|);
    if i < |slots| then slots[..i + 1] else slots
  }

  function Final(slots: seq<string>, outcome: nat -> Outcome): Result {
    var i := FirstReturn(outcome, |slots|);
    if i < |slots| then Answered(outcome(i).response)
    else if slots == [] then NothingTried
    else FirstError(outcome(0).message)
  }

  function RecordOf(request: Request, provider: string, outcome: Outcome): Event {
    match outcome
    case Returned(r) =>
      Succeeded(r.provider, r.model, r.latency, r.promptTokens, r.cachedInputTokens, r.completionTokens, r.cost)
    case Raised(errorClass, _) => Failed(provider, Named(request.model, "unknown"), errorClass)
  }

  /** The metrics after the first `n` calls. */
  function RecordedCalls(state: map<Key, ModelState>, request: Request, calls: seq<string>, outcome: nat -> Outcome, n: nat)
    : map<Key, ModelState>
    requires n <= |calls|
  {
    if n == 0 then state
    else Recorded(RecordedCalls(state, request, calls, outcome, n - 1), RecordOf(request, calls[n - 1], outcome(n - 1)))
  }

  class ProviderExecutionRouter {
    const metrics: ProviderMetricsCollector
    const default: string
    const fallback: string
    const retries: nat

    constructor (metrics: ProviderMetricsCollector, default: string, fallback: string, retries: int)
      ensures this.metrics == metrics && this.default == default && this.fallback == fallback
      ensures this.retries == if retries < 0 then 0 else retries
    {
      this.metrics, this.default, this.fallback := metrics, default, fallback;
      this.retries := if retries < 0 then 0 else retries;
    }

    method OrderProviders(request: Request, registry: Registry) returns (order: seq<string>)
      ensures order == ProviderOrder(request, default, fallback, registry)
    {
      hide NonBlank, Strip;
      order := [];
      if NonBlank(request.provider) {
        order := order + [Strip(request.provider)];
      }
      if default != "" && default !in order {
        order := order + [default];
      }
      if fallback != "" && fallback !in order {
        order := order + [fallback];
      }
      for n := 0 to |registry.listing|
        invariant order == WithListed(Preferred(request, default, fallback), registry.listing, n)
      {
        if registry.listing[n] !in order {
          order := order + [registry.listing[n]];
        }
      }
    }

    /** One call's metrics. */
    method Record(request: Request, provider: string, outcome: Outcome)
      modifies metrics
      ensures metrics.state == Recorded(old(metrics.state), RecordOf(request, provider, outcome))
    {
      hide Recorded;
      match outcome
      case Returned(r) =>
        metrics.RecordSuccess(r.provider, r.model, r.latency, r.promptTokens, r.cachedInputTokens, r.completionTokens, r.cost);
      case Raised(errorClass, _) =>
        metrics.RecordFailure(provider, Named(request.model, "unknown"), errorClass);
    }

    /** `execute`: the `k`-th call made comes to `outcome(k)`. */
    method Execute(request: Request, registry: Registry, outcome: nat -> Outcome)
      returns (result: Result, calls: seq<string>)
      modifies metrics
      ensures var order := ProviderOrder(request, default, fallback, registry);
        var slots := Slots(order, |order|, registry, retries + 1);
        && result == (if order == [] then NotConfigured else Final(slots, outcome))
        && calls == CallsMade(slots, outcome)
        && metrics.state == RecordedCalls(old(metrics.state), request, calls, outcome, |calls|)
    {
      hide ProviderOrder, Ready, Recorded, RecordOf, CallsMade, Final, AllRaised, RecordedCalls, Repeat, Slots;
      calls := [];
      var order := OrderProviders(request, registry);
      ghost var slots := Slots(order, |order|, registry, retries + 1);
      NothingRecorded(metrics.state, request, outcome);
      if order == [] {
        NoSlots(registry, retries + 1, outcome);
        return NotConfigured, [];
      }
      var firstError: Option<string> := None;
      NoSlots(registry, retries + 1, outcome);
      SlotsBegin(order, registry, retries + 1);
      for n := 0 to |order|
        invariant calls == Slots(order, n, registry, retries + 1)
        invariant AllRaised(calls, outcome, firstError)
        invariant metrics.state == RecordedCalls(old(metrics.state), request, calls, outcome, |calls|)
      {
        var provider := order[n];
        SlotsNext(order, n, registry, retries + 1);
        if !Ready(registry, provider) {
          continue;
        }
        ghost var before := calls;
        var attempts := retries + 1;
        RepeatNext(before, provider, 0);
        while attempts > 0
          invariant 0 <= attempts <= retries + 1
          invariant calls == before + Repeat(provider, retries + 1 - attempts)
          invariant AllRaised(calls, outcome, firstError)
          invariant metrics.state == RecordedCalls(old(metrics.state), request, calls, outcome, |calls|)
        {
          attempts := attempts - 1;
          RepeatNext(before, provider, retries - attempts);
          RecordedOneMore(old(metrics.state), request, calls, provider, outcome);
          MoreRaised(calls, provider, outcome, firstError);
          var k := |calls|;
          calls := calls + [provider];
          Record(request, provider, outcome(k));
          if outcome(k).Returned? {
            CallsArePrefix(order, n, registry, retries + 1, retries + 1 - attempts);
            LastCallReturns(slots, outcome, calls[..k], calls, firstError);
            return Answered(outcome(k).response), calls;
          }
          if firstError == None {
            firstError := Some(outcome(k).message);
          }
        }
      }
      NoCallReturns(slots, outcome, firstError);
      result := if firstError.Some? then FirstError(firstError.value) else NothingTried;
    }
  }

  /** No call has returned yet, and the first error is remembered. */
  ghost predicate AllRaised(calls: seq<string>, outcome: nat -> Outcome, firstError: Option<string>) {
    && (forall i: nat :: i < |calls| ==> outcome(i).Raised?)
    && firstError == if calls == [] then None else Some(outcome(0).message)
  }

  lemma MoreRaised(calls: seq<string>, provider: string, outcome: nat -> Outcome, firstError: Option<string>)
    requires AllRaised(calls, outcome, firstError)
    ensures outcome(|calls|).Raised? ==>
              AllRaised(calls + [provider], outcome, if firstError == None then Some(outcome(|calls|).message) else firstError)
  {
  }

  lemma NothingRecorded(state: map<Key, ModelState>, request: Request, outcome: nat -> Outcome)
    ensures RecordedCalls(state, request, [], outcome, 0) == state
    ensures AllRaised([], outcome, None)
  {
  }

  lemma NoSlots(registry: Registry, attempts: nat, outcome: nat -> Outcome)
    ensures Slots([], 0, registry, attempts) == [] && CallsMade([], outcome) == []
  {
  }

  lemma SlotsBegin(order: seq<string>, registry: Registry, attempts: nat)
    ensures Slots(order, 0, registry, attempts) == []
  {
  }

  lemma SlotsNext(order: seq<string>, n: nat, registry: Registry, attempts: nat)
    requires n < |order|
    ensures Slots(order, n + 1, registry, attempts) ==
            if Ready(registry, order[n]) then Slots(order, n, registry, attempts) + Repeat(order[n], attempts)
            else Slots(order, n, registry, attempts)
  {
  }

  lemma RepeatNext(before: seq<string>, provider: string, times: nat)
    ensures before + Repeat(provider, 0) == before
    ensures before + Repeat(provider, times) + [provider] == before + Repeat(provider, times + 1)
  {
  }

  lemma RecordedOneMore(state: map<Key, ModelState>, request: Request, calls: seq<string>, provider: string, outcome: nat -> Outcome)
    ensures RecordedCalls(state, request, calls + [provider], outcome, |calls| + 1) ==
            Recorded(RecordedCalls(state, request, calls, outcome, |calls|), RecordOf(request, provider, outcome(|calls|)))
  {
    hide Recorded, RecordOf;
    SameRecords(state, request, calls, calls + [provider], outcome, |calls|);
  }

  lemma {:induction false} SameRecords(state: map<Key, ModelState>, request: Request, calls: seq<string>, more: seq<string>,
                                       outcome: nat -> Outcome, n: nat)
    requires n <= |calls| && calls <= more
    ensures RecordedCalls(state, request, more, outcome, n) == RecordedCalls(state, request, calls, outcome, n)
  {
    hide Recorded, RecordOf;
    if n > 0 {
      SameRecords(state, request, calls, more, outcome, n - 1);
    }
  }

  lemma {:induction false} SlotsGrow(order: seq<string>, n: nat, m: nat, registry: Registry, attempts: nat)
    requires n <= m <= |order|
    ensures Slots(order, n, registry, attempts) <= Slots(order, m, registry, attempts)
  {
    if n < m {
      SlotsGrow(order, n, m - 1, registry, attempts);
    }
  }

  lemma CallsArePrefix(order: seq<string>, n: nat, registry: Registry, attempts: nat, tried: nat)
    requires n < |order| && tried <= attempts && Ready(registry, order[n])
    ensures Slots(order, n, registry, attempts) + Repeat(order[n], tried) <= Slots(order, |order|, registry, attempts)
  {
    SlotsGrow(order, n + 1, |order|, registry, attempts);
    assert Repeat(order[n], tried) <= Repeat(order[n], attempts);
  }

  lemma NoCallReturns(slots: seq<string>, outcome: nat -> Outcome, firstError: Option<string>)
    requires AllRaised(slots, outcome, firstError)
    ensures CallsMade(slots, outcome) == slots
    ensures Final(slots, outcome) == if firstError.Some? then FirstError(firstError.value) else NothingTried
  {
  }

  lemma LastCallReturns(slots: seq<string>, outcome: nat -> Outcome, before: seq<string>, calls: seq<string>, firstError: Option<string>)
    requires calls <= slots && |calls| == |before| + 1
    requires AllRaised(before, outcome, firstError) && outcome(|before|).Returned?
    ensures CallsMade(slots, outcome) == calls && Final(slots, outcome) == Answered(outcome(|before|).response)
  {
  }

  // ---- What the router promises -----------------------------------------

  lemma {:induction false} ListedOnce(order: seq<string>, listing: seq<string>, n: nat)
    requires n <= |listing| && Distinct(order)
    ensures Distinct(WithListed(order, listing, n)) && order <= WithListed(order, listing, n)
    ensures forall p :: p in WithListed(order, listing, n) <==> p in order || p in listing[..n]
  {
    if n > 0 {
      ListedOnce(order, listing, n - 1);
      assert listing[..n] == listing[..n - 1] + [listing[n - 1]];
    }
  }

  /** Each provider once: the requested, the default, the fallback, then all others listed. */
  lemma OrderIsComplete(request: Request, default: string, fallback: string, registry: Registry)
    ensures var order := ProviderOrder(request, default, fallback, registry);
      && Distinct(order)
      && (NonBlank(request.provider) ==> order != [] && order[0] == Strip(request.provider))
      && (!NonBlank(request.provider) && default != "" ==> order != [] && order[0] == default)
      && (forall p :: p in order <==>
            || (NonBlank(request.provider) && p == Strip(request.provider))
            || (p != "" && (p == default || p == fallback))
            || p in registry.listing)
  {
    hide NonBlank, Strip;
    ListedOnce(Preferred(request, default, fallback), registry.listing, |registry.listing|);
    assert registry.listing[..|registry.listing|] == registry.listing;
  }

  lemma RepeatedCount(provider: string, times: nat, p: string)
    ensures multiset(Repeat(provider, times))[p] == if p == provider then times else 0
  {
    if times > 0 {
      RepeatedCount(provider, times - 1, p);
      assert Repeat(provider, times) == Repeat(provider, times - 1) + [provider];
    } else {
      assert Repeat(provider, 0) == [];
    }
  }

  lemma {:induction false} SlotsOfAProvider(order: seq<string>, n: nat, registry: Registry, attempts: nat, p: string)
    requires n <= |order| && Distinct(order)
    ensures multiset(Slots(order, n, registry, attempts))[p] == if p in order[..n] && Ready(registry, p) then attempts else 0
  {
    hide Ready, Repeat, Distinct;
    if n > 0 {
      SlotsOfAProvider(order, n - 1, registry, attempts, p);
      RepeatedCount(order[n - 1], attempts, p);
      LastIsNew(order, n, p);
    }
  }

  lemma LastIsNew(order: seq<string>, n: nat, p: string)
    requires 0 < n <= |order| && Distinct(order)
    ensures p in order[..n] <==> p in order[..n - 1] || p == order[n - 1]
    ensures order[n - 1] !in order[..n - 1]
  {
    assert order[..n] == order[..n - 1] + [order[n - 1]];
  }

  lemma PrefixCount(a: seq<string>, b: seq<string>, p: string)
    requires a <= b
    ensures multiset(a)[p] <= multiset(b)[p]
  {
    assert b == a + b[|a|..];
  }

  /** No provider is called more than `attempts` times, none that is not
      ready is called at all, and when every call fails each ready provider
      has had all its attempts. */
  lemma AttemptsAreBounded(order: seq<string>, registry: Registry, attempts: nat, outcome: nat -> Outcome, p: string)
    requires Distinct(order)
    ensures var slots := Slots(order, |order|, registry, attempts);
      var calls := CallsMade(slots, outcome);
      && multiset(calls)[p] <= attempts
      && (p in calls ==> p in order && Ready(registry, p))
      && (!Final(slots, outcome).Answered? && p in order && Ready(registry, p) ==> multiset(calls)[p] == attempts)
  {
    hide Ready;
    var slots := Slots(order, |order|, registry, attempts);
    SlotsOfAProvider(order, |order|, registry, attempts, p);
    assert order[..|order|] == order;
    PrefixCount(CallsMade(slots, outcome), slots, p);
    assert p in CallsMade(slots, outcome) ==> p in multiset(CallsMade(slots, outcome));
  }

  /** The calls stop at the first that returns, whose response is the answer;
      without one the first error is raised. */
  lemma FirstReturnAnswers(slots: seq<string>, outcome: nat -> Outcome)
    ensures var calls := CallsMade(slots, outcome);
      && calls <= slots
      && (forall i: nat :: i + 1 < |calls| ==> outcome(i).Raised?)
      && (Final(slots, outcome).Answered? <==> exists i: nat :: i < |slots| && outcome(i).Returned?)
      && (Final(slots, outcome).Answered? ==>
            calls != [] && outcome(|calls| - 1) == Returned(Final(slots, outcome).response))
      && (!Final(slots, outcome).Answered? ==>
            calls == slots && (slots != [] ==> Final(slots, outcome) == FirstError(outcome(0).message)))
  {
  }

  // ---- The metrics of a run ---------------------------------------------

  ghost function Requests(state: map<Key, ModelState>): int {
    SumOver(state, Total())
  }

  ghost function Successes(state: map<Key, ModelState>): int {
    SumOver(state, Successful())
  }

  ghost function Failures(state: map<Key, ModelState>): int {
    SumOver(state, Failing())
  }

  lemma RecordedCounts(state: map<Key, ModelState>, e: Event)
    ensures Requests(Recorded(state, e)) == Requests(state) + 1
    ensures Successes(Recorded(state, e)) == Successes(state) + if e.Succeeded? then 1 else 0
    ensures Failures(Recorded(state, e)) == Failures(state) + if e.Failed? then 1 else 0
  {
    hide EventKey, SumOver, Latest, Named;
    var key := EventKey(e);
    SumOfUpdate(state, Total(), key, Counted(StateAt(state, key), e));
    SumOfUpdate(state, Successful(), key, Counted(StateAt(state, key), e));
    SumOfUpdate(state, Failing(), key, Counted(StateAt(state, key), e));
  }

  /** How many of the first `n` calls returned. */
  ghost function Returns(outcome: nat -> Outcome, n: nat): nat {
    if n == 0 then 0 else Returns(outcome, n - 1) + if outcome(n - 1).Returned? then 1 else 0
  }

  lemma {:induction false} CallsAreCounted(state: map<Key, ModelState>, request: Request, calls: seq<string>, outcome: nat -> Outcome, n: nat)
    requires n <= |calls|
    ensures var after := RecordedCalls(state, request, calls, outcome, n);
      && Requests(after) == Requests(state) + n
      && Successes(after) == Successes(state) + Returns(outcome, n)
      && Failures(after) == Failures(state) + n - Returns(outcome, n)
  {
    hide Requests, Successes, Failures, Recorded;
    if n > 0 {
      CallsAreCounted(state, request, calls, outcome, n - 1);
      RecordedCounts(RecordedCalls(state, request, calls, outcome, n - 1), RecordOf(request, calls[n - 1], outcome(n - 1)));
    }
  }

  lemma {:induction false} NoReturns(outcome: nat -> Outcome, n: nat)
    requires forall i: nat :: i < n ==> outcome(i).Raised?
    ensures Returns(outcome, n) == 0
  {
    if n > 0 {
      NoReturns(outcome, n - 1);
    }
  }

  /** A run adds one request for each call made: one success if it answers,
      and a failure for every other call. */
  lemma EveryCallIsRecordedOnce(state: map<Key, ModelState>, request: Request, slots: seq<string>, outcome: nat -> Outcome)
    ensures var calls := CallsMade(slots, outcome);
      var after := RecordedCalls(state, request, calls, outcome, |calls|);
      var answered := if Final(slots, outcome).Answered? then 1 else 0;
      && Requests(after) == Requests(state) + |calls|
      && Successes(after) == Successes(state) + answered
      && Failures(after) == Failures(state) + |calls| - answered
  {
    hide Requests, Successes, Failures, CallsMade, Final, RecordedCalls;
    var calls := CallsMade(slots, outcome);
    CallsAreCounted(state, request, calls, outcome, |calls|);
    FirstReturnAnswers(slots, outcome);
    if Final(slots, outcome).Answered? {
      NoReturns(outcome, |calls| - 1);
    } else {
      NoReturns(outcome, |calls|);
    }
  }
}
