/** Which providers, models, timeout and retries a request may use. */
module ProviderSelection {
  import opened Money
  import opened Text

  datatype Routing = Routing(maxTimeout: Option<int>, maxRetries: Option<int>, maxInputBytes: Option<int>)

  /** The governance bundle. A dictionary is the list of its items, in order. */
  datatype Governance = Governance(
    approvedProviders: seq<string>,
    approvedModels: seq<(string, seq<string>)>,
    routing: Routing,
    allowedFamilies: seq<string>)

  /** An absent text is the empty text; a limit without a `max_cost_cents` is `None`. */
  datatype Input = Input(
    enabled: seq<string>,
    defaultProvider: string,
    requestedProvider: string,
    requestedModel: string,
    availability: seq<(string, string)>,
    usableModels: seq<(string, seq<string>)>,
    retries: map<string, int>,
    limits: seq<(string, Option<int>)>,
    timeout: int,
    maxCost: Option<int>,
    governance: Governance)

  datatype Reason = NoEnabledProviders | NoApprovedProviders | NoProviderAvailable

  datatype Decision = Decision(
    order: seq<string>,
    models: map<string, seq<string>>,
    timeout: int,
    retries: map<string, int>,
    fallback: bool,
    rejection: Option<Reason>)

  function Least(a: int, b: int): int {
    if b < a then b else a
  }

  /** A provider or model name as it is compared. */
  function Id(s: string): string {
    Lower(Strip(s))
  }

  // ---- Normalised dictionaries ------------------------------------------

  /** Of keys that normalise alike, the last one wins. */
  function ModelsById(items: seq<(string, seq<string>)>, n: nat): map<string, seq<string>>
    requires n <= |items|
  {
    if n == 0 then map[]
    else
      var before, (key, models) := ModelsById(items, n - 1), items[n - 1];
      if Id(key) == "" then before else before[Id(key) := LowerList(models)]
  }

  function LimitsById(items: seq<(string, Option<int>)>, n: nat): map<string, int>
    requires n <= |items|
  {
    if n == 0 then map[]
    else
      var before, (key, limit) := LimitsById(items, n - 1), items[n - 1];
      if Id(key) == "" || limit == None then before else before[Id(key) := Max(limit.value, 0)]
  }

  function AvailabilityById(items: seq<(string, string)>, n: nat): map<string, string>
    requires n <= |items|
  {
    if n == 0 then map[] else AvailabilityById(items, n - 1)[Id(items[n - 1].0) := items[n - 1].1]
  }

  method NormalizeProviderModels(items: seq<(string, seq<string>)>) returns (r: map<string, seq<string>>)
    ensures r == ModelsById(items, |items|)
  {
    hide Id, LowerList;
    r := map[];
    for n := 0 to |items|
      invariant r == ModelsById(items, n)
    {
      var key := Id(items[n].0);
      if key != "" {
        r := r[key := LowerList(items[n].1)];
      }
    }
  }

  method NormalizeProviderBudgetLimits(items: seq<(string, Option<int>)>) returns (r: map<string, int>)
    ensures r == LimitsById(items, |items|)
  {
    hide Id;
    r := map[];
    for n := 0 to |items|
      invariant r == LimitsById(items, n)
    {
      var key := Id(items[n].0);
      if key != "" && items[n].1.Some? {
        r := r[key := Max(items[n].1.value, 0)];
      }
    }
  }

  // ---- Which providers qualify ------------------------------------------

  function Enabled(input: Input): seq<string> {
    LowerList(input.enabled)
  }

  /** Approved by governance, or governance approves no provider in particular. */
  predicate Approved(input: Input, provider: string) {
    var approved := LowerList(input.governance.approvedProviders);
    approved == [] || provider in approved
  }

  /** Available, degraded, or a blank that is not the empty text; an unknown provider is unavailable. */
  predicate Healthy(input: Input, provider: string) {
    var health := AvailabilityById(input.availability, |input.availability|);
    && provider in health
    && health[provider] != ""
    && Id(health[provider]) in ["available", "degraded", ""]
  }

  /** The request costs no more than the provider's limit, if either is set. */
  predicate Affordable(input: Input, provider: string) {
    var limits := LimitsById(input.limits, |input.limits|);
    input.maxCost.Some? && provider in limits ==> input.maxCost.value <= limits[provider]
  }

  /** The enabled providers governance approves, in order. */
  function Eligible(input: Input, n: nat): seq<string>
    requires n <= |Enabled(input)|
  {
    if n == 0 then []
    else
      var before, provider := Eligible(input, n - 1), Enabled(input)[n - 1];
      if Approved(input, provider) then before + [provider] else before
  }

  function AllEligible(input: Input): seq<string> {
    Eligible(input, |Enabled(input)|)
  }

  function Candidates(input: Input): seq<string> {
    [Id(input.requestedProvider), Id(input.defaultProvider)] + AllEligible(input)
  }

  predicate Passes(input: Input, provider: string) {
    && provider != "" && provider in AllEligible(input)
    && Healthy(input, provider) && Affordable(input, provider)
  }

  /** The first `n` candidates that pass, each once. */
  function OrderUpTo(input: Input, candidates: seq<string>, n: nat): seq<string>
    requires n <= |candidates|
  {
    if n == 0 then []
    else
      var before := OrderUpTo(input, candidates, n - 1);
      if candidates[n - 1] !in before && Passes(input, candidates[n - 1]) then before + [candidates[n - 1]] else before
  }

  function Order(input: Input): seq<string> {
    OrderUpTo(input, Candidates(input), |Candidates(input)|)
  }

  // ---- Models, timeout and retries --------------------------------------

  function ModelsOf(models: map<string, seq<string>>, provider: string): seq<string> {
    if provider in models then models[provider] else []
  }

  function Usable(input: Input, provider: string): seq<string> {
    ModelsOf(ModelsById(input.usableModels, |input.usableModels|), provider)
  }

  function ApprovedModels(input: Input, provider: string): seq<string> {
    ModelsOf(ModelsById(input.governance.approvedModels, |input.governance.approvedModels|), provider)
  }

  function Common(usable: seq<string>, approved: seq<string>): seq<string> {
    if usable == [] then []
    else
      var before, model := Common(usable[..|usable| - 1], approved), usable[|usable| - 1];
      if model in approved then before + [model] else before
  }

  /** The models both lists allow; an empty list allows any. */
  function Restricted(usable: seq<string>, approved: seq<string>): seq<string> {
    if usable != [] && approved != [] then Common(usable, approved)
    else if usable != [] then usable
    else approved
  }

  function AllowedModels(usable: seq<string>, approved: seq<string>, requested: string): seq<string> {
    var allowed := Restricted(usable, approved);
    if requested != "" && (allowed == [] || requested in allowed) then [requested] else allowed
  }

  function Timeout(input: Input): int {
    var cap := input.governance.routing.maxTimeout;
    var asked := Max(input.timeout, 1);
    if cap.Some? then Least(asked, Max(cap.value, 1)) else asked
  }

  function Retries(input: Input, provider: string): int {
    var cap := input.governance.routing.maxRetries;
    var configured := if provider in input.retries then Max(input.retries[provider], 0) else 0;
    if cap.Some? then Least(configured, Max(cap.value, 0)) else configured
  }

  function Rejected(input: Input, reason: Reason): Decision {
    Decision([], map[], Max(input.timeout, 1), map[], false, Some(reason))
  }

  function ModelsFor(input: Input, provider: string): seq<string> {
    AllowedModels(Usable(input, provider), ApprovedModels(input, provider), Id(input.requestedModel))
  }

  function ModelMap(input: Input, order: seq<string>, n: nat): map<string, seq<string>>
    requires n <= |order|
  {
    if n == 0 then map[] else ModelMap(input, order, n - 1)[order[n - 1] := ModelsFor(input, order[n - 1])]
  }

  function RetryMap(input: Input, order: seq<string>, n: nat): map<string, int>
    requires n <= |order|
  {
    if n == 0 then map[] else RetryMap(input, order, n - 1)[order[n - 1] := Retries(input, order[n - 1])]
  }

  function Select(input: Input): Decision {
    if Enabled(input) == [] then Rejected(input, NoEnabledProviders)
    else if AllEligible(input) == [] then Rejected(input, NoApprovedProviders)
    else if Order(input) == [] then Rejected(input, NoProviderAvailable)
    else
      Decision(
        Order(input),
        ModelMap(input, Order(input), |Order(input)|),
        Timeout(input),
        RetryMap(input, Order(input), |Order(input)|),
        |Order(input)| > 1,
        None)
  }

  method SelectEligible(input: Input, enabled: seq<string>) returns (r: seq<string>)
    requires enabled == Enabled(input)
    ensures r == AllEligible(input)
  {
    hide LowerList, Approved, Enabled;
    r := [];
    for n := 0 to |enabled|
      invariant r == Eligible(input, n)
    {
      if Approved(input, enabled[n]) {
        r := r + [enabled[n]];
      }
    }
  }

  method SelectOrder(input: Input, eligible: seq<string>) returns (r: seq<string>)
    requires eligible == AllEligible(input)
    ensures r == Order(input)
  {
    hide Id, AllEligible, Healthy, Affordable;
    var candidates := [Id(input.requestedProvider), Id(input.defaultProvider)] + eligible;
    r := [];
    for n := 0 to |candidates|
      invariant r == OrderUpTo(input, candidates, n)
    {
      var candidate := candidates[n];
      if candidate == "" || candidate in r || candidate !in eligible {
        continue;
      }
      if !Healthy(input, candidate) || !Affordable(input, candidate) {
        continue;
      }
      r := r + [candidate];
    }
  }

  method FillModels(input: Input, order: seq<string>, usable: map<string, seq<string>>, approved: map<string, seq<string>>)
    returns (models: map<string, seq<string>>, retries: map<string, int>)
    requires usable == ModelsById(input.usableModels, |input.usableModels|)
    requires approved == ModelsById(input.governance.approvedModels, |input.governance.approvedModels|)
    ensures models == ModelMap(input, order, |order|) && retries == RetryMap(input, order, |order|)
  {
    hide AllowedModels, Retries, Id, ModelsById;
    models, retries := map[], map[];
    for n := 0 to |order|
      invariant models == ModelMap(input, order, n) && retries == RetryMap(input, order, n)
    {
      var provider := order[n];
      models := models[provider := AllowedModels(ModelsOf(usable, provider), ModelsOf(approved, provider), Id(input.requestedModel))];
      retries := retries[provider := Retries(input, provider)];
    }
  }

  /** `build_provider_selection_policy`. */
  method BuildProviderSelectionPolicy(input: Input) returns (decision: Decision)
    ensures decision == Select(input)
  {
    hide LowerList, Enabled, AllEligible, Order, Timeout, Retries, ModelsFor, ModelsById;
    var enabled := Enabled(input);
    if enabled == [] {
      return Rejected(input, NoEnabledProviders);
    }
    var eligible := SelectEligible(input, enabled);
    if eligible == [] {
      return Rejected(input, NoApprovedProviders);
    }
    var usable := NormalizeProviderModels(input.usableModels);
    var approved := NormalizeProviderModels(input.governance.approvedModels);
    var order := SelectOrder(input, eligible);
    if order == [] {
      return Rejected(input, NoProviderAvailable);
    }
    var models, retries := FillModels(input, order, usable, approved);
    decision := Decision(order, models, Timeout(input), retries, |order| > 1, None);
  }

  // ---- The order is exact -----------------------------------------------

  ghost predicate Qualifies(input: Input, provider: string) {
    && provider in Enabled(input) && Approved(input, provider)
    && Healthy(input, provider) && Affordable(input, provider)
  }

  lemma {:induction false} EligibleAreApproved(input: Input, n: nat)
    requires n <= |Enabled(input)|
    ensures forall p :: p in Eligible(input, n) <==> p in Enabled(input)[..n] && Approved(input, p)
  {
    hide Enabled, Approved;
    if n > 0 {
      EligibleAreApproved(input, n - 1);
      assert Enabled(input)[..n] == Enabled(input)[..n - 1] + [Enabled(input)[n - 1]];
    }
  }

  lemma {:induction false} OrderKeepsPassing(input: Input, candidates: seq<string>, n: nat)
    requires n <= |candidates|
    ensures Distinct(OrderUpTo(input, candidates, n))
    ensures forall p :: p in OrderUpTo(input, candidates, n) <==> p in candidates[..n] && Passes(input, p)
  {
    hide Passes;
    if n > 0 {
      OrderKeepsPassing(input, candidates, n - 1);
      assert candidates[..n] == candidates[..n - 1] + [candidates[n - 1]];
    }
  }

  lemma EnabledAreNamed(input: Input)
    ensures "" !in Enabled(input)
  {
    CleanListIsClean(input.enabled);
    LowerAllOfClean(CleanList(input.enabled));
  }

  /** No provider twice, and exactly the enabled, approved, healthy and affordable ones. */
  lemma OrderIsExact(input: Input)
    ensures Distinct(Order(input))
    ensures forall p :: p in Order(input) <==> Qualifies(input, p)
  {
    hide Enabled, Approved, Healthy, Affordable, Id;
    var candidates := Candidates(input);
    OrderKeepsPassing(input, candidates, |candidates|);
    assert candidates[..|candidates|] == candidates;
    EligibleAreApproved(input, |Enabled(input)|);
    assert Enabled(input)[..|Enabled(input)|] == Enabled(input);
    EnabledAreNamed(input);
  }

  /** The position of the first occurrence, or the length. */
  ghost function FirstAt(s: seq<string>, x: string): (i: nat)
    ensures i <= |s| && (i < |s| ==> s[i] == x)
    ensures forall j :: 0 <= j < i ==> s[j] != x
  {
    if s == [] || s[0] == x then 0 else 1 + FirstAt(s[1..], x)
  }

  lemma FirstAtIsEarly(s: seq<string>, x: string, n: nat)
    requires n <= |s|
    ensures FirstAt(s, x) < n <==> x in s[..n]
  {
  }

  /** Candidates keep the order of their first occurrence. */
  lemma {:induction false} OrderFollowsCandidates(input: Input, candidates: seq<string>, n: nat)
    requires n <= |candidates|
    ensures forall i, j :: 0 <= i < j < |OrderUpTo(input, candidates, n)| ==>
              FirstAt(candidates, OrderUpTo(input, candidates, n)[i]) < FirstAt(candidates, OrderUpTo(input, candidates, n)[j])
  {
    hide Passes;
    if n > 0 {
      OrderFollowsCandidates(input, candidates, n - 1);
      OrderKeepsPassing(input, candidates, n - 1);
      var before, last := OrderUpTo(input, candidates, n - 1), candidates[n - 1];
      if last !in before && Passes(input, last) {
        FirstAtIsEarly(candidates, last, n - 1);
        forall i | 0 <= i < |before| ensures FirstAt(candidates, before[i]) < FirstAt(candidates, last) {
          assert before[i] in before;
          FirstAtIsEarly(candidates, before[i], n - 1);
        }
      }
    }
  }

  /** The requested provider comes first, then the default, then the rest as they were enabled. */
  lemma RequestedThenDefault(input: Input)
    ensures var order, requested, preferred := Order(input), Id(input.requestedProvider), Id(input.defaultProvider);
      && (requested in order ==> order[0] == requested)
      && (preferred in order && requested !in order ==> order[0] == preferred)
      && (preferred in order && requested in order && preferred != requested ==> |order| > 1 && order[1] == preferred)
      && (forall i, j :: 0 <= i < j < |order| && order[i] !in [requested, preferred] && order[j] !in [requested, preferred] ==>
            FirstAt(AllEligible(input), order[i]) < FirstAt(AllEligible(input), order[j]))
  {
    hide Id, AllEligible, OrderUpTo;
    var order, requested, preferred := Order(input), Id(input.requestedProvider), Id(input.defaultProvider);
    var candidates := Candidates(input);
    OrderFollowsCandidates(input, candidates, |candidates|);
    OrderKeepsPassing(input, candidates, |candidates|);
    assert FirstAt(candidates, requested) == 0;
    assert preferred != requested ==> FirstAt(candidates, preferred) == 1;
    assert candidates[2..] == AllEligible(input);
    forall p | p != requested && p != preferred ensures FirstAt(candidates, p) == 2 + FirstAt(AllEligible(input), p) {
      assert candidates[1..][1..] == AllEligible(input);
    }
  }

  /** The reason given for a rejection is the first that applies. */
  lemma RejectionIsExact(input: Input)
    ensures Select(input).rejection == None <==> exists p :: Qualifies(input, p)
    ensures Select(input).rejection == Some(NoEnabledProviders) <==> Enabled(input) == []
    ensures Select(input).rejection == Some(NoApprovedProviders) <==>
            Enabled(input) != [] && forall p :: p in Enabled(input) ==> !Approved(input, p)
    ensures Select(input).fallback <==> exists p, q :: p != q && Qualifies(input, p) && Qualifies(input, q)
  {
    hide Enabled, Approved, Healthy, Affordable, Id, Order;
    var order, enabled, eligible := Order(input), Enabled(input), AllEligible(input);
    OrderIsExact(input);
    EligibleAreApproved(input, |enabled|);
    assert enabled[..|enabled|] == enabled;
    assert forall p :: p in order ==> p in enabled && p in eligible;
    assert order != [] ==> order[0] in order;
    assert |order| > 1 ==> order[0] in order && order[1] in order && order[0] != order[1];
    assert eligible != [] ==> eligible[0] in eligible;
  }

  lemma {:induction false} MapsCoverTheOrder(input: Input, order: seq<string>, n: nat)
    requires n <= |order|
    ensures forall p :: p in ModelMap(input, order, n) <==> p in order[..n]
    ensures forall p :: p in RetryMap(input, order, n) <==> p in order[..n]
    ensures forall p :: p in order[..n] ==>
              ModelMap(input, order, n)[p] == ModelsFor(input, p) && RetryMap(input, order, n)[p] == Retries(input, p)
  {
    hide ModelsFor, Retries;
    if n > 0 {
      MapsCoverTheOrder(input, order, n - 1);
      assert order[..n] == order[..n - 1] + [order[n - 1]];
    }
  }

  /** A provider gets models and retries exactly when it is in the order, and
      no more retries than it configures or governance allows. */
  lemma EachSelectedProviderIsServed(input: Input, p: string)
    ensures p in Select(input).models <==> Qualifies(input, p)
    ensures p in Select(input).retries <==> Qualifies(input, p)
    ensures Qualifies(input, p) ==>
              && Select(input).models[p] == ModelsFor(input, p)
              && 0 <= Select(input).retries[p]
              && Select(input).retries[p] <= (if p in input.retries then Max(input.retries[p], 0) else 0)
              && (input.governance.routing.maxRetries.Some? ==>
                    Select(input).retries[p] <= Max(input.governance.routing.maxRetries.value, 0))
  {
    hide Qualifies, Enabled, Order, AllEligible, ModelsFor;
    var order := Order(input);
    OrderIsExact(input);
    MapsCoverTheOrder(input, order, |order|);
    assert order[..|order|] == order;
    RejectionIsExact(input);
    assert Qualifies(input, p) ==> p in order;
  }
}
