/** The historical aggregators: totals of the provider metrics and of the
    execution log, as a whole and model by model. */
module UsageAggregates {
  import opened Text
  import opened Money
  import opened UsageCounters
  import opened UsageRollups

  /** One model's metrics, or one successful log line with its time. */
  datatype Use = Use(model: string, amounts: Counters, at: Option<string>)

  datatype Totals = Totals(counters: Counters, lastUsed: Option<string>)

  /** One parsed log line. */
  datatype Execution = Execution(
    success: bool,
    model: string,
    promptTokens: int,
    cachedInputTokens: int,
    completionTokens: int,
    cost: int,
    at: string)

  function ModelName(use: Use): string {
    Named(use.model, "unknown-model")
  }

  function ChargeUse(use: Use): Counters {
    Clamp(use.amounts)
  }

  /** What a successful execution counts: one call, and its prompt and completion tokens together. */
  function LoggedUse(e: Execution): Use {
    Use(e.model,
        Counters(1, e.promptTokens, e.cachedInputTokens, e.completionTokens,
                 Max(e.promptTokens, 0) + Max(e.completionTokens, 0), e.cost),
        Some(e.at))
  }

  // ---- The uses an aggregator sees --------------------------------------

  /** Model entries that are not dictionaries are skipped. */
  function ModelUses(models: seq<(string, Option<Counters>)>, n: nat): seq<Use>
    requires n <= |models|
  {
    if n == 0 then []
    else
      var before := ModelUses(models, n - 1);
      match models[n - 1].1
      case None => before
      case Some(amounts) => before + [Use(models[n - 1].0, amounts, None)]
  }

  /** So are providers without a dictionary of models. */
  function MetricUses(providers: seq<Option<seq<(string, Option<Counters>)>>>, n: nat): seq<Use>
    requires n <= |providers|
  {
    if n == 0 then []
    else
      var before := MetricUses(providers, n - 1);
      match providers[n - 1]
      case None => before
      case Some(models) => before + ModelUses(models, |models|)
  }

  /** Lines that do not parse, and failures, are skipped. */
  function LogUses(lines: seq<Option<Execution>>, n: nat): seq<Use>
    requires n <= |lines|
  {
    if n == 0 then []
    else
      var before := LogUses(lines, n - 1);
      if lines[n - 1].Some? && lines[n - 1].value.success then before + [LoggedUse(lines[n - 1].value)] else before
  }

  // ---- Totals -----------------------------------------------------------

  ghost function Every(): Use -> bool {
    (use: Use) => true
  }

  ghost function OfModel(model: string): Use -> bool {
    (use: Use) => ModelName(use) == model
  }

  /** The time of the last picked use that has one. */
  ghost function LastAt(uses: seq<Use>, picks: Use -> bool): Option<string> {
    if uses == [] then None
    else
      var before, last := LastAt(uses[..|uses| - 1], picks), uses[|uses| - 1];
      if picks(last) && last.at.Some? then last.at else before
  }

  ghost predicate TotalOf(uses: seq<Use>, picks: Use -> bool, totals: Totals) {
    totals.counters == Charged(uses, ChargeUse, picks) && totals.lastUsed == LastAt(uses, picks)
  }

  /** One total for each model used and no other. */
  ghost predicate TotalsByModel(uses: seq<Use>, totals: map<string, Totals>) {
    && (forall model :: model in totals <==> exists i :: 0 <= i < |uses| && ModelName(uses[i]) == model)
    && (forall model :: model in totals ==> TotalOf(uses, OfModel(model), totals[model]))
  }

  function Tally(totals: Totals, use: Use): Totals {
    Totals(Plus(totals.counters, ChargeUse(use)), if use.at.Some? then use.at else totals.lastUsed)
  }

  function TallyModel(totals: map<string, Totals>, use: Use): map<string, Totals> {
    var model := ModelName(use);
    totals[model := Tally(if model in totals then totals[model] else Totals(ZERO, None), use)]
  }

  lemma TallyCounts(uses: seq<Use>, use: Use, totals: Totals)
    requires TotalOf(uses, Every(), totals)
    ensures TotalOf(uses + [use], Every(), Tally(totals, use))
  {
    assert (uses + [use])[..|uses|] == uses;
  }

  lemma TallyModelCounts(uses: seq<Use>, use: Use, totals: map<string, Totals>)
    requires TotalsByModel(uses, totals)
    ensures TotalsByModel(uses + [use], TallyModel(totals, use))
  {
    hide ModelName, ChargeUse;
    var longer, after := uses + [use], TallyModel(totals, use);
    assert longer[..|uses|] == uses && longer[|uses|] == use;
    forall model ensures model in after <==> exists i :: 0 <= i < |longer| && ModelName(longer[i]) == model {
      if model in totals {
        var i :| 0 <= i < |uses| && ModelName(uses[i]) == model;
        assert longer[i] == uses[i];
      }
    }
    if ModelName(use) !in totals {
      NeverUsed(uses, ModelName(use));
    }
  }

  lemma {:induction false} NeverUsed(uses: seq<Use>, model: string)
    requires forall i :: 0 <= i < |uses| ==> ModelName(uses[i]) != model
    ensures TotalOf(uses, OfModel(model), Totals(ZERO, None))
  {
    if uses != [] {
      NeverUsed(uses[..|uses| - 1], model);
    }
  }

  // ---- The aggregators --------------------------------------------------

  /** `aggregate_provider_metrics`. */
  method AggregateProviderMetrics(providers: seq<Option<seq<(string, Option<Counters>)>>>) returns (totals: Totals)
    ensures TotalOf(MetricUses(providers, |providers|), Every(), totals)
  {
    hide TotalOf, Tally, ModelUses, MetricUses;
    totals := Totals(ZERO, None);
    NothingTotalled();
    NoMetricUses(providers);
    for n := 0 to |providers|
      invariant TotalOf(MetricUses(providers, n), Every(), totals)
    {
      MetricUsesStep(providers, n);
      if providers[n].Some? {
        var models := providers[n].value;
        ghost var before := MetricUses(providers, n);
        for k := 0 to |models|
          invariant TotalOf(before + ModelUses(models, k), Every(), totals)
        {
          ModelUsesStep(before, models, k);
          if models[k].1.Some? {
            var use := Use(models[k].0, models[k].1.value, None);
            TallyCounts(before + ModelUses(models, k), use, totals);
            totals := Tally(totals, use);
          }
        }
      }
    }
  }

  lemma NoMetricUses(providers: seq<Option<seq<(string, Option<Counters>)>>>)
    ensures MetricUses(providers, 0) == []
  {
  }

  /** The usable entries of one more provider. */
  lemma MetricUsesStep(providers: seq<Option<seq<(string, Option<Counters>)>>>, n: nat)
    requires n < |providers|
    ensures providers[n].None? ==> MetricUses(providers, n + 1) == MetricUses(providers, n)
    ensures providers[n].Some? ==>
              var before, models := MetricUses(providers, n), providers[n].value;
              before + ModelUses(models, 0) == before && MetricUses(providers, n + 1) == before + ModelUses(models, |models|)
  {
  }

  /** One more model entry, if it is usable. */
  lemma ModelUsesStep(before: seq<Use>, models: seq<(string, Option<Counters>)>, k: nat)
    requires k < |models|
    ensures models[k].1.None? ==> before + ModelUses(models, k + 1) == before + ModelUses(models, k)
    ensures models[k].1.Some? ==>
              before + ModelUses(models, k + 1) == before + ModelUses(models, k) + [Use(models[k].0, models[k].1.value, None)]
  {
    if models[k].1.Some? {
      var use := Use(models[k].0, models[k].1.value, None);
      assert before + ModelUses(models, k) + [use] == before + (ModelUses(models, k) + [use]);
    }
  }

  lemma NothingTotalled()
    ensures TotalOf([], Every(), Totals(ZERO, None))
  {
  }

  lemma NothingByModel()
    ensures TotalsByModel([], map[])
  {
  }

  /** `aggregate_provider_metrics_by_model`. */
  method AggregateProviderMetricsByModel(providers: seq<Option<seq<(string, Option<Counters>)>>>)
    returns (totals: map<string, Totals>)
    ensures TotalsByModel(MetricUses(providers, |providers|), totals)
  {
    hide TotalsByModel, TallyModel, ModelUses, MetricUses;
    totals := map[];
    NothingByModel();
    NoMetricUses(providers);
    for n := 0 to |providers|
      invariant TotalsByModel(MetricUses(providers, n), totals)
    {
      MetricUsesStep(providers, n);
      if providers[n].Some? {
        var models := providers[n].value;
        ghost var before := MetricUses(providers, n);
        for k := 0 to |models|
          invariant TotalsByModel(before + ModelUses(models, k), totals)
        {
          ModelUsesStep(before, models, k);
          if models[k].1.Some? {
            var use := Use(models[k].0, models[k].1.value, None);
            TallyModelCounts(before + ModelUses(models, k), use, totals);
            totals := TallyModel(totals, use);
          }
        }
      }
    }
  }

  /** `aggregate_provider_execution_log`. */
  method AggregateExecutionLog(lines: seq<Option<Execution>>) returns (totals: Totals)
    ensures TotalOf(LogUses(lines, |lines|), Every(), totals)
  {
    hide TotalOf, LoggedUse;
    totals := Totals(ZERO, None);
    NothingTotalled();
    for n := 0 to |lines|
      invariant TotalOf(LogUses(lines, n), Every(), totals)
    {
      if lines[n].Some? && lines[n].value.success {
        TallyCounts(LogUses(lines, n), LoggedUse(lines[n].value), totals);
        totals := Tally(totals, LoggedUse(lines[n].value));
      }
    }
  }

  /** `aggregate_provider_execution_log_by_model`. */
  method AggregateExecutionLogByModel(lines: seq<Option<Execution>>) returns (totals: map<string, Totals>)
    ensures TotalsByModel(LogUses(lines, |lines|), totals)
  {
    hide TotalsByModel, TallyModel, LoggedUse;
    totals := map[];
    NothingByModel();
    for n := 0 to |lines|
      invariant TotalsByModel(LogUses(lines, n), totals)
    {
      if lines[n].Some? && lines[n].value.success {
        TallyModelCounts(LogUses(lines, n), LoggedUse(lines[n].value), totals);
        totals := TallyModel(totals, LoggedUse(lines[n].value));
      }
    }
  }

  // ---- Agreement --------------------------------------------------------

  ghost function CountersIn(totals: map<string, Totals>): string -> Counters {
    model => if model in totals then totals[model].counters else ZERO
  }

  /** The totals by model add up, on every counter, to the totals as a whole. */
  lemma ByModelAddsUp(uses: seq<Use>, whole: Totals, totals: map<string, Totals>, models: seq<string>)
    requires TotalOf(uses, Every(), whole) && TotalsByModel(uses, totals)
    requires Distinct(models) && forall model :: model in models <==> model in totals
    ensures SumOf(models, CountersIn(totals)) == whole.counters
  {
    hide ModelName, ChargeUse, SumOf, Charged, LastAt;
    PartsMakeTheWhole(uses, ChargeUse, Every(), ModelName, models);
    var parts := ChargedUnder(uses, ChargeUse, Every(), ModelName);
    forall model | model in models ensures parts(model) == CountersIn(totals)(model) {
      SamePicks(uses, ChargeUse, Under(Every(), ModelName, model), OfModel(model));
    }
    SameParts(models, parts, CountersIn(totals));
  }

  /** The last use as a whole is the last use of the model used last. */
  lemma LastUseIsSomeModels(uses: seq<Use>, whole: Totals, totals: map<string, Totals>)
    requires TotalOf(uses, Every(), whole) && TotalsByModel(uses, totals)
    requires uses != [] && uses[|uses| - 1].at.Some?
    ensures var model := ModelName(uses[|uses| - 1]);
      model in totals && totals[model].lastUsed == whole.lastUsed
  {
  }
}
