/** The budget manager: a persisted ledger, and a working copy that each call
    loads, edits entry by entry and saves. Every method is proved to leave
    exactly the ledger, and to return exactly the result, that `BudgetLedger` specifies. */
module BudgetManagement {
  import opened Text
  import opened Money
  import opened Calendar
  import opened BudgetLedger

  class BudgetManager {
    var stored: Ledger
    var working: Ledger

    constructor ()
      ensures stored == EMPTY_LEDGER
    {
      stored, working := EMPTY_LEDGER, EMPTY_LEDGER;
    }

    /** Save a ledger; one that fails validation is refused and the store keeps what it had. */
    method Save(next: Ledger) returns (saved: bool)
      modifies this`stored
      ensures saved == ValidLedger(next)
      ensures stored == if saved then next else old(stored)
    {
      saved := ValidLedger(next);
      if saved {
        stored := next;
      }
    }

    method CachePolicyFromGovernance(bundle: Option<Policy>) returns (outcome: Option<()>)
      modifies this
      ensures Effect(stored, outcome) == CachePolicy(old(stored), bundle)
    {
      if bundle.None? {
        return Some(());
      }
      working := stored;
      if working.policy == bundle {
        return Some(());
      }
      working := working.(policy := bundle);
      var saved := Save(working);
      outcome := if saved then Some(()) else None;
    }

    method SelectGrants(gs: seq<Grant>, request: Request, provider: string, now: int) returns (r: seq<Grant>)
      ensures r == ApplicableUpTo(gs, |gs|, request, provider, now)
    {
      r := [];
      for i := 0 to |gs|
        invariant r == ApplicableUpTo(gs, i, request, provider, now)
      {
        if Applies(gs[i], request, provider, now) {
          r := r + [gs[i]];
        }
      }
    }

    method EnsureUsageEntry(g: Grant)
      modifies this`working
      ensures working == old(working).(grants := EnsureGrant(old(working).grants, g))
    {
      var k := GrantKey(g);
      if k !in working.grants {
        var usage := GrantUsage(k, g.periodStart, g.periodEnd, 0, 0, 0, EMPTY_POOL);
        working := working.(grants := working.grants[k := usage]);
      } else if !SamePeriod(working.grants[k], g) {
        var usage := working.grants[k].(
          periodStart := g.periodStart, periodEnd := g.periodEnd,
          usedCents := 0, usedRequests := 0, usedTokens := 0, pool := EMPTY_POOL);
        working := working.(grants := working.grants[k := usage]);
      }
    }

    method RollbackReservations(gs: seq<Grant>, n: nat, r: Reservation)
      requires n <= |gs|
      modifies this`working
      ensures working == old(working).(grants := Rollback(old(working).grants, gs, n, r))
    {
      for i := 0 to n
        invariant working == old(working).(grants := Rollback(old(working).grants, gs, i, r))
      {
        var k := GrantKey(gs[i]);
        if k in working.grants {
          working := working.(grants := working.grants[k := ReturnToGrant(working.grants[k], r)]);
        }
      }
    }

    /** Book on one grant: refuse a reservation it already holds or has no room for. */
    method BookOnGrant(g: Grant, at: nat, r: Reservation) returns (refusal: Option<Reason>)
      modifies this`working
      ensures var b := BookGrant(old(working).grants, g, at, r);
        && refusal == (if b.Refused? then Some(b.reason) else None)
        && working == old(working).(grants := b.grants)
    {
      var k := GrantKey(g);
      EnsureUsageEntry(g);
      var usage := working.grants[k];
      if r.reservationId in usage.pool.held {
        return Some(ReservationConflict);
      }
      if g.maxCostCents > 0 {
        var remaining := g.maxCostCents - usage.usedCents - usage.pool.reservedCents;
        if remaining < r.cents {
          return Some(BudgetExhausted);
        }
      }
      working := working.(grants := working.grants[k := HoldOnGrant(usage, r)]);
      refusal := None;
    }

    /** Book on every grant in turn; at the first refusal undo what was booked. */
    method BookOnGrants(gs: seq<Grant>, r: Reservation) returns (refusal: Option<Reason>)
      modifies this`working
      ensures var b := BookGrants(old(working).grants, gs, |gs|, r);
        && refusal == (if b.Refused? then Some(b.reason) else None)
        && working == old(working).(grants := if b.Refused? then Rollback(b.grants, gs, b.at, r) else b.grants)
    {
      hide BookGrant, Rollback;
      for i := 0 to |gs|
        invariant working == old(working).(grants := working.grants)
        invariant BookGrants(old(working).grants, gs, i, r) == Booked(working.grants)
      {
        BookGrantShape(working.grants, gs[i], i, r);
        refusal := BookOnGrant(gs[i], i, r);
        if refusal.Some? {
          StaysRefused(old(working).grants, gs, i + 1, r, BookGrants(old(working).grants, gs, i + 1, r));
          RollbackReservations(gs, i, r);
          return;
        }
      }
      refusal := None;
    }

    method ReserveProviderBudget(call: ReserveCall) returns (b: ProviderBooking)
      modifies this`working
      ensures b == BookProvider(old(working).providers, call.provider, call.budgets, call.now, call.Claim())
      ensures working == if b.NoBudget? then old(working) else old(working).(providers := b.providers)
    {
      var settings := SettingsFor(call.budgets, call.provider);
      if settings.None? {
        return NoBudget;
      }
      var r := call.Claim();
      var window := WindowAt(settings.value.period, call.now);
      var k := ProviderKey(call.provider, NormalPeriod(settings.value.period), window.start);
      working := working.(providers := EnsureProvider(working.providers, call.provider, settings.value, window));
      var usage := working.providers[k];
      if r.reservationId in usage.pool.held {
        return ProviderRefused(working.providers);
      }
      var remaining := usage.limitCents * CENT - SpentUnits(usage) - usage.pool.reservedCents * CENT;
      if remaining < r.cents * CENT {
        return ProviderRefused(working.providers);
      }
      working := working.(providers := working.providers[k := usage.(pool := usage.pool.Hold(r))]);
      b := ProviderBooked(working.providers);
    }

    /** A denial is recorded on the ledger as stored: the working copy is dropped. */
    method RecordDenial(taskId: string, reason: Reason, status: string) returns (outcome: Option<Decision>)
      modifies this`stored
      ensures Effect(stored, outcome) == Deny(old(stored), taskId, reason, status)
    {
      var state := stored;
      state := state.(denials := LastFifty(state.denials + [Denial(Strip(taskId), reason)]));
      var saved := Save(state);
      outcome := if saved then Some(Decision(false, Some(reason), None, 0, [], status)) else None;
    }

    method ReserveExecution(call: ReserveCall) returns (outcome: Option<Decision>)
      modifies this
      ensures Effect(stored, outcome) == Reserve(old(stored), call)
    {
      var cached := CachePolicyFromGovernance(call.bundlePolicy);
      if cached.None? {
        return None;
      }
      working := stored;
      var policy := working.policy;
      var status := PolicyStatus(policy);
      if policy.None? || status != "active" {
        var booking := ReserveProviderBudget(call);
        if booking.ProviderRefused? {
          outcome := RecordDenial(call.taskId, ProviderBudgetExhausted, status);
          return;
        }
        if booking.NoBudget? {
          return Some(Decision(true, None, None, 0, [], status));
        }
        var saved := Save(working);
        return if saved then Some(Decision(true, None, Some(ReservationId(call.taskId)), call.cents, [], status)) else None;
      }

      var now: Moment := call.now;
      var gs := SelectGrants(policy.value.grants, call.request, call.provider, now.Instant());
      if gs == [] {
        outcome := RecordDenial(call.taskId, MissingBudgetGrant, status);
        return;
      }
      var refusal := BookOnGrants(gs, call.Claim());
      if refusal.Some? {
        outcome := RecordDenial(call.taskId, refusal.value, status);
        return;
      }
      var booking := ReserveProviderBudget(call);
      if booking.ProviderRefused? {
        RollbackReservations(gs, |gs|, call.Claim());
        outcome := RecordDenial(call.taskId, ProviderBudgetExhausted, status);
        return;
      }
      var saved := Save(working);
      outcome := if saved then Some(Granted(call, gs, status)) else None;
    }

    /** Settle the reservation on one grant entry, if it is held there. */
    method FinalizeUsage(g: string, id: string, metrics: Option<Metrics>, completed: bool) returns (applied: Option<int>)
      requires g in working.grants
      modifies this`working
      ensures var u := old(working).grants[g];
        && applied == GrantCharged(id, metrics)(u)
        && working == old(working).(
             grants := old(working).grants[g := FinalizeGrant(u, id, metrics, completed)],
             summaries := old(working).summaries + GrantSummary(u, id, metrics, completed))
    {
      hide FinalCents, Tokens, SummaryOf;
      var usage := working.grants[g];
      if id !in usage.pool.held {
        assert working.grants[g := usage] == working.grants;
        return None;
      }
      var finalCents := FinalCents(metrics);
      var reserved := usage.pool.held[id].cents;
      usage := usage.(pool := usage.pool.Return(id, reserved));
      applied := Some(if finalCents.Some? then finalCents.value else reserved);
      if completed {
        usage := usage.(usedCents := usage.usedCents + Max(applied.value, 0));
        usage := usage.(usedRequests := usage.usedRequests + 1);
        usage := usage.(usedTokens := usage.usedTokens + Tokens(metrics));
        working := working.(summaries := working.summaries + [SummaryOf(usage)]);
      }
      working := working.(grants := working.grants[g := usage]);
    }

    method FinalizeGrantUsage(id: string, metrics: Option<Metrics>, completed: bool) returns (report: map<string, int>)
      modifies this`working
      ensures var m := old(working).grants;
        && report == Report(m, m.Keys, GrantCharged(id, metrics))
        && working == old(working).(
             grants := Visit(m, m.Keys, GrantFinalizer(id, metrics, completed)),
             summaries := SortedSummaries(old(working).summaries, m, id, metrics, completed))
    {
      hide FinalizeGrant, GrantSummary, GrantCharge, GrantCharged, Visit, Report;
      ghost var m := working.grants;
      ghost var queued := working.summaries;
      report := map[];
      var order := SortSet(working.grants.Keys);
      VisitNone(m, GrantFinalizer(id, metrics, completed), GrantCharged(id, metrics));
      assert Elements(order[..0]) == {};
      for i := 0 to |order|
        invariant working.grants == Visit(m, Elements(order[..i]), GrantFinalizer(id, metrics, completed))
        invariant report == Report(m, Elements(order[..i]), GrantCharged(id, metrics))
        invariant working == old(working).(grants := working.grants, summaries := working.summaries)
        invariant working.summaries == Summaries(queued, m, order, i, id, metrics, completed)
      {
        NextInOrder(order, i);
        VisitOne(m, Elements(order[..i]), GrantFinalizer(id, metrics, completed), GrantCharged(id, metrics), order[i]);
        var applied := FinalizeUsage(order[i], id, metrics, completed);
        if applied.Some? {
          report := report[order[i] := applied.value];
        }
      }
      AllInOrder(order, m.Keys);
    }

    method FinalizeExecution(taskId: string, metrics: Option<Metrics>, status: string) returns (outcome: Option<Settlement>)
      modifies this
      ensures Effect(stored, outcome) == Finalize(old(stored), taskId, metrics, status == "completed")
    {
      working := stored;
      var id := ReservationId(taskId);
      var grantReport := FinalizeGrantUsage(id, metrics, status == "completed");
      var providerReport := FinalizeProviderBudget(id, metrics, status == "completed");
      outcome := SaveSettlement(Settlement(grantReport, providerReport));
    }

    lemma NextInOrder(order: seq<string>, i: nat)
      requires StrictlySorted(order) && i < |order|
      ensures order[i] !in Elements(order[..i])
      ensures Elements(order[..i + 1]) == Elements(order[..i]) + {order[i]}
    {
      assert order[..i + 1] == order[..i] + [order[i]];
      BeforeIsTotalOrder(order[i], order[i], order[i]);
    }

    /** Save the settled working copy, unless nothing was settled. */
    method SaveSettlement(report: Settlement) returns (outcome: Option<Settlement>)
      modifies this`stored
      ensures Effect(stored, outcome) == SettleEffect(old(stored), working, report)
    {
      if report.grants != map[] || report.providers != map[] {
        var saved := Save(working);
        outcome := if saved then Some(report) else None;
      } else {
        outcome := Some(report);
      }
    }

    /** Settle the reservation on one provider entry, if it is held there. */
    method FinalizeProviderUsage(k: ProviderKey, id: string, metrics: Option<Metrics>, completed: bool) returns (applied: Option<int>)
      requires k in working.providers
      modifies this`working
      ensures var u := old(working).providers[k];
        && applied == ProviderCharged(id, metrics)(u)
        && working == old(working).(providers := old(working).providers[k := FinalizeProvider(u, id, metrics, completed)])
    {
      var usage := working.providers[k];
      if id !in usage.pool.held {
        assert working.providers[k := usage] == working.providers;
        return None;
      }
      var finalCents := FinalCents(metrics);
      usage := usage.(pool := usage.pool.Return(id, usage.pool.held[id].cents));
      applied := Some(if finalCents.Some? then finalCents.value else 0);
      if completed {
        usage := usage.(usedUnits := Max(usage.usedUnits, 0) + FinalUnits(metrics));
        usage := usage.(usedCents := Max(CeilCents(usage.usedUnits), 0));
      }
      working := working.(providers := working.providers[k := usage]);
    }

    method FinalizeProviderBudget(id: string, metrics: Option<Metrics>, completed: bool) returns (report: map<ProviderKey, int>)
      modifies this`working
      ensures var m := old(working).providers;
        && working == old(working).(providers := Visit(m, m.Keys, ProviderFinalizer(id, metrics, completed)))
        && report == Report(m, m.Keys, ProviderCharged(id, metrics))
    {
      hide Visit, Report, FinalizeProvider, ProviderCharged;
      ghost var m := working.providers;
      var left := working.providers.Keys;
      report := map[];
      VisitNone(m, ProviderFinalizer(id, metrics, completed), ProviderCharged(id, metrics));
      assert m.Keys - left == {};
      while left != {}
        invariant left <= m.Keys
        invariant working == old(working).(providers := working.providers)
        invariant working.providers == Visit(m, m.Keys - left, ProviderFinalizer(id, metrics, completed))
        invariant report == Report(m, m.Keys - left, ProviderCharged(id, metrics))
        decreases left
      {
        var k :| k in left;
        VisitOne(m, m.Keys - left, ProviderFinalizer(id, metrics, completed), ProviderCharged(id, metrics), k);
        assert m.Keys - (left - {k}) == m.Keys - left + {k};
        var applied := FinalizeProviderUsage(k, id, metrics, completed);
        if applied.Some? {
          report := report[k := applied.value];
        }
        left := left - {k};
      }
      assert m.Keys - {} == m.Keys;
    }

    method ReleaseExecution(taskId: string) returns (outcome: Option<Settlement>)
      modifies this
      ensures Effect(stored, outcome) == Release(old(stored), taskId)
    {
      working := stored;
      var id := ReservationId(taskId);
      var grantReport := ReleaseGrantUsage(id);
      var providerReport := ReleaseProviderBudget(id);
      outcome := SaveSettlement(Settlement(grantReport, providerReport));
    }

    method ReleaseGrantUsage(id: string) returns (report: map<string, int>)
      modifies this`working
      ensures var m := old(working).grants;
        && working == old(working).(grants := Visit(m, m.Keys, GrantReleaser(id)))
        && report == Report(m, m.Keys, GrantReturned(id))
    {
      hide Visit, Report;
      ghost var m := working.grants;
      var left := working.grants.Keys;
      report := map[];
      VisitNone(m, GrantReleaser(id), GrantReturned(id));
      assert m.Keys - left == {};
      while left != {}
        invariant left <= m.Keys
        invariant working == old(working).(grants := working.grants)
        invariant working.grants == Visit(m, m.Keys - left, GrantReleaser(id))
        invariant report == Report(m, m.Keys - left, GrantReturned(id))
        decreases left
      {
        var g :| g in left;
        VisitOne(m, m.Keys - left, GrantReleaser(id), GrantReturned(id), g);
        assert m.Keys - (left - {g}) == m.Keys - left + {g};
        var usage := working.grants[g];
        if id in usage.pool.held {
          var reserved := usage.pool.held[id].cents;
          working := working.(grants := working.grants[g := usage.(pool := usage.pool.Return(id, reserved))]);
          report := report[g := reserved];
        }
        left := left - {g};
      }
      assert m.Keys - {} == m.Keys;
    }

    method ReleaseProviderBudget(id: string) returns (report: map<ProviderKey, int>)
      modifies this`working
      ensures var m := old(working).providers;
        && working == old(working).(providers := Visit(m, m.Keys, ProviderReleaser(id)))
        && report == Report(m, m.Keys, ProviderReturned(id))
    {
      hide Visit, Report;
      ghost var m := working.providers;
      var left := working.providers.Keys;
      report := map[];
      VisitNone(m, ProviderReleaser(id), ProviderReturned(id));
      assert m.Keys - left == {};
      while left != {}
        invariant left <= m.Keys
        invariant working == old(working).(providers := working.providers)
        invariant working.providers == Visit(m, m.Keys - left, ProviderReleaser(id))
        invariant report == Report(m, m.Keys - left, ProviderReturned(id))
        decreases left
      {
        var k :| k in left;
        VisitOne(m, m.Keys - left, ProviderReleaser(id), ProviderReturned(id), k);
        assert m.Keys - (left - {k}) == m.Keys - left + {k};
        var usage := working.providers[k];
        if id in usage.pool.held {
          var reserved := usage.pool.held[id].cents;
          working := working.(providers := working.providers[k := usage.(pool := usage.pool.Return(id, reserved))]);
          report := report[k := reserved];
        }
        left := left - {k};
      }
      assert m.Keys - {} == m.Keys;
    }
  }

  lemma AllInOrder(order: seq<string>, keys: set<string>)
    requires forall x :: x in order <==> x in keys
    ensures Elements(order[..|order|]) == keys
  {
    assert order[..|order|] == order;
  }
}
