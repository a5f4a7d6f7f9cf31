/** Spending over whole runs: every entry's counters add up the charges made to
    it, no grant and no provider is committed beyond its limit by more than its
    tasks overran, and the two ledgers round apart by less than a cent a task. */
module BudgetLimits {
  import opened Text
  import opened Money
  import opened Calendar
  import opened BudgetLedger
  import opened BudgetRollback
  import opened BudgetRuns
  import opened BudgetSettlement

  // ---- Charges ----------------------------------------------------------

  /** One completed task that still held a reservation when it was finalized. */
  datatype Charge = Charge(id: string, reservedCents: int, metrics: Option<Metrics>)

  function CentsOf(c: Charge): int {
    Max(GrantCharge(c.metrics, c.reservedCents), 0)
  }

  function TokensOf(c: Charge): int {
    Tokens(c.metrics)
  }

  function UnitsOf(c: Charge): int {
    FinalUnits(c.metrics)
  }

  /** How far the charge went beyond what was reserved for it. */
  function OverrunCents(c: Charge): int {
    Max(CentsOf(c) - c.reservedCents, 0)
  }

  function OverrunUnits(c: Charge): int {
    Max(UnitsOf(c) - c.reservedCents * CENT, 0)
  }

  function SumBy(cs: seq<Charge>, f: Charge -> int): int {
    if cs == [] then 0 else SumBy(cs[..|cs| - 1], f) + f(cs[|cs| - 1])
  }

  lemma SumByAppend(cs: seq<Charge>, c: Charge, f: Charge -> int)
    ensures SumBy(cs + [c], f) == SumBy(cs, f) + f(c)
  {
    assert (cs + [c])[..|cs|] == cs;
  }

  lemma {:induction false} SumByIsNonNegative(cs: seq<Charge>, f: Charge -> int)
    requires forall c :: f(c) >= 0
    ensures SumBy(cs, f) >= 0
  {
    if cs != [] { SumByIsNonNegative(cs[..|cs| - 1], f); }
  }

  /** Whether a finalize call charges a task to an entry with the pool `p`. */
  ghost predicate ChargesPool(l: Ledger, e: Event, p: Pool) {
    e.FinalizeEvent? && e.completed && ReservationId(e.taskId) in p.held && Returns(l, e)
  }

  ghost function ChargeTo(e: Event, p: Pool): Charge
    requires e.FinalizeEvent? && ReservationId(e.taskId) in p.held
  {
    var id := ReservationId(e.taskId);
    Charge(id, p.held[id].cents, e.metrics)
  }

  /** A granted reservation that found the entry in another period and emptied it. */
  ghost predicate Wipes(l: Ledger, e: Event, k: string) {
    && e.ReserveEvent?
    && !NotGranted(Reserve(l, e.call))
    && k in l.grants
    && PeriodChanges(l.grants, GrantsFor(l, e.call), |GrantsFor(l, e.call)|, k)
  }

  /** The grants a reserve call books on: the applicable ones of the policy then in force. */
  ghost function GrantsFor(l: Ledger, call: ReserveCall): seq<Grant> {
    var cached := CachePolicy(l, call.bundlePolicy).stored;
    if Governed(cached.policy) then ApplicableGrants(cached.policy.value, call) else []
  }

  ghost predicate PeriodChanges(m: Grants, gs: seq<Grant>, n: nat, k: string)
    requires n <= |gs|
  {
    k in m && exists i :: 0 <= i < n && GrantKey(gs[i]) == k && !SamePeriod(m[k], gs[i])
  }

  ghost function NextCharges(l: Ledger, e: Event, k: string, cs: seq<Charge>): seq<Charge> {
    if Wipes(l, e, k) then []
    else if k in l.grants && ChargesPool(l, e, l.grants[k].pool) then cs + [ChargeTo(e, l.grants[k].pool)]
    else cs
  }

  ghost function NextProviderCharges(l: Ledger, e: Event, k: ProviderKey, cs: seq<Charge>): seq<Charge> {
    if k in l.providers && ChargesPool(l, e, l.providers[k].pool) then cs + [ChargeTo(e, l.providers[k].pool)] else cs
  }

  /** The charges to a grant in the first `n` calls, since its period last changed. */
  ghost function Charges(es: seq<Event>, n: nat, k: string): seq<Charge>
    requires n <= |es|
  {
    if n == 0 then [] else NextCharges(After(es, n - 1), es[n - 1], k, Charges(es, n - 1, k))
  }

  /** The charges to a provider entry in the first `n` calls. */
  ghost function ProviderCharges(es: seq<Event>, n: nat, k: ProviderKey): seq<Charge>
    requires n <= |es|
  {
    if n == 0 then [] else NextProviderCharges(After(es, n - 1), es[n - 1], k, ProviderCharges(es, n - 1, k))
  }

  // ---- What one booking does to one entry -------------------------------

  predicate SameCounters(u: GrantUsage, v: GrantUsage) {
    && u.periodStart == v.periodStart && u.periodEnd == v.periodEnd
    && u.usedCents == v.usedCents && u.usedRequests == v.usedRequests && u.usedTokens == v.usedTokens
  }

  predicate ZeroCounters(u: GrantUsage) {
    u.usedCents == 0 && u.usedRequests == 0 && u.usedTokens == 0
  }

  /** Counters survive a booking in the same period and start from zero otherwise. */
  ghost predicate CountersCarry(m: Grants, booked: Grants, changes: bool, k: string) {
    && (k in m ==> k in booked)
    && (k in booked ==> if k in m && !changes then SameCounters(booked[k], m[k]) else ZeroCounters(booked[k]))
  }

  lemma CarryOneMore(m: Grants, before: Grants, gs: seq<Grant>, n: nat, r: Reservation, k: string)
    requires 0 < n <= |gs|
    ensures CountersCarry(m, before, PeriodChanges(m, gs, n - 1, k), k) ==>
              CountersCarry(m, BookGrant(before, gs[n - 1], n - 1, r).grants, PeriodChanges(m, gs, n, k), k)
  {
    hide GrantKey, HasRoom;
    assert PeriodChanges(m, gs, n, k) <==>
           PeriodChanges(m, gs, n - 1, k) || (k in m && GrantKey(gs[n - 1]) == k && !SamePeriod(m[k], gs[n - 1]));
  }

  lemma {:induction false} BookingCarriesCounters(m: Grants, gs: seq<Grant>, n: nat, r: Reservation, k: string)
    requires n <= |gs|
    ensures var b := BookGrants(m, gs, n, r);
      b.Booked? ==> CountersCarry(m, b.grants, PeriodChanges(m, gs, n, k), k)
  {
    if n == 0 {
      assert !PeriodChanges(m, gs, 0, k);
    } else {
      hide BookGrant, CountersCarry, PeriodChanges, GrantKey;
      BookingCarriesCounters(m, gs, n - 1, r, k);
      CarryOneMore(m, BookGrants(m, gs, n - 1, r).grants, gs, n, r, k);
    }
  }

  /** Every grant of the list that uses `k` has a limit of at most `limit`. */
  ghost predicate LimitedTo(gs: seq<Grant>, k: string, limit: int) {
    forall i :: 0 <= i < |gs| && GrantKey(gs[i]) == k ==> 0 < gs[i].maxCostCents <= limit
  }

  ghost predicate WithinLimit(m: Grants, k: string, limit: int) {
    k in m && m[k].usedCents + m[k].pool.reservedCents <= limit
  }

  lemma BookedWithinLimit(m: Grants, g: Grant, at: nat, r: Reservation, k: string, limit: int)
    requires GrantKey(g) == k ==> 0 < g.maxCostCents <= limit
    ensures var b := BookGrant(m, g, at, r);
      b.Booked? && (WithinLimit(m, k, limit) || GrantKey(g) == k) ==> WithinLimit(b.grants, k, limit)
  {
    hide GrantKey;
  }

  /** A granted reservation leaves every grant it booked on within its limit. */
  lemma {:induction false} BookingStaysWithinLimit(m: Grants, gs: seq<Grant>, n: nat, r: Reservation, k: string, limit: int)
    requires n <= |gs| && LimitedTo(gs, k, limit)
    ensures var b := BookGrants(m, gs, n, r);
      b.Booked? && Uses(gs, n, k) ==> WithinLimit(b.grants, k, limit)
  {
    if n > 0 {
      assert GrantKey(gs[n - 1]) == k ==> 0 < gs[n - 1].maxCostCents <= limit;
      hide BookGrant, WithinLimit, GrantKey, Uses, LimitedTo;
      UsesStep(gs, n, k);
      BookingStaysWithinLimit(m, gs, n - 1, r, k, limit);
      BookedWithinLimit(BookGrants(m, gs, n - 1, r).grants, gs[n - 1], n - 1, r, k, limit);
    }
  }

  // ---- Counters are the charges -----------------------------------------

  /** The counters of grant `k` are the number, the cents and the tokens of its charges. */
  ghost predicate Tallied(l: Ledger, k: string, cs: seq<Charge>) {
    if k in l.grants then
      && l.grants[k].usedRequests == |cs|
      && l.grants[k].usedCents == SumBy(cs, CentsOf)
      && l.grants[k].usedTokens == SumBy(cs, TokensOf)
    else cs == []
  }

  ghost predicate Within(l: Ledger, k: string, limit: int, cs: seq<Charge>) {
    k in l.grants ==>
      l.grants[k].usedCents + l.grants[k].pool.reservedCents <= limit + SumBy(cs, OverrunCents)
  }

  /** What a call other than a reservation makes of one grant entry. */
  ghost function SettledGrant(l: Ledger, e: Event, u: GrantUsage): GrantUsage {
    if e.FinalizeEvent? && Returns(l, e) then FinalizeGrant(u, ReservationId(e.taskId), e.metrics, e.completed)
    else if e.ReleaseEvent? && Returns(l, e) then ReleaseGrant(u, ReservationId(e.taskId))
    else u
  }

  lemma SettleStepOnGrant(l: Ledger, e: Event, k: string)
    requires !e.ReserveEvent?
    ensures k in Step(l, e).grants <==> k in l.grants
    ensures k in l.grants ==> Step(l, e).grants[k] == SettledGrant(l, e, l.grants[k])
  {
    hide ValidLedger, ReservationId, SortedSummaries, FinalizeReport, ReleaseReport, GrantCharge;
    if e.FinalizeEvent? { ReportsIfHeld(l, ReservationId(e.taskId), e.metrics); }
    if e.ReleaseEvent? { ReportsIfHeld(l, ReservationId(e.taskId), None); }
  }

  lemma ReserveStepOnGrants(l: Ledger, call: ReserveCall)
    ensures var gs := GrantsFor(l, call);
      var b := BookGrants(l.grants, gs, |gs|, call.Claim());
      if NotGranted(Reserve(l, call)) then Reserve(l, call).stored.grants == l.grants
      else b.Booked? && Reserve(l, call).stored.grants == b.grants
  {
    RefusedReserveKeepsUsage(l, call);
    if !NotGranted(Reserve(l, call)) { GrantedReserve(l, call); }
    hide ValidLedger, Reserve, BookGrants, BookProvider, ApplicableGrants, PolicyStatus, ReservationId;
  }

  lemma TallyReserveStep(l: Ledger, e: Event, k: string, cs: seq<Charge>)
    requires e.ReserveEvent? && Tallied(l, k, cs)
    ensures Tallied(Step(l, e), k, NextCharges(l, e, k, cs))
  {
    hide Step, Reserve, ReservationId, BookGrants, GrantsFor, PeriodChanges;
    var gs := GrantsFor(l, e.call);
    ReserveStepOnGrants(l, e.call);
    StepOfReserve(l, e.call);
    BookingCarriesCounters(l.grants, gs, |gs|, e.call.Claim(), k);
  }

  lemma TallySettleStep(l: Ledger, e: Event, k: string, cs: seq<Charge>)
    requires !e.ReserveEvent? && Tallied(l, k, cs)
    ensures Tallied(Step(l, e), k, NextCharges(l, e, k, cs))
  {
    hide Step, ReservationId, Returns, CentsOf, TokensOf, FinalizeGrant, ReleaseGrant;
    SettleStepOnGrant(l, e, k);
    if k in l.grants && e.FinalizeEvent? {
      FinalizeCounts(l.grants[k], ReservationId(e.taskId), e.metrics, e.completed);
      if ChargesPool(l, e, l.grants[k].pool) {
        SumByAppend(cs, ChargeTo(e, l.grants[k].pool), CentsOf);
        SumByAppend(cs, ChargeTo(e, l.grants[k].pool), TokensOf);
      }
    }
    if k in l.grants && e.ReleaseEvent? { ReleaseCounts(l.grants[k], ReservationId(e.taskId)); }
  }

  /** Finalizing adds one charge to the counters if its task completed while held, and releasing none. */
  lemma FinalizeCounts(u: GrantUsage, id: string, metrics: Option<Metrics>, completed: bool)
    ensures var v := FinalizeGrant(u, id, metrics, completed);
      if completed && id in u.pool.held then
        var c := Charge(id, u.pool.held[id].cents, metrics);
        && v.usedRequests == u.usedRequests + 1
        && v.usedCents == u.usedCents + CentsOf(c)
        && v.usedTokens == u.usedTokens + TokensOf(c)
      else SameCounters(v, u)
  {
  }

  lemma ReleaseCounts(u: GrantUsage, id: string)
    ensures SameCounters(ReleaseGrant(u, id), u)
  {
  }

  lemma TallyStep(l: Ledger, e: Event, k: string, cs: seq<Charge>)
    requires Tallied(l, k, cs)
    ensures Tallied(Step(l, e), k, NextCharges(l, e, k, cs))
  {
    hide *;
    if e.ReserveEvent? { TallyReserveStep(l, e, k, cs); } else { TallySettleStep(l, e, k, cs); }
  }

  lemma StepOfReserve(l: Ledger, call: ReserveCall)
    ensures Step(l, ReserveEvent(call)) == Reserve(l, call).stored
  {
    hide Reserve;
  }

  /** In every run the counters of a grant are exactly the charges made to it
      since its period last changed: each completed task that still held a
      reservation there counts once. */
  lemma {:induction false} CountersAreCharges(es: seq<Event>, n: nat, k: string)
    requires n <= |es|
    ensures Tallied(After(es, n), k, Charges(es, n, k))
  {
    hide Step, NextCharges, Tallied;
    if n == 0 {
      NothingTallied(k);
    } else {
      CountersAreCharges(es, n - 1, k);
      TallyStep(After(es, n - 1), es[n - 1], k, Charges(es, n - 1, k));
    }
  }

  lemma NothingTallied(k: string)
    ensures Tallied(EMPTY_LEDGER, k, [])
  {
  }

  // ---- No over-commitment of a grant ------------------------------------

  lemma FinalizeStaysWithin(u: GrantUsage, id: string, metrics: Option<Metrics>, completed: bool)
    requires u.pool.Balanced()
    ensures var v := FinalizeGrant(u, id, metrics, completed);
      v.usedCents + v.pool.reservedCents <= u.usedCents + u.pool.reservedCents +
        if completed && id in u.pool.held then OverrunCents(Charge(id, u.pool.held[id].cents, metrics)) else 0
    ensures ReleaseGrant(u, id).usedCents == u.usedCents
    ensures ReleaseGrant(u, id).pool.reservedCents <= u.pool.reservedCents
  {
    if id in u.pool.held { SettleStaysBalanced(u.pool, id); }
  }

  lemma WithinStep(l: Ledger, e: Event, k: string, limit: int, cs: seq<Charge>)
    requires SoundGrants(l.grants) && Within(l, k, limit, cs)
    requires e.ReserveEvent? ==> LimitedTo(GrantsFor(l, e.call), k, limit)
    ensures Within(Step(l, e), k, limit, NextCharges(l, e, k, cs))
  {
    hide Step, Reserve, ReservationId, BookGrants, GrantsFor, PeriodChanges, Returns, FinalizeGrant, ReleaseGrant, OverrunCents, LimitedTo;
    OverrunsAreNonNegative(cs);
    if e.ReserveEvent? {
      var gs := GrantsFor(l, e.call);
      ReserveStepOnGrants(l, e.call);
      StepOfReserve(l, e.call);
      BookingStaysWithinLimit(l.grants, gs, |gs|, e.call.Claim(), k, limit);
      if !Uses(gs, |gs|, k) {
        BookingLeavesOthers(l.grants, gs, |gs|, e.call.Claim(), k);
        UnusedIsUnchanged(l.grants, gs, k);
      }
    } else {
      SettleStepOnGrant(l, e, k);
      if k in l.grants {
        var u := l.grants[k];
        assert SoundGrant(k, u);
        if e.FinalizeEvent? || e.ReleaseEvent? {
          FinalizeStaysWithin(u, ReservationId(e.taskId), if e.FinalizeEvent? then e.metrics else None, e.FinalizeEvent? && e.completed);
        }
        if ChargesPool(l, e, u.pool) { SumByAppend(cs, ChargeTo(e, u.pool), OverrunCents); }
      }
    }
  }

  lemma OverrunsAreNonNegative(cs: seq<Charge>)
    ensures SumBy(cs, OverrunCents) >= 0 && SumBy(cs, OverrunUnits) >= 0
    ensures SumBy([], OverrunCents) == 0
  {
    SumByIsNonNegative(cs, OverrunCents);
    SumByIsNonNegative(cs, OverrunUnits);
  }

  lemma UnusedIsUnchanged(m: Grants, gs: seq<Grant>, k: string)
    requires !Uses(gs, |gs|, k)
    ensures !PeriodChanges(m, gs, |gs|, k)
  {
  }

  /** However calls interleave, a grant whose limit in every policy met so far
      is positive and at most `limit` is never committed beyond it by more
      than its completed tasks, since its period last changed, cost above
      what they had reserved. */
  lemma {:induction false} NoGrantIsOvercommitted(es: seq<Event>, n: nat, k: string, limit: nat)
    requires n <= |es|
    requires forall i :: 0 <= i < n && es[i].ReserveEvent? ==> LimitedTo(GrantsFor(After(es, i), es[i].call), k, limit)
    ensures Within(After(es, n), k, limit, Charges(es, n, k))
  {
    hide Step, NextCharges, GrantsFor, Sound, SoundGrants, LimitedTo;
    if n > 0 {
      NoGrantIsOvercommitted(es, n - 1, k, limit);
      EveryLedgerIsSound(es, n - 1);
      SoundHasSoundParts(After(es, n - 1));
      hide Within;
      WithinStep(After(es, n - 1), es[n - 1], k, limit, Charges(es, n - 1, k));
    }
  }

  lemma SoundHasSoundParts(l: Ledger)
    requires Sound(l)
    ensures SoundGrants(l.grants) && SoundProviders(l.providers)
  {
    hide ValidLedger, SoundGrants, SoundProviders;
  }

  // ---- No over-commitment of a provider ---------------------------------

  ghost predicate ProviderTallied(l: Ledger, k: ProviderKey, cs: seq<Charge>) {
    if k in l.providers then l.providers[k].usedUnits == SumBy(cs, UnitsOf) else cs == []
  }

  ghost predicate ProviderWithin(l: Ledger, k: ProviderKey, cs: seq<Charge>) {
    k in l.providers ==>
      l.providers[k].usedUnits + l.providers[k].pool.reservedCents * CENT
      <= Max(l.providers[k].limitCents, 0) * CENT + SumBy(cs, OverrunUnits)
  }

  ghost function SettledProvider(l: Ledger, e: Event, u: ProviderUsage): ProviderUsage {
    if e.FinalizeEvent? && Returns(l, e) then FinalizeProvider(u, ReservationId(e.taskId), e.metrics, e.completed)
    else if e.ReleaseEvent? && Returns(l, e) then ReleaseProvider(u, ReservationId(e.taskId))
    else u
  }

  lemma SettleStepOnProvider(l: Ledger, e: Event, k: ProviderKey)
    requires !e.ReserveEvent?
    ensures k in Step(l, e).providers <==> k in l.providers
    ensures k in l.providers ==> Step(l, e).providers[k] == SettledProvider(l, e, l.providers[k])
  {
    hide ValidLedger, ReservationId, SortedSummaries, FinalizeReport, ReleaseReport, FinalUnits, CeilCents;
    if e.FinalizeEvent? { ReportsIfHeld(l, ReservationId(e.taskId), e.metrics); }
    if e.ReleaseEvent? { ReportsIfHeld(l, ReservationId(e.taskId), None); }
  }

  /** What a granted booking makes of one provider entry: the same spend and
      limit as before, or none yet, and a commitment within the limit. */
  ghost predicate BookedProvider(m: Providers, booked: Providers, k: ProviderKey) {
    && (k in m ==> k in booked && booked[k].usedUnits == m[k].usedUnits && booked[k].limitCents == m[k].limitCents)
    && (k in booked && k !in m ==> booked[k].usedUnits == 0)
    && (k in booked ==>
          || (k in m && booked[k] == m[k])
          || booked[k].usedUnits + booked[k].pool.reservedCents * CENT <= booked[k].limitCents * CENT)
  }

  lemma SpentIsUsed(k: ProviderKey, u: ProviderUsage)
    requires SoundProvider(k, u)
    ensures SpentUnits(u) == u.usedUnits
  {
  }

  lemma BookingProviderStaysWithin(m: Providers, call: ReserveCall, k: ProviderKey)
    requires SoundProviders(m)
    ensures var b := BookProvider(m, call.provider, call.budgets, call.now, call.Claim());
      b.ProviderBooked? ==> BookedProvider(m, b.providers, k)
  {
    hide WindowAt, NormalPeriod, SettingsFor, ReservationId, EnsureProvider, BookedProvider, ProviderHasRoom;
    var settings := SettingsFor(call.budgets, call.provider);
    if settings.Some? {
      var s := settings.value;
      var window := WindowAt(s.period, call.now);
      var key := ProviderKey(call.provider, NormalPeriod(s.period), window.start);
      EnsuringProviderSpendsNothing(m, call.provider, s, window, k);
      HoldingProviderStaysWithin(m, EnsureProvider(m, call.provider, s, window), key, call.Claim(), k);
    }
  }

  /** Making sure of a provider entry leaves the others alone and starts a new one without spend. */
  ghost predicate EnsuredProvider(m: Providers, ensured: Providers, k: ProviderKey) {
    && (k in m ==> k in ensured && ensured[k] == m[k])
    && (k in ensured && k !in m ==> ensured[k].usedUnits == 0 && ensured[k].usedCents == 0 && ensured[k].pool == EMPTY_POOL)
  }

  lemma EnsuringProviderSpendsNothing(m: Providers, provider: string, s: Settings, window: Window, k: ProviderKey)
    ensures EnsuredProvider(m, EnsureProvider(m, provider, s, window), k)
    ensures k in EnsureProvider(m, provider, s, window) && k !in m ==> k == ProviderKey(provider, NormalPeriod(s.period), window.start)
  {
    hide NormalPeriod;
  }

  lemma HoldingProviderStaysWithin(m: Providers, ensured: Providers, key: ProviderKey, r: Reservation, k: ProviderKey)
    requires SoundProviders(m) && key in ensured && EnsuredProvider(m, ensured, k)
    requires k in ensured && k !in m ==> k == key
    ensures ProviderHasRoom(ensured[key], r.cents) ==>
              BookedProvider(m, ensured[key := ensured[key].(pool := ensured[key].pool.Hold(r))], k)
  {
    hide SpentUnits, SoundProvider;
    if k in m { SpentIsUsed(k, m[k]); }
    if k in ensured && k !in m { NothingSpent(ensured[k]); }
  }

  lemma NothingSpent(u: ProviderUsage)
    requires u.usedUnits == 0 && u.usedCents == 0
    ensures SpentUnits(u) == 0
  {
  }

  lemma ReserveStepOnProviders(l: Ledger, call: ReserveCall, k: ProviderKey)
    requires SoundProviders(l.providers)
    ensures BookedProvider(l.providers, Reserve(l, call).stored.providers, k)
  {
    hide ValidLedger, Reserve, BookGrants, BookProvider, ApplicableGrants, PolicyStatus, ReservationId, SoundProviders;
    RefusedReserveKeepsUsage(l, call);
    BookingProviderStaysWithin(l.providers, call, k);
    if !NotGranted(Reserve(l, call)) { GrantedReserve(l, call); }
  }

  lemma ReservingChargesNoProvider(l: Ledger, e: Event, k: ProviderKey, cs: seq<Charge>)
    requires e.ReserveEvent?
    ensures NextProviderCharges(l, e, k, cs) == cs
  {
    hide Returns, ReservationId;
  }

  lemma NothingCharged()
    ensures SumBy([], UnitsOf) == 0 && SumBy([], OverrunUnits) == 0
  {
  }

  lemma ProviderTallyReserveStep(l: Ledger, e: Event, k: ProviderKey, cs: seq<Charge>)
    requires e.ReserveEvent? && SoundProviders(l.providers) && ProviderTallied(l, k, cs)
    ensures ProviderTallied(Step(l, e), k, NextProviderCharges(l, e, k, cs))
  {
    hide Step, Reserve, SoundProviders, NextProviderCharges, UnitsOf, SumBy;
    ReserveStepOnProviders(l, e.call, k);
    StepOfReserve(l, e.call);
    ReservingChargesNoProvider(l, e, k, cs);
    NothingCharged();
  }

  /** Finalizing adds one charge to the exact spend if its task completed while held, and releasing none. */
  lemma FinalizeSpends(k: ProviderKey, u: ProviderUsage, id: string, metrics: Option<Metrics>, completed: bool)
    requires SoundProvider(k, u)
    ensures FinalizeProvider(u, id, metrics, completed).usedUnits == u.usedUnits +
              if completed && id in u.pool.held then UnitsOf(Charge(id, u.pool.held[id].cents, metrics)) else 0
    ensures ReleaseProvider(u, id).usedUnits == u.usedUnits
  {
    hide CeilCents, FinalUnits;
  }

  lemma ProviderTallySettleStep(l: Ledger, e: Event, k: ProviderKey, cs: seq<Charge>)
    requires !e.ReserveEvent? && SoundProviders(l.providers) && ProviderTallied(l, k, cs)
    ensures ProviderTallied(Step(l, e), k, NextProviderCharges(l, e, k, cs))
  {
    hide Step, ReservationId, Returns, SoundProvider, UnitsOf, SumBy, FinalizeProvider, ReleaseProvider;
    SettleStepOnProvider(l, e, k);
    if k in l.providers {
      var u := l.providers[k];
      assert SoundProvider(k, u);
      if e.FinalizeEvent? {
        FinalizeSpends(k, u, ReservationId(e.taskId), e.metrics, e.completed);
        if ChargesPool(l, e, u.pool) { SumByAppend(cs, ChargeTo(e, u.pool), UnitsOf); }
      }
      if e.ReleaseEvent? { FinalizeSpends(k, u, ReservationId(e.taskId), None, false); }
    }
  }

  lemma ProviderTallyStep(l: Ledger, e: Event, k: ProviderKey, cs: seq<Charge>)
    requires SoundProviders(l.providers) && ProviderTallied(l, k, cs)
    ensures ProviderTallied(Step(l, e), k, NextProviderCharges(l, e, k, cs))
  {
    hide *;
    if e.ReserveEvent? { ProviderTallyReserveStep(l, e, k, cs); } else { ProviderTallySettleStep(l, e, k, cs); }
  }

  lemma FinalizeProviderStaysWithin(k: ProviderKey, u: ProviderUsage, id: string, metrics: Option<Metrics>, completed: bool)
    requires SoundProvider(k, u)
    ensures var v := FinalizeProvider(u, id, metrics, completed);
      && v.limitCents == u.limitCents
      && v.usedUnits + v.pool.reservedCents * CENT <= u.usedUnits + u.pool.reservedCents * CENT +
           if completed && id in u.pool.held then OverrunUnits(Charge(id, u.pool.held[id].cents, metrics)) else 0
    ensures ReleaseProvider(u, id).limitCents == u.limitCents
    ensures ReleaseProvider(u, id).usedUnits == u.usedUnits
    ensures ReleaseProvider(u, id).pool.reservedCents <= u.pool.reservedCents
  {
    hide CeilCents, FinalUnits;
    if id in u.pool.held { SettleStaysBalanced(u.pool, id); }
  }

  ghost predicate KeepsLimit(l: Ledger, next: Ledger, k: ProviderKey) {
    k in l.providers ==> k in next.providers && next.providers[k].limitCents == l.providers[k].limitCents
  }

  lemma ProviderWithinReserveStep(l: Ledger, e: Event, k: ProviderKey, cs: seq<Charge>)
    requires e.ReserveEvent? && SoundProviders(l.providers) && ProviderWithin(l, k, cs)
    ensures ProviderWithin(Step(l, e), k, NextProviderCharges(l, e, k, cs)) && KeepsLimit(l, Step(l, e), k)
  {
    hide Step, Reserve, SoundProviders, NextProviderCharges, OverrunUnits, SumBy;
    OverrunsAreNonNegative(cs);
    ReserveStepOnProviders(l, e.call, k);
    StepOfReserve(l, e.call);
    ReservingChargesNoProvider(l, e, k, cs);
  }

  lemma ProviderWithinSettleStep(l: Ledger, e: Event, k: ProviderKey, cs: seq<Charge>)
    requires !e.ReserveEvent? && SoundProviders(l.providers) && ProviderWithin(l, k, cs)
    ensures ProviderWithin(Step(l, e), k, NextProviderCharges(l, e, k, cs)) && KeepsLimit(l, Step(l, e), k)
  {
    hide Step, ReservationId, Returns, SoundProvider, OverrunUnits, SumBy, FinalizeProvider, ReleaseProvider;
    SettleStepOnProvider(l, e, k);
    if k in l.providers {
      var u := l.providers[k];
      assert SoundProvider(k, u);
      if e.FinalizeEvent? {
        FinalizeProviderStaysWithin(k, u, ReservationId(e.taskId), e.metrics, e.completed);
        if ChargesPool(l, e, u.pool) {
          OverrunIsNonNegative(ChargeTo(e, u.pool));
          SumByAppend(cs, ChargeTo(e, u.pool), OverrunUnits);
        }
      }
      if e.ReleaseEvent? { FinalizeProviderStaysWithin(k, u, ReservationId(e.taskId), None, false); }
    }
  }

  lemma OverrunIsNonNegative(c: Charge)
    ensures OverrunUnits(c) >= 0
  {
  }

  lemma ProviderWithinStep(l: Ledger, e: Event, k: ProviderKey, cs: seq<Charge>)
    requires SoundProviders(l.providers) && ProviderWithin(l, k, cs)
    ensures ProviderWithin(Step(l, e), k, NextProviderCharges(l, e, k, cs)) && KeepsLimit(l, Step(l, e), k)
  {
    hide *;
    if e.ReserveEvent? { ProviderWithinReserveStep(l, e, k, cs); } else { ProviderWithinSettleStep(l, e, k, cs); }
  }

  /** In every run a provider entry's exact spend is the sum of the charges to
      it, and its commitment exceeds the limit it was created with by at
      most what its completed tasks cost above their reservations. */
  lemma {:induction false} NoProviderIsOvercommitted(es: seq<Event>, n: nat, k: ProviderKey)
    requires n <= |es|
    ensures ProviderTallied(After(es, n), k, ProviderCharges(es, n, k))
    ensures ProviderWithin(After(es, n), k, ProviderCharges(es, n, k))
  {
    hide Step, NextProviderCharges, Sound, SoundProviders;
    if n > 0 {
      NoProviderIsOvercommitted(es, n - 1, k);
      EveryLedgerIsSound(es, n - 1);
      SoundHasSoundParts(After(es, n - 1));
      hide ProviderWithin, ProviderTallied;
      ProviderTallyStep(After(es, n - 1), es[n - 1], k, ProviderCharges(es, n - 1, k));
      ProviderWithinStep(After(es, n - 1), es[n - 1], k, ProviderCharges(es, n - 1, k));
    }
  }

  /** A provider entry keeps the limit it was created with for the rest of the run. */
  lemma {:induction false} ProviderLimitIsFixed(es: seq<Event>, i: nat, n: nat, k: ProviderKey)
    requires i <= n <= |es| && k in After(es, i).providers
    ensures k in After(es, n).providers
    ensures After(es, n).providers[k].limitCents == After(es, i).providers[k].limitCents
  {
    hide Step, Sound, SoundProviders;
    if i < n {
      ProviderLimitIsFixed(es, i, n - 1, k);
      EveryLedgerIsSound(es, n - 1);
      SoundHasSoundParts(After(es, n - 1));
      NoProviderIsOvercommitted(es, n - 1, k);
      ProviderWithinStep(After(es, n - 1), es[n - 1], k, ProviderCharges(es, n - 1, k));
    }
  }

  // ---- The two ledgers round apart --------------------------------------

  ghost predicate SameTasks(a: seq<Charge>, b: seq<Charge>) {
    && |a| == |b|
    && forall i :: 0 <= i < |a| ==>
         && a[i].id == b[i].id && a[i].metrics == b[i].metrics
         && a[i].metrics.Some? && a[i].metrics.value.estimatedCost.Some?
  }

  function Costs(cs: seq<Charge>): (r: seq<int>)
    ensures |r| == |cs|
  {
    seq(|cs|, i requires 0 <= i < |cs| => UnitsOf(cs[i]))
  }

  lemma {:induction false} CostsSum(a: seq<Charge>, b: seq<Charge>)
    requires SameTasks(a, b)
    ensures SumBy(b, UnitsOf) == Sum(Costs(a))
    ensures SumBy(a, CentsOf) == SumOfCeilings(Costs(a))
  {
    if a != [] {
      var n := |a| - 1;
      assert Costs(a)[..n] == Costs(a[..n]);
      CostsSum(a[..n], b[..n]);
    }
  }

  /** When a grant and a provider entry are charged for the same tasks, all
      with an estimated cost, the provider's cents are the total rounded up,
      and the grant's cents are at least that and less than one cent a task more. */
  lemma LedgersRoundApart(es: seq<Event>, n: nat, g: string, p: ProviderKey)
    requires n <= |es| && Charges(es, n, g) != []
    requires SameTasks(Charges(es, n, g), ProviderCharges(es, n, p))
    ensures g in After(es, n).grants && p in After(es, n).providers
    ensures var provider, grant := After(es, n).providers[p].usedCents, After(es, n).grants[g].usedCents;
      && provider == CeilCents(Sum(Costs(Charges(es, n, g))))
      && provider <= grant <= provider + |Charges(es, n, g)| - 1
  {
    hide After, Charges, ProviderCharges, CeilCents, Costs, SoundGrants, ValidLedger;
    CountersAreCharges(es, n, g);
    NoProviderIsOvercommitted(es, n, p);
    EveryLedgerIsSound(es, n);
    CostsSum(Charges(es, n, g), ProviderCharges(es, n, p));
    RoundingGap(Costs(Charges(es, n, g)));
    assert SoundProvider(p, After(es, n).providers[p]);
  }
}
