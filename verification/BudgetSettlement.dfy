/** One call at a time: exactly when it can fail to save, when a reservation is
    granted, and that a task is settled at most once. */
module BudgetSettlement {
  import opened Text
  import opened Money
  import opened Calendar
  import opened BudgetLedger
  import opened BudgetRollback
  import opened BudgetRuns

  // ---- When a reservation is granted ------------------------------------

  ghost predicate DistinctKeys(gs: seq<Grant>) {
    forall i, j :: 0 <= i < j < |gs| ==> GrantKey(gs[i]) != GrantKey(gs[j])
  }

  /** The entry a grant would use, judged on its own. */
  ghost predicate Takes(m: Grants, g: Grant, r: Reservation) {
    var u := EnsureGrant(m, g)[GrantKey(g)];
    r.reservationId !in u.pool.held && HasRoom(u, g, r.cents)
  }

  lemma {:induction false} BookingLeavesOthers(m: Grants, gs: seq<Grant>, n: nat, r: Reservation, k: string)
    requires n <= |gs| && !Uses(gs, n, k)
    ensures SameAt(BookGrants(m, gs, n, r).grants, m, k)
  {
    if n > 0 {
      assert GrantKey(gs[n - 1]) != k;
      BookingLeavesOthers(m, gs, n - 1, r, k);
      BookingOneLeavesOthers(BookGrants(m, gs, n - 1, r).grants, gs[n - 1], n - 1, r, k);
    }
  }

  lemma BookingOneLeavesOthers(m: Grants, g: Grant, at: nat, r: Reservation, k: string)
    requires GrantKey(g) != k
    ensures SameAt(BookGrant(m, g, at, r).grants, m, k)
  {
    hide GrantKey, HasRoom;
  }

  lemma BookingOneIffTakes(before: Grants, m: Grants, g: Grant, at: nat, r: Reservation)
    requires SameAt(before, m, GrantKey(g))
    ensures BookGrant(before, g, at, r).Booked? <==> Takes(m, g, r)
  {
    hide GrantKey;
  }

  /** With distinct grant ids the grants take a reservation exactly when each
      of them does on its own: none holds it already and each has the room. */
  lemma {:induction false} GrantedIffEachTakes(m: Grants, gs: seq<Grant>, n: nat, r: Reservation)
    requires n <= |gs| && DistinctKeys(gs)
    ensures BookGrants(m, gs, n, r).Booked? <==> forall i :: 0 <= i < n ==> Takes(m, gs[i], r)
  {
    hide Takes, BookGrant, GrantKey, SameAt;
    if n > 0 {
      GrantedIffEachTakes(m, gs, n - 1, r);
      var before := BookGrants(m, gs, n - 1, r);
      if before.Booked? {
        BookingLeavesOthers(m, gs, n - 1, r, GrantKey(gs[n - 1]));
        BookingOneIffTakes(before.grants, m, gs[n - 1], n - 1, r);
      }
    }
  }

  /** Two applicable grants with one id and one period are always refused. */
  lemma SharedIdIsRefused(m: Grants, gs: seq<Grant>, i: nat, j: nat, r: Reservation)
    requires i < j < |gs| && GrantKey(gs[i]) == GrantKey(gs[j])
    requires forall h :: 0 <= h < |gs| && GrantKey(gs[h]) == GrantKey(gs[j]) ==>
               gs[h].periodStart == gs[j].periodStart && gs[h].periodEnd == gs[j].periodEnd
    ensures BookGrants(m, gs, |gs|, r).Refused?
  {
    hide BookGrant, GrantKey;
    BookedHereHolds(m, gs, i, j, gs[j], r);
    BookedThenRefuses(BookGrants(m, gs, j, r).grants, gs[j], j, r);
    if BookGrants(m, gs, j + 1, r).Refused? {
      StaysRefused(m, gs, j + 1, r, BookGrants(m, gs, j + 1, r));
    }
  }

  ghost predicate HoldsFor(m: Grants, g: Grant, r: Reservation) {
    GrantKey(g) in m && SamePeriod(m[GrantKey(g)], g) && r.reservationId in m[GrantKey(g)].pool.held
  }

  lemma BookedThenRefuses(m: Grants, g: Grant, at: nat, r: Reservation)
    ensures HoldsFor(m, g, r) ==> BookGrant(m, g, at, r).Refused?
  {
    hide GrantKey;
  }

  lemma BookingHolds(m: Grants, g: Grant, target: Grant, at: nat, r: Reservation)
    requires GrantKey(g) == GrantKey(target) ==> g.periodStart == target.periodStart && g.periodEnd == target.periodEnd
    ensures var b := BookGrant(m, g, at, r);
      b.Booked? && (HoldsFor(m, target, r) || GrantKey(g) == GrantKey(target)) ==> HoldsFor(b.grants, target, r)
  {
    hide GrantKey, HasRoom;
  }

  lemma {:induction false} BookedHereHolds(m: Grants, gs: seq<Grant>, i: nat, n: nat, target: Grant, r: Reservation)
    requires i < n <= |gs| && GrantKey(gs[i]) == GrantKey(target)
    requires forall h :: 0 <= h < |gs| && GrantKey(gs[h]) == GrantKey(target) ==>
               gs[h].periodStart == target.periodStart && gs[h].periodEnd == target.periodEnd
    ensures BookGrants(m, gs, n, r).Booked? ==> HoldsFor(BookGrants(m, gs, n, r).grants, target, r)
  {
    hide BookGrant, GrantKey, HoldsFor;
    if i < n - 1 { BookedHereHolds(m, gs, i, n - 1, target, r); }
    BookingHolds(BookGrants(m, gs, n - 1, r).grants, gs[n - 1], target, n - 1, r);
  }

  ghost predicate SameUsage(a: Ledger, b: Ledger) {
    a.grants == b.grants && a.providers == b.providers && a.summaries == b.summaries
  }

  ghost predicate NotGranted(e: Effect<Decision>) {
    e.outcome.None? || !e.outcome.value.allowed
  }

  lemma DenialKeepsUsage(l: Ledger, taskId: string, reason: Reason, status: string)
    ensures SameUsage(Deny(l, taskId, reason, status).stored, l)
  {
    hide ValidLedger, LastFifty, Strip;
  }

  lemma UngovernedRefusalKeepsUsage(l: Ledger, call: ReserveCall, status: string)
    ensures NotGranted(ReserveUngoverned(l, call, status)) ==> SameUsage(ReserveUngoverned(l, call, status).stored, l)
  {
    hide ValidLedger, BookProvider, ReservationId, Deny;
    DenialKeepsUsage(l, call.taskId, ProviderBudgetExhausted, status);
  }

  lemma GovernedRefusalKeepsUsage(l: Ledger, call: ReserveCall, gs: seq<Grant>, status: string)
    ensures NotGranted(ReserveGoverned(l, call, gs, status)) ==> SameUsage(ReserveGoverned(l, call, gs, status).stored, l)
  {
    hide ValidLedger, BookGrants, BookProvider, GrantKeys, ReservationId, Deny;
    forall reason { DenialKeepsUsage(l, call.taskId, reason, status); }
  }

  /** A refused or failed reserve leaves every usage entry in the store as it was. */
  lemma RefusedReserveKeepsUsage(l: Ledger, call: ReserveCall)
    ensures NotGranted(Reserve(l, call)) ==> SameUsage(Reserve(l, call).stored, l)
  {
    hide ValidLedger, ReserveGoverned, ReserveUngoverned, ApplicableGrants, PolicyStatus;
    var cached := CachePolicy(l, call.bundlePolicy).stored;
    var status := PolicyStatus(cached.policy);
    UngovernedRefusalKeepsUsage(cached, call, status);
    if cached.policy.Some? { GovernedRefusalKeepsUsage(cached, call, ApplicableGrants(cached.policy.value, call), status); }
  }

  // ---- When a call raises -----------------------------------------------

  lemma NonBlankIfFirst(s: string)
    requires s != "" && !IsSpace(s[0])
    ensures NonBlank(s)
  {
  }

  lemma StrippedIsNonBlank(s: string)
    requires NonBlank(s)
    ensures NonBlank(Strip(s))
  {
  }

  lemma ReservationIdIsNonBlank(taskId: string)
    ensures NonBlank(ReservationId(taskId))
  {
    assert !IsSpace('b');
    NonBlankIfFirst(ReservationId(taskId));
  }

  lemma PeriodIsNonBlank(period: string)
    ensures NonBlank(NormalPeriod(period))
  {
    var p := Lower(Strip(period));
    LowerIsStable(Strip(period));
    if p == "" {
      assert !IsSpace('m');
      NonBlankIfFirst("monthly");
    }
  }

  ghost predicate ValidGrants(m: Grants) {
    forall k <- m :: NonBlank(k) && ValidGrantUsage(m[k])
  }

  ghost predicate ValidProviders(m: Providers) {
    forall k <- m :: ValidProviderUsage(m[k])
  }

  lemma HeldPoolIsValid(p: Pool, r: Reservation)
    requires ValidPool(p) && r.cents >= 0 && NonBlank(r.reservationId)
    ensures ValidPool(p.Hold(r)) <==> NonBlank(r.taskId)
  {
    hide NonBlank;
    assert r.reservationId in p.Hold(r).held;
  }

  lemma EnsuredGrantsAreValid(m: Grants, g: Grant)
    requires ValidGrants(m) && ValidGrant(g)
    ensures ValidGrants(EnsureGrant(m, g))
  {
    hide NonBlank, Strip, ValidGrantUsage, GrantKey, ValidGrant;
    var k := GrantKey(g);
    GrantIsNamed(g);
    NewUsageIsValid(k, g.periodStart, g.periodEnd);
    if k in m {
      UsageIsNamed(m[k]);
      NewUsageIsValid(m[k].grantId, g.periodStart, g.periodEnd);
    }
  }

  lemma GrantIsNamed(g: Grant)
    ensures ValidGrant(g) ==> NonBlank(GrantKey(g)) && NonBlank(g.periodStart) && NonBlank(g.periodEnd)
  {
    hide NonBlank, Strip;
    if ValidGrant(g) { StrippedIsNonBlank(g.grantId); }
  }

  lemma NewUsageIsValid(grantId: string, periodStart: string, periodEnd: string)
    ensures NonBlank(grantId) && NonBlank(periodStart) && NonBlank(periodEnd) ==>
              ValidGrantUsage(GrantUsage(grantId, periodStart, periodEnd, 0, 0, 0, EMPTY_POOL))
  {
    hide NonBlank;
  }

  lemma UsageIsNamed(u: GrantUsage)
    ensures ValidGrantUsage(u) ==> NonBlank(u.grantId)
  {
    hide NonBlank, ValidPool;
  }

  lemma BookedGrantIsValid(m: Grants, g: Grant, at: nat, r: Reservation)
    requires ValidGrants(m) && ValidGrant(g) && r.cents >= 0 && NonBlank(r.reservationId) && NonBlank(r.taskId)
    ensures ValidGrants(BookGrant(m, g, at, r).grants)
  {
    hide NonBlank, GrantKey, HasRoom, EnsureGrant, ValidPool;
    EnsuredGrantsAreValid(m, g);
    HeldPoolIsValid(EnsureGrant(m, g)[GrantKey(g)].pool, r);
  }

  lemma {:induction false} BookedGrantsAreValid(m: Grants, gs: seq<Grant>, n: nat, r: Reservation)
    requires n <= |gs| && ValidGrants(m) && r.cents >= 0 && NonBlank(r.reservationId) && NonBlank(r.taskId)
    requires forall g <- gs :: ValidGrant(g)
    ensures ValidGrants(BookGrants(m, gs, n, r).grants)
  {
    hide ValidGrants, BookGrant, NonBlank, ValidGrant;
    if n > 0 {
      BookedGrantsAreValid(m, gs, n - 1, r);
      BookedGrantIsValid(BookGrants(m, gs, n - 1, r).grants, gs[n - 1], n - 1, r);
    }
  }

  lemma EnsuredProvidersAreValid(m: Providers, provider: string, s: Settings, window: Window)
    requires ValidProviders(m) && NonBlank(provider)
    ensures ValidProviders(EnsureProvider(m, provider, s, window))
  {
    PeriodIsNonBlank(s.period);
    hide NonBlank, Strip, NormalPeriod;
  }

  lemma HeldProviderIsValidIff(m: Providers, k: ProviderKey, r: Reservation)
    requires ValidProviders(m) && k in m && r.cents >= 0 && NonBlank(r.reservationId)
    ensures ValidProviders(m[k := m[k].(pool := m[k].pool.Hold(r))]) <==> NonBlank(r.taskId)
  {
    hide NonBlank, ValidPool;
    HeldPoolIsValid(m[k].pool, r);
    var held := m[k := m[k].(pool := m[k].pool.Hold(r))];
    assert ValidProviderUsage(held[k]) <==> NonBlank(r.taskId);
  }

  lemma BookedProvidersAreValid(m: Providers, provider: string, budgets: map<string, Settings>, now: Clock, r: Reservation)
    requires ValidProviders(m) && r.cents >= 0 && NonBlank(r.reservationId)
    ensures var b := BookProvider(m, provider, budgets, now, r);
      b.ProviderBooked? ==> (ValidProviders(b.providers) <==> NonBlank(r.taskId))
  {
    var settings := SettingsFor(budgets, provider);
    if settings.Some? {
      assert NonBlank(provider);
      hide NonBlank, EnsureProvider, NormalPeriod, WindowAt, ProviderHasRoom, ValidProviders;
      var window := WindowAt(settings.value.period, now);
      EnsuredProvidersAreValid(m, provider, settings.value, window);
      HeldProviderIsValidIff(EnsureProvider(m, provider, settings.value, window),
                             ProviderKey(provider, NormalPeriod(settings.value.period), window.start), r);
    }
  }

  /** Booking a blank task id would put an invalid reservation on the ledger. */
  lemma BlankTaskIsInvalid(m: Grants, gs: seq<Grant>, r: Reservation)
    requires gs != [] && !NonBlank(r.taskId)
    ensures BookGrants(m, gs, |gs|, r).Booked? ==> !ValidGrants(BookGrants(m, gs, |gs|, r).grants)
  {
    hide NonBlank, GrantKey, HasRoom;
    var n := |gs| - 1;
    var b := BookGrant(BookGrants(m, gs, n, r).grants, gs[n], n, r);
    if b.Booked? {
      assert b.grants[GrantKey(gs[n])].pool.held[r.reservationId] == r;
    }
  }

  ghost predicate Governed(policy: Option<Policy>) {
    policy.Some? && PolicyStatus(policy) == "active"
  }

  lemma DenySavesIff(l: Ledger, taskId: string, reason: Reason, status: string)
    requires Sound(l)
    ensures Deny(l, taskId, reason, status).outcome.Some? <==> NonBlank(taskId)
  {
    BlankStrips(taskId);
    BlankStrips(Strip(taskId));
    hide NonBlank, Strip, ValidPolicy, ValidGrantUsage, ValidProviderUsage, SoundGrants, SoundProviders;
    var next := LastFifty(l.denials + [Denial(Strip(taskId), reason)]);
    assert next[|next| - 1].taskId == Strip(taskId);
  }

  lemma BlankStrips(s: string)
    ensures !NonBlank(s) <==> Strip(s) == ""
    ensures Strip(Strip(s)) == Strip(s)
  {
  }

  /** Saving fails on the usage entries alone: the rest of the next ledger is the old one. */
  lemma CommitSavesIff<R>(l: Ledger, next: Ledger, result: R)
    requires ValidLedger(l) && next.(grants := l.grants, providers := l.providers) == l
    ensures Commit(l, next, result).outcome.Some? <==> ValidGrants(next.grants) && ValidProviders(next.providers)
  {
    hide NonBlank, ValidPolicy, ValidGrantUsage, ValidProviderUsage;
  }

  lemma UngovernedSavesIff(l: Ledger, call: ReserveCall, status: string)
    requires Sound(l)
    ensures ReserveUngoverned(l, call, status).outcome.Some? <==>
            NonBlank(call.taskId) || SettingsFor(call.budgets, call.provider).None?
  {
    var b := BookProvider(l.providers, call.provider, call.budgets, call.now, call.Claim());
    ReservationIdIsNonBlank(call.taskId);
    assert ValidGrants(l.grants) && ValidProviders(l.providers) by { hide NonBlank, ValidGrantUsage, ValidProviderUsage; }
    BookedProvidersAreValid(l.providers, call.provider, call.budgets, call.now, call.Claim());
    DenySavesIff(l, call.taskId, ProviderBudgetExhausted, status);
    if b.ProviderBooked? {
      CommitSavesIff(l, l.(providers := b.providers),
                     Decision(true, None, Some(ReservationId(call.taskId)), call.cents, [], status));
    }
    assert b.NoBudget? <==> SettingsFor(call.budgets, call.provider).None?;
    hide NonBlank, BookProvider, ValidGrants, ValidProviders, ValidLedger, SettingsFor, Deny;
  }

  lemma GovernedSavesIff(l: Ledger, call: ReserveCall, gs: seq<Grant>, status: string)
    requires Sound(l) && forall g <- gs :: ValidGrant(g)
    ensures ReserveGoverned(l, call, gs, status).outcome.Some? <==> NonBlank(call.taskId)
  {
    var r := call.Claim();
    var b, p := BookGrants(l.grants, gs, |gs|, r), BookProvider(l.providers, call.provider, call.budgets, call.now, r);
    ReservationIdIsNonBlank(call.taskId);
    assert ValidGrants(l.grants) && ValidProviders(l.providers) by { hide NonBlank, ValidGrantUsage, ValidProviderUsage; }
    forall reason { DenySavesIff(l, call.taskId, reason, status); }
    if gs != [] && b.Booked? {
      if NonBlank(call.taskId) { BookedGrantsAreValid(l.grants, gs, |gs|, r); } else { BlankTaskIsInvalid(l.grants, gs, r); }
      BookedProvidersAreValid(l.providers, call.provider, call.budgets, call.now, r);
      if p.NoBudget? { CommitSavesIff(l, l.(grants := b.grants), Granted(call, gs, status)); }
      if p.ProviderBooked? {
        CommitSavesIff(l, l.(grants := b.grants, providers := p.providers), Granted(call, gs, status));
      }
    }
    hide NonBlank, BookProvider, BookGrants, ValidGrants, ValidProviders, ValidLedger, Deny, Granted;
  }

  ghost predicate PolicyAccepted(l: Ledger, bundle: Option<Policy>) {
    bundle.Some? && l.policy != bundle ==> ValidPolicy(bundle.value)
  }

  lemma CachePolicySavesIff(l: Ledger, bundle: Option<Policy>)
    requires Sound(l)
    ensures CachePolicy(l, bundle).outcome.Some? <==> PolicyAccepted(l, bundle)
  {
    hide NonBlank, ValidPolicy, ValidGrantUsage, ValidProviderUsage, SoundGrants, SoundProviders;
  }

  /** A reserve call raises exactly when the bundle brings an invalid policy or
      there is something to record under a blank task id. */
  lemma ReserveReturnsIff(l: Ledger, call: ReserveCall)
    requires Sound(l)
    ensures Returns(l, ReserveEvent(call)) <==>
      && PolicyAccepted(l, call.bundlePolicy)
      && (|| NonBlank(call.taskId)
          || (&& !Governed(CachePolicy(l, call.bundlePolicy).stored.policy)
              && SettingsFor(call.budgets, call.provider).None?))
  {
    CachePolicySavesIff(l, call.bundlePolicy);
    PolicyKeepsSound(l, call.bundlePolicy);
    var cached := CachePolicy(l, call.bundlePolicy).stored;
    var status := PolicyStatus(cached.policy);
    UngovernedSavesIff(cached, call, status);
    if cached.policy.Some? {
      GrantsOfSoundAreValid(cached);
      GovernedSavesIff(cached, call, ApplicableGrants(cached.policy.value, call), status);
    }
    hide NonBlank, ValidLedger, ReserveGoverned, ReserveUngoverned, CachePolicy, PolicyStatus, ApplicableGrants, Sound,
         PolicyAccepted, SettingsFor;
  }

  lemma GrantsOfSoundAreValid(l: Ledger)
    requires Sound(l) && l.policy.Some?
    ensures forall g <- l.policy.value.grants :: ValidGrant(g)
  {
    hide ValidGrant, ValidGrantUsage, ValidProviderUsage, SoundGrants, SoundProviders, NonBlank;
  }

  /** Tokens reported negative enough to drive a grant's count below zero. */
  ghost predicate Overdraws(u: GrantUsage, id: string, metrics: Option<Metrics>, completed: bool) {
    completed && id in u.pool.held && u.usedTokens + Tokens(metrics) < 0
  }

  lemma FinalizedGrantIsValidIff(u: GrantUsage, id: string, metrics: Option<Metrics>, completed: bool)
    requires ValidGrantUsage(u)
    ensures ValidGrantUsage(FinalizeGrant(u, id, metrics, completed)) <==> !Overdraws(u, id, metrics, completed)
    ensures ValidGrantUsage(ReleaseGrant(u, id))
  {
    hide NonBlank, GrantCharge;
  }

  lemma FinalizedProviderIsValid(u: ProviderUsage, id: string, metrics: Option<Metrics>, completed: bool)
    requires ValidProviderUsage(u)
    ensures ValidProviderUsage(FinalizeProvider(u, id, metrics, completed))
    ensures ValidProviderUsage(ReleaseProvider(u, id))
  {
    hide NonBlank;
  }

  ghost predicate ValidSummaries(ss: seq<Summary>) {
    forall i :: 0 <= i < |ss| ==> NonBlank(ss[i].grantId) && NonBlank(ss[i].periodStart) && NonBlank(ss[i].periodEnd)
  }

  lemma SummaryIsValid(u: GrantUsage, id: string, metrics: Option<Metrics>, completed: bool)
    requires ValidGrantUsage(u)
    ensures ValidSummaries(GrantSummary(u, id, metrics, completed))
  {
    StrippedIsNonBlank(u.grantId);
    hide NonBlank, Strip, ValidPool, GrantCharge;
  }

  lemma {:induction false} SummariesStayValid(queued: seq<Summary>, m: Grants, order: seq<string>, n: nat,
                                              id: string, metrics: Option<Metrics>, completed: bool)
    requires n <= |order| && (forall k <- order :: k in m) && ValidSummaries(queued) && ValidGrants(m)
    ensures ValidSummaries(Summaries(queued, m, order, n, id, metrics, completed))
  {
    hide GrantSummary, NonBlank, ValidGrantUsage;
    if n > 0 {
      SummariesStayValid(queued, m, order, n - 1, id, metrics, completed);
      SummaryIsValid(m[order[n - 1]], id, metrics, completed);
    }
  }

  /** The parts of a ledger that a settlement can change decide whether it can be saved. */
  lemma SettledSavesIff(l: Ledger, next: Ledger)
    requires Sound(l) && next.(grants := l.grants, providers := l.providers, summaries := l.summaries) == l
    requires ValidSummaries(next.summaries) && ValidProviders(next.providers) && next.grants.Keys == l.grants.Keys
    ensures ValidSummaries(l.summaries) && ValidGrants(l.grants) && ValidProviders(l.providers)
    ensures ValidLedger(next) <==> forall k <- next.grants :: ValidGrantUsage(next.grants[k])
  {
    hide NonBlank, ValidGrantUsage, ValidProviderUsage, ValidPolicy, SoundGrants, SoundProviders;
  }

  lemma SoundParts(l: Ledger)
    requires Sound(l)
    ensures ValidSummaries(l.summaries) && ValidGrants(l.grants) && ValidProviders(l.providers)
  {
    SettledSavesIff(l, l) by { hide NonBlank, ValidGrantUsage, ValidProviderUsage, ValidPolicy, SoundGrants, SoundProviders; }
  }

  lemma SettledProvidersAreValid(m: Providers, id: string, metrics: Option<Metrics>, completed: bool)
    requires ValidProviders(m)
    ensures ValidProviders(Visit(m, m.Keys, ProviderFinalizer(id, metrics, completed)))
    ensures ValidProviders(Visit(m, m.Keys, ProviderReleaser(id)))
  {
    hide ValidProviderUsage, FinalizeProvider, ReleaseProvider;
    forall k <- m { FinalizedProviderIsValid(m[k], id, metrics, completed); }
  }

  lemma FinalizedSavesIff(l: Ledger, id: string, metrics: Option<Metrics>, completed: bool)
    requires Sound(l)
    ensures ValidLedger(Finalized(l, id, metrics, completed)) <==> forall k <- l.grants :: !Overdraws(l.grants[k], id, metrics, completed)
  {
    hide ValidGrantUsage, ValidProviderUsage, ValidSummaries, FinalizeGrant, FinalizeProvider, Sound, ValidLedger, Overdraws;
    SoundParts(l);
    SettledProvidersAreValid(l.providers, id, metrics, completed);
    var order := Sorted(l.grants.Keys);
    SummariesStayValid(l.summaries, l.grants, order, |order|, id, metrics, completed);
    var next := Finalized(l, id, metrics, completed);
    SettledSavesIff(l, next);
    forall k <- l.grants
      ensures ValidGrantUsage(next.grants[k]) <==> !Overdraws(l.grants[k], id, metrics, completed)
    {
      FinalizedGrantIsValidIff(l.grants[k], id, metrics, completed);
    }
  }

  /** A finalize call raises exactly when it would drive a token count below zero; then nothing is settled. */
  lemma FinalizeReturnsIff(l: Ledger, taskId: string, metrics: Option<Metrics>, completed: bool)
    requires Sound(l)
    ensures Returns(l, FinalizeEvent(taskId, metrics, completed)) <==>
            forall k <- l.grants :: !Overdraws(l.grants[k], ReservationId(taskId), metrics, completed)
    ensures !Returns(l, FinalizeEvent(taskId, metrics, completed)) ==> Step(l, FinalizeEvent(taskId, metrics, completed)) == l
  {
    var id := ReservationId(taskId);
    hide Finalized, FinalizeReport, Overdraws, Sound, ReservationId, ValidLedger, HeldNowhere;
    FinalizedSavesIff(l, id, metrics, completed);
    ReportsIfHeld(l, id, metrics);
    HeldNowhereMeans(l, id);
    forall k <- l.grants { OverdrawsOnlyIfHeld(l.grants[k], id, metrics, completed); }
  }

  lemma OverdrawsOnlyIfHeld(u: GrantUsage, id: string, metrics: Option<Metrics>, completed: bool)
    ensures Overdraws(u, id, metrics, completed) ==> id in u.pool.held
  {
  }

  lemma ReleasedIsValid(l: Ledger, id: string)
    requires Sound(l)
    ensures ValidLedger(Released(l, id))
  {
    hide ValidGrantUsage, ValidProviderUsage, ValidSummaries, ReleaseGrant, ReleaseProvider, Sound, ValidLedger;
    SoundParts(l);
    SettledProvidersAreValid(l.providers, id, None, false);
    SettledSavesIff(l, Released(l, id));
    forall k <- l.grants { FinalizedGrantIsValidIff(l.grants[k], id, None, false); }
  }

  /** What a release call does, in terms of the ledger it would save and what it reports. */
  lemma StepOfRelease(l: Ledger, taskId: string)
    ensures var id := ReservationId(taskId);
      var e := SettleEffect(l, Released(l, id), ReleaseReport(l, id));
      Step(l, ReleaseEvent(taskId)) == e.stored && (Returns(l, ReleaseEvent(taskId)) <==> e.outcome.Some?)
  {
    hide SettleEffect, Released, ReleaseReport, ReservationId;
  }

  lemma SettlementSaves(l: Ledger, next: Ledger, report: Settlement)
    ensures ValidLedger(next) && (report == UNTOUCHED ==> next == l) ==> SettleEffect(l, next, report) == Effect(next, Some(report))
  {
    hide ValidLedger;
  }

  lemma ReleasedIfHeldNowhere(l: Ledger, id: string)
    ensures HeldNowhere(l, id) ==> Released(l, id) == l
  {
    if HeldNowhere(l, id) {
      hide ReleaseGrant, ReleaseProvider;
      ReleaseLeavesAlone(l.providers, id);
      ReleaseLeavesGrantsAlone(l.grants, id);
    }
  }

  /** A release call never raises, and stores the ledger with the reservation released everywhere. */
  lemma ReleaseStores(l: Ledger, taskId: string)
    requires Sound(l)
    ensures Returns(l, ReleaseEvent(taskId))
    ensures Step(l, ReleaseEvent(taskId)) == Released(l, ReservationId(taskId))
  {
    hide *;
    var id := ReservationId(taskId);
    ReleasedIsValid(l, id);
    ReportsIfHeld(l, id, None);
    ReleasedIfHeldNowhere(l, id);
    SettlementSaves(l, Released(l, id), ReleaseReport(l, id));
    StepOfRelease(l, taskId);
  }

  lemma ReleaseLeavesAlone(m: Providers, id: string)
    requires forall k <- m :: id !in m[k].pool.held
    ensures Visit(m, m.Keys, ProviderReleaser(id)) == m
  {
  }

  lemma ReleaseLeavesGrantsAlone(m: Grants, id: string)
    requires forall k <- m :: id !in m[k].pool.held
    ensures Visit(m, m.Keys, GrantReleaser(id)) == m
  {
  }

  // ---- Settling once ----------------------------------------------------

  ghost predicate HeldNowhere(l: Ledger, id: string) {
    && (forall k <- l.grants :: id !in l.grants[k].pool.held)
    && (forall k <- l.providers :: id !in l.providers[k].pool.held)
  }

  /** After a settlement no entry anywhere holds the reservation. */
  lemma SettledIsHeldNowhere(l: Ledger, id: string, metrics: Option<Metrics>, completed: bool)
    ensures HeldNowhere(Finalized(l, id, metrics, completed), id)
    ensures HeldNowhere(Released(l, id), id)
  {
    hide FinalizeGrant, FinalizeProvider, ReleaseGrant, ReleaseProvider, SortedSummaries;
    forall k <- l.grants { SettledGrantHoldsNone(l.grants[k], id, metrics, completed); }
    forall k <- l.providers { SettledProviderHoldsNone(l.providers[k], id, metrics, completed); }
  }

  lemma SettledGrantHoldsNone(u: GrantUsage, id: string, metrics: Option<Metrics>, completed: bool)
    ensures id !in FinalizeGrant(u, id, metrics, completed).pool.held && id !in ReleaseGrant(u, id).pool.held
  {
  }

  lemma SettledProviderHoldsNone(u: ProviderUsage, id: string, metrics: Option<Metrics>, completed: bool)
    ensures id !in FinalizeProvider(u, id, metrics, completed).pool.held && id !in ReleaseProvider(u, id).pool.held
  {
  }

  /** A settlement reports nothing exactly when the reservation is held nowhere. */
  lemma ReportsIfHeld(l: Ledger, id: string, metrics: Option<Metrics>)
    ensures FinalizeReport(l, id, metrics) == UNTOUCHED <==> HeldNowhere(l, id)
    ensures ReleaseReport(l, id) == UNTOUCHED <==> HeldNowhere(l, id)
  {
    hide GrantCharge, FinalCents, Report, HeldNowhere;
    NothingReportedIff(l.grants, GrantCharged(id, metrics));
    NothingReportedIff(l.grants, GrantReturned(id));
    NothingReportedIff(l.providers, ProviderCharged(id, metrics));
    NothingReportedIff(l.providers, ProviderReturned(id));
    HeldNowhereMeans(l, id);
  }

  lemma HeldNowhereMeans(l: Ledger, id: string)
    ensures HeldNowhere(l, id) <==>
      && (forall k <- l.grants :: id !in l.grants[k].pool.held)
      && (forall k <- l.providers :: id !in l.providers[k].pool.held)
  {
  }

  lemma NothingReportedIff<K, U>(m: map<K, U>, amount: U -> Option<int>)
    ensures Report(m, m.Keys, amount) == map[] <==> forall k <- m :: amount(m[k]).None?
  {
    var report := Report(m, m.Keys, amount);
    assert forall k <- m :: amount(m[k]).Some? ==> k in report;
  }

  /** Settling a task that is held nowhere changes nothing and reports nothing. */
  lemma SettlingAgainDoesNothing(l: Ledger, taskId: string, metrics: Option<Metrics>, completed: bool)
    requires HeldNowhere(l, ReservationId(taskId))
    ensures Finalize(l, taskId, metrics, completed) == Effect(l, Some(UNTOUCHED))
    ensures Release(l, taskId) == Effect(l, Some(UNTOUCHED))
  {
    hide Finalized, Released, FinalizeReport, ReleaseReport, ValidLedger, HeldNowhere;
    ReportsIfHeld(l, ReservationId(taskId), metrics);
  }

  ghost predicate Settles(e: Event, id: string) {
    || (e.FinalizeEvent? && ReservationId(e.taskId) == id)
    || (e.ReleaseEvent? && ReservationId(e.taskId) == id)
  }

  ghost predicate Reserves(e: Event, id: string) {
    e.ReserveEvent? && ReservationId(e.call.taskId) == id
  }

  lemma {:induction false} BookingOthersHoldsNoMore(m: Grants, gs: seq<Grant>, n: nat, r: Reservation, id: string)
    requires n <= |gs| && r.reservationId != id && forall k <- m :: id !in m[k].pool.held
    ensures forall k <- BookGrants(m, gs, n, r).grants :: id !in BookGrants(m, gs, n, r).grants[k].pool.held
  {
    hide BookGrant;
    if n > 0 {
      BookingOthersHoldsNoMore(m, gs, n - 1, r, id);
      BookingAnotherHoldsNoMore(BookGrants(m, gs, n - 1, r).grants, gs[n - 1], n - 1, r, id);
    }
  }

  lemma BookingAnotherHoldsNoMore(m: Grants, g: Grant, at: nat, r: Reservation, id: string)
    requires r.reservationId != id && forall k <- m :: id !in m[k].pool.held
    ensures forall k <- BookGrant(m, g, at, r).grants :: id !in BookGrant(m, g, at, r).grants[k].pool.held
  {
    hide GrantKey, HasRoom;
  }

  lemma BookingProviderHoldsNoMore(l: Ledger, call: ReserveCall, id: string)
    requires ReservationId(call.taskId) != id && HeldNowhere(l, id)
    ensures var b := BookProvider(l.providers, call.provider, call.budgets, call.now, call.Claim());
      b.ProviderBooked? ==> forall k <- b.providers :: id !in b.providers[k].pool.held
  {
    hide WindowAt, NormalPeriod, ProviderHasRoom, SettingsFor;
  }

  lemma DenyHoldsNoMore(l: Ledger, taskId: string, reason: Reason, status: string, id: string)
    requires HeldNowhere(l, id)
    ensures HeldNowhere(Deny(l, taskId, reason, status).stored, id)
  {
    hide ValidLedger;
  }

  lemma UngovernedHoldsNoMore(l: Ledger, call: ReserveCall, status: string, id: string)
    requires ReservationId(call.taskId) != id && HeldNowhere(l, id)
    ensures HeldNowhere(ReserveUngoverned(l, call, status).stored, id)
  {
    hide BookProvider, ValidLedger, ReservationId, Deny;
    BookingProviderHoldsNoMore(l, call, id);
    DenyHoldsNoMore(l, call.taskId, ProviderBudgetExhausted, status, id);
  }

  lemma GovernedHoldsNoMore(l: Ledger, call: ReserveCall, gs: seq<Grant>, status: string, id: string)
    requires ReservationId(call.taskId) != id && HeldNowhere(l, id)
    ensures HeldNowhere(ReserveGoverned(l, call, gs, status).stored, id)
  {
    hide BookProvider, BookGrants, ValidLedger, Granted, ReservationId, Deny;
    BookingOthersHoldsNoMore(l.grants, gs, |gs|, call.Claim(), id);
    BookingProviderHoldsNoMore(l, call, id);
    forall reason { DenyHoldsNoMore(l, call.taskId, reason, status, id); }
  }

  lemma ReserveHoldsNoMore(l: Ledger, call: ReserveCall, id: string)
    requires ReservationId(call.taskId) != id && HeldNowhere(l, id)
    ensures HeldNowhere(Reserve(l, call).stored, id)
  {
    assert HeldNowhere(CachePolicy(l, call.bundlePolicy).stored, id) by { hide ValidLedger; }
    var cached := CachePolicy(l, call.bundlePolicy).stored;
    hide ReserveGoverned, ReserveUngoverned, CachePolicy, ApplicableGrants, PolicyStatus, HeldNowhere;
    var status := PolicyStatus(cached.policy);
    UngovernedHoldsNoMore(cached, call, status, id);
    if cached.policy.Some? {
      GovernedHoldsNoMore(cached, call, ApplicableGrants(cached.policy.value, call), status, id);
    }
  }

  lemma SettlingOthersHoldsNoMore(l: Ledger, other: string, metrics: Option<Metrics>, completed: bool, id: string)
    requires HeldNowhere(l, id)
    ensures HeldNowhere(Finalized(l, other, metrics, completed), id)
    ensures HeldNowhere(Released(l, other), id)
  {
    hide FinalizeGrant, FinalizeProvider, ReleaseGrant, ReleaseProvider, SortedSummaries;
    forall k <- l.grants { SettlingHoldsNoMore(l.grants[k], other, metrics, completed, id); }
    forall k <- l.providers { SettlingProviderHoldsNoMore(l.providers[k], other, metrics, completed, id); }
  }

  lemma SettlingHoldsNoMore(u: GrantUsage, other: string, metrics: Option<Metrics>, completed: bool, id: string)
    requires id !in u.pool.held
    ensures id !in FinalizeGrant(u, other, metrics, completed).pool.held
    ensures id !in ReleaseGrant(u, other).pool.held
  {
  }

  lemma SettlingProviderHoldsNoMore(u: ProviderUsage, other: string, metrics: Option<Metrics>, completed: bool, id: string)
    requires id !in u.pool.held
    ensures id !in FinalizeProvider(u, other, metrics, completed).pool.held
    ensures id !in ReleaseProvider(u, other).pool.held
  {
  }

  /** A step that does not reserve under `id` cannot make it held; a
      settlement of it that returned leaves it held nowhere. */
  lemma StepHolds(l: Ledger, e: Event, id: string)
    ensures HeldNowhere(l, id) && !Reserves(e, id) ==> HeldNowhere(Step(l, e), id)
    ensures Settles(e, id) && Returns(l, e) ==> HeldNowhere(Step(l, e), id)
  {
    hide ValidLedger, Reserve, Finalized, FinalizeReport, Released, ReleaseReport, ReservationId;
    match e
    case PolicyEvent(bundle) =>
    case ReserveEvent(call) =>
      hide HeldNowhere;
      if HeldNowhere(l, id) && !Reserves(e, id) { ReserveHoldsNoMore(l, call, id); }
    case FinalizeEvent(taskId, metrics, completed) =>
      hide HeldNowhere;
      ReportsIfHeld(l, ReservationId(taskId), metrics);
      SettledIsHeldNowhere(l, ReservationId(taskId), metrics, completed);
      if HeldNowhere(l, id) { SettlingOthersHoldsNoMore(l, ReservationId(taskId), metrics, completed, id); }
    case ReleaseEvent(taskId) =>
      hide HeldNowhere;
      ReportsIfHeld(l, ReservationId(taskId), None);
      SettledIsHeldNowhere(l, ReservationId(taskId), None, false);
      if HeldNowhere(l, id) { SettlingOthersHoldsNoMore(l, ReservationId(taskId), None, false, id); }
  }

  /** Once a task is settled, no later call finds its reservation anywhere
      until it is reserved again: no run settles a reservation twice. */
  lemma {:induction false} SettledStaysSettled(es: seq<Event>, i: nat, n: nat, id: string)
    requires i < n <= |es|
    requires Settles(es[i], id) && Returns(After(es, i), es[i])
    requires forall j :: i < j < n ==> !Reserves(es[j], id)
    ensures HeldNowhere(After(es, n), id)
  {
    hide Step, HeldNowhere, Settles, Reserves, Returns;
    StepHolds(After(es, n - 1), es[n - 1], id);
    if i < n - 1 {
      SettledStaysSettled(es, i, n - 1, id);
    }
  }

  // ---- Reserve, then release --------------------------------------------

  lemma {:induction false} EnsuringHoldsNoMore(m: Grants, gs: seq<Grant>, n: nat, id: string)
    requires n <= |gs| && forall k <- m :: id !in m[k].pool.held
    ensures forall k <- EnsureGrants(m, gs, n) :: id !in EnsureGrants(m, gs, n)[k].pool.held
  {
    hide GrantKey;
    if n > 0 { EnsuringHoldsNoMore(m, gs, n - 1, id); }
  }

  lemma ReleaseAt(booked: Grants, ensured: Grants, gs: seq<Grant>, r: Reservation, k: string)
    requires k in ensured ==> r.reservationId !in ensured[k].pool.held
    ensures HeldOnceAt(booked, ensured, gs, |gs|, r, k) ==>
              SameAt(Visit(booked, booked.Keys, GrantReleaser(r.reservationId)), ensured, k)
  {
    if HeldOnceAt(booked, ensured, gs, |gs|, r, k) && k in booked && Uses(gs, |gs|, k) {
      ReturnUndoesHold(ensured[k].pool, r);
    }
  }

  lemma ReleaseUndoesGrants(m: Grants, gs: seq<Grant>, r: Reservation, b: Booking)
    requires forall k <- m :: m[k].pool.reservedCents >= 0 && r.reservationId !in m[k].pool.held
    requires b == BookGrants(m, gs, |gs|, r) && b.Booked?
    ensures Visit(b.grants, b.grants.Keys, GrantReleaser(r.reservationId)) == EnsureGrants(m, gs, |gs|)
  {
    hide HeldOnceAt, BookGrants, EnsureGrants, SameAt, Visit, GrantKey;
    var released, ensured := Visit(b.grants, b.grants.Keys, GrantReleaser(r.reservationId)), EnsureGrants(m, gs, |gs|);
    EnsuringHoldsNoMore(m, gs, |gs|, r.reservationId);
    forall k: string ensures SameAt(released, ensured, k) {
      BookingHoldsOnce(m, gs, |gs|, r, k);
      ReleaseAt(b.grants, ensured, gs, r, k);
    }
    SameEverywhere(released, ensured);
  }

  lemma ReleaseUndoesProvider(m: Providers, call: ReserveCall, b: ProviderBooking)
    requires forall k <- m :: m[k].pool.reservedCents >= 0 && call.Claim().reservationId !in m[k].pool.held
    requires b == BookProvider(m, call.provider, call.budgets, call.now, call.Claim()) && b.ProviderBooked?
    ensures SettingsFor(call.budgets, call.provider).Some?
    ensures var s := SettingsFor(call.budgets, call.provider).value;
      Visit(b.providers, b.providers.Keys, ProviderReleaser(call.Claim().reservationId)) ==
      EnsureProvider(m, call.provider, s, WindowAt(s.period, call.now))
  {
    hide WindowAt, NormalPeriod, ProviderHasRoom;
    var s := SettingsFor(call.budgets, call.provider).value;
    var window := WindowAt(s.period, call.now);
    var k := ProviderKey(call.provider, NormalPeriod(s.period), window.start);
    var ensured := EnsureProvider(m, call.provider, s, window);
    ReturnUndoesHold(ensured[k].pool, call.Claim());
  }

  /** The ledger with just the entries a reserve call makes sure of. */
  ghost function EnsuredFor(l: Ledger, call: ReserveCall): Ledger {
    var settings := SettingsFor(call.budgets, call.provider);
    var gs := if Governed(l.policy) then ApplicableGrants(l.policy.value, call) else [];
    l.(grants := EnsureGrants(l.grants, gs, |gs|),
       providers := if settings.None? then l.providers
                    else EnsureProvider(l.providers, call.provider, settings.value, WindowAt(settings.value.period, call.now)))
  }

  /** A granted reservation, seen on the ledger: what was booked where. */
  lemma GrantedReserve(l: Ledger, call: ReserveCall)
    ensures var cached := CachePolicy(l, call.bundlePolicy).stored;
      var gs := if Governed(cached.policy) then ApplicableGrants(cached.policy.value, call) else [];
      var b, p := BookGrants(cached.grants, gs, |gs|, call.Claim()),
                  BookProvider(cached.providers, call.provider, call.budgets, call.now, call.Claim());
      Reserve(l, call).outcome.Some? && Reserve(l, call).outcome.value.allowed ==>
        && b.Booked? && !p.ProviderRefused?
        && Reserve(l, call).stored == cached.(grants := b.grants, providers := if p.NoBudget? then cached.providers else p.providers)
  {
    hide ValidLedger, BookGrant, BookProvider, ApplicableGrants, PolicyStatus, GrantKeys, ReservationId, LastFifty;
  }

  /** Reserving a task that is held nowhere and releasing it restores every
      entry: all that remains is what the call made sure of. */
  lemma ReserveThenRelease(l: Ledger, call: ReserveCall)
    requires Sound(l) && HeldNowhere(l, ReservationId(call.taskId))
    requires Reserve(l, call).outcome.Some? && Reserve(l, call).outcome.value.allowed
    ensures Release(Reserve(l, call).stored, call.taskId).stored == EnsuredFor(CachePolicy(l, call.bundlePolicy).stored, call)
  {
    hide ValidLedger, Reserve, CachePolicy, ReservationId, Sound, Released, EnsuredFor, BookGrants, BookProvider, Governed,
         ApplicableGrants, ReleaseReport, HeldNowhere;
    var cached := CachePolicy(l, call.bundlePolicy).stored;
    GrantedReserve(l, call);
    PolicyKeepsSound(l, call.bundlePolicy);
    StepKeepsSound(l, ReserveEvent(call));
    ReleaseStores(Reserve(l, call).stored, call.taskId);
    PoolsNonNegative(cached);
    HeldNowhereMeans(l, ReservationId(call.taskId));
    HeldNowhereMeans(cached, ReservationId(call.taskId));
    ReleaseOfBooked(cached, call);
  }

  lemma ReleaseOfBooked(l: Ledger, call: ReserveCall)
    requires HeldNowhere(l, ReservationId(call.taskId))
    requires forall k <- l.grants :: l.grants[k].pool.reservedCents >= 0
    requires forall k <- l.providers :: l.providers[k].pool.reservedCents >= 0
    ensures var gs := if Governed(l.policy) then ApplicableGrants(l.policy.value, call) else [];
      var b, p := BookGrants(l.grants, gs, |gs|, call.Claim()),
                  BookProvider(l.providers, call.provider, call.budgets, call.now, call.Claim());
      b.Booked? && !p.ProviderRefused? ==>
        Released(l.(grants := b.grants, providers := if p.NoBudget? then l.providers else p.providers), ReservationId(call.taskId))
        == EnsuredFor(l, call)
  {
    var gs := if Governed(l.policy) then ApplicableGrants(l.policy.value, call) else [];
    var b, p := BookGrants(l.grants, gs, |gs|, call.Claim()),
                BookProvider(l.providers, call.provider, call.budgets, call.now, call.Claim());
    hide BookGrants, BookProvider, Governed, ApplicableGrants, EnsureGrants, EnsureProvider, WindowAt, ReservationId, SettingsFor, Visit;
    if b.Booked? { ReleaseUndoesGrants(l.grants, gs, call.Claim(), b); }
    NoBudgetIff(l.providers, call);
    if p.ProviderBooked? { ReleaseUndoesProvider(l.providers, call, p); }
    ReleaseLeavesAlone(l.providers, ReservationId(call.taskId));
  }

  lemma NoBudgetIff(m: Providers, call: ReserveCall)
    ensures BookProvider(m, call.provider, call.budgets, call.now, call.Claim()).NoBudget?
            <==> SettingsFor(call.budgets, call.provider).None?
  {
    hide WindowAt, NormalPeriod, ProviderHasRoom, SettingsFor;
  }

  lemma PoolsNonNegative(l: Ledger)
    requires Sound(l)
    ensures forall k <- l.grants :: l.grants[k].pool.reservedCents >= 0
    ensures forall k <- l.providers :: l.providers[k].pool.reservedCents >= 0
  {
    hide NonBlank, SoundGrants, SoundProviders, ValidPolicy;
  }
}
