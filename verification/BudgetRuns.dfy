/** The ledger over whole runs: what every reachable ledger satisfies, when a
    save can fail, and that a task is settled at most once. */
module BudgetRuns {
  import opened Text
  import opened Money
  import opened Calendar
  import opened BudgetLedger
  import opened BudgetRollback

  // ---- Runs -------------------------------------------------------------

  datatype Event =
    | PolicyEvent(bundle: Option<Policy>)
    | ReserveEvent(call: ReserveCall)
    | FinalizeEvent(taskId: string, metrics: Option<Metrics>, completed: bool)
    | ReleaseEvent(taskId: string)

  /** The stored ledger after one call. */
  ghost function Step(l: Ledger, e: Event): Ledger {
    match e
    case PolicyEvent(bundle) => CachePolicy(l, bundle).stored
    case ReserveEvent(call) => Reserve(l, call).stored
    case FinalizeEvent(taskId, metrics, completed) => Finalize(l, taskId, metrics, completed).stored
    case ReleaseEvent(taskId) => Release(l, taskId).stored
  }

  /** Whether the call returned, rather than raised because its save was refused. */
  ghost predicate Returns(l: Ledger, e: Event) {
    match e
    case PolicyEvent(bundle) => CachePolicy(l, bundle).outcome.Some?
    case ReserveEvent(call) => Reserve(l, call).outcome.Some?
    case FinalizeEvent(taskId, metrics, completed) => Finalize(l, taskId, metrics, completed).outcome.Some?
    case ReleaseEvent(taskId) => Release(l, taskId).outcome.Some?
  }

  /** The stored ledger after the first `n` calls of a run from the empty ledger. */
  ghost function After(es: seq<Event>, n: nat): Ledger
    requires n <= |es|
  {
    if n == 0 then EMPTY_LEDGER else Step(After(es, n - 1), es[n - 1])
  }

  // ---- The ledger invariant ---------------------------------------------

  ghost predicate SoundGrant(k: string, u: GrantUsage) {
    u.grantId == k && u.pool.Balanced()
  }

  ghost predicate SoundProvider(k: ProviderKey, u: ProviderUsage) {
    && k == ProviderKey(u.providerId, u.period, u.window.start)
    && u.usedUnits >= 0
    && u.usedCents == CeilCents(u.usedUnits)
    && u.pool.Balanced()
  }

  ghost predicate SoundGrants(m: Grants) {
    forall k <- m :: SoundGrant(k, m[k])
  }

  ghost predicate SoundProviders(m: Providers) {
    forall k <- m :: SoundProvider(k, m[k])
  }

  /** Every entry's reserved total is the sum of its reservations, and a
      provider's cents are its exact spend rounded up. */
  ghost predicate Sound(l: Ledger) {
    && ValidLedger(l)
    && |l.denials| <= 50
    && SoundGrants(l.grants)
    && SoundProviders(l.providers)
  }

  lemma EmptyPoolIsBalanced()
    ensures EMPTY_POOL.Balanced()
  {
  }

  lemma EnsuredGrantsAreSound(m: Grants, g: Grant)
    requires SoundGrants(m)
    ensures SoundGrants(EnsureGrant(m, g))
  {
    hide GrantKey;
    EmptyPoolIsBalanced();
  }

  lemma BookedGrantIsSound(m: Grants, g: Grant, at: nat, r: Reservation)
    requires SoundGrants(m) && r.cents >= 0
    ensures SoundGrants(BookGrant(m, g, at, r).grants)
  {
    hide GrantKey, HasRoom;
    EnsuredGrantsAreSound(m, g);
    var k := GrantKey(g);
    var ensured := EnsureGrant(m, g);
    if r.reservationId !in ensured[k].pool.held {
      assert SoundGrant(k, ensured[k]);
      HoldStaysBalanced(ensured[k].pool, r);
    }
  }

  lemma {:induction false} BookedGrantsAreSound(m: Grants, gs: seq<Grant>, n: nat, r: Reservation)
    requires n <= |gs| && SoundGrants(m) && r.cents >= 0
    ensures SoundGrants(BookGrants(m, gs, n, r).grants)
  {
    hide BookGrant, SoundGrants;
    if n > 0 {
      BookedGrantsAreSound(m, gs, n - 1, r);
      BookedGrantIsSound(BookGrants(m, gs, n - 1, r).grants, gs[n - 1], n - 1, r);
    }
  }

  lemma BookedProvidersAreSound(m: Providers, provider: string, budgets: map<string, Settings>, now: Clock, r: Reservation)
    requires SoundProviders(m) && r.cents >= 0
    ensures var b := BookProvider(m, provider, budgets, now, r);
      b.ProviderBooked? ==> SoundProviders(b.providers)
  {
    hide WindowAt, NormalPeriod, ProviderHasRoom;
    EmptyPoolIsBalanced();
    var settings := SettingsFor(budgets, provider);
    if settings.Some? {
      var s := settings.value;
      var window := WindowAt(s.period, now);
      var k := ProviderKey(provider, NormalPeriod(s.period), window.start);
      var ensured := EnsureProvider(m, provider, s, window);
      assert SoundProvider(k, ensured[k]);
      if r.reservationId !in ensured[k].pool.held {
        HoldStaysBalanced(ensured[k].pool, r);
      }
    }
  }

  lemma FinalizedGrantIsSound(k: string, u: GrantUsage, id: string, metrics: Option<Metrics>, completed: bool)
    requires SoundGrant(k, u)
    ensures SoundGrant(k, FinalizeGrant(u, id, metrics, completed))
    ensures SoundGrant(k, ReleaseGrant(u, id))
  {
    if id in u.pool.held { SettleStaysBalanced(u.pool, id); }
  }

  lemma FinalizedProviderIsSound(k: ProviderKey, u: ProviderUsage, id: string, metrics: Option<Metrics>, completed: bool)
    requires SoundProvider(k, u)
    ensures SoundProvider(k, FinalizeProvider(u, id, metrics, completed))
    ensures SoundProvider(k, ReleaseProvider(u, id))
  {
    if id in u.pool.held { SettleStaysBalanced(u.pool, id); }
  }

  lemma SettledEntriesAreSound(l: Ledger, id: string, metrics: Option<Metrics>, completed: bool)
    requires SoundGrants(l.grants) && SoundProviders(l.providers)
    ensures SoundGrants(Finalized(l, id, metrics, completed).grants)
    ensures SoundProviders(Finalized(l, id, metrics, completed).providers)
    ensures SoundGrants(Released(l, id).grants) && SoundProviders(Released(l, id).providers)
  {
    hide SoundGrant, SoundProvider, FinalizeGrant, FinalizeProvider, ReleaseGrant, ReleaseProvider;
    forall k <- l.grants { FinalizedGrantIsSound(k, l.grants[k], id, metrics, completed); }
    forall k <- l.providers { FinalizedProviderIsSound(k, l.providers[k], id, metrics, completed); }
  }

  lemma DenialsStayFew(l: Ledger, taskId: string, reason: Reason, status: string)
    requires Sound(l)
    ensures Sound(Deny(l, taskId, reason, status).stored)
  {
    hide ValidLedger, SoundGrants, SoundProviders;
  }

  lemma PolicyKeepsSound(l: Ledger, bundle: Option<Policy>)
    requires Sound(l)
    ensures Sound(CachePolicy(l, bundle).stored)
    ensures CachePolicy(l, bundle).stored.(policy := l.policy) == l
  {
    hide ValidLedger, SoundGrants, SoundProviders;
  }

  lemma ReserveUngovernedKeepsSound(l: Ledger, call: ReserveCall, status: string)
    requires Sound(l)
    ensures Sound(ReserveUngoverned(l, call, status).stored)
  {
    hide ValidLedger, SoundGrants, SoundProviders, BookProvider, Deny;
    BookedProvidersAreSound(l.providers, call.provider, call.budgets, call.now, call.Claim());
    DenialsStayFew(l, call.taskId, ProviderBudgetExhausted, status);
  }

  lemma ReserveGovernedKeepsSound(l: Ledger, call: ReserveCall, gs: seq<Grant>, status: string)
    requires Sound(l)
    ensures Sound(ReserveGoverned(l, call, gs, status).stored)
  {
    hide ValidLedger, SoundGrants, SoundProviders, BookProvider, BookGrants, Deny, GrantKeys;
    BookedGrantsAreSound(l.grants, gs, |gs|, call.Claim());
    BookedProvidersAreSound(l.providers, call.provider, call.budgets, call.now, call.Claim());
    forall reason { DenialsStayFew(l, call.taskId, reason, status); }
  }

  /** Every call keeps the ledger sound, whatever its arguments. */
  lemma StepKeepsSound(l: Ledger, e: Event)
    requires Sound(l)
    ensures Sound(Step(l, e))
  {
    hide ValidLedger, SoundGrants, SoundProviders, ReserveGoverned, ReserveUngoverned, CachePolicy, ApplicableGrants,
         PolicyStatus, Finalized, Released, FinalizeReport, ReleaseReport;
    match e
    case PolicyEvent(bundle) =>
      PolicyKeepsSound(l, bundle);
    case ReserveEvent(call) =>
      PolicyKeepsSound(l, call.bundlePolicy);
      var cached := CachePolicy(l, call.bundlePolicy).stored;
      var status := PolicyStatus(cached.policy);
      ReserveUngovernedKeepsSound(cached, call, status);
      if cached.policy.Some? {
        ReserveGovernedKeepsSound(cached, call, ApplicableGrants(cached.policy.value, call), status);
      }
    case FinalizeEvent(taskId, metrics, completed) =>
      SettledEntriesAreSound(l, ReservationId(taskId), metrics, completed);
      SettlingKeepsDenials(l, ReservationId(taskId), metrics, completed);
    case ReleaseEvent(taskId) =>
      SettledEntriesAreSound(l, ReservationId(taskId), None, false);
      SettlingKeepsDenials(l, ReservationId(taskId), None, false);
  }

  lemma SettlingKeepsDenials(l: Ledger, id: string, metrics: Option<Metrics>, completed: bool)
    ensures Finalized(l, id, metrics, completed).denials == l.denials
    ensures Released(l, id).denials == l.denials
  {
  }

  /** Every ledger reached from the empty one is sound. */
  lemma {:induction false} EveryLedgerIsSound(es: seq<Event>, n: nat)
    requires n <= |es|
    ensures Sound(After(es, n))
  {
    hide Step;
    if n > 0 {
      EveryLedgerIsSound(es, n - 1);
      StepKeepsSound(After(es, n - 1), es[n - 1]);
    }
  }
}
