/** The budget ledger as a value, what each ledger operation makes of it, and the
    check every saved ledger must pass. `BudgetManager` carries these operations
    out step by step. */
module BudgetLedger {
  import opened Text
  import opened Money
  import opened Calendar

  // ---- Reservation pools ------------------------------------------------

  datatype Reservation = Reservation(reservationId: string, taskId: string, cents: int)

  type Held = map<string, Reservation>

  /** The reservations an entry holds and its running total of them. */
  datatype Pool = Pool(reservedCents: int, held: Held) {

    function Hold(r: Reservation): Pool {
      Pool(reservedCents + r.cents, held[r.reservationId := r])
    }

    /** Drop one reservation and give `cents` back, never below zero. */
    function Return(id: string, cents: int): Pool {
      Pool(Max(reservedCents - cents, 0), held - {id})
    }

    function Settle(id: string): Pool
      requires id in held
    {
      Return(id, held[id].cents)
    }

    /** The running total is the sum of what is held. */
    ghost predicate Balanced() {
      && reservedCents == Total(held)
      && forall id <- held :: held[id].cents >= 0 && held[id].reservationId == id
    }
  }

  const EMPTY_POOL := Pool(0, map[])

  ghost function Total(held: Held): int
  {
    if held == map[] then 0
    else
      var id :| id in held;
      held[id].cents + Total(held - {id})
  }

  /** The total does not depend on the order in which it is added up. */
  lemma {:induction false} TotalSplits(held: Held, id: string)
    requires id in held
    ensures Total(held) == held[id].cents + Total(held - {id})
    decreases |held|
  {
    var first :| first in held && Total(held) == held[first].cents + Total(held - {first});
    if first != id {
      TotalSplits(held - {first}, id);
      TotalSplits(held - {id}, first);
      assert held - {first} - {id} == held - {id} - {first};
    }
  }

  lemma {:induction false} TotalIsNonNegative(held: Held)
    requires forall id <- held :: held[id].cents >= 0
    ensures Total(held) >= 0
    decreases |held|
  {
    if held != map[] {
      var id :| id in held;
      TotalSplits(held, id);
      TotalIsNonNegative(held - {id});
    }
  }

  /** Holding a new reservation keeps the total right. */
  lemma HoldStaysBalanced(p: Pool, r: Reservation)
    requires p.Balanced() && r.reservationId !in p.held && r.cents >= 0
    ensures p.Hold(r).Balanced()
  {
    var held := p.held[r.reservationId := r];
    assert held - {r.reservationId} == p.held;
    TotalSplits(held, r.reservationId);
  }

  /** Giving a held reservation back restores the pool. */
  lemma ReturnUndoesHold(p: Pool, r: Reservation)
    requires p.reservedCents >= 0 && r.reservationId !in p.held
    ensures p.Hold(r).Return(r.reservationId, r.cents) == p
  {
    assert p.held[r.reservationId := r] - {r.reservationId} == p.held;
  }

  /** Settling a reservation keeps the total right, and the clamp at zero never bites. */
  lemma SettleStaysBalanced(p: Pool, id: string)
    requires p.Balanced() && id in p.held
    ensures p.Settle(id).Balanced()
    ensures p.Settle(id).reservedCents == p.reservedCents - p.held[id].cents
  {
    TotalSplits(p.held, id);
    TotalIsNonNegative(p.held - {id});
  }

  // ---- Policies, entries, the ledger ------------------------------------

  /** One budget grant. `startsAt` and `endsAt` are the instants its period texts
      parse to; `textsPresent` says that its remaining required texts are not blank. */
  datatype Grant = Grant(
    grantId: string, service: string, periodStart: string, periodEnd: string,
    startsAt: Option<int>, endsAt: Option<int>, status: string, scopeKind: string,
    subjectId: string, providerId: string, modelId: string, maxCostCents: int, textsPresent: bool)

  /** `textsPresent`: every text its status requires is there and not blank. */
  datatype Policy = Policy(status: string, textsPresent: bool, grants: seq<Grant>)

  datatype GrantUsage = GrantUsage(
    grantId: string, periodStart: string, periodEnd: string,
    usedCents: int, usedRequests: int, usedTokens: int, pool: Pool)

  datatype ProviderKey = ProviderKey(providerId: string, period: string, start: int)

  datatype ProviderUsage = ProviderUsage(
    providerId: string, period: string, window: Window, limitCents: int,
    usedUnits: int, usedCents: int, pool: Pool)

  datatype Reason = ProviderBudgetExhausted | MissingBudgetGrant | ReservationConflict | BudgetExhausted

  datatype Denial = Denial(taskId: string, reason: Reason)

  datatype Summary = Summary(grantId: string, periodStart: string, periodEnd: string, requests: int, tokens: int, cents: int)

  type Grants = map<string, GrantUsage>
  type Providers = map<ProviderKey, ProviderUsage>

  datatype Ledger = Ledger(
    policy: Option<Policy>, grants: Grants, providers: Providers,
    denials: seq<Denial>, summaries: seq<Summary>)

  /** `create_budget_state`. */
  const EMPTY_LEDGER := Ledger(None, map[], map[], [], [])

  // ---- What may be saved ------------------------------------------------

  predicate ValidGrant(g: Grant) {
    && g.textsPresent
    && NonBlank(g.grantId) && NonBlank(g.service) && NonBlank(g.periodStart) && NonBlank(g.periodEnd)
    && NonBlank(g.subjectId)
    && (g.status == "active" || g.status == "expired")
    && (g.scopeKind == "node" || g.scopeKind == "customer" || g.scopeKind == "service" || g.scopeKind == "provider")
  }

  predicate ValidPolicy(p: Policy) {
    && p.textsPresent
    && NonBlank(p.status)
    && forall i :: 0 <= i < |p.grants| ==> ValidGrant(p.grants[i])
  }

  predicate ValidPool(p: Pool) {
    && p.reservedCents >= 0
    && forall id <- p.held ::
         && NonBlank(id)
         && NonBlank(p.held[id].reservationId)
         && NonBlank(p.held[id].taskId)
         && p.held[id].cents >= 0
  }

  predicate ValidGrantUsage(u: GrantUsage) {
    && NonBlank(u.grantId) && NonBlank(u.periodStart) && NonBlank(u.periodEnd)
    && u.usedCents >= 0 && u.usedRequests >= 0 && u.usedTokens >= 0
    && ValidPool(u.pool)
  }

  predicate ValidProviderUsage(u: ProviderUsage) {
    && NonBlank(u.providerId) && NonBlank(u.period)
    && u.usedUnits >= 0 && u.usedCents >= 0
    && ValidPool(u.pool)
  }

  /** `validate_budget_state`. */
  predicate ValidLedger(l: Ledger) {
    && (l.policy.Some? ==> ValidPolicy(l.policy.value))
    && (forall g <- l.grants :: NonBlank(g) && ValidGrantUsage(l.grants[g]))
    && (forall k <- l.providers :: ValidProviderUsage(l.providers[k]))
    && (forall i :: 0 <= i < |l.denials| ==> NonBlank(l.denials[i].taskId))
    && (forall i :: 0 <= i < |l.summaries| ==>
          && NonBlank(l.summaries[i].grantId)
          && NonBlank(l.summaries[i].periodStart)
          && NonBlank(l.summaries[i].periodEnd))
  }

  /** The stored ledger after a call, and the call's result, or None when
      the store refused to save and the call raised an error. */
  datatype Effect<+R> = Effect(stored: Ledger, outcome: Option<R>)

  /** Save `next` over `stored`; an invalid ledger is refused. */
  function Commit<R>(stored: Ledger, next: Ledger, result: R): Effect<R> {
    if ValidLedger(next) then Effect(next, Some(result)) else Effect(stored, None)
  }

  // ---- Applicable grants ------------------------------------------------

  datatype Request = Request(serviceId: string, requestedBy: string, customerId: string, requestedModel: string)

  predicate Applies(g: Grant, request: Request, provider: string, now: int) {
    var service := Strip(if request.serviceId != "" then request.serviceId else request.requestedBy);
    var scope := Lower(Strip(g.scopeKind));
    && Lower(Strip(g.status)) == "active"
    && (g.startsAt.Some? ==> g.startsAt.value <= now)
    && (g.endsAt.Some? ==> now <= g.endsAt.value)
    && (service == "" || Strip(g.service) == "" || Strip(g.service) == service)
    && (Strip(g.providerId) == "" || Strip(provider) == "" || Strip(g.providerId) == Strip(provider))
    && (Strip(g.modelId) == "" || Strip(request.requestedModel) == "" || Strip(g.modelId) == Strip(request.requestedModel))
    && (|| scope == "node"
        || (scope == "customer" && Strip(request.customerId) != "" && Strip(g.subjectId) == Strip(request.customerId))
        || (scope == "provider" && Strip(provider) != "" && Strip(g.subjectId) == Strip(provider)))
  }

  /** The applicable grants among the first `n`, in policy order. */
  function ApplicableUpTo(gs: seq<Grant>, n: nat, request: Request, provider: string, now: int): seq<Grant>
    requires n <= |gs|
  {
    if n == 0 then []
    else
      var before := ApplicableUpTo(gs, n - 1, request, provider, now);
      if Applies(gs[n - 1], request, provider, now) then before + [gs[n - 1]] else before
  }

  lemma {:induction false} ApplicableAreExact(gs: seq<Grant>, n: nat, request: Request, provider: string, now: int)
    requires n <= |gs|
    ensures forall g :: g in ApplicableUpTo(gs, n, request, provider, now) <==> g in gs[..n] && Applies(g, request, provider, now)
  {
    hide Applies;
    if n > 0 {
      ApplicableAreExact(gs, n - 1, request, provider, now);
      assert gs[..n] == gs[..n - 1] + [gs[n - 1]];
    }
  }

  // ---- Reserving --------------------------------------------------------

  function ReservationId(taskId: string): string {
    "budget-reservation:" + Strip(taskId)
  }

  function GrantKey(g: Grant): string {
    Strip(g.grantId)
  }

  predicate SamePeriod(u: GrantUsage, g: Grant) {
    u.periodStart == g.periodStart && u.periodEnd == g.periodEnd
  }

  /** The usage entry of a grant: a fresh one if missing, wiped if its period changed. */
  function EnsureGrant(m: Grants, g: Grant): (r: Grants)
    ensures GrantKey(g) in r
  {
    var k := GrantKey(g);
    if k !in m then m[k := GrantUsage(k, g.periodStart, g.periodEnd, 0, 0, 0, EMPTY_POOL)]
    else if !SamePeriod(m[k], g) then m[k := GrantUsage(m[k].grantId, g.periodStart, g.periodEnd, 0, 0, 0, EMPTY_POOL)]
    else m
  }

  function EnsureGrants(m: Grants, gs: seq<Grant>, n: nat): (r: Grants)
    requires n <= |gs|
  {
    if n == 0 then m else EnsureGrant(EnsureGrants(m, gs, n - 1), gs[n - 1])
  }

  predicate HasRoom(u: GrantUsage, g: Grant, cents: int) {
    g.maxCostCents > 0 ==> cents <= g.maxCostCents - u.usedCents - u.pool.reservedCents
  }

  function HoldOnGrant(u: GrantUsage, r: Reservation): GrantUsage {
    u.(pool := u.pool.Hold(r))
  }

  function ReturnToGrant(u: GrantUsage, r: Reservation): GrantUsage {
    u.(pool := u.pool.Return(r.reservationId, r.cents))
  }

  /** Booking a reservation on grants one after the other, up to the first
      that already holds it or has no room left. */
  datatype Booking = Booked(grants: Grants) | Refused(at: nat, reason: Reason, grants: Grants)

  function BookGrant(m: Grants, g: Grant, at: nat, r: Reservation): (b: Booking)
    ensures b.Refused? ==> b.at == at
  {
    var k := GrantKey(g);
    var ensured := EnsureGrant(m, g);
    if r.reservationId in ensured[k].pool.held then Refused(at, ReservationConflict, ensured)
    else if !HasRoom(ensured[k], g, r.cents) then Refused(at, BudgetExhausted, ensured)
    else Booked(ensured[k := HoldOnGrant(ensured[k], r)])
  }

  function BookGrants(m: Grants, gs: seq<Grant>, n: nat, r: Reservation): (b: Booking)
    requires n <= |gs|
    ensures b.Refused? ==> b.at < n
  {
    if n == 0 then Booked(m)
    else
      var before := BookGrants(m, gs, n - 1, r);
      if before.Refused? then before else BookGrant(before.grants, gs[n - 1], n - 1, r)
  }

  lemma BookGrantShape(m: Grants, g: Grant, at: nat, r: Reservation)
    ensures var b := BookGrant(m, g, at, r);
      b == if b.Refused? then Refused(at, b.reason, b.grants) else Booked(b.grants)
  {
  }

  /** After a refusal no further grant is looked at. */
  lemma {:induction false} StaysRefused(m: Grants, gs: seq<Grant>, n: nat, r: Reservation, b: Booking)
    requires n <= |gs| && b.Refused? && BookGrants(m, gs, n, r) == b
    ensures BookGrants(m, gs, |gs|, r) == b
    decreases |gs| - n
  {
    hide BookGrant;
    if n < |gs| {
      StaysRefused(m, gs, n + 1, r, b);
    }
  }

  /** Undo the bookings on the first `n` grants, in booking order. */
  function Rollback(m: Grants, gs: seq<Grant>, n: nat, r: Reservation): Grants
    requires n <= |gs|
  {
    if n == 0 then m
    else
      var before := Rollback(m, gs, n - 1, r);
      var k := GrantKey(gs[n - 1]);
      if k in before then before[k := ReturnToGrant(before[k], r)] else before
  }

  /** A provider budget configured on the node. */
  datatype Settings = Settings(maxCostCents: int, period: string)

  function EnsureProvider(m: Providers, provider: string, s: Settings, window: Window): (r: Providers)
    ensures ProviderKey(provider, NormalPeriod(s.period), window.start) in r
  {
    var period := NormalPeriod(s.period);
    var k := ProviderKey(provider, period, window.start);
    if k in m then m else m[k := ProviderUsage(provider, period, window, s.maxCostCents, 0, 0, EMPTY_POOL)]
  }

  /** The provider's spend in units: exact when there is any, else from its cents. */
  function SpentUnits(u: ProviderUsage): int {
    if u.usedUnits > 0 then u.usedUnits else u.usedCents * CENT
  }

  predicate ProviderHasRoom(u: ProviderUsage, cents: int) {
    cents * CENT <= u.limitCents * CENT - SpentUnits(u) - u.pool.reservedCents * CENT
  }

  datatype ProviderBooking = NoBudget | ProviderRefused(providers: Providers) | ProviderBooked(providers: Providers)

  type Clock = m: Moment | m.Valid() witness Moment(Date(1, 1, 1), 0)

  function SettingsFor(budgets: map<string, Settings>, provider: string): Option<Settings> {
    var key := Strip(provider);
    if key != "" && key in budgets then Some(budgets[key]) else None
  }

  function BookProvider(m: Providers, provider: string, budgets: map<string, Settings>, now: Clock, r: Reservation): ProviderBooking {
    match SettingsFor(budgets, provider)
    case None => NoBudget
    case Some(s) =>
      var window := WindowAt(s.period, now);
      var k := ProviderKey(provider, NormalPeriod(s.period), window.start);
      var ensured := EnsureProvider(m, provider, s, window);
      if r.reservationId in ensured[k].pool.held || !ProviderHasRoom(ensured[k], r.cents) then ProviderRefused(ensured)
      else ProviderBooked(ensured[k := ensured[k].(pool := ensured[k].pool.Hold(r))])
  }

  /** Everything one reserve call depends on; `cents` is the amount to reserve. */
  datatype ReserveCall = ReserveCall(
    taskId: string, request: Request, provider: string, cents: nat,
    bundlePolicy: Option<Policy>, budgets: map<string, Settings>, now: Clock)
  {
    function Claim(): Reservation {
      Reservation(ReservationId(taskId), taskId, cents)
    }
  }

  datatype Decision = Decision(
    allowed: bool, reason: Option<Reason>, reservationId: Option<string>,
    reservedCents: int, appliedGrantIds: seq<string>, policyStatus: string)

  /** Storing a policy that arrived with the governance bundle; an unchanged one is not saved again. */
  function CachePolicy(l: Ledger, bundle: Option<Policy>): Effect<()> {
    if bundle.None? || l.policy == bundle then Effect(l, Some(()))
    else Commit(l, l.(policy := bundle), ())
  }

  /** The denials are the last fifty. */
  function LastFifty(ds: seq<Denial>): seq<Denial> {
    if |ds| <= 50 then ds else ds[|ds| - 50..]
  }

  function Deny(l: Ledger, taskId: string, reason: Reason, policyStatus: string): Effect<Decision> {
    Commit(l, l.(denials := LastFifty(l.denials + [Denial(Strip(taskId), reason)])),
           Decision(false, Some(reason), None, 0, [], policyStatus))
  }

  function PolicyStatus(policy: Option<Policy>): string {
    match policy
    case None => "unconfigured"
    case Some(p) => var s := Lower(Strip(p.status)); if s == "" then "unconfigured" else s
  }

  function ApplicableGrants(p: Policy, call: ReserveCall): (r: seq<Grant>)
    ensures forall g <- r :: g in p.grants
  {
    var now: Moment := call.now;
    ApplicableAreExact(p.grants, |p.grants|, call.request, call.provider, now.Instant());
    ApplicableUpTo(p.grants, |p.grants|, call.request, call.provider, now.Instant())
  }

  /** Reserving with no active policy: only the provider's own budget counts. */
  function ReserveUngoverned(l: Ledger, call: ReserveCall, status: string): Effect<Decision> {
    match BookProvider(l.providers, call.provider, call.budgets, call.now, call.Claim())
    case NoBudget => Effect(l, Some(Decision(true, None, None, 0, [], status)))
    case ProviderRefused(_) => Deny(l, call.taskId, ProviderBudgetExhausted, status)
    case ProviderBooked(ps) =>
      Commit(l, l.(providers := ps), Decision(true, None, Some(ReservationId(call.taskId)), call.cents, [], status))
  }

  /** Reserving under an active policy: on every applicable grant and on the provider, or nowhere. */
  function ReserveGoverned(l: Ledger, call: ReserveCall, gs: seq<Grant>, status: string): Effect<Decision> {
    if gs == [] then Deny(l, call.taskId, MissingBudgetGrant, status)
    else
      match BookGrants(l.grants, gs, |gs|, call.Claim())
      case Refused(_, reason, _) => Deny(l, call.taskId, reason, status)
      case Booked(m) =>
        match BookProvider(l.providers, call.provider, call.budgets, call.now, call.Claim())
        case ProviderRefused(_) => Deny(l, call.taskId, ProviderBudgetExhausted, status)
        case NoBudget => Commit(l, l.(grants := m), Granted(call, gs, status))
        case ProviderBooked(ps) => Commit(l, l.(grants := m, providers := ps), Granted(call, gs, status))
  }

  function Granted(call: ReserveCall, gs: seq<Grant>, status: string): Decision {
    Decision(true, None, Some(ReservationId(call.taskId)), call.cents, GrantKeys(gs), status)
  }

  function GrantKeys(gs: seq<Grant>): (ids: seq<string>)
    ensures |ids| == |gs| && forall i :: 0 <= i < |gs| ==> ids[i] == GrantKey(gs[i])
  {
    seq(|gs|, i requires 0 <= i < |gs| => GrantKey(gs[i]))
  }

  function Reserve(l: Ledger, call: ReserveCall): Effect<Decision> {
    var cached := CachePolicy(l, call.bundlePolicy);
    if cached.outcome.None? then Effect(l, None)
    else
      var policy := cached.stored.policy;
      var status := PolicyStatus(policy);
      if policy.None? || status != "active" then ReserveUngoverned(cached.stored, call, status)
      else ReserveGoverned(cached.stored, call, ApplicableGrants(policy.value, call), status)
  }

  // ---- Settling ---------------------------------------------------------

  /** What an execution reports: an estimated cost in units, and its tokens. */
  datatype Metrics = Metrics(estimatedCost: Option<int>, totalTokens: int)

  function FinalCents(metrics: Option<Metrics>): Option<int> {
    if metrics.None? || metrics.value.estimatedCost.None? then None
    else Some(Max(CeilCents(metrics.value.estimatedCost.value), 0))
  }

  function FinalUnits(metrics: Option<Metrics>): int {
    if metrics.None? || metrics.value.estimatedCost.None? then 0
    else Max(metrics.value.estimatedCost.value, 0)
  }

  function Tokens(metrics: Option<Metrics>): int {
    if metrics.None? then 0 else metrics.value.totalTokens
  }

  /** What a grant is charged: the final cost, or the reserved amount when there is none. */
  function GrantCharge(metrics: Option<Metrics>, reservedCents: int): int {
    if FinalCents(metrics).Some? then FinalCents(metrics).value else reservedCents
  }

  /** What finalizing does to one grant entry: nothing unless it holds the reservation. */
  function FinalizeGrant(u: GrantUsage, id: string, metrics: Option<Metrics>, completed: bool): GrantUsage {
    if id !in u.pool.held then u
    else if !completed then u.(pool := u.pool.Settle(id))
    else u.(
      pool := u.pool.Settle(id),
      usedCents := u.usedCents + Max(GrantCharge(metrics, u.pool.held[id].cents), 0),
      usedRequests := u.usedRequests + 1,
      usedTokens := u.usedTokens + Tokens(metrics))
  }

  function FinalizeProvider(u: ProviderUsage, id: string, metrics: Option<Metrics>, completed: bool): ProviderUsage {
    if id !in u.pool.held then u
    else if !completed then u.(pool := u.pool.Settle(id))
    else
      var units := Max(u.usedUnits, 0) + FinalUnits(metrics);
      u.(pool := u.pool.Settle(id), usedUnits := units, usedCents := Max(CeilCents(units), 0))
  }

  function ReleaseGrant(u: GrantUsage, id: string): GrantUsage {
    if id in u.pool.held then u.(pool := u.pool.Settle(id)) else u
  }

  function ReleaseProvider(u: ProviderUsage, id: string): ProviderUsage {
    if id in u.pool.held then u.(pool := u.pool.Settle(id)) else u
  }

  function GrantFinalizer(id: string, metrics: Option<Metrics>, completed: bool): GrantUsage -> GrantUsage {
    u => FinalizeGrant(u, id, metrics, completed)
  }

  function ProviderFinalizer(id: string, metrics: Option<Metrics>, completed: bool): ProviderUsage -> ProviderUsage {
    u => FinalizeProvider(u, id, metrics, completed)
  }

  function GrantReleaser(id: string): GrantUsage -> GrantUsage {
    u => ReleaseGrant(u, id)
  }

  function ProviderReleaser(id: string): ProviderUsage -> ProviderUsage {
    u => ReleaseProvider(u, id)
  }

  /** The entries in `done` changed by `f`, the others as they were. */
  function Visit<K, U>(m: map<K, U>, done: set<K>, f: U -> U): map<K, U> {
    map k <- m :: if k in done then f(m[k]) else m[k]
  }

  /** The entries in `done` for which there is an amount to report. */
  function Report<K, U>(m: map<K, U>, done: set<K>, amount: U -> Option<int>): map<K, int> {
    map k <- m | k in done && amount(m[k]).Some? :: amount(m[k]).value
  }

  lemma VisitNone<K, U>(m: map<K, U>, f: U -> U, amount: U -> Option<int>)
    ensures Visit(m, {}, f) == m && Report(m, {}, amount) == map[]
  {
  }

  /** Visiting one more entry. */
  lemma VisitOne<K, U>(m: map<K, U>, done: set<K>, f: U -> U, amount: U -> Option<int>, k: K)
    requires k in m && k !in done
    ensures k in Visit(m, done, f) && Visit(m, done, f)[k] == m[k]
    ensures Visit(m, done + {k}, f) == Visit(m, done, f)[k := f(m[k])]
    ensures Report(m, done + {k}, amount) ==
            if amount(m[k]).Some? then Report(m, done, amount)[k := amount(m[k]).value] else Report(m, done, amount)
  {
  }

  /** What a settlement reports: each entry that held the reservation, and the cents it settled. */
  datatype Settlement = Settlement(grants: map<string, int>, providers: map<ProviderKey, int>)

  const UNTOUCHED := Settlement(map[], map[])

  function GrantCharged(id: string, metrics: Option<Metrics>): GrantUsage -> Option<int> {
    (u: GrantUsage) => if id in u.pool.held then Some(GrantCharge(metrics, u.pool.held[id].cents)) else None
  }

  function ProviderCharged(id: string, metrics: Option<Metrics>): ProviderUsage -> Option<int> {
    (u: ProviderUsage) =>
      if id !in u.pool.held then None
      else Some(if FinalCents(metrics).Some? then FinalCents(metrics).value else 0)
  }

  function GrantReturned(id: string): GrantUsage -> Option<int> {
    (u: GrantUsage) => if id in u.pool.held then Some(u.pool.held[id].cents) else None
  }

  function ProviderReturned(id: string): ProviderUsage -> Option<int> {
    (u: ProviderUsage) => if id in u.pool.held then Some(u.pool.held[id].cents) else None
  }

  function SummaryOf(u: GrantUsage): Summary {
    Summary(Strip(u.grantId), u.periodStart, u.periodEnd, u.usedRequests, u.usedTokens, u.usedCents)
  }

  /** The queued summaries after visiting `n` entries: one more for each charged grant, in visiting order. */
  function Summaries(queued: seq<Summary>, m: Grants, order: seq<string>, n: nat, id: string, metrics: Option<Metrics>, completed: bool)
    : seq<Summary>
    requires n <= |order|
    requires forall k <- order :: k in m
  {
    if n == 0 then queued
    else Summaries(queued, m, order, n - 1, id, metrics, completed) + GrantSummary(m[order[n - 1]], id, metrics, completed)
  }

  ghost function SortedSummaries(queued: seq<Summary>, m: Grants, id: string, metrics: Option<Metrics>, completed: bool): seq<Summary> {
    var order := Sorted(m.Keys);
    Summaries(queued, m, order, |order|, id, metrics, completed)
  }

  function GrantSummary(u: GrantUsage, id: string, metrics: Option<Metrics>, completed: bool): seq<Summary> {
    if completed && id in u.pool.held then [SummaryOf(FinalizeGrant(u, id, metrics, completed))] else []
  }

  function FinalizeReport(l: Ledger, id: string, metrics: Option<Metrics>): Settlement {
    Settlement(
      Report(l.grants, l.grants.Keys, GrantCharged(id, metrics)),
      Report(l.providers, l.providers.Keys, ProviderCharged(id, metrics)))
  }

  function ReleaseReport(l: Ledger, id: string): Settlement {
    Settlement(
      Report(l.grants, l.grants.Keys, GrantReturned(id)),
      Report(l.providers, l.providers.Keys, ProviderReturned(id)))
  }

  ghost function Finalized(l: Ledger, id: string, metrics: Option<Metrics>, completed: bool): Ledger {
    l.(grants := Visit(l.grants, l.grants.Keys, GrantFinalizer(id, metrics, completed)),
       providers := Visit(l.providers, l.providers.Keys, ProviderFinalizer(id, metrics, completed)),
       summaries := SortedSummaries(l.summaries, l.grants, id, metrics, completed))
  }

  function Released(l: Ledger, id: string): Ledger {
    l.(grants := Visit(l.grants, l.grants.Keys, GrantReleaser(id)),
       providers := Visit(l.providers, l.providers.Keys, ProviderReleaser(id)))
  }

  /** A settlement that touches no entry saves nothing. */
  function SettleEffect(l: Ledger, next: Ledger, report: Settlement): Effect<Settlement> {
    if report == UNTOUCHED then Effect(l, Some(report)) else Commit(l, next, report)
  }

  ghost function Finalize(l: Ledger, taskId: string, metrics: Option<Metrics>, completed: bool): Effect<Settlement> {
    var id := ReservationId(taskId);
    SettleEffect(l, Finalized(l, id, metrics, completed), FinalizeReport(l, id, metrics))
  }

  function Release(l: Ledger, taskId: string): Effect<Settlement> {
    var id := ReservationId(taskId);
    SettleEffect(l, Released(l, id), ReleaseReport(l, id))
  }
}
