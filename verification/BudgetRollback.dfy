/** All or nothing: a refused reservation leaves no trace, on the working copy or in the store,
    and a granted one is undone exactly by its release. */
module BudgetRollback {
  import opened Text
  import opened Money
  import opened BudgetLedger

  /** Some grant among the first `n` uses entry `k`; two of them do. */
  ghost predicate Uses(gs: seq<Grant>, n: nat, k: string)
    requires n <= |gs|
  {
    exists i :: 0 <= i < n && GrantKey(gs[i]) == k
  }

  ghost predicate UsesTwice(gs: seq<Grant>, n: nat, k: string)
    requires n <= |gs|
  {
    exists i, j :: 0 <= i < j < n && GrantKey(gs[i]) == k && GrantKey(gs[j]) == k
  }

  lemma UsesStep(gs: seq<Grant>, n: nat, k: string)
    requires 0 < n <= |gs|
    ensures Uses(gs, n, k) <==> Uses(gs, n - 1, k) || GrantKey(gs[n - 1]) == k
    ensures UsesTwice(gs, n, k) <==> UsesTwice(gs, n - 1, k) || (Uses(gs, n - 1, k) && GrantKey(gs[n - 1]) == k)
  {
    hide GrantKey;
    if i :| 0 <= i < n - 1 && GrantKey(gs[i]) == k {
      assert GrantKey(gs[n - 1]) == k ==> UsesTwice(gs, n, k);
    }
  }

  /** `u` is `ensured` with the reservation `r` held once if the entry was
      used; an entry used twice had its period changed on the way, so it was
      emptied. */
  ghost predicate HeldOnce(u: GrantUsage, ensured: GrantUsage, used: bool, twice: bool, r: Reservation) {
    && ensured.pool.reservedCents >= 0
    && (!used ==> u == ensured)
    && (used ==> r.reservationId !in ensured.pool.held && u == HoldOnGrant(ensured, r))
    && (twice ==> ensured.pool == EMPTY_POOL)
  }

  ghost predicate HeldOnceAt(booked: Grants, ensured: Grants, gs: seq<Grant>, n: nat, r: Reservation, k: string)
    requires n <= |gs|
  {
    && (k in booked <==> k in ensured)
    && (k in booked ==> HeldOnce(booked[k], ensured[k], Uses(gs, n, k), UsesTwice(gs, n, k), r))
  }

  /** Booking on `n` grants is making sure of their entries and holding the
      reservation once on each; seen at one entry. */
  lemma {:induction false} BookingHoldsOnce(m: Grants, gs: seq<Grant>, n: nat, r: Reservation, k: string)
    requires n <= |gs| && (k in m ==> m[k].pool.reservedCents >= 0)
    ensures var b := BookGrants(m, gs, n, r);
      b.Booked? ==> HeldOnceAt(b.grants, EnsureGrants(m, gs, n), gs, n, r, k)
  {
    hide HeldOnceAt, GrantKey;
    if n == 0 {
      NothingHeldYet(m, gs, r, k);
    } else {
      var before := BookGrants(m, gs, n - 1, r);
      if before.Booked? {
        BookingHoldsOnce(m, gs, n - 1, r, k);
        BookingOneMore(before.grants, EnsureGrants(m, gs, n - 1), gs, n, r, k);
      }
    }
  }

  lemma NothingHeldYet(m: Grants, gs: seq<Grant>, r: Reservation, k: string)
    requires k in m ==> m[k].pool.reservedCents >= 0
    ensures HeldOnceAt(m, m, gs, 0, r, k)
  {
  }

  lemma BookingOneMore(before: Grants, ensured: Grants, gs: seq<Grant>, n: nat, r: Reservation, k: string)
    requires 0 < n <= |gs|
    ensures var b := BookGrant(before, gs[n - 1], n - 1, r);
      HeldOnceAt(before, ensured, gs, n - 1, r, k) && b.Booked? ==>
        HeldOnceAt(b.grants, EnsureGrant(ensured, gs[n - 1]), gs, n, r, k)
  {
    hide *;
    UsesStep(gs, n, k);
    if GrantKey(gs[n - 1]) == k { BookingHere(before, ensured, gs, n, r, k); } else { BookingElsewhere(before, ensured, gs, n, r, k); }
  }

  /** The case of an entry that the grant does not use. */
  lemma BookingElsewhere(before: Grants, ensured: Grants, gs: seq<Grant>, n: nat, r: Reservation, k: string)
    requires 0 < n <= |gs| && GrantKey(gs[n - 1]) != k
    requires Uses(gs, n, k) <==> Uses(gs, n - 1, k)
    requires UsesTwice(gs, n, k) <==> UsesTwice(gs, n - 1, k)
    ensures var b := BookGrant(before, gs[n - 1], n - 1, r);
      HeldOnceAt(before, ensured, gs, n - 1, r, k) && b.Booked? ==>
        HeldOnceAt(b.grants, EnsureGrant(ensured, gs[n - 1]), gs, n, r, k)
  {
    hide GrantKey, HasRoom, HeldOnce, Uses, UsesTwice;
  }

  /** The case of the entry the grant uses. */
  lemma BookingHere(before: Grants, ensured: Grants, gs: seq<Grant>, n: nat, r: Reservation, k: string)
    requires 0 < n <= |gs| && GrantKey(gs[n - 1]) == k
    requires Uses(gs, n, k)
    requires UsesTwice(gs, n, k) <==> UsesTwice(gs, n - 1, k) || Uses(gs, n - 1, k)
    ensures var b := BookGrant(before, gs[n - 1], n - 1, r);
      HeldOnceAt(before, ensured, gs, n - 1, r, k) && b.Booked? ==>
        HeldOnceAt(b.grants, EnsureGrant(ensured, gs[n - 1]), gs, n, r, k)
  {
    hide GrantKey, HasRoom, Uses, UsesTwice;
  }

  /** Undoing gives a used entry back, even one that is undone twice, and touches no other. */
  lemma {:induction false} RollbackGivesBack(m: Grants, gs: seq<Grant>, n: nat, r: Reservation, k: string, target: GrantUsage)
    requires n <= |gs| && k in m
    requires Uses(gs, n, k) ==> ReturnToGrant(m[k], r) == target
    requires UsesTwice(gs, n, k) ==> target.pool == EMPTY_POOL && r.cents >= 0
    ensures k in Rollback(m, gs, n, r)
    ensures Rollback(m, gs, n, r)[k] == if Uses(gs, n, k) then target else m[k]
  {
    hide Uses, UsesTwice, ReturnToGrant, GrantKey;
    if n == 0 {
      NoneUsed(gs, k);
    } else {
      UsesStep(gs, n, k);
      RollbackGivesBack(m, gs, n - 1, r, k, target);
      ReturnToEmpty(target, r);
    }
  }

  lemma NoneUsed(gs: seq<Grant>, k: string)
    ensures !Uses(gs, 0, k)
  {
  }

  lemma ReturnToEmpty(u: GrantUsage, r: Reservation)
    ensures u.pool == EMPTY_POOL && r.cents >= 0 ==> ReturnToGrant(u, r) == u
  {
    assert EMPTY_POOL.held - {r.reservationId} == map[];
  }

  lemma {:induction false} RollbackKeepsKeys(m: Grants, gs: seq<Grant>, n: nat, r: Reservation)
    requires n <= |gs|
    ensures Rollback(m, gs, n, r).Keys == m.Keys
  {
    if n > 0 { RollbackKeepsKeys(m, gs, n - 1, r); }
  }

  lemma RollbackAt(booked: Grants, ensured: Grants, gs: seq<Grant>, n: nat, r: Reservation, k: string)
    requires n <= |gs| && r.cents >= 0
    ensures HeldOnceAt(booked, ensured, gs, n, r, k) ==> SameAt(Rollback(booked, gs, n, r), ensured, k)
  {
    RollbackKeepsKeys(booked, gs, n, r);
    if HeldOnceAt(booked, ensured, gs, n, r, k) && k in booked {
      if Uses(gs, n, k) { ReturnUndoesHold(ensured[k].pool, r); }
      RollbackGivesBack(booked, gs, n, r, k, ensured[k]);
    }
  }

  lemma RefusedRollbackAt(booked: Grants, ensured: Grants, gs: seq<Grant>, at: nat, r: Reservation, k: string)
    requires at < |gs| && r.cents >= 0
    ensures var left, target := EnsureGrant(booked, gs[at]), EnsureGrant(ensured, gs[at]);
      HeldOnceAt(booked, ensured, gs, at, r, k) ==> SameAt(Rollback(left, gs, at, r), target, k)
  {
    hide *;
    var left, target := EnsureGrant(booked, gs[at]), EnsureGrant(ensured, gs[at]);
    RollbackKeepsKeys(left, gs, at, r);
    if HeldOnceAt(booked, ensured, gs, at, r, k) {
      EnsuredHeldOnce(booked, ensured, gs, at, r, k);
      if k in left { RollbackGivesBack(left, gs, at, r, k, target[k]); }
    }
    AgreeAt(Rollback(left, gs, at, r), target, k);
  }

  lemma AgreeAt(a: Grants, b: Grants, k: string)
    ensures (k in a <==> k in b) && (k in a ==> a[k] == b[k]) ==> SameAt(a, b, k)
  {
  }

  /** Making sure of one more entry on both sides leaves the reservation to be given back once. */
  lemma EnsuredHeldOnce(booked: Grants, ensured: Grants, gs: seq<Grant>, at: nat, r: Reservation, k: string)
    requires at < |gs| && r.cents >= 0 && HeldOnceAt(booked, ensured, gs, at, r, k)
    ensures var left, target := EnsureGrant(booked, gs[at]), EnsureGrant(ensured, gs[at]);
      && (k in left <==> k in target)
      && (k in left && Uses(gs, at, k) ==> ReturnToGrant(left[k], r) == target[k])
      && (k in left && UsesTwice(gs, at, k) ==> target[k].pool == EMPTY_POOL)
      && (k in left && !Uses(gs, at, k) ==> left[k] == target[k])
  {
    hide GrantKey, Uses, UsesTwice;
    if k in booked && Uses(gs, at, k) {
      ReturnUndoesHold(ensured[k].pool, r);
      assert EMPTY_POOL.held - {r.reservationId} == map[];
    }
  }

  ghost predicate SameAt(a: Grants, b: Grants, k: string) {
    (k in a <==> k in b) && (k in a ==> a[k] == b[k])
  }

  lemma SameEverywhere(a: Grants, b: Grants)
    requires forall k :: SameAt(a, b, k)
    ensures a == b
  {
    assert forall k :: SameAt(a, b, k) ==> (k in a <==> k in b);
  }

  lemma RefusingGrant(m: Grants, g: Grant, at: nat, r: Reservation)
    ensures var b := BookGrant(m, g, at, r);
      b.Refused? ==> b.grants == EnsureGrant(m, g)
  {
  }

  /** A refusal happens at the first grant that does not take the reservation. */
  lemma {:induction false} RefusalPoint(m: Grants, gs: seq<Grant>, n: nat, r: Reservation, b: Booking)
    requires n <= |gs| && b == BookGrants(m, gs, n, r) && b.Refused?
    ensures var before := BookGrants(m, gs, b.at, r);
      before.Booked? && b.grants == EnsureGrant(before.grants, gs[b.at])
  {
    hide BookGrant;
    var before := BookGrants(m, gs, n - 1, r);
    if before.Refused? {
      RefusalPoint(m, gs, n - 1, r, b);
    } else {
      RefusingGrant(before.grants, gs[n - 1], n - 1, r);
    }
  }

  /** Whatever refuses a reservation, the rollback leaves on the working copy
      exactly the entries it found, up to fresh or newly emptied entries of
      the grants it looked at. Grants that share an id are covered. */
  lemma RefusedBookingIsUndone(m: Grants, gs: seq<Grant>, r: Reservation, b: Booking)
    requires r.cents >= 0 && forall k <- m :: m[k].pool.reservedCents >= 0
    requires BookGrants(m, gs, |gs|, r) == b && b.Refused?
    ensures Rollback(b.grants, gs, b.at, r) == EnsureGrants(m, gs, b.at + 1)
  {
    RefusalPoint(m, gs, |gs|, r, b);
    var before, ensured := BookGrants(m, gs, b.at, r), EnsureGrants(m, gs, b.at);
    var undone, target := Rollback(b.grants, gs, b.at, r), EnsureGrants(m, gs, b.at + 1);
    assert target == EnsureGrant(ensured, gs[b.at]);
    forall k: string ensures SameAt(undone, target, k) {
      BookingHoldsOnce(m, gs, b.at, r, k);
      RefusedRollbackAt(before.grants, ensured, gs, b.at, r, k);
    }
    SameEverywhere(undone, target);
  }

  /** The same when every grant took the reservation and the provider refuses it. */
  lemma FullBookingIsUndone(m: Grants, gs: seq<Grant>, r: Reservation, b: Booking)
    requires r.cents >= 0 && forall k <- m :: m[k].pool.reservedCents >= 0
    requires BookGrants(m, gs, |gs|, r) == b && b.Booked?
    ensures Rollback(b.grants, gs, |gs|, r) == EnsureGrants(m, gs, |gs|)
  {
    var undone, target := Rollback(b.grants, gs, |gs|, r), EnsureGrants(m, gs, |gs|);
    forall k: string ensures SameAt(undone, target, k) {
      BookingHoldsOnce(m, gs, |gs|, r, k);
      RollbackAt(b.grants, target, gs, |gs|, r, k);
    }
    SameEverywhere(undone, target);
  }
}
