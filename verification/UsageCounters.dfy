/** Usage counters, and sums of them over a log of charges. Costs are whole
    units of 1e-10 USD. */
module UsageCounters {
  import opened Money
  import opened Text

  datatype Counters = Counters(
    calls: int,
    promptTokens: int,
    cachedInputTokens: int,
    completionTokens: int,
    totalTokens: int,
    cost: int)

  const ZERO := Counters(0, 0, 0, 0, 0, 0)

  function Plus(a: Counters, b: Counters): Counters {
    Counters(a.calls + b.calls, a.promptTokens + b.promptTokens, a.cachedInputTokens + b.cachedInputTokens,
             a.completionTokens + b.completionTokens, a.totalTokens + b.totalTokens, a.cost + b.cost)
  }

  /** Every counter raised to at least zero. */
  function Clamp(a: Counters): Counters {
    Counters(Max(a.calls, 0), Max(a.promptTokens, 0), Max(a.cachedInputTokens, 0),
             Max(a.completionTokens, 0), Max(a.totalTokens, 0), Max(a.cost, 0))
  }

  /** The sum of the charges of the entries picked from a log. */
  ghost function Charged<T>(log: seq<T>, charge: T -> Counters, picks: T -> bool): Counters {
    if log == [] then ZERO
    else
      var before := Charged(log[..|log| - 1], charge, picks);
      if picks(log[|log| - 1]) then Plus(before, charge(log[|log| - 1])) else before
  }

  ghost function SumOf<K>(keys: seq<K>, part: K -> Counters): Counters {
    if keys == [] then ZERO else Plus(SumOf(keys[..|keys| - 1], part), part(keys[|keys| - 1]))
  }

  /** The picked entries filed under one key. */
  ghost function Under<T, K(!new)>(picks: T -> bool, keyOf: T -> K, key: K): T -> bool {
    e => picks(e) && keyOf(e) == key
  }

  ghost function ChargedUnder<T, K(!new)>(log: seq<T>, charge: T -> Counters, picks: T -> bool, keyOf: T -> K): K -> Counters {
    key => Charged(log, charge, Under(picks, keyOf, key))
  }

  lemma {:induction false} SamePicks<T>(log: seq<T>, charge: T -> Counters, p: T -> bool, q: T -> bool)
    requires forall i :: 0 <= i < |log| ==> p(log[i]) == q(log[i])
    ensures Charged(log, charge, p) == Charged(log, charge, q)
  {
    if log != [] {
      SamePicks(log[..|log| - 1], charge, p, q);
    }
  }

  lemma {:induction false} SameParts<K(!new)>(keys: seq<K>, f: K -> Counters, g: K -> Counters)
    requires forall k :: k in keys ==> f(k) == g(k)
    ensures SumOf(keys, f) == SumOf(keys, g)
  {
    if keys != [] {
      SameParts(keys[..|keys| - 1], f, g);
    }
  }

  /** Raising one part raises the sum by as much. */
  lemma {:induction false} RaisedPart<K(!new)>(keys: seq<K>, f: K -> Counters, g: K -> Counters, key: K, extra: Counters)
    requires Distinct(keys) && key in keys
    requires g(key) == Plus(f(key), extra)
    requires forall k :: k in keys && k != key ==> f(k) == g(k)
    ensures SumOf(keys, g) == Plus(SumOf(keys, f), extra)
  {
    var rest, last := keys[..|keys| - 1], keys[|keys| - 1];
    if last == key {
      assert forall k :: k in rest ==> k != key;
      SameParts(rest, f, g);
    } else {
      RaisedPart(rest, f, g, key, extra);
    }
  }

  lemma {:induction false} NothingCharged<K(!new)>(keys: seq<K>, f: K -> Counters)
    requires forall k :: k in keys ==> f(k) == ZERO
    ensures SumOf(keys, f) == ZERO
  {
    if keys != [] {
      NothingCharged(keys[..|keys| - 1], f);
    }
  }

  /** Splitting the picked charges by key loses none and counts none twice. */
  lemma {:induction false} PartsMakeTheWhole<T, K(!new)>(log: seq<T>, charge: T -> Counters, picks: T -> bool, keyOf: T -> K, keys: seq<K>)
    requires Distinct(keys)
    requires forall i :: 0 <= i < |log| && picks(log[i]) ==> keyOf(log[i]) in keys
    ensures SumOf(keys, ChargedUnder(log, charge, picks, keyOf)) == Charged(log, charge, picks)
  {
    var now := ChargedUnder(log, charge, picks, keyOf);
    if log == [] {
      NothingCharged(keys, now);
    } else {
      var before, last := log[..|log| - 1], log[|log| - 1];
      var was := ChargedUnder(before, charge, picks, keyOf);
      PartsMakeTheWhole(before, charge, picks, keyOf, keys);
      if picks(last) {
        RaisedPart(keys, was, now, keyOf(last), charge(last));
      } else {
        SameParts(keys, was, now);
      }
    }
  }

  /** Sums of charges that are never negative are never negative. */
  lemma {:induction false} ChargesAreNotNegative<T(!new)>(log: seq<T>, charge: T -> Counters, picks: T -> bool)
    requires forall e: T :: Clamp(charge(e)) == charge(e)
    ensures Clamp(Charged(log, charge, picks)) == Charged(log, charge, picks)
  {
    if log != [] {
      ChargesAreNotNegative(log[..|log| - 1], charge, picks);
      assert Clamp(charge(log[|log| - 1])) == charge(log[|log| - 1]);
    }
  }
}
