/** Money in whole units of 1e-10 USD, the grain to which the ledger rounds, so
    that every sum and comparison is exact. */
module Money {

  /** Units in one cent. */
  const CENT := 100_000_000

  function Max(a: int, b: int): int {
    if a < b then b else a
  }

  /** `math.ceil(usd * 100)`: the least number of cents that covers the amount. */
  function CeilCents(units: int): (cents: int)
    ensures (cents - 1) * CENT < units <= cents * CENT
  {
    -((-units) / CENT)
  }

  function Sum(amounts: seq<int>): int {
    if amounts == [] then 0 else Sum(amounts[..|amounts| - 1]) + amounts[|amounts| - 1]
  }

  /** The amounts charged one by one, each rounded up to a cent. */
  function SumOfCeilings(amounts: seq<int>): int {
    if amounts == [] then 0
    else SumOfCeilings(amounts[..|amounts| - 1]) + CeilCents(amounts[|amounts| - 1])
  }

  /** Rounding each of `n` charges up costs at least the rounded total and
      at most `n - 1` cents more. */
  lemma {:induction false} RoundingGap(amounts: seq<int>)
    requires amounts != []
    ensures CeilCents(Sum(amounts)) <= SumOfCeilings(amounts) <= CeilCents(Sum(amounts)) + |amounts| - 1
  {
    var rest := amounts[..|amounts| - 1];
    if rest == [] {
      assert Sum(amounts) == amounts[0];
      assert SumOfCeilings(rest) == 0;
    } else {
      RoundingGap(rest);
    }
  }
}
