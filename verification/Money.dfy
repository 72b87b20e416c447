/** Exact decimal products and their storage as numeric(24,8). */
module Money {

  const SCALE: int := 100_000_000
  const HALF: int := 50_000_000
  const LIMIT: int := 1_000_000_000_000_000_000_000_000

  /** numeric(24,8) holds 24 digits, so values strictly inside +-10^24 units of 10^-8. */
  predicate Fits(units: int) {
    -LIMIT < units < LIMIT
  }

  /** Rounds a product in units of 10^-16 to units of 10^-8, half away from zero. */
  function Rescale(gross: int): int {
    if gross >= 0 then (gross + HALF) / SCALE else -((-gross + HALF) / SCALE)
  }

  /** Rounds an exact decimal to units of 10^-8, half away from zero. */
  function ToUnits(x: real): int {
    if x >= 0.0 then (x * 100000000.0 + 0.5).Floor else -((-x * 100000000.0 + 0.5).Floor)
  }

  /** The amount column: numeric(24,8) with CHECK (amount > 0). */
  predicate AmountStorable(gross: int) {
    Fits(Rescale(gross)) && Rescale(gross) > 0
  }

  function Sum(xs: seq<int>): int {
    if xs == [] then 0 else xs[0] + Sum(xs[1..])
  }

  function Stored(grosses: seq<int>): (r: seq<int>)
    ensures |r| == |grosses|
  {
    if grosses == [] then [] else [Rescale(grosses[0])] + Stored(grosses[1..])
  }

  /** An amount is accepted by its column exactly in this window of exact products. */
  lemma AmountWindow(gross: int)
    ensures AmountStorable(gross) <==> 50_000_000 <= gross < 100_000_000_000_000_000_000_000_000_000_000 - 50_000_000
  {
    if gross >= 0 {
      DivBounds(gross + HALF);
    } else {
      DivBounds(-gross + HALF);
    }
  }

  lemma DivBounds(n: int)
    ensures n / SCALE * SCALE <= n < n / SCALE * SCALE + SCALE
  {}

  /** Storing an amount moves it by at most half a unit: 5 * 10^-9. */
  lemma RoundingError(gross: int)
    ensures -HALF <= Rescale(gross) * SCALE - gross <= HALF
  {
    if gross >= 0 {
      DivBounds(gross + HALF);
    } else {
      DivBounds(-gross + HALF);
    }
  }

  /** The total of n stored amounts is within n * 5 * 10^-9 of the exact total. */
  lemma {:induction false} TotalRoundingError(grosses: seq<int>)
    ensures -(|grosses| * HALF) <= Sum(Stored(grosses)) * SCALE - Sum(grosses) <= |grosses| * HALF
  {
    if grosses != [] {
      RoundingError(grosses[0]);
      TotalRoundingError(grosses[1..]);
      assert Stored(grosses)[1..] == Stored(grosses[1..]);
    }
  }

  /** Exactly which decimals survive storage as a positive quantity. */
  lemma QuantityWindow(x: real)
    ensures 0 < ToUnits(x) < LIMIT <==> 0.5 <= x * 100000000.0 < LIMIT as real - 0.5
  {
    var y := x * 100000000.0;
    if x >= 0.0 {
      assert (y + 0.5).Floor as real <= y + 0.5 < (y + 0.5).Floor as real + 1.0;
    } else {
      assert -x * 100000000.0 == -y;
      assert (-y + 0.5).Floor as real <= -y + 0.5 < (-y + 0.5).Floor as real + 1.0;
    }
  }

  /** Storage loses the sign of no decimal, and moves none by more than half a unit. */
  lemma StorageError(x: real)
    ensures -0.5 <= ToUnits(x) as real - x * 100000000.0 <= 0.5
    ensures x >= 0.0 ==> ToUnits(x) >= 0
    ensures x < 0.0 ==> ToUnits(x) <= 0
  {
    var y := x * 100000000.0;
    if x < 0.0 {
      assert -x * 100000000.0 == -y;
    }
  }
}
