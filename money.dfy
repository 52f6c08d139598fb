/**
 * Prices are whole CUP amounts. Every surcharge in the storefront is written
 * `Math.round(base * (1 + fee / 100))`; over exact rationals that is
 * floor((base * (100 + fee) + 50) / 100), and Dafny's `/` by a positive divisor
 * is exactly that floor, for negative numerators too.
 */
module Money {

  /** Chapter price hard-coded wherever a novela cost is derived. */
  const ChapterPrice: int := 5

  /** The surcharged price rounded to the nearest integer, halves rounded up. */
  function Surcharged(base: int, fee: int): (r: int)
    ensures 100 * r - 50 <= base * (100 + fee) < 100 * r + 50
  {
    (base * (100 + fee) + 50) / 100
  }

  /** A non-negative fee never lowers a non-negative price. */
  lemma SurchargeNotBelowBase(base: int, fee: int)
    requires base >= 0 && fee >= 0
    ensures Surcharged(base, fee) >= base
  {
    var r := Surcharged(base, fee);
    assert base * (100 + fee) == 100 * base + base * fee;
    assert base * fee >= 0;
  }

  /** A zero fee leaves every price as it is. */
  lemma SurchargeZeroFee(base: int)
    ensures Surcharged(base, 0) == base
  {
  }

  /** Once the surcharge is worth half a CUP or more, the transfer price is strictly higher. */
  lemma SurchargeStrictlyAboveBase(base: int, fee: int)
    requires base * fee >= 50
    ensures Surcharged(base, fee) > base
  {
    assert base * (100 + fee) == 100 * base + base * fee;
  }

  /**
   * A positive fee can still round away: 1 CUP at 10% stays 1 CUP, so "the
   * transfer price equals the cash price only when the fee is 0" does not hold.
   */
  lemma SmallSurchargeRoundsAway()
    ensures Surcharged(1, 10) == 1
  {
  }

  /** Larger bases give larger (or equal) surcharged prices. */
  lemma SurchargeMonotone(b1: int, b2: int, fee: int)
    requires b1 <= b2 && fee >= -100
    ensures Surcharged(b1, fee) <= Surcharged(b2, fee)
  {
    assert b2 * (100 + fee) - b1 * (100 + fee) == (b2 - b1) * (100 + fee);
    assert (b2 - b1) * (100 + fee) >= 0;
  }
}
