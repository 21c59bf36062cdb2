/** Small facts about products and quotients, and the rounding of prices and multipliers. */
module Arithmetic {
  lemma MulMonotone(a: int, b: int, c: int)
    requires a <= b && 0 <= c
    ensures a * c <= b * c
  {
    assert (b - a) * c >= 0;
  }

  lemma Cancel(a: int, b: int, c: int)
    requires 0 < c && a * c < b * c
    ensures a < b
  {
    if b <= a {
      MulMonotone(b, a, c);
    }
  }

  lemma DivBounds(x: int, d: int)
    requires d > 0
    ensures (x / d) * d <= x < (x / d) * d + d
  {
    assert x == (x / d) * d + x % d;
  }

  lemma DivIs(x: int, d: int, q: int)
    requires d > 0 && q * d <= x < q * d + d
    ensures x / d == q
  {
    DivBounds(x, d);
    var p := x / d;
    assert (q + 1) * d == q * d + d && (p + 1) * d == p * d + d;
    Cancel(p, q + 1, d);
    Cancel(q, p + 1, d);
  }

  function Larger(x: real, y: real): real {
    if x < y then y else x
  }

  lemma RealMulMonotone(a: real, b: real, c: real)
    requires a <= b && 0.0 <= c
    ensures a * c <= b * c
  {
    assert (b - a) * c >= 0.0;
  }

  lemma RealMulStrict(a: real, b: real, c: real)
    requires a < b && 0.0 < c
    ensures a * c < b * c
  {
    assert (b - a) * c > 0.0;
  }

  lemma RealCancel(a: real, b: real, c: real)
    requires a * c <= b * c && c > 0.0
    ensures a <= b
  {
    if b < a {
      RealMulStrict(b, a, c);
    }
  }

  /** A product, for proofs in which it is only compared. */
  function Times(x: real, y: real): real {
    x * y
  }

  lemma TimesIs(x: real, y: real)
    ensures Times(x, y) == x * y
  {
  }

  lemma QuotientIs(x: real, a: real, q: real)
    requires a > 0.0 && x == q * a
    ensures x / a == q
  {
  }

  lemma RealCancelEqual(a: real, b: real, c: real)
    requires a * c == b * c && c > 0.0
    ensures a == b
  {
    RealCancel(a, b, c);
    RealCancel(b, a, c);
  }

  lemma RealOfProduct(a: int, b: int)
    ensures (a * b) as real == a as real * b as real
  {
  }

  /** The number of whole hundredths nearest to x, ties going up, as Math.round(x * 100) yields it. */
  function Hundredths(x: real): int {
    (x * 100.0 + 0.5).Floor
  }

  /** x rounded to two decimals, as prices, multipliers and payouts are. */
  function Round2(x: real): real {
    Hundredths(x) as real / 100.0
  }

  lemma HundredthsError(x: real)
    ensures 100.0 * x - 0.5 < Hundredths(x) as real <= 100.0 * x + 0.5
  {
  }

  lemma Round2Error(x: real)
    ensures -0.005 < Round2(x) - x <= 0.005
  {
  }

  lemma Round2Monotone(x: real, y: real)
    requires x <= y
    ensures Hundredths(x) <= Hundredths(y) && Round2(x) <= Round2(y)
  {
  }

  /** A value that is already in whole hundredths is left alone. */
  lemma Round2Exact(h: int)
    ensures Hundredths(h as real / 100.0) == h
  {
  }

  /** The payout in cents of a stake in cents at a multiplier in hundredths. */
  function PayoutCents(stake: int, multiplier: int): int {
    (stake * multiplier + 50) / 100
  }

  /** This is what rounding stake * multiplier to two decimals gives. */
  lemma PayoutIsRoundMoney(stake: int, multiplier: int)
    ensures PayoutCents(stake, multiplier) == Hundredths((stake as real / 100.0) * (multiplier as real / 100.0))
  {
    var p := stake * multiplier;
    assert (stake as real / 100.0) * (multiplier as real / 100.0) == p as real / 10000.0 by {
      assert p as real == stake as real * multiplier as real;
    }
    DivBounds(p + 50, 100);
  }

  /** Rounding the multiplier and then the payout moves a payout by at most half a cent plus half a percent of the stake. */
  lemma PayoutError(stake: nat, fair: real)
    ensures var exact := stake as real * fair;
            var paid := PayoutCents(stake, Hundredths(fair)) as real;
            -(0.5 + 0.005 * stake as real) <= paid - exact <= 0.5 + 0.005 * stake as real
  {
    var h, s := Hundredths(fair), stake as real;
    Round2Error(fair);
    DivBounds(stake * h + 50, 100);
    assert (stake * h) as real == s * h as real;
    RealMulMonotone(-0.005, Round2(fair) - fair, s);
    RealMulMonotone(Round2(fair) - fair, 0.005, s);
    assert (Round2(fair) - fair) * s == s * h as real / 100.0 - s * fair;
  }
}
