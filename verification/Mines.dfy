/**
 * Mines: the odds of surviving a number of picks and the multiplier they buy. The board size is a parameter; the game uses
 * MINES_TILE_COUNT.
 */
module Mines {
  import opened Arithmetic
  import opened Layouts

  const MINES_TILE_COUNT: nat := 25

  /** The chance that the next pick is safe when i picks have been. */
  function PickOdds(tiles: nat, mines: nat, i: nat): (odds: real)
    requires i + mines < tiles
    ensures 0.0 < odds <= 1.0
  {
    (tiles - mines - i) as real / (tiles - i) as real
  }

  /** The product of the first `revealed` pick odds. */
  function SurvivalOdds(tiles: nat, mines: nat, revealed: nat): (odds: real)
    requires revealed + mines <= tiles
    ensures odds > 0.0
  {
    if revealed == 0 then 1.0
    else SurvivalOdds(tiles, mines, revealed - 1) * PickOdds(tiles, mines, revealed - 1)
  }

  /** The fair multiplier less the house's cut, before rounding. */
  function FairMultiplier(tiles: nat, mines: nat, revealed: nat, edge: real): real
    requires revealed + mines <= tiles
  {
    (1.0 - edge) / SurvivalOdds(tiles, mines, revealed)
  }

  /** The multiplier, in hundredths, for `revealed` safe picks; 0 when nothing or too much is revealed. */
  function MinesMultiplier(tiles: nat, mines: nat, revealed: int, edge: real): int {
    if revealed <= 0 || revealed > tiles - mines then 0
    else Hundredths(FairMultiplier(tiles, mines, revealed, edge))
  }

  /** Multiplies the pick odds one by one. */
  method ComputeMinesMultiplier(tiles: nat, mines: nat, revealed: int, edge: real) returns (multiplier: int)
    ensures multiplier == MinesMultiplier(tiles, mines, revealed, edge)
  {
    if revealed <= 0 {
      return 0;
    }
    var safeTiles := tiles - mines;
    if revealed > safeTiles {
      return 0;
    }
    var survivalOdds := 1.0;
    for i := 0 to revealed
      invariant survivalOdds == SurvivalOdds(tiles, mines, i)
    {
      OddsUnfold(tiles, mines, i + 1);
      survivalOdds := survivalOdds * ((safeTiles - i) as real / (tiles - i) as real);
    }
    return Hundredths((1.0 - edge) / survivalOdds);
  }

  lemma OddsUnfold(n: nat, m: nat, r: nat)
    requires r + m <= n
    ensures SurvivalOdds(n, m, 0) == 1.0
    ensures r > 0 ==> SurvivalOdds(n, m, r) == SurvivalOdds(n, m, r - 1) * PickOdds(n, m, r - 1)
  {
  }

  lemma PickOddsTimes(n: nat, m: nat, i: nat)
    requires i + m < n
    ensures PickOdds(n, m, i) * (n - i) as real == (n - m - i) as real
  {
  }

  /** The odds are the share of the C(n, m) layouts that miss r given tiles ... */
  lemma {:induction false} OddsAreLayoutShare(n: nat, m: nat, r: nat)
    requires r + m <= n
    ensures SurvivalOdds(n, m, r) * Choose(n, m) as real == Choose(n - r, m) as real
  {
    hide *;
    OddsUnfold(n, m, r);
    if r > 0 {
      OddsAreLayoutShare(n, m, r - 1);
      PickOddsTimes(n, m, r - 1);
      var k := n - (r - 1);
      Absorption(k, m);
      RealOfProduct(Choose(k, m), k - m);
      RealOfProduct(k, Choose(k - 1, m));
      ShareStep(SurvivalOdds(n, m, r - 1), PickOdds(n, m, r - 1), Choose(n, m) as real, Choose(k, m) as real,
                Choose(k - 1, m) as real, (k - m) as real, k as real);
    }
  }

  lemma ShareStep(odds: real, pick: real, all: real, a: real, b: real, num: real, den: real)
    requires odds * all == a && a * num == den * b && den > 0.0 && pick * den == num
    ensures odds * pick * all == b
  {
    assert odds * pick * all * den == (odds * all) * (pick * den) == den * b;
  }

  /** ... and equal C(n-m, r) / C(n, r), the share of r-tile picks that are all safe. */
  lemma {:induction false} OddsAreChoiceShare(n: nat, m: nat, r: nat)
    requires r + m <= n
    ensures SurvivalOdds(n, m, r) * Choose(n, r) as real == Choose(n - m, r) as real
  {
    hide *;
    OddsUnfold(n, m, r);
    if r == 0 {
      ChooseNone(n);
      ChooseNone(n - m);
    } else {
      OddsAreChoiceShare(n, m, r - 1);
      PickOddsTimes(n, m, r - 1);
      ChooseStep(n, r - 1);
      ChooseStep(n - m, r - 1);
      ChoiceStep(SurvivalOdds(n, m, r - 1), PickOdds(n, m, r - 1), Choose(n, r), Choose(n, r - 1),
                 Choose(n - m, r), Choose(n - m, r - 1), r, n - m - (r - 1), n - (r - 1));
    }
  }

  lemma ChoiceStep(odds: real, pick: real, a: nat, b: nat, c: nat, d: nat, r: nat, num: nat, den: nat)
    requires a * r == b * den && c * r == d * num && den > 0 && r > 0
    requires odds * b as real == d as real && pick * den as real == num as real
    ensures odds * pick * a as real == c as real
  {
    RealOfProduct(a, r);
    RealOfProduct(b, den);
    RealOfProduct(c, r);
    RealOfProduct(d, num);
    var x, y := odds * pick * a as real, c as real;
    assert x * r as real == (odds * b as real) * (pick * den as real);
    assert x * r as real == y * r as real;
    RealCancel(x, y, r as real);
    RealCancel(y, x, r as real);
  }

  lemma PickOddsShrink(n: nat, m: nat, i: nat)
    requires i + m + 1 < n
    ensures PickOdds(n, m + 1, i) <= PickOdds(n, m, i)
  {
    hide *;
    PickOddsTimes(n, m, i);
    PickOddsTimes(n, m + 1, i);
    RealCancel(PickOdds(n, m + 1, i), PickOdds(n, m, i), (n - i) as real);
  }

  lemma {:induction false} OddsShrink(n: nat, m: nat, r: nat)
    requires r + 1 + m <= n
    ensures SurvivalOdds(n, m, r + 1) <= SurvivalOdds(n, m, r)
    ensures SurvivalOdds(n, m + 1, r) <= SurvivalOdds(n, m, r)
  {
    hide *;
    OddsUnfold(n, m, r + 1);
    ProductShrinks(SurvivalOdds(n, m, r), SurvivalOdds(n, m, r), PickOdds(n, m, r), 1.0);
    OddsUnfold(n, m, r);
    OddsUnfold(n, m + 1, r);
    if r > 0 {
      OddsShrink(n, m, r - 1);
      PickOddsShrink(n, m, r - 1);
      ProductShrinks(SurvivalOdds(n, m + 1, r - 1), SurvivalOdds(n, m, r - 1), PickOdds(n, m + 1, r - 1), PickOdds(n, m, r - 1));
    }
  }

  lemma ProductShrinks(a: real, b: real, c: real, d: real)
    requires 0.0 <= a <= b && 0.0 <= c <= d
    ensures a * c <= b * d
  {
    RealMulMonotone(a, b, c);
    RealMulMonotone(c, d, b);
  }

  /** Another pick or another mine never lowers the rounded multiplier, as long as the picks can be survived. */
  lemma MultiplierGrows(n: nat, m: nat, r: nat, edge: real)
    requires r + 1 + m <= n && edge <= 1.0
    ensures MinesMultiplier(n, m, r, edge) <= MinesMultiplier(n, m, r + 1, edge)
    ensures MinesMultiplier(n, m, r, edge) <= MinesMultiplier(n, m + 1, r, edge)
  {
    OddsShrink(n, m, r);
    QuotientGrows(1.0 - edge, SurvivalOdds(n, m, r + 1), SurvivalOdds(n, m, r));
    QuotientGrows(1.0 - edge, SurvivalOdds(n, m + 1, r), SurvivalOdds(n, m, r));
    Round2Monotone(FairMultiplier(n, m, r, edge), FairMultiplier(n, m, r + 1, edge));
    Round2Monotone(FairMultiplier(n, m, r, edge), FairMultiplier(n, m + 1, r, edge));
  }

  lemma QuotientGrows(x: real, a: real, b: real)
    requires 0.0 <= x && 0.0 < a <= b
    ensures 0.0 <= x / b <= x / a
  {
    var p, q := x / b, x / a;
    assert p * b == x == q * a && p >= 0.0;
    RealMulMonotone(a, b, p);
    RealCancel(p, q, a);
  }
}
