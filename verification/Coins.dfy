/** Quoting a deposit in a coin: rounding, match windows, and amounts that no open quote has yet. */
module Coins {
  import opened Arithmetic

  datatype Coin = BTC | ETH | USDT | USDC | SOL | LTC

  datatype CoinQuote = CoinQuote(decimals: nat, floor: real, tolerance: real, confirmations: int)

  function Meta(coin: Coin): CoinQuote {
    match coin
    case BTC => CoinQuote(8, 0.000001, 0.15, 3)
    case ETH => CoinQuote(8, 0.00001, 0.15, 12)
    case USDT => CoinQuote(6, 0.02, 0.015, 12)
    case USDC => CoinQuote(6, 0.02, 0.015, 12)
    case SOL => CoinQuote(9, 0.001, 0.08, 32)
    case LTC => CoinQuote(8, 0.00001, 0.15, 6)
  }

  /** 10^decimals for the decimals in use. */
  function Factor(decimals: nat): (f: nat)
    ensures f > 0
  {
    if decimals == 0 then 1 else 10 * Factor(decimals - 1)
  }

  /** Amounts are whole numbers of the coin's smallest quoted unit, 10^-decimals coins. */
  function RoundCrypto(value: real, decimals: nat): int {
    (value * Factor(decimals) as real + 0.5).Floor
  }

  function Value(amount: int, decimals: nat): real {
    amount as real / Factor(decimals) as real
  }

  /** An amount that is already in whole units is left alone. */
  lemma RoundCryptoExact(amount: int, decimals: nat)
    ensures RoundCrypto(Value(amount, decimals), decimals) == amount
  {
    var f := Factor(decimals) as real;
    assert amount as real / f * f == amount as real;
  }

  lemma RoundCryptoAtLeast(value: real, decimals: nat, units: int)
    requires value * Factor(decimals) as real >= units as real
    ensures RoundCrypto(value, decimals) >= units
  {
  }

  function MatchWindowFor(coin: Coin, expected: real): (window: real)
    ensures window >= Meta(coin).floor > 0.0
  {
    if expected <= 0.0 then Meta(coin).floor else Larger(Meta(coin).floor, expected * Meta(coin).tolerance)
  }

  /** The gap between the rungs that quotes climb, in units. */
  function UniquenessStepFor(coin: Coin, expected: real): int {
    RoundCrypto(MatchWindowFor(coin, expected) * 2.2, Meta(coin).decimals)
  }

  /** Even the least gap is many units, so the search for a free amount always moves. */
  lemma StepIsPositive(coin: Coin, expected: real)
    ensures UniquenessStepFor(coin, expected) > 0
  {
    var f := Factor(Meta(coin).decimals) as real;
    FloorInUnits(coin);
    RealMulMonotone(Meta(coin).floor * 2.2, MatchWindowFor(coin, expected) * 2.2, f);
    RoundCryptoAtLeast(MatchWindowFor(coin, expected) * 2.2, Meta(coin).decimals, 1);
  }

  lemma FloorInUnits(coin: Coin)
    ensures Meta(coin).floor * 2.2 * Factor(Meta(coin).decimals) as real >= 1.0
  {
    SmallFactors();
  }

  lemma SmallFactors()
    ensures Factor(6) == 1_000_000 && Factor(8) == 100_000_000 && Factor(9) == 1_000_000_000
  {
    assert Factor(3) == 1000;
    assert Factor(6) == 1_000_000;
  }

  datatype Kind = Match | Review | Ignore

  function ClassifyReceived(expected: real, received: real, coin: Coin): Kind {
    if expected <= 0.0 then Ignore
    else
      var delta := if expected < received then received - expected else expected - received;
      if delta <= MatchWindowFor(coin, expected) then Match
      else if delta / expected <= 0.5 then Review
      else Ignore
  }

  function Distance(x: real, y: real): real {
    if x < y then y - x else x - y
  }

  /**
   * A payment matches exactly within the larger of the coin's floor and its tolerance, and counts at all exactly within the
   * larger of the floor and half of the quote; nothing counts for a quote that is not positive.
   */
  lemma CountedPaymentsAreClose(expected: real, received: real, coin: Coin)
    ensures var kind, delta, meta := ClassifyReceived(expected, received, coin), Distance(expected, received), Meta(coin);
            if expected <= 0.0 then kind == Ignore
            else
              && (kind == Match <==> delta <= Larger(meta.floor, expected * meta.tolerance))
              && (kind != Ignore <==> delta <= Larger(meta.floor, 0.5 * expected))
  {
    if expected > 0.0 {
      HalfOf(Distance(expected, received), expected);
    }
  }

  lemma HalfOf(delta: real, expected: real)
    requires expected > 0.0
    ensures delta / expected <= 0.5 <==> delta <= 0.5 * expected
  {
    var q := delta / expected;
    assert q * expected == delta;
    if delta <= 0.5 * expected {
      RealCancel(q, 0.5, expected);
    } else if q <= 0.5 {
      RealMulMonotone(q, 0.5, expected);
    }
  }

  /** The taken amounts from one on. */
  function From(taken: set<int>, amount: int): set<int> {
    set t <- taken | t >= amount
  }

  lemma FromShrinks(taken: set<int>, amount: int, step: int)
    requires amount in taken && step > 0
    ensures |From(taken, amount + step)| < |From(taken, amount)|
  {
    assert From(taken, amount + step) <= From(taken, amount) - {amount};
    Smaller(From(taken, amount + step), From(taken, amount) - {amount});
  }

  lemma {:induction false} Smaller<T>(a: set<T>, b: set<T>)
    requires a <= b
    ensures |a| <= |b|
    decreases a
  {
    if x :| x in a {
      Smaller(a - {x}, b - {x});
    }
  }

  /** The first rung of the ladder amount, amount + step, ... that is not taken. */
  function FreeRung(taken: set<int>, amount: int, step: int): int
    requires step > 0
    decreases |From(taken, amount)|
  {
    if amount in taken then
      FromShrinks(taken, amount, step);
      FreeRung(taken, amount + step, step)
    else amount
  }

  function Rung(amount: int, step: int, k: nat): int {
    amount + k * step
  }

  lemma NextRung(amount: int, step: int, k: nat)
    ensures Rung(amount, step, 0) == amount && Rung(amount + step, step, k) == Rung(amount, step, k + 1)
  {
  }

  /** It is the least free one, and no further up than there are taken amounts. */
  lemma {:induction false} FreeRungIsLeast(taken: set<int>, amount: int, step: int) returns (k: nat)
    requires step > 0
    ensures FreeRung(taken, amount, step) == Rung(amount, step, k) && FreeRung(taken, amount, step) !in taken
    ensures forall j: nat :: j < k ==> Rung(amount, step, j) in taken
    ensures k <= |From(taken, amount)| <= |taken|
    decreases |From(taken, amount)|
  {
    hide Rung;
    NextRung(amount, step, 0);
    Smaller(From(taken, amount), taken);
    if amount !in taken {
      k := 0;
    } else {
      FromShrinks(taken, amount, step);
      var up := FreeRungIsLeast(taken, amount + step, step);
      k := up + 1;
      NextRung(amount, step, up);
      forall j: nat | j < k
        ensures Rung(amount, step, j) in taken
      {
        if j > 0 {
          NextRung(amount, step, j - 1);
        }
      }
    }
  }

  function Taken(used: seq<real>, decimals: nat): set<int> {
    set value <- used :: RoundCrypto(value, decimals)
  }

  function FirstRung(base: real, step: int, decimals: nat): int {
    RoundCrypto(Larger(Value(step, decimals), base), decimals)
  }

  /** `base` and `used` are in coins, `step` and the result in units. */
  method AllocateUniqueAmount(base: real, used: seq<real>, step: int, decimals: nat) returns (amount: int)
    requires step > 0
    ensures amount == FreeRung(Taken(used, decimals), FirstRung(base, step, decimals), step)
    ensures amount !in Taken(used, decimals)
  {
    amount := RoundCrypto(Larger(Value(step, decimals), base), decimals);
    var taken := set value <- used :: RoundCrypto(value, decimals);
    while amount in taken
      invariant FreeRung(taken, amount, step) == FreeRung(taken, FirstRung(base, step, decimals), step)
      decreases |From(taken, amount)|
    {
      FromShrinks(taken, amount, step);
      RoundCryptoExact(amount + step, decimals);
      amount := RoundCrypto(Value(amount + step, decimals), decimals);
    }
  }
}
