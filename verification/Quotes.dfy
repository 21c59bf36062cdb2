/** Runs of deposit quotes: which amounts are open at a time, and how far apart they are. */
module Quotes {
  import opened Arithmetic
  import opened Coins

  /** `amount` is in units of the coin; a deposit that is pending or in review holds its quote open. */
  datatype Quote = Quote(coin: Coin, amount: int, isOpen: bool)

  /** A request names the amounts it takes to be in use. */
  datatype Act = Ask(coin: Coin, usd: real, rate: real, used: set<int>) | Close(i: nat)

  function OpenAmounts(quotes: seq<Quote>, coin: Coin): set<int> {
    set i | 0 <= i < |quotes| && quotes[i].isOpen && quotes[i].coin == coin :: quotes[i].amount
  }

  /** The amount quoted for a base price in coins, given the open amounts of the coin. */
  function QuoteAmount(coin: Coin, base: real, used: set<int>): int {
    StepIsPositive(coin, base);
    FreeRung(used, FirstRung(base, UniquenessStepFor(coin, base), Meta(coin).decimals), UniquenessStepFor(coin, base))
  }

  function NewQuote(act: Act): Quote
    requires act.Ask? && act.rate > 0.0
  {
    Quote(act.coin, QuoteAmount(act.coin, act.usd / act.rate, act.used), true)
  }

  /** What the allocator makes of a request; without a price there is no quote. */
  function Next(quotes: seq<Quote>, act: Act): seq<Quote> {
    match act
    case Ask(_, _, rate, _) => if rate > 0.0 then quotes + [NewQuote(act)] else quotes
    case Close(i) => if i < |quotes| then quotes[i := quotes[i].(isOpen := false)] else quotes
  }

  function RunQuotes(quotes: seq<Quote>, acts: seq<Act>): seq<Quote>
    decreases |acts|
  {
    if acts == [] then quotes else RunQuotes(Next(quotes, acts[0]), acts[1..])
  }

  /** No two open quotes of a coin ask for the same amount: what the unique index on open quotes requires. */
  ghost predicate OpenAreUnique(quotes: seq<Quote>) {
    forall i, j :: 0 <= i < j < |quotes| && quotes[i].isOpen && quotes[j].isOpen && quotes[i].coin == quotes[j].coin
             ==> quotes[i].amount != quotes[j].amount
  }

  lemma QuoteIsFree(coin: Coin, base: real, used: set<int>)
    ensures QuoteAmount(coin, base, used) !in used
  {
    StepIsPositive(coin, base);
    hide UniquenessStepFor;
    hide FirstRung;
    var k := FreeRungIsLeast(used, FirstRung(base, UniquenessStepFor(coin, base), Meta(coin).decimals), UniquenessStepFor(coin, base));
  }

  /** The request names every open amount of its coin. */
  predicate Complete(quotes: seq<Quote>, act: Act) {
    act.Ask? ==> OpenAmounts(quotes, act.coin) <= act.used
  }

  predicate CompleteRun(quotes: seq<Quote>, acts: seq<Act>)
    decreases |acts|
  {
    acts == [] || (Complete(quotes, acts[0]) && CompleteRun(Next(quotes, acts[0]), acts[1..]))
  }

  /** A quote breaks uniqueness exactly if its amount is open already. */
  lemma UniqueWith(quotes: seq<Quote>, q: Quote)
    requires OpenAreUnique(quotes) && q.isOpen
    ensures OpenAreUnique(quotes + [q]) <==> q.amount !in OpenAmounts(quotes, q.coin)
  {
    var all := quotes + [q];
    if q.amount in OpenAmounts(quotes, q.coin) {
      var i :| 0 <= i < |quotes| && quotes[i].isOpen && quotes[i].coin == q.coin && quotes[i].amount == q.amount;
      assert all[i] == quotes[i] && all[|quotes|] == q;
    } else {
      forall i | 0 <= i < |quotes| && quotes[i].isOpen && quotes[i].coin == q.coin
        ensures quotes[i].amount != q.amount
      {
        assert quotes[i].amount in OpenAmounts(quotes, q.coin);
      }
    }
  }

  lemma CompleteIsFree(quotes: seq<Quote>, act: Act)
    requires act.Ask? && act.rate > 0.0 && Complete(quotes, act)
    ensures NewQuote(act).amount !in OpenAmounts(quotes, act.coin)
  {
    QuoteIsFree(act.coin, act.usd / act.rate, act.used);
    hide QuoteAmount;
    hide OpenAmounts;
  }

  lemma NextKeepsUnique(quotes: seq<Quote>, act: Act)
    requires OpenAreUnique(quotes) && Complete(quotes, act)
    ensures OpenAreUnique(Next(quotes, act))
  {
    if act.Ask? && act.rate > 0.0 {
      CompleteIsFree(quotes, act);
      UniqueWith(quotes, NewQuote(act));
    }
    hide QuoteAmount;
    hide OpenAmounts;
  }

  /** As long as requests name all open amounts of their coin, the amounts allocated to open quotes stay pairwise different. */
  lemma {:induction false} OpenQuotesAreUnique(quotes: seq<Quote>, acts: seq<Act>)
    requires OpenAreUnique(quotes) && CompleteRun(quotes, acts)
    ensures OpenAreUnique(RunQuotes(quotes, acts))
    decreases |acts|
  {
    hide Next;
    hide Complete;
    hide OpenAreUnique;
    if acts != [] {
      NextKeepsUnique(quotes, acts[0]);
      OpenQuotesAreUnique(Next(quotes, acts[0]), acts[1..]);
    }
  }

  /** The allocator knows nothing but what it is told: two requests that name the same amounts get the same one. */
  lemma StaleRequestsRepeat(quotes: seq<Quote>, act: Act)
    requires act.Ask? && act.rate > 0.0
    ensures !OpenAreUnique(Next(Next(quotes, act), act))
  {
    var after, q := Next(Next(quotes, act), act), NewQuote(act);
    assert after[|quotes|] == q && after[|quotes| + 1] == q;
    hide NewQuote;
  }

  /** With the unique index: an amount that is open already is refused. */
  function Indexed(quotes: seq<Quote>, act: Act): seq<Quote> {
    if act.Ask? && act.rate > 0.0 && NewQuote(act).amount in OpenAmounts(quotes, act.coin) then quotes else Next(quotes, act)
  }

  function RunIndexed(quotes: seq<Quote>, acts: seq<Act>): seq<Quote>
    decreases |acts|
  {
    if acts == [] then quotes else RunIndexed(Indexed(quotes, acts[0]), acts[1..])
  }

  /** The index refuses exactly the quotes that would not be unique, all of them to incomplete requests. */
  lemma IndexRefusesRepeats(quotes: seq<Quote>, act: Act)
    requires OpenAreUnique(quotes)
    ensures OpenAreUnique(Indexed(quotes, act))
    ensures Indexed(quotes, act) == Next(quotes, act) <==> OpenAreUnique(Next(quotes, act))
    ensures Complete(quotes, act) ==> Indexed(quotes, act) == Next(quotes, act)
  {
    if act.Ask? && act.rate > 0.0 {
      UniqueWith(quotes, NewQuote(act));
      if Complete(quotes, act) {
        CompleteIsFree(quotes, act);
      }
    }
    hide QuoteAmount;
    hide OpenAmounts;
  }

  /**
   * So with the index the open amounts differ whatever the requests name, and where they are complete it is never needed: the
   * allocator alone leaves the same quotes.
   */
  lemma {:induction false} IndexedStaysUnique(quotes: seq<Quote>, acts: seq<Act>)
    requires OpenAreUnique(quotes)
    ensures OpenAreUnique(RunIndexed(quotes, acts))
    ensures CompleteRun(quotes, acts) ==> RunIndexed(quotes, acts) == RunQuotes(quotes, acts)
    decreases |acts|
  {
    hide Next;
    hide Indexed;
    hide Complete;
    hide OpenAreUnique;
    if acts != [] {
      IndexRefusesRepeats(quotes, acts[0]);
      IndexedStaysUnique(Indexed(quotes, acts[0]), acts[1..]);
    }
  }

  /** The coin's tolerance as a share of an amount, in coins or in units. */
  function Share(coin: Coin, x: real): real {
    Times(x, Meta(coin).tolerance)
  }

  predicate WindowsDisjoint(coin: Coin, low: real, high: real) {
    low + MatchWindowFor(coin, low) < high - MatchWindowFor(coin, high)
  }

  /** Any two amounts have disjoint windows exactly if they are further apart than the larger of floor and share of each, added. */
  lemma DisjointExactly(coin: Coin, low: real, high: real)
    requires 0.0 < low < high
    ensures var meta := Meta(coin);
            WindowsDisjoint(coin, low, high)
            <==> Larger(meta.floor, Share(coin, low)) + Larger(meta.floor, Share(coin, high)) < high - low
  {
  }

  /** The k-th rung on which a base price can be quoted, in units. */
  function QuoteRung(coin: Coin, base: real, k: nat): int {
    Rung(FirstRung(base, UniquenessStepFor(coin, base), Meta(coin).decimals), UniquenessStepFor(coin, base), k)
  }

  /** A price whose first k rungs are taken is quoted on the next one. */
  lemma QuotedOnRung(coin: Coin, base: real, used: set<int>, k: nat)
    requires (forall j: nat :: j < k ==> QuoteRung(coin, base, j) in used) && QuoteRung(coin, base, k) !in used
    ensures QuoteAmount(coin, base, used) == QuoteRung(coin, base, k)
  {
    StepIsPositive(coin, base);
    var step, first := UniquenessStepFor(coin, base), FirstRung(base, UniquenessStepFor(coin, base), Meta(coin).decimals);
    hide UniquenessStepFor;
    hide FirstRung;
    var up := FreeRungIsLeast(used, first, step);
    hide Rung;
    assert up < k ==> QuoteRung(coin, base, up) in used;
    assert k < up ==> Rung(first, step, k) in used;
  }

  lemma ValueGap(amount: int, step: int, decimals: nat)
    requires step > 0
    ensures Value(amount + step, decimals) - Value(amount, decimals) == Value(step, decimals) > 0.0
    ensures amount > 0 ==> Value(amount, decimals) > 0.0
  {
    var f := Factor(decimals) as real;
    assert (amount + step) as real / f == amount as real / f + step as real / f;
  }

  lemma RungsArePositive(coin: Coin, base: real, k: nat)
    ensures QuoteRung(coin, base, k) > 0 && UniquenessStepFor(coin, base) > 0
    ensures QuoteRung(coin, base, k + 1) == QuoteRung(coin, base, k) + UniquenessStepFor(coin, base)
  {
    StepIsPositive(coin, base);
    var step, decimals := UniquenessStepFor(coin, base), Meta(coin).decimals;
    RoundCryptoExact(step, decimals);
    RoundCryptoMonotone(Value(step, decimals), Larger(Value(step, decimals), base), decimals);
    hide UniquenessStepFor;
    hide RoundCrypto;
    hide Value;
    MulMonotone(0, k, step);
  }

  lemma RoundCryptoMonotone(x: real, y: real, decimals: nat)
    requires x <= y
    ensures RoundCrypto(x, decimals) <= RoundCrypto(y, decimals)
  {
    RealMulMonotone(x, y, Factor(decimals) as real);
  }

  /** A window in coins. */
  function Window(coin: Coin, amount: int): real {
    Larger(Meta(coin).floor, Share(coin, Value(amount, Meta(coin).decimals)))
  }

  /** With the code's rounded step: neighbouring quotes of one price are apart exactly if the step outweighs both windows. */
  lemma QuotedRungsDisjoint(coin: Coin, base: real, k: nat)
    ensures var meta := Meta(coin);
            var low, high := Value(QuoteRung(coin, base, k), meta.decimals), Value(QuoteRung(coin, base, k + 1), meta.decimals);
            WindowsDisjoint(coin, low, high)
            <==> Window(coin, QuoteRung(coin, base, k)) + Window(coin, QuoteRung(coin, base, k + 1))
                 < Value(UniquenessStepFor(coin, base), meta.decimals)
  {
    RungsArePositive(coin, base, k);
    ValueGap(QuoteRung(coin, base, k), UniquenessStepFor(coin, base), Meta(coin).decimals);
    hide QuoteRung;
    hide UniquenessStepFor;
    hide Value;
    hide WindowsDisjoint;
    hide Share;
    hide Larger;
    hide Meta;
    DisjointExactly(coin, Value(QuoteRung(coin, base, k), Meta(coin).decimals), Value(QuoteRung(coin, base, k + 1), Meta(coin).decimals));
  }

  /** How many rungs above a price are apart from the next one, where the window of the price is a share of it. */
  function ApartRungs(coin: Coin): nat {
    match coin
    case USDT => 3
    case USDC => 3
    case SOL => 1
    case _ => 0
  }

  /** The amounts, in units, whose next rung is apart, where the window of the price is the coin's floor. */
  function ApartBelow(coin: Coin): real {
    match coin
    case BTC => 580.0
    case ETH => 5800.0
    case LTC => 5800.0
    case USDT => 4334000.0 / 3.0
    case USDC => 4334000.0 / 3.0
    case SOL => 12650000.0
  }

  /** An amount of coins in units. */
  function Units(coin: Coin, x: real): real {
    x * Factor(Meta(coin).decimals) as real
  }

  lemma UnitsOrder(coin: Coin, x: real, y: real)
    ensures x >= y <==> Units(coin, x) >= Units(coin, y)
  {
    var f := Factor(Meta(coin).decimals) as real;
    if x >= y {
      RealMulMonotone(y, x, f);
    } else {
      RealMulStrict(x, y, f);
    }
  }

  lemma UnitsAdd(coin: Coin, x: real, y: real)
    ensures Units(coin, x + y) == Units(coin, x) + Units(coin, y)
  {
  }

  lemma UnitsShare(coin: Coin, x: real)
    ensures Units(coin, Share(coin, x)) == Share(coin, Units(coin, x)) && Units(coin, x * 2.2) == Units(coin, x) * 2.2
  {
  }

  lemma UnitsValue(coin: Coin, amount: int)
    ensures Units(coin, Value(amount, Meta(coin).decimals)) == amount as real
  {
  }

  lemma UnitsLarger(coin: Coin, x: real, y: real)
    ensures Units(coin, Larger(x, y)) == Larger(Units(coin, x), Units(coin, y))
  {
    UnitsOrder(coin, x, y);
    hide Units;
  }

  lemma RoundedUnits(coin: Coin, x: real)
    ensures Units(coin, x) - 0.5 < RoundCrypto(x, Meta(coin).decimals) as real <= Units(coin, x) + 0.5
  {
  }

  predicate UnitsApart(coin: Coin, low: int, step: int) {
    var floor := Units(coin, Meta(coin).floor);
    Larger(floor, Share(coin, low as real)) + Larger(floor, Share(coin, (low + step) as real)) < step as real
  }

  lemma WindowInUnits(coin: Coin, amount: int)
    ensures Units(coin, Window(coin, amount)) == Larger(Units(coin, Meta(coin).floor), Share(coin, amount as real))
  {
    UnitsLarger(coin, Meta(coin).floor, Share(coin, Value(amount, Meta(coin).decimals)));
    UnitsShare(coin, Value(amount, Meta(coin).decimals));
    UnitsValue(coin, amount);
    hide Units;
    hide Larger;
    hide Value;
    hide Meta;
    hide Share;
  }

  lemma WindowsInUnits(coin: Coin, low: int, step: int)
    ensures Window(coin, low) + Window(coin, low + step) < Value(step, Meta(coin).decimals) <==> UnitsApart(coin, low, step)
  {
    WindowInUnits(coin, low);
    WindowInUnits(coin, low + step);
    UnitsValue(coin, step);
    UnitsAdd(coin, Window(coin, low), Window(coin, low + step));
    UnitsOrder(coin, Window(coin, low) + Window(coin, low + step), Value(step, Meta(coin).decimals));
    hide Units;
    hide Window;
    hide Value;
    hide Larger;
    hide Meta;
    hide Share;
  }

  /** The same comparison in whole units. */
  lemma RungsInUnits(coin: Coin, base: real, k: nat)
    ensures WindowsDisjoint(coin, Value(QuoteRung(coin, base, k), Meta(coin).decimals), Value(QuoteRung(coin, base, k + 1), Meta(coin).decimals))
       <==> UnitsApart(coin, QuoteRung(coin, base, k), UniquenessStepFor(coin, base))
  {
    var low, step := QuoteRung(coin, base, k), UniquenessStepFor(coin, base);
    QuotedRungsDisjoint(coin, base, k);
    RungsArePositive(coin, base, k);
    hide *;
    WindowsInUnits(coin, low, step);
  }

  /** What step and first rung are rounded from, u being the price in units. */
  predicate Rounded(coin: Coin, u: real, step: int, first: int) {
    var window := Larger(Units(coin, Meta(coin).floor), Share(coin, u));
    && window * 2.2 - 0.5 < step as real <= window * 2.2 + 0.5
    && Larger(step as real, u) - 0.5 < first as real <= Larger(step as real, u) + 0.5
  }

  lemma RungUnits(coin: Coin, base: real)
    ensures Rounded(coin, Units(coin, base), UniquenessStepFor(coin, base), QuoteRung(coin, base, 0))
    ensures Share(coin, base) >= Meta(coin).floor <==> Share(coin, Units(coin, base)) >= Units(coin, Meta(coin).floor)
  {
    var step := UniquenessStepFor(coin, base);
    ShareUnits(coin, base);
    StepUnits(coin, base);
    FirstUnits(coin, base, step);
    hide Units;
    hide Share;
    hide UniquenessStepFor;
    hide QuoteRung;
    hide Meta;
    hide Larger;
    hide MatchWindowFor;
  }

  lemma ShareUnits(coin: Coin, base: real)
    ensures Share(coin, base) >= Meta(coin).floor <==> Share(coin, Units(coin, base)) >= Units(coin, Meta(coin).floor)
    ensures Units(coin, MatchWindowFor(coin, base)) == Larger(Units(coin, Meta(coin).floor), Share(coin, Units(coin, base)))
  {
    WindowIs(coin, base);
    UnitsShare(coin, base);
    UnitsOrder(coin, Share(coin, base), Meta(coin).floor);
    UnitsLarger(coin, Meta(coin).floor, Share(coin, base));
    hide *;
  }

  lemma StepUnits(coin: Coin, base: real)
    ensures var window := Units(coin, MatchWindowFor(coin, base));
            window * 2.2 - 0.5 < UniquenessStepFor(coin, base) as real <= window * 2.2 + 0.5
  {
    UnitsShare(coin, MatchWindowFor(coin, base));
    RoundedUnits(coin, MatchWindowFor(coin, base) * 2.2);
    hide Units;
    hide MatchWindowFor;
    hide RoundCrypto;
    hide Meta;
    hide Share;
  }

  lemma FirstUnits(coin: Coin, base: real, step: int)
    requires step == UniquenessStepFor(coin, base)
    ensures Larger(step as real, Units(coin, base)) - 0.5 < QuoteRung(coin, base, 0) as real <= Larger(step as real, Units(coin, base)) + 0.5
  {
    UnitsValue(coin, step);
    UnitsLarger(coin, Value(step, Meta(coin).decimals), base);
    RoundedUnits(coin, Larger(Value(step, Meta(coin).decimals), base));
    NextRung(FirstRung(base, step, Meta(coin).decimals), step, 0);
    hide Units;
    hide UniquenessStepFor;
    hide RoundCrypto;
    hide Meta;
    hide Value;
    hide Larger;
    hide Rung;
  }

  lemma WindowIs(coin: Coin, base: real)
    ensures MatchWindowFor(coin, base) == Larger(Meta(coin).floor, Share(coin, base))
  {
  }

  /**
   * For every coin and price, with the code's rounded step: the k-th quote of the price and the one after it are apart exactly for
   * the first three rungs of USDT and USDC, the first of SOL and none of BTC, ETH and LTC, if the window of the price is a
   * share of it; and exactly below a fixed amount if it is the coin's floor.
   */
  lemma QuotedRungsApart(coin: Coin, base: real, k: nat)
    ensures var meta, low := Meta(coin), QuoteRung(coin, base, k);
            WindowsDisjoint(coin, Value(low, meta.decimals), Value(QuoteRung(coin, base, k + 1), meta.decimals))
            <==> if Share(coin, base) >= meta.floor then k < ApartRungs(coin) else (low as real) < ApartBelow(coin)
  {
    hide *;
    var u, step, first := Units(coin, base), UniquenessStepFor(coin, base), QuoteRung(coin, base, 0);
    RungsInUnits(coin, base, k);
    RungUnits(coin, base);
    RungIs(coin, base, k);
    RungsArePositive(coin, base, k);
    if Share(coin, base) >= Meta(coin).floor {
      RungsUp(coin, k, step);
      ShareApart(coin, u, step, first, k * step);
    } else {
      FloorApart(coin, u, step, first, QuoteRung(coin, base, k));
    }
  }

  lemma RungIs(coin: Coin, base: real, k: nat)
    ensures QuoteRung(coin, base, k) == QuoteRung(coin, base, 0) + k * UniquenessStepFor(coin, base)
  {
    hide UniquenessStepFor;
    hide FirstRung;
  }

  lemma FloorsAre()
    ensures Units(BTC, Meta(BTC).floor) == 100.0 && Units(ETH, Meta(ETH).floor) == Units(LTC, Meta(LTC).floor) == 1000.0
    ensures Units(USDT, Meta(USDT).floor) == Units(USDC, Meta(USDC).floor) == 20000.0 && Units(SOL, Meta(SOL).floor) == 1000000.0
  {
    SmallFactors();
  }

  /** Windows around an amount and the one a step above it do not meet. */
  predicate FarApart(floor: real, tolerance: real, low: real, step: real) {
    Larger(floor, Times(low, tolerance)) + Larger(floor, Times(low + step, tolerance)) < step
  }

  /** The numbers of each coin. */
  lemma CoinNumbers(coin: Coin, u: real, step: int, first: int, low: int)
    ensures var meta := Meta(coin);
            && meta.tolerance == (if coin == USDT || coin == USDC then 0.015 else if coin == SOL then 0.08 else 0.15)
            && Units(coin, meta.floor) == (if coin == USDT || coin == USDC then 20000.0 else if coin == SOL then 1000000.0
                                           else if coin == BTC then 100.0 else 1000.0)
            && (UnitsApart(coin, low, step) <==> FarApart(Units(coin, meta.floor), meta.tolerance, low as real, step as real))
            && (Rounded(coin, u, step, first) <==> RoundedBy(Units(coin, meta.floor), meta.tolerance, u, step as real, first as real))
            && Share(coin, u) == Times(u, meta.tolerance)
  {
    FloorsAre();
    UnitsApartMeans(coin, low, step);
    hide Units;
    hide Larger;
    hide UnitsApart;
    hide FarApart;
    hide Times;
  }

  lemma UnitsApartMeans(coin: Coin, low: int, step: int)
    ensures UnitsApart(coin, low, step) <==> FarApart(Units(coin, Meta(coin).floor), Meta(coin).tolerance, low as real, step as real)
  {
    hide Times;
    hide Units;
    hide Larger;
    hide Meta;
    assert (low + step) as real == low as real + step as real;
  }

  predicate RoundedBy(floor: real, tolerance: real, u: real, step: real, first: real) {
    && Larger(floor, Times(u, tolerance)) * 2.2 - 0.5 < step <= Larger(floor, Times(u, tolerance)) * 2.2 + 0.5
    && Larger(step, u) - 0.5 < first <= Larger(step, u) + 0.5
  }

  lemma FloorLine(low: real)
    requires low > 0.0
    ensures FarApart(100.0, 0.15, low, 220.0) <==> low < 580.0
    ensures FarApart(1000.0, 0.15, low, 2200.0) <==> low < 5800.0
    ensures FarApart(20000.0, 0.015, low, 44000.0) <==> low < 4334000.0 / 3.0
    ensures FarApart(1000000.0, 0.08, low, 2200000.0) <==> low < 12650000.0
  {
  }

  lemma FloorStep(floor: real, tolerance: real, u: real, step: int, first: real)
    requires RoundedBy(floor, tolerance, u, step as real, first) && Times(u, tolerance) < floor
    requires floor == 100.0 || floor == 1000.0 || floor == 20000.0 || floor == 1000000.0
    ensures step as real == floor * 2.2
  {
  }

  lemma FloorApart(coin: Coin, u: real, step: int, first: int, low: int)
    requires Rounded(coin, u, step, first) && Share(coin, u) < Units(coin, Meta(coin).floor) && low > 0
    ensures UnitsApart(coin, low, step) <==> (low as real) < ApartBelow(coin)
  {
    CoinNumbers(coin, u, step, first, low);
    FloorStep(Units(coin, Meta(coin).floor), Meta(coin).tolerance, u, step, first as real);
    FloorLine(low as real);
    hide Units;
    hide UnitsApart;
    hide Rounded;
    hide RoundedBy;
    hide FarApart;
    hide Meta;
    hide Times;
  }

  lemma StableShares(u: real, step: real, first: real, up: real)
    requires RoundedBy(20000.0, 0.015, u, step, first) && Times(u, 0.015) >= 20000.0
    ensures up <= 2.0 * step ==> FarApart(20000.0, 0.015, first + up, step)
    ensures up >= 3.0 * step ==> !FarApart(20000.0, 0.015, first + up, step)
  {
  }

  lemma SolShares(u: real, step: real, first: real, up: real)
    requires RoundedBy(1000000.0, 0.08, u, step, first) && Times(u, 0.08) >= 1000000.0
    ensures up <= 0.0 ==> FarApart(1000000.0, 0.08, first + up, step)
    ensures up >= step ==> !FarApart(1000000.0, 0.08, first + up, step)
  {
  }

  lemma WideShares(floor: real, u: real, step: real, first: real, up: real)
    requires floor >= 100.0 && RoundedBy(floor, 0.15, u, step, first) && Times(u, 0.15) >= floor
    ensures up >= 0.0 ==> !FarApart(floor, 0.15, first + up, step)
  {
  }

  /** How far up a rung may lie to be apart from the next, and from where on it is not. */
  function LastApart(coin: Coin, step: int): int {
    if coin == SOL then 0 else if coin == USDT || coin == USDC then 2 * step else -1
  }

  function FirstMeeting(coin: Coin, step: int): int {
    if coin == SOL then step else if coin == USDT || coin == USDC then 3 * step else 0
  }

  /** Above the floor rounding moves first rung and step too little to matter. */
  lemma ShareApart(coin: Coin, u: real, step: int, first: int, up: int)
    requires Rounded(coin, u, step, first) && Share(coin, u) >= Units(coin, Meta(coin).floor) && up >= 0
    ensures up <= LastApart(coin, step) ==> UnitsApart(coin, first + up, step)
    ensures up >= FirstMeeting(coin, step) ==> !UnitsApart(coin, first + up, step)
  {
    hide *;
    CoinNumbers(coin, u, step, first, first + up);
    MeetingIs(coin, step);
    if coin == USDT || coin == USDC {
      StableShares(u, step as real, first as real, up as real);
    } else if coin == SOL {
      SolShares(u, step as real, first as real, up as real);
    } else {
      WideShares(Units(coin, Meta(coin).floor), u, step as real, first as real, up as real);
    }
  }

  lemma MeetingIs(coin: Coin, step: int)
    ensures (coin == USDT || coin == USDC) ==> LastApart(coin, step) == 2 * step && FirstMeeting(coin, step) == 3 * step
    ensures coin == SOL ==> LastApart(coin, step) == 0 && FirstMeeting(coin, step) == step
    ensures coin == BTC || coin == ETH || coin == LTC ==> LastApart(coin, step) == -1 && FirstMeeting(coin, step) == 0
  {
  }

  lemma RungsUp(coin: Coin, k: nat, step: int)
    requires step > 0
    ensures k * step >= 0
    ensures k < ApartRungs(coin) ==> k * step <= LastApart(coin, step)
    ensures k >= ApartRungs(coin) ==> k * step >= FirstMeeting(coin, step)
  {
    MulMonotone(0, k, step);
    if k < ApartRungs(coin) {
      MulMonotone(k, ApartRungs(coin) - 1, step);
    } else {
      MulMonotone(ApartRungs(coin), k, step);
    }
  }

  /** Amounts on different ladders can be much closer: a quote only has to differ from the open ones. */
  lemma NearbyAmountsBothFree()
    ensures var used := {100_000_000};
            QuoteAmount(BTC, 1.001, used) == 100_100_000
            && !WindowsDisjoint(BTC, Value(100_000_000, 8), Value(100_100_000, 8))
  {
    SmallFactors();
    assert MatchWindowFor(BTC, 1.001) == 0.15015;
    assert UniquenessStepFor(BTC, 1.001) == 33_033_000;
    assert Value(33_033_000, 8) == 0.33033;
  }
}
