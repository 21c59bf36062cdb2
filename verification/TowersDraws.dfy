/** Towers over the index lists of its floors' shuffles: an average over layouts is an average over draws. */
module TowersDraws {
  import opened Arithmetic
  import opened Boards
  import opened Layouts
  import opened MinesRound
  import opened Sums
  import opened Towers
  import opened TowersRound

  /** The average of f over the layouts that all index lists of a floor's shuffle put down. */
  function DrawnAverage(tiles: nat, traps: nat, f: set<nat> -> real): real
    requires traps <= tiles
  {
    AllIndicesAreDistinct(tiles);
    Total(AllIndices(tiles), Over(Placement(tiles, traps), f)) / |AllIndices(tiles)| as real
  }

  function DrawnShares(tiles: nat, shares: seq<TrapShare>, f: set<nat> -> real): real
    requires forall s <- shares :: s.traps <= tiles
  {
    if shares == [] then 0.0
    else shares[0].share * DrawnAverage(tiles, shares[0].traps, f) + DrawnShares(tiles, shares[1..], f)
  }

  function DrawnFloor(difficulty: Difficulty, f: set<nat> -> real): real {
    DrawnShares(TowersConfig(difficulty).tiles, TrapShares(difficulty), f)
  }

  /** The expected value of f when each floor's number of traps has its share and its shuffle's draws are equally likely. */
  function DrawnGrid(difficulty: Difficulty, rows: nat, f: seq<set<nat>> -> real): real
    decreases rows, 1
  {
    if rows == 0 then f([]) else DrawnFloor(difficulty, DrawnThen(difficulty, rows, f))
  }

  function DrawnThen(difficulty: Difficulty, rows: nat, f: seq<set<nat>> -> real): set<nat> -> real
    requires rows > 0
    decreases rows, 0
  {
    traps => DrawnGrid(difficulty, rows - 1, Above(traps, f))
  }

  /** All n! index lists against all C(n, m) layouts. */
  lemma DrawnIsLayoutAverage(tiles: nat, traps: nat, f: set<nat> -> real)
    requires traps <= tiles
    ensures Choose(tiles, traps) > 0
    ensures DrawnAverage(tiles, traps, f) * Choose(tiles, traps) as real == Total(AllLayouts(tiles, traps), f)
  {
    hide *;
    DrawnAverageIs(tiles, traps, f);
    ListsPerLayout(tiles, traps, f);
    AverageOf(DrawnAverage(tiles, traps, f), EachLayout(tiles, traps) as real, Choose(tiles, traps) as real, Factorial(tiles) as real,
              Total(AllLayouts(tiles, traps), f));
  }

  /** How many index lists put down any one layout. */
  function EachLayout(tiles: nat, traps: nat): nat
    requires traps <= tiles
  {
    Factorial(traps) * Factorial(tiles - traps)
  }

  lemma ListsPerLayout(tiles: nat, traps: nat, f: set<nat> -> real)
    requires traps <= tiles
    ensures Choose(tiles, traps) > 0 && EachLayout(tiles, traps) > 0
    ensures Total(AllIndices(tiles), Over(Placement(tiles, traps), f)) == EachLayout(tiles, traps) as real * Total(AllLayouts(tiles, traps), f)
    ensures Factorial(tiles) as real == EachLayout(tiles, traps) as real * Choose(tiles, traps) as real
  {
    hide *;
    EachLayoutCounts(tiles, traps);
    RealOfProduct(EachLayout(tiles, traps), Choose(tiles, traps));
    EachLayoutTotal(tiles, traps, f);
  }

  lemma EachLayoutTotal(tiles: nat, traps: nat, f: set<nat> -> real)
    requires traps <= tiles
    ensures Total(AllIndices(tiles), Over(Placement(tiles, traps), f)) == EachLayout(tiles, traps) as real * Total(AllLayouts(tiles, traps), f)
  {
    hide *;
    PlacementsAreEquallyLikely(tiles, traps, f);
    EachLayoutIs(tiles, traps);
  }

  lemma EachLayoutCounts(tiles: nat, traps: nat)
    requires traps <= tiles
    ensures Factorial(tiles) == EachLayout(tiles, traps) * Choose(tiles, traps) && EachLayout(tiles, traps) > 0 && Choose(tiles, traps) > 0
  {
    hide *;
    ChooseFactorial(tiles, traps);
    EachLayoutIs(tiles, traps);
    FactorialsPositive(tiles, traps);
  }

  lemma EachLayoutIs(tiles: nat, traps: nat)
    requires traps <= tiles
    ensures EachLayout(tiles, traps) == Factorial(traps) * Factorial(tiles - traps)
  {
  }

  lemma DrawnAverageIs(tiles: nat, traps: nat, f: set<nat> -> real)
    requires traps <= tiles
    ensures DrawnAverage(tiles, traps, f) * Factorial(tiles) as real == Total(AllIndices(tiles), Over(Placement(tiles, traps), f))
  {
    AllIndicesAreDistinct(tiles);
    hide AllIndices;
    hide Total;
    hide Over;
    hide Placement;
  }

  lemma FactorialsPositive(n: nat, m: nat)
    requires m <= n
    ensures Factorial(m) * Factorial(n - m) > 0 && Choose(n, m) > 0
  {
    ChooseFactorial(n, m);
  }

  lemma AverageOf(average: real, each: real, ways: real, all: real, total: real)
    requires average * all == each * total && all == each * ways && each > 0.0
    ensures average * ways == total
  {
    assert average * ways * each == total * each;
    RealCancelEqual(average * ways, total, each);
  }

  lemma {:induction false} DrawnSharesAreShares(tiles: nat, shares: seq<TrapShare>, f: set<nat> -> real)
    requires forall s <- shares :: s.traps <= tiles
    ensures DrawnShares(tiles, shares, f) == SharesTotal(tiles, shares, f)
  {
    hide *;
    SharesUnfold(tiles, shares, f);
    if shares != [] {
      DrawnSharesAreShares(tiles, shares[1..], f);
      DrawnIsLayoutAverage(tiles, shares[0].traps, f);
      ShareOfAverage(shares[0].share, DrawnAverage(tiles, shares[0].traps, f), Choose(tiles, shares[0].traps) as real,
                     Total(AllLayouts(tiles, shares[0].traps), f));
    }
  }

  lemma SharesUnfold(tiles: nat, shares: seq<TrapShare>, f: set<nat> -> real)
    requires forall s <- shares :: s.traps <= tiles
    ensures shares == [] ==> DrawnShares(tiles, shares, f) == 0.0 == SharesTotal(tiles, shares, f)
    ensures shares != [] ==>
              && Choose(tiles, shares[0].traps) > 0
              && DrawnShares(tiles, shares, f)
                 == shares[0].share * DrawnAverage(tiles, shares[0].traps, f) + DrawnShares(tiles, shares[1..], f)
              && SharesTotal(tiles, shares, f)
                 == shares[0].share / Choose(tiles, shares[0].traps) as real * Total(AllLayouts(tiles, shares[0].traps), f)
                    + SharesTotal(tiles, shares[1..], f)
  {
    hide DrawnAverage;
    hide Total;
    hide AllLayouts;
    hide Choose;
  }

  lemma ShareOfAverage(share: real, average: real, ways: real, total: real)
    requires ways > 0.0 && average * ways == total
    ensures share / ways * total == share * average
  {
    assert share / ways * ways == share;
  }

  /** The average over draws is the average over layouts, for any number of floors. */
  lemma {:induction false} DrawnGridIsGrid(difficulty: Difficulty, rows: nat, f: seq<set<nat>> -> real)
    ensures DrawnGrid(difficulty, rows, f) == GridTotal(difficulty, rows, f)
    decreases rows
  {
    hide *;
    DrawnUnfold(difficulty, rows, f);
    if rows > 0 {
      forall traps
        ensures DrawnThen(difficulty, rows, f)(traps) == FloorThen(difficulty, rows, f)(traps)
      {
        DrawnGridIsGrid(difficulty, rows - 1, Above(traps, f));
      }
      DrawnFloorIsFloor(difficulty, DrawnThen(difficulty, rows, f));
      FloorSame(difficulty, DrawnThen(difficulty, rows, f), FloorThen(difficulty, rows, f));
    }
  }

  lemma DrawnFloorIsFloor(difficulty: Difficulty, f: set<nat> -> real)
    ensures DrawnFloor(difficulty, f) == FloorTotal(difficulty, f)
  {
    hide *;
    FloorTotalIs(difficulty, f);
    DrawnFloorIs(difficulty, f);
    DrawnSharesAreShares(TowersConfig(difficulty).tiles, TrapShares(difficulty), f);
  }

  lemma DrawnFloorIs(difficulty: Difficulty, f: set<nat> -> real)
    ensures forall s <- TrapShares(difficulty) :: s.traps <= TowersConfig(difficulty).tiles
    ensures DrawnFloor(difficulty, f) == DrawnShares(TowersConfig(difficulty).tiles, TrapShares(difficulty), f)
  {
    hide DrawnShares;
  }

  lemma DrawnUnfold(difficulty: Difficulty, rows: nat, f: seq<set<nat>> -> real)
    ensures rows == 0 ==> DrawnGrid(difficulty, rows, f) == f([]) == GridTotal(difficulty, rows, f)
    ensures rows > 0 ==> DrawnGrid(difficulty, rows, f) == DrawnFloor(difficulty, DrawnThen(difficulty, rows, f))
    ensures rows > 0 ==> GridTotal(difficulty, rows, f) == FloorTotal(difficulty, FloorThen(difficulty, rows, f))
    ensures rows > 0 ==> forall traps ::
              && DrawnThen(difficulty, rows, f)(traps) == DrawnGrid(difficulty, rows - 1, Above(traps, f))
              && FloorThen(difficulty, rows, f)(traps) == GridTotal(difficulty, rows - 1, Above(traps, f))
  {
    hide DrawnFloor;
    hide FloorTotal;
    hide Above;
  }

  /** No plan beats the shuffles of Towers: averaged over all index lists of every floor, a plan returns (1 - edge) stake. */
  lemma NoClimbBeatsTheShuffle(difficulty: Difficulty, rows: nat, plan: Plan, stake: nat, edge: real)
    requires rows > 0 && ClimbPicks(plan, TowersConfig(difficulty).tiles, rows, []).Some?
    ensures DrawnGrid(difficulty, rows, ClimbWorth(difficulty, plan, stake, edge)) == (1.0 - edge) * stake as real
  {
    hide *;
    DrawnGridIsGrid(difficulty, rows, ClimbWorth(difficulty, plan, stake, edge));
    NoClimbChangesTheEdge(difficulty, rows, plan, stake, edge);
  }
}
