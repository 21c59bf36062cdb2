/** One Towers climb as a pure replay of the player's moves, and what a player's plan can win. */
module TowersRound {
  import opened Arithmetic
  import opened Layouts
  import opened MinesRound
  import opened Options
  import opened Sums
  import opened Towers

  /** `multiplier` is in hundredths and `payout` in cents; `grid` holds the traps of each floor, bottom first. */
  datatype Climb = Climb(difficulty: Difficulty, grid: seq<set<nat>>, picks: seq<nat>, status: Status,
                         multiplier: int, payout: int)

  function StartClimb(difficulty: Difficulty, grid: seq<set<nat>>): Climb {
    Climb(difficulty, grid, [], Open, 0, 0)
  }

  function PaidClimb(c: Climb, stake: nat): Climb {
    c.(status := CashedOut, payout := PayoutCents(stake, c.multiplier))
  }

  /** A rejected move leaves the climb as it is. */
  function ClimbStep(c: Climb, move: Move, stake: nat, edge: real): Climb {
    if c.status != Open then c
    else
      match move
      case CashOut => if c.picks == [] then c else PaidClimb(c, stake)
      case Reveal(tile) =>
        var row := |c.picks|;
        if tile >= TowersConfig(c.difficulty).tiles || row >= |c.grid| then c
        else
          var picks := c.picks + [tile];
          if tile in c.grid[row] then c.(picks := picks, status := Lost, multiplier := 0, payout := 0)
          else
            var further := c.(picks := picks, multiplier := TowersMultiplier(c.difficulty, |picks|, edge));
            if |picks| >= |c.grid| then PaidClimb(further, stake) else further
  }

  predicate Climbing(c: Climb) {
    c.status == Open && |c.picks| < |c.grid|
  }

  /** Plays a plan until the climb ends or the plan makes a move that is rejected. */
  function PlayClimb(c: Climb, plan: Plan, stake: nat, edge: real): Climb
    requires Climbing(c)
    decreases |c.grid| - |c.picks|
  {
    var next := ClimbStep(c, plan(c.picks), stake, edge);
    if next == c || next.status != Open then next else PlayClimb(next, plan, stake, edge)
  }

  /** The tiles the plan picks if it meets no trap; None if it gets stuck on a rejected move. */
  function ClimbPicks(plan: Plan, tiles: nat, rows: nat, picks: seq<nat>): Option<seq<nat>>
    requires |picks| < rows
    decreases rows - |picks|
  {
    match plan(picks)
    case CashOut => if picks == [] then None else Some(picks)
    case Reveal(tile) =>
      if tile >= tiles then None
      else if |picks| + 1 == rows then Some(picks + [tile])
      else ClimbPicks(plan, tiles, rows, picks + [tile])
  }

  predicate Clears(picks: seq<nat>, grid: seq<set<nat>>) {
    |picks| <= |grid| && forall row :: 0 <= row < |picks| ==> picks[row] !in grid[row]
  }

  ghost predicate ClimbUnderway(c: Climb, edge: real) {
    && Climbing(c)
    && Clears(c.picks, c.grid)
    && c.multiplier == TowersMultiplier(c.difficulty, |c.picks|, edge)
    && c.payout == 0
  }

  /** What every climb looks like at some point of a replay that started at the bottom. */
  ghost predicate LegalClimb(c: Climb, stake: nat, edge: real) {
    match c.status
    case Open => ClimbUnderway(c, edge)
    case CashedOut =>
      && c.picks != [] && Clears(c.picks, c.grid)
      && c.multiplier == TowersMultiplier(c.difficulty, |c.picks|, edge)
      && c.payout == PayoutCents(stake, c.multiplier)
    case Lost =>
      && 0 < |c.picks| <= |c.grid| && Clears(c.picks[..|c.picks| - 1], c.grid)
      && c.picks[|c.picks| - 1] in c.grid[|c.picks| - 1]
      && c.multiplier == 0 && c.payout == 0
    case Won => false
  }

  /** Moves keep a climb legal: floors before a loss are clear, and the stored figures follow from the picks. */
  lemma ClimbStepIsLegal(c: Climb, move: Move, stake: nat, edge: real)
    requires LegalClimb(c, stake, edge)
    ensures LegalClimb(ClimbStep(c, move, stake, edge), stake, edge)
  {
    if c.status == Open && move.Reveal? {
      var picks := c.picks + [move.tile];
      assert picks[..|picks| - 1] == c.picks;
    }
  }

  function ReplayClimb(c: Climb, moves: seq<Move>, stake: nat, edge: real): Climb
    decreases |moves|
  {
    if moves == [] then c else ReplayClimb(ClimbStep(c, moves[0], stake, edge), moves[1..], stake, edge)
  }

  predicate ClimbOutcome(c: Climb, picks: seq<nat>, stake: nat, edge: real, final: Climb) {
    if Clears(picks, c.grid) then
      var multiplier := TowersMultiplier(c.difficulty, |picks|, edge);
      final == c.(picks := picks, status := CashedOut, multiplier := multiplier, payout := PayoutCents(stake, multiplier))
    else
      final.status == Lost && final.payout == 0 && final.multiplier == 0
  }

  /** The tiles a plan ends up picking extend the ones it has picked. */
  lemma {:induction false} ClimbPicksExtend(plan: Plan, tiles: nat, rows: nat, picks: seq<nat>)
    requires |picks| < rows && (forall tile <- picks :: tile < tiles) && ClimbPicks(plan, tiles, rows, picks).Some?
    ensures var all := ClimbPicks(plan, tiles, rows, picks).value;
            picks <= all && 0 < |all| <= rows && (forall tile <- all :: tile < tiles)
            && (plan(picks).Reveal? ==> |picks| < |all| && all[|picks|] == plan(picks).tile)
    decreases rows - |picks|
  {
    match plan(picks)
    case CashOut =>
    case Reveal(tile) =>
      if |picks| + 1 < rows {
        ClimbPicksExtend(plan, tiles, rows, picks + [tile]);
      }
  }

  lemma LastClimbMove(c: Climb, plan: Plan, stake: nat, edge: real)
    requires ClimbUnderway(c, edge) && (forall tile <- c.picks :: tile < TowersConfig(c.difficulty).tiles)
    requires ClimbPicks(plan, TowersConfig(c.difficulty).tiles, |c.grid|, c.picks).Some?
    requires ClimbStep(c, plan(c.picks), stake, edge).status != Open
    ensures var picks := ClimbPicks(plan, TowersConfig(c.difficulty).tiles, |c.grid|, c.picks).value;
            ClimbOutcome(c, picks, stake, edge, ClimbStep(c, plan(c.picks), stake, edge))
  {
    ClimbPicksExtend(plan, TowersConfig(c.difficulty).tiles, |c.grid|, c.picks);
  }

  lemma NextClimbMove(c: Climb, plan: Plan, stake: nat, edge: real)
    requires ClimbUnderway(c, edge) && (forall tile <- c.picks :: tile < TowersConfig(c.difficulty).tiles)
    requires ClimbPicks(plan, TowersConfig(c.difficulty).tiles, |c.grid|, c.picks).Some?
    requires ClimbStep(c, plan(c.picks), stake, edge).status == Open
    ensures var next, tiles := ClimbStep(c, plan(c.picks), stake, edge), TowersConfig(c.difficulty).tiles;
            && next != c && ClimbUnderway(next, edge) && next.difficulty == c.difficulty && next.grid == c.grid
            && |next.picks| == |c.picks| + 1 && (forall tile <- next.picks :: tile < tiles)
            && ClimbPicks(plan, tiles, |c.grid|, next.picks) == ClimbPicks(plan, tiles, |c.grid|, c.picks)
            && forall picks, final | ClimbOutcome(next, picks, stake, edge, final) :: ClimbOutcome(c, picks, stake, edge, final)
  {
  }

  lemma PlayClimbUnfold(c: Climb, plan: Plan, stake: nat, edge: real)
    requires Climbing(c)
    ensures var next := ClimbStep(c, plan(c.picks), stake, edge);
            PlayClimb(c, plan, stake, edge)
            == if next == c || next.status != Open then next else PlayClimb(next, plan, stake, edge)
  {
  }

  /** Playing a plan that never gets stuck pays for all its floors if they are clear, and nothing otherwise. */
  lemma {:induction false} ClimbFollowsPicks(c: Climb, plan: Plan, stake: nat, edge: real)
    requires ClimbUnderway(c, edge) && (forall tile <- c.picks :: tile < TowersConfig(c.difficulty).tiles)
    requires ClimbPicks(plan, TowersConfig(c.difficulty).tiles, |c.grid|, c.picks).Some?
    ensures var picks := ClimbPicks(plan, TowersConfig(c.difficulty).tiles, |c.grid|, c.picks).value;
            ClimbOutcome(c, picks, stake, edge, PlayClimb(c, plan, stake, edge))
    decreases |c.grid| - |c.picks|
  {
    PlayClimbUnfold(c, plan, stake, edge);
    var next := ClimbStep(c, plan(c.picks), stake, edge);
    if next.status == Open {
      NextClimbMove(c, plan, stake, edge);
      hide *;
      ClimbFollowsPicks(next, plan, stake, edge);
    } else {
      LastClimbMove(c, plan, stake, edge);
    }
  }

  /** The expected value of f over grids of the given number of floors, floor by floor. */
  function GridTotal(difficulty: Difficulty, rows: nat, f: seq<set<nat>> -> real): real
    decreases rows, 1
  {
    if rows == 0 then f([])
    else FloorTotal(difficulty, FloorThen(difficulty, rows, f))
  }

  /** The expected value of f over the grids whose first floor has these traps. */
  function FloorThen(difficulty: Difficulty, rows: nat, f: seq<set<nat>> -> real): set<nat> -> real
    requires rows > 0
    decreases rows, 0
  {
    traps => GridTotal(difficulty, rows - 1, Above(traps, f))
  }

  function Above(traps: set<nat>, f: seq<set<nat>> -> real): seq<set<nat>> -> real {
    grid => f([traps] + grid)
  }

  /** Pays v on the grids whose first |picks| floors have no trap at the picks. */
  function IfClear(picks: seq<nat>, v: real): seq<set<nat>> -> real {
    grid => if Clears(picks, grid) then v else 0.0
  }

  lemma {:induction false} SharesSame(tiles: nat, shares: seq<TrapShare>, f: set<nat> -> real, g: set<nat> -> real)
    requires forall s <- shares :: s.traps <= tiles
    requires forall traps :: Within(traps, tiles) ==> f(traps) == g(traps)
    ensures SharesTotal(tiles, shares, f) == SharesTotal(tiles, shares, g)
  {
    hide Choose;
    if shares != [] {
      SharesSame(tiles, shares[1..], f, g);
      hide Total;
      var layouts := AllLayouts(tiles, shares[0].traps);
      forall traps <- layouts
        ensures f(traps) == g(traps)
      {
        AllLayoutsIsComplete(tiles, shares[0].traps, traps);
      }
      hide AllLayouts;
      TotalSame(layouts, f, g);
    }
  }

  lemma {:induction false} GridSame(difficulty: Difficulty, rows: nat, f: seq<set<nat>> -> real, g: seq<set<nat>> -> real)
    requires forall grid | |grid| == rows :: f(grid) == g(grid)
    ensures GridTotal(difficulty, rows, f) == GridTotal(difficulty, rows, g)
  {
    hide *;
    GridUnfold(difficulty, rows, f);
    GridUnfold(difficulty, rows, g);
    if rows > 0 {
      forall traps
        ensures FloorThen(difficulty, rows, f)(traps) == FloorThen(difficulty, rows, g)(traps)
      {
        forall grid: seq<set<nat>> | |grid| == rows - 1
          ensures Above(traps, f)(grid) == Above(traps, g)(grid)
        {
          AboveUnfold(traps, f, grid);
          AboveUnfold(traps, g, grid);
        }
        GridSame(difficulty, rows - 1, Above(traps, f), Above(traps, g));
      }
      FloorSame(difficulty, FloorThen(difficulty, rows, f), FloorThen(difficulty, rows, g));
    }
  }

  lemma AboveUnfold(traps: set<nat>, f: seq<set<nat>> -> real, grid: seq<set<nat>>)
    ensures Above(traps, f)(grid) == f([traps] + grid)
  {
  }

  lemma {:induction false} SharesConstant(tiles: nat, shares: seq<TrapShare>, f: set<nat> -> real, v: real)
    requires tiles > 0 && forall s <- shares :: s.traps < tiles
    requires forall traps :: Within(traps, tiles) ==> f(traps) == v
    ensures SharesTotal(tiles, shares, f) == v * WholeShare(shares)
  {
    hide *;
    SharesUnfold(tiles, shares, f);
    WholeUnfold(shares);
    if shares != [] {
      SharesConstant(tiles, shares[1..], f, v);
      var k := shares[0].traps;
      LayoutsConstant(tiles, k, f, v);
      ShareTimes(shares[0].share, Choose(tiles, k) as real, v, Total(AllLayouts(tiles, k), f));
      assert v * (shares[0].share + WholeShare(shares[1..])) == v * shares[0].share + v * WholeShare(shares[1..]);
    }
  }

  lemma WholeUnfold(shares: seq<TrapShare>)
    ensures WholeShare(shares) == if shares == [] then 0.0 else shares[0].share + WholeShare(shares[1..])
  {
  }

  lemma ShareTimes(share: real, c: real, v: real, t: real)
    requires c > 0.0 && t == v * c
    ensures share / c * t == v * share
  {
    assert share / c * c == share;
    assert share / c * t == v * (share / c * c);
  }

  lemma LayoutsConstant(tiles: nat, k: nat, f: set<nat> -> real, v: real)
    requires forall traps :: Within(traps, tiles) ==> f(traps) == v
    ensures Total(AllLayouts(tiles, k), f) == v * Choose(tiles, k) as real
  {
    hide *;
    var layouts, always := AllLayouts(tiles, k), (traps: set<nat>) => true;
    AllLayoutsAreDistinct(tiles, k);
    forall traps <- layouts
      ensures f(traps) == v
    {
      AllLayoutsIsComplete(tiles, k, traps);
    }
    TotalOfConstant(layouts, f, always, v);
    CountAll(layouts, always);
  }

  function WholeShare(shares: seq<TrapShare>): real {
    if shares == [] then 0.0 else shares[0].share + WholeShare(shares[1..])
  }

  lemma SharesAreWhole(difficulty: Difficulty)
    ensures WholeShare(TrapShares(difficulty)) == 1.0
  {
    var shares := TrapShares(difficulty);
    if difficulty == Easy {
      assert shares[1..][1..] == [TrapShare(3, EASY_TRAP_VARY / 2.0)];
      assert WholeShare(shares[1..][1..]) == EASY_TRAP_VARY / 2.0;
      assert WholeShare(shares[1..]) == EASY_TRAP_VARY;
    } else {
      assert WholeShare(shares[1..]) == 0.0;
    }
  }

  lemma FloorConstant(difficulty: Difficulty, f: set<nat> -> real, v: real)
    requires forall traps :: Within(traps, TowersConfig(difficulty).tiles) ==> f(traps) == v
    ensures FloorTotal(difficulty, f) == v
  {
    hide SharesTotal;
    SharesAreWhole(difficulty);
    SharesConstant(TowersConfig(difficulty).tiles, TrapShares(difficulty), f, v);
  }

  lemma FloorSame(difficulty: Difficulty, f: set<nat> -> real, g: set<nat> -> real)
    requires forall traps :: f(traps) == g(traps)
    ensures FloorTotal(difficulty, f) == FloorTotal(difficulty, g)
  {
    hide SharesTotal;
    SharesSame(TowersConfig(difficulty).tiles, TrapShares(difficulty), f, g);
  }

  lemma ClearAbove(picks: seq<nat>, v: real, traps: set<nat>, grid: seq<set<nat>>)
    requires |picks| <= |grid| + 1
    ensures Above(traps, IfClear(picks, v))(grid)
         == if picks == [] then v else IfClear(picks[1..], if picks[0] in traps then 0.0 else v)(grid)
  {
    if picks != [] {
      var all := [traps] + grid;
      assert Clears(picks, all) <==> picks[0] !in traps && Clears(picks[1..], grid) by {
        assert forall row :: 0 <= row < |picks| - 1 ==> picks[1..][row] == picks[row + 1] && all[row + 1] == grid[row];
        if picks[0] !in traps && Clears(picks[1..], grid) {
          forall row | 0 <= row < |picks|
            ensures picks[row] !in all[row]
          {
            if row > 0 {
              assert picks[1..][row - 1] !in grid[row - 1];
            }
          }
        }
      }
    }
  }

  lemma GridUnfold(difficulty: Difficulty, rows: nat, f: seq<set<nat>> -> real)
    ensures rows == 0 ==> GridTotal(difficulty, rows, f) == f([])
    ensures rows > 0 ==> GridTotal(difficulty, rows, f) == FloorTotal(difficulty, FloorThen(difficulty, rows, f))
    ensures rows > 0 ==> forall traps :: FloorThen(difficulty, rows, f)(traps) == GridTotal(difficulty, rows - 1, Above(traps, f))
  {
  }

  /** Surviving one more pick costs one more factor of the survive rate. */
  lemma {:induction false} GridClear(difficulty: Difficulty, rows: nat, picks: seq<nat>, v: real)
    requires |picks| <= rows && forall tile <- picks :: tile < TowersConfig(difficulty).tiles
    ensures GridTotal(difficulty, rows, IfClear(picks, v)) == v * Power(SurviveRate(difficulty), |picks|)
    decreases rows, 1
  {
    hide *;
    var f := IfClear(picks, v);
    GridUnfold(difficulty, rows, f);
    PowerUnfold(SurviveRate(difficulty), |picks|);
    if rows == 0 {
      ClearOfNothing(v, []);
    } else {
      var w := if picks == [] then v else v * Power(SurviveRate(difficulty), |picks| - 1);
      forall traps
        ensures FloorThen(difficulty, rows, f)(traps) == if picks == [] then v else IfSafe(picks[0], w)(traps)
      {
        GridClearAbove(difficulty, rows, picks, v, traps);
        if picks != [] {
          SafeUnfold(picks[0], w, traps);
        }
      }
      if picks == [] {
        FloorConstant(difficulty, FloorThen(difficulty, rows, f), v);
      } else {
        FloorSame(difficulty, FloorThen(difficulty, rows, f), IfSafe(picks[0], w));
        assert picks[0] in picks;
        SurviveRateIsSafeShare(difficulty, picks[0], w);
      }
    }
  }

  lemma GridClearAbove(difficulty: Difficulty, rows: nat, picks: seq<nat>, v: real, traps: set<nat>)
    requires |picks| <= rows && 0 < rows && forall tile <- picks :: tile < TowersConfig(difficulty).tiles
    ensures var total := GridTotal(difficulty, rows - 1, Above(traps, IfClear(picks, v)));
            && (picks == [] ==> total == v)
            && (picks != [] ==> total == if picks[0] in traps then 0.0 else v * Power(SurviveRate(difficulty), |picks| - 1))
    decreases rows, 0
  {
    hide *;
    var rest := if picks == [] then [] else picks[1..];
    var w := if picks != [] && picks[0] in traps then 0.0 else v;
    forall grid: seq<set<nat>> | |grid| == rows - 1
      ensures Above(traps, IfClear(picks, v))(grid) == IfClear(rest, w)(grid)
    {
      ClearAbove(picks, v, traps, grid);
      ClearOfNothing(v, grid);
    }
    GridSame(difficulty, rows - 1, Above(traps, IfClear(picks, v)), IfClear(rest, w));
    forall tile <- rest
      ensures tile < TowersConfig(difficulty).tiles
    {
      assert tile in picks;
    }
    GridClear(difficulty, rows - 1, rest, w);
    PowerUnfold(SurviveRate(difficulty), 0);
    if picks != [] {
      var p := Power(SurviveRate(difficulty), |picks| - 1);
      assert |rest| == |picks| - 1;
      assert GridTotal(difficulty, rows - 1, Above(traps, IfClear(picks, v))) == w * p;
      assert w * p == if picks[0] in traps then 0.0 else v * p;
    }
  }

  lemma SafeUnfold(tile: nat, v: real, traps: set<nat>)
    ensures IfSafe(tile, v)(traps) == if tile in traps then 0.0 else v
  {
  }

  lemma ClearOfNothing(v: real, grid: seq<set<nat>>)
    ensures IfClear([], v)(grid) == v
  {
  }

  lemma PowerUnfold(x: real, n: nat)
    ensures Power(x, 0) == 1.0
    ensures n > 0 ==> Power(x, n) == x * Power(x, n - 1)
  {
  }

  /** What a finished climb is worth before the two roundings, in cents. */
  function UnroundedClimb(final: Climb, stake: nat, edge: real): real {
    if final.status == CashedOut then stake as real * FairTowers(final.difficulty, |final.picks|, edge) else 0.0
  }

  /** The unrounded payout of a plan as a function of the grid. */
  function ClimbWorth(difficulty: Difficulty, plan: Plan, stake: nat, edge: real): seq<set<nat>> -> real {
    grid => if grid == [] then 0.0
            else UnroundedClimb(PlayClimb(StartClimb(difficulty, grid), plan, stake, edge), stake, edge)
  }

  lemma WorthOfGrid(difficulty: Difficulty, grid: seq<set<nat>>, plan: Plan, stake: nat, edge: real, picks: seq<nat>)
    requires grid != [] && ClimbPicks(plan, TowersConfig(difficulty).tiles, |grid|, []) == Some(picks)
    ensures ClimbWorth(difficulty, plan, stake, edge)(grid)
         == IfClear(picks, stake as real * FairTowers(difficulty, |picks|, edge))(grid)
  {
    hide *;
    StartIsClimbing(difficulty, grid, edge);
    ClimbFollowsPicks(StartClimb(difficulty, grid), plan, stake, edge);
    ClimbOutcomeWorth(difficulty, grid, plan, stake, edge, picks);
  }

  lemma StartIsClimbing(difficulty: Difficulty, grid: seq<set<nat>>, edge: real)
    requires grid != []
    ensures var start := StartClimb(difficulty, grid);
            && ClimbUnderway(start, edge) && Climbing(start)
            && start.difficulty == difficulty && start.grid == grid && start.picks == []
  {
  }

  lemma ClimbOutcomeWorth(difficulty: Difficulty, grid: seq<set<nat>>, plan: Plan, stake: nat, edge: real, picks: seq<nat>)
    requires grid != [] && Climbing(StartClimb(difficulty, grid))
    requires var start := StartClimb(difficulty, grid);
             ClimbOutcome(start, picks, stake, edge, PlayClimb(start, plan, stake, edge))
    ensures ClimbWorth(difficulty, plan, stake, edge)(grid)
         == IfClear(picks, stake as real * FairTowers(difficulty, |picks|, edge))(grid)
  {
    hide PlayClimb;
    hide FairTowers;
  }

  /**
   * No plan changes the edge of Towers: for every difficulty, number of floors and plan that cashes out after at least
   * one floor, the unrounded payout averaged over the floors' layouts, each with its share, is (1 - edge) stake.
   */
  lemma NoClimbChangesTheEdge(difficulty: Difficulty, rows: nat, plan: Plan, stake: nat, edge: real)
    requires rows > 0 && ClimbPicks(plan, TowersConfig(difficulty).tiles, rows, []).Some?
    ensures GridTotal(difficulty, rows, ClimbWorth(difficulty, plan, stake, edge)) == (1.0 - edge) * stake as real
  {
    hide *;
    var tiles := TowersConfig(difficulty).tiles;
    var picks := ClimbPicks(plan, tiles, rows, []).value;
    ClimbPicksExtend(plan, tiles, rows, []);
    var pay := stake as real * FairTowers(difficulty, |picks|, edge);
    forall grid: seq<set<nat>> | |grid| == rows
      ensures ClimbWorth(difficulty, plan, stake, edge)(grid) == IfClear(picks, pay)(grid)
    {
      WorthOfGrid(difficulty, grid, plan, stake, edge, picks);
    }
    GridSame(difficulty, rows, ClimbWorth(difficulty, plan, stake, edge), IfClear(picks, pay));
    GridClear(difficulty, rows, picks, pay);
    FairPayTimesRate(difficulty, |picks|, stake as real, edge);
  }

  lemma FairPayTimesRate(difficulty: Difficulty, climbed: nat, stake: real, edge: real)
    ensures stake * FairTowers(difficulty, climbed, edge) * Power(SurviveRate(difficulty), climbed) == (1.0 - edge) * stake
  {
    var p := Power(SurviveRate(difficulty), climbed);
    assert FairTowers(difficulty, climbed, edge) * p == 1.0 - edge;
    hide *;
    var fair := FairTowers(difficulty, climbed, edge);
    assert stake * fair * p == stake * (fair * p);
  }

  /** With the code's two roundings, what is paid differs from that by at most half a cent and half a percent of the stake. */
  lemma RoundingMovesClimbLittle(difficulty: Difficulty, grid: seq<set<nat>>, plan: Plan, stake: nat, edge: real)
    requires grid != [] && ClimbPicks(plan, TowersConfig(difficulty).tiles, |grid|, []).Some?
    ensures var start := StartClimb(difficulty, grid);
            var final := PlayClimb(start, plan, stake, edge);
            var error := final.payout as real - UnroundedClimb(final, stake, edge);
            if final.status == CashedOut then -(0.5 + 0.005 * stake as real) <= error <= 0.5 + 0.005 * stake as real
            else error == 0.0
  {
    hide *;
    var picks := ClimbPicks(plan, TowersConfig(difficulty).tiles, |grid|, []).value;
    var start := StartClimb(difficulty, grid);
    StartIsClimbing(difficulty, grid, edge);
    ClimbPicksExtend(plan, TowersConfig(difficulty).tiles, |grid|, []);
    ClimbFollowsPicks(start, plan, stake, edge);
    ClimbPayout(start, picks, stake, edge, PlayClimb(start, plan, stake, edge));
    PayoutError(stake, FairTowers(difficulty, |picks|, edge));
  }

  lemma ClimbPayout(c: Climb, picks: seq<nat>, stake: nat, edge: real, final: Climb)
    requires picks != [] && ClimbOutcome(c, picks, stake, edge, final)
    ensures final.status == CashedOut ==>
              && final.payout == PayoutCents(stake, Hundredths(FairTowers(c.difficulty, |picks|, edge)))
              && UnroundedClimb(final, stake, edge) == stake as real * FairTowers(c.difficulty, |picks|, edge)
    ensures final.status != CashedOut ==> final.payout == 0 && UnroundedClimb(final, stake, edge) == 0.0
  {
    hide FairTowers;
    hide PayoutCents;
  }
}
