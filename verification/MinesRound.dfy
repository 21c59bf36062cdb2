/**
 * One Mines round as a pure replay of the player's moves, and what a player's plan can win. After each move a player
 * learns only that the pick was safe, so an adaptive plan is a function of the picks made so far.
 */
module MinesRound {
  import opened Arithmetic
  import opened Boards
  import opened Layouts
  import opened Mines
  import opened Options
  import opened Sums

  /** The status of a bet; rounds that span several requests never reach Won. */
  datatype Status = Open | Won | Lost | CashedOut
  datatype Move = Reveal(tile: nat) | CashOut

  /** `multiplier` is in hundredths and `payout` in cents. */
  datatype Round = Round(tiles: nat, mines: set<nat>, revealed: seq<nat>, status: Status, multiplier: int, payout: int)

  function Start(tiles: nat, mines: set<nat>): Round {
    Round(tiles, mines, [], Open, 0, 0)
  }

  function Paid(r: Round, stake: nat): Round {
    r.(status := CashedOut, payout := PayoutCents(stake, r.multiplier))
  }

  /** A rejected move leaves the round as it is. */
  function Step(r: Round, move: Move, stake: nat, edge: real): Round {
    if r.status != Open then r
    else
      match move
      case CashOut => if r.revealed == [] then r else Paid(r, stake)
      case Reveal(tile) =>
        if tile >= r.tiles || tile in r.revealed then r
        else
          var picks := r.revealed + [tile];
          if tile in r.mines then r.(revealed := picks, status := Lost, multiplier := 0, payout := 0)
          else
            var further := r.(revealed := picks, multiplier := MinesMultiplier(r.tiles, |r.mines|, |picks|, edge));
            if |picks| >= r.tiles - |r.mines| then Paid(further, stake) else further
  }

  type Plan = seq<nat> -> Move

  /** A round in progress: at least one safe tile is still covered. */
  predicate Ongoing(r: Round) {
    r.status == Open && |r.revealed| + |r.mines| < r.tiles
  }

  /** Plays a plan until the round ends or the plan makes a move that is rejected. */
  function Play(r: Round, plan: Plan, stake: nat, edge: real): Round
    requires Ongoing(r)
    decreases r.tiles - |r.revealed|
  {
    var next := Step(r, plan(r.revealed), stake, edge);
    if next == r || next.status != Open then next else Play(next, plan, stake, edge)
  }

  /** The picks the plan makes if none of them hits a mine; None if it gets stuck on a rejected move. */
  function Picks(plan: Plan, tiles: nat, mines: nat, picks: seq<nat>): Option<seq<nat>>
    requires |picks| + mines < tiles
    decreases tiles - |picks|
  {
    match plan(picks)
    case CashOut => if picks == [] then None else Some(picks)
    case Reveal(tile) =>
      if tile >= tiles || tile in picks then None
      else if |picks| + 1 + mines == tiles then Some(picks + [tile])
      else Picks(plan, tiles, mines, picks + [tile])
  }

  function Elements(picks: seq<nat>): set<nat> {
    set tile <- picks
  }

  /** What an open round on its way along the plan looks like. */
  ghost predicate Underway(r: Round, edge: real) {
    && Ongoing(r)
    && Distinct(r.revealed) && Within(Elements(r.revealed), r.tiles)
    && r.mines !! Elements(r.revealed)
    && r.multiplier == MinesMultiplier(r.tiles, |r.mines|, |r.revealed|, edge)
    && r.payout == 0
  }

  lemma StepUnderway(r: Round, move: Move, stake: nat, edge: real)
    requires Underway(r, edge) && Step(r, move, stake, edge).status == Open
    ensures Underway(Step(r, move, stake, edge), edge)
  {
    var next := Step(r, move, stake, edge);
    if next != r {
      assert Elements(next.revealed) == Elements(r.revealed) + {move.tile};
    }
  }

  /** What every round looks like at some point of a replay that started on a covered board. */
  ghost predicate Legal(r: Round, stake: nat, edge: real) {
    match r.status
    case Open => Underway(r, edge)
    case CashedOut =>
      && Distinct(r.revealed) && Within(Elements(r.revealed), r.tiles) && r.mines !! Elements(r.revealed)
      && 0 < |r.revealed| <= r.tiles - |r.mines|
      && r.multiplier == MinesMultiplier(r.tiles, |r.mines|, |r.revealed|, edge)
      && r.payout == PayoutCents(stake, r.multiplier)
    case Lost =>
      && Distinct(r.revealed) && Within(Elements(r.revealed), r.tiles) && r.revealed != []
      && r.mines !! Elements(r.revealed[..|r.revealed| - 1]) && r.revealed[|r.revealed| - 1] in r.mines
      && r.multiplier == 0 && r.payout == 0
    case Won => false
  }

  /** Moves keep a round legal: picks before a loss are safe and differ, and the stored figures follow from them. */
  lemma StepIsLegal(r: Round, move: Move, stake: nat, edge: real)
    requires Legal(r, stake, edge)
    ensures Legal(Step(r, move, stake, edge), stake, edge)
  {
    if r.status == Open && move.Reveal? {
      var picks := r.revealed + [move.tile];
      assert Elements(picks) == Elements(r.revealed) + {move.tile};
      assert picks[..|picks| - 1] == r.revealed;
    }
  }

  /** Safe tiles still covered; every accepted reveal that leaves the round open lowers it. */
  function SafeLeft(r: Round): int {
    r.tiles - |r.mines| - |r.revealed|
  }

  lemma SafeLeftShrinks(r: Round, tile: nat, stake: nat, edge: real)
    requires Legal(r, stake, edge) && r.status == Open && Step(r, Reveal(tile), stake, edge) != r
    ensures var next := Step(r, Reveal(tile), stake, edge);
            && 0 <= SafeLeft(next) < SafeLeft(r)
            && (next.status == Open <==> tile !in r.mines && SafeLeft(next) > 0)
            && (next.status == CashedOut <==> tile !in r.mines && SafeLeft(next) == 0)
  {
  }

  function Replay(r: Round, moves: seq<Move>, stake: nat, edge: real): Round
    decreases |moves|
  {
    if moves == [] then r else Replay(Step(r, moves[0], stake, edge), moves[1..], stake, edge)
  }

  /** The result of following picks that never get stuck: they all survive, or one of them hits a mine. */
  predicate Outcome(r: Round, picks: seq<nat>, stake: nat, edge: real, final: Round) {
    if r.mines !! Elements(picks) then
      var multiplier := MinesMultiplier(r.tiles, |r.mines|, |picks|, edge);
      final == r.(revealed := picks, status := CashedOut, multiplier := multiplier, payout := PayoutCents(stake, multiplier))
    else
      final.status == Lost && final.payout == 0 && final.multiplier == 0
  }

  /** The picks a plan ends up making extend the ones it has made, without repeats and within the board. */
  lemma {:induction false} PicksExtend(plan: Plan, tiles: nat, mines: nat, picks: seq<nat>)
    requires |picks| + mines < tiles && Distinct(picks) && Within(Elements(picks), tiles)
    requires Picks(plan, tiles, mines, picks).Some?
    ensures var all := Picks(plan, tiles, mines, picks).value;
            && Elements(picks) <= Elements(all) && Distinct(all) && Within(Elements(all), tiles)
            && 0 < |all| <= tiles - mines
    decreases tiles - |picks|
  {
    match plan(picks)
    case CashOut =>
    case Reveal(tile) =>
      assert Elements(picks + [tile]) == Elements(picks) + {tile};
      if |picks| + 1 + mines < tiles {
        PicksExtend(plan, tiles, mines, picks + [tile]);
      }
  }

  /** A pick the plan makes from here on is among all its picks. */
  lemma NextPickIsMade(plan: Plan, tiles: nat, mines: nat, picks: seq<nat>, tile: nat)
    requires |picks| + mines < tiles && Distinct(picks) && Within(Elements(picks), tiles)
    requires Picks(plan, tiles, mines, picks).Some? && plan(picks) == Reveal(tile)
    ensures tile in Elements(Picks(plan, tiles, mines, picks).value)
  {
    assert Elements(picks + [tile]) == Elements(picks) + {tile};
    if |picks| + 1 + mines < tiles {
      PicksExtend(plan, tiles, mines, picks + [tile]);
    }
  }

  /** The case in which this move ends the round. */
  lemma LastMove(r: Round, plan: Plan, stake: nat, edge: real)
    requires Underway(r, edge) && Picks(plan, r.tiles, |r.mines|, r.revealed).Some?
    requires Step(r, plan(r.revealed), stake, edge).status != Open
    ensures var picks := Picks(plan, r.tiles, |r.mines|, r.revealed).value;
            Outcome(r, picks, stake, edge, Step(r, plan(r.revealed), stake, edge))
  {
    match plan(r.revealed)
    case CashOut =>
    case Reveal(tile) =>
      NextPickIsMade(plan, r.tiles, |r.mines|, r.revealed, tile);
      assert Elements(r.revealed + [tile]) == Elements(r.revealed) + {tile};
  }

  /** The case in which it does not. */
  lemma NextMove(r: Round, plan: Plan, stake: nat, edge: real)
    requires Underway(r, edge) && Picks(plan, r.tiles, |r.mines|, r.revealed).Some?
    requires Step(r, plan(r.revealed), stake, edge).status == Open
    ensures var next := Step(r, plan(r.revealed), stake, edge);
            && next != r && Underway(next, edge) && next.tiles == r.tiles && next.mines == r.mines
            && |next.revealed| == |r.revealed| + 1
            && Picks(plan, r.tiles, |r.mines|, next.revealed) == Picks(plan, r.tiles, |r.mines|, r.revealed)
            && forall picks, final | Outcome(next, picks, stake, edge, final) :: Outcome(r, picks, stake, edge, final)
  {
    StepUnderway(r, plan(r.revealed), stake, edge);
  }

  lemma PlayUnfold(r: Round, plan: Plan, stake: nat, edge: real)
    requires Ongoing(r)
    ensures var next := Step(r, plan(r.revealed), stake, edge);
            Play(r, plan, stake, edge) == if next == r || next.status != Open then next else Play(next, plan, stake, edge)
  {
  }

  /** Playing a plan that never gets stuck pays for all its picks if they miss the mines, and nothing otherwise. */
  lemma {:induction false} PlayFollowsPicks(r: Round, plan: Plan, stake: nat, edge: real)
    requires Underway(r, edge)
    requires Picks(plan, r.tiles, |r.mines|, r.revealed).Some?
    ensures var picks := Picks(plan, r.tiles, |r.mines|, r.revealed).value;
            Outcome(r, picks, stake, edge, Play(r, plan, stake, edge))
    decreases r.tiles - |r.revealed|
  {
    PlayUnfold(r, plan, stake, edge);
    var next := Step(r, plan(r.revealed), stake, edge);
    if next.status == Open {
      NextMove(r, plan, stake, edge);
      hide *;
      PlayFollowsPicks(next, plan, stake, edge);
    } else {
      LastMove(r, plan, stake, edge);
    }
  }

  /** What a finished round is worth before the two roundings, in cents. */
  function UnroundedPayout(final: Round, stake: nat, edge: real): real {
    if final.status == CashedOut && |final.revealed| + |final.mines| <= final.tiles
    then stake as real * FairMultiplier(final.tiles, |final.mines|, |final.revealed|, edge)
    else 0.0
  }

  /** The unrounded payout of a plan as a function of where the mines are. */
  function Worth(tiles: nat, plan: Plan, stake: nat, edge: real): set<nat> -> real {
    mines => if |mines| < tiles then UnroundedPayout(Play(Start(tiles, mines), plan, stake, edge), stake, edge) else 0.0
  }

  lemma WorthOfLayout(tiles: nat, mines: set<nat>, plan: Plan, stake: nat, edge: real)
    requires |mines| < tiles && Picks(plan, tiles, |mines|, []).Some?
    ensures var picks := Picks(plan, tiles, |mines|, []).value;
            && Distinct(picks) && Within(Elements(picks), tiles) && |picks| + |mines| <= tiles
            && Worth(tiles, plan, stake, edge)(mines)
               == if Avoids(Elements(picks))(mines) then stake as real * FairMultiplier(tiles, |mines|, |picks|, edge) else 0.0
  {
    hide *;
    StartIsUnderway(tiles, mines, edge);
    NoPicksYet(plan, tiles, |mines|);
    PlayFollowsPicks(Start(tiles, mines), plan, stake, edge);
    OutcomeWorth(tiles, mines, Picks(plan, tiles, |mines|, []).value, stake, edge, Play(Start(tiles, mines), plan, stake, edge));
    WorthUnfold(tiles, mines, plan, stake, edge);
  }

  lemma StartIsUnderway(tiles: nat, mines: set<nat>, edge: real)
    requires |mines| < tiles
    ensures var r := Start(tiles, mines);
            Underway(r, edge) && Ongoing(r) && r.tiles == tiles && r.mines == mines && r.revealed == []
  {
    assert Elements([]) == {};
  }

  lemma WorthUnfold(tiles: nat, mines: set<nat>, plan: Plan, stake: nat, edge: real)
    requires |mines| < tiles && Ongoing(Start(tiles, mines))
    ensures Worth(tiles, plan, stake, edge)(mines)
         == UnroundedPayout(Play(Start(tiles, mines), plan, stake, edge), stake, edge)
  {
  }

  lemma OutcomeWorth(tiles: nat, mines: set<nat>, picks: seq<nat>, stake: nat, edge: real, final: Round)
    requires 0 < |picks| && |picks| + |mines| <= tiles && Outcome(Start(tiles, mines), picks, stake, edge, final)
    ensures UnroundedPayout(final, stake, edge)
         == if Avoids(Elements(picks))(mines) then stake as real * FairMultiplier(tiles, |mines|, |picks|, edge) else 0.0
    ensures final.status == CashedOut ==>
              final.payout == PayoutCents(stake, Hundredths(FairMultiplier(tiles, |mines|, |picks|, edge)))
    ensures final.status != CashedOut ==> final.payout == 0
    ensures final.status == CashedOut <==> Avoids(Elements(picks))(mines)
  {
  }

  /** (1 - edge) / odds paid on the share `odds` of all layouts comes to 1 - edge. */
  lemma FairPayTimesShare(stake: real, keep: real, odds: real, share: real, all: real)
    requires odds > 0.0 && odds * all == share
    ensures stake * (keep / odds) * share == keep * stake * all
  {
    assert keep / odds * odds == keep;
    assert stake * (keep / odds) * share == stake * (keep / odds * odds) * all;
  }

  /**
   * No plan changes the edge: whatever the board, the number of mines and the player's plan, as long as it cashes out
   * after at least one pick, the unrounded payouts over all layouts come to (1 - edge) stake per layout.
   */
  lemma NoPlanChangesTheEdge(tiles: nat, mines: nat, plan: Plan, stake: nat, edge: real)
    requires mines < tiles && Picks(plan, tiles, mines, []).Some?
    ensures Total(AllLayouts(tiles, mines), Worth(tiles, plan, stake, edge))
         == (1.0 - edge) * stake as real * Choose(tiles, mines) as real
  {
    hide *;
    var picks, worth := Picks(plan, tiles, mines, []).value, Worth(tiles, plan, stake, edge);
    NoPicksYet(plan, tiles, mines);
    var pay := stake as real * FairMultiplier(tiles, mines, |picks|, edge);
    forall layout <- AllLayouts(tiles, mines)
      ensures worth(layout) == if Avoids(Elements(picks))(layout) then pay else 0.0
    {
      AllLayoutsIsComplete(tiles, mines, layout);
      WorthOfLayout(tiles, layout, plan, stake, edge);
    }
    TotalOfConstant(AllLayouts(tiles, mines), worth, Avoids(Elements(picks)), pay);
    LayoutsAvoiding(tiles, mines, Elements(picks));
    ElementsCount(picks);
    OddsAreLayoutShare(tiles, mines, |picks|);
    FairMultiplierIs(tiles, mines, |picks|, edge);
    FairPayTimesShare(stake as real, 1.0 - edge, SurvivalOdds(tiles, mines, |picks|),
                      Choose(tiles - |picks|, mines) as real, Choose(tiles, mines) as real);
  }

  lemma NoPicksYet(plan: Plan, tiles: nat, mines: nat)
    requires mines < tiles && Picks(plan, tiles, mines, []).Some?
    ensures var picks := Picks(plan, tiles, mines, []).value;
            Distinct(picks) && Within(Elements(picks), tiles) && 0 < |picks| && |picks| + mines <= tiles
  {
    PicksExtend(plan, tiles, mines, []);
  }

  lemma ElementsCount(picks: seq<nat>)
    requires Distinct(picks)
    ensures |Elements(picks)| == |picks|
  {
    DistinctSize(picks);
  }

  lemma FairMultiplierIs(tiles: nat, mines: nat, revealed: nat, edge: real)
    requires revealed + mines <= tiles
    ensures SurvivalOdds(tiles, mines, revealed) > 0.0
    ensures FairMultiplier(tiles, mines, revealed, edge) == (1.0 - edge) / SurvivalOdds(tiles, mines, revealed)
  {
  }

  /** The same over the grids the shuffle lays out: averaged over all n! index lists, a plan returns (1 - edge) stake. */
  lemma NoPlanBeatsTheShuffle(tiles: nat, mines: nat, plan: Plan, stake: nat, edge: real)
    requires mines < tiles && Picks(plan, tiles, mines, []).Some?
    ensures Total(AllIndices(tiles), Over(Placement(tiles, mines), Worth(tiles, plan, stake, edge)))
         == (1.0 - edge) * stake as real * |AllIndices(tiles)| as real
  {
    hide *;
    PlacementsAreEquallyLikely(tiles, mines, Worth(tiles, plan, stake, edge));
    NoPlanChangesTheEdge(tiles, mines, plan, stake, edge);
    ChooseFactorial(tiles, mines);
    AllIndicesAreDistinct(tiles);
    var each, ways := Factorial(mines) * Factorial(tiles - mines), Choose(tiles, mines);
    RealOfProduct(each, ways);
    var kept := (1.0 - edge) * stake as real;
    assert each as real * (kept * ways as real) == kept * (each as real * ways as real);
  }

  /** With the code's two roundings, what is paid differs from that by at most half a cent and half a percent of the stake. */
  lemma RoundingMovesPayoutLittle(tiles: nat, mines: set<nat>, plan: Plan, stake: nat, edge: real)
    requires |mines| < tiles && Picks(plan, tiles, |mines|, []).Some?
    ensures var final := Play(Start(tiles, mines), plan, stake, edge);
            var error := final.payout as real - Worth(tiles, plan, stake, edge)(mines);
            if final.status == CashedOut then -(0.5 + 0.005 * stake as real) <= error <= 0.5 + 0.005 * stake as real
            else error == 0.0
  {
    hide *;
    StartIsUnderway(tiles, mines, edge);
    NoPicksYet(plan, tiles, |mines|);
    PlayFollowsPicks(Start(tiles, mines), plan, stake, edge);
    var picks := Picks(plan, tiles, |mines|, []).value;
    OutcomeWorth(tiles, mines, picks, stake, edge, Play(Start(tiles, mines), plan, stake, edge));
    WorthUnfold(tiles, mines, plan, stake, edge);
    PayoutError(stake, FairMultiplier(tiles, |mines|, |picks|, edge));
  }
}
