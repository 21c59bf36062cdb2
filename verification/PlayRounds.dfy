/** The stored bets: each grid bet is a legal round, one is open per user and game, nonces count up. */
module PlayRounds {
  import opened Accounts
  import opened Arithmetic
  import opened Layouts
  import opened Mines
  import opened MinesGrid
  import opened MinesRound
  import opened Play
  import opened Rng
  import opened Sums
  import opened Towers
  import opened TowersRound

  /** The round a stored Mines bet stands for. */
  function AsMines(b: Bet): Round
    requires b.board.MinesBoard?
  {
    Round(MINES_TILE_COUNT, b.board.mines, b.board.revealed, b.status, b.multiplier, b.payout)
  }

  /** The climb a stored Towers bet stands for. */
  function AsClimb(b: Bet): Climb
    requires b.board.TowersBoard?
  {
    Climb(b.board.level, b.board.grid, b.board.picks, b.status, b.multiplier, b.payout)
  }

  ghost predicate BetOk(games: seq<Game>, b: Bet) {
    && b.game < |games| && b.payout >= 0 && b.multiplier >= 0
    && match b.board
       case NoBoard => games[b.game].slug.Instant? && (b.status == Won || b.status == Lost)
       case MinesBoard(mines, revealed) =>
         games[b.game].slug == MinesGame && Legal(AsMines(b), b.stake, games[b.game].edge)
       case TowersBoard(level, grid, picks) =>
         games[b.game].slug == TowersGame && LegalClimb(AsClimb(b), b.stake, games[b.game].edge)
         && |grid| == TowersConfig(level).rows
  }

  ghost predicate Rounds(games: seq<Game>, bets: seq<Bet>) {
    forall i :: 0 <= i < |bets| ==> BetOk(games, bets[i])
  }

  predicate FairGames(games: seq<Game>) {
    forall i :: 0 <= i < |games| ==> games[i].edge <= 1.0
  }

  /** At most one open round per user and game. */
  ghost predicate OneOpen(bets: seq<Bet>) {
    forall i, j :: 0 <= i < j < |bets| && bets[i].status == Open && bets[j].status == Open
             ==> bets[i].user != bets[j].user || bets[i].game != bets[j].game
  }

  /** The n-th bet of a user carries nonce n. */
  ghost predicate Nonces(bets: seq<Bet>) {
    forall i :: 0 <= i < |bets| ==> bets[i].nonce == NonceAt(bets, i)
  }

  function NonceAt(bets: seq<Bet>, i: nat): nat
    requires i < |bets|
  {
    Count(bets[..i], IsBetOf(bets[i].user)) + 1
  }

  lemma MultiplierNotNegative(tiles: nat, mines: nat, revealed: int, edge: real)
    requires edge <= 1.0
    ensures MinesMultiplier(tiles, mines, revealed, edge) >= 0
  {
    if 0 < revealed <= tiles - mines {
      var odds := SurvivalOdds(tiles, mines, revealed);
      QuotientGrows(1.0 - edge, odds, odds);
      Round2Monotone(0.0, FairMultiplier(tiles, mines, revealed, edge));
    }
  }

  lemma TowersMultiplierNotNegative(level: Difficulty, climbed: int, edge: real)
    requires edge <= 1.0
    ensures TowersMultiplier(level, climbed, edge) >= 0
  {
    if climbed > 0 {
      var odds := Power(SurviveRate(level), climbed);
      QuotientGrows(1.0 - edge, odds, odds);
      Round2Monotone(0.0, FairTowers(level, climbed, edge));
    }
  }

  lemma PayoutNotNegative(stake: nat, multiplier: int)
    requires multiplier >= 0
    ensures PayoutCents(stake, multiplier) >= 0
  {
    MulMonotone(0, stake, multiplier);
  }

  lemma OneOpenAppended(bets: seq<Bet>, bet: Bet)
    requires OneOpen(bets)
    requires bet.status == Open ==> Count(bets, IsOpenOn(bet.user, bet.game)) == 0
    ensures OneOpen(bets + [bet])
  {
    if bet.status == Open {
      forall i: nat | i < |bets|
        ensures !IsOpenOn(bet.user, bet.game)(bets[i])
      {
        NoneCounted(bets, IsOpenOn(bet.user, bet.game), i);
      }
    }
  }

  lemma NoneCounted<T>(xs: seq<T>, p: T -> bool, i: nat)
    requires Count(xs, p) == 0 && i < |xs|
    ensures !p(xs[i])
  {
    assert xs == xs[..i] + xs[i..];
    CountConcat(xs[..i], xs[i..], p);
  }

  lemma OneOpenUpdated(bets: seq<Bet>, i: nat, bet: Bet)
    requires OneOpen(bets) && i < |bets| && bet.user == bets[i].user && bet.game == bets[i].game
    requires bets[i].status == Open
    ensures OneOpen(bets[i := bet])
  {
  }

  lemma NoncesAppended(bets: seq<Bet>, bet: Bet)
    requires Nonces(bets) && bet.nonce == Count(bets, IsBetOf(bet.user)) + 1
    ensures Nonces(bets + [bet])
  {
    var after := bets + [bet];
    forall i | 0 <= i < |after|
      ensures after[i].nonce == NonceAt(after, i)
    {
      assert after[..i] == bets[..i];
      assert bets[..|bets|] == bets;
      if i < |bets| {
        assert bets[i].nonce == NonceAt(bets, i);
      }
    }
  }

  /** A user's nonces rise from 1 to the number of the user's bets ... */
  lemma NoncesRise(bets: seq<Bet>, i: nat, j: nat)
    requires Nonces(bets) && i < j < |bets| && bets[i].user == bets[j].user
    ensures 1 <= bets[i].nonce < bets[j].nonce <= Count(bets, IsBetOf(bets[j].user))
  {
    var p := IsBetOf(bets[j].user);
    assert bets[i].nonce == NonceAt(bets, i) && bets[j].nonce == NonceAt(bets, j);
    CountFrom(bets, i, j, p);
    CountFrom(bets, j, |bets|, p);
    assert bets[..|bets|] == bets;
    hide Count;
  }

  lemma CountFrom<T>(xs: seq<T>, i: nat, j: nat, p: T -> bool)
    requires i < j <= |xs| && p(xs[i])
    ensures Count(xs[..j], p) >= Count(xs[..i], p) + 1
  {
    assert xs[..j] == xs[..i] + [xs[i]] + xs[i + 1..j];
    CountConcat(xs[..i] + [xs[i]], xs[i + 1..j], p);
    CountAppend(xs[..i], xs[i], p);
    hide Count;
  }

  /** ... and none is left out. */
  lemma {:induction false} NonceIsGiven(bets: seq<Bet>, user: UserId, n: nat, m: nat) returns (i: nat)
    requires Nonces(bets) && m <= |bets| && 1 <= n <= Count(bets[..m], IsBetOf(user))
    ensures i < m && bets[i].user == user && bets[i].nonce == n
    decreases m
  {
    if m == 0 {
      assert false;
    } else {
      assert bets[..m] == bets[..m - 1] + [bets[m - 1]];
      CountAppend(bets[..m - 1], bets[m - 1], IsBetOf(user));
      if n <= Count(bets[..m - 1], IsBetOf(user)) {
        i := NonceIsGiven(bets, user, n, m - 1);
      } else {
        i := m - 1;
        assert bets[i].nonce == NonceAt(bets, i);
      }
    }
  }

  lemma NoncesUpdated(bets: seq<Bet>, k: nat, bet: Bet)
    requires Nonces(bets) && k < |bets| && bet.user == bets[k].user && bet.nonce == bets[k].nonce
    ensures Nonces(bets[k := bet])
  {
    var after := bets[k := bet];
    forall i | 0 <= i < |after|
      ensures after[i].nonce == NonceAt(after, i)
    {
      assert bets[i].nonce == NonceAt(bets, i);
      if k < i {
        assert after[..i] == bets[..i][k := bet];
        CountUpdated(bets[..i], k, bet, bets[i].user);
      } else {
        assert after[..i] == bets[..i];
      }
    }
  }

  lemma {:induction false} CountUpdated(bets: seq<Bet>, k: nat, bet: Bet, user: UserId)
    requires k < |bets| && bet.user == bets[k].user
    ensures Count(bets[k := bet], IsBetOf(user)) == Count(bets, IsBetOf(user))
  {
    if k > 0 {
      assert bets[k := bet][1..] == bets[1..][k - 1 := bet];
      CountUpdated(bets[1..], k - 1, bet, user);
    } else {
      assert bets[k := bet][1..] == bets[1..];
    }
  }

  /** A new grid bet is a covered board. */
  lemma NewMinesBetOk(games: seq<Game>, b: Bet, mineCount: int, stream: Stream, forced: Forced)
    requires b.game < |games| && games[b.game].slug == MinesGame && b.board == MinesBoardFor(mineCount, stream)(forced)
    requires b.status == Open && b.multiplier == 0 && b.payout == 0
    ensures BetOk(games, b)
    ensures b.board.MinesBoard? && AsMines(b) == Start(MINES_TILE_COUNT, b.board.mines)
    ensures Within(b.board.mines, MINES_TILE_COUNT) && |b.board.mines| == Clamp(mineCount, 1, 24)
  {
    GridHasMineCount(mineCount, stream, forced);
    hide BuildMinesGrid;
    StartIsUnderway(MINES_TILE_COUNT, b.board.mines, games[b.game].edge);
  }

  lemma NewTowersBetOk(games: seq<Game>, b: Bet, level: Difficulty, stream: Stream, forced: Forced)
    requires b.game < |games| && games[b.game].slug == TowersGame && b.board == TowersBoardFor(level, stream)(forced)
    requires b.status == Open && b.multiplier == 0 && b.payout == 0
    ensures BetOk(games, b)
    ensures b.board.TowersBoard? && AsClimb(b) == StartClimb(level, b.board.grid)
  {
    hide Floor;
    StartIsClimbing(level, b.board.grid, games[b.game].edge);
  }

  /** The bet after a pick that hit a trap. */
  function LostBet(b: Bet, tile: nat): Bet {
    b.(status := Lost, multiplier := 0, payout := 0, board := WithPick(b.board, tile))
  }

  function PickedBet(b: Bet, tile: nat, multiplier: int): Bet {
    b.(multiplier := multiplier, board := WithPick(b.board, tile))
  }

  function PaidBet(b: Bet): Bet {
    b.(status := CashedOut, payout := PayoutCents(b.stake, b.multiplier))
  }

  /** The bet after an accepted Mines reveal. */
  function RevealedMinesBet(b: Bet, tile: nat, edge: real): Bet
    requires b.board.MinesBoard?
  {
    if tile in b.board.mines then LostBet(b, tile)
    else
      var picks := |b.board.revealed| + 1;
      var picked := PickedBet(b, tile, MinesMultiplier(MINES_TILE_COUNT, |b.board.mines|, picks, edge));
      if picks >= MINES_TILE_COUNT - |b.board.mines| then PaidBet(picked) else picked
  }

  function ClimbedBet(b: Bet, tile: nat, edge: real): Bet
    requires b.board.TowersBoard?
  {
    var row := |b.board.picks|;
    if row < |b.board.grid| && tile in b.board.grid[row] then LostBet(b, tile)
    else
      var picked := PickedBet(b, tile, TowersMultiplier(b.board.level, row + 1, edge));
      if row + 1 >= TowersConfig(b.board.level).rows then PaidBet(picked) else picked
  }

  /** On the round a bet stands for, an accepted reveal is a step of the replay. */
  lemma RevealIsStep(b: Bet, tile: nat, edge: real)
    requires b.board.MinesBoard? && b.status == Open && tile < MINES_TILE_COUNT && tile !in b.board.revealed
    ensures RevealedMinesBet(b, tile, edge).board.MinesBoard?
    ensures AsMines(RevealedMinesBet(b, tile, edge)) == Step(AsMines(b), Reveal(tile), b.stake, edge)
  {
  }

  lemma ClimbIsStep(b: Bet, tile: nat, edge: real)
    requires b.board.TowersBoard? && b.status == Open && tile < TowersConfig(b.board.level).tiles
    requires |b.board.picks| < |b.board.grid| == TowersConfig(b.board.level).rows
    ensures ClimbedBet(b, tile, edge).board.TowersBoard?
    ensures AsClimb(ClimbedBet(b, tile, edge)) == ClimbStep(AsClimb(b), Reveal(tile), b.stake, edge)
  {
  }

  /** ... and a cash-out is the replay's. */
  lemma PaidIsStep(b: Bet, edge: real)
    requires b.status == Open && PicksOn(b.board) != []
    ensures b.board.MinesBoard? ==> AsMines(PaidBet(b)) == Step(AsMines(b), CashOut, b.stake, edge)
    ensures b.board.TowersBoard? ==> AsClimb(PaidBet(b)) == ClimbStep(AsClimb(b), CashOut, b.stake, edge)
  {
  }

  lemma RevealedBetOk(games: seq<Game>, b: Bet, tile: nat)
    requires BetOk(games, b) && FairGames(games) && b.board.MinesBoard? && b.status == Open
    requires tile < MINES_TILE_COUNT && tile !in b.board.revealed
    ensures BetOk(games, RevealedMinesBet(b, tile, games[b.game].edge))
  {
    var edge := games[b.game].edge;
    RevealIsStep(b, tile, edge);
    StepIsLegal(AsMines(b), Reveal(tile), b.stake, edge);
    MultiplierNotNegative(MINES_TILE_COUNT, |b.board.mines|, |b.board.revealed| + 1, edge);
    PayoutNotNegative(b.stake, MinesMultiplier(MINES_TILE_COUNT, |b.board.mines|, |b.board.revealed| + 1, edge));
    hide Legal;
    hide Step;
    hide MinesMultiplier;
    hide PayoutCents;
  }

  lemma ClimbedBetOk(games: seq<Game>, b: Bet, tile: nat)
    requires BetOk(games, b) && FairGames(games) && b.board.TowersBoard? && b.status == Open
    requires tile < TowersConfig(b.board.level).tiles && |b.board.picks| < |b.board.grid|
    ensures BetOk(games, ClimbedBet(b, tile, games[b.game].edge))
  {
    var edge := games[b.game].edge;
    ClimbIsStep(b, tile, edge);
    ClimbStepIsLegal(AsClimb(b), Reveal(tile), b.stake, edge);
    TowersMultiplierNotNegative(b.board.level, |b.board.picks| + 1, edge);
    PayoutNotNegative(b.stake, TowersMultiplier(b.board.level, |b.board.picks| + 1, edge));
    hide LegalClimb;
    hide ClimbStep;
    hide TowersMultiplier;
    hide PayoutCents;
  }

  lemma PaidBetOk(games: seq<Game>, b: Bet)
    requires BetOk(games, b) && b.status == Open && PicksOn(b.board) != []
    ensures BetOk(games, PaidBet(b))
  {
    var edge := games[b.game].edge;
    PaidIsStep(b, edge);
    PayoutNotNegative(b.stake, b.multiplier);
    if b.board.MinesBoard? {
      StepIsLegal(AsMines(b), CashOut, b.stake, edge);
    } else if b.board.TowersBoard? {
      ClimbStepIsLegal(AsClimb(b), CashOut, b.stake, edge);
    }
    hide Legal;
    hide LegalClimb;
    hide Step;
    hide ClimbStep;
    hide PayoutCents;
  }
}
