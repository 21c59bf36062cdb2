/** From the draws of a round to the money: what following a plan through the service is worth on average. */
module ServiceEdge {
  import opened Accounts
  import opened Arithmetic
  import opened Boards
  import opened Mines
  import opened MinesGrid
  import opened MinesRound
  import opened Play
  import opened PlayChecks
  import opened PlayPlans
  import opened PlayReplay
  import opened PlayRounds
  import opened PlayRuns
  import opened Rng
  import opened Shuffle
  import opened Streams
  import opened Sums
  import opened UniformDraws

  /** The request that starts the round, but for its draws. */
  datatype Opening = Opening(user: UserId, session: nat, stake: real, mineCount: int, control: Draw)

  function Opened(db: Db, o: Opening, stream: Stream): (Db, Reply<nat>) {
    StartMines(db, o.user, o.session, o.stake, o.mineCount, stream, o.control)
  }

  /** The edge of the game whose session the request names. */
  function OpeningEdge(db: Db, o: Opening): real {
    var game := RequireOpenSession(db, o.user, o.session, MinesGame);
    if game.Ok? then db.games[game.value].edge else 0.0
  }

  /** The unrounded payout of a plan that is followed on a round laid by this stream. */
  function PlayedWorth(db: Db, o: Opening, plan: Plan, stream: Stream): real {
    var (first, reply) := Opened(db, o, stream);
    if reply.Err? then 0.0
    else
      var last := Served(first, o.user, o.session, reply.value, plan, MINES_TILE_COUNT);
      if reply.value < |last.bets| && last.bets[reply.value].board.MinesBoard? then
        UnroundedPayout(AsMines(last.bets[reply.value]), Cents(o), OpeningEdge(db, o))
      else 0.0
  }

  function Cents(o: Opening): nat {
    if Hundredths(o.stake) > 0 then Hundredths(o.stake) else 0
  }

  function ServiceWorth(db: Db, o: Opening, plan: Plan): seq<nat> -> real {
    js => PlayedWorth(db, o, plan, StreamFor(js, 0))
  }

  /** Whether a round can be started does not depend on its draws. */
  lemma OpenedForEveryStream(db: Db, o: Opening, s: Stream, t: Stream)
    ensures Opened(db, o, s).1.Ok? <==> Opened(db, o, t).1.Ok?
  {
    RoundStartedExactly(db, o.user, o.session, MinesGame, o.stake, 1 <= o.mineCount <= 24, MinesBoardFor(o.mineCount, s), o.control);
    RoundStartedExactly(db, o.user, o.session, MinesGame, o.stake, 1 <= o.mineCount <= 24, MinesBoardFor(o.mineCount, t), o.control);
    hide StartRound;
    hide CanPlay;
    hide CanStake;
    hide MinesBoardFor;
  }

  /** The grid laid by a stream made for an index list is that list's placement, unless a loss is forced. */
  lemma GridForIndices(mineCount: int, js: seq<nat>, forced: Forced)
    requires 1 <= mineCount <= 24 && js in AllIndices(MINES_TILE_COUNT) && forced != Decided(false)
    ensures BuildMinesGrid(mineCount, StreamFor(js, 0), forced) == Placement(MINES_TILE_COUNT, mineCount)(js)
  {
    hide *;
    ValidCount(mineCount);
    AllIndicesIsComplete(MINES_TILE_COUNT, js);
    StreamDrawsIndices(js, 0);
    HonestGridIsPlacement(mineCount, StreamFor(js, 0), forced);
  }

  lemma ValidCount(mineCount: int)
    requires 1 <= mineCount <= 24
    ensures Clamp(mineCount, 1, MINES_TILE_COUNT - 1) == mineCount < MINES_TILE_COUNT <= DRAWS
  {
  }

  lemma OpenedTerms(db: Db, o: Opening, stream: Stream)
    requires Opened(db, o, stream).1.Ok?
    ensures var (first, reply) := Opened(db, o, stream);
            1 <= o.mineCount <= 24 && reply.value < |first.bets| && first.bets[reply.value].stake == Cents(o)
    ensures RequireOpenSession(db, o.user, o.session, MinesGame).Ok?
  {
    StartedBet(db, o.user, o.session, MinesGame, o.stake, 1 <= o.mineCount <= 24, MinesBoardFor(o.mineCount, stream), o.control);
    hide StartRound;
    hide RequireOpenSession;
    hide Decision;
    hide MinesBoardFor;
    hide Hundredths;
  }

  /** How the round is decided before its mines are laid. */
  function OpeningDecision(db: Db, o: Opening): Forced {
    var game := RequireOpenSession(db, o.user, o.session, MinesGame);
    if game.Ok? then Decision(db, o.user, game.value, o.control) else Honest
  }

  /** What the round that a stream lays is worth to a plan. */
  lemma PlayedWorthIs(db: Db, o: Opening, plan: Plan, stream: Stream)
    requires Inv(db) && Opened(db, o, stream).1.Ok?
    ensures PlayedWorth(db, o, plan, stream)
         == Worth(MINES_TILE_COUNT, plan, Cents(o), OpeningEdge(db, o))(BuildMinesGrid(o.mineCount, stream, OpeningDecision(db, o)))
  {
    OpenedTerms(db, o, stream);
    hide Inv;
    hide StartMines;
    hide Served;
    hide UnroundedPayout;
    hide Decision;
    hide BuildMinesGrid;
    hide Worth;
    hide RequireOpenSession;
    hide AsMines;
    hide Cents;
    PlanThroughService(db, o.user, o.session, o.stake, o.mineCount, stream, o.control, plan);
  }

  /** The plan's worth on the placement that an index list lays out. */
  function ShuffleWorth(o: Opening, plan: Plan, edge: real): seq<nat> -> real {
    if 1 <= o.mineCount <= MINES_TILE_COUNT
    then Over(Placement(MINES_TILE_COUNT, o.mineCount), Worth(MINES_TILE_COUNT, plan, Cents(o), edge))
    else _ => 0.0
  }

  lemma ServiceWorthIs(db: Db, o: Opening, plan: Plan, js: seq<nat>)
    requires Inv(db) && Opened(db, o, StreamFor(js, 0)).1.Ok? && js in AllIndices(MINES_TILE_COUNT)
    requires OpeningDecision(db, o) != Decided(false)
    ensures ServiceWorth(db, o, plan)(js) == ShuffleWorth(o, plan, OpeningEdge(db, o))(js)
  {
    hide *;
    OpenedTerms(db, o, StreamFor(js, 0));
    PlayedWorthIs(db, o, plan, StreamFor(js, 0));
    GridForIndices(o.mineCount, js, OpeningDecision(db, o));
    ValidCount(o.mineCount);
    Applied(db, o, plan, js);
  }

  lemma Applied(db: Db, o: Opening, plan: Plan, js: seq<nat>)
    requires 1 <= o.mineCount <= MINES_TILE_COUNT
    ensures ServiceWorth(db, o, plan)(js) == PlayedWorth(db, o, plan, StreamFor(js, 0))
    ensures ShuffleWorth(o, plan, OpeningEdge(db, o))(js)
         == Worth(MINES_TILE_COUNT, plan, Cents(o), OpeningEdge(db, o))(Placement(MINES_TILE_COUNT, o.mineCount)(js))
  {
    hide PlayedWorth;
    hide Worth;
    hide Placement;
    hide StreamFor;
    hide OpeningEdge;
    hide Cents;
  }

  /** Whether the plan cashes out after at least one pick on a board with this many mines. */
  predicate Finishes(plan: Plan, mineCount: int) {
    1 <= mineCount < MINES_TILE_COUNT && Picks(plan, MINES_TILE_COUNT, mineCount, []).Some?
  }

  lemma ShuffleTotal(o: Opening, plan: Plan, edge: real)
    requires Finishes(plan, o.mineCount)
    ensures Total(AllIndices(MINES_TILE_COUNT), ShuffleWorth(o, plan, edge))
         == (1.0 - edge) * Cents(o) as real * |AllIndices(MINES_TILE_COUNT)| as real
  {
    hide *;
    FinishesIs(plan, o.mineCount);
    ShuffleWorthIs(o, plan, edge);
    NoPlanBeatsTheShuffle(MINES_TILE_COUNT, o.mineCount, plan, Cents(o), edge);
  }

  lemma FinishesIs(plan: Plan, mineCount: int)
    requires Finishes(plan, mineCount)
    ensures 1 <= mineCount < MINES_TILE_COUNT && Picks(plan, MINES_TILE_COUNT, mineCount, []).Some?
  {
    hide Picks;
  }

  lemma ShuffleWorthIs(o: Opening, plan: Plan, edge: real)
    requires 1 <= o.mineCount <= MINES_TILE_COUNT
    ensures ShuffleWorth(o, plan, edge) == Over(Placement(MINES_TILE_COUNT, o.mineCount), Worth(MINES_TILE_COUNT, plan, Cents(o), edge))
  {
    hide Worth;
    hide Placement;
    hide Over;
    hide Cents;
  }

  /**
   * End to end: whatever the tables, the stake, the mine count and the plan, the rounds that a request starts and a plan
   * plays through the service, one for each way the shuffle can be drawn, return (1 - edge) of the stake on average,
   * unless a loss is forced. A forced win changes nothing.
   */
  lemma NoPlanBeatsTheService(db: Db, o: Opening, plan: Plan, stream: Stream)
    requires Inv(db) && Opened(db, o, stream).1.Ok? && OpeningDecision(db, o) != Decided(false) && Finishes(plan, o.mineCount)
    ensures Total(AllIndices(MINES_TILE_COUNT), ServiceWorth(db, o, plan))
         == (1.0 - OpeningEdge(db, o)) * Cents(o) as real * |AllIndices(MINES_TILE_COUNT)| as real
  {
    hide *;
    forall js <- AllIndices(MINES_TILE_COUNT)
      ensures ServiceWorth(db, o, plan)(js) == ShuffleWorth(o, plan, OpeningEdge(db, o))(js)
    {
      OpenedForEveryStream(db, o, stream, StreamFor(js, 0));
      ServiceWorthIs(db, o, plan, js);
    }
    TotalSame(AllIndices(MINES_TILE_COUNT), ServiceWorth(db, o, plan), ShuffleWorth(o, plan, OpeningEdge(db, o)));
    ShuffleTotal(o, plan, OpeningEdge(db, o));
  }

  /** What a round is worth hangs on its stream only through the indices it draws. */
  lemma WorthOfStream(db: Db, o: Opening, plan: Plan, stream: Stream)
    requires Inv(db) && Opened(db, o, stream).1.Ok? && OpeningDecision(db, o) != Decided(false)
    ensures PlayedWorth(db, o, plan, stream) == ServiceWorth(db, o, plan)(Indices(stream, 0, MINES_TILE_COUNT))
  {
    hide *;
    var js := Indices(stream, 0, MINES_TILE_COUNT);
    DrawnIsListed(stream);
    OpenedForEveryStream(db, o, stream, StreamFor(js, 0));
    OpenedTerms(db, o, stream);
    ValidCount(o.mineCount);
    PlayedWorthIs(db, o, plan, stream);
    PlayedWorthIs(db, o, plan, StreamFor(js, 0));
    HonestGridIsPlacement(o.mineCount, stream, OpeningDecision(db, o));
    GridForIndices(o.mineCount, js, OpeningDecision(db, o));
    Applied(db, o, plan, js);
  }

  lemma DrawnIsListed(stream: Stream)
    ensures Indices(stream, 0, MINES_TILE_COUNT) in AllIndices(MINES_TILE_COUNT)
  {
    AllIndicesIsComplete(MINES_TILE_COUNT, Indices(stream, 0, MINES_TILE_COUNT));
    hide AllIndices;
  }

  lemma ShuffleExpected(o: Opening, plan: Plan, edge: real)
    requires Finishes(plan, o.mineCount) && edge <= 1.0
    ensures NearlyEqual(Drift(MINES_TILE_COUNT), Expected(MINES_TILE_COUNT, ShuffleWorth(o, plan, edge)), Kept(Cents(o), edge))
  {
    assert MINES_TILE_COUNT == 25 < DRAWS;
    hide *;
    FinishesIs(plan, o.mineCount);
    ShuffleWorthIs(o, plan, edge);
    MinesDrift();
    NoPlanBeatsTheDraws(MINES_TILE_COUNT, o.mineCount, plan, Cents(o), edge);
  }

  /** The same with uniform draws: the expected unrounded return of a plan through the service is nearly (1 - edge) of the stake. */
  lemma NoPlanBeatsTheServiceDraws(db: Db, o: Opening, plan: Plan, stream: Stream)
    requires Inv(db) && Opened(db, o, stream).1.Ok? && OpeningDecision(db, o) != Decided(false) && Finishes(plan, o.mineCount)
    requires OpeningEdge(db, o) <= 1.0
    ensures NearlyEqual(Drift(MINES_TILE_COUNT), Expected(MINES_TILE_COUNT, ServiceWorth(db, o, plan)), Kept(Cents(o), OpeningEdge(db, o)))
  {
    hide *;
    forall js <- AllIndices(MINES_TILE_COUNT)
      ensures ServiceWorth(db, o, plan)(js) == ShuffleWorth(o, plan, OpeningEdge(db, o))(js)
    {
      OpenedForEveryStream(db, o, stream, StreamFor(js, 0));
      ServiceWorthIs(db, o, plan, js);
    }
    ExpectedSame(MINES_TILE_COUNT, ServiceWorth(db, o, plan), ShuffleWorth(o, plan, OpeningEdge(db, o)));
    ShuffleExpected(o, plan, OpeningEdge(db, o));
  }
}
