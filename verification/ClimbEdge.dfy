/** The same for Towers, from the draws of every floor to the money: what following a plan through the service is worth. */
module ClimbEdge {
  import opened Accounts
  import opened Arithmetic
  import opened Boards
  import opened ClimbPlans
  import opened Cursors
  import opened MinesRound
  import opened Play
  import opened PlayChecks
  import opened PlayReplay
  import opened PlayRounds
  import opened PlayRuns
  import opened Rng
  import opened Shuffle
  import opened Streams
  import opened Sums
  import opened Towers
  import opened TowersDraws
  import opened TowersRound

  /** What the draws of a floor come to: a number of traps and the index list of its shuffle. */
  datatype Choice = Choice(traps: nat, js: seq<nat>)

  predicate IsShare(difficulty: Difficulty, traps: nat) {
    exists s <- TrapShares(difficulty) :: s.traps == traps
  }

  predicate ValidChoice(difficulty: Difficulty, c: Choice) {
    IsShare(difficulty, c.traps) && c.js in AllIndices(TowersConfig(difficulty).tiles)
  }

  predicate ValidChoices(difficulty: Difficulty, cs: seq<Choice>) {
    forall c <- cs :: ValidChoice(difficulty, c)
  }

  function FloorOf(tiles: nat, c: Choice): set<nat> {
    if c.traps <= tiles then Placement(tiles, c.traps)(c.js) else {}
  }

  function GridOf(tiles: nat, cs: seq<Choice>): seq<set<nat>> {
    seq(|cs|, row requires 0 <= row < |cs| => FloorOf(tiles, cs[row]))
  }

  function With(traps: nat, f: Choice -> real): seq<nat> -> real {
    js => f(Choice(traps, js))
  }

  function RolledShares(tiles: nat, shares: seq<TrapShare>, f: Choice -> real): real {
    if shares == [] then 0.0
    else
      AllIndicesAreDistinct(tiles);
      shares[0].share * (Total(AllIndices(tiles), With(shares[0].traps, f)) / |AllIndices(tiles)| as real) + RolledShares(tiles, shares[1..], f)
  }

  function Rolled(difficulty: Difficulty, f: Choice -> real): real {
    RolledShares(TowersConfig(difficulty).tiles, TrapShares(difficulty), f)
  }

  /** The expected value of f when each floor's number of traps has its share and its index lists are equally likely. */
  function RolledGrid(difficulty: Difficulty, rows: nat, f: seq<Choice> -> real): real
    decreases rows, 1
  {
    if rows == 0 then f([]) else Rolled(difficulty, RolledThen(difficulty, rows, f))
  }

  function RolledThen(difficulty: Difficulty, rows: nat, f: seq<Choice> -> real): Choice -> real
    requires rows > 0
    decreases rows, 0
  {
    c => RolledGrid(difficulty, rows - 1, After(c, f))
  }

  function After(c: Choice, f: seq<Choice> -> real): seq<Choice> -> real {
    cs => f([c] + cs)
  }

  lemma {:induction false} RolledSharesAreDrawn(tiles: nat, shares: seq<TrapShare>, f: Choice -> real, g: set<nat> -> real)
    requires forall s <- shares :: s.traps <= tiles
    requires forall s <- shares, js <- AllIndices(tiles) :: f(Choice(s.traps, js)) == g(FloorOf(tiles, Choice(s.traps, js)))
    ensures RolledShares(tiles, shares, f) == DrawnShares(tiles, shares, g)
  {
    hide *;
    RolledSharesUnfold(tiles, shares, f, g);
    if shares != [] {
      RolledSharesAreDrawn(tiles, shares[1..], f, g);
      SameAverage(tiles, shares[0].traps, f, g);
    }
  }

  lemma RolledSharesUnfold(tiles: nat, shares: seq<TrapShare>, f: Choice -> real, g: set<nat> -> real)
    requires forall s <- shares :: s.traps <= tiles
    ensures |AllIndices(tiles)| > 0
    ensures shares == [] ==> RolledShares(tiles, shares, f) == DrawnShares(tiles, shares, g)
    ensures shares != [] ==>
              && RolledShares(tiles, shares, f)
                 == shares[0].share * (Total(AllIndices(tiles), With(shares[0].traps, f)) / |AllIndices(tiles)| as real)
                    + RolledShares(tiles, shares[1..], f)
              && DrawnShares(tiles, shares, g)
                 == shares[0].share * (Total(AllIndices(tiles), Over(Placement(tiles, shares[0].traps), g)) / |AllIndices(tiles)| as real)
                    + DrawnShares(tiles, shares[1..], g)
  {
    AllIndicesAreDistinct(tiles);
    hide AllIndices;
    hide Total;
    hide Placement;
  }

  lemma SameAverage(tiles: nat, traps: nat, f: Choice -> real, g: set<nat> -> real)
    requires traps <= tiles && forall js <- AllIndices(tiles) :: f(Choice(traps, js)) == g(FloorOf(tiles, Choice(traps, js)))
    ensures Total(AllIndices(tiles), With(traps, f)) == Total(AllIndices(tiles), Over(Placement(tiles, traps), g))
  {
    hide AllIndices;
    hide Placement;
    hide Total;
    forall js <- AllIndices(tiles)
      ensures With(traps, f)(js) == Over(Placement(tiles, traps), g)(js)
    {
      assert f(Choice(traps, js)) == g(FloorOf(tiles, Choice(traps, js)));
    }
    TotalSame(AllIndices(tiles), With(traps, f), Over(Placement(tiles, traps), g));
  }

  lemma RolledIsDrawn(difficulty: Difficulty, f: Choice -> real, g: set<nat> -> real)
    requires forall c :: ValidChoice(difficulty, c) ==> f(c) == g(FloorOf(TowersConfig(difficulty).tiles, c))
    ensures Rolled(difficulty, f) == DrawnFloor(difficulty, g)
  {
    var tiles, shares := TowersConfig(difficulty).tiles, TrapShares(difficulty);
    DrawnFloorIs(difficulty, g);
    forall s <- shares, js <- AllIndices(tiles)
      ensures f(Choice(s.traps, js)) == g(FloorOf(tiles, Choice(s.traps, js)))
    {
      assert ValidChoice(difficulty, Choice(s.traps, js));
    }
    hide TrapShares;
    hide TowersConfig;
    hide FloorOf;
    hide AllIndices;
    RolledSharesAreDrawn(tiles, shares, f, g);
  }

  lemma RolledUnfold(difficulty: Difficulty, rows: nat, f: seq<Choice> -> real)
    ensures rows == 0 ==> RolledGrid(difficulty, rows, f) == f([])
    ensures rows > 0 ==> RolledGrid(difficulty, rows, f) == Rolled(difficulty, RolledThen(difficulty, rows, f))
    ensures rows > 0 ==> forall c :: RolledThen(difficulty, rows, f)(c) == RolledGrid(difficulty, rows - 1, After(c, f))
  {
    hide Rolled;
    hide After;
  }

  lemma GridOfNone(tiles: nat)
    ensures GridOf(tiles, []) == []
  {
  }

  lemma OneMoreChoice(difficulty: Difficulty, c: Choice, cs: seq<Choice>)
    requires ValidChoice(difficulty, c) && ValidChoices(difficulty, cs)
    ensures ValidChoices(difficulty, [c] + cs)
  {
    hide ValidChoice;
  }

  lemma OneMoreFloor(tiles: nat, c: Choice, cs: seq<Choice>)
    ensures GridOf(tiles, [c] + cs) == [FloorOf(tiles, c)] + GridOf(tiles, cs)
  {
    hide FloorOf;
  }

  lemma AfterAbove(tiles: nat, c: Choice, cs: seq<Choice>, f: seq<Choice> -> real, g: seq<set<nat>> -> real)
    requires f([c] + cs) == g(GridOf(tiles, [c] + cs))
    ensures After(c, f)(cs) == Above(FloorOf(tiles, c), g)(GridOf(tiles, cs))
  {
    OneMoreFloor(tiles, c, cs);
    AboveUnfold(FloorOf(tiles, c), g, GridOf(tiles, cs));
    hide FloorOf;
    hide GridOf;
    hide Above;
  }

  /** If f is g of the grid that the choices lay, their averages agree. */
  lemma {:induction false} RolledGridIsDrawn(difficulty: Difficulty, rows: nat, f: seq<Choice> -> real, g: seq<set<nat>> -> real)
    requires forall cs | |cs| == rows && ValidChoices(difficulty, cs) :: f(cs) == g(GridOf(TowersConfig(difficulty).tiles, cs))
    ensures RolledGrid(difficulty, rows, f) == DrawnGrid(difficulty, rows, g)
    decreases rows
  {
    hide *;
    var tiles := TowersConfig(difficulty).tiles;
    RolledUnfold(difficulty, rows, f);
    DrawnUnfold(difficulty, rows, g);
    if rows == 0 {
      NoChoices(difficulty);
      GridOfNone(tiles);
    } else {
      forall c | ValidChoice(difficulty, c)
        ensures RolledThen(difficulty, rows, f)(c) == DrawnThen(difficulty, rows, g)(FloorOf(tiles, c))
      {
        forall cs: seq<Choice> | |cs| == rows - 1 && ValidChoices(difficulty, cs)
          ensures After(c, f)(cs) == Above(FloorOf(tiles, c), g)(GridOf(tiles, cs))
        {
          OneMoreChoice(difficulty, c, cs);
          AfterAbove(tiles, c, cs, f, g);
        }
        RolledGridIsDrawn(difficulty, rows - 1, After(c, f), Above(FloorOf(tiles, c), g));
      }
      RolledIsDrawn(difficulty, RolledThen(difficulty, rows, f), DrawnThen(difficulty, rows, g));
    }
  }

  lemma NoChoices(difficulty: Difficulty)
    ensures ValidChoices(difficulty, [])
  {
  }

  /** A roll that gives an Easy floor this many traps. */
  function RollFor(traps: nat): Draw {
    if traps == 1 then DRAWS - 1 else if traps == 2 then DRAWS / 4 else 0
  }

  lemma RollGives(traps: nat)
    requires 1 <= traps <= 3
    ensures EasyTrapsOnFloor(RollFor(traps)) == traps
  {
    assert DRAWS == 4503599627370496;
  }

  function ClimbDraw(cs: seq<Choice>, cursor: nat): Draw {
    var row := RowAt(cursor);
    if row >= |cs| then 0
    else if cursor == FloorCursor(row) then RollFor(cs[row].traps)
    else DrawFor(cs[row].js, FloorCursor(row), cursor)
  }

  /** A stream that makes these choices. */
  function ClimbStream(cs: seq<Choice>): Stream {
    (cursor: nat) => ClimbDraw(cs, cursor)
  }

  lemma ChoiceMeans(difficulty: Difficulty, c: Choice)
    requires ValidChoice(difficulty, c)
    ensures |c.js| == TowersConfig(difficulty).tiles <= 4 && IsIndices(c.js)
    ensures if difficulty == Easy then 1 <= c.traps <= 3 else c.traps == TowersConfig(difficulty).mines
    ensures c.traps < TowersConfig(difficulty).tiles
  {
    AllIndicesIsComplete(TowersConfig(difficulty).tiles, c.js);
    hide AllIndices;
  }

  lemma ClimbDrawAt(cs: seq<Choice>, row: nat, i: nat)
    requires row < |cs| && i < 4
    ensures ClimbStream(cs)(FloorCursor(row) + i)
         == if i == 0 then RollFor(cs[row].traps) else DrawFor(cs[row].js, FloorCursor(row), FloorCursor(row) + i)
  {
    RowOf(row, FloorCursor(row) + i);
    hide FloorCursor;
    hide RowAt;
    hide DrawFor;
    hide RollFor;
  }

  lemma ClimbIndexAt(cs: seq<Choice>, row: nat, n: nat, i: nat)
    requires row < |cs| && i < n == |cs[row].js| <= 4 && IsIndices(cs[row].js)
    ensures Drawn(ClimbStream(cs), FloorCursor(row), i) == cs[row].js[i]
  {
    ClimbDrawAt(cs, row, i);
    if i > 0 {
      DrawForGives(cs[row].js, FloorCursor(row), i);
    }
    hide ClimbStream;
    hide FloorCursor;
    hide Scale;
    hide RollFor;
  }

  /** The last index drawn is always 0, so the roll for the number of traps can share its cursor. */
  lemma ClimbIndices(difficulty: Difficulty, cs: seq<Choice>, row: nat)
    requires row < |cs| && ValidChoice(difficulty, cs[row])
    ensures Indices(ClimbStream(cs), FloorCursor(row), TowersConfig(difficulty).tiles) == cs[row].js
  {
    hide *;
    var js, tiles := cs[row].js, TowersConfig(difficulty).tiles;
    ChoiceMeans(difficulty, cs[row]);
    forall i | 0 <= i < tiles
      ensures Indices(ClimbStream(cs), FloorCursor(row), tiles)[i] == js[i]
    {
      IndexIsDrawn(ClimbStream(cs), FloorCursor(row), tiles, i);
      ClimbIndexAt(cs, row, tiles, i);
    }
  }

  lemma DrawForGives(js: seq<nat>, offset: nat, i: nat)
    requires i < |js| <= 4 && js[i] <= i
    ensures Scale(DrawFor(js, offset, offset + i), i + 1, DRAWS) == js[i]
  {
    LeastDraw(js[i], i + 1);
    hide Scale;
    hide Boundary;
  }

  lemma FloorIs(difficulty: Difficulty, stream: Stream, row: nat, c: Choice)
    requires Indices(stream, FloorCursor(row), TowersConfig(difficulty).tiles) == c.js && TrapCount(difficulty, stream, row) == c.traps
    ensures Floor(difficulty, stream, row) == FloorOf(TowersConfig(difficulty).tiles, c)
  {
    hide Indices;
    hide EasyTrapsOnFloor;
    hide Shuffled;
  }

  lemma TrapCountIs(difficulty: Difficulty, stream: Stream, row: nat)
    ensures TrapCount(difficulty, stream, row)
         == if difficulty == Easy then EasyTrapsOnFloor(stream(FloorCursor(row) + 0)) else TowersConfig(difficulty).mines
  {
    hide EasyTrapsOnFloor;
  }

  lemma ClimbTraps(difficulty: Difficulty, cs: seq<Choice>, row: nat)
    requires row < |cs| && ValidChoice(difficulty, cs[row])
    ensures TrapCount(difficulty, ClimbStream(cs), row) == cs[row].traps
  {
    hide *;
    ChoiceMeans(difficulty, cs[row]);
    ClimbDrawAt(cs, row, 0);
    TrapCountIs(difficulty, ClimbStream(cs), row);
    if difficulty == Easy {
      RollGives(cs[row].traps);
    }
  }

  lemma ClimbFloor(difficulty: Difficulty, cs: seq<Choice>, row: nat)
    requires row < |cs| && ValidChoice(difficulty, cs[row])
    ensures Floor(difficulty, ClimbStream(cs), row) == FloorOf(TowersConfig(difficulty).tiles, cs[row])
  {
    hide *;
    ClimbIndices(difficulty, cs, row);
    ClimbTraps(difficulty, cs, row);
    FloorIs(difficulty, ClimbStream(cs), row, cs[row]);
  }

  /** The grid that the stream lays is the one the choices describe. */
  lemma ClimbGrid(difficulty: Difficulty, cs: seq<Choice>)
    requires ValidChoices(difficulty, cs)
    ensures BuildTowersGrid(difficulty, ClimbStream(cs), |cs|) == GridOf(TowersConfig(difficulty).tiles, cs)
  {
    forall row | 0 <= row < |cs|
      ensures Floor(difficulty, ClimbStream(cs), row) == FloorOf(TowersConfig(difficulty).tiles, cs[row])
    {
      assert cs[row] in cs;
      ClimbFloor(difficulty, cs, row);
    }
    hide Floor;
    hide FloorOf;
    hide ClimbStream;
  }

  /** The request that starts the round, but for its draws. */
  datatype Opening = Opening(user: UserId, session: nat, stake: real, level: Difficulty, control: Draw)

  function Opened(db: Db, o: Opening, stream: Stream): (Db, Reply<nat>) {
    StartTowers(db, o.user, o.session, o.stake, o.level, stream, o.control)
  }

  function OpeningEdge(db: Db, o: Opening): real {
    var game := RequireOpenSession(db, o.user, o.session, TowersGame);
    if game.Ok? then db.games[game.value].edge else 0.0
  }

  function Cents(o: Opening): nat {
    if Hundredths(o.stake) > 0 then Hundredths(o.stake) else 0
  }

  /** The unrounded payout of a plan that is followed on a round laid by this stream. */
  function PlayedWorth(db: Db, o: Opening, plan: Plan, stream: Stream): real {
    var (first, reply) := Opened(db, o, stream);
    if reply.Err? then 0.0
    else
      var last := Served(first, o.user, o.session, reply.value, plan, TowersConfig(o.level).rows);
      if reply.value < |last.bets| && last.bets[reply.value].board.TowersBoard? then
        UnroundedClimb(AsClimb(last.bets[reply.value]), Cents(o), OpeningEdge(db, o))
      else 0.0
  }

  function ServiceWorth(db: Db, o: Opening, plan: Plan): seq<Choice> -> real {
    cs => PlayedWorth(db, o, plan, ClimbStream(cs))
  }

  lemma OpenedForEveryStream(db: Db, o: Opening, s: Stream, t: Stream)
    ensures Opened(db, o, s).1.Ok? <==> Opened(db, o, t).1.Ok?
  {
    RoundStartedExactly(db, o.user, o.session, TowersGame, o.stake, true, TowersBoardFor(o.level, s), o.control);
    RoundStartedExactly(db, o.user, o.session, TowersGame, o.stake, true, TowersBoardFor(o.level, t), o.control);
    hide StartRound;
    hide CanPlay;
    hide CanStake;
    hide TowersBoardFor;
  }

  lemma OpenedTerms(db: Db, o: Opening, stream: Stream)
    requires Opened(db, o, stream).1.Ok?
    ensures var (first, reply) := Opened(db, o, stream);
            reply.value < |first.bets| && first.bets[reply.value].stake == Cents(o)
    ensures RequireOpenSession(db, o.user, o.session, TowersGame).Ok?
  {
    StartedBet(db, o.user, o.session, TowersGame, o.stake, true, TowersBoardFor(o.level, stream), o.control);
    hide StartRound;
    hide RequireOpenSession;
    hide Decision;
    hide TowersBoardFor;
    hide Hundredths;
  }

  /** What the round that a stream lays is worth to a plan. */
  lemma PlayedWorthIs(db: Db, o: Opening, plan: Plan, stream: Stream)
    requires Inv(db) && Opened(db, o, stream).1.Ok?
    ensures PlayedWorth(db, o, plan, stream)
         == ClimbWorth(o.level, plan, Cents(o), OpeningEdge(db, o))(BuildTowersGrid(o.level, stream, TowersConfig(o.level).rows))
  {
    OpenedTerms(db, o, stream);
    hide Inv;
    hide StartTowers;
    hide Served;
    hide UnroundedClimb;
    hide BuildTowersGrid;
    hide ClimbWorth;
    hide RequireOpenSession;
    hide AsClimb;
    hide Cents;
    hide TowersConfig;
    PlanThroughService(db, o.user, o.session, o.stake, o.level, stream, o.control, plan);
  }

  lemma ServiceWorthIs(db: Db, o: Opening, plan: Plan, cs: seq<Choice>)
    requires Inv(db) && Opened(db, o, ClimbStream(cs)).1.Ok? && |cs| == TowersConfig(o.level).rows && ValidChoices(o.level, cs)
    ensures ServiceWorth(db, o, plan)(cs)
         == ClimbWorth(o.level, plan, Cents(o), OpeningEdge(db, o))(GridOf(TowersConfig(o.level).tiles, cs))
  {
    Applied(db, o, plan, cs);
    PlayedWorthIs(db, o, plan, ClimbStream(cs));
    hide *;
    ClimbGrid(o.level, cs);
  }

  lemma Applied(db: Db, o: Opening, plan: Plan, cs: seq<Choice>)
    ensures ServiceWorth(db, o, plan)(cs) == PlayedWorth(db, o, plan, ClimbStream(cs))
  {
    hide PlayedWorth;
    hide ClimbStream;
  }

  /** Whether the plan cashes out after at least one floor. */
  predicate Finishes(plan: Plan, level: Difficulty) {
    TowersConfig(level).rows > 0 && ClimbPicks(plan, TowersConfig(level).tiles, TowersConfig(level).rows, []).Some?
  }

  /**
   * End to end: whatever the tables, the stake, the difficulty, the plan and the decision, the climbs that a request starts and a
   * plan makes through the service, averaged over the draws of every floor, return (1 - edge) of the stake.
   */
  lemma NoClimbBeatsTheService(db: Db, o: Opening, plan: Plan, stream: Stream)
    requires Inv(db) && Opened(db, o, stream).1.Ok? && Finishes(plan, o.level)
    ensures RolledGrid(o.level, TowersConfig(o.level).rows, ServiceWorth(db, o, plan)) == (1.0 - OpeningEdge(db, o)) * Cents(o) as real
  {
    hide *;
    FinishesMeans(plan, o.level);
    ServiceAverages(db, o, plan, stream);
    NoClimbBeatsTheShuffle(o.level, TowersConfig(o.level).rows, plan, Cents(o), OpeningEdge(db, o));
  }

  lemma ServiceAverages(db: Db, o: Opening, plan: Plan, stream: Stream)
    requires Inv(db) && Opened(db, o, stream).1.Ok?
    ensures RolledGrid(o.level, TowersConfig(o.level).rows, ServiceWorth(db, o, plan))
         == DrawnGrid(o.level, TowersConfig(o.level).rows, ClimbWorth(o.level, plan, Cents(o), OpeningEdge(db, o)))
  {
    hide *;
    var rows, worth := TowersConfig(o.level).rows, ClimbWorth(o.level, plan, Cents(o), OpeningEdge(db, o));
    forall cs: seq<Choice> | |cs| == rows && ValidChoices(o.level, cs)
      ensures ServiceWorth(db, o, plan)(cs) == worth(GridOf(TowersConfig(o.level).tiles, cs))
    {
      OpenedForEveryStream(db, o, stream, ClimbStream(cs));
      ServiceWorthIs(db, o, plan, cs);
    }
    RolledGridIsDrawn(o.level, rows, ServiceWorth(db, o, plan), worth);
  }

  lemma FinishesMeans(plan: Plan, level: Difficulty)
    requires Finishes(plan, level)
    ensures TowersConfig(level).rows > 0 && ClimbPicks(plan, TowersConfig(level).tiles, TowersConfig(level).rows, []).Some?
  {
    hide ClimbPicks;
  }
}
