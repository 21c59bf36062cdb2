/** Which requests open and end sessions, and why a player has at most one open session of a game. */
module PlaySessions {
  import opened Accounts
  import opened Play
  import opened PlayEnds
  import opened PlaySafety

  /** A game that is active, not under maintenance and not hidden from the player. */
  predicate Playable(db: Db, user: UserId, game: nat) {
    game < |db.games| && db.games[game].isActive && !db.games[game].underMaintenance && (user, game) !in db.excluded
  }

  /** Whether a request opens a session. */
  predicate Opens(db: Db, req: Request) {
    req.StartSessionReq? && Playable(db, req.user, req.game)
  }

  /** Whether it ends this one: by closing it, or by opening the same game for the same player again. */
  predicate Ends(db: Db, req: Request, s: nat)
    requires s < |db.sessions|
  {
    || (req.EndSessionReq? && req.session == s && req.user == db.sessions[s].user)
    || (Opens(db, req) && req.user == db.sessions[s].user && req.game == db.sessions[s].game)
  }

  lemma SessionsElsewhere(db: Db, req: Request)
    requires !req.StartSessionReq? && !req.EndSessionReq?
    ensures SessionsKept(db.sessions, Handle(db, req).sessions)
  {
    hide PlaceBet;
    hide StartRound;
    hide RevealMines;
    hide RevealTowers;
    hide CashOutRound;
    match req
    case PlaceBetReq(user, session, slug, stake, valid, engine, draw) => PlaceBetSessions(db, user, session, slug, stake, valid, engine, draw);
    case StartMinesReq(user, session, stake, mineCount, stream, draw) =>
      StartRoundSessions(db, user, session, MinesGame, stake, 1 <= mineCount <= 24, MinesBoardFor(mineCount, stream), draw);
    case StartTowersReq(user, session, stake, level, stream, draw) =>
      StartRoundSessions(db, user, session, TowersGame, stake, true, TowersBoardFor(level, stream), draw);
    case RevealMinesReq(user, session, bet, tile) => RevealSessions(db, user, session, bet, tile);
    case RevealTowersReq(user, session, bet, tile) => RevealSessions(db, user, session, bet, tile);
    case CashOutMinesReq(user, session, bet) => CashOutSessions(db, user, session, MinesGame, bet);
    case CashOutTowersReq(user, session, bet) => CashOutSessions(db, user, session, TowersGame, bet);
    case _ =>
  }

  /**
   * A session is ended exactly by closing it or by opening its game again, and one is added, open and without bets, exactly by opening a
   * playable game: no other request touches either.
   */
  lemma SessionsChangeExactly(db: Db, req: Request)
    ensures var before, after := db.sessions, Handle(db, req).sessions;
            && |after| == |before| + (if Opens(db, req) then 1 else 0)
            && (forall s: nat :: s < |before| ==> after[s].user == before[s].user && after[s].game == before[s].game
                                                  && (after[s].ended <==> before[s].ended || Ends(db, req, s)))
            && (Opens(db, req) ==> after[|before|] == Session(req.user, req.game, 0, 0, 0, false))
  {
    if !req.StartSessionReq? && !req.EndSessionReq? {
      SessionsElsewhere(db, req);
      hide Handle;
    } else {
      hide PlaceBet;
      hide StartRound;
      hide RevealMines;
      hide RevealTowers;
      hide CashOutRound;
    }
  }

  /** No player has two open sessions of one game. */
  predicate OneEach(sessions: seq<Session>) {
    forall i, j :: 0 <= i < j < |sessions| && sessions[i].user == sessions[j].user && sessions[i].game == sessions[j].game
                   ==> sessions[i].ended || sessions[j].ended
  }

  lemma HandleKeepsOneEach(db: Db, req: Request)
    requires OneEach(db.sessions)
    ensures OneEach(Handle(db, req).sessions)
  {
    SessionsChangeExactly(db, req);
    hide Handle;
  }

  /** Over every run a player has at most one open session of a game. */
  lemma {:induction false} OneSessionEach(db: Db, reqs: seq<Request>)
    requires OneEach(db.sessions)
    ensures OneEach(Run(db, reqs).sessions)
    decreases |reqs|
  {
    RunUnfold(db, reqs);
    if reqs != [] {
      HandleKeepsOneEach(db, reqs[0]);
      hide Handle;
      hide OneEach;
      OneSessionEach(Handle(db, reqs[0]), reqs[1..]);
    }
    hide Run;
  }
}
