# Verified model of the game and deposit services

A casino back end keeps a wallet per player. Players open sessions, place instant bets, and play Mines and Towers rounds that
stay open over several requests; deposits are quoted in a coin, watched on chain, and credited. This project models the game
engine, the play service and the deposit code in Dafny and proves what they promise.

Money is a whole number of cents and multipliers are whole hundredths; house edges, chances and coin amounts are exact
fractions. A draw is one of 2^52 equally spaced values, and a round's seeds are an arbitrary stream that gives every cursor a
draw. `dafny verify dfyconfig.toml` checks everything.

## How it is organised

* **Engine.** `Rng`, `Shuffle`, `Streams`, `Boards`, `Layouts`: draws, the in-place shuffle and the counting behind "equally
  likely"; `UniformDraws`: how far uniform draws can be from that. `Mines`, `MinesGrid`, `MinesRound`, `Towers`, `TowersRound`,
  `TowersDraws`: multipliers, grids, and a round as a replay of moves that an adaptive plan makes; `ForcedBoards`: the Mines board
  of a forced loss. `RollGames`, `TableGames`: the instant games under honest and forced results; `PlinkoOdds`, `WheelOdds`,
  `KenoOdds`: how likely each outcome of an honest round is and what the tables pay back; `ForcedRounds`: how decided rounds spread
  over the outcomes of their side. `Control`: how a round is decided before it is rolled. `Cursors`, `CursorReuse`: which draws a
  round reads, and which it reads twice.
* **Play service, one request at a time.** `Play` describes every request on values; `Service` (file `PlayService.dfy`) has
  the object whose methods run the same requests as sequences of reads and updates, each proved equal to its description.
  `PlayMoney`, `PlayRounds`, `PlayRuns` and `PlaySafety` carry the invariant over every run, `PlayReplay` ties stored rounds to
  the pure replay, `PlayPlans` and `ClimbPlans` play a plan through the service, `PlayQueries`, `PlayReplies` and `PlayChecks` say
  what is shown and accepted, `PlaySessions` which sessions are open, `PlayEnds` which open rounds can still be finished, `Deciding`
  how stored settings decide rounds and `Metering` how an admin's forced rounds are used up, and `ServiceEdge` and `ClimbEdge` go
  from the draws of a round to the money.
* **Money, one SQL statement at a time.** `Interleaving` runs any number of bets, grid rounds, credits, flags and cancellations
  with their statements in any order. `RoundPayments` says exactly which overlaps can pay a round twice, `BetNonces` which can
  repeat a nonce, and `GridRounds` and `GridLocks` what holds of locked balances as long as no two unfinished requests act on one
  round; `Schedules` puts runs together. `Atomicity` shows that a process left alone, whichever request it runs, does what the
  request-level description says; `Credit` is the crediting code on its two tables.
* **Deposits.** `Coins` and `Quotes`: amounts that no open quote has. `Watch`, `DepositWatch`, `WatchRuns`: the verdict on one
  deposit, the watcher with its flags, loop and hash set, and runs of scans interleaved with each other and with other processes;
  `WatchRecords`: when a payment is recorded and when a deposit is given up; `SharedPayments`: when one payment serves two deposits.

Two step sizes are used. The claims about one open round per game, nonces, replays and metering (`PlayRuns` to `Metering`) take
one request as one step. The repository's README.md:52 describes a bet as one transaction, but the code opens none, so this is an
assumption. The claims of `Interleaving` (balance and ledger agree, balances are not negative, a deposit is applied once) take
one statement as one step and hold without it.

Where code and documentation disagree the model follows the code: a forced win does not move the mines
(libs/engine/src/rules.ts:220-221 says it does; only a forced loss bends the grid), and match windows of quotes can overlap
(libs/wallet/src/deposits/coins.ts:65 says they never do; `Quotes` states exactly when two amounts are apart).

## Model

| member | source | states |
|---|---|---|
| Rng.DrawsPerValue | libs/engine/src/rng.ts:46-56 | scaling a draw sends floor(range/n) or one more of the draws to each of the n values, for any range and n |
| Rng.SeededInt | libs/engine/src/rng.ts:46-56 | the result lies between min and max, both included, for every draw |
| Shuffle.ShuffleInPlace | libs/engine/src/rng.ts:64-81 | the in-place swap loop leaves exactly the arrangement that its drawn indices describe |
| Shuffle.SeededShuffle | libs/engine/src/rng.ts:64-81 | the shuffle of a copy is that arrangement and leaves the items alone |
| Shuffle.ShuffledIsPermutation | libs/engine/src/rng.ts:64-81 | every index list yields a rearrangement of the items |
| Shuffle.ShuffleIsOnto | libs/engine/src/rng.ts:64-81 | every rearrangement comes from an index list |
| Shuffle.ShuffleIsOneToOne | libs/engine/src/rng.ts:64-81 | of distinct items, only one index list yields a given rearrangement |
| Boards.PlacementsAreEquallyLikely | libs/engine/src/rules.ts:228-254 | totals over all index lists are m!(N-m)! times totals over all m-tile layouts: every layout is equally likely |
| Boards.IndicesPerChoice | libs/engine/src/rules.ts:228-254 | exactly m!(N-m)! index lists put a given set of m items first |
| MinesGrid.GridHasMineCount | libs/engine/src/rules.ts:223-255 | forced or not, the grid has exactly the clamped number of mines, all on the board |
| ForcedBoards.ForcedLossMinesHotSpots | libs/engine/src/rules.ts:223-255 | a forced loss with m mines mines the first min(m, 9) of tiles 12, 0, 4, 20, 24, 6, 8, 16, 18 whatever is drawn, and with up to nine mines nothing else |
| ForcedBoards.ForcedLossSpreadsRest | libs/engine/src/rules.ts:241-251 | its mines beyond nine are spread evenly: every set of m - 9 of the other tiles comes from 25! / C(16, m - 9) of the index lists |
| ForcedBoards.ForcedLossHitsExactly | libs/engine/src/rules.ts:241-251 | a tile is mined on a forced loss whatever is drawn exactly if it is one of those first hot spots |
| Mines.ComputeMinesMultiplier | libs/engine/src/rules.ts:199-215 | the multiplying loop returns the rounded fair multiplier, and 0 outside its range |
| Mines.OddsAreChoiceShare | libs/engine/src/rules.ts:193-215 | the loop's odds are C(N-m, r) / C(N, r) |
| Mines.OddsAreLayoutShare | libs/engine/src/rules.ts:193-215 | the loop's odds are also C(N-r, m) / C(N, m), the share of layouts that miss r fixed tiles |
| Layouts.LayoutsAvoiding | libs/engine/src/rules.ts:193-215 | of all m-tile layouts exactly C(N-r, m) miss r given tiles |
| Layouts.AllLayoutsIsComplete | libs/engine/src/rules.ts:193-215 | the list of layouts holds exactly the m-tile subsets of the board |
| Mines.MultiplierGrows | libs/engine/src/rules.ts:199-215 | the rounded multiplier never falls with another safe pick or another mine |
| MinesRound.StepIsLegal | libs/wallet/src/play.service.ts:349-519 | moves keep a round legal: picks before a loss are safe and different, and the stored figures follow from them |
| MinesRound.SafeLeftShrinks | libs/wallet/src/play.service.ts:373-432 | every accepted reveal lowers the number of covered safe tiles, and the round cashes out by itself exactly at none left |
| MinesRound.PlayFollowsPicks | libs/wallet/src/play.service.ts:349-519 | an adaptive plan that never gets stuck is paid for all its picks if they miss the mines and nothing otherwise |
| MinesRound.NoPlanChangesTheEdge | libs/engine/src/rules.ts:199-215 | for every board, mine count and adaptive plan the unrounded payouts over all layouts come to (1 - edge) stake per layout |
| MinesRound.NoPlanBeatsTheShuffle | libs/engine/src/rules.ts:223-255 | the unrounded payouts of a plan average (1 - edge) stake over every index list of the shuffle that lays the grid |
| Streams.StreamDrawsIndices | libs/engine/src/rng.ts:30-81 | every index list a shuffle can be given is drawn by some stream of draws |
| ServiceEdge.NoPlanBeatsTheService | libs/wallet/src/play.service.ts:247-519 | end to end: the rounds that a start request opens and a plan plays through the service, one per way the shuffle can be drawn, return (1 - edge) stake on average, unless a loss is forced |
| ServiceEdge.WorthOfStream | libs/wallet/src/play.service.ts:247-519 | what a round is worth to a plan depends on its draws only through the indices they select |
| UniformDraws.ExpectedConstant | libs/engine/src/rng.ts:46-56 | the weights that uniform draws give to index lists come to one |
| UniformDraws.UniformDrawsMoveLittle | libs/engine/src/rng.ts:30-81 | with uniform draws the expected value of anything not negative is its even average over the index lists, to within n(n+1)/2 parts in 2^52, for any number n of positions |
| UniformDraws.NoPlanBeatsTheDraws | libs/engine/src/rules.ts:223-255 | so with uniform draws a plan's unrounded return is (1 - edge) stake to within that, on every board |
| ServiceEdge.NoPlanBeatsTheServiceDraws | libs/wallet/src/play.service.ts:247-519 | and through the service to within 325 parts in 2^52, unless a loss is forced |
| ClimbEdge.NoClimbBeatsTheService | libs/wallet/src/play.service.ts:560-846 | end to end for Towers: climbs that a request starts and a plan makes through the service return (1 - edge) stake, averaged over trap numbers and index lists of every floor, whatever was decided |
| MinesRound.RoundingMovesPayoutLittle | libs/wallet/src/play.service.ts:469-473 | with both roundings a paying layout differs by at most half a cent plus half a percent of the stake |
| Arithmetic.PayoutIsRoundMoney | libs/wallet/src/ids.ts:7-9 | the payout in cents is the rounding of stake times multiplier to two decimals |
| Towers.EasyTrapRolls | libs/engine/src/rules.ts:371-383 | an Easy floor's roll realises the shares 55, 22.5 and 22.5 percent to within one draw |
| Towers.EasySurviveRate | libs/engine/src/rules.ts:385-392 | the Easy survive rate is 93/160 |
| Towers.WholeTowerOdds | libs/engine/src/rules.ts:360-404 | the odds that a climb to the top is paid by are 1 in 1024 on hard, 59049 on medium and 729 on expert, and (93/160)^10 on easy |
| Towers.SurviveRateIsSafeShare | libs/engine/src/rules.ts:385-392 | the survive rate is the weighted share of (trap count, layout) pairs that leave a given tile safe |
| Towers.FloorHasSafeTile | libs/engine/src/rules.ts:409-431 | every floor hides its number of traps on its own tiles and keeps a safe one |
| TowersRound.ClimbStepIsLegal | libs/wallet/src/play.service.ts:665-846 | moves keep a climb legal: floors before a loss are clear, and the stored figures follow from the picks |
| TowersRound.NoClimbChangesTheEdge | libs/engine/src/rules.ts:394-431 | for every difficulty, number of floors and stopping plan the unrounded payout averages (1 - edge) stake |
| TowersDraws.DrawnGridIsGrid | libs/engine/src/rules.ts:409-431 | averaging over all index lists of every floor's shuffle is averaging over the layouts, for any number of floors |
| TowersDraws.NoClimbBeatsTheShuffle | libs/engine/src/rules.ts:394-431 | averaged over every floor's index lists, a plan returns (1 - edge) stake |
| TowersRound.RoundingMovesClimbLittle | libs/wallet/src/play.service.ts:796-798 | with both roundings a paying climb differs by at most half a cent plus half a percent of the stake |
| Cursors.FloorCursorsDiffer | libs/engine/src/rules.ts:374-430 | cursors of different floors, of one floor's draws, and the control draw's 9999 never collide, for any number of floors |
| Cursors.FloorsAreIndependent | libs/engine/src/rules.ts:409-431 | any floors that occur one by one occur together, with any control draw |
| Cursors.MinesAndControlAreIndependent | libs/engine/src/resolver.ts:50-56 | changing the control draw does not change a Mines grid |
| CursorReuse.PlinkoReusesBucketDraw | libs/engine/src/rules.ts:285-345 | the path of a forced Plinko round is shuffled without the draw that picked its bucket exactly with 8 rows; with 12 and 16 it reuses it |
| CursorReuse.KenoReusesHitsDraw | libs/engine/src/rules.ts:486-510 | for every valid pick list changing the draw for the hits alone can change the order of the misses, and it matters to the hits exactly on a forced loss with more than one possible number of hits |
| RollGames.DiceDecisionHonoured | libs/engine/src/rules.ts:42-74 | a decision is honoured for every draw and target, a forced loss on under aside |
| RollGames.DiceForcedLossUnder | libs/engine/src/rules.ts:63-71 | a forced loss on under is honoured for every draw exactly if rounding the target does not lower it |
| RollGames.DiceForcedLossCanWin | libs/engine/src/rules.ts:63-71 | the target 50.004 with the lowest draw wins a forced loss |
| RollGames.WholeTargetIsHonoured | libs/engine/src/rules.ts:42-74 | a target in whole hundredths has every decision honoured |
| RollGames.DiceWinsAsAdvertised | libs/engine/src/rules.ts:37-74 | for every valid target the draws that win an honest roll are, to within one, the advertised chance plus an excess; the excess is not positive exactly if the target rounds fairly: Round2(target) >= target for under, Round2(target) <= target or a half for over |
| RollGames.DiceCanWinMore | libs/engine/src/rules.ts:37-74 | the valid target 50.004 under wins on over 40 000 million draws more than its chance |
| RollGames.WholeTargetWins | libs/engine/src/rules.ts:37-74 | a target in whole hundredths wins on at most its chance and at least half a hundredth of a percent below it |
| RollGames.DicePaysFair | libs/engine/src/rules.ts:20-74 | a won roll, honest or decided, pays (1 - edge) over the advertised chance, rounded, and a lost one nothing |
| RollGames.DiceTotal | libs/engine/src/rules.ts:42-74 | the multipliers of all honest draws come to that one for each draw that wins |
| RollGames.DiceReturn | libs/engine/src/rules.ts:20-74 | for every valid target, direction and edge the multipliers of all honest draws come to (1 - edge) for each draw plus the multiplier on the excess of wins, from below and above to within the rounding of the multiplier and one draw |
| RollGames.CoinFlipIsEven | libs/engine/src/rules.ts:80-95 | a decision is honoured, and an honest flip wins on exactly half of the draws |
| RollGames.CoinReturn | libs/engine/src/rules.ts:80-95 | a won flip pays 2 (1 - edge), rounded, and the multipliers of all honest draws come to half as many of them, 1 - edge to within a quarter of a percent |
| RollGames.LimboForcedLoss | libs/engine/src/rules.ts:101-129 | a forced loss is honoured for every draw and target |
| RollGames.LimboForcedWin | libs/engine/src/rules.ts:118-126 | a forced win is honoured for every draw exactly if rounding does not lower the clamped target |
| RollGames.LimboForcedWinCanLose | libs/engine/src/rules.ts:118-126 | the target 1.504 with the lowest draw loses a forced win |
| RollGames.LimboPaysTarget | libs/engine/src/rules.ts:101-129 | a won round, honest or decided, pays the target clamped to 1.01 and the cap, rounded, and a lost one nothing |
| RollGames.HonestLimboShare | libs/engine/src/rules.ts:113-128 | for every target from 1.01 up an honest round wins on the share (1 - edge) / s of the draws, to within one, where s is half a hundredth below the target rounded up to hundredths; on none if s is above the cap or above (1 - edge) 10^9 |
| RollGames.HonestLimboReturn | libs/engine/src/rules.ts:113-128 | at every target that can be won the multipliers of all honest draws come to (1 - edge) times a factor, to within what one draw pays; the factor is more than 1, paid / (paid - 0.005), exactly if rounding does not lower the target, and else paid / (paid + 0.005) |
| RollGames.HonestLimboReturnsMore | libs/engine/src/rules.ts:113-128 | at targets that can be won, up to some millions, where one draw weighs less than the rounding, those multipliers come to more than 1 - edge exactly if rounding does not lower the target |
| RollGames.LimboCanReturnLess | libs/engine/src/rules.ts:113-128 | the target 1.014 at an edge of two percent returns less than 98 percent |
| RollGames.LimboCanBeUnwinnable | libs/engine/src/rules.ts:108-128 | no draw wins at 2 000 000 000 under a larger cap, nor at 1.014 under a cap of 1.014 |
| RollGames.WholeLimboTargetIsHonoured | libs/engine/src/rules.ts:101-129 | a target and cap in whole hundredths have every decision honoured |
| ForcedRounds.ForcedRollIsEven | libs/engine/src/rules.ts:54-71 | every roll wholly within the band of a decision, 99.99 aside, comes up on the same share of the draws, to within one draw |
| ForcedRounds.ForcedResultIsEven | libs/engine/src/rules.ts:118-124 | so does every result of a decided Limbo round between target and cap, or between 1 and a hundredth below the target |
| TableGames.WheelDecisionHonoured | libs/engine/src/rules.ts:141-187 | a decision picks a segment of its own kind, so it is honoured for every draw |
| TableGames.WheelIsEven | libs/engine/src/rules.ts:158-165 | an honest spin gives every segment a twelfth of the draws, to within one |
| WheelOdds.WheelReturn | libs/engine/src/rules.ts:135-187 | the multipliers of all honest draws come to a twelfth of 12.5, 19.5 or 65 for each, to within one draw a segment: every wheel pays back more than is staked, whatever the edge |
| ForcedRounds.ForcedSpinIsEven | libs/engine/src/rules.ts:149-180 | a decided spin stops on each segment of its side, those that pay or those that do not, on the same number of draws, to within one |
| TableGames.PathSumsToBucket | libs/engine/src/rules.ts:285-299 | the path built for a bucket has one step per row and ends in that bucket |
| TableGames.PlinkoDecisionHonoured | libs/engine/src/rules.ts:301-354 | a decided round pays at least the stake exactly if a win is forced and the cap is at least 1x; the path always sums to the bucket |
| PlinkoOdds.StepIsFair | libs/engine/src/rules.ts:313-320 | with all other draws fixed, a step of an honest ball goes either way on exactly half of its own draws |
| PlinkoOdds.OtherStepsStay | libs/engine/src/rules.ts:313-320 | and no other step depends on them |
| PlinkoOdds.EveryPathIsTaken | libs/engine/src/rules.ts:313-320 | every path of the right length is taken by some ball |
| PlinkoOdds.PathsAreEquallyLikely | libs/engine/src/rules.ts:313-320 | of all combinations of the draws of n steps the same number, 2^51 to the power n, makes a ball take any given path |
| PlinkoOdds.BucketShare | libs/engine/src/rules.ts:301-354 | C(n, k) of the 2^n paths of n steps end in bucket k |
| PlinkoOdds.PaysItsBucket | libs/engine/src/rules.ts:301-354 | honest or decided, a ball is paid the entry of the bucket that its path leads to, up to the cap |
| PlinkoOdds.PlinkoReturn | libs/engine/src/rules.ts:262-354 | over its 2^rows paths an honest ball is paid the total of its table: between 98.90 and 99.12 percent of the stake, for every risk and number of rows |
| PlinkoOdds.TablesAreSymmetric | libs/engine/src/rules.ts:264-283 | every table pays the same on either side and never more towards the middle |
| ForcedRounds.ForcedBucketIsEven | libs/engine/src/rules.ts:322-341 | a decided ball falls into each bucket of its side, those that pay the stake back or the others, on the same number of draws, to within one, all other draws fixed |
| ForcedRounds.ForcedPathsAreEquallyLikely | libs/engine/src/rules.ts:285-299 | every path to its bucket is laid by the same number of index lists |
| TableGames.KenoDecisionHonoured | libs/engine/src/rules.ts:465-526 | ten different spots of the fifty are drawn with exactly the dealt number of hits, and a decided round is won exactly if a win is forced and the cap is positive |
| TableGames.KenoPaysFrom | libs/engine/src/rules.ts:442-463 | a pay table row pays exactly from its least paying number of hits on |
| KenoOdds.TenSpotsAreEquallyLikely | libs/engine/src/rules.ts:465-484 | every ten of the fifty spots come up on an honest draw for the same number of index lists, 10! 40! |
| KenoOdds.PaysItsHits | libs/engine/src/rules.ts:512-526 | honest or decided, a draw is paid the entry for the picks it hits, up to the cap |
| KenoOdds.LayoutsMeeting | libs/engine/src/rules.ts:442-457 | of the m-element sets of n spots, C(p, h) C(n - p, m - h) hold exactly h of p picks |
| KenoOdds.KenoReturn | libs/engine/src/rules.ts:442-526 | averaged over all index lists an honest draw pays its row of the table weighted by those numbers: between 6 and 80 percent of the stake, whatever the edge |
| ForcedRounds.ForcedHitsAreEquallyLikely | libs/engine/src/rules.ts:486-510 | on a decided draw every choice of its number of hits among the picks comes from the same number of index lists |
| ForcedRounds.ForcedMissesAreEquallyLikely | libs/engine/src/rules.ts:486-510 | and on a forced win so does every choice of the misses among the other spots |
| Control.BiasWinsAtRate | libs/engine/src/resolver.ts:46-58 | a bias decides every round and wins on its rate of the draws, to within one; a rate outside 0 to 1 decides nothing |
| Control.DifficultyIsLossPercent | libs/engine/src/resolver.ts:70-87 | a difficulty of 1 to 99 decides every round and loses its percentage of the draws, to within one |
| Deciding.SettingDecides | libs/engine/src/resolver.ts:66-140 | where no rule decides, the first of the player's setting for the game, the player's general one and the game's that is present decides the control draw by its percentage |
| Deciding.FirstSettingDecides | libs/wallet/src/play.service.ts:147-153 | of the decisions of a player whom no rule decides, counted over control draws, that setting loses its percentage to within one draw and wins the others; 0 or less leaves every round honest, 100 or more loses every round |
| Deciding.RuleDecides | libs/engine/src/resolver.ts:40-64 | a bias with a rate from 0 to 1 decides them at its rate, to within one draw, and a metered rule all of them, whatever the settings |
| Deciding.StoredBetsLose | libs/wallet/src/play.service.ts:111-196 | so the bets that accepted requests store, one for each control draw, are lost at that percentage, in a game that honours decisions |
| Deciding.StoredBoardFollowsDecision | libs/wallet/src/play.service.ts:272-303 | and a started round is laid out by that decision and nothing else |
| Service.PlayService.constructor | libs/wallet/src/play.service.ts:54-59 | a service starts with no wallets, bets, sessions or ledger rows |
| Service.PlayService.GetOrCreateWallet | libs/wallet/src/wallet.service.ts:9-33 | the wallet row exists afterwards and is otherwise unchanged |
| Service.PlayService.OpenSession | libs/wallet/src/play.service.ts:61-76 | the player's sessions of the game are ended and a new open one added and shown; refused for unplayable or hidden games |
| Service.PlayService.CloseSession | libs/wallet/src/play.service.ts:78-94 | the player's own session is ended, nobody else's |
| Service.PlayService.PlaceBet | libs/wallet/src/play.service.ts:111-245 | the statements of an instant bet have exactly the effect and reply of its description, and the receipt is that of the stored bet with the new balance |
| Service.PlayService.StartRound | libs/wallet/src/play.service.ts:264-333 | the statements that start a grid round, between validation and logging, have exactly the effect and reply of their description |
| Service.PlayService.StartMines | libs/wallet/src/play.service.ts:247-347 | starting a Mines round has the effect and reply of its description and shows the covered board's first multiplier |
| Service.PlayService.StartTowers | libs/wallet/src/play.service.ts:560-663 | starting a Towers round has the effect and reply of its description and shows the first floor's multiplier |
| Service.PlayService.RevealMines | libs/wallet/src/play.service.ts:349-446 | the statements of a Mines reveal, with the cash-out it may trigger, have exactly the effect and reply of its description, and what is shown is the stored round |
| Service.PlayService.RevealTowers | libs/wallet/src/play.service.ts:665-769 | the statements of a Towers reveal, with the cash-out it may trigger, have exactly the effect and reply of its description, and what is shown is the stored climb |
| Service.PlayService.CashOut | libs/wallet/src/play.service.ts:448-519 | the statements of a cash-out have exactly the effect and reply of its description, and what is shown is the stored round, its board and the new balance |
| Service.PlayService.SpendForcedRound | libs/wallet/src/play.service.ts:1040-1052 | one forced round of the governing row is used up, never below zero |
| PlayChecks.BetAcceptedExactly | libs/wallet/src/play.service.ts:111-175 | an instant bet is accepted exactly if session, game, selection, stake limits, lock and balance allow it; a refusal moves no money |
| PlayChecks.RoundStartedExactly | libs/wallet/src/play.service.ts:247-303 | a grid round is started exactly if, besides, the player has none open on the game |
| PlayChecks.BetStored | libs/wallet/src/play.service.ts:148-196 | the stored bet has the rounded stake, the roll under its decision up to the rule's cap and the payout rounded to cents |
| PlaySafety.EveryRunBalances | libs/wallet/src/play.service.ts:162-225 | over every run: locked is the open stakes, balance = deposited - wagered + won = confirmed ledger rows >= 0, session totals are those of their bets, the session counter is bets plus cash-outs, one open round per player and game, nonces in order |
| PlaySafety.CounterIsBetsUntilCashOut | libs/wallet/src/play.service.ts:983-992 | the session counter is the number of its bets exactly as long as none of them has been cashed out |
| PlaySafety.RunKeeps | libs/wallet/src/play.service.ts:111-888 | every run of requests keeps the whole invariant, legality of every stored round included |
| PlayRuns.UnlockNeverClips | libs/wallet/src/play.service.ts:382-389 | releasing an open round's stake never needs the GREATEST(..., 0) |
| PlayRounds.NoncesRise | libs/wallet/src/play.service.ts:1004-1010 | a player's nonces rise bet by bet from 1 to the number of bets |
| PlayRounds.NonceIsGiven | libs/wallet/src/play.service.ts:1004-1010 | every number from 1 to the number of a player's bets is the nonce of one of them |
| PlaySafety.RevealMinesMoves | libs/wallet/src/play.service.ts:349-446 | a refused reveal changes nothing, an accepted one makes exactly the replay's move; the cash-out on the last safe tile never fails |
| PlaySafety.RevealTowersMoves | libs/wallet/src/play.service.ts:665-769 | a refused Towers reveal changes nothing, an accepted one makes exactly the replay's move; the cash-out on the last floor never fails |
| PlaySafety.CashOutMoves | libs/wallet/src/play.service.ts:448-519 | a refused cash-out changes nothing, an accepted one pays the stored multiplier and closes the round |
| PlayReplay.RunReplays | libs/wallet/src/play.service.ts:349-888 | after any run, every stored bet is the replay of the moves accepted on it at its own stake and its game's edge |
| PlayReplay.MinesRoundReplays | libs/wallet/src/play.service.ts:247-519 | a Mines round started at any point is, ever after, the replay from the board laid then |
| PlayReplay.TowersRoundReplays | libs/wallet/src/play.service.ts:560-846 | a Towers round started at any point is, ever after, the replay from the grid laid then |
| PlayReplay.FinishedBetsStay | libs/wallet/src/play.service.ts:370-371 | with one request at a time, a bet that is won, lost or cashed out never changes again |
| PlayEnds.FinishableExactly | libs/wallet/src/play.service.ts:935-953 | some run brings an open round to an end exactly if its session has not ended and its game is active and not under maintenance |
| PlayEnds.StrandedStays | libs/wallet/src/play.service.ts:935-953 | otherwise the round stays open exactly as it is, whatever anybody does |
| PlayEnds.StrandedInput | libs/wallet/src/play.service.ts:61-76 | an input: a player starts a Mines round of 1.00 and opens the game again, which ends the round's session |
| PlayEnds.NewSessionStrands | libs/wallet/src/play.service.ts:970-981 | opening a new session of a game that is not hidden strands the player's open round on it |
| PlayEnds.StrandedBlocksGame | libs/wallet/src/play.service.ts:264-270 | every later start by that player on that game is refused, with round in progress if selection and stake are valid |
| PlayEnds.StrandedStaysLocked | libs/wallet/src/play.service.ts:290-301 | the stake of a stranded round stays locked over every run |
| PlayPlans.ServiceFollowsPlan | libs/wallet/src/play.service.ts:349-519 | sending a plan's moves as requests ends in the plan's play on the stored board |
| PlayPlans.PlanThroughService | libs/wallet/src/play.service.ts:247-519 | starting a round and following a plan is worth what the plan is worth on the mines its draws lay |
| ClimbPlans.ServiceFollowsPlan | libs/wallet/src/play.service.ts:665-846 | sending a plan's moves on a Towers round as requests ends in the plan's climb of the stored grid |
| ClimbPlans.PlanThroughService | libs/wallet/src/play.service.ts:560-846 | starting a Towers round and following a plan is worth what the plan is worth on the grid its draws lay |
| ClimbPlans.RevealAccepted | libs/wallet/src/play.service.ts:671-700 | in an open session a reveal of a climb in progress is accepted exactly for the tiles of the next floor |
| PlayPlans.RevealAccepted | libs/wallet/src/play.service.ts:355-376 | in an open session a reveal of a round in progress is accepted exactly for covered tiles of the board |
| PlayQueries.GetOpenFinds | libs/wallet/src/play.service.ts:521-542 | the open-round query finds the session's open round, the only one, or says there is none |
| PlayQueries.GetOpenAgreesWithStored | libs/wallet/src/play.service.ts:544-558 | its recomputed multiplier is the stored one, and its next multiplier is what a safe pick will store |
| PlayQueries.OpenRoundHidesBoard | libs/wallet/src/play.service.ts:419-431 | what a player is told about an open round does not depend on where the mines or traps are |
| PlayQueries.HistoryIsComplete | libs/wallet/src/play.service.ts:897-910 | a session's history leaves out none of its bets unless it holds fifty |
| PlayReplies.ReceiptIsMoney | libs/wallet/src/play.service.ts:224-245 | the payout on a receipt is the wallet's gain plus the stake, and the multiplier the one that pays it |
| PlayChecks.CreditedExactly | libs/wallet/src/deposits/credit.ts:10-86 | crediting a deposit confirms it and adds its amount to balance and deposits exactly if it is pending or in review, and crediting it again changes nothing |
| PlayReplies.CashOutShown | libs/wallet/src/play.service.ts:448-519 | the payout shown of a cash-out is the rise in balance and what the multiplier shown pays, with the board it was played on |
| PlayReplies.MinesShown | libs/wallet/src/play.service.ts:349-446 | of a Mines round in play, the multiplier shown is what a cash-out pays, and the next one what the next safe pick stores |
| PlayReplies.TowersShown | libs/wallet/src/play.service.ts:665-769 | and so for Towers |
| PlayReplies.LossShown | libs/wallet/src/play.service.ts:382-418 | of a round that a reveal has lost, nothing is shown as paid, the whole board with the last pick is, and the balance is neither shown nor moved |
| PlayReplies.SessionShown | libs/wallet/src/play.service.ts:890-933 | the totals shown of a session are those of its bets, and its history is the newest of them, newest first, all of them unless there are more than fifty |
| PlaySessions.SessionsChangeExactly | libs/wallet/src/play.service.ts:61-94 | a session is ended exactly by closing it or by opening its game again, and one is added, open and empty, exactly by opening a playable game that is not hidden from the player |
| PlaySessions.OneSessionEach | libs/wallet/src/play.service.ts:970-981 | over every run a player has at most one open session of a game |
| Metering.RuleIsMetered | libs/wallet/src/play.service.ts:147-175 | a rule with r rounds forces exactly the first min(r, k) of the k accepted instant bets it governs, later ones are decided by the percentage of the first setting present, and nothing else uses rounds up |
| Metering.OthersLeaveControls | libs/wallet/src/play.service.ts:280-333 | grid rounds, sessions and deposits consume no forced round |
| Metering.GovernorsStay | libs/wallet/src/play.service.ts:1012-1038 | the rows that may govern a player's game, in whatever order a query lists them, are the same after any run |
| Metering.GovernorIsDetermined | libs/wallet/src/play.service.ts:1016-1027 | the row taken is one that may govern, and with one row per player and scope it is the only one, whatever the order of the query |
| Interleaving.BalanceAgreesWithLedger | libs/wallet/src/play.service.ts:162-222 | under every statement order balances are never negative and equal the confirmed rows plus what is in flight, which is nothing once all requests have finished |
| Interleaving.DepositAppliedOnce | libs/wallet/src/deposits/credit.ts:10-86 | under every statement order a deposit reaches a wallet at most once and only if confirmed, exactly once when all is finished; the roll-back is never reached |
| Interleaving.StatusesAreFinal | libs/wallet/src/deposits/credit.ts:29-49 | confirmed and cancelled are final, a deposit in review can only be confirmed, rows keep their terms |
| Interleaving.StatementBalances | libs/wallet/src/play.service.ts:162-222 | each statement moves a wallet by what it moves in the ledger and in flight |
| Interleaving.StatementClaims | libs/wallet/src/deposits/credit.ts:29-65 | a deposit becomes confirmed exactly when one process takes hold of it, and is let go only by being applied |
| RoundPayments.RoundPaidOnce | libs/wallet/src/play.service.ts:448-502 | under every statement order in which no two unfinished cash-outs act on one round, each round's payout reaches a wallet at most once, with any reveals overlapping the cash-out |
| RoundPayments.TwoOwingPayTwice | libs/wallet/src/play.service.ts:457-502 | wherever two cash-outs of an open round with a pick are under way and neither has paid, some order of their statements pays it twice |
| RoundPayments.TwoCashOutsPayTwice | libs/wallet/src/play.service.ts:457-502 | an input from empty tables: a deposit of 1.00, a round of 1.00, one safe pick worth 2.00 and two cash-outs that both read the round before either closes it pay 4.00 |
| BetNonces.NoncesRiseInTurn | libs/wallet/src/play.service.ts:1004-1010 | under every statement order in which no two placements of one player overlap between count and insert, nonces rise bet by bet from 1 to the number of bets |
| BetNonces.NonceIsGivenInTurn | libs/wallet/src/play.service.ts:1004-1010 | and every number up to the number of bets is given |
| BetNonces.TwoPlacementsShareNonce | libs/wallet/src/play.service.ts:1004-1010 | wherever two covered placements of one player are about to count, some order of their statements gives both the same nonce |
| BetNonces.OverlappingBetsShareNonce | libs/wallet/src/play.service.ts:111-196 | an input from empty tables: two bets of 0.50 at once after a deposit of 1.00 both get nonce 1 |
| GridLocks.LockedIsOpenStakes | libs/wallet/src/play.service.ts:290-301 | under every statement order in which no two unfinished requests act on one round, a locked balance is the stakes of the open rounds and what is in flight, exactly the stakes once all requests have finished, and no release is clipped |
| GridLocks.ReleaseIsCovered | libs/wallet/src/play.service.ts:382-389 | a process that is about to release a stake finds it locked |
| Atomicity.CreditAlone | libs/wallet/src/deposits/credit.ts:10-86 | a credit's statements with nothing in between do what the one-step description says |
| Atomicity.BetAlone | libs/wallet/src/play.service.ts:138-222 | an instant bet's statements with nothing in between leave the tables of the one-step description, nonce included, covered or not |
| Atomicity.GridAlone | libs/wallet/src/play.service.ts:272-331 | the statements that start a grid round, with nothing in between, leave what the one-step description leaves, covered or not |
| Atomicity.HitAlone | libs/wallet/src/play.service.ts:382-400 | the statements of a reveal that hits leave the wallet and round of the one-step description |
| Atomicity.SafeAlone | libs/wallet/src/play.service.ts:419-431 | the statements of a safe reveal leave the round of the one-step description |
| Atomicity.LastPickAlone | libs/wallet/src/play.service.ts:419-435 | the statements of the last safe pick, with the cash-out it sets off, leave the tables of the two one-step descriptions |
| Atomicity.CashOutAlone | libs/wallet/src/play.service.ts:457-500 | the statements of a cash-out leave the wallet, ledger and round of the one-step description |
| Atomicity.NoCashOutAlone | libs/wallet/src/play.service.ts:464-469 | a cash-out of a round that is closed or has no pick leaves everything as it is |
| Atomicity.FlagAlone | libs/wallet/src/deposits/credit.ts:88-126 | the statements of a flag leave what the one-step description leaves |
| Atomicity.CancelAlone | libs/wallet/src/deposits/watch.ts:428-441 | the one statement of a cancellation leaves what the one-step description leaves |
| Credit.DepositDesk.CreditDeposit | libs/wallet/src/deposits/credit.ts:10-86 | a creditable deposit is confirmed and its amount added once to balance and deposits; any other call changes nothing |
| Credit.DepositDesk.FlagDepositForReview | libs/wallet/src/deposits/credit.ts:88-126 | a pending deposit moves to review; any other call changes nothing |
| Credit.DepositDesk.CancelUnpaid | libs/wallet/src/deposits/watch.ts:423-441 | a pending deposit is cancelled; any other call changes nothing |
| Coins.AllocateUniqueAmount | libs/wallet/src/deposits/coins.ts:71-83 | the search terminates and returns the first free rung of its ladder, which no used amount rounds to |
| Coins.FreeRungIsLeast | libs/wallet/src/deposits/coins.ts:71-83 | that rung is the least free one and no further up than there are taken amounts |
| Coins.StepIsPositive | libs/wallet/src/deposits/coins.ts:65-69 | every coin's gap is at least one unit, so the search always moves |
| Coins.CountedPaymentsAreClose | libs/wallet/src/deposits/coins.ts:85-97 | for every quote a payment matches exactly within the larger of floor and tolerance, and counts exactly within the larger of floor and half of the quote |
| Quotes.OpenQuotesAreUnique | libs/wallet/src/deposits/coins.ts:71-83 | in every run of quotes whose requests name all open amounts of their coin, the amounts allocated to open quotes are pairwise different, without any help of the index |
| Quotes.StaleRequestsRepeat | libs/wallet/src/deposits/prices.ts:31-45 | two requests that name the same amounts get the same one |
| Quotes.IndexRefusesRepeats | drizzle/0004_open_deposit_quote.sql:1-5 | the unique index refuses a quote exactly if it would repeat an open amount, and never one whose request was complete |
| Quotes.IndexedStaysUnique | drizzle/0004_open_deposit_quote.sql:1-5 | with the index open amounts differ whatever the requests name, and a run of complete requests ends as it does without |
| Quotes.QuotedOnRung | libs/wallet/src/deposits/coins.ts:71-83 | a price whose first k rungs are taken is quoted on the next one |
| Quotes.QuotedRungsApart | libs/wallet/src/deposits/coins.ts:59-83 | for every coin and price, with the rounded step: the k-th quote of a price and the next have disjoint match windows exactly if k < 3 for USDT and USDC, k < 1 for SOL and never for BTC, ETH and LTC where the window of the price is a share of it, and exactly below a fixed amount per coin where it is the floor |
| Quotes.NearbyAmountsBothFree | libs/wallet/src/deposits/prices.ts:36-45 | 1.001 BTC is quoted beside an open quote of 1 BTC, and their windows overlap |
| DepositWatch.Watcher.Tick | libs/wallet/src/deposits/watch.ts:89-99 | a tick during a scan does nothing, any other scans the table once and leaves the flag down |
| DepositWatch.Watcher.SimulateTick | libs/wallet/src/deposits/watch.ts:101-111 | a simulate tick during a simulate scan does nothing, any other scans the rehearsed deposits once |
| DepositWatch.Watcher.ScanPending | libs/wallet/src/deposits/watch.ts:113-146 | the loop inspects the pending deposits of its kind, newest first, each at its own time, with the hashes growing as it goes |
| DepositWatch.Watcher.Inspect | libs/wallet/src/deposits/watch.ts:168-336 | the statements of one inspection carry out exactly the verdict on the deposit |
| DepositWatch.Watcher.Progress | libs/wallet/src/deposits/watch.ts:377-411 | the payment is recorded over what was read when the scan began, unless it says the same already |
| DepositWatch.Watcher.CancelUnpaid | libs/wallet/src/deposits/watch.ts:423-441 | only a deposit that is still pending is cancelled |
| Watch.FirstOfKind | libs/wallet/src/deposits/watch.ts:212-223 | the payment chosen is in the answer, unspent and of the kind sought; none is chosen only if there is none |
| WatchRecords.SoughtIsFirst | libs/wallet/src/deposits/watch.ts:212-223 | and it is the first such payment that was listed |
| Watch.PendingEntries | libs/wallet/src/deposits/watch.ts:114-136 | a scan reads every pending deposit once, newest first |
| WatchRuns.ChainHashesAreUnique | libs/wallet/src/deposits/watch.ts:138-166 | no two deposits confirmed by chain scans carry the same non-empty hash, over any interleaving of scans, quotes and other processes |
| WatchRuns.PaidIsNeverCancelled | libs/wallet/src/deposits/watch.ts:225-228 | once a payment is recorded, no run of scans and quotes cancels the deposit |
| WatchRuns.ScansNeverCancelPaid | libs/wallet/src/deposits/watch.ts:225-228 | after any run at all, other processes touching the deposit included, no step of a scan cancels a deposit with a payment on record |
| WatchRuns.SpentHashesStaySpent | libs/wallet/src/deposits/watch.ts:148-166 | a hash that a confirmed or reviewed deposit had when a scan began is not acted on in the whole scan, whatever comes in between |
| WatchRuns.BlindScansConfirmNothing | libs/wallet/src/deposits/watch.ts:192-230 | while all lookups fail, chain scans confirm and flag nothing, however long they go on; they can only cancel |
| WatchRuns.RehearsalCountsUp | libs/wallet/src/deposits/watch.ts:338-375 | a rehearsed payment only moves forward, never past what is required, and is complete once enough time has passed |
| WatchRuns.ConfirmsExactlyClearPayments | libs/wallet/src/deposits/watch.ts:225-330 | the watcher confirms a deposit exactly if it is creditable and its first unspent match has enough confirmations and none of the five review reasons holds |
| WatchRecords.RecordsExactly | libs/wallet/src/deposits/watch.ts:225-297 | a scan changes the record of an untouched deposit and leaves it pending exactly if its first unspent match, or else near payment, lacks confirmations and is not on record yet; the row then carries hash, amount and confirmations and nothing else new |
| WatchRecords.CancelsExactly | libs/wallet/src/deposits/watch.ts:225-228 | a scan cancels a deposit exactly if it is pending, past its expiresAt or else an hour after its creation, without a payment on record, and nothing unspent that was listed counts for it |
| WatchRecords.ListedOnceIsNeverCancelled | libs/wallet/src/deposits/watch.ts:225-297 | a pending deposit for which a scan found an unspent payment listed once is never cancelled by later scans, however long the lookups fail |
| WatchRecords.ListedOverRuns | libs/wallet/src/deposits/watch.ts:225-297 | whatever came before that scan, from a quote with nothing on record |
| WatchRecords.RehearsedHashes | libs/wallet/src/deposits/watch.ts:368-374 | a rehearsed payment has the hash it was set up with, and rehearsals set up without one never share theirs |
| SharedPayments.HoldsAndConfirmsExactly | libs/wallet/src/deposits/watch.ts:138-330 | one payment puts one deposit in review and confirms the next of the same scan exactly if it is held for the first and clear for the second by the hashes known before the first: a flag spends no hash |
| SharedPayments.OnePaymentServesTwo | libs/wallet/src/deposits/watch.ts:212-330 | for a single good payment: exactly if it counts for the first deposit without being clear and is clear for the second |
| SharedPayments.OnePaymentTwice | libs/wallet/src/deposits/watch.ts:113-330 | an input: of deposits of 1.30 and 1.00 BTC on one address a scan holds the first and confirms the second with the same payment of 1.11 |
| SharedPayments.ConfirmationSpends | libs/wallet/src/deposits/watch.ts:313-328 | a confirmation does spend: no later entry of the scan is judged by its hash |
| WatchRuns.ScanIsRun | libs/wallet/src/deposits/watch.ts:113-146 | a whole scan is one of these runs, so the claims about runs are claims about the loop |

## Left out

- Hashing: the keyed hash behind a draw, seed creation and reference strings are not modelled; each cursor's draw is arbitrary.
- Rounding of doubles: arithmetic is exact, so results that hang on a last binary digit are outside the model.
- Outcomes of the wheel carry the place of the segment, which no bet depends on; the order of segments that pay the same is left open.
- Field-by-field validation of selections (libs/engine/src/resolver.ts): it is a flag of a request, and the ranges it enforces are preconditions of the game lemmas.
- Dispatch of a round to its game (`resolveRound`): the play service takes the engine's answer for either decision as an arbitrary function, so its claims hold for any game.
- Service.PlayService.StartRound: is the common part of startMines and startTowers; CashOut is written once for both games, since the two differ only in the game they ask for.
- PlaySafety.EveryRunBalances: takes one request as one step, which the code does not enforce, and house edges of at most 1; what holds without the first is in Interleaving and GridLocks.
- PlaySafety.RunKeeps: takes one request as one step.
- PlayRuns.UnlockNeverClips: takes one request as one step; GridLocks.LockedIsOpenStakes needs only that no two unfinished requests act on one round.
- PlayRounds.NoncesRise: takes one request as one step; BetNonces says what holds of overlapping bets.
- PlayRounds.NonceIsGiven: takes one request as one step.
- PlayReplay.RunReplays: takes one request as one step.
- PlayReplay.MinesRoundReplays: takes one request as one step.
- PlayReplay.TowersRoundReplays: takes one request as one step.
- PlaySessions.SessionsChangeExactly: takes one request as one step.
- PlaySessions.OneSessionEach: takes one request as one step.
- PlayReplay.FinishedBetsStay: takes one request as one step; RoundPayments says exactly what is left without it.
- Metering.RuleIsMetered: takes one request as one step, and the first row of a scope, which is the only one if each player has one row per scope.
- Deciding.StoredBetsLose: is for games that honour every decision; DiceForcedLossUnder and LimboForcedWin say exactly which targets do not.
- PlinkoOdds.PlinkoReturn: is for caps that let every bucket pay; PaysItsBucket says what a lower cap pays.
- KenoOdds.KenoReturn: is for caps of at least 1000x; PaysItsHits says what a lower cap pays.
- ForcedRounds.ForcedMissesAreEquallyLikely: is for forced wins, since a forced loss reads the draw for its number of hits again (CursorReuse.KenoReusesHitsDraw).
- WatchRecords.ListedOnceIsNeverCancelled: assumes that listed transfers are of more than nothing under a hash, and that no other process cancels the deposit or erases its record.
- WatchRecords.ListedOverRuns: assumes the same.
- RollGames.HonestLimboShare: is for edges that are not negative and caps of at least 1.01.
- ServiceEdge.NoPlanBeatsTheServiceDraws: is for edges of at most 1, so that no payout is negative.
- Payout caps on Mines and Towers: the code applies none there, and neither does the model.
- Sorted order of mines, traps and drawn spots: they are sets or lists in dealt order, as no later step depends on it.
- Interleaving: session totals and control rows are not part of its state, and whether a start is refused because a round is open is left open; whether a tile is hit and which multiplier a safe one stores are left open.
- Deposit rows appear twice, as ledger rows with an amount of money in Play and Interleaving and as rows with coin, address and metadata in Watch; balances after a credit are not stored.
- WatchRuns.ChainHashesAreUnique: is about non-empty hashes, as the set of spent hashes drops empty ones between scans.
- WatchRuns.PaidIsNeverCancelled: assumes that listed transfers are of more than nothing and that no other process cancels the deposit or erases its record.
- Explorers, prices and the clock: lookups and times are arbitrary and may differ from one inspection to the next.
- Notifications, mail, realtime fan-out, queues, the gateway, guards and wiring.
- Withdrawals, bonuses and edits of games or control rows by admins: not in this repository, so they are fixed.
