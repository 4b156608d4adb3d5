# Verification of the game engines and the coin escrow

A Dafny model of the server-authoritative parts of the backend, with proofs. Run
`dafny verify dfyconfig.toml` in this directory.

| part | modules |
|---|---|
| Tien Len: cards, table, runs, settlement | `TienLenLogic`, `TienLenDeck`, `TienLenTable`, `TienLenInvariant`, `TienLenMoves`, `TienLenFinish`, `TienLenRuns`, `TienLenRules`, `TienLenTurns`, `TienLenGame`, `TienLenSettlement`, `TienLenStakes`, `TienLenOneChop`, `TienLenPoints` |
| Coins: wallet, wagers, rooms, escrow | `Wallet`, `Rooms`, `Escrow`, `EscrowByPlayer`, `RoomsRules`, `RoomsService` |
| Bomberman: world, explosions, movement, match | `BombermanArena`, `BombermanBlast`, `BombermanChain`, `BombermanMovement`, `BombermanTick`, `BombermanRays`, `BombermanWorld`, `BombermanMaps`, `BombermanMatch` |
| Caro: board and game | `CaroLogic`, `CaroGame` |
| Queues, servers, voice | `Matchmaking`, `MatchQueues`, `Servers`, `VoicePresence` |
| Shared | `Wrappers`, `Sorting`, `Sums`, `Rounding`, `Ranking`, `RankPoints` |

Where a service changes an object in place, a class with the same fields does too, and each
method is proved to change it exactly as a function on values says; the properties are proved
about those functions, about every run of them, and kept by every method.

**Tien Len.** A table is running or finished, and the invariant of a running table is the
weak one that survives players leaving in the middle of a trick: the seats that have not
passed lie on the clockwise arc from the turn up to the lead, and the empty-handed seats are
split between the finishing order and the resigned. From it follow the termination measure,
conservation of cards along every run, the exact condition for a play to be accepted, and
the settlements.

**Coins.** Every coin is in a wallet, in an open room's pot, on its way into one, or in a
running game. The two halves of a join (debit, then commit or refund) are separate steps.
Coins are followed in all and player by player, and Tien Len chops through whole games, in
coins and in rank points.

**Bomberman.** The world changes in the middle of the recursive explosion, so what is proved
holds between any two of its effects and, for a finished explosion, relates the grid it
started from to the grid it left. Positions are exact reals, `Math.round(v)` is
`floor(v + 0.5)`, and every random choice is arbitrary.

**What the code does and its own text does not say.**

- The comment on `canBeat` promises that three or more consecutive pairs beat a two; five or
  more do not (`TienLenLogic.PairRunsBeatATwoIff`).
- The comment on `finishInstantWin` says the others share last place; they are placed in seat
  order and their points differ when there are more than two players
  (`TienLenSettlement.InstantSettlement`).
- The schema says the opening play must contain the lowest card; the service accepts any
  combo, and its special case for the opening changes no outcome
  (`TienLenRules.PlayAcceptedIffLegal`, `TienLenRules.OpeningWithoutLowestCard`).
- The coin changes reported at the end of a wager game leave out the chops paid during it, so
  they are a player's true gain exactly when that player's chops cancel out
  (`TienLenStakes.ReportIsTrueIff`, `TienLenOneChop.WrongReport`).
- Reported rank points cancel out, but no player's stored points go below zero, so ranked games
  make points whenever a loss is larger than what the loser has (`TienLenPoints.PointsConservedIff`,
  `TienLenPoints.NewcomersMakePoints`, `BombermanMatch.MatchPointsStored`).
- `tryMatch` says the chosen players include the caller; with enough equals they do not
  (`Matchmaking.CallerChosenIff`).
- Two joins of one user to one room in flight together leave a stake in the pot that nobody
  owns once that user leaves, and it is lost when the room closes; coins are lost in no other
  way (`Escrow.PotsMatchIff`, `Escrow.CoinsConservedIff`, `Escrow.DoubleJoinLosesAStake`).
- Removing an unknown socket is reported as a user leaving
  (`VoicePresence.ReportIsTrueIff`, `VoicePresence.UnknownSocketReportsLeaving`).
- A player who queues again before an earlier match is cleaned up is forgotten by the hash, so
  the service says they are not queued; and two joins of one user at once can leave them at two
  tables. The exact steps that do either are known (`MatchQueues.KnownIff`,
  `MatchQueues.OneTableIff`, with the runs `MatchQueues.LateCleanUpForgets` and
  `MatchQueues.TwoJoinsAtOnce`).

## Model

| member | source | states |
|---|---|---|
| `TienLenLogic.MeaningOfKinds` | src/games/tienlen/tienlen.logic.ts:86-145 | the six combo types in terms of ranks alone: for any cards, which type is recognised if and only if their ranks, in whatever order, form that pattern |
| `TienLenLogic.IdentifyIgnoresOrder` | src/games/tienlen/tienlen.logic.ts:86-121 | naming the same cards in another order gives the same combo |
| `TienLenLogic.IdentifyIsIdempotent` | src/games/tienlen/tienlen.logic.ts:86-121 | identifying the cards of a recognised combo gives that same combo again; they are the cards played |
| `TienLenLogic.MeasuredByTopCard` | src/games/tienlen/tienlen.logic.ts:86-121 | a recognised combo has the length of its cards and the rank value of the highest of them |
| `TienLenLogic.CanBeatIff` | src/games/tienlen/tienlen.logic.ts:159-193 | when one combo beats another, case by case on what lies there: a higher top card for the same kind and length; beyond that a two falls to a four or a run of three or four pairs, two twos to a four or a run of four pairs, a run of three pairs to a four or a run of four, a four to a run of four; nothing else crosses kinds or lengths |
| `TienLenLogic.OneBeatsTheOther` | src/games/tienlen/tienlen.logic.ts:159-193 | of two combos of one kind and length without a common card exactly one beats the other |
| `TienLenLogic.BeatRaisesRank` | src/games/tienlen/tienlen.logic.ts:159-193 | whatever is accepted over a combo has a higher rank: bomb tier first, then top card |
| `TienLenLogic.BeatIsAcyclic` | src/games/tienlen/tienlen.logic.ts:159-193 | no chain of beats, however long, leads back to where it started |
| `TienLenLogic.BeatIsNotTransitive` | src/games/tienlen/tienlen.logic.ts:159-193 | three combos a over b over c where a does not beat c |
| `TienLenLogic.PairRunsBeatATwoIff` | src/games/tienlen/tienlen.logic.ts:155-193 | a run of pairs beats a single two exactly when it has three or four pairs (the comment above the code says three or more) |
| `TienLenLogic.FivePairsDoNotBeatATwo` | src/games/tienlen/tienlen.logic.ts:155-193 | a run of five pairs, which the code calls a bomb, and a two it does not beat |
| `TienLenLogic.ChopsAllTwosOrNone` | src/games/tienlen/tienlen.logic.ts:225-243 | over one or two twos, an accepted combo chops all of them exactly when its type differs, and none otherwise |
| `TienLenLogic.ChopHeoBreakdown` | src/games/tienlen/tienlen.logic.ts:249-261 | the counting loop returns red and black counts that add up, and units with red ones double |
| `TienLenLogic.RemovalSplitsHand` | src/games/tienlen/tienlen.logic.ts:196-205 | a removal splits a sorted hand without repeats into the cards removed and a sorted rest |
| `TienLenLogic.RemovalRefusesRepeats` | src/games/tienlen/tienlen.logic.ts:196-205 | cards can be removed exactly when none is named twice and all are held |
| `TienLenDeck.ShuffledDeck` | src/games/tienlen/tienlen.logic.ts:50-57 | whatever the random draws, the shuffled deck is the 52 cards, each once |
| `TienLenDeck.EveryDeckIsReached` | src/games/tienlen/tienlen.logic.ts:50-57 | every arrangement of the 52 cards comes out of the shuffle for some draws |
| `TienLenDeck.DrawsAreTold` | src/games/tienlen/tienlen.logic.ts:50-57 | different draws give different decks, so equally likely draws make every arrangement equally likely |
| `TienLenDeck.DealIsGood` | src/games/tienlen/tienlen.logic.ts:60-67 | every deal gives each player 13 sorted cards, no card dealt twice |
| `TienLenDeck.DealtRoundTheTable` | src/games/tienlen/tienlen.logic.ts:60-67 | the card at a position of the deck goes to the player whose number is that position modulo the number of players, and to nobody else |
| `TienLenDeck.HolderOfLowest` | src/games/tienlen/tienlen.logic.ts:70-83 | the starter holds the lowest card dealt |
| `TienLenDeck.DetectInstantWin` | src/games/tienlen/tienlen.logic.ts:276-299 | the four dealt wins, decided in the order of the code from rank counts |
| `TienLenDeck.DealtWinsMean` | src/games/tienlen/tienlen.logic.ts:276-299 | four twos means holding all four of them; a dragon means not that, and some card of every rank from three to ace |
| `TienLenRules.PlayAcceptedIffLegal` | src/games/tienlen/tienlen.service.ts:168-197 | on every reachable table a play is accepted exactly when the player is on turn, holds the cards, and they form a combo which, if there is one to beat, beats it by the cases of `TienLenLogic.CanBeatIff`; the waiver for the opening play decides nothing |
| `TienLenRules.RepeatedCardRefused` | src/games/tienlen/tienlen.service.ts:196-197 | a play that names a card twice is refused |
| `TienLenRules.TrickClimbs` | src/games/tienlen/tienlen.service.ts:192-194 | within a trick every accepted play outranks the one before it |
| `TienLenRules.ChopRecordedExactly` | src/games/tienlen/tienlen.service.ts:199-240 | a chop is recorded exactly when the play answers another player's twos with another type, against the player who put them down, with all those twos |
| `TienLenRules.NewTablePlaying` | src/games/tienlen/tienlen.service.ts:72-97 | a fresh deal is a running table of the invariant, with the starter on a free lead |
| `TienLenRules.OpeningTakesAnyCombo` | src/games/tienlen/tienlen.service.ts:185-197 | on a fresh deal the starter's play is accepted exactly when it is a combo of cards they hold |
| `TienLenRules.OpeningWithoutLowestCard` | src/games/tienlen/schemas/tienlen-game.schema.ts:60-62 | on every deal the starter may open with their highest card alone, without the lowest one (the schema says the opening play must contain it) |
| `TienLenRules.InstantWinIsOver` | src/games/tienlen/tienlen.service.ts:825-849 | a dealt win ends the game in a state every other finished game satisfies too: the winner first, all others behind in seat order |
| `TienLenInvariant.NextActiveIsNearest` | src/games/tienlen/tienlen.service.ts:464-471 | the circular scan returns the nearest seat with cards, clockwise |
| `TienLenInvariant.AdvanceKeeps` | src/games/tienlen/tienlen.service.ts:430-462 | from a table whose unpassed seats lie on the clockwise arc up to the lead, the scan keeps that shape; it ends the trick exactly when nobody else may respond |
| `TienLenInvariant.NextToMove` | src/games/tienlen/tienlen.service.ts:430-462 | who moves next: the nearest seat that may respond, and nothing else changes; or, when nobody may, the trick is cleared and its owner leads, or the nearest seat after an owner without cards |
| `TienLenRules.PlayHandsOn` | src/games/tienlen/tienlen.service.ts:382-411 | after an accepted play everybody else with cards may respond again and the nearest of them is on turn |
| `TienLenRules.PassHandsOn` | src/games/tienlen/tienlen.service.ts:413-448 | after a pass the nearest seat that may still respond is on turn, else the winner of the trick leads |
| `TienLenRules.LeavingHandsOn` | src/games/tienlen/tienlen.service.ts:534-545 | after somebody left: a new trick led by the nearest seat if they owned the combo, the turn to the nearest seat if they were on turn, else nothing moves |
| `TienLenMoves.PassKeeps` | src/games/tienlen/tienlen.service.ts:413-422 | a pass keeps the invariant, takes exactly the passing seat out of those who may respond, and ends the trick exactly when it was the last |
| `TienLenMoves.ApplyPlayKeeps` | src/games/tienlen/tienlen.service.ts:382-411 | a play moves exactly its cards out of the hands and leaves a table of the invariant, or one about to end |
| `TienLenRules.LeadOwnsCombo` | src/games/tienlen/tienlen.service.ts:382-411 | at any point of any run the combo on the table is the latest play, is a combo, and the lead seat made it |
| `TienLenMoves.LeavingKeeps` | src/games/tienlen/tienlen.service.ts:531-545 | a player leaving in the middle of a trick leaves a table of the invariant, even when the turn lands on the lead or on a seat that has passed |
| `TienLenMoves.FreeSkipKeeps` | src/games/tienlen/tienlen.service.ts:653-658 | skipping an absent player's free lead hands lead and turn to the nearest other seat with cards and keeps the invariant |
| `TienLenFinish.FinalOrderIs` | src/games/tienlen/tienlen.service.ts:689-702 | the final order is: emptied hands in finishing order, the last card holder, then the resigned with the earliest last |
| `TienLenFinish.StandingPlacesAll` | src/games/tienlen/tienlen.service.ts:689-705 | that order names every seat exactly once |
| `TienLenFinish.FinishIsOver` | src/games/tienlen/tienlen.service.ts:681-708 | the end is only reached with one seat holding cards, and every seat gets its place |
| `TienLenFinish.PlayStep` | src/games/tienlen/tienlen.service.ts:382-411 | an accepted play leads to a reachable table, takes exactly the recognised cards and appends exactly that move |
| `TienLenFinish.LeaveStep` | src/games/tienlen/tienlen.service.ts:521-569 | a resignation or forfeit leads to a reachable table and drops exactly that hand |
| `TienLenTurns.PlayLaw` | src/games/tienlen/tienlen.service.ts:382-411 | what an accepted play does: exactly those cards leave that hand, the history gains that move, the combo is theirs, all passes are forgotten, the nearest other seat with cards is on turn; a hand emptied takes the next place; and if one seat is left with cards the game ends with the final order |
| `TienLenTurns.PassLaw` | src/games/tienlen/tienlen.service.ts:351-374 | a pass is accepted exactly from the player on turn with a combo to beat; the history gains a pass of that seat, who may still respond is everybody else who could, and the nearest of them is on turn; if nobody is left the trick is cleared and its owner leads, or the nearest seat with cards |
| `TienLenTurns.SkipLaw` | src/games/tienlen/tienlen.service.ts:647-661 | skipping an absent player in a live trick does exactly what a pass of theirs does |
| `TienLenTurns.ClockLaw` | src/games/tienlen/tienlen.service.ts:495-518 | when the clock runs out in a live trick the seat on turn passes, present or not; on a free lead a present player plays their lowest card alone and an absent one hands the lead to the nearest seat with cards |
| `TienLenTurns.DropLaw` | src/games/tienlen/tienlen.service.ts:585-611 | a lost connection marks that player away; if they were on turn it passes on, or hands the free lead on, and otherwise nothing else changes |
| `TienLenTurns.LeaveLaw` | src/games/tienlen/tienlen.service.ts:521-569 | a resignation, or a forfeit, drops exactly that hand; a trick they owned is cleared and led by the nearest seat with cards, a turn that was theirs goes to the nearest, and with one seat left the game ends with the resigned last |
| `TienLenTurns.ResignAcceptedIff` | src/games/tienlen/tienlen.service.ts:521-545 | a resignation is accepted exactly from a player of a running game who holds cards |
| `TienLenRuns.StepEffect` | src/games/tienlen/tienlen.service.ts:168-672 | every event on a reachable table leads to a reachable table, conserves cards, and lowers the measure (cards held, then who may still respond) unless it changes nothing of it |
| `TienLenRuns.ProgressIsBounded` | src/games/tienlen/tienlen.service.ts:168-672 | along every run the number of moves is bounded by the cards and seats at its start: no infinite game |
| `TienLenRuns.RunConservesCards` | src/games/tienlen/tienlen.service.ts:388-411 | along every run hands, history and dropped hands together are the cards at the start |
| `TienLenRuns.CardsStayDisjoint` | src/games/tienlen/tienlen.logic.ts:50-67 | from a deal on, no card is ever in two hands, or both held and played |
| `TienLenRuns.TimeoutIsAccepted` | src/games/tienlen/tienlen.service.ts:507-514 | the move the clock makes for a connected player is never refused |
| `TienLenRuns.TimeoutsFinishGame` | src/games/tienlen/tienlen.service.ts:495-518 | with everybody connected, clock-outs alone finish the game within a bound linear in cards held times seats |
| `TienLenGame.Game.constructor` | src/games/tienlen/tienlen.service.ts:64-121 | a game starts from any shuffle as a fair start: 13 cards each, lowest card leads, or the first dealt win has won |
| `TienLenGame.Game.CreateGame` | src/games/tienlen/tienlen.service.ts:68-71 | refused unless two to four players |
| `TienLenGame.Game.Play` | src/games/tienlen/tienlen.service.ts:168-262 | changes the fields exactly as the table function says, whose effect is `TienLenTurns.PlayLaw`; accepts exactly the legal plays, and keeps the game reachable |
| `TienLenGame.Game.Pass` | src/games/tienlen/tienlen.service.ts:351-374 | likewise for a pass, with the same four refusals |
| `TienLenGame.Game.Resign` | src/games/tienlen/tienlen.service.ts:521-556 | likewise for a resignation |
| `TienLenGame.Game.ForfeitDisconnected` | src/games/tienlen/tienlen.service.ts:614-644 | a forfeit does what a resignation would, or nothing |
| `TienLenGame.Game.OnDisconnect` | src/games/tienlen/tienlen.service.ts:585-611 | marks the player away and skips their turn, in place; the effect is `TienLenTurns.DropLaw` |
| `TienLenGame.Game.OnTimeout` | src/games/tienlen/tienlen.service.ts:495-518 | plays the lowest single on a free lead, passes otherwise, skips the absent, in place; the effect is `TienLenTurns.ClockLaw` |
| `TienLenGame.Game.EndGame` | src/games/tienlen/tienlen.service.ts:681-708 | writes the final order and every seat's place |
| `TienLenSettlement.AtMostOneRotten` | src/games/tienlen/tienlen.service.ts:713-729 | at most one player pays for twos: the last card holder, exactly when somebody else won and there are twos in that hand |
| `TienLenSettlement.RankedSettlement` | src/games/tienlen/tienlen.service.ts:731-749 | the rank points a ranked game reports add up to zero, and the winner's are strictly the most |
| `TienLenSettlement.RankedByPlayer` | src/games/tienlen/tienlen.service.ts:713-758 | player by player: the points reported are those of the place, plus or minus what the twos kept in the last hand move to the winner |
| `TienLenSettlement.InstantSettlement` | src/games/tienlen/tienlen.service.ts:857-869 | after a dealt win the points add up to the bonus; the others share one delta exactly when there are two players (the comment says they share last place) |
| `TienLenSettlement.WagerSettlement` | src/games/tienlen/tienlen.service.ts:759-776 | the settlement's coin changes add up to zero, and each is exactly what that player's balance gained by it, less the stake; chops, paid before, are not in them |
| `TienLenSettlement.WagerByPlayer` | src/games/tienlen/tienlen.service.ts:759-817 | player by player: the winner gets the pot less the own bet, everybody else loses the bet, and the last card holder pays the winner for all their twos, exactly if they have the coins |
| `TienLenSettlement.InstantWagerSettlement` | src/games/tienlen/tienlen.service.ts:877-893 | the same after a dealt win: the winner gains the others' bets, each of them loses one |
| `TienLenStakes.ReportIsTrueIff` | src/games/tienlen/tienlen.service.ts:275-349 | over every wager game, from before its stakes to after its settlement and whatever else moves balances meanwhile: a player gained what was reported plus their net chops, so the report is true exactly when their chops cancel out |
| `TienLenStakes.ChopsOfStep` | src/games/tienlen/tienlen.service.ts:199-240 | every event of a game records at most one chop, between two different players of the table |
| `TienLenStakes.ApplyChopPenalty` | src/games/tienlen/tienlen.service.ts:289-304 | the penalty in the wallet: the chop's price debited and then paid out, or nothing |
| `TienLenOneChop.OneChopMisleads` | src/games/tienlen/tienlen.service.ts:294-304 | from any two-player table with a two against a four, a game of three moves after which both reports are wrong by the price of the two |
| `TienLenOneChop.WrongReport` | src/games/tienlen/tienlen.service.ts:294-304 | such a game from a fair deal nobody wins at once: the victim ends five coins below what was reported |
| `TienLenSettlement.TransfersAreSidePayments` | src/games/tienlen/tienlen.service.ts:792-817 | the payments for twos are the ones the escrow accounts for |
| `TienLenSettlement.ChopMovesExactly` | src/games/tienlen/tienlen.service.ts:289-304 | in a wager game a chop moves its whole price from victim to chopper, or nothing if the victim cannot pay |
| `TienLenSettlement.RankedChanges` | src/games/tienlen/tienlen.service.ts:731-758 | the loops of the settlement compute those rank points |
| `RankPoints.AddAllTotal` | src/leveling/leveling.service.ts:110-126 | stored points grow by at least the sum of the changes, and by more exactly when somebody loses more than they have |
| `RankPoints.LevelingService.DoAddRankPoints` | src/leveling/leveling.service.ts:110-126 | the stored points in place, never below zero; nothing for no change or an unknown user |
| `RankPoints.OrderDoesNotMatter` | src/games/tienlen/tienlen.service.ts:749-758 | the changes of a game may be applied in any order |
| `RankPoints.TakenTotal` | src/games/tienlen/tienlen.service.ts:328-335 | in a ranked game a chop conserves stored points exactly when the victim has as many as it costs |
| `TienLenPoints.RankedPointsStored` | src/games/tienlen/tienlen.service.ts:731-758 | the end of a ranked game conserves all stored points together exactly when nobody loses more than they have; otherwise they grow |
| `TienLenPoints.EndByPlayer` | src/games/tienlen/tienlen.service.ts:731-758 | player by player: what is stored after a ranked game is what was stored plus the points of the place and of the twos, never below zero |
| `TienLenPoints.ChopByPlayer` | src/games/tienlen/tienlen.service.ts:321-335 | a chop in a ranked game gives the chopper the whole price, takes it from the victim down to zero, and touches nobody else |
| `TienLenPoints.NewcomersMakePoints` | src/games/tienlen/tienlen.service.ts:731-758 | among players without points every ranked game makes points, though its report adds up to zero |
| `TienLenPoints.InstantPointsStored` | src/games/tienlen/tienlen.service.ts:857-881 | a dealt win adds exactly its bonus to all stored points together if and only if nobody loses more than they have |
| `TienLenPoints.PointsConservedIff` | src/games/tienlen/tienlen.service.ts:275-349 | over every ranked game, chops included, all stored points together never shrink, and stay the same exactly when no chop and no result cost anybody more than they had |
| `TienLenSettlement.WagerChanges` | src/games/tienlen/tienlen.service.ts:759-817 | the loops of the settlement change the wallet and the reported changes as specified |
| `Ranking.PlacesCancel` | src/games/tienlen/tienlen.service.ts:732-738 | for two to four places and any whole spread, the rounded deltas cancel and the first is the largest |
| `Ranking.BetterPlaceEarnsMore` | src/games/tienlen/tienlen.service.ts:732-738 | a better place never earns less, and earns more when the spread is at least two |
| `Ranking.NearestScore` | src/games/tienlen/tienlen.service.ts:732-738 | the points of a place are its linear share of the spread, to the nearest whole number |
| `Wallet.LedgerAlwaysAccounts` | src/wallet/wallet.service.ts:83-182 | after any sequence of operations every balance is non-negative and is its start plus its transactions, and every recorded balance is the matching prefix sum |
| `Wallet.TransferMovesExactly` | src/wallet/wallet.service.ts:209-238 | a transfer succeeds exactly when it can be paid, and then moves exactly the amount between the two users |
| `Wallet.MovesExactly` | src/wallet/wallet.service.ts:83-182 | exactly when credits, debits and adjustments succeed, and that the balance of that user alone moves, by the amount and in its direction |
| `Wallet.WalletService.DoTransfer` | src/wallet/wallet.service.ts:209-238 | debit then credit; if the credit fails everything is as before |
| `Wallet.WalletService.DoDebit` | src/wallet/wallet.service.ts:134-182 | the guarded decrement and its transaction, or a refusal that changes nothing |
| `Wallet.WalletService.DoAdjust` | src/wallet/wallet.service.ts:315-323 | an adjustment is a credit or a debit by its sign; zero is refused |
| `Wallet.WagerService.RefundMany` | src/games/common/wager.service.ts:61-76 | refunds user after user, skipping those that fail |
| `Escrow.CoinsConservedIff` | src/games/common/rooms.service.ts:104-310 | over every run of room and game operations, whatever is in flight and whoever leaves: the coins missing at the end from balances plus everything held are exactly what the rooms cancelled or launched had in their pots beyond their members' bets, so coins are conserved exactly when none of them had more |
| `Escrow.PotsMatchIff` | src/games/common/rooms.service.ts:104-310 | along every run from matching pots, all open pots go on matching their members exactly when every leaver of a wager room had one entry in it |
| `Escrow.StepSoundIff` | src/games/common/rooms.service.ts:104-310 | the same for one step, which loses no coin either way |
| `Escrow.CoinsAreConserved` | src/games/common/rooms.service.ts:104-310 | hence, while leavers have one entry, balances plus everything held stay constant and every open pot is bet times members |
| `Escrow.SerialJoinsConserve` | src/games/common/rooms.service.ts:124-165 | the proviso holds whenever no user has two joins of one room in flight: then coins are conserved whatever else happens |
| `Escrow.LeaveExact` | src/games/common/rooms.service.ts:171-203 | a leave loses no coin by itself, but leaves in the pot the bets of all the leaver's entries except one; afterwards the pot matches the members exactly when there was one |
| `Escrow.DoubleJoinLosesAStake` | src/games/common/rooms.service.ts:124-216 | constructs a run of nine events in which a user joins twice at once and ten coins end up nowhere |
| `Escrow.EndJoinConserves` | src/games/common/rooms.service.ts:146-165 | committing or refunding a join, whatever happened to the room meanwhile, conserves coins |
| `Escrow.CancelLoses` | src/games/common/rooms.service.ts:206-217 | cancelling gives back every member's bet and loses exactly what the pot held beyond them |
| `Escrow.LaunchLoses` | src/games/tienlen/tienlen.service.ts:135-148 | the game's pot is its players' bets and its players the room's members; exactly what the room held beyond that is lost |
| `Escrow.FinishConserves` | src/games/tienlen/tienlen.service.ts:759-817 | the payout of a finished game with its payments for twos conserves coins, whatever they are; who gets them is `EscrowByPlayer.StepByPlayer` |
| `Escrow.DrawConserves` | src/games/caro/caro.service.ts:355-390 | a drawn game gives back exactly its pot |
| `Escrow.InstantLoses` | src/games/tienlen/tienlen.service.ts:135-148 | a dealt win, settled before its room is marked in progress, loses no more than any launch |
| `EscrowByPlayer.StepByPlayer` | src/games/common/rooms.service.ts:124-217 | one step of any room or game, player by player: what a player owns, in the wallet and at stake in rooms, joins and games, changes only by a game won, a chop, or leaving a room entered twice, and by exactly that much |
| `EscrowByPlayer.RunByPlayer` | src/games/common/rooms.service.ts:124-314 | over every run, each player owns what they started with plus exactly those gains and losses |
| `EscrowByPlayer.OnlyGamesMoveCoins` | src/games/common/rooms.service.ts:124-217 | joining, leaving, cancelling, starting and drawing leave everybody with what they had, as long as whoever leaves had entered once |
| `EscrowByPlayer.WinnerTakesPot` | src/games/tienlen/tienlen.service.ts:759-766 | balance by balance: a win without payments for twos adds the pot to the winner's balance and touches no other |
| `EscrowByPlayer.DealtWinnerTakesPot` | src/games/tienlen/tienlen.service.ts:135-148 | the same for a game decided by the deal, from its room's stakes |
| `RoomsRules.StatusChangesIff` | src/games/common/rooms.service.ts:206-314 | a room changes its status exactly in the listed cases: starting when its host asks with members enough and ready, in progress at a launch, back to waiting when the game refuses that number of players, closed by its host's leave while it waits or by the end of its game |
| `RoomsRules.MembersChangeOnlyBy` | src/games/common/rooms.service.ts:140-240 | the members change only by the end of a join while the room waits, which adds exactly that user, by a leave while it waits, which takes out exactly that user, and by a ready mark |
| `RoomsRules.JoinBeginsIff` | src/games/common/rooms.service.ts:124-139 | a join is let in exactly while the room waits and is not full, for somebody not in it who can pay the bet |
| `RoomsService.Lobby.TakeStake` | src/games/common/rooms.service.ts:124-139 | the first half of a join, in place |
| `RoomsService.Lobby.Enter` | src/games/common/rooms.service.ts:140-165 | the second half of a join, in place |
| `RoomsService.Lobby.DoLeave` | src/games/common/rooms.service.ts:171-203 | leaving, in place, with the host's leave cancelling the room |
| `RoomsService.Lobby.DoCancel` | src/games/common/rooms.service.ts:206-217 | closing the room and refunding everyone staked |
| `RoomsService.Lobby.DoBeginStart` | src/games/common/rooms.service.ts:242-273 | starting: host only, waiting, enough players, everyone ready |
| `RoomsService.Lobby.DoLaunchInstant` | src/games/tienlen/tienlen.service.ts:135-148 | settle, close, and only then mark in progress, in place; the balances it leaves are those of `EscrowByPlayer.DealtWinnerTakesPot` |
| `BombermanWorld.World.Detonate` | src/games/bomberman/bomberman.logic.ts:399-438 | a bomb and all it sets off: the recursion ends, and every condition of a sound explosion holds afterwards |
| `BombermanWorld.World.ExplodeDue` | src/games/bomberman/bomberman.logic.ts:459-468 | all due bombs go off and the detonated ones are removed; nothing happens when none is due |
| `BombermanTick.ExplosionIsExact` | src/games/bomberman/bomberman.logic.ts:399-438 | what that explosion comes to: each bomb at most once; all that were due; every other at the end of a chain of bombs, each on a cell the one before it lit, from one that was due; every lit cell reached with nothing in between; no remaining bomb on a lit cell; every ray lit as far as it was clear |
| `BombermanWorld.EveryArmIsExact` | src/games/bomberman/bomberman.logic.ts:416-438 | of the cells in range of an arm the explosion lit an unbroken stretch from the bomb on and none behind it; it ended at the range, before a wall, or with a brick that is gone |
| `BombermanWorld.EveryBrickEndsAnArm` | src/games/bomberman/bomberman.logic.ts:427-434 | every brick that went is the end of an arm of a detonated bomb, with nothing in between |
| `BombermanTick.ClearedIsSane` | src/games/bomberman/bomberman.logic.ts:459-468 | once detonated bombs are removed the world is sane again and no bomb left stands on a cell that was lit |
| `BombermanBlast.MarkKeeps` | src/games/bomberman/bomberman.logic.ts:399-405 | a bomb going off is counted once, and its owner's count stays the number of their live bombs |
| `BombermanBlast.BreakKeeps` | src/games/bomberman/bomberman.logic.ts:427-434 | a breaking brick opens its cell only, holds at most one power-up, and is reported once |
| `BombermanWorld.World.TickWorld` | src/games/bomberman/bomberman.logic.ts:452-503 | explosions, expiry, pick-ups and deaths, in that order, keeping the world sane |
| `BombermanMovement.MoveUnobstructed` | src/games/bomberman/bomberman.logic.ts:313-366 | every leg of a move of at most 0.8 tiles is straight, and the box touches no wall, brick or outside anywhere along it |
| `BombermanMovement.MoveKeeps` | src/games/bomberman/bomberman.logic.ts:313-366 | a move keeps the world sane: no clipping |
| `BombermanMovement.MovesAsAsked` | src/games/bomberman/bomberman.logic.ts:313-366 | in coordinates: a living player with a direction moves along x by speed times time in that direction, or not at all exactly when a wall, a brick or another bomb touches the box there; then towards the middle of the row; then the same along y; nobody else moves |
| `BombermanMovement.TileUnderfoot` | src/games/bomberman/bomberman.logic.ts:373-375 | the tile under a player's centre is always empty |
| `BombermanWorld.World.CollideAxis` | src/games/bomberman/bomberman.logic.ts:289-310 | the two loops over the box's tiles accept a position exactly when nothing there is solid for the player |
| `BombermanWorld.World.MovePlayer` | src/games/bomberman/bomberman.logic.ts:313-339 | moves a player in place by the steps whose coordinates `BombermanMovement.MovesAsAsked` gives |
| `BombermanTick.PlacedUnlessOccupied` | src/games/bomberman/bomberman.logic.ts:370-391 | a living player with bombs left is refused only by a bomb already under their feet |
| `BombermanTick.PlaceKeeps` | src/games/bomberman/bomberman.logic.ts:379-390 | a placed bomb is on an empty cell of its own and counted for its owner, within the limit |
| `BombermanTick.PlacedBombIs` | src/games/bomberman/bomberman.logic.ts:370-391 | a placed bomb lies on the tile under the player's centre, belongs to them, reaches as far as they do and is due exactly from its fuse on |
| `BombermanTick.PickUpTakesOne` | src/games/bomberman/bomberman.logic.ts:473-485 | a pick-up takes the one power-up on the player's tile and no other |
| `BombermanTick.NobodyLivesInFlames` | src/games/bomberman/bomberman.logic.ts:487-500 | after a tick nobody alive stands on fire |
| `BombermanTick.SettlePlayers` | src/games/bomberman/bomberman.logic.ts:470-503 | player by player: after a tick each has exactly the strength of the power-up they took, if any, and is alive exactly if they were and no flame still burning covers their tile |
| `BombermanTick.SettleLeaves` | src/games/bomberman/bomberman.logic.ts:470-485 | the flames left are exactly those not yet over, the power-ups left exactly those under nobody who was alive |
| `BombermanTick.KilledKeeps` | src/games/bomberman/bomberman.service.ts:153-161 | a death is appended to the death order once |
| `BombermanMaps.CreateState` | src/games/bomberman/bomberman.logic.ts:202-270 | on every map and whatever the bricks, players start in different open corners of a sane world |
| `BombermanMaps.CornersHaveRoom` | src/games/bomberman/bomberman.logic.ts:202-232 | no brick is placed on a starting corner or next to it |
| `BombermanMaps.CornersApart` | src/games/bomberman/bomberman.logic.ts:188-200 | on every map the four corners are different and at least eight tiles apart |
| `BombermanMatch.RankingPlacesAll` | src/games/bomberman/bomberman.logic.ts:520-526 | survivors then the dead from the latest: every player exactly once |
| `BombermanMatch.LaterDeathsPlaceBetter` | src/games/bomberman/bomberman.logic.ts:516-531 | survivors are ahead of the dead, later deaths ahead of earlier |
| `BombermanMatch.SurvivorsBySeat` | src/games/bomberman/bomberman.logic.ts:520-526 | survivors are placed in seat order |
| `BombermanMatch.PlacesAreBijective` | src/games/bomberman/bomberman.logic.ts:520-531 | places are a bijection onto 1 to n; the fallback for a missing seat is never used |
| `BombermanMatch.MatchPointsCancel` | src/games/bomberman/bomberman.service.ts:286-287 | the rank points a match reports add up to zero and the first place's are the most |
| `BombermanMatch.MatchPointsStored` | src/games/bomberman/bomberman.service.ts:285-292 | all stored points together never shrink by a match, and stay the same exactly when nobody loses more than they have |
| `BombermanMatch.MatchPointsByPlace` | src/games/bomberman/bomberman.service.ts:286-292 | every player gets the points of their place |
| `BombermanMatch.Match.Tick` | src/games/bomberman/bomberman.service.ts:164-199 | one tick; the match is over exactly when at most one player lives or the time is up |
| `BombermanMatch.EveryoneMoves` | src/games/bomberman/bomberman.service.ts:164-180 | the players' moves of one tick do not depend on each other: each moves as if alone |
| `BombermanMatch.Match.SetInput` | src/games/bomberman/bomberman.service.ts:130-139 | only the living player's own direction changes, cut down to -1, 0 or 1 |
| `BombermanMatch.Match.PlaceBomb` | src/games/bomberman/bomberman.service.ts:141-150 | a bomb is placed exactly when the match runs and the player may |
| `BombermanMatch.Match.KillPlayer` | src/games/bomberman/bomberman.service.ts:153-161 | a player who leaves a running match is dead and, if alive before, last in the death order; nobody else changes |
| `BombermanMatch.Match.Placements` | src/games/bomberman/bomberman.logic.ts:520-531 | the loops fill the places of the ranking |
| `CaroLogic.IncrementalCheckExact` | src/games/caro/caro.logic.ts:53-89 | on a board without five in a row the check around the new stone agrees with a search of the whole board, and the other side cannot have won |
| `CaroLogic.FindLineExact` | src/games/caro/caro.logic.ts:57-89 | a line is reported exactly when five pass through the stone; it is five to nine neighbouring cells, all of that mark, through it |
| `CaroLogic.FindWinningLine` | src/games/caro/caro.logic.ts:57-89 | the loops that grow a list of cells compute that check |
| `CaroLogic.ApplyMove` | src/games/caro/caro.logic.ts:36-51 | a move writes one cell of the array and reports win, draw or neither, or refuses and writes nothing |
| `CaroGame.EveryRunIsValid` | src/games/caro/caro.service.ts:183-296 | along every run the board is the replay of alternating fair moves, running games are winless, finished ones ended for the reason they say; never more than 225 moves |
| `CaroGame.EveryEndIsFair` | src/games/caro/caro.service.ts:183-296 | along every run, the event that ends a game decides it: a move wins for the mover or draws, and who resigns, stays away or lets the clock run out on their turn loses to the other player |
| `CaroGame.EndingIs` | src/games/caro/caro.service.ts:231-296 | the same for one event on a running game, whatever led to it |
| `CaroGame.MoveAcceptedIff` | src/games/caro/caro.service.ts:183-200 | a move is accepted exactly from the player whose mark is next, on an empty cell of the board of a running game |
| `CaroGame.MoveKeeps` | src/games/caro/caro.service.ts:183-228 | a move ends the game by a win exactly when the mover has five in a row, and then the mover has won |
| `CaroGame.OneStonePerMove` | src/games/caro/caro.service.ts:200-202 | as many stones as moves, hence at most 225 |
| `CaroGame.Game.PlayMove` | src/games/caro/caro.service.ts:183-228 | the move in place, with its four refusals |
| `CaroGame.Game.OnTurnTimeout` | src/games/caro/caro.service.ts:287-296 | the player to move loses to the other one, in place |
| `MatchQueues.EntriesAreConsumedOnce` | src/games/bomberman/bomberman-matchmaking.service.ts:26-105 | in every interleaving of joining, leaving, deciding, claiming and cleaning up, joins and leaves even command by command, no queue entry is part of two matches |
| `MatchQueues.MatchesAreClosest` | src/games/caro/caro-matchmaking.service.ts:65-105 | every match of every run, pair or group, is closest to the rank points its caller was queued with, among what the queue held at that point of the run (for Caro, which reads twice, at that point or later) |
| `MatchQueues.JoinQueues` | src/games/bomberman/bomberman-matchmaking.service.ts:26-46 | after a join the user waits at that table alone, with those rank points, and the hash names it |
| `MatchQueues.OneTableIff` | src/games/bomberman/bomberman-matchmaking.service.ts:26-46 | a step puts a player at two tables exactly when it is the last command of a join whose user has got to another table meanwhile |
| `MatchQueues.KnownIff` | src/games/bomberman/bomberman-matchmaking.service.ts:36-46 | a step makes the hash forget a waiting player exactly when it deletes the entry of a user who is at a table then |
| `MatchQueues.AlwaysKnownIff` | src/games/bomberman/bomberman-matchmaking.service.ts:26-105 | a run keeps everybody at one table and every waiting player in the hash exactly when none of its steps does either |
| `MatchQueues.TwoJoinsAtOnce` | src/games/bomberman/bomberman-matchmaking.service.ts:26-46 | a run of two joins at once after which one user waits at two tables |
| `MatchQueues.ClaimKeeps` | src/games/caro/caro-matchmaking.service.ts:88-104 | a claim forms one match of all the players it names, or changes nothing |
| `MatchQueues.LateCleanUpForgets` | src/games/bomberman/bomberman-matchmaking.service.ts:93-104 | a run after which a waiting player is unknown to the hash |
| `MatchQueues.Store.EvalClaim` | src/games/bomberman/bomberman-matchmaking.service.ts:94-102 | the claim script: look everyone up, then remove everyone |
| `Matchmaking.PickNearest` | src/games/caro/caro-matchmaking.service.ts:71-85 | the loop finds the nearest other player in rank points, the first of equals |
| `Matchmaking.ChosenAreClosest` | src/games/bomberman/bomberman-matchmaking.service.ts:81-92 | the chosen group has the table's size, no repeats, and nobody outside it is closer than anybody in it |
| `Matchmaking.CallerChosenIff` | src/games/bomberman/bomberman-matchmaking.service.ts:87-92 | the caller is in their own group exactly when fewer than the table's size of players of exactly their rank are listed before them (the comment says always) |
| `Matchmaking.CallerLeftOut` | src/games/bomberman/bomberman-matchmaking.service.ts:87-92 | three equals and a table of two: the last one's call matches the other two |
| `Servers.EveryRunIsSound` | src/servers/servers.service.ts:230-560 | along every run each server has exactly one OWNER, its recorded owner, and nobody is both banned and a member |
| `Servers.NobodyReachesUp` | src/servers/servers.service.ts:385-547 | nobody but the owner can change, remove or ban anyone at or above their own role |
| `Servers.OwnershipMovesOnlyByOwner` | src/servers/servers.service.ts:444-488 | the owner changes only when they hand over or delete the server |
| `Servers.BannedStayOut` | src/servers/servers.service.ts:322-343 | a banned user stays out until an admin or the owner lifts the ban |
| `Servers.BanExact` | src/servers/servers.service.ts:491-547 | a ban succeeds exactly for a manager of another server than the default one, over somebody else who ranks below them or is no member; its target is then out and on record and nobody else is touched |
| `Servers.ServersService.DoBan` | src/servers/servers.service.ts:491-547 | the ban in place, with all its refusals |
| `Servers.ServersService.DoTransfer` | src/servers/servers.service.ts:444-488 | handing over in place |
| `VoicePresence.KeysAlwaysAgree` | src/voice-gateway/voice-presence.service.ts:54-153 | along every run a user is in a channel's member set exactly when they have a socket there, a pointer names a channel the user is in, and no limit is exceeded |
| `VoicePresence.JoinKeeps` | src/voice-gateway/voice-presence.service.ts:54-100 | a join is refused exactly by a full channel and then changes nothing; otherwise it reports new members exactly |
| `VoicePresence.RemoveSocketKeeps` | src/voice-gateway/voice-presence.service.ts:107-142 | a user leaves exactly with their last socket |
| `VoicePresence.ReportIsTrueIff` | src/voice-gateway/voice-presence.service.ts:107-142 | the report that a user left is true exactly when they were in the channel |
| `VoicePresence.UnknownSocketReportsLeaving` | src/voice-gateway/voice-presence.service.ts:107-142 | removing a socket of somebody who is not there is reported as that user leaving, and changes no membership |

## Left out

- Web sockets, controllers, guards, broadcasts, views, history and REST reads: no state of their own.
- Database and Redis mechanics: each operation, script or multi command is one atomic step; only the two halves of a room join, and the commands of joining and leaving, deciding, claiming and cleaning up in matchmaking, are interleaved.
- Timers and the wall clock: each firing is an event that may come at any time; the Bomberman clock only never runs backwards.
- Randomness: shuffles, brick placing and power-up drops are arbitrary choices, so nothing is said about likelihoods.
- Object identity in the wallet, rooms, servers and voice services: records are values in maps that the methods reassign, so aliasing between documents is not modelled. Bomberman players and bombs, and Tien Len seats, are values in sequences in the same way; bombs are told apart by their cells, which are distinct.
- Floating point: Bomberman positions and point scores are exact reals, so accumulated rounding is not modelled.
- User ids within a game are different, and every player of a wager game has a wallet.
- Caro rating (`elo.util.ts`): rests on real powers. The rank points of a Caro game are therefore not modelled.
- Tiers, divisions and promotions derived from rank points, level formulas, challenges, notifications, messages, friends, channels, uploads, encryption: single guarded updates or foreign libraries.
- Tien Len matchmaking: one atomic script with nothing between its steps.
- Room capacity with joins in flight: the commit only checks that the room still waits, so the limit on members is checked when a join begins and not claimed afterwards. That the host is a member is not claimed either, since creation leaves the room when the host's own join fails.
- Matches created without a room (quick play, challenges) are not part of the escrow.
- Bets are whole numbers: the rounding down of a fractional bet happens before the model.
- Bomberman coins: the payout of a wager match is the one of `Rooms.FinishMatch`; its reported coin changes are not modelled separately.
- Independence of the order in which bombs explode: not claimed, because a brick cleared by one explosion opens the way for a ray still running.
- A user in at most one voice channel: not kept by the code with several sockets, and not claimed.
- Microphone state: only its removal with the membership is modelled.
- Server names, icons, nicknames, member lists and announcements: no effect on roles or bans.
- Servers.ServersService.constructor: starts with the default server only; choosing and bootstrapping it from configuration is not modelled.
