# The points economy of the POTG backend, in Dafny

POTG runs in-house tournaments around one currency, points. Four parts of its backend move points or
decide who may: the live auction in which captains buy players, the parimutuel betting desk driven by
match states, the double-entry ledger under everything, and the shop with its orders, coupons and
refunds, together with the reward paid to everyone in a finished auction. This project models the four
and proves what they keep over unbounded runs.

| file | content |
|---|---|
| `Common.dfy`, `Sums.dfy` | options, results, filters, and sums of a measure over the rows of a table |
| `Ledger.dfy`, `LedgerEngine.dfy`, `LedgerInterleaving.dfy` | the ledger, its service object, and transfers as interleaved database transactions |
| `Auction.dfy`, `AuctionInvariant.dfy`, `AuctionTheorems.dfy`, `AuctionOperations.dfy`, `AuctionEngine.dfy` | one auction room: the state machine, its invariant, what follows, what each request answers and changes, and the services that update it in place |
| `RoomState.dfy` | the view of a room that clients see |
| `Betting.dfy`, `BettingInvariant.dfy`, `BettingTheorems.dfy`, `BettingOrder.dfy`, `BettingOperations.dfy`, `BettingDesk.dfy` | matches, markets and stakes over the ledger, and their independence of the order in which the database lists rows |
| `Shop.dfy`, `ShopInvariant.dfy`, `ShopTheorems.dfy`, `ShopOperations.dfy`, `ShopEngine.dfy` | products, orders and coupons over the ledger |
| `Keys.dfy`, `Payout.dfy`, `PayoutTheorems.dfy`, `PayoutEngine.dfy` | exactly-once rewards, idempotency keys and the page that reads them |
| `Economy.dfy` | all components over one ledger |

How it is built. Each component has a specification: a datatype for its tables, a `Step` for each kind
of request, and `Apply`, which gives the state and answer, or the error, the code gives. `After` is the
state a request leaves, with a refused request rolled back, and `Run` folds it over any sequence of
requests. An invariant is proved for every step and therefore for every run; the theorems speak of
`Reachable` states. Beside each specification stands a class with the services' own fields, loops and
order of writes; each method is proved to leave `After(old(Snapshot()), step)` and to return the
specified answer. A failing method leaves partial writes behind until it calls `Rollback` or `Restore`,
as the database transaction does. Methods of the auction room that only check a guard and set a
field or two are proved in the same way; the effect has its row under `AuctionOperations`.

Three files say of each request, in terms of the tables alone, exactly when it is accepted and what every row
is afterwards: `AuctionOperations`, `BettingOperations` and `ShopOperations`; `Ledger` does so for transfers.

Sums are written once, as `Sum(measure, rows)`: what a captain holds in active bids, what a user burned
for a market, how many coupons a buyer has. Most invariants equate two such sums over different tables.

Guards are those of the code and no stronger: bids do not look at the phase, confirmation does not look
at the status, `selectPlayer` may switch targets in mid-bidding, next-player and assignment leave bids
alive, joining works in any status, and markets may be opened under finished matches.

Modelling choices.

- User ids are strings. Ids that the database generates for matches, markets, orders and products are
  row positions. Auction ids of the reward component are strings of hexadecimal digits and dashes.
- `startingPoints` is not validated by `updateAuctionSettings`, so it may be negative. Solvency of
  captains is proved to hold exactly when it is not, and a run in which it is negative is given.
- In the runs of one component, every other transfer on the ledger is a step of its own, whatever its
  parties, reason, reference and key, but for those that only the component itself writes: references to
  markets, references to orders, and keyed rewards. `Economy` puts the components together and proves
  that these steps are enough.
- `rakeBps` is only bounded below. Division truncates towards zero as in the source; the bounds on
  payouts are proved under the exact condition that the rounded rake fits the pool, and a run that
  violates it is given.
- No query for markets or stake rows is ordered, so each order is a parameter of the step: an enumeration
  of a market's rows, or a tour of a match's markets with the rows of each. `BettingOrder` proves that the
  choice makes no difference but in the order of the log.
- The coupons a cancellation takes back are an arbitrary selection of the right size.
- The names Closed, Paid and Void stand for LOCKED, SETTLED and CANCELLED markets.

Where comments and code disagree, the code is followed. The comment at
backend/src/modules/betting/betting.service.ts:44 asks for a LOCKED match before settling; the code
checks only the market. The comments at lines 38-39 and 238-240 of the same file speak of burning rake
and dust at settlement; the code burns nothing there, since stakes were burned on entry, and only the
winners' shares are minted.

## Model

| member | source | states |
|---|---|---|
| `AuctionTheorems.CaptainsAreSolvent` | backend/src/modules/auctions/services/auctions-bidding.service.ts:93-370 | On every run points plus what the team cost equal the starting points. A captain's points cover all of his active bids together, stale ones included, if and only if the starting points are not negative, and the same condition decides whether they are below zero; with negative ones he holds no bid and has bought nobody. |
| `AuctionTheorems.NegativePointsAreReachable` | backend/src/modules/auctions/auctions.service.ts:289-296 | A concrete run in which the unchecked settings leave a captain at -5 points with no bids, below the 0 points held. |
| `AuctionTheorems.PlayerUpIsFree` | backend/src/modules/auctions/services/auctions-bidding.service.ts:191-219 | Whenever a player is up and the phase is not SOLD, that player is registered as PLAYER and unassigned, so the "already assigned" branches of confirm and timeout are unreachable. |
| `AuctionTheorems.SaleChargesTheWinner` | backend/src/modules/auctions/services/auctions-bidding.service.ts:182-259 | A confirmed sale, by master or timer, moves the player to the highest active bidder for exactly the bid, which the bidder can afford, retires every bid on the player and changes no other participant. |
| `AuctionTheorems.HighestIsUnique` | backend/src/modules/auctions/services/auctions-bidding.service.ts:195-205 | Ties cannot occur: any bid that no other active bid on the player exceeds is the same one, so the unstable database order does not matter. |
| `AuctionTheorems.AcceptedBidLeads` | backend/src/modules/auctions/services/auctions-bidding.service.ts:93-180 | An accepted bid is the one highest bid, is the only live bid of its bidder there, ties up exactly its amount beside the bids on other players, and changes nobody else's commitments. |
| `AuctionTheorems.OneSalePerSelection` | backend/src/modules/auctions/services/auctions-bidding.service.ts:182-370 | In any sequence of requests without selectPlayer at most one sale happens, and none when nobody is up or the player up is already sold. |
| `AuctionTheorems.TimerRefinesConfirmation` | backend/src/modules/auctions/services/auctions-bidding.service.ts:290-370 | In an ongoing room timeout sells exactly when the master's confirmation would, with identical participants and bids; after that any number of confirmations and timeouts changes nothing. |
| `AuctionTheorems.UndoReversesSale` | backend/src/modules/auctions/auctions.service.ts:590-625 | Undo right after a sale is accepted and restores every participant exactly. |
| `AuctionTheorems.ResetForgetsTheRun` | backend/src/modules/auctions/auctions.service.ts:405-450 | From any reachable ONGOING, PAUSED or ASSIGNING room, reset leaves a state that depends only on the roster and the settings. |
| `AuctionTheorems.ReachableIsInv` | backend/src/modules/auctions/auctions.service.ts:95-705 | The invariant holds in every state that any sequence of the modelled requests reaches. |
| `AuctionOperations.OnlyTheMaster` | backend/src/modules/auctions/services/auctions-bidding.service.ts:42-57 | Every request but joining, bidding and the timer is refused to anyone but the creator and then changes nothing. |
| `AuctionOperations.SelectionAnswer` | backend/src/modules/auctions/services/auctions-bidding.service.ts:59-91 | A player can be put up exactly in an ongoing room and while on no team; only selection and phase change. |
| `AuctionOperations.BidAnswer` | backend/src/modules/auctions/services/auctions-bidding.service.ts:93-152 | A bid is accepted if and only if the room is ongoing, the target is up, the bidder is a captain, the amount is at least 1 and above every live bid on the target, and the points cover it beside the bids on other players; a refused bid changes nothing. |
| `AuctionOperations.BidRefusal` | backend/src/modules/auctions/services/auctions-bidding.service.ts:93-152 | Each refusal names its true reason; a bid that is too low is told exactly the least amount that is enough. |
| `AuctionOperations.BidEffect` | backend/src/modules/auctions/services/auctions-bidding.service.ts:154-180 | An accepted bid switches off the bidder's own bids on the target, appends the new one and touches nothing else. |
| `AuctionOperations.MasterSells` | backend/src/modules/auctions/services/auctions-bidding.service.ts:182-259 | The master sells, in every status, exactly when a player is up, not sold, and has a live bid; the phase becomes SOLD, the player stays selected, and exactly the bids on the player are retired. Without a bid the call fails; otherwise it does nothing. |
| `AuctionOperations.TimerSells` | backend/src/modules/auctions/services/auctions-bidding.service.ts:290-370 | The timer sells exactly then in an ongoing room, ends the selection and leaves the phase; without a bid it only ends the selection. |
| `AuctionOperations.PassAnswer` | backend/src/modules/auctions/services/auctions-bidding.service.ts:261-288 | Passing retires exactly the bids on the player up and ends the selection, so each captain has tied up just what was bid elsewhere. |
| `AuctionOperations.JoinAnswer` | backend/src/modules/auctions/auctions.service.ts:95-111 | Anyone without a row can join, in any status and role; captains start with the starting points. |
| `AuctionOperations.AddPlayerAnswer` | backend/src/modules/auctions/auctions.service.ts:116-139 | During setup the master can add exactly users without a row. |
| `AuctionOperations.AddPlayersAnswer` | backend/src/modules/auctions/auctions.service.ts:142-169 | A list adds each user without a row once, in the order of first mention, and the answer names those users. |
| `AuctionOperations.RemovalAnswer` | backend/src/modules/auctions/auctions.service.ts:172-265 | Removal takes out the one row of the user, or of the captain, during setup only. |
| `AuctionOperations.AddCaptainAnswer` | backend/src/modules/auctions/auctions.service.ts:198-240 | A captain is added, or a player made one, exactly during setup while there are fewer captains than teams; spectators and captains are refused. |
| `AuctionOperations.SettingsAnswer` | backend/src/modules/auctions/auctions.service.ts:268-301 | Settings change during setup only; new starting points go to every captain and to nobody else. |
| `AuctionOperations.StatusMovesOnlySo` | backend/src/modules/auctions/auctions.service.ts:352-663 | No request moves the status but along the listed moves. |
| `AuctionOperations.LifeCycleAnswer` | backend/src/modules/auctions/auctions.service.ts:352-533 | Start, complete, pause and resume are accepted exactly where they have a move, and change only the status. |
| `AuctionOperations.MovingOnAnswer` | backend/src/modules/auctions/auctions.service.ts:627-663 | Next player and assignment phase are never refused, clear the selection and keep every row and bid. |
| `AuctionOperations.UndoAnswer` | backend/src/modules/auctions/auctions.service.ts:590-625 | Undo is accepted, in any status, exactly for a player on a team. |
| `AuctionOperations.UndoEffect` | backend/src/modules/auctions/auctions.service.ts:590-625 | It frees the player and gives the captain back what was paid; no other row changes. |
| `AuctionOperations.AssignAnswer` | backend/src/modules/auctions/auctions.service.ts:665-705 | A free player can be put on a registered captain's team in the assignment phase only, at no price and marked; no other row changes. |
| `AuctionInvariant.BidKeepsMoney` | backend/src/modules/auctions/services/auctions-bidding.service.ts:93-180 | An accepted bid keeps the whole invariant, although the phase is not checked. |
| `AuctionInvariant.SaleIsTeamChange` | backend/src/modules/auctions/services/auctions-bidding.service.ts:213-246 | A sale of the player up changes exactly two rows, the player's and the bidder's, and what one gains the other pays. |
| `AuctionInvariant.SaleKeepsMoney` | backend/src/modules/auctions/services/auctions-bidding.service.ts:213-246 | A sale keeps conservation, solvency and the strictly rising bids. |
| `AuctionInvariant.UndoIsTeamChange` | backend/src/modules/auctions/auctions.service.ts:590-625 | An accepted undo is the inverse two-row change: player freed, captain refunded what was paid. |
| `AuctionInvariant.UndoKeepsInv` | backend/src/modules/auctions/auctions.service.ts:590-625 | Undo keeps the invariant, also for manually assigned players that cost nothing. |
| `AuctionInvariant.EnrollKeepsInv` | backend/src/modules/auctions/auctions.service.ts:142-169 | Adding a list of players, duplicates included, keeps the invariant. |
| `AuctionInvariant.AddCaptainKeepsInv` | backend/src/modules/auctions/auctions.service.ts:198-240 | Promoting a player or adding a captain during setup keeps conservation. |
| `AuctionInvariant.SettingsKeepInv` | backend/src/modules/auctions/auctions.service.ts:268-301 | Rewriting the starting points during setup keeps conservation. |
| `AuctionInvariant.AssignKeepsInv` | backend/src/modules/auctions/auctions.service.ts:665-705 | Manual assignment, which costs nothing, keeps conservation and solvency. |
| `AuctionInvariant.ResetKeepsInv` | backend/src/modules/auctions/auctions.service.ts:405-450 | Reset re-establishes the invariant from any state in which it held. |
| `AuctionInvariant.SelectKeepsInv` | backend/src/modules/auctions/services/auctions-bidding.service.ts:59-91 | Switching the target while bids on the old player stay alive keeps the invariant. |
| `AuctionInvariant.StepKeepsInv` | backend/src/modules/auctions/services/auctions-bidding.service.ts:59-370 | Every request, accepted or refused, keeps the invariant. |
| `AuctionEngine.AuctionRoom.PlaceBid` | backend/src/modules/auctions/services/auctions-bidding.service.ts:93-180 | The whole room and answer after a bid: the bidder's earlier bids on the player are retired and the new bid appended; a refusal changes nothing. |
| `AuctionEngine.AuctionRoom.SettleSale` | backend/src/modules/auctions/services/auctions-bidding.service.ts:213-246 | The two participant rows and the bids after a sale, as both sale paths write them. |
| `AuctionEngine.AuctionRoom.ConfirmCurrentBid` | backend/src/modules/auctions/services/auctions-bidding.service.ts:182-259 | The master's sale, whatever the status, leaves the phase SOLD. |
| `AuctionEngine.AuctionRoom.AutoConfirmOnTimeout` | backend/src/modules/auctions/services/auctions-bidding.service.ts:290-370 | The timer's sale clears the selection and leaves the phase as it was. |
| `AuctionEngine.AuctionRoom.CheckAutoConfirm` | backend/src/modules/auctions/services/auctions-bidding.service.ts:372-440 | In every reachable room the answer is yes exactly when the player up has a leading bid and nobody else has any integer amount that `BidAnswer` says would be accepted; in any room a yes is right. |
| `AuctionEngine.AuctionRoom.AddPlayers` | backend/src/modules/auctions/auctions.service.ts:142-169 | The loop registers exactly the users that have no row yet, in order, and returns them. |
| `AuctionEngine.AuctionRoom.ResetAuction` | backend/src/modules/auctions/auctions.service.ts:405-450 | The loop over participants clears every row and the bids. |
| `RoomState.ScreenShowsHighestBid` | backend/src/modules/auctions/services/auctions-room-state.service.ts:123-146 | The head of the sorted list of live bids is the engine's highest bid. |
| `RoomState.ScreenShowsWhatASaleCharges` | backend/src/modules/auctions/services/auctions-room-state.service.ts:123-161 | In every reachable room the bid and player on screen are exactly what a sale in that state charges, and to whom. |
| `RoomState.TeamsAddUp` | backend/src/modules/auctions/services/auctions-room-state.service.ts:101-121 | On every team shown, points left plus member prices equal the starting points. |
| `RoomState.PlayersArePartitioned` | backend/src/modules/auctions/services/auctions-room-state.service.ts:101-171 | The users on the teams shown and the unsold users together are all PLAYERs, each exactly once. |
| `RoomState.TeamsAreTheCaptains` | backend/src/modules/auctions/services/auctions-room-state.service.ts:101-161 | Every captain leads exactly one team shown, with the points left, and the player shown is the one up. |
| `RoomState.ShownAsBought` | backend/src/modules/auctions/services/auctions-room-state.service.ts:103-120 | A team shown holds exactly the rows of its captain's players, with price and mark. |
| `RoomState.ShownWhereAssigned` | backend/src/modules/auctions/services/auctions-room-state.service.ts:101-171 | A player is shown on the team of exactly the captain of the player's row, and as unsold exactly without one. |
| `BettingTheorems.MarketAccounts` | backend/src/modules/betting/betting.service.ts:148-386 | For a market's whole life, per user and in total: stake burns equal the stake rows and the pool; what is minted equals what the rows record as paid back, which is nothing while OPEN or LOCKED, exactly the stakes when CANCELLED, and when SETTLED the user's floor shares of the winning rows, in all at most the pool. |
| `BettingTheorems.SettlementRounding` | backend/src/modules/betting/betting.service.ts:258-313 | A settlement pays at most the pool after rake and loses less than one point per winning row, for any number of rows and every rake that fits the pool, in particular up to 100%; without winners it pays nothing. |
| `BettingTheorems.PaidWithinPrizeIff` | backend/src/modules/betting/betting.service.ts:258-309 | For every rake: the payout stays within what the rake leaves if and only if the rounded rake does not exceed the pool; otherwise nobody is paid. |
| `BettingTheorems.PrizeIsNegativeIff` | backend/src/modules/betting/betting.service.ts:258-261 | The pool after rake is negative exactly when rakeBps is so high that the rounded rake exceeds the pool; never up to 10000. |
| `BettingTheorems.RakeAboveThePoolIsReachable` | backend/src/modules/betting/dto/betting.dto.ts:19-23 | A concrete run in which the unchecked rake of 20000 makes the pool after rake -1, below the 0 points paid. |
| `BettingTheorems.NoStrandedStakes` | backend/src/modules/matches/match.service.ts:213-356 | On every run that mixes match steps with direct market steps and any other transfers, in any database order: an OPEN market whose match takes no bets is empty; a SETTLED or CANCELLED match has no undecided stake. |
| `BettingTheorems.LockedMarketCanBeSettled` | backend/src/modules/betting/betting.service.ts:242-256 | Settling is accepted exactly for LOCKED markets: no payout can fail. |
| `BettingTheorems.UnsettledMarketCanBeCancelled` | backend/src/modules/betting/betting.service.ts:339-386 | Cancelling is accepted exactly for markets that are not SETTLED: no refund can fail. |
| `BettingTheorems.MatchCanBeSettled` | backend/src/modules/matches/match.service.ts:237-325 | Settling a match is accepted exactly when it is LOCKED, the winner is one of its teams, the placements are valid, and they are given if one of its LOCKED markets is a RANK market. |
| `BettingTheorems.MatchCanBeCancelled` | backend/src/modules/matches/match.service.ts:334-356 | A match can be cancelled exactly until it is SETTLED or CANCELLED. |
| `BettingOrder.SettlementIgnoresOrder` | backend/src/modules/betting/betting.service.ts:263-309 | Any two enumeration orders of the stake rows give the same answer and summary, the same balances, rows and markets, and the same log as a multiset. |
| `BettingOrder.CancellationIgnoresOrder` | backend/src/modules/betting/betting.service.ts:355-380 | The same for cancelling a market. |
| `BettingOrder.MatchSettlementIgnoresOrder` | backend/src/modules/matches/match.service.ts:282-325 | In whatever order the database lists the markets of a match and the rows of each: same acceptance and error, balances, rows, markets and teams, and the same log and list of settlements as multisets. |
| `BettingOrder.MatchCancellationIgnoresOrder` | backend/src/modules/matches/match.service.ts:341-350 | The same for cancelling a match. |
| `BettingOrder.SettledTour` | backend/src/modules/matches/match.service.ts:282-325 | In one go what the market loop leaves: each market, row, payment and report is a function of the book before the loop, unaffected by the markets visited earlier. |
| `BettingOrder.CancelledTour` | backend/src/modules/matches/match.service.ts:341-350 | The same for the loop of cancellations. |
| `BettingTheorems.MergingIsFair` | backend/src/modules/betting/betting.service.ts:181-200 | For every rake, the merged row of a winner is paid at least what the same bets would have been paid in rows of their own, and at most one point more per bet merged away. |
| `BettingTheorems.FloorOfSum` | backend/src/modules/betting/betting.service.ts:285 | Flooring once instead of twice gains at most one point. |
| `BettingTheorems.ReachableIsInv` | backend/src/modules/matches/match.service.ts:71-356 | The betting invariant holds on every run. |
| `BettingOperations.CreateMarketAnswer` | backend/src/modules/betting/betting.service.ts:63-92 | A market is opened, empty and with rake 500 unless given, in any match without one of its type, whatever the match's status. |
| `BettingOperations.SetupAnswer` | backend/src/modules/matches/match.service.ts:71-152 | When matches and teams are created and betting is opened, and what that changes. |
| `BettingOperations.ScenarioAnswer` | backend/src/modules/matches/match.service.ts:160-211 | A scenario is an open match with its teams and one market, exactly under a title with two options or more; otherwise nothing changes. |
| `BettingOperations.SideForms` | backend/src/modules/betting/betting.service.ts:436-451 | WIN markets take 36 characters with dashes in place, RANK markets exactly the four ranks. |
| `BettingOperations.StakeAnswer` | backend/src/modules/betting/betting.service.ts:148-180 | A stake is taken if and only if it is positive, market and match are open, the side has the right form and the user can pay. |
| `BettingOperations.StakeEffect` | backend/src/modules/betting/betting.service.ts:181-209 | It costs the user the amount, adds it to the pool and to the one row of market, user and side, or to a new row, and changes nothing else. |
| `BettingOperations.LockMarketAnswer` | backend/src/modules/betting/betting.service.ts:214-231 | An open market is locked, a locked one stays, any other is refused. |
| `BettingOperations.LockMatchAnswer` | backend/src/modules/matches/match.service.ts:213-229 | A match is locked from BETTING_OPEN only, with exactly its own open markets; all else stays. |
| `BettingOperations.PrizeIsPoolWithoutRake` | backend/src/modules/betting/betting.service.ts:258-261 | The prize is the pool without the rake, the rake the given share of the pool rounded down. |
| `BettingOperations.SettleMarketEffect` | backend/src/modules/betting/betting.service.ts:258-334 | Each row on the option is WON with its share of the prize rounded towards zero, each other row LOST with 0; what is minted, per user, is what the rows record; every other market and row stays. |
| `BettingOperations.SettleMarketSummary` | backend/src/modules/betting/betting.service.ts:316-330 | The summary has the pool, the rake, the winning points, the numbers of winning and losing rows, and what was paid. |
| `BettingOperations.CancelMarketEffect` | backend/src/modules/betting/betting.service.ts:339-386 | Each row is refunded in full, per user and in the log; every other market and row stays; the answer has the sum and the number of rows. |
| `BettingOperations.CancellingAgain` | backend/src/modules/betting/betting.service.ts:344-350 | Cancelling a cancelled market does nothing. |
| `BettingOperations.SettleMatchEffect` | backend/src/modules/matches/match.service.ts:237-325 | Each locked WIN market of the match is settled on the winner and each locked RANK market on "1", their rows decided and paid as recorded; the match is SETTLED with its winner; every other market, row and match stays. |
| `BettingOperations.PlacementsAnswer` | backend/src/modules/matches/match.service.ts:257-275 | Placements are accepted exactly if each is 1 to 4 and for a team of the match; each team gets the last one given for it, and no other team changes. |
| `BettingOperations.SettleMatchTeams` | backend/src/modules/matches/match.service.ts:257-275 | Settling a match changes teams by the placements given and in no other way. |
| `BettingOperations.SettleMatchReports` | backend/src/modules/matches/match.service.ts:282-325 | The answer reports on each market of the match once, decided or skipped with its status. |
| `BettingOperations.CancelMatchEffect` | backend/src/modules/matches/match.service.ts:334-356 | Each unsettled market of the match is cancelled and refunded in full; every other market, row and match stays. |
| `BettingInvariant.SettlementPays` | backend/src/modules/betting/betting.service.ts:263-309 | For every user, what the mints of a settlement add up to is the floor share of the user's winning rows. |
| `BettingInvariant.RefundPays` | backend/src/modules/betting/betting.service.ts:355-380 | For every user, what the mints of a cancellation add up to is the user's stakes. |
| `BettingInvariant.PlaceStakeKeepsBooks` | backend/src/modules/betting/betting.service.ts:148-209 | A new or merged stake keeps burns, rows and pool in agreement. |
| `BettingInvariant.SettleKeepsBooks` | backend/src/modules/betting/betting.service.ts:242-334 | Settling keeps the accounts of every market. |
| `BettingInvariant.CancelKeepsBooks` | backend/src/modules/betting/betting.service.ts:339-386 | Cancelling keeps the accounts of every market. |
| `BettingInvariant.LockMatchKeepsInv` | backend/src/modules/matches/match.service.ts:213-229 | Locking a match closes all of its open markets and keeps the invariant. |
| `BettingInvariant.SettleMatchKeepsInv` | backend/src/modules/matches/match.service.ts:237-332 | Settling a match decides all of its locked markets and keeps the invariant. |
| `BettingInvariant.CancelMatchKeepsInv` | backend/src/modules/matches/match.service.ts:334-356 | Cancelling a match is never refused by a market, refunds all of them and keeps the invariant. |
| `BettingInvariant.CreateMarketKeepsInv` | backend/src/modules/betting/betting.service.ts:63-92 | A market may be created under a finished match; it is empty and stays so. |
| `BettingInvariant.StepKeepsInv` | backend/src/modules/betting/betting.service.ts:63-386 | Every request keeps the invariant. |
| `BettingEngine.BettingDesk.constructor` | backend/src/modules/betting/betting.service.ts:50-58 | An empty desk over a shared ledger. |
| `BettingEngine.BettingDesk.CreateMarket` | backend/src/modules/betting/betting.service.ts:63-92 | One market per match and type, default rake 500, whatever the match status. |
| `BettingEngine.BettingDesk.PlaceStake` | backend/src/modules/betting/betting.service.ts:148-209 | The whole book after a stake, or an unchanged one; the burn and the row writes are one transaction. |
| `BettingEngine.BettingDesk.LockMarket` | backend/src/modules/betting/betting.service.ts:214-231 | OPEN to LOCKED, idempotent on LOCKED. |
| `BettingEngine.BettingDesk.CountWinners` | backend/src/modules/betting/betting.service.ts:263-270 | The loop finds the number of winning rows and their sum, whatever the order. |
| `BettingEngine.BettingDesk.DecideRow` | backend/src/modules/betting/betting.service.ts:272-309 | One row is marked WON and paid its floor share, or LOST. |
| `BettingEngine.BettingDesk.DecideRows` | backend/src/modules/betting/betting.service.ts:272-309 | The loop marks every row of the market and mints every payout; if one mint fails, the batch does. |
| `BettingEngine.BettingDesk.SettleMarket` | backend/src/modules/betting/betting.service.ts:242-334 | The whole book and summary after a settlement, or an unchanged book and the error. |
| `BettingEngine.BettingDesk.SettleMarketIn` | backend/src/modules/betting/betting.service.ts:250-332 | Inside a caller's transaction: the specified book and summary, or the specified error. |
| `BettingEngine.BettingDesk.RefundRow` | backend/src/modules/betting/betting.service.ts:359-380 | One undecided row is refunded in full and marked; decided rows are skipped. |
| `BettingEngine.BettingDesk.RefundAll` | backend/src/modules/betting/betting.service.ts:355-380 | The loop refunds every undecided row of the market. |
| `BettingEngine.BettingDesk.CancelMarketIn` | backend/src/modules/betting/betting.service.ts:344-384 | Inside a caller's transaction: the specified book and answer, or the specified error. |
| `BettingEngine.BettingDesk.CancelMarket` | backend/src/modules/betting/betting.service.ts:339-386 | The whole book after a cancellation, a no-op on CANCELLED, or an unchanged book and the error. |
| `BettingEngine.BettingDesk.CreateDraft` | backend/src/modules/matches/match.service.ts:71-82 | A new DRAFT match, unless the title is blank. |
| `BettingEngine.BettingDesk.CreateTeam` | backend/src/modules/matches/match.service.ts:131-143 | A new team of an existing match. |
| `BettingEngine.BettingDesk.Transition` | backend/src/modules/matches/match.service.ts:358-365 | The status moves only along the transition table. |
| `BettingEngine.BettingDesk.OpenBetting` | backend/src/modules/matches/match.service.ts:145-152 | DRAFT to BETTING_OPEN. |
| `BettingEngine.BettingDesk.CreateScenario` | backend/src/modules/matches/match.service.ts:160-211 | Match, teams and market appear together or not at all; a blank title or fewer than two options are refused. |
| `BettingEngine.BettingDesk.LockMatch` | backend/src/modules/matches/match.service.ts:213-229 | The loop locks exactly the OPEN markets of the match. |
| `BettingEngine.BettingDesk.WritePlacements` | backend/src/modules/matches/match.service.ts:257-280 | The loop writes valid placements of the match's own teams or reports the first bad one. |
| `BettingEngine.BettingDesk.SettleMarkets` | backend/src/modules/matches/match.service.ts:282-325 | The loop settles every LOCKED market it is given, in any order, reports on each and stops at the first refusal. |
| `BettingEngine.BettingDesk.CancelMarkets` | backend/src/modules/matches/match.service.ts:341-350 | The loop cancels every unsettled market it is given, in any order, and stops at the first refusal. |
| `BettingEngine.BettingDesk.SettleMatch` | backend/src/modules/matches/match.service.ts:237-332 | Status, winner, placements and every locked market are settled together, with a report on each market, or not at all. |
| `BettingEngine.BettingDesk.CancelMatch` | backend/src/modules/matches/match.service.ts:334-356 | Status and every unsettled market are cancelled together or not at all. |
| `Ledger.LedgerIntegrity` | backend/src/modules/ledger/entities/point-tx.entity.ts:17-19 | From zero, after every run: each balance equals inflow minus outflow in the log, none is negative, the circulating figure is the sum of all balances, and keys are unique. |
| `Ledger.TransferAnswer` | backend/src/modules/ledger/ledger.service.ts:58-127 | A transfer is accepted if and only if the amount is positive, a user takes part, nobody pays himself, everyone who takes part has an account, the giver's covers the amount, and the key is new. |
| `Ledger.TransferEffect` | backend/src/modules/ledger/ledger.service.ts:104-147 | It moves the amount from giver to receiver and appends the one row that says so. |
| `Ledger.TransferRefusal` | backend/src/modules/ledger/ledger.service.ts:61-127 | Each refusal names its true reason. |
| `Ledger.TransferKeepsSound` | backend/src/modules/ledger/ledger.service.ts:58-153 | An accepted transfer keeps every balance equal to its log and non-negative. |
| `Ledger.CirculatingIsTotal` | backend/src/modules/ledger/ledger.service.ts:316-338 | adminSummary's circulating equals the sum of all user balances. |
| `Ledger.TotalOfLog` | backend/src/modules/ledger/ledger.service.ts:209-230 | The balances read from the log sum to minted minus burned. |
| `Ledger.MintsAreMoves` | backend/src/modules/ledger/ledger.service.ts:156-172 | A batch of mints is as many accepted transfers one after another. |
| `Ledger.PostPermutation` | backend/src/modules/ledger/ledger.service.ts:122-147 | A batch of rows has the same effect on every balance in any order. |
| `LedgerEngine.LedgerService.TransferIn` | backend/src/modules/ledger/ledger.service.ts:81-147 | Inside a caller's transaction: the specified ledger on success; on "to user not found" the debit is already written, which the caller must roll back. |
| `LedgerEngine.LedgerService.TransferNow` | backend/src/modules/ledger/ledger.service.ts:58-153 | With its own transaction: the specified ledger or an unchanged one, and the accounting promise is kept. |
| `LedgerEngine.LedgerService.Mint` | backend/src/modules/ledger/ledger.service.ts:156-172 | A transfer from the system account. |
| `LedgerEngine.LedgerService.Burn` | backend/src/modules/ledger/ledger.service.ts:175-191 | A transfer to the system account. |
| `LedgerInterleaving.NoLostUpdate` | backend/src/modules/ledger/ledger.service.ts:82-147 | However lock-and-read, write, insert-and-commit and abort steps of many transfers interleave, the committed state is that of the committed transfers run one after another, so each balance is the fold of the log and non-negative. |
| `LedgerInterleaving.AloneIsAtomic` | backend/src/modules/ledger/ledger.service.ts:82-147 | A transfer that nobody disturbs commits exactly when, and exactly what, the atomic transfer would. |
| `LedgerInterleaving.Serializes` | backend/src/modules/ledger/ledger.service.ts:82-147 | Every interleaving from any consistent state equals the serial run of its commits in commit order. |
| `LedgerInterleaving.CommitIsTransfer` | backend/src/modules/ledger/ledger.service.ts:82-147 | A transaction that holds its locks commits exactly one atomic transfer on the state at commit time. |
| `LedgerInterleaving.EffectIsAtomic` | backend/src/modules/ledger/ledger.service.ts:82-147 | Each step changes the committed state by one ledger operation or not at all. |
| `LedgerInterleaving.NextKeepsConsistent` | backend/src/modules/ledger/ledger.service.ts:91-102 | Under exclusive row locks, what a transaction has read stays what is committed. |
| `ShopTheorems.StockIsConserved` | backend/src/modules/shop/shop.service.ts:86-313 | On every run, stock plus quantities in orders that are not cancelled changes per product only by what admins add to or take from the stock figure, so it is constant when none does; stock is never negative. |
| `ShopTheorems.SalesMatchOrders` | backend/src/modules/shop/shop.service.ts:139-157 | totalSold equals the live quantities; each buyer's live quantity respects purchaseLimit; for VOUCHER products a buyer's used coupons equal the buyer's live quantity. |
| `ShopTheorems.OrdersArePaidFor` | backend/src/modules/shop/shop.service.ts:180-199 | Every order was burned once for unit price times quantity, and refunded in full exactly when cancelled, whatever became of the price. |
| `ShopTheorems.CancellableIffCompleted` | backend/src/modules/shop/shop.service.ts:248-313 | Whichever of the buyer's coupons the query returns, cancelling is accepted exactly for COMPLETED orders, and the query finds exactly as many coupons as the order holds. |
| `ShopTheorems.CompletedOrderCanBeCancelled` | backend/src/modules/shop/shop.service.ts:248-313 | There is always such a selection, so a completed order is never stuck. |
| `ShopTheorems.CancelUndoesPurchase` | backend/src/modules/shop/shop.service.ts:127-313 | Buying and cancelling restores every balance, stock, totalSold, live quantities and coupon counts; only a sold-out status stays. |
| `ShopOperations.CatalogueAnswer` | backend/src/modules/shop/shop.service.ts:62-65 | New products go on sale as described and with nothing sold; coupons belong to existing products. |
| `ShopOperations.EditAnswer` | backend/src/modules/shop/shop.service.ts:86-112 | An edit changes exactly the figures it names, of the one product. |
| `ShopOperations.PurchaseAnswer` | backend/src/modules/shop/shop.service.ts:127-216 | A purchase is accepted if and only if the product is on sale with enough in stock, the buyer stays within the limit and can pay a price above zero, and for vouchers there are enough unused coupons. |
| `ShopOperations.PurchaseEffect` | backend/src/modules/shop/shop.service.ts:160-228 | It costs the buyer price times quantity, adds one order, takes the units from stock and marks a product that is sold out. |
| `ShopOperations.OldestCouponsFirst` | backend/src/modules/shop/shop.service.ts:201-216 | The buyer of a voucher gets exactly the oldest unused coupons of the product; no other purchase touches a coupon. |
| `ShopOperations.DeliveryAnswer` | backend/src/modules/shop/shop.service.ts:230-246 | An order is delivered exactly from COMPLETED; only its status changes. |
| `ShopOperations.CancellationEffect` | backend/src/modules/shop/shop.service.ts:248-313 | Cancelling puts the units back, frees exactly the picked coupons and marks the order; no other row changes. |
| `ShopOperations.CancellationRefunds` | backend/src/modules/shop/shop.service.ts:260-276 | The buyer gets the total back in one log row; nobody else's points move. |
| `ShopInvariant.AssignCounts` | backend/src/modules/shop/shop.service.ts:201-216 | Handing out the oldest free coupons raises the buyer's count by exactly the quantity and no other count. |
| `ShopInvariant.MarkFreeCounts` | backend/src/modules/shop/shop.service.ts:293-305 | Taking coupons back lowers the buyer's count by exactly that many and no other count. |
| `ShopInvariant.SelectionIsExact` | backend/src/modules/shop/shop.service.ts:293-300 | The limited coupon query of a cancellation never comes up short. |
| `ShopInvariant.PurchaseKeepsInv` | backend/src/modules/shop/shop.service.ts:127-228 | A purchase keeps the shop invariant. |
| `ShopInvariant.CancelKeepsInv` | backend/src/modules/shop/shop.service.ts:248-313 | A cancellation keeps the shop invariant. |
| `ShopInvariant.StepKeepsInv` | backend/src/modules/shop/shop.service.ts:62-313 | Every request keeps the shop invariant. |
| `ShopEngine.ShopService.constructor` | backend/src/modules/shop/shop.service.ts:44-61 | An empty shop over a shared ledger. |
| `ShopEngine.ShopService.UpdateProduct` | backend/src/modules/shop/shop.service.ts:86-112 | Price, stock and status edits. |
| `ShopEngine.ShopService.AssignCoupons` | backend/src/modules/shop/shop.service.ts:201-216 | The oldest unused coupons go to the buyer if there are enough; otherwise none does. |
| `ShopEngine.ShopService.MarkCoupons` | backend/src/modules/shop/shop.service.ts:211-215 | The loop rewrites exactly the listed coupons. |
| `ShopEngine.ShopService.Purchase` | backend/src/modules/shop/shop.service.ts:127-228 | The whole store after a purchase, or an unchanged one and the error, although stock and order are written before the payment. |
| `ShopEngine.ShopService.MarkDelivered` | backend/src/modules/shop/shop.service.ts:230-246 | COMPLETED to DELIVERED. |
| `ShopEngine.ShopService.CancelOrder` | backend/src/modules/shop/shop.service.ts:248-313 | The whole store after a cancellation, or an unchanged one and the error. |
| `PayoutTheorems.AtMostOnce` | backend/src/modules/auctions/services/auctions-admin.service.ts:146-176 | On every run with any amounts, nobody is rewarded twice for one auction, and a reward once given stays the only one. |
| `PayoutTheorems.PaysEveryoneOnce` | backend/src/modules/auctions/services/auctions-admin.service.ts:146-185 | After an accepted call each recipient has exactly one reward; exactly those without one before are richer, by this call's amount; paid plus skipped equals recipients. |
| `PayoutTheorems.PayingAgainIsHarmless` | backend/src/modules/auctions/services/auctions-admin.service.ts:153-176 | A further call with any amount, even zero, changes nothing and skips everyone. |
| `PayoutTheorems.AcceptedIffPayable` | backend/src/modules/auctions/services/auctions-admin.service.ts:133-185 | A call for a COMPLETED auction goes through exactly when every recipient is already paid, or the amount is positive and the account exists. |
| `PayoutTheorems.RecipientsAreTheTeams` | backend/src/modules/auctions/services/auctions-admin.service.ts:146-149 | The recipients are the users of the PLAYER and CAPTAIN rows, one for each row. |
| `PayoutTheorems.OnlyFinishedAuctionsPay` | backend/src/modules/auctions/services/auctions-admin.service.ts:133-145 | Only a COMPLETED auction pays, and a refused call changes nothing. |
| `PayoutTheorems.KeyNamesItsUser` | backend/src/modules/auctions/services/auctions-admin.service.ts:16-18 | Splitting a key on ':' gives reason, auction and user back, for colon-free ids. |
| `PayoutTheorems.KeyIsUnambiguousIffColonFree` | backend/src/modules/auctions/services/auctions-admin.service.ts:16-18 | A key stands for one auction and user if and only if neither id contains a colon. |
| `PayoutTheorems.PatternFindsOneAuction` | backend/src/modules/auctions/services/auctions-admin.service.ts:191-197 | With generated ids the LIKE pattern, whose own underscore is a wildcard, finds the keys of exactly one auction. |
| `PayoutTheorems.PageShowsTheRewards` | backend/src/modules/auctions/services/auctions-admin.service.ts:188-207 | The map of paid users holds exactly the rewarded users, each with the amount of the one reward, in whatever order the rows come. |
| `PayoutTheorems.PageIsCompleteAfterPayout` | backend/src/modules/auctions/services/auctions-admin.service.ts:94-125 | Right after an accepted call every recipient is shown as rewarded, new ones with this call's amount. |
| `PayoutTheorems.PayAllPaysUp` | backend/src/modules/auctions/services/auctions-admin.service.ts:146-176 | What the loop over recipients leaves: keys, balances, log rows and counters. |
| `PayoutEngine.AuctionsAdminService.PayUsers` | backend/src/modules/auctions/services/auctions-admin.service.ts:146-176 | The loop over the recipients pays, skips and counts as specified and stops at the first refused mint. |
| `Keys.JoinSplit` | backend/src/modules/auctions/services/auctions-admin.service.ts:201 | Splitting on ':' loses nothing and leaves colon-free parts. |
| `PayoutEngine.AuctionsAdminService.constructor` | backend/src/modules/auctions/services/auctions-admin.service.ts:41-46 | An empty service over a shared ledger. |
| `PayoutEngine.AuctionsAdminService.PayoutParticipants` | backend/src/modules/auctions/services/auctions-admin.service.ts:133-185 | The whole ledger and report after a call; a refused mint rolls the whole call back. |
| `PayoutEngine.AuctionsAdminService.FindPaidPayouts` | backend/src/modules/auctions/services/auctions-admin.service.ts:188-207 | The loop builds the specified map; in every reachable state it holds exactly the users with a reward. |
| `Economy.ComponentsHoldTogether` | backend/src/modules/ledger/ledger.service.ts:58-191 | However bets, orders, rewards and other transfers mix on the one ledger, each component is in a state that one of its own runs reaches, so every theorem about reachable states holds for all of them at once. |
| `Economy.BettingMoves` | backend/src/modules/betting/betting.service.ts:148-386 | Whatever a betting or match request does to the ledger is a sequence of keyless transfers that name a market. |
| `Economy.ShopMoves` | backend/src/modules/shop/shop.service.ts:127-313 | Whatever a shop request does to the ledger is a transfer that names an order. |
| `Economy.RewardMoves` | backend/src/modules/auctions/services/auctions-admin.service.ts:133-185 | Whatever a reward call does to the ledger is a sequence of transfers that name an auction. |

## Left out

- Clocks: bid timers, the turn time limit among the settings, end times, the remaining time that pausing saves, pause and resume of the timer, scheduled dates. A timeout is a step that may happen at any moment.
- AuctionEngine.AuctionRoom.UpdateSettings: the turn time limit is not kept, as nothing modelled reads it.
- Deleting an auction, and names, descriptions, auction titles, avatars and every other text that decides nothing; of match titles only the refusal of blank ones is kept.
- ShopEngine.ShopService.UpdateProduct: name, description and image are not kept; a new stock figure is not negative, as the request body is validated.
- Cancelled auctions: no modelled operation sets that status.
- Requests that do not lock the rows they read (setup edits and `join` of an auction, `createMarket`, `purchase` with its limit check, `cancelOrder`) are atomic steps here; two of them racing each other are not modelled.
- Deadlock freedom of `transfer`: the order in which a query with a list of ids locks its rows is not fixed by sorting the list.
- RANK markets: the code always settles them on "1" and calls this a placeholder; the model keeps the literal and claims nothing about placements.
- LedgerInterleaving: each transaction holds one transfer; transactions with several transfers are modelled as atomic in the betting, shop and payout components.
- Coupons have no creating code path in the repository; the model lets one be added at any time for an existing product.
- Deleting users, editing users directly, profile items, clans and system configuration: plain edits that bypass the constants proved here.
- Attendance rewards: their day key is computed by the database in a time zone; they appear only as ordinary transfers.
- Widths of integer columns, syntax checks on ids and requests made by controllers, guards, sessions, uploads, migrations, chat commands, notifications and the web pages.
- PayoutEngine.AuctionsAdminService.PayoutParticipants: an amount that is no integer makes the source fail before it pays anyone; amounts are integers here.
- The history list and the names it resolves; only the paid-users map behind the detail page is modelled.
