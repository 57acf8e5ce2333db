# Verified model of the sportsbook's core protocols

This project models the parts of the platform where several services, or
several concurrent calls, have to agree about money, prices and bets, and
proves what they keep over every run and every input.

* **Wallet.** Deduct, Credit, Deposit and Withdraw are cut at their SQL
  statements (`Wallet`). A run is any sequence of statements of any number of
  concurrent calls under READ COMMITTED: row and key locks last to the end of
  the transaction, a key clash or a CHECK failure rolls back, and a call can
  abort between any two statements. `WalletSafety` holds the invariant,
  `WalletTheorems` the results, `WalletSerial` serialisability, and
  `WalletService` the database as a class with one method per statement and one
  per RPC.
* **Placing a bet.** `BetFlow` is one PlaceBet call, `Outbox` the outbox table
  and its relay, `BetHistory` the read model and its handlers. `Placement` puts
  them together around the whole concurrent wallet: a run is any sequence of
  steps of placements, wallet statements, relays and consumers, and a crash is a
  party that takes no further step. Replies can be lost, requests can arrive
  late or twice, sends can fail after they were appended, and status updates can
  be lost. `PlacementSafety` holds the invariant, `PlacementTheorems` the results.
* **Daily limit.** `DailyLimit` adds a clock and the limit check to that whole
  protocol and follows one user's stakes through every 24-hour window of a run.
  `DailyExcess` shows that each of its conditions is needed.
* **Pricing.** `ExpLog`, `MarketOdds`, `CentLine` and `Odds` treat the vig, the
  20-cent search and the odds conversions over exact reals. `exp` and `log` are
  parameters: any functions with exp(x + y) = exp(x) exp(y), exp(x) >= 1 + x and
  exp(log x) = x for x > 0 will do, so nothing is assumed.
* **Smaller cores.** `TokenRegistry` (coalesced wake-up), `Snapshot` (nested
  group-by), `StatusCache` (bounded staleness), `WholeWord` (team matching) and
  `ClientView` (the browser's reducers).

`Platform`, `Sequences` and `Reals` hold shared names and facts. Times are
integers, money is in minor units, and identifiers are tokens that are only
compared.

## What the code does that its documentation does not say

* The documented wallet invariant is available + in flight = total
  (`README.md:206`). The total that is conserved is deposits minus withdrawals
  (`WalletTheorems.Conservation`). The stronger law, each row is the fold of its
  ledger rows, holds in every run if credits name a known user and a fresh id
  and no credit has reason DEPOSIT (`WalletTheorems.BalanceIsFoldOfLedger`), and
  in general exactly when the recorded skew is zero.
* The wallet is not serialisable. A CreditBalance whose UPDATE ran before the
  user's first deposit committed matches no row, and its ledger row is still
  stored: the money is in the ledger and not in the balance
  (`WalletTheorems.CreditBeforeFirstDepositIsLost`), which no order of the two
  calls explains (`WalletSerial.LostCreditIsNotSerial`). A commit differs from
  the call run alone exactly when it is such a late credit
  (`WalletSerial.CommitIsReference`); without one, the tables and the replies are
  those of the calls run one at a time in commit order
  (`WalletSerial.Serializable`, `WalletSerial.RefusalInOrder`), and admissible credits are never late
  (`WalletSerial.AdmissibleIsOnTime`).
* A call whose look-up missed its id, while another call with that id commits,
  is refused for want of funds or for the key and not told that it was processed
  (`WalletSerial.RefusalIsVerdict`).
* A CreditBalance that is retried under the same id moves the money again
  (`WalletTheorems.RetryExactly` says when a retry is harmless).
* A bet can be CANCELLED and charged when the wallet's reply is lost
  (`PlacementTheorems.LostReplyChargesCancelledBet`); it cannot be when no reply
  is lost (`PlacementTheorems.CancelledIsNotCharged`).
* A request with a known idempotency key is told ACCEPTED with its own stake,
  whoever sends it. The answer describes the debit exactly when user and stake
  are those of the stored bet (`PlacementTheorems.ReplayMatchesExactly`,
  `PlacementTheorems.ReplayEchoesOtherRequests`).
* The daily limit can be exceeded when calls of one user overlap, when a call
  ends without knowing what became of its debit, when a stake is negative (the
  HTTP handler does not check it, `cmd/betacceptance/main.go:149-164`), or when
  the sum query fails, each on its own (`DailyExcess`); with all four
  excluded it cannot (`DailyLimit.EveryWindowWithinLimit`).
* Bet history keeps one row per bet exactly when all deliveries of the bet carry
  one effective time (`BetHistory.OneRowExactly`). A `placed_at` that does not
  parse breaks it, because the handler then uses its own clock
  (`BetHistory.UnparsedTimeDuplicates`).
* A bet that is voided after it was settled keeps the settlement's payout
  (`BetHistory.VoidKeepsPayout`).
* The line -100 converts to decimal 2 and back to +100, and no line strictly
  between -100 and 100, except 0, survives the round trip
  (`Odds.AmericanRoundTrip`).
* A status that is set for an id without a market row is written through all the
  same: the cache then answers a status the database never had. The staleness
  bound holds exactly when the market has a row
  (`StatusCache.WriteThroughExactly`).
* A write-through of CLOSED can be overwritten by a cache warming pass that read
  OPEN just before, so the staleness bound of the status cache cannot be lowered
  (`StatusCache.BoundIsTight`).
* The comment at the whole-word search says that "kansas" does not match
  "kansas state". It does (`WholeWord.LongerNameMatches`).
* A score update for the empty event id is computed and then dropped
  (`ClientView.WithScore`).

## Model

| member | source | states |
|---|---|---|
| WalletSafety.RunInv | internal/wallet/service.go:88-152 | in every interleaving of statements, aborts included: a call that read a row FOR UPDATE still sees it, pending rows are the committed row plus one delta, ledger keys are unique, and the books balance up to the skew |
| WalletTheorems.BalancesAreReplay | internal/wallet/service.go:121-144 | every balance is the sum of the committed deltas in commit order, and no step of that sum was negative or unfunded |
| WalletSerial.ServeIsAlone | internal/wallet/service.go:77-154 | the atomic reference step of an RPC is what its own statements do when nobody disturbs them |
| WalletSerial.CommitIsReference | internal/wallet/service.go:171-194 | in every reachable state a commit answers and changes both tables as the call alone would on the tables it meets, exactly when it is not a credit that missed a row which exists by then |
| WalletSerial.Serializable | internal/wallet/service.go:88-152 | without such a late credit, balances and ledger are those of the committed calls and confirmations run one at a time in commit order, and every reply is the one the call would have had alone at its place |
| WalletSerial.AdmissibleIsOnTime | internal/wallet/service.go:171-182 | credits that name a known user and a fresh id are never late |
| WalletSerial.LostCreditIsNotSerial | internal/wallet/service.go:171-194 | for every such pair there is a run in which exactly this deposit and this credit were received and both committed, with the credit's ledger row and without its money, and neither order of the two calls gives those tables |
| WalletSerial.RefusalIsVerdict | internal/wallet/service.go:82-128 | in every reachable state a call that is refused is refused for the reason the reference gives on the tables at that step, exactly when it is a credit, or is told its id is known, or its id has not been stored since its look-up |
| WalletSerial.RefusalInOrder | internal/wallet/service.go:82-128 | so refusals have their place in the serial order too while no credit commits late |
| WalletTheorems.MovesMoneyAtMostOnce | internal/wallet/service.go:323-379 | two committed calls of Deduct, Deposit or Withdraw never share a transaction id, although the look-up is outside the transaction |
| WalletTheorems.LedgerLaw | internal/wallet/service.go:171-194 | each row is the fold of the user's ledger rows plus the accumulated skew of the commits |
| WalletTheorems.CreditKeepsBooks | internal/wallet/service.go:161-198 | a credit that runs alone keeps its user's row equal to the fold exactly when it is of zero amount, or refused, or finds no row, or has a new id and a reason other than DEPOSIT |
| WalletTheorems.SkewSum | internal/wallet/service.go:171-194 | the two columns' skews cancel, up to deposits booked through CreditBalance |
| WalletTheorems.Conservation | internal/wallet/service.go:421-458 | available + in flight is deposits minus withdrawals in every run, reused credit ids included |
| WalletTheorems.FreshCreditIsNew | internal/wallet/service.go:184-194 | in runs of admissible calls an unfinished credit never meets its id in the ledger |
| WalletTheorems.AnomalyMovesSkew | internal/wallet/service.go:171-194 | a commit moves its user's row away from the ledger exactly when it changed only one of the two, or is a credited deposit, and its amount is not zero |
| WalletTheorems.BalanceIsFoldOfLedger | internal/wallet/service.go:88-198 | under admissible credits, in flight is stakes minus releases and available is deposits minus withdrawals minus stakes plus releases, in every interleaving |
| WalletTheorems.NeverNegative | migrations/db_wallet/001_init.sql:9-10 | no committed row is ever negative in any reachable state |
| WalletTheorems.CheckFiresExactly | internal/wallet/service.go:107-128 | the row read FOR UPDATE is unchanged at the UPDATE, and the CHECK fires exactly for a negative stake larger than what is in flight; never for non-negative amounts |
| WalletTheorems.ReplyIsCommittedValue | internal/wallet/service.go:144-152 | the AvailableAfter computed from the early read is the committed value |
| WalletTheorems.AloneIsVerdict | internal/wallet/service.go:77-154 | the statements of one undisturbed call amount to one atomic reference step: look-up, missing row, funds, CHECK, foreign key, commit |
| WalletTheorems.RetryExactly | internal/wallet/service.go:171-194 | a call and its retry under the same id, each run alone: the retry adds no ledger row, and leaves balances alone exactly when it is no credit, or of zero amount, or finds no row, or would make the row invalid |
| WalletTheorems.CreditBeforeFirstDepositIsLost | internal/wallet/service.go:171-194 | for every credit and first deposit of one user there is a run whose ledger holds the credit and whose balance does not |
| WalletService.Database.SelectTransaction | internal/wallet/service.go:259-274 | the idempotency look-up answers a known id at once |
| WalletService.Database.SelectTransactionFails | internal/wallet/service.go:82-86 | Deduct goes on after a look-up error, the cashier calls stop |
| WalletService.Database.SelectBalanceForUpdate | internal/wallet/service.go:106-119 | the row is locked, or the call ends with NotFound or InsufficientFunds |
| WalletService.Database.UpdateBalance | internal/wallet/service.go:121-129 | the pending row, the CHECK and the upsert of Deposit |
| WalletService.Database.InsertLedgerEntry | internal/wallet/service.go:131-140 | the key clash, the foreign key and ON CONFLICT DO NOTHING |
| WalletService.Database.CommitTransaction | internal/wallet/service.go:142-144 | both tables change together and all locks go |
| WalletService.Database.RunLockedRpc | internal/wallet/service.go:318-393 | the statement methods in the source's order refine the atomic reference of the RPC |
| WalletService.Database.DeductBalance | internal/wallet/service.go:77-154 | commits exactly when the id is new, the funds suffice and, for a negative stake, in flight covers it; then the stake moves in flight with one DEBIT row and the exact reply; otherwise no table changes |
| WalletService.Database.Withdraw | internal/wallet/service.go:395-469 | commits exactly when the id is new and the funds suffice; states both tables and the reply |
| WalletService.Database.Deposit | internal/wallet/service.go:318-393 | commits exactly for a new id and a non-negative amount; creates the row when there is none |
| WalletService.Database.CreditBalance | internal/wallet/service.go:156-210 | moves the money whenever the row stays valid, even for a known id, and stores the ledger row only for a new one, with the entry type of each of the five reasons |
| WalletService.Database.ConfirmTransaction | internal/wallet/service.go:213-230 | every row of this id is CONFIRMED with its other columns as before, and every other row is as it was |
| WalletTheorems.ConfirmsItsRows | internal/wallet/service.go:217-222 | the same for a confirmation at any point of any run |
| WalletTheorems.StoredRow | internal/wallet/service.go:131-138 | in any run the row a commit stores has its request's id, user, amount and bet, the entry type of its RPC and of each credit reason, and awaits confirmation only for a DEBIT |
| BetFlow.CheckLimits | internal/betacceptance/bet_flow.go:290-303 | passes exactly when the stake is within the single cap and what was staked plus the stake is within the daily limit; absent limits pass |
| BetFlow.BetAcceptance.Screen | internal/betacceptance/bet_flow.go:170-216 | accepts exactly an OPEN market, odds within 5%, limits and, for large stakes, a consumer that caught up; a refusal names something that is the case |
| BetFlow.BetAcceptance.PlaceBet | internal/betacceptance/bet_flow.go:152-274 | replays a known key, writes nothing when it refuses, and otherwise leaves one row, READY only after a confirmed debit, and replies ACCEPTED, with all its fields, exactly after a confirmed debit |
| Outbox.Relay.FetchReady | internal/betacceptance/outbox.go:120-147 | the oldest READY rows, oldest first, all of them or exactly the limit |
| Outbox.Relay.PublishRow | internal/betacceptance/outbox.go:150-173 | a failed send leaves the row for the next poll, and so does a failed update |
| Outbox.Relay.PublishBatch | internal/betacceptance/outbox.go:99-116 | the fetched rows reach the topic in order except failed sends, and become PUBLISHED except failed updates; other rows and messages stay |
| Outbox.Relay.Run | internal/betacceptance/outbox.go:81-96 | fault-free ticks append the polled batches to the topic in order |
| Outbox.PollsPublish | internal/betacceptance/outbox.go:99-147 | successive polls publish exactly the oldest READY rows and leave the others READY |
| Outbox.DrainsInCeiling | internal/betacceptance/outbox.go:99-147 | n READY rows drain in ceil(n/100) polls and no fewer, each published exactly once, in created_at order |
| BetHistory.Consumer.HandleBetPlaced | internal/bethistory/consumer.go:115-175 | inserts before it confirms, confirms nothing when the insert fails, and keeps "every confirmed transaction has its bet's row" |
| BetHistory.Consumer.HandleOutcome | internal/bethistory/consumer.go:177-217 | every row of the bet keeps slip and placed_at and shows the event's status, time and, for a settlement, payout; every other row is as it was |
| BetHistory.ShowsLastOutcome | internal/bethistory/consumer.go:115-217 | over every run each row was put in by the first delivery of its key and shows the last outcome of its bet after that, or is still PLACED |
| BetHistory.TableKeys | internal/bethistory/consumer.go:146-159 | the table's keys are exactly the keys delivered |
| BetHistory.AbsorbsRedelivery | internal/bethistory/consumer.go:146-159 | repeated bet.placed deliveries, anywhere among settle and void events, leave the table as if they had never come |
| BetHistory.OneRowExactly | internal/bethistory/consumer.go:134-137 | at most one row per bet exactly when all deliveries of a bet carry one effective placed_at |
| BetHistory.UnparsedTimeDuplicates | internal/bethistory/consumer.go:134-137 | two deliveries of one bet whose placed_at does not parse leave two rows |
| BetHistory.VoidKeepsPayout | internal/bethistory/consumer.go:203-217 | a void after a settlement changes status and time and keeps the payout |
| BetHistory.NeverBackToPlaced | internal/bethistory/consumer.go:177-217 | rows are never lost or rewritten, and a settled or void bet never returns to PLACED |
| BetHistory.TableIsPerBetFold | internal/bethistory/consumer.go:115-217 | the row of a key is what the first delivery and then its bet's settle and void events say |
| PlacementSafety.WalletStepOk | internal/wallet/service.go:131-144 | every wallet statement keeps: each DEBIT row is one flow's own request, and a deduction ends well only with its row in the ledger |
| PlacementSafety.StepKeeps | internal/betacceptance/bet_flow.go:218-257 | every step of placement, wallet, relay or consumer keeps the invariant and moves outbox rows only along the legal order |
| PlacementTheorems.AcceptedBetIsFunded | internal/betacceptance/bet_flow.go:230-274 | every bet that a placement accepted has exactly one ledger DEBIT with its bet id, user and stake |
| PlacementTheorems.ReplayMatchesExactly | internal/betacceptance/bet_flow.go:154-168 | a known key leads to an accepted and debited bet, and the replayed answer describes its debit exactly when the request has the bet's user and stake |
| PlacementTheorems.KeysLiveUntilExpiry | internal/betacceptance/bet_flow.go:259-260 | under every step a stored key keeps its bet until it expires or an accepted placement stores it again |
| PlacementTheorems.ReplayEchoesOtherRequests | internal/betacceptance/bet_flow.go:154-168 | from every world with a payable bet there is a run that adds just that bet, READY, and its key, after which another user or stake under the key is told accepted without such a debit |
| PlacementTheorems.ReleasedRowIsFunded | internal/betacceptance/bet_flow.go:249-257 | so has every READY or PUBLISHED row |
| PlacementTheorems.PublishedBetIsFunded | internal/betacceptance/outbox.go:150-173 | so has every message on the topic, over all runs with crashes, lost replies and lost updates |
| PlacementTheorems.HistoryRowIsFunded | internal/bethistory/consumer.go:146-159 | so has every bet history row |
| PlacementTheorems.ReadyBetArrives | internal/betacceptance/outbox.go:99-173 | from every world with a READY row and an idle relay a run publishes just that row, with its id and payload on the topic, and brings its key into the history |
| PlacementTheorems.ResentBetArrivesOnce | internal/betacceptance/outbox.go:99-173 | a relay that crashes before or after an acknowledgement leaves the message on the topic twice, and the history still has one row for the bet |
| PlacementTheorems.DebitHasItsBet | internal/wallet/service.go:131-138 | every DEBIT belongs to a written bet with that user and stake and is its only one |
| PlacementTheorems.OutboxMovesForward | internal/betacceptance/outbox.go:17-22 | over whole runs rows keep id, bet and payload and only move PENDING, READY, PUBLISHED or PENDING, CANCELLED, although two of the updates have no guard |
| PlacementTheorems.SettlesItsOwnRow | internal/betacceptance/bet_flow.go:332-346 | the updates by bet id touch only the placement's own row, find it PENDING and leave it as PlaceBet's contract says |
| PlacementTheorems.PublishedIsInTopic | internal/betacceptance/outbox.go:165-172 | a PUBLISHED row's message is on the topic |
| PlacementTheorems.OneHistoryRowPerBet | internal/betacceptance/bet_flow.go:305-321 | the history has at most one row per bet, because the payload fixes placed_at |
| PlacementTheorems.OutcomeIsShown | internal/bethistory/consumer.go:177-216 | in any reachable world a settlement or void sets status, time and payout of its bet's rows and leaves the others |
| PlacementTheorems.ChargedExactly | internal/betacceptance/bet_flow.go:230-247 | a bet in any state is charged exactly when some DeductBalance of its transaction committed |
| PlacementTheorems.CancelledIsNotCharged | internal/betacceptance/bet_flow.go:240-247 | when errors reach a placement only after its debit failed for good, no CANCELLED bet is charged |
| PlacementTheorems.LostReplyChargesCancelledBet | internal/betacceptance/bet_flow.go:240-247 | from every world with a quiet wallet and a payable bet there is a run that leaves the bet CANCELLED and charged |
| DailyLimit.EveryWindowWithinLimit | internal/wallet/service.go:55-65 | over all runs of placements and wallet statements a user's DEBIT stakes in every 24-hour window sum to at most the daily limit, when stakes are not negative, the sum query succeeds, the user's calls do not overlap, and no call ended without knowing what became of its debit |
| DailyExcess.OverlapExceedsLimit | internal/betacceptance/bet_flow.go:195-203 | with overlapping calls and all else in order, every stake that fits once and not twice is debited twice in one window |
| DailyExcess.LostReplyExceedsLimit | internal/betacceptance/bet_flow.go:239-247 | so it is with calls that do not overlap, when the first one's reply is lost and its debit commits late |
| DailyExcess.NegativeStakeExceedsLimit | internal/betacceptance/bet_flow.go:290-303 | a negative stake makes room for a bet above the limit in a window that does not contain it |
| DailyExcess.FailedSumExceedsLimit | internal/wallet/service.go:53-65 | a sum query that fails counts as zero and lets the second of two bets through |
| ExpLog.LogitShift | internal/oddsmanagement/service.go:379-385 | sigmoid(logit(p) + d) is m p / (m p + 1 - p) with m = exp(d) |
| MarketOdds.ComputeMarketOdds | internal/oddsmanagement/service.go:332-375 | the loop's prices are the rational vig of the clamped fair probabilities; every quote keeps id and feed, is zeroed exactly where its vigged probability is below the feed, and otherwise has the inverse as decimal and the nearest line, of the right sign, as american |
| MarketOdds.FairExactly | internal/oddsmanagement/service.go:345-352 | the clamp is the identity between 10^-6 and 1 - 10^-6 and the nearer end outside |
| Odds.LineOfDecimal | internal/oddsmanagement/service.go:468-477 | lines are 100 or more for decimals of 2 and up, -100 or less between 1 and 2 |
| MarketOdds.FairPair | internal/oddsmanagement/service.go:339-352 | the two clamped fair probabilities sum to exactly 1 |
| MarketOdds.TwoSides | internal/oddsmanagement/service.go:324-375 | complementary sides vigged by m sum to more than 1 and at most 2m/(m+1), reached at even money only |
| MarketOdds.MarginBounds | internal/oddsmanagement/service.go:332-375 | the same for the book, for every pair of feeds with positive total |
| MarketOdds.MarginOfSchedules | internal/oddsmanagement/service.go:310-322 | with the shifts ln 1.1 and ln 1.15 the margin is positive and at most 1/21 (standard) or 3/43 (wide) |
| MarketOdds.EvenMoneyLine | internal/oddsmanagement/service.go:310-322 | with two equal feeds both sides are quoted -110 up to a feed of 11/21, or -115 up to 115/215 on the wide schedule, and both are zeroed above it |
| MarketOdds.OfferedIsSound | internal/oddsmanagement/service.go:358-364 | a price that is not zeroed has decimal above 1 and decimal times feed at most 1 |
| MarketOdds.ZeroedExactly | internal/oddsmanagement/service.go:358-364 | where the clamp does not act, a side is zeroed exactly when total + (m - 1) feed exceeds m |
| MarketOdds.FavouriteZeroedFirst | internal/oddsmanagement/service.go:358-364 | if the less likely side is zeroed, so is the more likely one |
| MarketOdds.GuardedFeeds | internal/marketdata/polymarket_normaliser.go:154-159 | for feeds that pass clampProb and the non-zero guard the clamp never acts, and nothing is zeroed when they sum to at most 1 |
| CentLine.SpreadAtClosed | internal/oddsmanagement/service.go:414-426 | the cent spread as a closed form in the vig, over the positive-dog and both-negative cases |
| CentLine.SpreadStrictlyIncreasing | internal/oddsmanagement/service.go:414-426 | from zero vig up the spread is strictly increasing in the vig, across the cases |
| CentLine.Probe | internal/oddsmanagement/service.go:433-442 | one probe computes the spread at mid, whichever side is the favourite |
| CentLine.Find20CentDelta | internal/oddsmanagement/service.go:431-450 | 100 halvings keep spread(lo) < 20 <= spread(hi); the result brackets the crossing within 5/2^101 |
| CentLine.SearchIsAccurate | internal/oddsmanagement/service.go:431-450 | the result is within 5/2^101 of any shift whose spread is 20 |
| CentLine.EvenMoneySearch | internal/oddsmanagement/service.go:310-315 | at even money the search finds the standard shift ln 1.1 within 5/2^101 |
| CentLine.TwentyCentDelta | internal/oddsmanagement/service.go:428-450 | there is exactly one shift whose spread is 20 |
| Odds.RoundNearest | internal/oddsmanagement/service.go:468-477 | rounding errs by at most one half and is symmetric |
| Odds.AmericanRoundTrip | internal/oddsmanagement/service.go:468-487 | American to decimal and back is the identity exactly for a >= 100, a < -100 and 0; -100 becomes +100 |
| Odds.DecimalRoundTrip | internal/oddsmanagement/service.go:468-487 | decimal to American and back errs by at most 0.005 for every d > 1 |
| TokenRegistry.EnteredLastWins | internal/marketdata/token_registry.go:31-36 | a batch maps each of its tokens to its last entry and touches and drops no other |
| TokenRegistry.Registry.Register | internal/marketdata/token_registry.go:31-43 | the entries are in and the signal is up, which is the protocol's write step followed by its signal step |
| TokenRegistry.Registry.AllTokenIDs | internal/marketdata/token_registry.go:54-62 | each registered token exactly once |
| TokenRegistry.Connection.HandleRegistryChange | internal/marketdata/polymarket_price_feed.go:158-199 | subscribed becomes the registry; the two messages are exactly the two differences, each token once; this is the protocol's re-read step |
| TokenRegistry.RunMissesNothing | internal/marketdata/polymarket_price_feed.go:87-140 | in every state a live feed follows the registry or news is on its way; subscribed is within the registry and nothing is ever unsubscribed |
| TokenRegistry.NoLostWakeUp | internal/marketdata/token_registry.go:38-42 | with no signal pending and no Register under way a live feed follows exactly the registered tokens |
| TokenRegistry.WaitEnds | internal/marketdata/polymarket_price_feed.go:47-53 | a feed waiting for its first token is never stuck: it can connect and then follows everything |
| TokenRegistry.OneReadCatchesUp | internal/marketdata/polymarket_price_feed.go:134-136 | one take and one read catch up with any number of Registers |
| TokenRegistry.Reconnects | internal/marketdata/polymarket_price_feed.go:56-94 | a broken connection is made again and follows everything registered by then |
| TokenRegistry.FollowsForGood | internal/marketdata/polymarket_price_feed.go:158-181 | a live connection never drops a token |
| Snapshot.GroupRows | internal/catalog/http.go:151-206 | the row loop fills the maps with the first row's columns, the orders with first occurrences, and the selections in row order |
| Snapshot.FetchOdds | internal/catalog/http.go:247-283 | exactly the cached odds of the keys asked for, none when the read fails |
| Snapshot.BuildEventsSnapshot | internal/catalog/http.go:146-238 | the loops build the specified nested result, with the cached pair of every selection or 0 and 0 |
| Snapshot.OnceInFirstRowOrder | internal/catalog/http.go:171-199 | the order lists hold each event id and each market id of the rows exactly once, ordered by first row |
| Snapshot.NestedOnce | internal/catalog/http.go:226-237 | in the nested result each event appears exactly once and each market in exactly one event, once there, all in first-row order |
| Snapshot.SelectionsKeepRowOrder | internal/catalog/http.go:201-206 | a market's selections are its rows, all of them, in row order, however markets interleave |
| Snapshot.CountSnapshot | internal/catalog/http.go:146-238 | how often any row comes out of the nested result |
| Snapshot.LosslessExactly | internal/catalog/http.go:146-238 | the nested result flattens to a permutation of the rows exactly when the rows agree about their markets and events |
| Snapshot.PricesChangeNoStructure | internal/catalog/http.go:212-222 | odds injection changes no structure |
| StatusCache.Catalog.Pipeline | internal/catalog/status_cache.go:47-69 | the OPEN and SUSPENDED markets and no others |
| StatusCache.Catalog.Warm | internal/catalog/status_cache.go:47-77 | the pass sets exactly those keys, or some of them when the pipeline fails, leaves CLOSED and SETTLED markets' keys alone, and every market sees it as a read and a SET of the interleaved model |
| StatusCache.Catalog.SetMarketStatus | internal/catalog/service.go:142-152 | the database first, the cache only after it, and after an UPDATE that found no row too; a run of the interleaved model |
| StatusCache.AnsweredFor | internal/catalog/status_cache.go:13-16 | an entry is answered for five seconds from its SET and not longer |
| StatusCache.GetIsAnswer | internal/betacceptance/bet_flow.go:170-175 | the cache answers what the interleaved model answers |
| StatusCache.BoundedStaleness | internal/catalog/status_cache.go:47-77 | when statuses are set only for markets with a row, any answer at t was the database status at some instant of [t - 5 s - D, t], under any interleaving |
| StatusCache.WriteThroughExactly | internal/catalog/service.go:142-152 | after a write-through the answer is that status, and it was the database's in the window exactly when the market has a row |
| StatusCache.ClosedIsRefused | internal/betacceptance/bet_flow.go:170-178 | a market that has not been open for longer than 5 s + D, with a row or without, is refused by every placement |
| StatusCache.BoundIsTight | internal/catalog/status_cache.go:47-77 | for every D a run answers OPEN exactly 5 s + D after the market was closed |
| WholeWord.Index | internal/marketdata/event_matcher.go:57 | the first occurrence, or none |
| WholeWord.ContainsWholeWord | internal/marketdata/event_matcher.go:55-71 | terminates, and is true exactly when some occurrence has no ASCII letter on either side, the empty word included |
| WholeWord.FindByTeams | internal/marketdata/event_matcher.go:36-50 | an event naming both teams as whole words, if and only if there is one |
| WholeWord.LetterExactly | internal/marketdata/event_matcher.go:73-75 | the letters are bytes 65 to 90 and 97 to 122 |
| WholeWord.JoinedNameIsNotFound | internal/marketdata/event_matcher.go:52-71 | a lower-case name is not found where a lower-case letter is joined to it on either side |
| WholeWord.EmptyWord | internal/marketdata/event_matcher.go:55-71 | the empty word is found exactly where no letter touches some position |
| WholeWord.LongerNameMatches | internal/marketdata/event_matcher.go:52-71 | a name that extends the team's by a separate word always matches |
| ClientView.ApplyOddsUpdate | frontend/src/hooks/useEventsWS.ts:27-55 | a selection of the named market shows the first line for its id, all other selections, ids and scores are as before, and every flash names a selection whose price moved, up exactly when the line's decimal is the higher |
| ClientView.ApplyScoreUpdate | frontend/src/hooks/useEventsWS.ts:57-86 | the updated view, the id that changed, and whether points changed |
| ClientView.FlashesExactly | frontend/src/hooks/useEventsWS.ts:36-43 | a flash is in `changed` exactly when a selection whose odds differed gives it |
| ClientView.FlashesOnceEach | frontend/src/hooks/useEventsWS.ts:36-43 | `changed` lists every selection of the market whose odds differed once, in view order, with its direction, and no other |
| ClientView.NoFlashNoChange | frontend/src/hooks/useEventsWS.ts:32-54 | `changed` is empty exactly when the view stays as it was |
| ClientView.LastWriterWins | frontend/src/hooks/useEventsWS.ts:27-86 | after a snapshot and any updates the view is the snapshot overlaid with the last update of each selection and each event |
| ClientView.SnapshotErases | frontend/src/hooks/useEventsWS.ts:143-149 | a snapshot erases everything before it |
| ClientView.OddsOnce | frontend/src/hooks/useEventsWS.ts:27-55 | applying the same odds again changes and flashes nothing |
| ClientView.ScoreOnce | frontend/src/hooks/useEventsWS.ts:57-86 | applying the same score again changes nothing and, except under the empty id, reports no change |
| ClientView.OddsAndScoresCommute | frontend/src/hooks/useEventsWS.ts:27-86 | odds and score updates commute |

## Left out

- Kafka, Redis, Postgres, gRPC, HTTP and WebSocket libraries, JSON, logging, `main` functions, UUID generation, passwords and sessions: only their effects are steps (log append, keyed cell with expiry, row lock, unique key); identifiers that the source draws at random are assumed new.
- IEEE-754 rounding: prices are exact reals, so the bisection's last steps and `q < feed` at equality can differ by a rounding error.
- 64-bit overflow of balances: Postgres raises an error, which is an abort of the call here.
- Nil request fields, currencies, payment methods and the provisioning of `user_limits`: they do not touch the two tables' amounts.
- Cancelled contexts inside a statement: a call aborts between statements.
- DailyLimit.EveryWindowWithinLimit: holds under four conditions, each of which `DailyExcess` shows to be needed; a placement that crashes before its answer counts as a call that has not ended.
- StatusCache.BoundedStaleness: assumes that a SET that takes effect does so at most D after its read or write; the source sets no such bound. Market rows are never deleted, as in the source.
- CreditBalance's reply: it is read after the commit in a statement of its own, so `WalletSerial.Serializable` promises the replies of the other three RPCs only.
- PlacementTheorems.PublishedBetIsFunded: a relay may fetch any READY rows rather than the oldest, which allows more runs than the query does; `SKIP LOCKED` has no effect of its own, since the lock is gone when the query ends.
- Idempotency keys under overlapping calls: the check and the write are not atomic, so no uniqueness holds. Expiry of odds: a read that finds nothing is a refusal either way.
- Transaction confirmation end to end: the relay sends no transaction_id header, so the header is an optional input of the handler.
- Topic dispatch and offsets: consumers subscribe to dashed names and switch on dotted ones, and a later message's mark passes a failed one; the handlers themselves are the steps.
- Settlement: losses release nothing from in flight and payouts are deducted from it; it appears only as a source of credits.
- CreditBalance's idempotency, beyond `WalletTheorems.RetryExactly`: it has none.
- Lag checker, `PartitionForMarket` (its signed remainder can be negative), broadcaster, `computeIsMain`, stale-transaction reconciliation, GetBalance, liability adjustment, score feeds and display mapping: easy, or no clean property holds.
- `find20CentDelta` is used by the repository's tests only; it is modelled because it is the numeric core of the 20-cent line.
- Snapshot: the query itself; rows that fail to scan are skipped before the model starts. Keys of the odds map are pairs here, strings joined by a colon in the source, so a collision of ids containing a colon is not captured.
- WholeWord.FindByTeams: names are lower-cased before the model starts, so case folding is not captured.
- ClientView: React's scheduling of state updates, the flash timers, reconnection and object identity; the reducers are modelled on values.
- TokenRegistry: tokens whose subscribe message failed to send stay in `subscribed`; `announced` records what the peer was told, and no liveness is claimed for it.
