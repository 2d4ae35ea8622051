# Auction, wallet and order service: a verified model

The repository is a live-auction backend. Sellers offer auctions; users and bots bid, and each bid withholds its
price from the bidder's wallet; an auction ends by its timer, by an administrator or by a buy-now; the end creates a
pending order that is paid, fails or times out, and in the last two cases the auction opens again. This project
models the transactions of that backend and proves what they keep, over every run of the service.

The money, the prices and the order status live in different tables that several services change. The model therefore
has four layers, each proved against the one above it.

1. **Specification on values.** `schema.dfy` holds the tables, `wallet_moves.dfy` the five wallet moves,
   `transactions.dfy` every transaction as a function from a database to a database and a result; an exception leaves
   the database as it was. `payload.dfy` is the finalize payload, printed and parsed, and `jobs.dfy` the scheduled
   jobs, row by row.
2. **Runs.** `service.dfy` is the service: the committed database and the work its processes carry between
   transactions (a close still to be finalized, a payment decided but not committed, and so on). Every interleaving of
   these steps, with failing finalizes, failing payments and crashes, is a sequence of actions. `market_invariant.dfy`,
   `database_invariant.dfy` and `locality.dfy` hold the invariant and the frame of each transaction, and `outcomes.dfy`
   what each one comes to in every case, column by column and coin by coin; `runs.dfy`, `prices.dfy`,
   `order_history.dfy`, `departures.dfy`, `buy_now.dfy`, `finalize.dfy`, `job_accounts.dfy`, `losers.dfy`,
   `payments.dfy`, `bidding.dfy`, `stuck.dfy`, `closing_job.dfy`, `timeout_job.dfy` and `bots.dfy` the theorems, and
   `witnesses.dfy` runs from an empty service into the states where a promise fails.
3. **Statements.** `row_lock.dfy` cuts the transactions that lock an auction into their SQL statements and interleaves
   them; `statements.dfy` says which columns an UPDATE sets. `order_lock.dfy` does the same for the payments and
   reopenings of one order, which meet at the order's row; `release_race.dfy` and `debit_race.dfy` for the release
   transactions and for the debits, which no lock on an auction or a bid keeps apart; `release_deadlock.dfy` says when
   release transactions block each other. `schedules.dfy` holds the schedules that the last four share.
4. **Imperative services.** `storage.dfy` is a database whose tables the statements update in place, with BEGIN,
   COMMIT and ROLLBACK; `wallet_service.dfy`, `auctions_service.dfy` and `orders_service.dfy` are the services with
   their loops and early exits. Each method is proved to do exactly what its function in layer 1 says.

`pagination.dfy` stands alone: the auction list and its cursor.

## What the code does and does not guarantee

Proved over every run of the service, each transaction being one step of it:

* The total of all balances and all bids' accounts (hold, less release, less conversion) is conserved but for deposits;
  so what the users own is what they opened with, what they deposited, and the prices of bids that were released or
  converted without ever being held (`Runs.MoneyAccounted`). The ledger explains every balance, and
  balances never go negative.
* A paid order took its price from its buyer in one ledger row and gave it to the seller of its auction in another, once
  each, and no other order has such a row (`OrderHistory.PaidOnceToSeller`). Every order was sold by a close to the
  highest live bidder of that moment at that price, or by a buy-now (`OrderHistory.OrderHasOrigin`), and a buy-now sells
  at the price its request read, whatever runs in between (`BuyNows.SoldAtPriceRead`).
* A live bid stays live unless it is released in the same transaction or a close lists it for the finalize
  (`Departures.LeavesOnlyBy`); a closing job leaves every loser of its closes released or stored for the retry, unless
  finalize and persist both failed (`JobAccounts.JobAccountsForLosers`).
* A bid is held and released at most once, with its own price, and never released after it paid for an order. What
  happens when releases, or debits of one user, overlap statement by statement are the first two exceptions below.
* An auction's orders and its status agree; a paid order's auction never reopens. A bid that gets through extends the
  auction exactly if it comes in the last ten seconds and fewer than three did so before, in the auction's whole life; an
  auction ends by its timer, and then not before its end time, by an administrator, or by a buy-now
  (`Bidding.BidClockIff`, `Bidding.EndsOnlyBy`).
* Losers of a close are accounted for while the auction stays closed, and one retry recovers them. That no older result
  of the auction interferes is proved under the unique index on the order's auction (`Finalize.FreshCloseIsOnly`,
  `Finalize.LosersAccounted`); without it, `Finalize.NoLoserLost` takes it as a hypothesis.
* Every interleaving of statements under the row lock is serial in lock order, results included.
* So is every interleaving of payments and reopenings of one order, in the order of their ends: a pending order is taken
  at most once, paid or reopened and never both, and whoever comes later is told so (`OrderLock.PaidOrReopened`).

On every auction on which no bot's hold failed, the price of an open auction is its best live bid, live prices differ,
bids refine an ascending auction, and no bid creates money (`prices.dfy`, `bidding.dfy`).

Where a promise fails, the exact condition is proved; runs and schedules that get there are named:

* **Overlapping releases.** `releaseBidHold` counts, credits and inserts without a lock or a unique index
  (`backend/src/wallet/wallet.service.ts:46-63`, `backend/supabase/migrations/001_init.sql:136-147`), and two jobs run
  the retry pass. In every schedule a bid gets one release row for each transaction that counted it before the first of
  them committed (`ReleaseRace.RowsAreEarlyCommitters`), so exactly-once holds exactly if at most one did
  (`ReleaseRace.ReleasedOnceIff`), and all but one of them create its price (`ReleaseRace.RaceMints`,
  `ReleaseRace.SurplusOf`). Two retries of one payload are enough (`ReleaseRace.TwoRetriesReleaseTwice`,
  `ReleaseRace.TwoRetriesInFlight`).
* **Overlapping debits.** A hold or a direct payment reads the balance without a lock before it debits
  (`backend/src/wallet/wallet.service.ts:17-26`), and no CHECK keeps a balance above zero. Debits that the
  opening balance covers one by one never overdraw a user, in any schedule, exactly if it covers them together
  (`DebitRace.NeverOverdrawnIff`); no balance goes below zero while each debit commits on the balance it read
  (`DebitRace.NoneStaleNonNegative`).
* **A bot bid whose hold fails** returns after its row was inserted, and the transaction commits
  (`backend/src/auctions/auctions.service.ts:541`). The auction's price stays its best live price exactly when this
  does not happen (`DatabaseInvariant.BotKeepsIff`). The row is never held later and creates its price exactly if it is
  ever released or converted (`Bots.FailedHoldMintsMoney`): converted when it wins (`Bots.UnheldWinnerMints`), released
  when it is outbid (`Bots.UnheldLoserMints`). `Witnesses.MintingIsReachable` is such a run. Above the buy-now price
  the row stops every close (`Stuck.CloseFailsIff`, `Witnesses.JamIsReachable`). A bot's own price computation never
  causes it while its balance has not fallen (`Bots.ComputedBidIsHeld`).
* **Refused reopenings.** A CHECK refuses to reopen an auction exactly if it has a live bid above its buy-now price
  (`DatabaseInvariant.ReopenRefusedIff`); a buy-now commits there all the same (`TimeoutJob.BoughtRefusedIff`). Its
  order stays pending until it is paid (`TimeoutJob.RefusedUntilPaid`), and since the timeout job has no handler around
  its transactions (`backend/src/orders/orders.service.ts:382-449`) it ends at the first such order of its list
  and reopens nothing behind it (`TimeoutJob.JobOutcome`), hour after hour (`TimeoutJob.JobsNeverPassRefused`).
  `Witnesses.RefusalIsReachable` is a run to such an order.
* **Lost losers.** A disqualified, unreleased bid is released by some run exactly if a process is about to finalize it,
  a closed row's payload lists it, or a process is about to persist it and its auction is not stuck
  (`Losers.LostIff`); otherwise it is lost for ever. A reopening loses the bids that only the payload remembered
  (`Losers.ReopeningLoses`), a persist that lands on an open row those it lists (`Losers.PersistingLoses`), since the
  retry job reads closed rows only and a close nulls the payload (`Losers.OpenPayloadIsDead`).
  `Witnesses.LossIsReachable` is such a run.
* **One order per auction.** The unique index `Order_auctionId_key`
  (`backend/supabase/migrations/001_init.sql:130`) makes a reopened auction with a live bid fail every close and
  every buy-now from then on (`Stuck.CloseFailsIff`, `Stuck.StuckForever`); such a state is reachable
  (`Witnesses.StuckIsReachable`), and from its end on no closing job ever closes an auction that ends later
  (`ClosingJob.JobsNeverPassStuck`). The flag `uniqueOrder` of the model says whether the index is there; results that
  need it require it.
* **A buy-now at one's own leading price** is paid by converting that bid's hold. The other bidders' holds are then
  never released (`Payments.BuyNowRefunds`, `Payments.BuyNowStrands`), and if it is not paid, the buyer's bid is
  disqualified instead of restored (`Payments.BuyNowUndone`). `Witnesses.StrandingIsReachable` is such a run.
* **A close keeps the winner's own lower bids withheld**, also after the payment (`Payments.OnlyWinnersOwnRemain`).
* **Total assets** as the service reports them count a hold that paid for an order as long as the ledger exists; they
  are balance plus withheld prices exactly for users who never paid that way (`Runs.TotalAssets`).
* **Finalizes lock user rows** in the order of their losers. Two of them can deadlock, in some schedule, exactly if there
  are places in their lists (losers skipped that were released before) up to which they share no user and at which each
  needs a user that the other has passed (`ReleaseDeadlock.DeadlockIff`). Two retries of one payload never do
  (`ReleaseDeadlock.RetriesNeverDeadlock`), nor two lists that begin with the same user
  (`ReleaseDeadlock.CommonFirstUser`), nor any number of lists that visit their users in one common order
  (`ReleaseDeadlock.AscendingNeverDeadlocks`); two losers each in opposite order do (`ReleaseDeadlock.FinalizesDeadlock`).
* **The descending sorts** (`popular`, `bid_count`, `newest`) list the id upwards but cut at smaller ids; following the
  cursor enumerates the list exactly when no page ends on a shared key (`Pagination.FollowEnumerates`,
  `Pagination.TiedPricesAreSkipped`).
* **A buy-now price read before the lock** only has to lie between the start price and the buy-now price of the locked
  row; live bids are not looked at (`Stuck.BuyNowCommitsIff`).
* **A bid above the buy-now price** passes every check of the service and is then aborted by a CHECK constraint
  (`Bidding.BidAcceptedIff`).
* **The bot's bid unit** has no CHECK; the computed price reaches the minimum bid for every draw exactly when the unit
  is at least -1 (`Bots.BidReachesMinimum`).

## Model

| member | source | states |
|---|---|---|
| Payload.ParseCloseResultFromPayload | backend/src/orders/orders.service.ts:60-95 | the parser with its early returns and its pushing loop accepts exactly the well-formed payloads and returns what they say |
| Payload.RoundTrip | backend/src/orders/orders.service.ts:51-95 | every close result, printed for the database, parses back to itself |
| Payload.PrintIs | backend/src/orders/orders.service.ts:51-58 | the print field by field |
| Payload.PrintInjective | backend/src/orders/orders.service.ts:51-58 | two close results of one auction never print alike |
| Payload.ParseIsNormalising | backend/src/orders/orders.service.ts:60-95 | whatever is parsed is stable under printing and parsing again |
| WalletMoves.HoldKeeps | backend/src/wallet/wallet.service.ts:11-37 | a covered hold keeps the wallet invariant, moves the price from the balance to the bid's account, and is explained by its ledger row |
| WalletMoves.UnheldKeeps | backend/src/auctions/auctions.service.ts:525-541 | a bid row inserted without its hold moves nothing and has nothing on its account |
| WalletMoves.ClaimsSplit | backend/src/wallet/wallet.service.ts:11-133 | the accounts of all bids add up to what is withheld, less what was released or converted without a hold |
| WalletMoves.ReleaseKeeps | backend/src/wallet/wallet.service.ts:40-64 | releasing a disqualified bid gives back what it withheld, once however often it is called, and touches no other bid |
| WalletMoves.ReleaseAllKeeps | backend/src/orders/orders.service.ts:193-204 | the release loop leaves each listed bid with exactly one release and conserves the money |
| WalletMoves.PayKeeps | backend/src/wallet/wallet.service.ts:67-93 | a covered payment debits exactly the amount and releases nothing |
| WalletMoves.SettleKeeps | backend/src/wallet/wallet.service.ts:96-115 | the settlement credits exactly the amount and releases nothing |
| WalletMoves.ConvertKeeps | backend/src/wallet/wallet.service.ts:118-133 | converting a live bid's hold stops it withholding, moves no balance, and the ledger still explains the wallet |
| WalletMoves.SumActiveIs | backend/src/database/repositories/wallet.repository.ts:9-28 | the query's sum is what the user's bids withhold plus the holds the user paid by, so it is the withheld sum if and only if there are none |
| MarketInvariant.BidKeeps | backend/src/auctions/auctions.service.ts:396-436 | an accepted bid keeps the CHECKs, the coupling of orders and status, and the settlement of paid orders on every auction |
| MarketInvariant.BidLeads | backend/src/auctions/auctions.service.ts:396-436 | an accepted bid heads the live bids of its auction, its price is the auction's, and live prices stay distinct and under the buy-now price |
| MarketInvariant.UnheldLeads | backend/src/auctions/auctions.service.ts:525-541 | a bot's row without its hold heads them too, above the price the auction goes on showing |
| MarketInvariant.CloseKeeps | backend/src/orders/orders.service.ts:122-181 | a close that the CHECKs admit keeps the market invariant: one order, for the winner, at the auction's price |
| MarketInvariant.ClosePrice | backend/src/orders/orders.service.ts:142-145 | the final price of a close is the current price as it stands, while the prices are in order |
| MarketInvariant.BuyNowKeeps | backend/src/orders/orders.service.ts:486-505 | a buy-now keeps the market invariant |
| MarketInvariant.PayKeepsMarket | backend/src/orders/orders.service.ts:544-603 | a payment by either branch keeps the market invariant |
| MarketInvariant.BaselineIsBest | backend/src/orders/orders.service.ts:686-689 | the price a reopening writes is the best live price of the bids it leaves |
| MarketInvariant.ReopenRowOkIff | backend/src/orders/orders.service.ts:690-700 | a CHECK constraint refuses a reopening if and only if the auction has a live bid above its buy-now price; none does while the prices are in order |
| MarketInvariant.ReopenKeepsMarket | backend/src/orders/orders.service.ts:636-703 | a reopening keeps the market invariant |
| MarketInvariant.PatchKeeps | backend/src/auctions/auctions.service.ts:756-807 | an edit keeps the market invariant, with bids or without |
| MarketInvariant.DeleteKeeps | backend/src/auctions/auctions.service.ts:810-843 | a deletion keeps the market invariant |
| MarketInvariant.CreateKeeps | backend/src/auctions/auctions.service.ts:93-148 | a new auction keeps the market invariant |
| DatabaseInvariant.PlaceBidKeeps | backend/src/auctions/auctions.service.ts:346-436 | the user's bid keeps all invariants and conserves the money of everyone, accepted or not |
| DatabaseInvariant.BotKeeps | backend/src/auctions/auctions.service.ts:489-560 | the bot's bid keeps all invariants and conserves the money of everyone, also when its hold fails after the insert |
| DatabaseInvariant.BotKeepsIff | backend/src/auctions/auctions.service.ts:489-560 | the bot's bid keeps the auction's price its best live price if and only if its hold does not fail after the insert |
| DatabaseInvariant.CloseKeepsDb | backend/src/orders/orders.service.ts:122-181 | a close conserves the money and evolves the tables |
| DatabaseInvariant.PayOrderKeeps | backend/src/orders/orders.service.ts:544-603 | the payment transaction conserves the money, given the decision it would take itself |
| DatabaseInvariant.ReopenKeepsDb | backend/src/orders/orders.service.ts:376-450 | a reopening conserves the money |
| DatabaseInvariant.ReopenRefusedIff | backend/src/orders/orders.service.ts:376-450 | a reopening throws, and changes nothing, if and only if it would reopen an auction with a live bid above its buy-now price |
| DatabaseInvariant.TopUpKeepsDb | backend/src/database/repositories/bot.repository.ts:160-165 | a top-up adds exactly its amount to the total and to one user |
| DatabaseInvariant.DecisionFrozen | backend/src/orders/orders.service.ts:539-542 | while an order stays pending, the winner decision about it does not change |
| DatabaseInvariant.EvolvesTransitive | backend/src/orders/orders.service.ts:544-550 | PENDING is never re-entered and what an active order covers stands still, over any number of transactions |
| Outcomes.LocksAre | backend/src/auctions/auction-lock.helper.ts:22-40 | which rows the four lock statements find, by status and end time |
| Outcomes.BidOutcome | backend/src/auctions/auctions.service.ts:346-436 | a user's bid in every case: its error, or the bid row, the auction's row with the soft close in numbers, the price off one balance and one ledger row |
| Outcomes.BotBidOutcome | backend/src/auctions/auctions.service.ts:489-560 | a bot's bid in every case, the row left behind by a hold that fails included |
| Outcomes.CreateOutcome | backend/src/auctions/auctions.service.ts:93-148 | a new auction in every case, column by column |
| Outcomes.EditOutcome | backend/src/auctions/auctions.service.ts:756-807 | an edit in every case: when it is accepted, and the row column by column |
| Outcomes.DeleteOutcome | backend/src/auctions/auctions.service.ts:810-843 | a deletion in every case, and that nothing else goes |
| Outcomes.CloseOutcome | backend/src/orders/orders.service.ts:122-181 | a close in every case: winner, price, each losing bid listed once and disqualified, the order and the row |
| Outcomes.PayResults | backend/src/orders/orders.service.ts:544-603 | which payments commit, conflict or are refused, and the tables after a direct one |
| Outcomes.ConversionOutcome | backend/src/orders/orders.service.ts:555-603 | a payment by conversion: the seller gains the price, nobody else's balance moves, two ledger rows, and the order's status |
| Outcomes.ReopenOutcome | backend/src/orders/orders.service.ts:636-702 | a reopening in every case: refused, or the row open for an hour at the next price, and the defaulter's bid disqualified and its hold given back once |
| Outcomes.BuyOutcome | backend/src/orders/orders.service.ts:453-515 | a buy-now request in every case, in terms of what it read and the locked row; row and order carry the price it read and the buyer |
| Service.ApplyGood | backend/src/orders/orders.service.ts:188-703 | every action of the service keeps the invariant and conserves the money but for deposits |
| Runs.RunInv | backend/src/database/database.service.ts:42-56 | the invariant holds after every run, and the tables only evolve |
| Runs.MoneyConserved | backend/src/wallet/wallet.service.ts:11-133 | over any run, balances plus the accounts of all bids grow by the deposits and nothing else, a release transaction being one step |
| Runs.MoneyAccounted | backend/src/wallet/wallet.service.ts:11-133 | what the users own is opening balances plus deposits plus the prices of bids released or converted without a hold, and no more than opened and deposited if and only if there are none |
| Runs.LedgerExplainsBalance | backend/src/wallet/wallet.service.ts:17-26 | in every reachable state a balance is the opening balance plus deposits plus ledger rows plus converted prices, and not negative, a debit being part of one step |
| Runs.TotalAssets | backend/src/database/repositories/wallet.repository.ts:9-28 | in every reachable state, total assets are the balance, what the user's bids withhold, and the holds the user paid by; without the last exactly for users who never paid that way |
| Runs.ReleasedOnce | backend/src/wallet/wallet.service.ts:40-64 | in every reachable state a bid has at most one hold and at most one release, of the same amount, after disqualification and never of a converted bid, a release transaction being one step |
| Runs.ConvertedNeverReleased | backend/src/wallet/wallet.service.ts:118-133 | no run releases a bid that paid for an order |
| Runs.OrderAuctionCoupling | backend/src/orders/orders.service.ts:399-447 | open: no pending or paid order; closed with a winner: exactly one, the winner's; closed without: none |
| Runs.PaidNeverReopens | backend/src/orders/orders.service.ts:399-411 | once an order is paid its auction stays closed in every later run |
| Prices.PriceStep | backend/src/orders/orders.service.ts:122-703 | every action keeps an auction's prices in order, but a bot bid on it that fails on its hold |
| Prices.OpenPriceIsBest | backend/src/orders/orders.service.ts:432-447 | in every reachable state, the price of an open auction on which no hold failed is the highest live price or the start price, and live prices differ |
| Prices.NothingMinted | backend/src/wallet/wallet.service.ts:11-133 | in a run in which every bot hold goes through, the users own what they opened with and deposited |
| OrderHistory.NewOrder | backend/src/orders/orders.service.ts:142-167 | an action makes at most one order, pending: a buy-now's, or a close's for the highest live bidder at that price |
| OrderHistory.OrderHasOrigin | backend/src/orders/orders.service.ts:142-515 | every order of a reachable state was sold so by some action of the run |
| OrderHistory.PaidOnceToSeller | backend/src/orders/orders.service.ts:555-603 | in every reachable state a paid order has one payment row of its buyer and one settlement row of its auction's seller, at its price; any other order has none |
| BuyNows.AskedStep | backend/src/auctions/auctions.service.ts:756-807 | only an edit of it changes an auction's buy-now price |
| BuyNows.SoldAtPriceRead | backend/src/orders/orders.service.ts:453-515 | a buy-now that reads, waits through any run and succeeds sells at the price it read, to its buyer, and the order keeps both in every later run |
| Departures.LeavesOnlyBy | backend/src/orders/orders.service.ts:169-703 | an action takes a bid off the live ones only by releasing it or by a close that lists it for a finalize in flight |
| Departures.DisqualifiedWithReason | backend/src/orders/orders.service.ts:169-703 | over every run, a disqualified bid has exactly one release or some close of the run listed it |
| Runs.DecisionMatchesClaim | backend/src/orders/orders.service.ts:539-565 | the winner decision taken before the payment transaction is right whenever its claim succeeds |
| Runs.PaidStrandsLiveBids | backend/src/orders/orders.service.ts:555-561 | a bid that is live when its auction's order is paid is never released afterwards |
| Runs.PayloadNeverDropped | backend/src/orders/orders.service.ts:268-279 | every stored payload is one the service printed, and the retry job never drops one |
| Locality.ActionLocal | backend/src/auctions/auction-lock.helper.ts:22-40 | an action leaves every auction it does not lock alone: row, bids and orders |
| Finalize.ReleaseSettles | backend/src/orders/orders.service.ts:193-204 | one committed release transaction settles a whole close result |
| Finalize.NoLoserLost | backend/src/orders/orders.service.ts:188-321 | while the auction stays closed, no other result of it is in flight and this one is not dropped, its losers are released, in flight or in the row |
| Finalize.RetryRecovers | backend/src/orders/orders.service.ts:263-292 | from the row alone the retry job rebuilds the close result and releases every loser |
| Finalize.FreshCloseIsOnly | backend/src/orders/orders.service.ts:147-167 | under the order index a close that sells finds no older result of its auction in flight |
| Finalize.LosersAccounted | backend/src/orders/orders.service.ts:188-321 | under the order index, from every reachable state, the losers of a close stay accounted for as long as the auction stays closed |
| Finalize.SafeFinalizeIsRun | backend/src/orders/orders.service.ts:297-321 | finalizing with any fault is a run of the service |
| JobAccounts.FinalizeOutcome | backend/src/orders/orders.service.ts:188-236 | finalize fault by fault: it throws and leaves everything, or each loser has one release, each user the own prices that were due, and the payload is cleared unless that fails |
| JobAccounts.SafeFinalizeOutcome | backend/src/orders/orders.service.ts:297-321 | the same with its persist: when finalize throws the row keeps the result, unless that fails too and nothing is done |
| JobAccounts.CloseAccounts | backend/src/orders/orders.service.ts:331-372 | a close with the finalize after it leaves its losers released or stored, unless finalize and persist both failed |
| JobAccounts.JobAccountsForLosers | backend/src/orders/orders.service.ts:331-358 | at the end of a closing job that holds of every auction it closed |
| JobAccounts.RetryAccountsForLosers | backend/src/orders/orders.service.ts:263-292 | after the retry pass each row it read has its losers released, or still holds its result where finalize threw |
| Losers.LostForever | backend/src/orders/orders.service.ts:188-204 | a disqualified bid that nobody remembers is never released in any later run |
| Losers.LostIff | backend/src/database/repositories/auction.repository.ts:71-89 | a disqualified, unreleased bid is out of reach of every run if and only if no process and no closed row remembers it and processes that would persist it find a stuck auction |
| Losers.ReopeningLoses | backend/src/orders/orders.service.ts:690-700 | a reopening loses exactly the auction's unreleased disqualified bids that no process is about to finalize, or to persist where that still helps |
| Losers.PersistingLoses | backend/src/orders/orders.service.ts:238-249 | persisting loses a bid it lists if and only if the row is open and nobody else remembers the bid |
| Losers.OpenPayloadIsDead | backend/src/orders/orders.service.ts:147-156 | a payload on an open row is not retried in any run until another one is persisted for the auction |
| Losers.StuckNeverRetried | backend/src/database/repositories/auction.repository.ts:71-89 | and on a stuck auction never again |
| Payments.BuyNowUndone | backend/src/orders/orders.service.ts:636-702 | a failed buy-now restores everything but end time, payload and one cancelled order, if and only if the buyer did not lead with the price and the auction showed its best live price; it is reopened at all if and only if no live bid is above the buy-now price |
| Payments.BuyNowUndoneLater | backend/src/orders/orders.service.ts:376-450 | the same with any run of the service in between |
| Payments.DirectPayment | backend/src/orders/orders.service.ts:562-603 | a payment without a hold: every balance and every ledger row to the coin, each live bid released once, none left live |
| Payments.PaidByCommit | backend/src/orders/orders.service.ts:544-554 | an order becomes paid only by a committed payment transaction |
| Payments.PaidOutcome | backend/src/orders/orders.service.ts:555-603 | over any run, a paid order released either all live bids of its auction, once each, or none, depending on the leading bid |
| Payments.BuyNowRefunds | backend/src/orders/orders.service.ts:539-594 | a paid buy-now refunds every other bidder if and only if the buyer did not lead with the price, or nobody else had a live bid |
| Payments.BuyNowStrands | backend/src/orders/orders.service.ts:555-561 | otherwise the others' holds stay withheld in every later run |
| Payments.OnlyWinnersOwnRemain | backend/src/orders/orders.service.ts:169-178 | after close, finalize and payment, of the bids live at the close exactly the winner's own are unreleased |
| Payments.PayRequestOutcome | backend/src/orders/orders.service.ts:525-633 | an uninterrupted payment request in every case: each refusal, both ways to pay, and the reopening when the money is missing |
| Payments.PayRequestIsRun | backend/src/orders/orders.service.ts:525-633 | an uninterrupted payment, with its reopening, is a run of the service |
| Bidding.BidAcceptedIff | backend/src/auctions/auctions.service.ts:352-428 | exactly which bids are accepted, the constraint on the buy-now price included |
| Bidding.NewAuctionTakesBids | backend/src/auctions/auctions.service.ts:107-148 | a new auction takes, until the end it was given, exactly the covered bids of others from start price plus increment up to the buy-now price |
| Bidding.DeletesOwnUnsoldOnly | backend/src/auctions/auctions.service.ts:810-843 | a deletion commits if and only if it is the seller's or an administrator's, of an auction without bids and without a pending or paid order, and takes nothing else away |
| Bidding.RunAscends | backend/src/auctions/auctions.service.ts:396-436 | every run of bids in which no hold fails refines an ascending auction: each accepted bid is a legal raise, and the last one leads |
| Bidding.CloseSellsToLast | backend/src/orders/orders.service.ts:142-167 | the close after it sells to the last accepted bidder at the last accepted price |
| Bidding.BidClockIff | backend/src/auctions/auctions.service.ts:61-90 | a bid that gets through moves the clock if and only if it comes in the last ten seconds and fewer than three extensions were made, and then by five minutes |
| Bidding.ClockStep | backend/src/auctions/auctions.service.ts:61-90 | an action leaves an auction's end alone, extends it exactly by a bid of the last ten seconds that gets through, or sets it to the edit's end or an hour after the reopening |
| Bidding.ExtensionsBounded | backend/src/auctions/auctions.service.ts:74-86 | over any run the extension count counts the extensions, and is at most three, reopenings included |
| Bidding.EndMoves | backend/src/auctions/auctions.service.ts:77-80 | bids move the end by five minutes per extension and not otherwise |
| Bidding.EndBounded | backend/src/auctions/auctions.service.ts:74-86 | bids alone never move the end past the old end plus five minutes per extension left |
| Bidding.ExtensionsApart | backend/src/auctions/auctions.service.ts:71-76 | two successive extensions lie more than five minutes minus ten seconds apart |
| Bidding.EndsOnlyBy | backend/src/orders/orders.service.ts:122-515 | only a timed close at or after the end time, an administrator's close, or a buy-now before the end time ends an auction |
| Bots.RandIntUniform | backend/src/bots/bots.service.ts:29-31 | the random integer stays between its bounds and each value has an equal slice of the draws |
| Bots.BidWithinCaps | backend/src/bots/bots.service.ts:245-264 | for every draw the price respects the multiplier cap and the balance |
| Bots.BidReachesMinimum | backend/src/bots/bots.service.ts:257-263 | the price reaches the minimum bid for every draw if and only if the bid unit is at least -1 |
| Bots.EveryPriceIsDrawn | backend/src/bots/bots.service.ts:257-263 | every price from the minimum bid to one unit more, within the caps, has a draw, and with a unit that is not negative no draw gives another |
| Bots.NoBidIff | backend/src/bots/bots.service.ts:257-262 | a bot bids nothing if and only if the minimum bid is above a cap |
| Bots.ComputedBidIsHeld | backend/src/bots/bots.service.ts:245-264 | a computed bid's hold cannot fail while the bot has the balance it was computed with |
| Bots.ReleaseMints | backend/src/wallet/wallet.service.ts:40-64 | a release creates money if and only if it is the first of a bid that was never held, and then its price |
| Bots.ConversionMints | backend/src/orders/orders.service.ts:555-603 | a payment by conversion creates money if and only if the bid it converts was never held |
| Bots.FailedHoldMintsMoney | backend/src/auctions/auctions.service.ts:525-541 | over any run, a bid whose hold failed after the insert creates its price if and only if it is ever released or converted |
| Bots.UnheldWinnerMints | backend/src/auctions/auctions.service.ts:525-541 | one that nobody outbids wins, and its payment adds its price to the money there is |
| Bots.UnheldLoserMints | backend/src/orders/orders.service.ts:193-204 | one that was outbid is refunded by finalize, which adds its price too |
| Stuck.CloseFailsIff | backend/supabase/migrations/001_init.sql:79-130 | a close that gets its lock fails if and only if the auction has a live bid and had an order before, or a live bid above its buy-now price |
| Stuck.BuyNowCommitsIff | backend/src/orders/orders.service.ts:476-515 | when a buy-now commits, in terms of the locked row and the price read before it |
| Stuck.NeverSoldAgain | backend/supabase/migrations/001_init.sql:130 | once an auction's order is cancelled no run gives it another active one |
| Stuck.StuckForever | backend/src/orders/orders.service.ts:158-167 | a stuck auction never closes and its live bids are never released, in any run |
| Stuck.ReopeningSticks | backend/src/orders/orders.service.ts:376-450 | under the index a reopening leaves the auction stuck if and only if the CHECKs admit it and it leaves a live bid |
| Stuck.FailedBuyNowSticks | backend/src/orders/orders.service.ts:453-522 | an unpaid buy-now by somebody else than the leader leads to a stuck auction |
| ClosingJob.BatchThrowsIff | backend/src/orders/orders.service.ts:331-358 | the closing job throws at an auction if and only if that auction was stuck or jammed when it started |
| ClosingJob.NothingBehindBlocked | backend/src/orders/orders.service.ts:331-358 | so nothing behind such an auction in its list is touched |
| ClosingJob.JobStopsAtBlocked | backend/src/database/repositories/auction.repository.ts:315-323 | whether the query lists the blocked auction or its limit cuts it off, no auction that ends later is closed |
| ClosingJob.EndStands | backend/src/auctions/auction-lock.helper.ts:22-40 | once the clocks passed its end, a stuck auction keeps that end in every run |
| ClosingJob.JobsNeverPassStuck | backend/src/orders/orders.service.ts:331-358 | from then on no closing job, retry pass included, ever closes an auction that ends later |
| TimeoutJob.ThrowsIff | backend/src/orders/orders.service.ts:382-449 | the timeout job throws at an order if and only if its auction had a live bid above its buy-now price when the job started |
| TimeoutJob.JobOutcome | backend/src/orders/orders.service.ts:382-449 | the orders before the first such one are cancelled and their auctions open; that one and all behind it are pending on auctions as they were |
| TimeoutJob.BoughtRefusedIff | backend/src/orders/orders.service.ts:486-505 | a buy-now leaves an order that cannot be reopened if and only if it was made on an auction with a bid above the buy-now price |
| TimeoutJob.RefusedUntilPaid | backend/src/orders/orders.service.ts:636-703 | in every run such an order is pending until it is paid, and no reopening of it commits |
| TimeoutJob.JobsNeverPassRefused | backend/src/database/repositories/order.repository.ts:44-51 | after any run, a job that lists such an order ends there or before, and what is behind it in the list stays pending |
| RowLock.StatementKnows | backend/src/auctions/auction-lock.helper.ts:4-41 | a statement under the lock finds what its transaction read unchanged, or ends it with its effect when run alone |
| RowLock.MissKnows | backend/src/auctions/auction-lock.helper.ts:22-40 | a lock statement that finds no row ends the transaction as when run alone at that moment |
| RowLock.InterleavingIsSerial | backend/src/auctions/auction-lock.helper.ts:22-40 | every interleaving of statements gives the tables and the results of the same transactions one after another in lock order |
| RowLock.NeverDeadlocks | backend/src/auctions/auction-lock.helper.ts:22-40 | while a transaction on the auction has not ended, some transaction can move, as far as the auction's row lock goes |
| OrderLock.InterleavingIsSerial | backend/src/orders/orders.service.ts:544-703 | every schedule of payments and reopenings of one order, some given up anywhere, gives the tables and the results of those that ended, one after another in the order of their ends |
| OrderLock.PaidOrReopened | backend/src/orders/orders.service.ts:545-554 | at most one of them takes a pending order, and its status says which kind; those that end before it come to what they come to alone, those after it to a conflict or to nothing |
| OrderLock.NeverDeadlocks | backend/src/orders/orders.service.ts:544-703 | while one of them has not ended some of them can move, as far as the rows of the auction and the order go |
| ReleaseRace.RowsAreEarlyCommitters | backend/src/wallet/wallet.service.ts:46-63 | in every schedule of release transactions a bid gets one release row for each one that counted it before the first of them committed, and committed itself |
| ReleaseRace.ReleasedOnceIff | backend/src/wallet/wallet.service.ts:46-63 | an unreleased bid is released at most once if and only if at most one did, and at least once when any transaction listing it commits |
| ReleaseRace.RaceMints | backend/src/wallet/wallet.service.ts:46-63 | over every schedule the users own more by exactly the surplus of each bid |
| ReleaseRace.SurplusOf | backend/src/wallet/wallet.service.ts:46-63 | the surplus of a bid that was withheld is its price for every early committer but one |
| ReleaseRace.AloneIsLoop | backend/src/orders/orders.service.ts:193-204 | a release transaction that nothing overlaps is the release loop, the step of the run model |
| ReleaseRace.TwoRetriesReleaseTwice | backend/src/wallet/wallet.service.ts:46-63 | two retries that both count before either commits release any unreleased bid twice |
| ReleaseRace.TwoRetriesInFlight | backend/src/orders/orders.service.ts:324-332 | two jobs that read one payload put two finalizes of it in flight |
| ReleaseDeadlock.DeadlockIff | backend/src/orders/orders.service.ts:193-204 | some schedule of two release transactions leaves both waiting for each other if and only if their lists, without the losers released before, have places up to which they share no user and at which each needs a user that the other has passed |
| ReleaseDeadlock.RetriesNeverDeadlock | backend/src/orders/orders.service.ts:263-292 | two retries of one payload never wait for each other |
| ReleaseDeadlock.CommonFirstUser | backend/src/wallet/wallet.service.ts:46-63 | nor do two lists whose first unreleased losers belong to one user |
| ReleaseDeadlock.AscendingNeverDeadlocks | backend/src/orders/orders.service.ts:193-204 | if all lists visit their users in ascending order of one rank, some running transaction can move in every schedule of any number of them |
| ReleaseDeadlock.FinalizesDeadlock | backend/src/orders/orders.service.ts:193-204 | the schedule in which two finalizes of two losers each, of the same two users in opposite order, wait for each other |
| DebitRace.BalanceFalls | backend/src/wallet/wallet.service.ts:17-26 | in every schedule of debits a balance falls by exactly the committed prices, each covered by the balance it read |
| DebitRace.NoneStaleNonNegative | backend/src/wallet/wallet.service.ts:17-26 | no balance goes below zero while every debit commits on the balance it read |
| DebitRace.AloneIsMove | backend/src/wallet/wallet.service.ts:67-93 | a debit that nothing overlaps is the hold or the payment of the wallet |
| DebitRace.NeverOverdrawnIff | backend/src/wallet/wallet.service.ts:11-37 | debits that the opening balance covers one by one never overdraw a user in any schedule if and only if it covers them together |
| Witnesses.StuckIsReachable | backend/src/orders/orders.service.ts:376-450 | a run from nothing that gets an auction stuck |
| Witnesses.LossIsReachable | backend/src/orders/orders.service.ts:690-700 | two bids, a close, a finalize that throws, the payload, the timeout and the reopening lose the losing bid |
| Witnesses.StrandingIsReachable | backend/src/orders/orders.service.ts:555-561 | a second bid at the buy-now price and that bidder's buy-now strand the first bid when paid, and are not undone when not |
| Witnesses.MintingIsReachable | backend/src/auctions/auctions.service.ts:525-541 | a bot with a balance of 10 bids 20, wins and is paid, and 20 have come from nowhere |
| Witnesses.JamIsReachable | backend/src/auctions/auctions.service.ts:525-541 | the same bid above a buy-now price leaves an auction that no close can end |
| Witnesses.RefusalIsReachable | backend/src/orders/orders.service.ts:690-700 | a buy-now of that auction leaves an order that can be paid but never reopened |
| Pagination.FullListIs | backend/src/database/repositories/auction.repository.ts:180-210 | the full list is strictly ordered by the columns of its sort and holds exactly the rows on offer that the filters match |
| Pagination.PageIs | backend/src/auctions/auctions.service.ts:265-276 | a page is the first rows, up to the limit, of what lies behind its cursor row, with the sorts and filters written out, and says whether there are more |
| Pagination.CursorDescends | backend/src/auctions/auctions.service.ts:265-276 | following the cursor terminates, for every sort, table and limit |
| Pagination.FollowEnumerates | backend/src/database/repositories/auction.repository.ts:180-234 | following the cursor collects exactly the full list, always when ascending, and when descending if and only if no page but the last ends on a shared key |
| Pagination.DistinctKeysEnumerate | backend/src/database/repositories/auction.repository.ts:180-234 | so it does whenever the sort keys are pairwise distinct |
| Pagination.GoneCursor | backend/src/database/repositories/auction.repository.ts:211-231 | a cursor whose auction is gone ends the listing, except in the sort by bids |
| Pagination.TiedPricesAreSkipped | backend/src/database/repositories/auction.repository.ts:216-217 | three auctions at one price of which two are never listed |
| Storage.Database.Begin | backend/src/database/database.service.ts:42-46 | BEGIN remembers the tables |
| Storage.Database.Rollback | backend/src/database/database.service.ts:50-52 | ROLLBACK restores all of them and gives up the locks |
| Storage.Database.LockAuctionForUpdate | backend/src/auctions/auction-lock.helper.ts:4-41 | finds the row exactly when the chosen guard holds, and refuses two time bounds at once |
| Storage.Database.UpdateAuction | backend/src/database/transaction-client.ts:365-393 | sets exactly the given columns, or nothing if a CHECK refuses the row |
| Storage.Database.UpdateOrderWhere | backend/src/database/transaction-client.ts:454-477 | changes the order and counts one exactly when id and status match |
| Storage.Database.CountBidReleases | backend/src/database/repositories/wallet.repository.ts:31-38 | counts the release rows of a bid |
| WalletServices.WalletService.HoldForBid | backend/src/wallet/wallet.service.ts:11-37 | holds if the balance covers the amount, else changes nothing |
| WalletServices.WalletService.ReleaseBidHold | backend/src/wallet/wallet.service.ts:40-64 | releases unless the bid has a release already |
| WalletServices.WalletService.Pay | backend/src/wallet/wallet.service.ts:67-93 | debits if the balance covers the amount, else changes nothing |
| WalletServices.WalletService.SettleSeller | backend/src/wallet/wallet.service.ts:96-115 | credits the seller and writes the row |
| WalletServices.WalletService.ConvertHoldToPayment | backend/src/wallet/wallet.service.ts:118-133 | writes the payment row and moves no balance |
| AuctionServices.AuctionsService.BidRefusal | backend/src/auctions/auctions.service.ts:352-398 | the first guard a bid fails, and its error |
| AuctionServices.AuctionsService.PlaceBid | backend/src/auctions/auctions.service.ts:346-436 | refines the user bid transaction, rollback on every refusal |
| AuctionServices.AuctionsService.PlaceBidAsBot | backend/src/auctions/auctions.service.ts:489-560 | refines the bot bid transaction, commit on every refusal, also after the insert |
| AuctionServices.AuctionsService.CreateAuction | backend/src/auctions/auctions.service.ts:93-148 | refuses brand, size, price and end time in turn, then refines the creation |
| AuctionServices.AuctionsService.PatchAuction | backend/src/auctions/auctions.service.ts:756-807 | refines the edit's transaction |
| AuctionServices.AuctionsService.DeleteAuction | backend/src/auctions/auctions.service.ts:810-843 | refines the deletion |
| OrderServices.OrdersService.ExecuteCloseInTransaction | backend/src/orders/orders.service.ts:122-181 | refines the close, loop over the losing bids included |
| OrderServices.OrdersService.ReleaseLosingBids | backend/src/orders/orders.service.ts:193-204 | releases all losers or, thrown at any of them, none |
| OrderServices.OrdersService.FinalizeAuctionClose | backend/src/orders/orders.service.ts:188-236 | refines finalize under every fault |
| OrderServices.OrdersService.SafeFinalizeAuctionClose | backend/src/orders/orders.service.ts:297-321 | persists the payload exactly when finalize threw and persisting works |
| OrderServices.OrdersService.ProcessPendingPostCloseFinalizes | backend/src/orders/orders.service.ts:263-292 | retries row by row and stops only where dropping an invalid payload fails |
| OrderServices.OrdersService.CloseEach | backend/src/orders/orders.service.ts:341-357 | rounds of close and finalize, each with its own faults, until the ids or the time are used up, or a close throws |
| OrderServices.OrdersService.CloseExpiredAuctions | backend/src/orders/orders.service.ts:331-358 | the retry pass first, which ends the job if it throws, then the rounds |
| OrderServices.OrdersService.CloseAuctionForAdmin | backend/src/orders/orders.service.ts:361-372 | closes whatever the end time and says whether it did |
| OrderServices.OrdersService.BuyNow | backend/src/orders/orders.service.ts:453-522 | refines the buy-now from its unlocked reads on |
| OrderServices.OrdersService.ReleaseLiveBids | backend/src/orders/orders.service.ts:580-594 | the loop disqualifies and releases every live bid in turn |
| OrderServices.OrdersService.PayInTransaction | backend/src/orders/orders.service.ts:544-603 | refines the payment transaction by either branch |
| OrderServices.OrdersService.PayOrder | backend/src/orders/orders.service.ts:525-633 | the whole payment request, reopening the auction after any failure but a conflict |
| OrderServices.OrdersService.ReopenInTransaction | backend/src/orders/orders.service.ts:636-703 | refines the reopening |
| OrderServices.OrdersService.CancelExpiredPendingOrders | backend/src/orders/orders.service.ts:376-450 | reopens order by order up to the first one that throws |

## Left out

- Payload.ParseSpec: the source's parser also accepts a losing bid whose price is a number that is not finite; JSON cannot store one, so the model asks for a finite number there as it does for the final price.
- Runs.MoneyConserved: a release transaction is one step of a run, so overlapping releases of one bid, which create money, are no run; `ReleaseRace.RaceMints` says exactly how much they create.
- Runs.MoneyAccounted: as for `Runs.MoneyConserved`, overlapping release transactions are covered by `ReleaseRace.RaceMints` alone.
- Runs.ReleasedOnce: as for `Runs.MoneyConserved`; `ReleaseRace.ReleasedOnceIff` has the condition for overlapping release transactions.
- ReleaseRace.RowsAreEarlyCommitters: the transactions are releases only; the release of a reopening and of a direct payment runs inside a transaction that claimed its order first (`OrderLock.PaidOrReopened`) and is one of them only as far as its releases go.
- Finalize.NoLoserLost: a crash or a failing persist between the close's commit and the payload's commit is excluded; the code has no recovery there. Without the order index, that no older result of the auction is in flight is a hypothesis.
- RowLock.InterleavingIsSerial: the payment, release and payload transactions do not take the auction's lock first and are not among its transactions; the run model interleaves them as whole transactions, `order_lock.dfy` the payments statement by statement with the reopenings of their order, and `release_race.dfy` the releases.
- RowLock.NeverDeadlocks: it knows the lock on the auction's row only; the same transactions also lock user rows, in the order of their bids, and `ReleaseDeadlock.DeadlockIff` says when the releases among them deadlock on those.
- OrderLock.InterleavingIsSerial: the ledger rows and the balances of its transactions are left out; the wallet that the payment's balance check sees is an input, as in `row_lock.dfy`.
- OrderLock.NeverDeadlocks: it knows the rows of the auction and of the order only; both kinds of transaction also lock bid rows, after the order's, and user rows.
- Bots.BidWithinCaps: exact reals stand for the source's doubles in start price times multiplier; the rounding of the product is not modelled.
- AuctionServices.AuctionsService.CreateAuction: the sneaker row is not modelled, and whether brand and size are allowed and the end time is a date are inputs.
- Bids of equal price: SQL leaves their order open and the model takes the earlier row first; live prices of an auction on which no hold failed are proved distinct (`Prices.OpenPriceIsBest`), so the choice shows only where one did.
- Runs.LedgerExplainsBalance: a debit is part of one step of a run, so that balances are not negative is a property of such runs; `DebitRace.NeverOverdrawnIff` has the condition for overlapping debits.
- The INTEGER width of prices and balances: an overflowing statement aborts its transaction, which a run can do at any point.
- Calendar arithmetic: times are integer milliseconds, and an hour or five minutes always have the same length; daylight-saving changes are not modelled.
- The unlocked checks of `patchAuctions` and its sneaker columns: they only refuse more requests or change other tables.
- Which pending orders the timeout job selects, and its failure reason text: the job may be given any pending orders, in any order.
- JSON text, UUIDs and column whitelists: ids are numbers, and a string in the payload is the id it prints.
- A sort that is none of the five options: the request validation admits only those.
- Searching by text: the set of auctions a search matches is an input.
- Event streams, notifications, wishlist alerts and view counts: no effect on the tables modelled.
- Retention deletes: the model keeps every row.
- Bot cooldowns, bot selection, relisting, reviews, statistics, authentication and uploads: they decide which of the modelled requests are made, or work on other tables.
