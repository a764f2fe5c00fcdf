# Predix exchange core: a verified model

Predix is a prediction-market exchange. Every event has a YES and a NO order book; an engine
keeps books, orders, cash and shares in memory, a command log and an event stream surround it,
and a database worker settles what the engine emits. This project models that core in Dafny and
proves what it guarantees over every input and every run, and exactly where a guarantee one
would expect does not hold.

The engine is modelled twice. `Machine` is a state machine whose atomic steps are the engine's
critical sections: admit and reserve, match and settle, cancel, create event, create user, and
the loss of an order whose event cannot be emitted. Partition workers interleave these sections
over one shared state, so a run is any sequence of steps, and the theorems quantify over all of
them. `Exchange.Engine` is the same engine as a class that updates its maps in place, with the
engine's loops; each of its methods is proved to take exactly the step it stands for. Orders are
shared between the order table and the books in the engine; here the table holds the record and
the books hold its id, so both views always see the same fields.

Amounts are mathematical integers in the engine's unit of 1/10000. The log of a world (trades,
arrival order, released and lost orders, grants, clamp shortfalls) records what happened and
steers nothing.

| file | content |
|---|---|
| `Types`, `Sums` | records of the exchange; sums over maps and sequences |
| `Ledger`, `Matching`, `Books` | reserve, settle, release; the rescanning search and the one-pass sweep; the sorted half |
| `Priority` | the search is the sweep; price-time priority, maximality |
| `Machine`, `Fills` | critical sections as steps, runs; a matching section as a sequence of single trades |
| `Lifecycle`, `BookSafety`, `Progress` | invariants of orders and books over every run |
| `Accounts`, `Conservation`, `Overdraft` | reserves and locks, no clamp exactly when funded; cash and share conservation; where created cash comes from |
| `Guarantees`, `Roles`, `Grants` | what single orders are promised; what completing as taker or maker means for the lock; who gets the starting balance |
| `Limits`, `Savings` | where expectations fail, with witnesses |
| `Promises` | what a client is told and gets, stated over requests, accounts and resting orders alone |
| `Exchange`, `Replay` | the engine as a class; redelivery and replay of commands |
| `Announcements` | which events reach the stream, and in which order |
| `Settlement`, `Agreement` | the database transaction, and its agreement with the engine's ledger |
| `Fencing`, `Outbox`, `Depth` | leases and fencing tokens; the emission journal; market depth |

Three facts about the engine shape the statements. No command issues shares, so runs start from
any seeded ledger (`Machine.Seeded`), and from one without shares no trade ever happens
(`UnseededRunsNeverTrade`). A market BUY locks all available cash but the search never looks at
it; a market BUY is *funded* when the trades it is about to make cost no more than its lock, which
can be read off the book and the order before it is matched (`Accounts.Funded`). And positions
are kept under the string `user:event:outcome`. Two positions share a key exactly when one user id
continues the other with a colon and a part that the other event id begins with
(`Ledger.KeysEqualIff`); statements per market therefore speak of user and event ids over which
this does not happen (`Ledger.Separable`), as when user ids, or event ids, contain no colon.

Where comments and code disagree the code is followed. The comment on the outbox says that no
trade is lost when Redis blips; `Outbox.BlipThenSuccessLoses` shows the loss and
`Outbox.NothingLostIff` says exactly when there is none. The comment on the lease promises at most
one owner. Ownership periods indeed never overlap, whatever the engine ids
(`Fencing.OwnershipIsExclusive`); but that only the owner extends or deletes the key holds if and
only if engine ids are unique (`Fencing.OwnersOnlyIffUnique`), and the default id is a constant.

## Model

| member | source | states |
|---|---|---|
| `Priority.RescanIsSweep` | internal/engine/engine.go:926-1050 | The loop that restarts from the front of the book after every execution gives the same trades, the same fills and the same remaining book as one left-to-right pass over the resting orders, for every book and incoming order |
| `Priority.Waterfall` | internal/engine/engine.go:933-1040 | The i-th resting order receives exactly what is left of the incoming quantity after everything eligible ahead of it, up to its own remainder |
| `Priority.SweepMaximal` | internal/engine/engine.go:933-968 | The volume traded is the smaller of what the order wants and what eligible orders offer |
| `Priority.SweepPrices` | internal/engine/engine.go:1052-1076 | On a price-sorted half every trade is at the price of a resting order, within the taker's limit, and prices only get worse for the taker |
| `Priority.SweepPriority` | internal/engine/engine.go:974-998 | An order receives anything only if every eligible order ahead of it was filled completely |
| `Priority.PriceTimePriority` | internal/engine/engine.go:926-1076 | The engine's loop has all of these: priority, nobody ineligible served, maximal volume, maker prices within the limit, monotone prices |
| `Priority.EligibleIffTradable` | internal/engine/engine.go:974-998 | The search takes a resting order exactly when it is PENDING or PARTIAL with something left, of another user and of the same outcome, at any price for a market order and within the limit for a limit order |
| `Guarantees.EveryMatchIsFair` | internal/engine/engine.go:814-878 | In every reachable state, matching any order that waits for it is fair in this sense with respect to the book it meets |
| `Promises.MatchFills` | internal/engine/engine.go:926-1076 | In every reachable state the volume of a match is the smaller of what the order wants and the summed remainders of the resting orders of other users, all of them for a market order and those within the limit for a limit order; each of them receives exactly what is left after the ones ahead of it |
| `Promises.MatchConcludes` | internal/engine/engine.go:843-864 | In every reachable state a matched order is FILLED if its trades cover it; otherwise a market order ends CANCELED and a limit order rests on its own half, PARTIAL or PENDING; a finished or market order does not rest |
| `Promises.VanishedMarketRejects` | internal/engine/engine.go:825-841 | Without a market the order is REJECTED, makes no trade and keeps its reservation |
| `Promises.ValidIff` | internal/engine/engine.go:651-687 | Exactly the well-formed requests become orders, and the order carries the id, event, user, type, outcome, side, quantity and price of its request, PENDING and unfilled |
| `Promises.FaultIsReal` | internal/engine/engine.go:769-812 | A refused request has the fault it is told |
| `Promises.AdmissionIs` | internal/engine/ledger.go:93-133 | A well-formed request with a new id for a known event is accepted exactly when its account covers it: all cash for a market BUY, quantity times price for a limit BUY, the quantity in shares of the outcome for a SELL; that amount moves from available to reserved and becomes the lock; a refusal only opens the account |
| `Promises.MarketBuyTakesAll` | internal/engine/ledger.go:91-113 | A market BUY is accepted and leaves no available cash |
| `Promises.OthersAreRefused` | internal/engine/engine.go:685-713 | A faulty request, a known id and an unknown event each get their own reply and change nothing |
| `Promises.CancelReplyIs` | internal/engine/engine.go:1201-1235 | In every reachable state a cancel is accepted exactly when the id is not empty and tabled, the event is empty or the order's own, and the order is neither FILLED nor CANCELED; every other cancel gets the error of its fault |
| `Promises.CancelIs` | internal/engine/engine.go:1236-1253 | After an accepted cancel the order is CANCELED, on no half of any book and locks nothing, its lock is available in its account again, and no other order, resting place or account changes; a refused cancel changes nothing |
| `Promises.MarketOpens` | internal/engine/engine.go:550-581 | Opening an event makes it known with four empty halves and changes no other book, order or account; opening it again changes nothing |
| `Guarantees.TradesOnTerms` | internal/engine/engine.go:1142-1175 | On every run every trade executes at its maker's price, within its taker's limit, for at most the quantity of either, between different users on opposite sides of one book |
| `Guarantees.TradeCostsAreBounded` | internal/engine/engine.go:1025-1039 | No trade costs more than the largest quantity times price of a limit order, so amounts fit whatever width those products fit |
| `Books.AppendAndSortIsInsert` | internal/engine/engine.go:1078-1106 | Appending to a sorted half and applying any stable sort is ordered insertion behind equal prices |
| `Books.InsertKeepsPriority` | internal/engine/engine.go:1078-1106 | Ordered insertion of the latest arrival keeps price-time order |
| `BookSafety.RunIsSafe` | internal/engine/engine.go:814-1286 | Under every interleaving of the sections, from any seeded ledger, the order table, the holdings and all books stay well formed |
| `Guarantees.BooksInOrder` | internal/engine/engine.go:843-864 | In every reachable state halves are in price-time order, hold live positive-price limit orders only, are crossed only by orders of one user, and no order rests twice anywhere |
| `Guarantees.NoSelfTrades` | internal/engine/engine.go:974-998 | No trade of any run has the same buyer and seller |
| `Guarantees.OrderLifecycle` | internal/engine/engine.go:1025-1039 | In every reachable state filled plus remaining is the quantity, filled is the sum of the order's trades on either side, FILLED holds exactly when nothing remains, and every live matched order is on its book |
| `Progress.RunAdvances` | internal/engine/engine.go:817-823 | In any continuation an order of the table, matched or in flight, stays unless its own emission is lost, keeps its terms, never loses a fill, and never changes once FILLED or CANCELED; this includes a cancel between reserve and match |
| `Fills.MatchIsTradeByTrade` | internal/engine/engine.go:843-878 | Matching everything, concluding, and settling all trades afterwards equals executing and settling trade by trade and concluding at the end |
| `Accounts.NoClampIffFunded` | internal/engine/ledger.go:141-222 | Over every run, no clamp of a reserve or a lock ever fires if and only if every market BUY is funded when it is matched |
| `Accounts.UnclampedIffFunded` | internal/engine/ledger.go:141-222 | The same for one matching section, including the final release |
| `Accounts.CashReservedExactly` | internal/engine/ledger.go:93-115 | On every funded run each user's reserved cash is exactly the locks of their BUY orders of any status plus what failed emissions left behind |
| `Accounts.SharesReservedExactly` | internal/engine/ledger.go:117-133 | On every run, with no funding hypothesis, each position's reserved shares are exactly the locks of its SELL orders plus what failed emissions left behind |
| `Conservation.CashDriftsExactly` | internal/engine/ledger.go:141-222 | Over every run, failed emissions included, total cash is the initial total plus first-time grants plus the recorded clamp shortfalls, which are never negative |
| `Conservation.FundedRunsConserveCash` | internal/engine/ledger.go:35-39 | If market BUYs are funded the shortfall is zero and only grants add cash |
| `Overdraft.CashLaw` | internal/engine/ledger.go:141-222 | Over every run, with no hypothesis, the cash that clamps created plus the BUY locks that no reserve stands behind is exactly what market BUYs spent beyond their locks |
| `Overdraft.NoCashCreatedIff` | internal/engine/ledger.go:141-222 | A run never creates more than market BUYs spent beyond their locks, and creates none if and only if all of that is still owed by BUY locks |
| `Overdraft.FinalCashIffFunded` | internal/engine/ledger.go:141-222 | Once no BUY has anything locked, a run has created exactly what market BUYs spent beyond their locks, and so none if and only if every market BUY was funded |
| `Overdraft.ReservesAreExplained` | internal/engine/ledger.go:93-115 | On every run, funded or not, each user's reserved cash is at most the locks of their BUY orders plus what failed emissions left behind |
| `Overdraft.MatchOwes` | internal/engine/engine.go:868-878 | One matching section in any reachable state adds to created and owed cash together exactly what its market BUY spends beyond its lock |
| `Overdraft.MatchCreatesExactly` | internal/engine/ledger.go:143-149 | In any reachable state matching creates exactly the cash by which the payments of each buyer exceed their reserve, plus what is left of a finished BUY's lock beyond what is left of the reserve |
| `Overdraft.HoldingsAreBounded` | internal/engine/ledger.go:141-222 | On every run each balance lies between zero and the initial cash, the grants and what market BUYs overspent, which is nothing on funded runs, and each position between zero and the initial shares |
| `Conservation.AllSharesConserved` | internal/engine/ledger.go:151-169 | Total shares are constant on every run, with no funding and no id hypothesis |
| `Conservation.MarketSharesConserved` | internal/engine/ledger.go:151-169 | If no two positions over the ids in use share a key, the shares of each event and outcome are constant on every run |
| `Conservation.UnseededRunsNeverTrade` | internal/engine/ledger.go:117-133 | From positions without shares no run ever accepts a SELL or executes a trade |
| `Ledger.KeysEqualIff` | internal/engine/ledger.go:78-84 | Two positions share a key if and only if the outcomes agree and users and events agree, or one user id continues the other with a colon and a part that the other event id begins with |
| `Ledger.SeparableIff` | internal/engine/ledger.go:78-84 | No two positions over given user and event ids share a key if and only if no two of the ids are so related |
| `Ledger.ColonFreeIsSeparable` | internal/engine/ledger.go:78-84 | Colon-free user ids alone, or colon-free event ids alone, are enough |
| `Ledger.PositionKeyCollides` | internal/engine/ledger.go:78-84 | With colons in both, two different positions can share a key |
| `Roles.LimitBuyLock` | internal/engine/ledger.go:171-187 | In every reachable state a live limit BUY locks its limit value less what its trades cost, which covers what it still wants; a canceled one locks nothing; a filled one locks nothing if it was the taker of its last trade and otherwise exactly what it saved as a taker |
| `Roles.FilledBuyIsFreeIff` | internal/engine/engine.go:874-876 | A FILLED limit BUY has nothing locked if and only if it was the taker of its last trade or saved nothing as a taker |
| `Roles.RunKeepsRoles` | internal/engine/engine.go:868-878 | On every run a FILLED order was released if and only if it was the taker of its last trade |
| `Guarantees.CancelReturnsUnspent` | internal/engine/engine.go:1236-1251 | Canceling a limit BUY moves exactly the unspent part of its reservation back to available cash |
| `Guarantees.FinishingReturnsUnspent` | internal/engine/engine.go:868-878 | A limit BUY that finishes as a taker gets back exactly what it did not spend, and with exact reserves its whole limit value leaves the reserve |
| `Limits.UnfundedBuyCreatesCash` | internal/engine/ledger.go:143-149 | A run in which a market BUY pays more than it has: the clamp hides the missing payment and total cash grows |
| `Limits.LostReservationsStay` | internal/engine/engine.go:739-751 | What an order had reserved when its emission failed is in reserve at every later state; for a SELL on every run, for a BUY on every funded run |
| `Limits.LossStrands` | internal/engine/engine.go:739-751 | Some run drops an order with something locked |
| `Grants.GrantIff` | internal/engine/ledger.go:14-44 | On every run USER_CREATED pays the starting balance if and only if the account was not seeded and no earlier step opened it: no earlier USER_CREATED, no BUY of the user that reached its reservation, no trade of the user on either side; otherwise it does nothing |
| `Grants.AccountsAreOpened` | internal/engine/ledger.go:51-60 | On every run the accounts are the seeded ones and those opened by these steps |
| `Limits.EarlyBuyForfeitsGrant` | internal/engine/ledger.go:93-115 | After a BUY that arrived before its user's account, granted or refused, and any continuation, USER_CREATED does nothing |
| `Limits.EarlySellerForfeitsGrant` | internal/engine/ledger.go:155-160 | A run in which a user who only ever submitted a SELL gets an account from settlement and no starting balance |
| `Savings.FilledBuyKeepsLock` | internal/engine/engine.go:874-876 | A run in which a BUY ends FILLED with cash still locked |
| `Exchange.StableSort` | internal/engine/engine.go:1088-1104 | The result has the same ids, ordered by price, equal prices in input order |
| `Exchange.FindCounterparty` | internal/engine/engine.go:974-998 | Returns the first index whose order is PENDING or PARTIAL with something left, of another user, of the same outcome and price-compatible, any price being compatible with a market order, or -1 if there is none |
| `Exchange.RemoveInvalid` | internal/engine/engine.go:1108-1140 | Drops exactly the stale prefix |
| `Exchange.RemoveOrder` | internal/engine/engine.go:1288-1314 | Removes the first occurrence of the id and nothing else |
| `Exchange.Engine.constructor` | internal/engine/engine.go:138-187 | A new engine over any seeded ledger is in a starting state |
| `Exchange.Engine.ReserveOrder` | internal/engine/ledger.go:93-133 | A market BUY is granted, locks all available cash and leaves none; a limit BUY is granted exactly when remainder times price is available, a SELL exactly when the shares are; a refusal freezes nothing |
| `Exchange.Engine.MoveCash` | internal/engine/ledger.go:141-160 | The cash half of settling one trade, with the clamp |
| `Exchange.Engine.MoveShares` | internal/engine/ledger.go:151-169 | The share half of settling one trade, with the clamp |
| `Exchange.Engine.PayLock` | internal/engine/ledger.go:171-187 | Takes cost or quantity from the lock of one of the two orders and touches no other order |
| `Exchange.Engine.SettleTrade` | internal/engine/ledger.go:141-188 | Cash, shares and both locks after one trade |
| `Exchange.Engine.SettleTrades` | internal/engine/engine.go:868-872 | Settles a list of trades in order |
| `Exchange.Engine.ReleaseOrder` | internal/engine/ledger.go:192-222 | Gives the remaining lock back to where it was reserved, with the clamp |
| `Exchange.Engine.ExecutePair` | internal/engine/engine.go:1000-1050 | Both orders, the half and the trade after one execution |
| `Exchange.Engine.MatchAgainstBook` | internal/engine/engine.go:926-969 | The loop computes the rescanning search, and terminates |
| `Exchange.Engine.AddToBook` | internal/engine/engine.go:1078-1106 | Append and sort put the order at its place by price and time |
| `Exchange.Engine.SearchAndConclude` | internal/engine/engine.go:825-864 | Orders, books and status before settlement, and the trades found |
| `Exchange.Engine.RunMatch` | internal/engine/engine.go:814-878 | The whole matching section, including a canceled order and a vanished market, on any state whose own half is sorted and does not hold the order yet, as every reachable one is |
| `Exchange.Engine.MatchOrder` | internal/engine/engine.go:814-924 | On a reachable engine this is the Match step and returns its trades |
| `Exchange.Engine.Enter` | internal/engine/engine.go:691-721 | The admission section: duplicate, unknown event, refused or entered |
| `Exchange.Engine.CreateOrder` | internal/engine/engine.go:636-812 | Validation and admission are the Submit step, with the reply the caller gets |
| `Exchange.Engine.EmissionFailed` | internal/engine/engine.go:739-751 | Removing the order after a failed emission is the LoseEmit step |
| `Exchange.Engine.RunCancel` | internal/engine/engine.go:1201-1253 | The cancel section on any state, with its reply: accepted exactly for a tabled, active order of the named or unnamed event whose market is known; then CANCELED with nothing locked |
| `Exchange.Engine.CancelOrder` | internal/engine/engine.go:1183-1286 | On a reachable engine this is the Cancel step |
| `Exchange.Engine.CreateMarket` | internal/engine/engine.go:550-581 | Opening a market is the CreateEvent step |
| `Exchange.Engine.UserCreated` | internal/engine/ledger.go:14-44 | Opening an account is the CreateUser step |
| `Replay.HandleApplies` | internal/engine/engine.go:636-767 | A handled command changes the engine as its sections say, unless a newly admitted order cannot be emitted; while replaying nothing is emitted |
| `Replay.LiveEqualsReplayIff` | internal/engine/engine.go:739-751 | A live command and its replay reach the same state if and only if the order was emitted or none was admitted |
| `Replay.ReplayEqualsLive` | internal/engine/replay.go:19-103 | Replaying a log with explicit order ids reaches the markets, books, orders and ledger that live handling reached if the events of submitted orders were emitted, whatever happened to trade and cancel events, and emits nothing |
| `Replay.RedeliveryIff` | internal/engine/engine.go:1217-1224 | After any continuation of an accepted command, lost emissions included, delivering it again changes nothing if and only if it is not a cancel that could be accepted once more at that moment |
| `Replay.RedeliveryIsSafe` | internal/engine/engine.go:1217-1224 | The same by history: a cancel, also of an order in flight, stays ignored as long as its order does not lose its emission; every other accepted command always |
| `Replay.AdmittedRedeliveryIsSafe` | internal/engine/engine.go:691-701 | From its admission on, whatever falls between its own two sections and afterwards, an order command delivered again changes nothing unless its emission was lost |
| `Replay.AdmittedRedeliveryIff` | internal/engine/engine.go:691-721 | After any continuation of the admission, lost emissions included, it changes nothing if and only if the order is a duplicate, its event is unknown, or its reservation is refused and finds its account open |
| `Limits.LateCancelHits` | internal/engine/engine.go:739-751 | A cancel accepted in flight, whose order loses its emission and is submitted again, cancels the new order when it is delivered again |
| `Replay.DuplicatesAreHarmless` | internal/engine/engine.go:569-574 | A log of accepted commands with repeats reaches the same state and history as the log without them |
| `Replay.ReplayAgainIff` | internal/engine/worker.go:49-130 | Replaying a log over the state it led to, as happens on every new acquisition of the lease, changes nothing if and only if no single command of the log would change that state |
| `Replay.AcceptedReplayAgain` | internal/engine/worker.go:49-130 | For a log of accepted commands it changes nothing |
| `Limits.SecondReplayDiffers` | internal/engine/worker.go:49-130 | A cancel that came before its order is refused on the first replay and accepted on the second |
| `Replay.ReplayLog` | internal/engine/replay.go:19-92 | The replay loop applies every readable command in order and skips the others |
| `Replay.ApplyCommand` | internal/engine/replay.go:94-103 | Re-executes one command without emission |
| `Replay.ReplayOrder` | internal/engine/replay.go:94-103 | Re-executes both sections of creating an order |
| `Announcements.HandleAnnounces` | internal/engine/engine.go:723-767 | When its emissions succeed, a live command appends to the stream exactly: an admitted order and then its trades in the order of execution, or an accepted cancel, or nothing |
| `Announcements.StreamIsComplete` | internal/engine/engine.go:899-921 | Over any live log in which no trade emission fails, the trade events on the stream are exactly the executed trades, once each and in order, whatever happened to events of orders and cancels |
| `Announcements.OrdersComeFirst` | internal/engine/engine.go:723-767 | Whichever emissions fail, no trade and no cancel ever stands on the stream before the events of the orders it speaks of |
| `Announcements.LiveStream` | internal/engine/engine.go:636-924 | Both, for every log from any seeded ledger |
| `Settlement.SettlementIsExplained` | internal/dbworker/worker.go:358-580 | For any deliveries, with repeats, faults, unreadable ids, refusals and stale drops, balances, shares, volume and fills are the initial values plus each stored trade once |
| `Settlement.TradesDecide` | internal/dbworker/worker.go:358-533 | Corollary: two histories that stored the same trades end with the same balances, shares, volume and fills |
| `Settlement.SettlementConserves` | internal/dbworker/worker.go:448-490 | No delivery changes total balance or the total shares of an outcome |
| `Settlement.RowsStayOk` | internal/repository/orders.sql.go:126-134 | For any deliveries every order row whose insert met it keeps remaining equal to quantity less filled and never below zero; a row last written by a trade is FILLED exactly when nothing remains and PARTIAL otherwise; one last written by a cancel is CANCELED |
| `Settlement.EntriesMatchTrades` | internal/dbworker/worker.go:492-520 | For any deliveries the ledger has exactly two entries per stored trade, the buyer's under the taker's order and the seller's under the maker's, with quantity, price and their product |
| `Settlement.NobodyOverdraws` | internal/repository/users.sql.go:64-70 | For any deliveries balances that start at zero or more stay there |
| `Settlement.StoredIff` | internal/dbworker/worker.go:358-460 | A trade not stored yet is stored by a delivery if and only if it is not stale, nothing breaks, its fields are filled and readable, its event, orders and users are known, and the buyer's balance covers it |
| `Settlement.Database.DeductBalance` | internal/repository/users.sql.go:64-83 | Debits if and only if the balance covers the amount |
| `Settlement.Database.ApplyOrderFill` | internal/dbworker/worker.go:545-580 | Adds to the fill, makes the remainder quantity less filled down to zero, and sets FILLED exactly when nothing remains and PARTIAL otherwise, or fails for an unknown order |
| `Settlement.Database.FillOrders` | internal/dbworker/worker.go:432-441 | Success means both order rows carry the fill |
| `Settlement.Database.Pay` | internal/dbworker/worker.go:443-467 | Succeeds only if the buyer's balance covers the cost, and then moves exactly the cost |
| `Settlement.Database.Book` | internal/dbworker/worker.go:469-529 | Shares move from seller to buyer, one entry per side, and the cost is added to the event's volume |
| `Settlement.Database.SettleTrade` | internal/dbworker/worker.go:358-543 | Whichever statement fails, the tables are either as before or the complete settlement; a stored trade is acknowledged and changes nothing |
| `Agreement.ProjectionAgrees` | internal/dbworker/worker.go:358-580 | On every run with successful emissions, users created before they order, funded market BUYs, ids the worker can read and prices the order table takes, delivering the emitted events in order leaves each user a database balance of available plus reserved cash, the engine's shares, fills and remainders, and stores every trade, so the guard never refused one |
| `Agreement.AdmissionAgreesIff` | internal/dbworker/worker.go:237-287 | An admitted order reaches the order table if and only if its ids can be read and its price is not negative |
| `Agreement.TradeAgrees` | internal/repository/users.sql.go:64-70 | One trade of the engine passes validation and the balance guard, and both sides agree afterwards |
| `Fencing.RunIsOk` | internal/engine/worker.go:45-157 | The protocol invariant holds in every interleaving of acquire, expiry, draw, a draw whose reply is lost, renew, release, restart, stamp, publish and read, for any engine ids |
| `Fencing.OwnershipIsExclusive` | internal/partition/lease.go:34-86 | Ownership periods never overlap, and a live key names the current owner |
| `Fencing.OwnersOnlyIffUnique` | internal/partition/lease.go:41-86 | Only the current owner's steps extend or delete a live key if and only if no two processes share an engine id |
| `Fencing.TokensFollowOwnership` | internal/engine/worker.go:57-101 | Tokens drawn before their lease lapsed are ordered exactly as the ownership periods |
| `Fencing.EarlierOwnersAreFenced` | internal/dbworker/worker.go:186-200 | Once a later owner drew in time, everything of an earlier punctual owner is stale |
| `Fencing.FenceIsSafe` | internal/dbworker/worker.go:608-641 | What serving processes stamp has a nonzero token and never repeats over processes and restarts; what passes the fence carries the counter the fence read; passed tokens never decrease |
| `Fencing.StaleIffOvertaken` | internal/dbworker/worker.go:629-641 | In every reachable net the fence drops what a serving process stamps if and only if a larger token was drawn for some tenure |
| `Fencing.OwnerFencedIff` | internal/engine/worker.go:57-101 | The owner of the live lease is fenced out if and only if some tenure drew late and got a larger token, so it passes when every draw was in time |
| `Fencing.LateDrawFencesOwner` | internal/engine/worker.go:57-101 | Because acquiring and drawing are separate this happens: a lapsed process can draw after its successor, and the fence then drops the owner's events |
| `Fencing.LeaseLasts` | internal/partition/lease.go:34-86 | A free lease is held for exactly the time to live of whoever takes it, renewing in time gives the same time again, stopping hands it to the next competitor at once, and a process that lost it changes nothing |
| `Fencing.FreshTokenPasses` | internal/engine/worker.go:79-101 | On every run a token is larger than all tokens of other tenures when it is drawn, so what is then emitted passes |
| `Fencing.PassesIffNotOvertaken` | internal/dbworker/worker.go:608-641 | In every reachable net the next event of a serving process carries its token and its next number, and it passes the fence if and only if no tenure holds a larger token |
| `Fencing.Store.constructor` | internal/partition/fencing.go:16-18 | No lease, no token issued |
| `Fencing.Store.Acquire` | internal/partition/lease.go:34-36 | Succeeds exactly when nobody holds the key, then holds it for the time to live, and never disturbs a holder |
| `Fencing.Store.Renew` | internal/partition/lease.go:41-64 | Extends the caller's key by the time to live from now, and nobody else's |
| `Fencing.Store.Release` | internal/partition/lease.go:68-86 | Deletes the caller's key and nobody else's |
| `Fencing.Store.Passes` | internal/dbworker/worker.go:608-641 | Of the tokens issued so far exactly the latest passes; token zero always does |
| `Outbox.JournalIsRecent` | internal/engine/outbox.go:41-68 | The journal holds exactly the envelopes appended since it was last truncated |
| `Outbox.RecoverIsSafe` | internal/engine/outbox.go:97-127 | Whatever fails, recovery loses nothing, publishes a prefix of the journal in order and the trades before the failed entry on the channel, and empties the journal if and only if every entry was confirmed and the truncation succeeded |
| `Outbox.RecoverReaches` | internal/engine/outbox.go:97-127 | Exactly what recovery does under any faults: all entries before the first that is not confirmed go to the stream in order and the trades among them to the channel, that entry as far as its calls arrived, and nothing behind it |
| `Outbox.RecoverPublishesAll` | internal/engine/outbox.go:94-127 | Without faults the whole journal is on the stream, its trades on the channel, and the journal is empty |
| `Outbox.RecoveryCatchesUp` | internal/engine/outbox.go:94-127 | After any history that lost nothing, one recovery without faults puts every envelope ever emitted on the stream |
| `Outbox.FaultlessDelivers` | internal/engine/engine.go:1602-1651 | Over any history without faults the stream holds every emitted envelope once and in order, the channel those to be broadcast, and the journal nothing |
| `Outbox.NothingLostIff` | internal/engine/engine.go:1605-1643 | Over any history no emitted envelope is lost if and only if every append reached the disk and no emission truncates the journal while an earlier envelope is pending |
| `Outbox.JournalLosesNothingIff` | internal/engine/engine.go:1605-1643 | The same for the envelopes that were appended: truncating over a pending one is the only way to lose them |
| `Outbox.BlipThenSuccessLoses` | internal/engine/engine.go:1641-1643 | One failed emission followed by a successful one loses the first envelope |
| `Outbox.Publisher.constructor` | internal/engine/outbox.go:32-38 | An empty journal |
| `Outbox.Publisher.EmitEvent` | internal/engine/engine.go:1602-1651 | One emit cycle under any combination of failures: success means journaled, on the stream and, if asked, on the channel; only then is the journal emptied, and otherwise it holds the envelope |
| `Outbox.Publisher.RecoverAll` | internal/engine/outbox.go:97-188 | The recovery loop computes the recovery function; it succeeds if and only if there was nothing to do or every entry was confirmed and the truncation succeeded, and then the stream has the whole journal, the channel its trades, and the journal is empty |
| `Depth.Collect` | internal/engine/engine.go:1362-1390 | The map holds the open quantity and order count of exactly the prices at which something rests |
| `Depth.List` | internal/engine/engine.go:1392-1409 | Every map entry once, in any order |
| `Depth.Sort` | internal/engine/engine.go:1411-1417 | The same levels, strictly from best to worst |
| `Depth.Aggregate` | internal/engine/engine.go:1358-1480 | The result is the depth of the given orders |
| `Depth.GetDepth` | internal/engine/engine.go:1316-1356 | Unknown events are refused; otherwise each of the four lists is the depth of its half |
| `Depth.DepthIsUnique` | internal/engine/engine.go:1392-1417 | There is only one depth, so the order in which the map is listed does not matter |
| `Depth.DepthOfHalf` | internal/engine/engine.go:1358-1480 | In every reachable state depth is the run-length grouping of the half, and quantities, counts and totals add up to the resting orders |
| `Depth.DepthIsBacked` | internal/engine/engine.go:1316-1356 | On every funded run the totals of all bid levels over all books are at most the reserved cash of all users |

## Left out

- 64-bit overflow: integers are unbounded; `TradeCostsAreBounded` and `HoldingsAreBounded` bound every trade and every holding by quantities times prices of submitted limit orders, initial holdings, grants and overspending, and these are taken to fit.
- Creation times, generated order ids and trade ids: opaque values; they are parameters where they matter (`generated` in Submit, `ids` in `Agreement`).
- Reading order fields for the HTTP response after the lock was released: a memory-model matter.
- Open-order and balance queries: they only read.
- Handlers, router, middleware, authentication, WebSocket fan-out, metrics, logging and configuration.
- JSON encoding, consumer groups, acknowledgement and claiming of stream entries: abstracted to typed commands, an ordered log and repeated deliveries.
- Spelling of ids: an id the worker can read stands for one database key; two spellings of the same key are not modelled.
- Price scaling from and to floating point and reading of decimals in the database: the model starts from the engine's integers.
- The average price of a position row: it depends on decimal rounding in the database.
- Agreement of the status column with the engine's status: an unfilled market order is canceled without an event, so the two differ; `Settlement.RowsStayOk` ties the column to what last wrote the row, and `Agreement` compares balances, shares, fills and remainders.
- The order in which several partitions are settled: the code promises nothing about it.
- Exchange.Engine.RunMatch: an own half that is not sorted or already holds the order does not occur in a reachable state and is not covered.
- Announcements.OrdersComeFirst: commands are handled one after the other, as they are for one partition; an emission either reaches the stream or is reported as failed, and replies lost after arrival are modelled in `Outbox` only.
- Agreement.ProjectionAgrees: events are delivered in the order of the sections that emitted them, as they are for one partition.
- Settlement.Database.SettleTrade: the nine statements fail at most one at a time, since a failure ends the transaction.
- Fencing: one partition, because partitions share no key; a time to live of zero, which Redis reads as no expiry, is not modelled; a worker applies an envelope before it reads the next fence.
- Outbox: lines are written whole or not at all; a half-written line, which recovery skips as corrupt, is not modelled.
- Exactly-once emission and completeness of the database across failover: the code does not provide them.
- Partition choice by hashing the event id: any fixed function would do.
