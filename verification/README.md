# A verified model of the exchange core

The exchange has three long-running programs per trading pair: an order matching engine and one bank for each coin.
Each of them keeps its state in memory, appends every step to a log file, and has a writer that copies the file to
database tables, from which the program is rebuilt after a restart. Tickets (accepted order requests) flow from the
banks to the engine, balance changes flow back. This project models all of that and proves what the parts promise to
each other.

| file | what it models |
|---|---|
| `Fixed.dfy` | decimals scaled by 10^12, truncation, floor division |
| `Books.dfy` | resting orders, the two comparators, the ordered containers seen through them |
| `Matching.dfy` | the engine as a state machine over the lines of its log |
| `Ome.dfy` | the engine as it runs: a class updated in place, proved against `Matching.dfy` |
| `Sweep.dfy` | what one incoming order does, as a single walk along the other side |
| `Accounting.dfy` | whole-run accounting: quantities, prices, rounding, line counts |
| `Tables.dfy`, `Writer.dfy` | the engine's tables, written line by line and in batches, and every life of the writer |
| `Rows.dfy` | what the rows of the engine's tables hold, in terms of its log |
| `Recovery.dfy`, `Resend.dfy` | restarting from the tables, and resuming the log |
| `Ledger.dfy`, `BankWorker.dfy` | a bank's operations as functions, and as a class with one mutable, possibly shared record per user |
| `Columns.dfy` | what a decimal(36,18) column keeps of a number |
| `BankTables.dfy`, `BankWriter.dfy`, `TicketKeys.dfy` | the bank's tables, every life of their writer, and the keys of the ticket rows |
| `BankRows.dfy` | what the rows of a bank's tables hold, in terms of its log |
| `BankLives.dfy`, `BankRecovery.dfy` | bank after bank over one log file, and how far the tables agree with the ledger in each life |
| `Acks.dfy` | acknowledgements sent in batches |
| `Filedb.dfy` | the log file and the window its last line is read through |
| `Streams.dfy`, `Grpc.dfy` | the ticket stream and the balance-change stream, as steps and as the loops at both ends |
| `Exchange.dfy` | two banks, the engine, four streams, the channels: every interleaving, with disconnections, engine crashes and restarts of the banks |
| `Origins.dfy` | the engine's orders, traced back to the requests they come from |
| `Solvency.dfy`, `Funds.dfy`, `Settlement.dfy`, `Cover.dfy` | exactly-once settlement, conservation, and frozen funds covering debts |
| `Drive.dfy`, `Market.dfy` | building runs: whole change streams, and small markets of two orders |
| `Overdraw.dfy`, `Resale.dfy`, `Safety.dfy` | the exact condition on a request under which nobody can be overdrawn |
| `Greetings.dfy`, `Restarts.dfy`, `Halts.dfy` | when changes are applied twice, and when a bank stops over one |
| `Pairs.dfy`, `Places.dfy` | requests that name another pair, and balances with too many decimal places |

Main theorems, in the order a reader may want them: `Safety.SafetyIsExactlyWhatIsNeeded`,
`Cover.FrozenFundsCoverDebts`, `Resend.CrashIsInvisibleAfterAnyWrites`, `Greetings.GreetingIsHarmlessExactlyWhenIdle`,
`Exchange.TicketsAreConsumedOnce`, `Origins.OrdersFollowRequests`, `Rows.WrittenRowsAddUp`, `Pairs.NamingThePairIsExactlyWhatIsNeeded`, `Settlement.ChangesAreAppliedOnce`,
`Settlement.BalancesFollowTheMatches`, `Halts.OwnerIsExactlyWhatIsNeeded`, `Restarts.RestartsRepeatChanges`,
`BankLives.NumbersGoOn`, `BankRecovery.TablesHoldTheLedger`, `Places.RunsStayExact`, `Sweep.NewBidSweeps`,
`Writer.TablesFollowTheLog`, `Recovery.RecoveryIsExact`.

## How the code is modelled

A btree with distinct keys is the ascending sequence of its orders; insertion, lookup and deletion see orders through
`Less` alone, as the btree does, so finding and replacing the right order is proved, not assumed. A log line is the
record it holds. Decimals are reals and big integers are integers; `big.Int.Div` is Euclidean, as is Dafny's division,
and truncation to a scaled integer goes toward zero. A write that can fail is a parameter: the engine's `room` is the
number of lines the disk still takes, an operation of the bank gets a `diskOk`, a transaction a `dbUp`. The state
machines (`Matching`, `Ledger`, `Tables`, `BankTables`) are the specifications; the classes `Ome.Worker`,
`BankWorker.Worker`, `Writer.Worker`, `BankWriter.Worker` and `Filedb.File` and the loops of `Grpc` are the code, and
each method states its whole effect against them.

In `Exchange`, both banks begin with any balances they have loaded. An operation that fails stops its bank, as it
stops the main loop: the bank's `status` says so, and it takes no further part until it is restarted. A restart, a
greeting and a break of a stream can come at any time, and a server pushes every ticket of its log, whatever its symbol.
Three conditions on a run say what the theorems about it need, and each is shown to be exact:

- `Listed`: a request that its bank would take names the pair (`Pairs.NamingThePairIsExactlyWhatIsNeeded`), and a bank
  that restarts finds no ticket key wasted (`Restarts.WastedKeysAreRefused`, `BankLives.NumbersGoOn`).
- `InTime`: no greeting is answered while the bank's message channel still holds a change
  (`Greetings.GreetingIsHarmlessExactlyWhenIdle`), and no bank restarts that has applied a change
  (`Restarts.RestartsRepeatChanges`).
- `Kept`: a bank that restarts finds every balance as it was (`BankRecovery.RestartKeepsTheBalance`,
  `Places.RunsStayExact`).

What a restart loads in the exchange is what the bank's tables hold after any lives of banks and writers
(`Restarts.LoadsAreReloads`).

The bank's tables hold what was written to them; `Held` is what can be read back, every number rounded to its column.
MySQL 8 is taken as it comes: in strict mode, in which a number too large for its column fails the statement, and with
InnoDB, which gives out the keys of a table one by one and does not take back those of a transaction that fails.

## What the code does that its comments do not say

- A change whose second owner is not positive dereferences a nil record (pkg/bank/bank.go:749) after it has changed the
  first balance: `Ledger.BalanceChanged` ends such an event in `NilRecord`. The second owner is the bider
  (pkg/ome/grpc.go:98,116), and no request's owner is checked (pkg/bank/bank.go:493-545), so one covered bid of owner 0
  that matches stops both banks: `Halts.NonPositiveBiderHalts`, and exactly such bids do:
  `Halts.OwnerIsExactlyWhatIsNeeded`.
- `ErrCreateOrderSafeSkip` is acknowledged and then returned as an error all the same, so it stops the bank
  (pkg/bank/bank.go:445-451); it is also the one acknowledgement beyond what the log holds.
- The reason ID is stored before the change is applied and is not undone when applying fails
  (pkg/bank/bank.go:413-420).
- A greeting answered while changes are queued makes the engine push those changes again, and nothing filters them
  out (pkg/bank/grpc.go:34-45). `Greetings.CoveredUserIsChargedTwice` is a run of two covered orders in which one match
  is applied twice and a user ends with -1 frozen.
- `OmeReasonIDs` is read from the tables (pkg/bank/bank.go:306-309) but never written to them, so a restarted bank asks
  for all changes from the first one on, and applies again what it had applied: `Restarts.RestartsRepeatChanges`.
- A bank numbers its tickets in memory, and after a restart goes on from the newest key of its ticket table
  (pkg/bank/bank.go:286-293). The writer inserts tickets without a key (pkg/bank/filedb.go:101-115), so a transaction
  that fails after inserting them leaves a gap in the keys, and the next bank a gap in its numbers, over which the engine
  stops (pkg/ome/ome.go:487-503): `BankLives.OneFailedTransactionStopsTheEngine`.
- A bank takes a request for any pair its coin is part of (pkg/bank/bank.go:493-530), numbers its tickets per symbol, and
  pushes them all to the one engine (pkg/bank/grpc.go:63-74), which does not look at the symbol: a stray ticket takes the
  place of the pair's own ticket of that number, which is then dropped as a duplicate (`Pairs.StrayReplacesTheFirst`).
- The change of free funds is logged as a minus sign before the total (pkg/bank/bank.go:573). A negative total makes that
  two signs, which the writer reads as zero (pkg/bank/filedb.go:121), so the changes in the snapshots no longer add up;
  the balances they record are right (`BankTables.NegativeTotalsDoNotAddUp`).
- The writer updates balance rows and never inserts one (pkg/bank/filedb.go:199-209): a user without a row loses at a
  restart whatever the bank had in memory (`BankRecovery.RestartKeepsTheBalance`).
- A balance is kept with any number of decimal places in memory, as price times fee makes them
  (pkg/bank/bank.go:525-531), and with 18 in its row (pkg/model/balance-model.go:15-16), so a restart may lose some:
  `BankRecovery.SmallFeesAreLostInTheRow`. A number of 10^18 or more fails every transaction it is part of, and no later
  line is ever saved: `BankWriter.SavedLinesFit`.
- Bids are compared as asks are and served from the other end (pkg/ome/structs.go:125-139), so of two bids at one price
  the newer is matched first: `Matching.BestIsMatched`.
- `Less` is no strict order when an ID appears at two prices: two different keys may then be related in a circle. The
  engine never lets that happen.
- The bank's writer counts the lines of an aborted transaction as saved (pkg/bank/filedb.go:258-260); only the fresh
  start of its next round brings them back.
- No request is checked for amount >= price * quantity, for a non-negative fee, quantity or total, or for a positive
  owner (pkg/bank/bank.go:493-537). A negative quantity on one side of a match makes the order on the other side grow.

## Model

| member | source | states |
|---|---|---|
| Fixed.RoundTrip | pkg/ome/structs.go:144-150 | a scaled integer survives conversion to a decimal and back |
| Fixed.ScalingLosesNothing | pkg/ome/structs.go:144-150 | a decimal survives scaling exactly when it is a multiple of 10^-12 |
| Fixed.ScalingTruncates | pkg/ome/structs.go:144-150 | every decimal is scaled by 10^12 and truncated toward zero, to that integer and no other; conversion back is exact |
| Fixed.AmountsRoundDown | pkg/ome/ome.go:658-659 | an amount is price times quantity at the same scale, rounded down |
| Fixed.FillFitsReserve | pkg/ome/ome.go:654-659 | floor(price * fill) plus floor(limit * rest) stays within floor(limit * remaining) for a price within the limit |
| Fixed.AmountCoversReserve | pkg/bank/bank.go:501-535 | an amount of at least price * quantity covers what the scaled order may ever cost |
| Books.LessChains | pkg/ome/structs.go:108-139 | Less is transitive exactly when the outer IDs differ; it can only fail where one ID has two prices |
| Books.LessIsTrichotomous | pkg/ome/structs.go:108-139 | of two keys with different IDs exactly one is less, and none is less than a key of its own ID |
| Books.LessNeedsStablePrices | pkg/ome/structs.go:108-139 | concrete keys on which Less is not transitive |
| Books.InsertContents | pkg/ome/ome.go:591-632 | inserting a new ID finds no equal key, keeps the book sorted and adds exactly that order |
| Books.MinIsFound | pkg/ome/ome.go:672-676 | the key (ID, price) of the best ask replaces or deletes that ask and nothing else |
| Books.MaxIsFound | pkg/ome/ome.go:678-682 | the key (ID, price) of the best bid replaces or deletes that bid and nothing else |
| Matching.MatchShrinks | pkg/ome/ome.go:654-682 | every match fills one of its two orders, and the books lose exactly the filled ones |
| Matching.MatchTouchesTheBest | pkg/ome/ome.go:661-682 | a match changes the first ask and the last bid only |
| Matching.BestIsMatched | pkg/ome/structs.go:108-139 | a match takes the cheapest ask, the oldest of equals, and the dearest bid, the newest of equals |
| Matching.TradePriceIsFair | pkg/ome/ome.go:646-653 | a trade is at the older order's limit and within both limits |
| Matching.OrderKeepsInv | pkg/ome/ome.go:591-632 | the next order never exists already, and resting it keeps books sorted, IDs issued and sides disjoint |
| Matching.AcceptedOrder | pkg/ome/ome.go:506-557 | the order line of an accepted ticket has the next IDs, the ticket's owner, side, kind and fee rate, and its price and quantity truncated to 10^-12 |
| Matching.LegalKeepsInv | pkg/ome/ome.go:479-734 | books stay sorted with issued, disjoint IDs over every log the engine can write |
| Matching.MatchAllUncrosses | pkg/ome/ome.go:635-734 | matching terminates, writes a legal log and leaves books that do not cross |
| Matching.RunIsLegal | pkg/ome/ome.go:135-168 | whatever arrives on the ticket channel, the log is legal and the books do not cross between tickets |
| Matching.TicketIDsDoNotMatter | pkg/ome/ome.go:570-582 | counting a ticket after its matches instead of before gives the same lines and state |
| Ome.Worker.TryMatch | pkg/ome/ome.go:635-734 | writes the matches due, as far as the disk takes them, and leaves the books they leave |
| Ome.Worker.CrossBest | pkg/ome/ome.go:646-714 | one match in place: the line and the new state are those of the state machine |
| Ome.Worker.NewAsk | pkg/ome/ome.go:591-610 | rests the ask and matches; "order exists" is unreachable |
| Ome.Worker.NewBid | pkg/ome/ome.go:613-632 | rests the bid and matches; "order exists" is unreachable |
| Ome.Worker.TicketToMatchEngine | pkg/ome/ome.go:479-588 | each of the four verdicts on a ticket, and for an accepted one its lines, its state, and what a full disk leaves |
| Ome.Worker.LoadAllOrders | pkg/ome/ome.go:221-303 | rebuilds books and counters from the rows of the query, or reports an invalid side |
| Ome.Worker.StartMatching | pkg/ome/ome.go:135-168 | one matching pass, then the tickets: the whole log, the final state, and when it halts |
| Ome.Worker.WaitForFiledb | pkg/ome/ome.go:417-454 | takes the log ID from the file and is ready exactly when at one of its polls the writer has saved every line |
| Ome.Worker.Run | pkg/ome/ome.go:109-132 | a process started on any legal log writes nothing until the tables have caught up, and then continues the log as the engine that wrote it would have |
| Sweep.NewBidSweeps | pkg/ome/ome.go:613-734 | sweep theorem: after a new bid, lines and both books are those of one walk along the asks |
| Sweep.NewAskSweeps | pkg/ome/ome.go:591-734 | the same for a new ask along the bids |
| Sweep.BuyTakesInOrder | pkg/ome/ome.go:635-734 | line i of a walk takes ask i at its own price, each whole but the last |
| Sweep.BuyIsComplete | pkg/ome/ome.go:635-734 | fills and rest make up the order; the walk ends only where the order or the reachable asks end |
| Sweep.SellTakesInOrder | pkg/ome/ome.go:635-734 | line i of a walk takes the i-th bid from the back at its own price, each whole but the last |
| Sweep.SellIsComplete | pkg/ome/ome.go:635-734 | fills and rest make up the order; the walk ends only where the order or the reachable bids end |
| Sweep.TicketSweeps | pkg/ome/ome.go:479-588 | the log of an accepted ticket is its order line and the walk |
| Accounting.QuantityIsConserved | pkg/ome/ome.go:654-682 | for every order of every run: placed = filled + resting |
| Accounting.TradesAreFair | pkg/ome/ome.go:646-714 | every trade of every run names an ask and a bid placed earlier, their owners and limits, and is at the limit of the one placed first |
| Accounting.RoundingIsBounded | pkg/ome/ome.go:658-659 | an order with n trades loses between 0 and n*(10^12-1) scaled units to rounding |
| Accounting.MatchesAreBounded | pkg/ome/ome.go:635-734 | matches <= orders - live <= 2 * matches, and LogID <= 2 * OrderID |
| Accounting.LogIDsAreConsecutive | pkg/ome/ome.go:515-557 | log IDs are 1, 2, 3, ... over order and match lines together |
| Tables.MergeFills | pkg/ome/filedb.go:106-171 | merging a match into a batch equals writing it alone, except exactly when it would revive a filled order |
| Tables.BatchRefinesLines | pkg/ome/filedb.go:55-319 | one transaction for a batch of new lines equals the lines one at a time, given live orders and fresh numbers |
| Tables.SavedLinesAreSkipped | pkg/ome/filedb.go:65-105 | lines at or below the saved log ID do not change what a batch writes |
| Tables.KeysAreUnique | pkg/ome/filedb.go:244-249 | order rows are inserted exactly when their keys are new and differ, each as it is, and no other row changes |
| Tables.CountersNeverGoBack | pkg/ome/filedb.go:276-308 | no transaction takes the saved log ID, the order ID or a ticket ID back |
| Writer.Worker.ParseAndWriteLogs | pkg/ome/filedb.go:55-319 | the loop and the transaction do what the batch function says, and a failure changes nothing |
| Writer.TablesFollowTheLog | pkg/ome/filedb.go:14-53 | over any batch sizes, failures and restarts the tables are the saved prefix of the file, each line once |
| Rows.TradeRows | pkg/ome/filedb.go:77-101 | one trade row for every match, in log order, with its log ID, both orders and owners, and its price, quantity and amount |
| Rows.TradeRowsAreFair | pkg/ome/filedb.go:77-101 | every trade row is of an ask and a bid placed before, at the limit of the one placed first, and its amount is price times quantity rounded down |
| Rows.OrderRows | pkg/ome/filedb.go:103-171 | every order has a row: its line's data, what is left of it, its original quantity, the amount of its last match (its quantity before the first), and the number of its trades |
| Rows.RowsAddUp | pkg/ome/filedb.go:55-319 | for every order of every log the trade rows add up to what it placed less what rests, and its row is deleted exactly when it rests in no book |
| Rows.WrittenRowsAddUp | pkg/ome/filedb.go:14-53 | the same of the tables after any life of the writer, for the lines saved so far |
| Recovery.LegalLogsAgree | pkg/ome/filedb.go:55-319 | after any log, the live rows of the tables are the resting orders, and the counters agree |
| Recovery.LegalLogsAreWellformed | pkg/ome/ome.go:635-734 | every log of the engine meets what the writer needs of it |
| Recovery.LoadIsTheBook | pkg/ome/ome.go:235-267 | loading the live rows gives back both books exactly |
| Recovery.RecoveryIsExact | pkg/ome/ome.go:417-454 | at every log point a restart restores the live engine |
| Recovery.MatchingResumes | pkg/ome/ome.go:144-149 | a matching pass cut at any line is finished by the first pass of the next process |
| Recovery.RunIsItsAcceptedTickets | pkg/ome/ome.go:479-504 | duplicates and what follows a refused ticket leave no trace in the log |
| Recovery.CrashIsInvisible | pkg/ome/ome.go:109-168 | from any surviving prefix, a restart fed the tickets not yet logged writes exactly the missing lines |
| Resend.CrashIsInvisibleOnResend | pkg/ome/ome.go:109-168 | the same when every ticket is sent again from the first |
| Resend.CrashIsInvisibleAfterAnyWrites | pkg/ome/ome.go:109-168 | and after any life of the writer that has caught up with the surviving lines: any batches, aborted transactions and restarts |
| Resend.BlocksCount | pkg/ome/ome.go:570-582 | at every log point the ticket counters are those of the tickets logged so far |
| Ledger.CoinIsConserved | pkg/bank/bank.go:691-717 | over every life of a bank, free + freeze over all users changes by exactly what changes inject |
| Ledger.FailureIsUndone | pkg/bank/bank.go:538-545 | a failed write leaves balances, ticket numbers, log and sequence as they were, but not the reason ID |
| Ledger.RequestsFreezeTheirWorth | pkg/bank/bank.go:493-606 | a request for the bank moves quantity * (1 + fee) of an ask, amount * (1 + fee) of a bid, from free to frozen and nothing else; its line has one ticket with the request's own data and one leg with the balance that results |
| Ledger.OthersChangeNothing | pkg/bank/bank.go:495-521 | any other request is refused and changes nothing |
| Ledger.ChangesMoveBothLegs | pkg/bank/bank.go:691-776 | a change moves both legs, also when they are one owner's, and logs both in order with the balances they lead to |
| Ledger.DirectChangesMoveOneLeg | pkg/bank/bank.go:781-847 | a direct change moves one leg and logs it |
| Ledger.NilRecordLeavesTheFirstLeg | pkg/bank/bank.go:745-757 | a change without a second owner has moved its first leg when it fails, and has logged nothing |
| Ledger.WhatOperationsReport | pkg/bank/bank.go:413-545 | when each operation succeeds, and the error it fails with |
| Ledger.WhatIsAcknowledged | pkg/bank/bank.go:422-457 | a request is acknowledged exactly when it is taken, was taken before, or is meant for another bank |
| Ledger.RequestsTakeEffectOnce | pkg/bank/bank.go:422-457 | from any loaded balances and under any re-delivery: sequences make at most one ticket each, ticket and log IDs have no gaps, the last sequence taken is the last one logged, and no acknowledgement goes beyond it |
| Acks.AckBatches | pkg/bank/bank.go:327-352 | every acknowledgement sent is a sequence that has arrived and covers its whole batch, and one that failed is made up for by the next |
| Acks.BatchedAcksAreLogged | pkg/bank/bank.go:327-352 | however they are batched, no acknowledgement goes beyond the last sequence in the log |
| BankLives.LivesTakeRequestsOnce | pkg/bank/bank.go:258-316 | over any number of lives of a bank, each loading what its writer has caught up with, no sequence makes two tickets and log IDs have no gaps |
| BankLives.NumbersGoOn | pkg/bank/bank.go:286-293 | after any number of lives ticket numbers are 1, 2, 3, ... and the next bank goes on with the next one, if and only if no transaction has failed after inserting tickets |
| BankLives.EngineTakesTheNext | pkg/ome/ome.go:479-503 | an engine that has every ticket logged accepts the first ticket of the next bank if no key was wasted, and refuses it as not continuous otherwise |
| BankLives.OneFailedTransactionStopsTheEngine | pkg/bank/filedb.go:210-263 | one request whose first transaction fails after the insert: the next bank numbers its first ticket 3, and the engine stops |
| TicketKeys.KeysFollowTheWaste | pkg/model/ticket-model.go:9 | over every life of the writer each row has a key, keys ascend, and the last one given out is the number of rows and of keys wasted |
| TicketKeys.NewestKeyIsTheCountAndTheWaste | pkg/bank/bank.go:286-293 | the key a load finds in tables that have caught up is the number of tickets logged and of keys wasted |
| TicketKeys.NothingIsWasted | pkg/bank/filedb.go:210-263 | no key is wasted if and only if no transaction fails that has inserted tickets of the symbol |
| Ledger.OnlySafeSkipsAckAhead | pkg/bank/bank.go:438-456 | an acknowledgement beyond the log happens exactly on a safe skip |
| BankWorker.Worker.CheckoutAsset | pkg/bank/bank.go:480-487 | one record per user, made on first use, never shared between users |
| BankWorker.Worker.CreateOrder | pkg/bank/bank.go:493-606 | the refusals, the frozen total, the ticket and its log line, and the undo on failure |
| BankWorker.Worker.BalanceChanged | pkg/bank/bank.go:691-776 | both legs in place, also when both owners are one record; the undo; the nil dereference |
| BankWorker.Worker.OrderMatched | pkg/bank/bank.go:613-689 | both legs in place and their undo |
| BankWorker.Worker.DirectChange | pkg/bank/bank.go:781-847 | one leg in place and its undo |
| BankWorker.Worker.HandleOrderReq | pkg/bank/bank.go:422-457 | duplicate filter, acknowledgement, safe skip |
| BankWorker.Worker.HandleBankMsgs | pkg/bank/bank.go:377-410 | the message loop is the life of the ledger up to its first error |
| BankWorker.Worker.LoadAllAssets | pkg/bank/bank.go:258-316 | a new process holds the balances of the rows, the newest key of its ticket table and the saved sequence, and no reason ID |
| BankTables.BatchRefinesLines | pkg/bank/filedb.go:44-263 | last-wins balances, snapshots, tickets and the stream sequence of a batch equal the lines one at a time |
| BankTables.LedgerIsItsLog | pkg/bank/bank.go:735-757 | in any life of a bank, over any log: the last recorded balances are the ledger in memory, also when both owners are one, and the changes in the log add up to them if and only if no request had a negative total |
| BankTables.NegativeTotalsDoNotAddUp | pkg/bank/bank.go:560-578 | the line of a request with a negative total records a change that does not lead to the balance it records |
| BankWriter.Worker.ParseAndWriteLogs | pkg/bank/filedb.go:44-263 | the loop and the transaction do what the batch function says, counting lines as saved even on failure |
| BankWriter.TablesFollowTheLog | pkg/bank/filedb.go:14-41 | over any batch sizes, failures and restarts the tables are the saved prefix of the file, each line once |
| BankRows.LinesArePictured | pkg/bank/filedb.go:117-165 | the snapshots of a saved line are its legs in order, numbered after its ticket, the second one only if its owner is positive |
| BankRows.RowsAreNewest | pkg/bank/filedb.go:131-160 | a balance row is the free and frozen balance in its owner's newest snapshot |
| BankRows.TicketsAreCopied | pkg/bank/filedb.go:93-115 | the k-th ticket row of a symbol has the price, quantity and amount of its k-th ticket |
| BankRows.SavedRowsTell | pkg/bank/filedb.go:14-41 | all three over every life of the writer, for the lines saved so far |
| BankRows.SnapsAreHeld | pkg/model/balance-snap-model.go:18-21 | read back, a snapshot is the one written with each number rounded to its column |
| BankRows.TicketsAreHeld | pkg/model/ticket-model.go:21-23 | read back, a ticket row is the one written with each number rounded to its column |
| BankWriter.AbortedLinesNeedARestart | pkg/bank/filedb.go:258-260 | after a failed transaction the same lines are dropped, unless the round starts afresh |
| BankWriter.RoundsStartAtTheNewestSnap | pkg/bank/bank.go:233-253 | over every life of the writer, the log ID a round starts from is that of the newest snapshot |
| BankWriter.SavedLinesFit | pkg/bank/filedb.go:191-263 | a line with a number that does not fit its column is never saved, nor is any line after it |
| BankWriter.WriterCatchesUp | pkg/bank/filedb.go:14-41 | from any point of any life a fresh round can save the whole file if and only if all its numbers fit |
| BankRows.SavedNumbersFit | pkg/bank/filedb.go:191-263 | no snapshot or ticket row ever holds a number that does not fit its column |
| Columns.ColumnKeepsFineNumbers | pkg/model/balance-model.go:15-16 | a column gives a number back if and only if it has at most 18 decimal places, and is off by at most half a unit of the last |
| Columns.RangeIsTheColumns | pkg/model/balance-model.go:15-16 | the numbers that fit are those that round to at most 18 digits before the point |
| Columns.EngineAmountsAreFine | pkg/ome/structs.go:144-150 | what the engine sends has at most 12 decimal places, so columns keep it |
| BankRecovery.TablesHoldTheLedger | pkg/bank/bank.go:258-316 | in any life of a bank: each row holds, rounded to its columns, the balance that was in memory when the saved line was the last one logged, and the balance in memory once all is saved; so does the stream sequence |
| BankRecovery.RowIsExactWhenFine | pkg/model/balance-model.go:15-16 | in any life a caught-up row equals the balance in memory if and only if that balance has at most 18 decimal places |
| BankRecovery.RestartKeepsTheBalance | pkg/bank/bank.go:268-285 | a restart gives back a balance if and only if its owner has a row and it has at most 18 decimal places, or it is zero and has none |
| BankRecovery.RowsStayExact | pkg/bank/bank.go:525-531 | in any life, a user's balance can be read back exactly at every point if and only if every total frozen for the user in it has at most 18 decimal places |
| Places.RunsStayExact | pkg/bank/bank.go:525-531 | the same over every run of the exchange, engine changes and restarts included |
| BankRecovery.SmallFeesAreLostInTheRow | pkg/bank/bank.go:525-531 | a concrete request after which, in any life, the caught-up row is not the balance in memory |
| Filedb.File.ReadLastLine | pkg/filedb/filedb.go:74-106 | the buffer holds the last 1024 bytes, and the result is the last line in it |
| Filedb.LastRecordIsReadBack | pkg/filedb/filedb.go:62-106 | the last record is read back if and only if it is shorter than 1024 bytes |
| Filedb.LastLineIsRead | pkg/filedb/filedb.go:74-106 | of any file, what is read back is the last line of the last 1024 characters, without the blanks at their ends |
| Grpc.Tickets | pkg/bank/grpc.go:50-112 | pushes the tickets above the ID asked for, line by line |
| Grpc.ConnectionResumes | pkg/bank/grpc.go:54-81 | a connection sends exactly the tickets after the ID asked for, in order, field by field and with fee rate 0 |
| Grpc.PullTickets | pkg/ome/grpc.go:159-199 | a new connection puts on the channel exactly the tickets of that bank the engine does not have, in order, and each of them is then accepted |
| Grpc.PushBalanceLogs | pkg/ome/grpc.go:71-156 | pushes one change per match line above the first ID |
| Grpc.MessagesCarryChanges | pkg/ome/grpc.go:94-131 | each message carries its change, the first ID of the stream, and the change's own reason table |
| Grpc.PushesAreDue | pkg/ome/grpc.go:75-132 | these are exactly the changes due after the first ID |
| Grpc.BalanceChanges | pkg/bank/grpc.go:22-47 | answers greetings and queues the changes tagged with the agreed ID |
| Grpc.ConnectionDeliversWhatIsDue | pkg/bank/grpc.go:22-47 | one connection end to end queues exactly the changes not applied before, and none of another stream |
| Streams.ConsumeFlows | pkg/ome/ome.go:479-504 | the head of the channel is a genuine ticket, a duplicate or the next one, never beyond a gap |
| Streams.SendFlows | pkg/bank/grpc.go:54-81 | pushing the next ticket above the ID asked for keeps the way to the engine free of gaps |
| Streams.ChangeReceiveFlows | pkg/bank/grpc.go:41-43 | queueing a change keeps applied, queued and in-flight changes in log order, each once |
| Grpc.HandshakeIsExactWhenIdle | pkg/bank/grpc.go:34-40 | a handshake and the stream after it deliver every change once if and only if no received change is still queued |
| Exchange.FlowHolds | pkg/ome/ome.go:109-168 | in every run both ticket flows and the engine's log are sound, through crashes, reconnections and restarts of the banks |
| Exchange.TicketsAreConsumedOnce | pkg/ome/ome.go:479-504 | the orders of a side are its bank's tickets 1, ..., latest in order, with fee rate 0, over any number of lives of the bank, and no ticket is ever refused |
| Origins.TicketsTellRequests | pkg/bank/bank.go:552-563 | in every run each ticket a bank has issued has the data of a request sent to it |
| Origins.OrdersFollowRequests | pkg/ome/ome.go:506-557 | in every run each order of the engine is a request sent to the bank of its side: owner, side and kind, price and quantity truncated, and no fee rate |
| Exchange.CrashLeaves | pkg/ome/ome.go:109-168 | a crash of the engine loses the channel and what is under way on its streams, and nothing of the engine, the log or the banks |
| Exchange.EndsAndBeginnings | pkg/bank/grpc.go:22-47 | what a broken stream, a stopped bank and a new ticket stream leave |
| Exchange.StopsAndRestarts | pkg/bank/bank.go:117-143 | a restarted bank serves again with new streams; a new request stops a bank exactly when it is not the bank's own |
| Pairs.NamingThePairIsExactlyWhatIsNeeded | pkg/bank/bank.go:493-530 | if all other requests name the pair, one request can never disturb its tickets if and only if no bank of the pair takes it unless it names the pair |
| Pairs.StrayReplacesTheFirst | pkg/bank/grpc.go:63-74 | a run in which a request for another pair becomes the engine's order 1 and the pair's own first ticket is dropped as a duplicate |
| Solvency.OrdersCoverDebits | pkg/ome/ome.go:646-682 | for every user and side of every log: debits plus what still rests stay within what the orders committed |
| Funds.SoundRequestsAreCovered | pkg/bank/bank.go:501-530 | amount >= price * quantity (for a bid) and fee >= 0 make a request cover its order |
| Settlement.ChangesAreAppliedOnce | pkg/bank/bank.go:413-420 | in every timely run, stopped banks included, the changes in a bank's log are exactly those due up to its reason ID; the rest is queued, in flight or unpushed |
| Settlement.BalancesFollowTheMatches | pkg/ome/grpc.go:75-132 | a balance is the one loaded, with what the user's orders froze, minus the debits and plus the gains of the matches up to the reason ID |
| Settlement.TradingMakesNoCoin | pkg/bank/bank.go:691-717 | in every run, whatever the streams do, the total of a coin stays what the bank has loaded, self-trades included, as long as restarts lose no balance |
| Cover.FrozenFundsCoverDebts | pkg/bank/bank.go:501-535 | in every timely run of covered requests, what a user has frozen beyond the loaded balance covers unapplied debits, resting orders and tickets under way |
| Cover.NobodyIsOverdrawn | pkg/bank/bank.go:501-535 | in every timely run of safe requests, nobody's frozen balance falls below the loaded one |
| Safety.SafetyIsExactlyWhatIsNeeded | pkg/bank/bank.go:493-545 | a request, of any owner, price, quantity and fee, can overdraw nobody if and only if it is safe: its total is not negative and, unless it is a bid that can never be settled, its quantity is not negative and its total covers its scaled order |
| Resale.NegativeAskOverdraws | pkg/ome/ome.go:654-682 | a run in which an ask of a negative quantity makes a bid of nothing grow, and its owner pays for it |
| Greetings.GreetingIsHarmlessExactlyWhenIdle | pkg/bank/grpc.go:34-40 | at any point of any timely run, a greeting leaves every change applied once in all that follows, up to the next greeting or restart, if and only if nothing is queued, or the bank is about to stop over a queued change |
| Greetings.MatchIsSettledTwice | pkg/bank/grpc.go:34-40 | any two orders that meet can have their match applied twice, by two streams one after the other, and its cost taken twice from what was frozen once |
| Greetings.CoveredUserIsChargedTwice | pkg/bank/grpc.go:34-45 | two concrete covered requests after which a user has -1 frozen |
| Restarts.RestartsRepeatChanges | pkg/bank/bank.go:303-310 | wherever a timely run stops, a restarted bank that is sent all changes again applies each once if and only if it had applied none before |
| Restarts.LoadsAreReloads | pkg/bank/bank.go:258-316 | the restart of the exchange is the load from the tables, after any lives of banks and writers |
| Restarts.WastedKeysAreRefused | pkg/ome/ome.go:487-503 | the engine refuses the first ticket of a restarted bank, and stops, if and only if a key was wasted |
| Halts.ChangesNeedABider | pkg/ome/grpc.go:94-131 | in every run the next change of a bank is that of a match, and can be applied if and only if its bider is positive |
| Halts.PositiveBidersNeverHalt | pkg/bank/bank.go:745-757 | if every bid has a positive owner, no bank ever stops over a change |
| Halts.NonPositiveBiderHalts | pkg/bank/bank.go:745-757 | a bid of any owner at or below zero that meets an ask stops the bank of either coin |
| Halts.OwnerIsExactlyWhatIsNeeded | pkg/bank/bank.go:493-545 | among bids of positive owners, one bid can never stop a bank if and only if its owner is positive |

## Left out

- JSON text, parse errors, timestamps, routing strings, logging, configuration and performance printing.
- NATS, gRPC, etcd, MySQL and the file tail as libraries: what remains of them is queues, cursors, and transactions that commit or abort.
- The inside of the btree: it is its ordered contents seen through the comparators.
- The fee rate of a resting order, which matching never reads and a restart does not restore exactly (pkg/ome/ome.go:248); `askFee` and `bidFee`, which are 0.
- The order type: carried, never read by matching. `Order.Less` (pkg/ome/structs.go:91-105) is not used by either book.
- The database's keys on trades, and lines cut in the middle by a crash of the operating system: a log is cut at line ends.
- Deposits and withdrawals in the exchange of `Exchange.dfy`: `DirectChange` is proved as an operation of the ledger and in its conservation law only. The repository has no caller of it yet; the model lets it come between any two messages.
- Cancelling orders and releasing what is left frozen after a full fill: not implemented (pkg/bank/bank.go:610).
- A check that free funds suffice: the code has none, so nothing is claimed about free balances being non-negative.
- Goroutine scheduling inside one program: channels are queues, and a handler of a broken change stream is taken to stop with it.
- The batching of `ToMySQL` (pkg/filedb/filedb.go:238-269): the writers are proved for batches of every size.
- The 64-bit width of identifiers, which count events one by one.
- Engines of other pairs: a bank's server may be read by several, and `Exchange.dfy` has the one of the configuration (pkg/bank/bank.go:52).
- BankRecovery.TablesHoldTheLedger: speaks of users who have a balance row, because the writer only updates rows that exist (pkg/bank/filedb.go:199-209).
- Several symbols in one bank: the source reuses one query result for all of them (pkg/bank/bank.go:286-293); its configuration names one.
- The engine's columns: its integers divided by 10^12 fit decimal(36,18) up to 10^18, and a larger one is a transaction that never commits.
- Cover.FrozenFundsCoverDebts: speaks of runs that are timely; `Greetings.dfy` shows it false of others.
- Settlement.ChangesAreAppliedOnce: speaks of runs that are timely; `Greetings.dfy` and `Restarts.dfy` give the exact conditions outside them.
