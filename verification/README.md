# Verified models of the options-trading system

The Dafny modules here model the parts of the trading system that hold state or do
arithmetic, and prove what they promise for every input, every failure pattern and
every run. `dafny verify dfyconfig.toml` checks all of them.

Code that changes things step by step is written as methods over mutable fields and
proved against a function or predicate; the theorems are about those. Every external
answer (broker, session, pricing, database save, clock, row ids) is a parameter, so
each failure is one of the cases.

## The modules

| files | part of the system |
|---|---|
| `OrderLifecycle`, `OrderSafety`, `OrderService` | suggestions, positions, trades and broker orders as a transition system; what every step and run keeps; the view, the execution service, the monitor and the closing near expiration row by row, proved to agree with the steps |
| `ProfitTargets` | recording batches of profit-target orders on the position and its opening trade |
| `Text`, `OccSymbols`, `ConflictCheck` | option symbols, printed and parsed, and the check that uses them |
| `Sorting`, `SpreadPairing`, `OrderIndices`, `Reconciliation` | the reconciliation and assignment scripts |
| `PriceHistory` | bulk storing of daily prices and its fallback |
| `Indicators`, `MarketConditions` | RSI, ADX, composite direction, stress score and market report, over reals |
| `GreeksAggregation`, `GreeksCaching` | signed sums of Greeks, and how old a served Greek can be |
| `TradingAccounts` | the primary flag and the preference queue under stale and partial saves |
| `CacheKeys` | cache key builders |
| `ExitRules` | profit-target, stop-loss and time rules and their manager |
| `SymbolRanking` | the ranking behind the daily suggestion mail |
| `Prelude`, `Numbers` | the optional value, absolute values and bounds |

## What the proofs found

The models follow the code. Where it does less than a reader would expect, a lemma gives
the input, and where a condition decides, it is proved exact.

- A poll that sees `received`, `in flight` or a failed lookup writes that word to the
  trade, and the monitor never selects the trade again
  (`OrderSafety.PollEndsUnlessRoutedOrLive`); no step of the model moves its position
  again (`FailedLookupStrandsPosition`). The trade reconciliation service, which repairs
  such positions, is not part of this model.
- A fill for which no target is accepted, or after which a save fails, leaves the
  position pending in the same sense (`FillOpensOrStrands`).
- The monitor does not look at a trade's type: closing trades are written without a
  parent order too, so the fill of one submits a second batch of targets whenever the
  flag of its position is false (`OrderSafety.OneBatchPerPositionIff`,
  `SecondBatchFollows`; six events suffice, `SecondBatchIsReachable`). The hourly task closes only positions whose flag is true,
  which rules this out (`TargetedClosesKeepOneBatch`); the command
  `fix_position_profit_targets` does not check the flag. For a single position it does
  not check the state either; `CloseKeepsInvIff` says exactly which closes are safe.
- A suggestion stays approved, out of reach of both views, exactly when every attempt to
  reset it fails; after a failed mark only the last-resort handler can reset it
  (`ExecuteIsAllOrNothing`, `ApprovedIsStuck`). The broker holds an unrecorded order
  exactly when a save fails after acceptance (`ExecuteOrphansOrderIff`).
- A strategy that offers fewer targets than are expected of it, such as a trident
  without call side, never has its targets marked complete
  (`ProfitTargets.RetriesConverge`, `ShortOfferNeverCompletes`).
- If the trade save fails after the position save, the details name orders that the
  trade does not list (`ProfitTargets.RunLinkedIffNeverTorn`).
- A retry filter that has become empty selects every target again
  (`RetryWithNothingMissingResubmitsAll`).
- A strike with more than three decimals is cut by the symbol printer
  (`OccSymbols.RoundTripIff`).
- The reconciliation plan closes positions at the current time, so applying it twice
  equals applying it once only up to that time (`Reconciliation.ApplyingTwiceEqualsOnceIff`).
- `store_in_database` counts every given row as created, stored already or not, and adds
  the rewrites (`PriceHistory.PriceTable.StoreInDatabase`); its log line calls this the
  number stored.
- On a window without losses the rolling RSI divides by a fixed tiny number: it then
  differs from the fallback and, if there were gains, depends on the unit of prices
  (`Indicators.RollingRsiInvariantIff`).
- A comment in `_calculate_adx` names Wilder's smoothing with weight 1/n; `ewm(span=n)`
  uses 2/(n+1), and so does the model (`Indicators.AlphaIsNotWilders`).
- At a price equal to its moving average the composite direction leans bearish, unless
  MACD is flat and the trend weak (`Indicators.SymmetricAtAverageIff`).
- A stale partial save of a copy marked primary can leave a user with no primary account
  (`TradingAccounts.PrimaryLeftIff`, with `PrimaryCanVanish` as an instance).
- Cache keys collide only by replaced blanks, or when the symbol of a nested or
  expirations chain spells the rest of a dated key (`CacheKeys.KeysCollideIff`).
- An ALL exit manager emptied by `remove_strategy` exits every position
  (`ExitRules.ExitsUntriggeredIff`). A minimum DTE of 0 never triggers, even after
  expiration. A time rule that watches the holding period raises on a stamp without time
  zone, which also loses its DTE trigger.

## Model

| member | source | states |
|---|---|---|
| `OrderSafety.OpenPositionsAreFilled` | trading/tasks.py:136-369 | From any suggestions that own no position, after every run of execute, reject, poll, broker and near-expiration closing steps that closes only open positions, as the hourly task does: a position that is open or closing has a filled opening trade, with a filled broker order, whose fill led to a batch of targets; and no trade led to two batches |
| `OrderSafety.OneBatchPerPositionIff` | trading/tasks.py:321-369 | Over any run each position has at most one batch of targets if and only if no poll sees a closing trade fill while the flag of its position is false and targets are on offer |
| `OrderSafety.TargetedClosesKeepOneBatch` | trading/tasks.py:1086-1097 | So while only positions with all their targets are closed, as the hourly task does, each position has at most one batch in every run |
| `OrderSafety.ClosingFillResubmits` | trading/tasks.py:331-335 | Any fill of a closing trade that submits a batch submits a second one for its position |
| `OrderSafety.SecondBatchFollows` | services/positions/lifecycle/dte_manager.py:148-258 | From every state with an open position whose flag is false, a close, the fill of its order and one poll submit a second batch for the position |
| `OrderSafety.SecondBatchIsReachable` | trading/tasks.py:321-369 | Such a state is reached from one fresh suggestion, so a run of six events submits a second batch |
| `OrderSafety.PollBatchesIff` | trading/tasks.py:172-369 | A poll submits a batch exactly when it sees and saves a fill of a trade without parent, opening or closing, whose position has a false flag, a known strategy, an opening trade and targets on offer |
| `OrderSafety.OneBatchIffOnlyEntries` | trading/tasks.py:321-369 | In every state of the invariant, one batch per position means exactly that no closing trade led to one |
| `OrderSafety.RunKeepsInv` | trading/tasks.py:136-369 | Every run that closes only open positions keeps the invariant: unique references, exactly one opening trade per position, foreign keys, filled trades backed by filled broker orders, open positions backed by entries that filled and got their batch, closing trades only on opened positions, at most one batch per trade, and position and opening trade carry the same order id |
| `OrderSafety.StepKeepsInv` | trading/tasks.py:136-369 | Any single step of any kind, closes being of open positions, keeps that invariant, whatever fails inside it |
| `OrderSafety.ExecuteKeepsInv` | services/execution/order_service.py:257-466 | An execute request keeps the invariant at every outcome |
| `OrderSafety.PollKeepsInv` | trading/tasks.py:172-369 | One poll of one trade keeps the invariant: status write, expiry delete, fill handling |
| `OrderSafety.HandleFillKeepsInv` | trading/tasks.py:321-369 | Handling the fill of any trade, opening or closing, keeps the invariant and adds the trade to the batches once |
| `OrderSafety.UpdateKeepsInv` | trading/tasks.py:254-272 | Writing an observed status to a polled trade keeps the invariant, and such a trade has had no batch |
| `OrderSafety.DeleteKeepsInv` | trading/tasks.py:254-272 | Deleting a pending position whose opening trade is not filled keeps the invariant through both cascades |
| `OrderSafety.RejectKeepsInv` | trading/api_views.py:537-579 | Rejecting a suggestion keeps the invariant |
| `OrderSafety.BrokerMoveKeepsInv` | services/execution/order_service.py:1094-1128 | A status change at the broker keeps the invariant because terminal statuses are final |
| `OrderSafety.CloseKeepsInvIff` | services/positions/lifecycle/dte_manager.py:65-258 | A close near expiration keeps the invariant if and only if its row is not created, the position is open, or the position moves to closing with an entry that filled and got its batch; whatever else fails |
| `OrderSafety.CloseKeepsOpenFilledIff` | services/positions/lifecycle/dte_manager.py:148-258 | From any state of a position: after a close all open and closing positions have a filled entry with a batch exactly when the close does not move the position or its entry is of that kind |
| `OrderSafety.CloseLeavesRow` | services/positions/lifecycle/dte_manager.py:148-258 | Each column of the closing trade and of the position after a close that starts, by which answers and saves worked |
| `OrderSafety.UnpolledOpeningIsFrozen` | trading/tasks.py:136-169 | Once an opening trade has left the polled statuses no run deletes it or its position, or changes more than the targets and a closing of an open position; if the position is not open nothing changes at all |
| `OrderSafety.FilledEntryIsNeverDeleted` | trading/tasks.py:254-272 | A position whose opening trade filled is in the table after every later run |
| `OrderSafety.PollEndsUnlessRoutedOrLive` | trading/tasks.py:136-251 | A trade whose poll was saved is polled again if and only if the status it saw is routed or live; received, in flight, any further broker word and a failed lookup end the polling |
| `OrderSafety.PollWritesBrokerStatus` | trading/tasks.py:172-272 | A poll that gets an answer and saves leaves the trade in the table with the very status of its order at the broker, with the time and non-zero price where they are given and something is new, and keeps the position, unless an entry of a pending position expired |
| `OrderSafety.PollOfExpiredEntry` | trading/tasks.py:254-272 | In that case exactly the position and its trades are gone and every other row is as it was |
| `OrderSafety.PolledIffListed` | trading/tasks.py:136-150 | The monitor selects a trade exactly when the text of its status is one of the five listed |
| `OrderSafety.FailedLookupStrandsPosition` | services/execution/order_service.py:1094-1128 | After one failed lookup is saved, no run ever changes the pending position again |
| `OrderSafety.FillOpensOrStrands` | trading/tasks.py:321-369 | A poll that sees the entry fill leaves the position open or closing in every later run exactly when targets were accepted and every save worked; otherwise it is pending in every later run |
| `OrderSafety.FillRecordsBatch` | trading/tasks.py:321-369 | A fill whose batch is submitted and saved leaves the details of that batch alone, its accepted ids as children of the entry and of the filled trade, and its orders received at the broker |
| `OrderSafety.ExecuteIsAllOrNothing` | services/execution/order_service.py:257-466 | A pending suggestion ends executed with one new position and one new opening trade sharing the carried order id, or with both tables unchanged; exact conditions for executed and for stuck at approved, where after a failed mark only the last-resort reset counts; a dry run never adds a row |
| `OrderSafety.ExecuteOrphansOrderIff` | services/execution/order_service.py:426-466 | The broker holds an order that no trade row knows if and only if it accepted the order and a later save failed |
| `OrderSafety.ExecutedIff` | services/execution/order_service.py:257-466 | A pending suggestion ends executed exactly when every check passes, the broker takes the order, every save works and no row already uses the references |
| `OrderSafety.RejectDecides` | trading/api_views.py:537-579 | Rejecting changes that suggestion only, only if it was pending and the save works, and then its status and reason only |
| `OrderSafety.ApprovedIsStuck` | trading/api_views.py:348-391 | A suggestion left at approved stays approved in every later run |
| `OrderService.TradingDesk.ExecuteSuggestion` | trading/api_views.py:320-532 | The view, with its approval, rollbacks and last-resort handler, leaves exactly the tables of the lifecycle step and answers success exactly when the step completed |
| `OrderService.TradingDesk.ApproveAndExecute` | trading/api_views.py:389-532 | From the saved approval on, the row-by-row code agrees with the lifecycle step |
| `OrderService.TradingDesk.RestoreStatus` | trading/api_views.py:398-528 | After a run that did not succeed the suggestion is pending again if one of the reset saves works, the ordinary one only while the suggestion does not point at a deleted position, and approved otherwise |
| `OrderService.TradingDesk.RejectSuggestion` | trading/api_views.py:537-579 | Only a pending suggestion is rejected, and only if the save works; anything else is untouched |
| `OrderService.TradingDesk.ExecuteSuggestionAsync` | services/execution/order_service.py:257-466 | Success exactly when every check, the broker and every save succeed; every other way out leaves suggestions, positions and trades as they were |
| `OrderService.TradingDesk.PlaceOrder` | services/execution/order_service.py:417-466 | Pending rows, broker call, finalisation: the new pair of rows exists exactly on success and is removed on every failure |
| `OrderService.TradingDesk.FinishOrRemove` | services/execution/order_service.py:426-466 | Failure after the pending rows exist restores all three tables |
| `OrderService.TradingDesk.SubmitAndFinalize` | services/execution/order_service.py:426-448 | Submission, position, trade and suggestion succeed together, or the suggestion and all other rows are untouched |
| `OrderService.TradingDesk.MonitorOrders` | trading/tasks.py:136-169 | One monitor pass over exactly the trades its query selects is their polls one after the other, keeps the invariant, and counts exactly the polls that updated their trade |
| `OrderService.TradingDesk.CheckTradeStatus` | trading/tasks.py:172-251 | Looking up, comparing, writing and handling one trade is the lifecycle poll, and it reports an update exactly when something new was seen and saved |
| `OrderService.TradingDesk.UpdateTradeRecord` | trading/tasks.py:254-272 | Writes what was seen, keeps what was not, and on expiry of a pending entry deletes the position |
| `OrderService.TradingDesk.HandleOrderFill` | trading/tasks.py:321-369 | For a filled trade of either kind without parent on a position without targets: submits them, records them with the opening trade, links the accepted orders to the filled one and opens a pending position when there are any |
| `OrderService.TradingDesk.CreateTargetsFor` | services/execution/order_service.py:1416-1551 | On the stored rows the target service records the batch in the position and in its one opening trade, and refuses without one |
| `OrderService.TradingDesk.ClosePositionAtDte` | services/positions/lifecycle/dte_manager.py:148-258 | For a position in any state: row first, then the order, then both updates give the tables of the closing step at every outcome, and success only if the position is closing |
| `ProfitTargets.RunKeepsBookExact` | services/execution/order_service.py:1416-1551 | After any sequence of calls, merging or replacing, filtered or not, with any rejections: the flag holds exactly when the number of details is the expected count, and if no call lost the trade save after the position save every order id in the details is a child of the opening trade |
| `ProfitTargets.RunLinkedIffNeverTorn` | services/execution/order_service.py:1488-1544 | With new order ids, the details stay linked throughout a sequence of calls if and only if no call is torn between the two saves |
| `ProfitTargets.ApplyKeepsLinkedIffNotTorn` | services/execution/order_service.py:1488-1544 | A call with new order ids keeps the details linked if and only if it is not torn between the two saves |
| `ProfitTargets.ApplyKeepsLinked` | services/execution/order_service.py:1488-1544 | A call that is not torn keeps every detail linked, new ids or not |
| `ProfitTargets.ApplyKeepsFlag` | services/execution/order_service.py:1511-1529 | Every call, torn or not, keeps the flag exact for known strategies |
| `ProfitTargets.RetriesConverge` | services/execution/order_service.py:1469-1529 | Repeated merge retries filtered to the missing types keep existing targets, close the gap by exactly the orders accepted in rounds whose position save works, and keep the flag exact; with nothing missing the flag of a known strategy is set if and only if it offers as many targets as are expected of it |
| `ProfitTargets.RetryRound` | services/execution/order_service.py:1469-1529 | One such retry, for any expected count |
| `ProfitTargets.ShortOfferNeverCompletes` | services/execution/order_service.py:1511-1529 | A strategy that offers fewer targets than expected of it, such as a trident without call side, never gets the flag by retrying |
| `ProfitTargets.MissingCount` | services/execution/order_service.py:1553-1576 | Nothing is missing exactly when the number of targets is the number offered |
| `ProfitTargets.RetryWithNothingMissingResubmitsAll` | services/execution/order_service.py:1469-1478 | With nothing missing the filter is empty, an empty filter selects everything, and every accepted order replaces an existing target |
| `ProfitTargets.NewTargetsAreTheLastAccepted` | services/execution/order_service.py:1489-1497 | A batch names exactly the accepted spread types, each with the last order accepted for it |
| `ProfitTargets.DistinctTargetsCount` | services/execution/order_service.py:1489-1497 | With distinct types a batch records as many targets as orders were accepted |
| `ProfitTargets.ExecuteProfitTargets` | services/execution/order_service.py:1262-1295 | The loop returns the accepted ids in order and results that collect to the recorded targets |
| `ProfitTargets.TargetRecord.CreateProfitTargets` | services/execution/order_service.py:1416-1551 | Both rows after the call and its outcome for every combination of strategy, filter, rejections and failing saves; a skipped or refused call changes nothing |
| `ProfitTargets.ReplacingCall` | services/execution/order_service.py:1507-1544 | A replacing call that records leaves exactly its own accepted types, each with its last accepted order, and exactly its own accepted ids |
| `ProfitTargets.MergingCall` | services/execution/order_service.py:1499-1544 | A merging call keeps the target of every type it got no order for, sets the others to their last accepted order, and appends the accepted ids |
| `ProfitTargets.UnknownStrategyFlag` | services/execution/order_service.py:1511-1529 | Without an expected count the flag says that the broker refused nothing |
| `ProfitTargets.FailingSaves` | services/execution/order_service.py:1488-1544 | Without an accepted order, or when the position save fails, nothing changes; when only the trade save fails, all but the children does |
| `ProfitTargets.AcceptedInOrder` | services/execution/order_service.py:1262-1295 | The k-th accepted id is the answer that has exactly k accepted answers before it |
| `OccSymbols.RoundTripIff` | services/execution/order_service.py:80-98 | A printed contract (root of 1 to 6 non-space characters, expiry 2000 to 2068) parses back exactly if and only if its strike is a whole number of thousandths |
| `OccSymbols.ParsePrint` | scripts/position_reconciliation_analysis.py:77-99 | What the parser reads from a printed contract: everything, the strike cut to thousandths |
| `OccSymbols.ExpiryRoundTrip` | scripts/qqq_assignment_report.py:194-215 | Expiry dates from 2000 to 2068 survive the two-digit year |
| `OccSymbols.PrintLayout` | services/execution/order_service.py:80-98 | Positions of the fields: 21 characters when the strike in thousandths has at most eight digits |
| `OccSymbols.PrintExample` | services/execution/order_service.py:80-98 | An instance, character by character |
| `OccSymbols.PrintInjective` | services/execution/order_service.py:80-98 | Two such contracts have the same symbol only if they are the same |
| `ConflictCheck.CheckForConflictingPositions` | services/execution/order_service.py:63-171 | Raises exactly when some new symbol is a leg of an open position or working order; reports all such symbols, a position that holds one if any does, and an order that works one if any does |
| `ConflictCheck.NewSymbols` | services/execution/order_service.py:76-102 | The symbols of the new order: a side counts only when both of its strikes are given and not zero |
| `ConflictCheck.NewContractsIff` | services/execution/order_service.py:76-102 | The contracts of a new order by its four strikes |
| `ConflictCheck.InMarketIff` | services/execution/order_service.py:127-131 | An order counts exactly when it is received, routed, live or in flight |
| `ConflictCheck.HoldingIff` | services/execution/order_service.py:111-115 | A position counts exactly when it is open in full or in part |
| `ConflictCheck.ExistingSymbols` | services/execution/order_service.py:104-145 | The legs of open positions and of orders in the market, with a holder of each held and of each worked symbol |
| `ConflictCheck.ConflictSources` | services/execution/order_service.py:149-160 | A position and an order holding one of the conflicting symbols, if any does |
| `ConflictCheck.OrderClearIff` | services/execution/order_service.py:63-171 | For printed legs, an order passes exactly when none of its contracts (root, expiry, right, strike) is a held or working leg |
| `ConflictCheck.ClashIffSameContract` | services/execution/order_service.py:63-171 | The same for one contract: comparing text is comparing contracts |
| `ConflictCheck.WrittenIsUnique` | services/execution/order_service.py:80-98 | A recorded leg stands for one contract only |
| `SpreadPairing.GreedyIsMaximum` | scripts/position_reconciliation_analysis.py:139-178 | The greedy pairing is a set of disjoint adjacent pairs with a short leg each, and no such set is larger |
| `SpreadPairing.GreedyIsPairing` | scripts/position_reconciliation_analysis.py:139-178 | The pairs are disjoint, start no earlier than asked, are listed once each and contain a short leg each |
| `SpreadPairing.ShortLegsArePaired` | scripts/position_reconciliation_analysis.py:139-178 | Every short leg but possibly the one of highest strike is paired |
| `SpreadPairing.TopShortUnpairedIff` | scripts/position_reconciliation_analysis.py:139-178 | The top short leg is left over exactly when its neighbour went into the pair below |
| `SpreadPairing.NoLegUsedTwice` | scripts/position_reconciliation_analysis.py:116-205 | Over all expirations, puts and calls, the spreads use each broker leg at most as often as it occurs |
| `SpreadPairing.PairAdjacent` | scripts/position_reconciliation_analysis.py:139-178 | The index loop produces the greedy pairs in order |
| `SpreadPairing.GroupLegsIntoSpreads` | scripts/position_reconciliation_analysis.py:116-205 | The groups of all expirations, about which GroupsAreSound is proved, or the exception exactly when some list of two or more legs has an unreadable strike |
| `SpreadPairing.GroupsAreSound` | scripts/position_reconciliation_analysis.py:116-205 | Every group reported: each spread joins two legs of its expiration and right with a short one among them and no leg of that list strictly between in strike; spreads ascend; their number is the largest any pairing of the strike-ordered legs has; the group is complete exactly with two put spreads and one call spread; and an expiration with a pair to make is reported |
| `SpreadPairing.GroupsAreSoundFor` | scripts/position_reconciliation_analysis.py:116-205 | The same for any reading of symbols and any list of expirations |
| `SpreadPairing.SortedIsStrikeOrder` | scripts/position_reconciliation_analysis.py:141-143 | Sorting the legs of an expiration and right puts them in ascending strike, equal strikes in broker order |
| `SpreadPairing.StrikeOrderIsUnique` | scripts/position_reconciliation_analysis.py:141-143 | There is only one such order |
| `Sorting.SortIsStable` | scripts/position_reconciliation_analysis.py:141-143 | The keyed sort used by the scripts and the ranking: ordered, a permutation, equal keys in place |
| `OrderIndices.BuildOrderIndices` | scripts/qqq_assignment_report.py:476-516 | Each entry of the three indices is exactly the in-order sublist of all non-blank legs with that symbol, complex id or order id, and nothing else is a key |
| `OrderIndices.BuildOptionLookup` | scripts/qqq_assignment_report.py:519-525 | Every non-blank put is found under its stripped symbol, the last one with it |
| `OrderIndices.AnalyzeAssignments` | scripts/qqq_assignment_report.py:528-591 | The analysis through the indices equals a nested scan of all legs, of which ScanListsExactly and MessagesIff say what it holds |
| `OrderIndices.MatchRecords` | scripts/qqq_assignment_report.py:545-583 | For one assignment: one match per record, complex orders once, partners from the order or complex order |
| `OrderIndices.ComplexOrdersListedOnce` | scripts/qqq_assignment_report.py:545-583 | No complex order is listed twice for one assignment |
| `OrderIndices.EveryRecordIsListed` | scripts/qqq_assignment_report.py:545-583 | Every record of the assigned symbol is listed, by itself or with its complex order |
| `OrderIndices.PartnersNeverTheSymbol` | scripts/qqq_assignment_report.py:552-576 | The partners are exactly the group members with another symbol |
| `OrderIndices.ScanIsSound` | scripts/qqq_assignment_report.py:528-591 | Any partner reported for any orders is a different symbol from the same complex order or order, flagged open exactly if it is |
| `OrderIndices.ScanListsExactly` | scripts/qqq_assignment_report.py:545-583 | For any orders: every match has as partners exactly the legs with another symbol and the complex id of its record, or its order id if it has none, open exactly if they are; every record of the symbol has a match with its ids |
| `OrderIndices.MessagesIff` | scripts/qqq_assignment_report.py:536-590 | No originating order is reported exactly when no leg has the symbol; no partner legs exactly when one has and none of them shares its complex id, or failing that its order id, with another symbol |
| `OrderIndices.PartnersCount` | scripts/qqq_assignment_report.py:552-576 | One partner for each leg of the group with another symbol, repeated legs included |
| `OrderIndices.EntriesAreLegs` | scripts/qqq_assignment_report.py:487-514 | The entries are exactly the non-blank legs of the orders with the ids of their order |
| `Reconciliation.LoadLegs` | scripts/reconcile_positions.py:36-73 | A symbol is held exactly when a put or call of a non-equity expiration has it, and its record is the last one, calls after puts and expirations in order |
| `Reconciliation.IndexOrders` | scripts/reconcile_positions.py:102-105 | Orders by id, a repeated id keeping its last order |
| `Reconciliation.MatchPositions` | scripts/reconcile_positions.py:108-197 | Positions sorted into matched and unmatched with the state the legs call for, which PlanSettlesStates gives by orders and held legs |
| `Reconciliation.AccountForLegs` | scripts/reconcile_positions.py:225-235 | Accounted legs are those of some match; the rest are unaccounted |
| `Reconciliation.Reconcile` | scripts/reconcile_positions.py:36-319 | End to end, from the broker legs and orders as loaded: for every database the plan leaves each listed position with a known opening order closed, open in full or open in part exactly as none, all or some of its legs are held; an action on every correction; the legs unaccounted for exactly |
| `Reconciliation.EveryPositionIsClassified` | scripts/reconcile_positions.py:111-197 | Every position is matched or unmatched and not both, and which one is decided by its opening order |
| `Reconciliation.LegsArePartitioned` | scripts/reconcile_positions.py:225-235 | Accounted and unaccounted legs partition the broker legs; a leg is unaccounted exactly when no matched position has it |
| `Reconciliation.EveryCorrectionHasAnAction` | scripts/reconcile_positions.py:254-319 | Each correction has an action and at least one statement |
| `Reconciliation.PlanSetsRow` | scripts/reconcile_positions.py:254-319 | In the whole script a row is set only by its own correction |
| `Reconciliation.PlanSettlesStates` | scripts/reconcile_positions.py:177-299 | After the plan, by orders and held legs alone: a listed position whose opening order is known is closed exactly when no leg is held, open in full exactly when some and all are, open in part exactly when one is and another is not; every other position keeps its state; and which closing times are set |
| `Reconciliation.PlanClosesTradesIff` | scripts/reconcile_positions.py:273-319 | Which trades the plan closes, by the rows and the held legs alone: filled, submitted or live ones of listed positions found closed with the action of closing; all others are as they were |
| `Reconciliation.ReconciliationReachesFixpoint` | scripts/reconcile_positions.py:111-319 | After the plan is applied, the same broker data give the same matches and no state to correct |
| `Reconciliation.ApplyingTwice` | scripts/reconcile_positions.py:254-319 | A second application changes nothing but the closing time of the positions the plan closes |
| `Reconciliation.ApplyingTwiceEqualsOnceIff` | scripts/reconcile_positions.py:273-283 | Twice equals once in full if and only if both use the same time or the plan closes nothing |
| `Reconciliation.TradesSettleAtOnce` | scripts/reconcile_positions.py:278-284 | Trades are final after the first application of any plan |
| `PriceHistory.PriceTable.StoreInDatabase` | services/market_data/historical.py:200-296 | On the bulk path and on the fallback after a failure at any statement or at the commit: which table and which count results |
| `PriceHistory.PriceTable.BulkStore` | services/market_data/historical.py:217-275 | When all statements run, committed or not, the table is the last bar of every date over the old one; the count so far is given for every failure |
| `PriceHistory.PriceTable.CompareWithStored` | services/market_data/historical.py:245-268 | In-memory records after the comparison loop, and how many updates it notes |
| `PriceHistory.BulkRefinesRowByRow` | services/market_data/historical.py:216-291 | Folding update_or_create over any list, repeated dates included, gives the bulk table |
| `PriceHistory.BulkEqualsStored` | services/market_data/historical.py:235-275 | Insert-if-absent followed by the noted updates is last-bar-wins |
| `PriceHistory.RecordTracksRowByRow` | services/market_data/historical.py:251-268 | The comparison notes an update exactly where row-by-row storing would overwrite a different bar |
| `PriceHistory.RowByRowStoresSaved` | services/market_data/historical.py:276-291 | With failing rows the fallback stores exactly the rows that saved |
| `PriceHistory.RowHoldsLastSaved` | services/market_data/historical.py:276-291 | By position in the list: a row of the symbol holds the bar of the last saved point of its date, and every other row is as it was |
| `PriceHistory.RowHoldsLastGiven` | services/market_data/historical.py:216-275 | The same for the bulk path and the last point given |
| `PriceHistory.RewriteAtIff` | services/market_data/historical.py:251-268 | A point is counted as an update exactly when the bar given before it for its date, or the stored one if none was, is another |
| `PriceHistory.StoringTwiceChangesNothing` | services/market_data/historical.py:216-291 | Storing the same list again changes nothing |
| `PriceHistory.StoringLeavesOthersAlone` | services/market_data/historical.py:216-291 | Other symbols and other dates are untouched |
| `PriceHistory.StoringDependsOnLastBars` | services/market_data/historical.py:216-291 | Two lists with the same last bar for every date store the same table |
| `Indicators.CalculateRsiSimple` | services/market_data/indicators.py:590-617 | The list-based fallback computes the index of the last 14 changes |
| `Indicators.StrengthIsShare` | services/market_data/indicators.py:309-320 | The index is the percentage share of gains in all movement |
| `Indicators.RsiInRange` | services/market_data/indicators.py:309-320 | Both versions lie in [0,100]; the rolling one never reaches 100 |
| `Indicators.RollingEqualsSimpleIff` | services/market_data/indicators.py:309-320 | The versions agree exactly when the last 14 changes contain a loss |
| `Indicators.RsiExtremes` | services/market_data/indicators.py:309-320 | The fallback reads 100 exactly without a fall in the last 14 changes and 0 exactly with a fall and no rise; the rolling version 0 exactly without a rise |
| `Indicators.SimpleRsiInvariant` | services/market_data/indicators.py:590-617 | The fallback ignores positive scaling and shifting of prices |
| `Indicators.RollingRsiInvariantIff` | services/market_data/indicators.py:309-320 | The rolling version does so exactly when the scale is 1, the window has a loss, or it has no gain |
| `Indicators.RollingRsiReflectsIff` | services/market_data/indicators.py:309-320 | Reflected prices give 100 minus the index exactly when the window has both gains and losses |
| `Indicators.AdxInRange` | services/market_data/indicators.py:424-487 | ADX lies in [0,100] for every series of two or more bars and every period |
| `Indicators.DxInRange` | services/market_data/indicators.py:474-482 | So does every directional index |
| `Indicators.DxIsImbalance` | services/market_data/indicators.py:474-482 | The directional index is the share of the imbalance in all directional movement, and the true range cancels |
| `Indicators.SteadyTrendReadsFull` | services/market_data/indicators.py:424-487 | A series whose bars only climb, or only sink, reads 100 for every period |
| `Indicators.LargerMoveCounts` | services/market_data/indicators.py:459-466 | Of an upward and a downward move only the larger counts, and only if positive |
| `Indicators.DirectionalMovementsExclude` | services/market_data/indicators.py:459-466 | The two directional movements are never both positive and never negative |
| `Indicators.BlendStaysBetween` | services/market_data/indicators.py:468-485 | The exponential recurrence never leaves the range of its inputs |
| `Indicators.AlphaIsNotWilders` | services/market_data/indicators.py:468-472 | The smoothing weight 2/(n+1) is Wilder's 1/n only for n = 1 |
| `Indicators.BlendMoves` | services/market_data/indicators.py:468-472 | Each step moves the average by 2/(n+1) of the distance to the newest value |
| `Indicators.DirectionIsSymmetric` | services/market_data/indicators.py:332-422 | Away from the moving average the composite direction treats up and down alike |
| `Indicators.SymmetricAtAverageIff` | services/market_data/indicators.py:332-422 | At a price equal to the average it does so exactly when MACD is flat and ADX is missing or at most 15 |
| `Indicators.StrongBullishIff` | services/market_data/indicators.py:332-422 | The strongest reading exactly when ADX exceeds 25, the price its average, and MACD is up, or flat with a move above 3 |
| `Indicators.AgreeingSignalsReadBullish` | services/market_data/indicators.py:332-422 | Without a strong trend, price and MACD agreeing upwards read bullish, or exhausted when RSI exceeds 70 at the upper band |
| `MarketConditions.CalculateMarketStressLevel` | services/market_data/analysis.py:655-714 | The accumulated score is the capped sum of its three parts |
| `MarketConditions.StressAtMost85` | services/market_data/analysis.py:655-714 | With support at or below resistance and iv_rank in [0,100], stress lies in [0,85] |
| `MarketConditions.StressAbove85Iff` | services/market_data/analysis.py:655-714 | Above 85 exactly when both levels read as broken and the other parts exceed 55 |
| `MarketConditions.StressMonotone` | services/market_data/analysis.py:655-714 | Monotone in iv_rank and in the absolute move |
| `MarketConditions.StressPoints` | services/market_data/analysis.py:655-714 | The score point by point from raw volatility, move and levels, for levels in their natural order |
| `MarketConditions.RegimeIff` | services/market_data/analysis.py:168-219 | Each regime by the inputs alone, and which takes precedence |
| `MarketConditions.MomentumIff` | services/market_data/analysis.py:221-301 | Exhaustion exactly for a strong trend at an extreme, continuation exactly for one at none; extremes by RSI, band and a distance of five percent from the average |
| `MarketConditions.RegimeConfidenceIs` | services/market_data/analysis.py:168-219 | The confidence of each regime by the inputs |
| `MarketConditions.MomentumConfidenceIs` | services/market_data/analysis.py:265-301 | The confidence of a momentum reading: 90 exactly with all four warnings of a side |
| `MarketConditions.CrisisIff` | services/market_data/analysis.py:168-190 | Crisis exactly when a level is broken and volatility and move are large enough together |
| `MarketConditions.CrisisForces` | services/market_data/analysis.py:168-190 | Crisis forces iv_rank of at least 87.5, a move of at least 25/3 percent and a broken level |
| `MarketConditions.CrisisBoundsAreTight` | services/market_data/analysis.py:168-190 | Both bounds are attained |
| `MarketConditions.NeverBothExtremes` | services/market_data/analysis.py:221-263 | No report is both overbought and oversold |
| `MarketConditions.UnclearIff` | services/market_data/analysis.py:265-301 | Momentum is unclear exactly when ADX is missing or at most 30 |
| `MarketConditions.TrendRegimeHasMomentum` | services/market_data/analysis.py:168-301 | A bull or bear regime never comes with unclear momentum |
| `MarketConditions.ConfidencesInRange` | services/market_data/analysis.py:168-301 | Both confidences lie in [0,100] |
| `MarketConditions.RatioIgnoresUnit` | services/market_data/analysis.py:150-160 | The volatility ratio is positive and the same in every unit of volatility |
| `MarketConditions.MarketConditionReport.constructor` | services/market_data/analysis.py:138-166 | All derived fields of a finished report: trend, volatility ratio, regime, extremes, momentum and both confidences |
| `MarketConditions.MarketConditionReport.DetectRegime` | services/market_data/analysis.py:168-219 | The regime by precedence and its confidence; the ADX boost always applies to a trend regime, which makes it 80 |
| `MarketConditions.MarketConditionReport.DetectMomentum` | services/market_data/analysis.py:265-301 | The momentum signal and its confidence |
| `GreeksAggregation.GetPositionGreeks` | services/market_data/greeks.py:33-114 | 100 times the sum over the legs of signed contracts times reading, or nothing exactly when there are no legs, a direction cannot be read, or a leg with a symbol has an unreadable quantity or a null reading |
| `GreeksAggregation.GetPortfolioGreeks` | services/market_data/greeks.py:116-163 | Sum over the positions, and how many of them yielded Greeks |
| `GreeksAggregation.PortfolioIsSignedLegSum` | services/market_data/greeks.py:116-163 | The portfolio is 100 times the signed sum over one flat list of legs |
| `GreeksAggregation.LegOrderIrrelevant` | services/market_data/greeks.py:63-110 | Reordering legs changes neither the Greeks nor whether there are any |
| `GreeksAggregation.PositionOrderIrrelevant` | services/market_data/greeks.py:135-151 | Reordering positions changes nothing |
| `GreeksAggregation.OppositeCancels` | services/market_data/greeks.py:63-110 | A position and its leg-by-leg opposite cancel in every Greek |
| `GreeksAggregation.SingleLegGreek` | services/market_data/greeks.py:75-110 | One leg: 100 times the whole contracts times the reading, subtracted when the leg is short or its quantity negative |
| `GreeksAggregation.HedgedPairIsNeutral` | services/market_data/greeks.py:116-163 | Adding both anywhere to a portfolio leaves it as it was |
| `GreeksCaching.EveryReadIsFresh` | services/market_data/greeks_fetcher.py:92-130 | In every run from empty caches each read meets its bound: 3600 seconds plus the time to live through the fetcher, 3600 under the stress bypass, 3605 through the position and portfolio caches |
| `GreeksCaching.StepSound` | services/market_data/greeks.py:268-325 | One step keeps every cached value acceptable as of when it was stored, and what it returns meets its bound |
| `GreeksCaching.FetchBoundIsTight` | services/market_data/greeks_fetcher.py:103-130 | For every slack there is a run that returns a row older than the bound less the slack allows |
| `GreeksCaching.DeduplicatedKeepsEachOnce` | services/market_data/greeks_fetcher.py:171-182 | De-duplication keeps every non-blank symbol exactly once |
| `GreeksCaching.ResultsAreRequested` | services/market_data/greeks_fetcher.py:92-130 | Result keys are non-blank requested symbols |
| `GreeksCaching.GreeksFetcher.FetchGreeks` | services/market_data/greeks_fetcher.py:68-130 | Cache, stream, database in that order, with the bypass, for every symbol |
| `GreeksCaching.SourcesInOrder` | services/market_data/greeks_fetcher.py:103-130 | For one symbol: a live cache entry below the stress threshold, else the stream, else a row at most an hour old; what was found elsewhere is cached, and nothing found changes nothing |
| `GreeksCaching.PositionReadsItsRows` | services/market_data/greeks.py:268-296 | A live position entry is served as it is; otherwise the rows are exactly those its unstreamed legs have now and not older than an hour, kept for five seconds |
| `GreeksCaching.PortfolioReadsItsRows` | services/market_data/greeks.py:298-325 | The same for a portfolio |
| `TradingAccounts.NeverTwoPrimaries` | accounts/models.py:183-189 | Over any run of loads, edits and saves of any copies, stale or partial, at most one account per user and connection type is primary |
| `TradingAccounts.StepKeepsInv` | accounts/models.py:183-189 | Each single step keeps that |
| `TradingAccounts.SaveKeepsAtMostOne` | accounts/models.py:183-189 | So does any save that announces a primary it writes |
| `TradingAccounts.SaveSafeIffAnnounced` | accounts/models.py:183-189 | Among accepted saves, safety for every table holds exactly under that condition on the copy and the columns |
| `TradingAccounts.PrimaryCanVanish` | accounts/models.py:183-189 | An instance: a stale copy marked primary, saved by another column, leaves no primary |
| `TradingAccounts.PrimaryLeftIff` | accounts/models.py:183-189 | After any save of an existing account the owner has a primary if and only if the saved row ends up primary, or another one was and the copy is not marked primary |
| `TradingAccounts.MarkedSaveLeavesPrimaryIff` | accounts/models.py:183-189 | An accepted save of a copy marked primary leaves a primary if and only if the flag is among the columns written or was set already |
| `TradingAccounts.SaveKeepsPreferences` | accounts/models.py:290-340 | Across any save, accepted or not, every preference reads as before |
| `TradingAccounts.PreferenceReadsBack` | accounts/models.py:191-230 | A preference set before or after the first save reads back as set, then and across the save, and the other one is untouched |
| `TradingAccounts.TradingAccount.Save` | accounts/models.py:183-189 | Clearing other primaries, writing all or some columns and applying the queue gives the stored rows, preferences and copy, also when the unique key refuses or a new row is to be written by columns |
| `TradingAccounts.SaveWritesColumns` | accounts/models.py:183-189 | An accepted save writes the named columns, or all, from the copy and keeps the rest |
| `TradingAccounts.SaveClearsOthers` | accounts/models.py:183-189 | Every other row loses the flag exactly if the copy is marked primary for its owner, and keeps everything else |
| `TradingAccounts.FirstSaveInserts` | accounts/models.py:183-189 | A first save inserts the copy as it is, refused exactly for a taken number or when columns are named |
| `CacheKeys.KeysCollideIff` | services/core/cache.py:68-226 | For arbitrary texts, two calls build the same key if and only if they are the same call up to replaced blanks, or one is a nested or expirations chain whose symbol spells what follows the marker word in a dated or target-DTE key |
| `CacheKeys.SeparableCollideIff` | services/core/cache.py:68-226 | If only the symbols of nested and expirations chains are colon-free, two calls share a key exactly when they agree up to replaced blanks |
| `CacheKeys.DatedAgree` | services/core/cache.py:109-169 | Dated and target-DTE chains are told apart for arbitrary symbols |
| `CacheKeys.MarkedAgainstDated` | services/core/cache.py:109-169 | Exactly when a nested or expirations key equals a dated or target-DTE key |
| `CacheKeys.HistoricalAgree` | services/core/cache.py:222-226 | History keys determine symbol and days for arbitrary symbols |
| `CacheKeys.KeysNeverCollide` | services/core/cache.py:68-226 | With colon-free symbols of nested and expirations chains and underscore-free symbols of the builders that sanitise, two calls build the same key if and only if builder, arguments and embedded dates are the same |
| `CacheKeys.UnderscoreCollides` | services/core/cache.py:80-101 | An instance: any symbol with a blank shares its quote key with its sanitised form, which is another symbol exactly then |
| `CacheKeys.ColonCollides` | services/core/cache.py:109-138 | An instance: a nested chain whose symbol spells two dates shares its key with a dated chain |
| `CacheKeys.QuoteKeyExample` | services/core/cache.py:80-101 | An instance of a sanitised key |
| `CacheKeys.NestedKeyExample` | services/core/cache.py:127-138 | An instance of a nested key |
| `ExitRules.ExitManager.ShouldExit` | services/exit_strategies/manager.py:74-165 | The verdict is OR or AND with raised rules counted false; evaluations of all rules in order; the rules named are those that triggered or those waited on |
| `ExitRules.ExitManager.RemoveStrategy` | services/exit_strategies/manager.py:180-198 | Removes the first occurrence and says whether there was one |
| `ExitRules.OrderIrrelevant` | services/exit_strategies/manager.py:112-160 | The verdict does not depend on the order of the rules |
| `ExitRules.AddingIsMonotone` | services/exit_strategies/manager.py:167-178 | A rule added can only gain exits in ANY mode and only lose them in ALL mode |
| `ExitRules.RemovingIsMonotone` | services/exit_strategies/manager.py:180-198 | A rule removed does the opposite |
| `ExitRules.RemoveUndoesAdd` | services/exit_strategies/manager.py:167-198 | Removing a rule just added restores the rules held, and the list itself if the rule was new |
| `ExitRules.ExitsUntriggeredIff` | services/exit_strategies/manager.py:131-141 | With no rule triggered the manager exits exactly when it is in ALL mode and has been emptied |
| `ExitRules.TargetAndStopNeverBothExit` | services/exit_strategies/manager.py:131-141 | An ALL manager that holds a profit target and a stop loss never exits |
| `ExitRules.ThresholdsAreReportedPercentages` | services/exit_strategies/profit_target.py:84-95 | Each triggers exactly when the percentage of risk it reports has reached its limit, the limit included, and never at zero risk |
| `ExitRules.EvaluateTimeBased` | services/exit_strategies/time_based.py:103-188 | The flag is set exactly when a clause of the reason is a trigger; the rule raises exactly for a holding limit and a stamp without time zone |
| `ExitRules.MinimumDteTriggersIff` | services/exit_strategies/time_based.py:190-217 | A minimum DTE of m triggers from m - 1 days before expiration on; a minimum of 0 never triggers |
| `ExitRules.MaximumDteTriggersIff` | services/exit_strategies/time_based.py:118-140 | A maximum DTE of m triggers while more than m days remain |
| `ExitRules.TimeRuleIsOr` | services/exit_strategies/time_based.py:118-170 | With a usable stamp a rule with several limits triggers exactly when one of them alone does |
| `ExitRules.MaximumHoldingTriggersIff` | services/exit_strategies/time_based.py:219-234 | A holding limit of m days triggers once m + 1 whole days have passed |
| `ExitRules.MinimumHoldingNeverTriggers` | services/exit_strategies/time_based.py:148-164 | A minimum holding period alone never exits |
| `ExitRules.NeverUntriggersIff` | services/exit_strategies/time_based.py:118-234 | An ANY manager of the shipped rules never un-triggers as the clock advances exactly when it has no upper DTE limit or one covered by a lower limit, with and without the rules that watch the holding period |
| `ExitRules.UncoveredUntriggers` | services/exit_strategies/time_based.py:118-140 | Otherwise there is a position that triggers at one instant and not a day later |
| `ExitRules.MinimumDteNeverUntriggers` | services/exit_strategies/time_based.py:118-234 | Lists of minimum-DTE and holding rules never un-trigger |
| `SymbolRanking.ProcessSymbols` | trading/tasks.py:848-959 | Suitable replies become candidates ranked by score; every other reply is diagnosed, in order |
| `SymbolRanking.BestScore` | trading/tasks.py:910-919 | The highest positive score and the first strategy that has it, or zero and none |
| `SymbolRanking.BestIsUnique` | trading/tasks.py:910-919 | The scores determine the diagnosis of a symbol |
| `SymbolRanking.EverySymbolIsRankedOrReported` | trading/tasks.py:898-959 | Each requested symbol is ranked or reported exactly as often as requested; scores descend and equal scores keep their order |
| `SymbolRanking.CandidatesAreTops` | trading/tasks.py:935-950 | Every candidate is the first suggestion of its reply, with the score listed first under that name, or zero |
| `SymbolRanking.TopsAreCandidates` | trading/tasks.py:935-950 | Every reply with a suggestion has such a candidate |

## Left out

- OrderService.TradingDesk.CheckTradeStatus: a failed lookup, a missing account and a missing session are one case, since all three give the status `error`; reads between the external calls are assumed to work.
- OrderService.TradingDesk.ExecuteSuggestion: the reads after a successful execution (the first trade of the new position) are assumed not to raise, and deletes to succeed; the reply bodies are reduced to their kind.
- OrderSafety.OpenPositionsAreFilled: covers the runs of the execute and reject views, the monitor, the broker and the closing near expiration. Trades and states written by the cancellation service, the order event processor (profit-target fills), the position sync, the trade reconciliation service and, but for closes, the management commands are not steps.
- OrderSafety.RunKeepsInv: runs close open positions only, the condition the hourly task (`trading/tasks.py:1049-1097`) and the bulk modes of `fix_position_profit_targets` check; its single-position mode closes a position in any state, which CloseKeepsInvIff covers step by step.
- OrderSafety.CloseKeepsInvIff: cancelling the position's other orders before a close is not part of the step.
- OrderSafety.OneBatchPerPositionIff: counts the batches the monitor submits; those that commands and the trade reconciliation service submit are not steps.
- OrderSafety.ExecuteIsAllOrNothing: row ids and broker order ids are assumed new, as the database and the broker assign them.
- ProfitTargets.RetriesConverge: the types a strategy offers are assumed distinct and the same in every round.
- ProfitTargets.RunLinkedIffNeverTorn: broker order ids are assumed new, as the broker assigns them.
- ConflictCheck.OrderClearIff: speaks of legs printed in the 21-character layout; other recorded texts are compared as text, as CheckForConflictingPositions states.
- ConflictCheck.CheckForConflictingPositions: which of several holders is named is left open, as set iteration leaves it.
- OccSymbols.ParsePrint: strikes and dates in spellings the printer never produces (signs, exponents, blanks inside digits, non-ASCII digits) are read as unreadable, although the original accepts some of them.
- Reconciliation.ReconciliationReachesFixpoint: about rows the mapping lists, each id once; the original positions' other columns are left out.
- GreeksCaching.EveryReadIsFresh: a position's or portfolio's Greeks are reduced to the time stamps of the database rows behind them; streamed values have no bound in the code and none here.
- GreeksCaching.GreeksService.GetPositionGreeksCached: the cached value is its database time stamps; the numbers are those of GreeksAggregation.
- GreeksCaching.GreeksService.GetPortfolioGreeksCached: the same.
- TradingAccounts.NeverTwoPrimaries: edits of a copy leave its owner alone, and account rows are not deleted; SaveKeepsAtMostOne covers single saves that reassign the owner.
- TradingAccounts.SaveSafeIffAnnounced: tables without preference rows, since preferences do not bear on the flag.
- GreeksAggregation.GetPositionGreeks: a quantity given as text is the number it is read as, or unreadable where comparing or converting it raises.
- CacheKeys.KeysCollideIff: user ids and day counts are integers; embedded dates are calendar dates of the years 1 to 9999, which is all the date type allows.
- ExitRules.NeverUntriggersIff: about the three shipped kinds of rule; rules defined elsewhere may answer anything. The position is held fixed while the clock advances.
- ExitRules.ExitManager.Configure: the caller's list is copied, so a list shared with the caller and changed there is not modelled.
- ExitRules.EvaluateTimeBased: days in market time and instants are independent integers; time zones and the parsing of the expiration text are left out.
- Indicators.AdxInRange: exact reals; missing prices inside a series are left out.
- Concurrent interleaving inside one request, one poll or one save: each is one step.
- The user and account columns of the tables: the model is one user's view.
- Closing orders, order building, pricing, the risk service, OAuth sessions, streaming and notifications: external answers or not part of the model.
- The alert streamer and the position sync, which may also detect orders and move positions.
- Profit-target order contents, prices and parent links: the strategy's list of specifications and the broker's replies are inputs.
- `received_at` and the order object carried in leg records, and an assignment's transaction and quantity, which are only passed through.
- The reports' text, log lines, e-mails and reason strings; the reasons' content is kept as a list of clauses or rules.
- Float rounding, and Decimal columns narrower than the stored value.
- Bollinger bands, MACD, historical volatility and the exchange calendar: they rest on library code.
- Dividend and earnings windows, volatility labels, error-to-status mapping: single branches that would only add easy members.
