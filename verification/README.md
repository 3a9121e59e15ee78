# TrueTest core, modelled and proved in Dafny

TrueTest is a trading engine that runs the same strategies on history, on paper and live. This
project models the parts of it that decide what an order is worth: the price-time order book and the
paper adapter on top of it, the two profit ledgers, the bridge to a venue with its three threads, the
exit manager, the two queue-position simulators, the event log, and two small pieces of exact
arithmetic. It proves what these parts promise together, over every input and every run.

Code that changes things step by step is a class here, with the same fields and the same loops. Each
of its methods is proved equal to a function on values, and the theorems are about those functions,
so that they hold of the objects too.

- **Order book.** `PriceTimeBook` specifies the book on values and `BookTheorems` proves that matching,
  which works on both sides at once, is a one-sided walk in price-time order, that it conserves
  quantity, and that fill-or-kill is all or nothing. `NodeLists`, `BookMemory` and `BookIndex` hold
  the intrusive lists, node pool, free list, cached totals and id index in one invariant. The class in
  `OrderBook` refines the specification on that memory. `BookEdits` says what cancels, amendments and
  depth feeds leave, order by order and size by size. `BookRuns` has the theorems over runs, and
  `CrossedBooks` says what happens to orders that must not rest when a book is crossed already.
- **Paper adapter.** `WalkedVwap` proves the impact estimate equal to what the matcher then does, and
  `FillReports` carries that over to the fills a caller polls: one per resting order reached, in
  price-time order and at that order's price. `FillAccounts` and `LocalAdapter` prove that no order is
  ever filled for more than was submitted, although fills come from the order's own matching, from
  other parties' trades delivered later, and from bar sweeps.
- **Ledgers.** `Ledgers` proves that the portfolio's proportional cost basis and the analytics' average
  price agree after every run, commissions included. `LedgerTotals` proves both equal to the plain
  totals of what was paid, received, bought and sold.
- **Bridge.** `BridgeModel` takes each critical section of each thread as one step. `BridgeSafety`
  proves the safety of every interleaving, `BridgeHistory` that all it reports is what was asked,
  replied, received and made outside, in that order, and which orders it tracks, and `ExecutionBridge`
  is the object that takes those steps.
- **Exits.** `ExitRules` and `ExitModel` specify the manager. `ExitTriggers` says in plain comparisons
  what a tick or bar fires, and `ExitLifecycle` follows an intent from registration on. `ExitSafety`,
  `ExitBrackets`, `ExitStops` and `ExitCover` prove what holds over every run, `ExitCounterexamples`
  has the runs that break two of its promises, and `ExitManager` is the object.
- **Queues.** `QueueModel` and `QueueAware` prove when the three cancel models bracket each other, and
  `QueuePlaces` where they agree. `ShadowTape` proves that a print is never used twice, and
  `ShadowPrints` which orders it fills.
- **Event log.** `EventCodec`, `EventLog` and `EventFiles` prove the round trip from events to bytes and
  back, and exactly when the indexed replay is the linear one. `EventLayout` is the table of the
  bytes. `EventCuts` says what a log that was cut off or never finished replays to.
- **Arithmetic.** `CivilDate` and `RateLimiter`.

`Sums`, `Lots` and `Latency` hold the sums, whole-lot amounts and delayed cancels that several files use.

Some promises do not hold of the code as it stands. For each the project has an input that shows it
and the exact condition under which the promise does hold:

- An immediate-or-cancel order never rests (`CrossedBookKeepsResidue`): only if the orders ahead of it
  clear (`ResidueIff`), as they do in an uncrossed book, where there are none (`NoneAhead`).
- The price estimate is nonzero when the depth suffices (`FreeDepthNoEstimate`): only if, with prices
  that are not negative, some level with a price and a size begins within the size asked for
  (`VwapNonzeroIff`).
- A bar sweeps limits inside its range, as the comment on the sweep says (`SweepsAboveTheBar`): only if
  no eligible buy is above the bar and no eligible sell below it, since the code tests one end
  (`SweptInsideIff`).
- Every trade of a tracked resting order becomes a fill of it (`SecondLegIsLost`): only if no order that
  is filled by the time of the delivery has two trades in it (`EveryLegFilledIff`).
- The two ledgers agree (`DustParts`): on a fill that is dust, only if it costs nothing
  (`DustPartsIff`).
- A submission reported as failed is forgotten (`ThrownSubmitStays`): only if the venue itself refused
  it (`InMapsIff`).
- The two maps of the bridge stay inverse to each other (`EmptyClientBreaksInverse`): only if no client
  id is empty (`InverseIffNamed`).
- A fill made for an unknown message follows its meta. The comment in the bridge says metas are drained
  before fills each tick, and that is the order that can miss one (`MetasThenFillsCanMiss`): only
  those announced between the two polls (`MetasThenFillsIff`). The other order misses none
  (`FillsThenMetasIsSafe`).
- A venue bracket is cancelled at most once (`RecoveredTwice`): only if it is new to the manager when it
  is placed or recovered (`NeverTwiceIff`).
- The closes of an opener never exceed its fills (`ClosesTwice`): only if the fractions registered for
  it sum to at most one (`NeverTooMuchIff`).
- The manager's own close does not disarm its siblings (`StolenFillRun`, and in general
  `StolenFillDisarms`): only while it is within what is in flight (`KeepsSiblingsIff`).
- A cancel for a strategy and symbol removes every intent of theirs (`LatePendingSurvives`): only if all
  are of openers still indexed under them (`BulkCancelsAllIff`).
- A bar fires within its range (`FiresAboveTheBar`): only if its open and close lie there
  (`WithinRangeIff`).
- The front and back cancel models bracket the uniform one (`TellingTells`): only for orders that join a
  level whose trades are already reflected in its size (`BracketedIff`).
- An order that fills after its queue drained is counted (`DrainUncounted`): only if something of the
  queue was still ahead when the print came that filled it first (`FirstFillCountedIff`).
- A replay from a start time is the linear scan from there (`SkipsEventsAtStart`): only if no skipped
  event carries exactly that time (`ReplayIsLinearIff`).
- An uncompressed log is read as one (`MagicTimestampIsLost`): only if its first timestamp does not
  begin like a Zstandard frame (`ReplayAllIff`).
- A string comes back from the log (`LongStringIsCut`): only if it is shorter than 65536 bytes
  (`StrRoundTrip`).
- A log that was cut off or never finished replays to its whole frames (`FooterTextHidesEvents`): only
  if its beginning does not look compressed and its last bytes do not pass for a footer that hides
  them (`CutReplayIff`).
- A wait for tokens ends (`TooLargeWaitsForever`): only for requests the capacity can cover
  (`WaitSufficesIff`).

## Model

| member | source | states |
|---|---|---|
| `BookTheorems.MatchUncrosses` | src/orderbook/orderbook.cpp:173-233 | matching any well-formed book ends with a well-formed, uncrossed book; whichever side held no immediate order before holds none after |
| `BookTheorems.MatchIsWalk` | src/orderbook/orderbook.cpp:169-263 | an order alone at the front of its side: the matching loop, which works level by level on both sides, does what a one-sided walk over the opposite orders in price-time order does |
| `BookTheorems.AddOrderIsWalk` | src/orderbook/orderbook.cpp:265-305 | adding any order with a new id to an uncrossed book is price-time priority: trades and opposite side are those of the walk, and the remainder rests by price and arrival or, for immediate orders, not at all; only a fill-or-kill order that the walk would not fill, and an order whose id is in the book, change nothing |
| `BookTheorems.AddOrderKeepsBook` | src/orderbook/orderbook.cpp:265-305 | for every order of every kind, accepted or not, the book stays sorted with unique non-empty levels, uncrossed, and free of immediate and fill-or-kill orders |
| `BookTheorems.MatchConserves` | src/orderbook/orderbook.cpp:173-233 | matching creates and destroys no quantity: for every id, resting before is resting after plus traded |
| `BookTheorems.WalkConserves` | src/orderbook/orderbook.cpp:173-233 | the walk gives the incoming order exactly what it takes from the opposite side, order by order, and every trade has the incoming order on its own side |
| `BookTheorems.AddOrderConserves` | src/orderbook/orderbook.cpp:265-305 | adding any order: every other id loses exactly what it traded, every trade involves the added order, and its quantity is its trades plus its remainder |
| `BookTheorems.WalkFilledIff` | src/orderbook/orderbook.cpp:265-305 | the walk fills the order if and only if it can start and the quantity within the limit suffices |
| `BookTheorems.AvailableIsReach` | src/orderbook/orderbook.cpp:275-287 | the level totals that the fill-or-kill test adds up are the quantity the walk can reach |
| `BookTheorems.FillOrKillIsAllOrNothing` | src/orderbook/orderbook.cpp:270-290 | a fill-or-kill order trades its whole quantity exactly when the walk would fill it, and otherwise leaves the book untouched without a trade |
| `BookTheorems.CancelKeepsBook` | src/orderbook/orderbook.cpp:307-332 | cancelling keeps the book well formed, uncrossed if it was, and free of immediate orders if it was |
| `BookTheorems.CancelOneMore` | src/orderbook/orderbook.cpp:307-332 | cancelling ids one after the other, in any order, is the same as cancelling them all at once |
| `BookTheorems.RestUncrossedIff` | src/orderbook/orderbook.cpp:412-432 | resting an order without matching leaves the book uncrossed if and only if the order could not match |
| `BookTheorems.ReplaceUncrossedIff` | src/orderbook/orderbook.cpp:345-369 | a modification, which is not matched, leaves the book uncrossed if and only if the replacement cannot match once the old order is gone |
| `BookTheorems.L2UpdateUncrossedIff` | src/orderbook/orderbook.cpp:435-465 | a depth update leaves the book uncrossed if and only if it removes its level or its price cannot match |
| `BookEdits.CancelIs` | src/orderbook/orderbook.cpp:307-332 | a cancel takes the orders with its id off both sides and leaves all others in their order |
| `BookEdits.ReplaceIs` | src/orderbook/orderbook.cpp:345-369 | a modified order loses its place: the old one goes, and the new one stands behind every order that is not worse |
| `BookEdits.DepthShows` | src/orderbook/orderbook.cpp:376-389 | the published depth shows at every price exactly what rests there |
| `BookEdits.L2UpdateShows` | src/orderbook/orderbook.cpp:435-465 | after a depth update the book shows the new size at that price, and what it showed before at every other price and on the other side |
| `BookEdits.SnapshotShows` | src/orderbook/orderbook.cpp:401-433 | after a snapshot the book shows at every price the sum of the rows for it |
| `CrossedBooks.CrossedBookKeepsResidue` | src/orderbook/orderbook.cpp:235-262 | on a crossed book an immediate-or-cancel order can stay in the book, because only the front order of each side is swept |
| `CrossedBooks.MatchBehind` | src/orderbook/orderbook.cpp:173-233 | matching any book, an order gets its turn if and only if the opposite side holds, within the limit of the last order ahead of it, more than the quantity of all orders ahead, or just as much and at least as many orders of size zero left over |
| `CrossedBooks.ResidueIff` | src/orderbook/orderbook.cpp:265-305 | so an accepted immediate-or-cancel or fill-or-kill order stays in a well-formed book, crossed or not and whatever rests there, if and only if the orders ahead of it do not clear in that sense |
| `CrossedBooks.NoneAhead` | src/orderbook/orderbook.cpp:155-167 | in an uncrossed book an order that can match has none ahead |
| `NodeLists.AppendChain` | src/orderbook/orderbook.h:136-144 | appending a node to a level keeps the intrusive list a chain, with the node last |
| `NodeLists.RemoveChain` | src/orderbook/orderbook.h:146-154 | removing any node of a level keeps the list a chain of the others in their order |
| `BookMemory.InsertKeepsOk` | src/orderbook/orderbook.cpp:292-302 | linking a node keeps the memory invariant (lists, cached totals, sorted levels, index, free list) and puts the order last at its price in the represented book |
| `BookMemory.RemoveKeepsOk` | src/orderbook/orderbook.cpp:307-332 | unlinking any node and returning it to the free list keeps the memory invariant and removes exactly that order; an emptied level goes |
| `BookMemory.FillKeepsOk` | src/orderbook/orderbook.cpp:203-222 | filling the front order and lowering the cached total keeps the memory invariant and fills the front of the represented book |
| `BookMemory.GrowKeepsOk` | src/orderbook/orderbook.cpp:84-96 | threading a fresh node into the free list keeps the invariant and the represented book |
| `BookMemory.PopKeepsOk` | src/orderbook/orderbook.cpp:97-103 | taking the first free node keeps the invariant, with that node in hand, and the represented book |
| `BookIndex.IndexedIffPresent` | src/orderbook/orderbook.cpp:265-305 | the id index holds exactly the ids of the orders in the represented book |
| `BookIndex.AbstractWf` | src/orderbook/orderbook.cpp:113-153 | memory that satisfies the invariant always represents a well-formed book |
| `BookIndex.RemoveIsCancel` | src/orderbook/orderbook.cpp:307-332 | removing the node that carries an id is the cancellation of that id on both sides of the represented book |
| `BookIndex.FlatDistinct` | src/orderbook/orderbook.cpp:265-305 | no id stands twice on a side of the represented book |
| `OrderBook.OrderBook.constructor` | src/orderbook/orderbook.h:157-210 | a new book is empty |
| `OrderBook.OrderBook.CreateOrder` | src/orderbook/orderbook.cpp:57-62 | a new order object beside the book, which does not change |
| `OrderBook.OrderBook.AllocNode` | src/orderbook/orderbook.cpp:84-103 | a bare node, from the free list or a fresh block; the represented book and all nodes in use are unchanged |
| `OrderBook.OrderBook.FindSlot` | src/orderbook/orderbook.cpp:113-141 | the binary search finds the first level that does not rank strictly ahead of the price |
| `OrderBook.OrderBook.Insert` | src/orderbook/orderbook.cpp:292-302 | the order rests last at its price, the index gains its id, and all other orders keep their objects |
| `OrderBook.OrderBook.Unlink` | src/orderbook/orderbook.cpp:307-332 | exactly the order at the node leaves the book and the index |
| `OrderBook.OrderBook.Fill` | src/orderbook/orderbook.cpp:203-222 | the front order of a side and nothing else in the book is filled |
| `OrderBook.OrderBook.MatchPass` | src/orderbook/orderbook.cpp:176-232 | one pass of the loop: the trade and the book are one matching step of the represented book, and both order objects lose what was traded |
| `OrderBook.OrderBook.MatchLoop` | src/orderbook/orderbook.cpp:173-233 | the loop on linked nodes computes the trades and the book of the matching specification, and every order object loses exactly what it traded |
| `OrderBook.OrderBook.CancelAggressive` | src/orderbook/orderbook.cpp:235-260 | the front order of a side goes if it is an immediate one |
| `OrderBook.OrderBook.MatchOrders` | src/orderbook/orderbook.cpp:169-263 | matching followed by the sweep of leftover immediate orders |
| `OrderBook.OrderBook.Reachable` | src/orderbook/orderbook.cpp:275-286 | the sum of the cached totals of the crossing levels |
| `OrderBook.OrderBook.CheckOrder` | src/orderbook/orderbook.cpp:267-294 | an order is let in if and only if its id is new and, for immediate kinds, it can match and, for fill-or-kill, completely |
| `OrderBook.OrderBook.AddOrder` | src/orderbook/orderbook.cpp:265-305 | trades and book are those of the specification proved to be price-time priority; the objects of the orders that traded lose exactly that |
| `OrderBook.OrderBook.CreateAndAdd` | src/orderbook/orderbook.cpp:57-62 | a new object that is added: the same on the object just created |
| `OrderBook.OrderBook.CancelOrder` | src/orderbook/orderbook.cpp:307-332 | an id in the book leaves it and the index, an unknown one changes nothing; order objects are untouched |
| `OrderBook.OrderBook.MatchOrder` | src/orderbook/orderbook.cpp:334-343 | an unknown id does nothing; otherwise the old order goes and a replacement of its kind is added and matched |
| `OrderBook.OrderBook.ModifyOrder` | src/orderbook/orderbook.cpp:345-369 | true exactly for ids in the book; the replacement keeps kind and side, rests last at the new price and is not matched |
| `OrderBook.OrderBook.LevelInfos` | src/orderbook/orderbook.cpp:376-389 | price and total of every level in order, from the cached totals |
| `OrderBook.OrderBook.FreeAll` | src/orderbook/orderbook.cpp:391-399 | every indexed node returns to the free list, none is left carrying an order |
| `OrderBook.OrderBook.Clear` | src/orderbook/orderbook.cpp:391-399 | the book and the index are empty and the memory invariant holds |
| `OrderBook.OrderBook.DropLevel` | src/orderbook/orderbook.cpp:439-454 | exactly the orders at the price leave the book |
| `OrderBook.OrderBook.ApplyL2Update` | src/orderbook/orderbook.cpp:435-465 | the level at the price is replaced by one synthetic order, or removed when the size is zero |
| `OrderBook.OrderBook.ApplyL2Snapshot` | src/orderbook/orderbook.cpp:401-433 | the book is rebuilt from the rows with a size, under new ids |
| `BookRuns.StepCovers` | src/orderbook/orderbook.cpp:265-465 | every operation keeps traded plus resting within what was placed, id by id |
| `BookRuns.RunNeverOvertrades` | src/orderbook/orderbook.cpp:265-465 | over every run of additions, cancellations, modifications, replacements, depth updates, snapshots and clears, also through crossed books, no id ever trades more than was placed under it |
| `BookRuns.RunStaysOrderly` | src/orderbook/orderbook.cpp:265-332 | over every run of additions and cancellations the book stays well formed, uncrossed and without resting immediate orders |
| `WalkedVwap.WalkDepth` | src/execution/execution_adapter.h:461-478 | the loop over the published depth computes the volume-weighted average price, or zero when the depth is too small |
| `WalkedVwap.VwapNonzeroIff` | src/execution/execution_adapter.h:461-478 | with prices that are not negative, the estimate is nonzero if and only if the size is positive, the depth holds it and some level with a price and a size begins within it; with positive prices the last never matters |
| `WalkedVwap.FreeDepthNoEstimate` | src/execution/execution_adapter.h:461-478 | depth at price zero suffices and still gives no estimate |
| `WalkedVwap.DepthIsFlat` | src/execution/execution_adapter.h:461-478 | walking published levels costs what walking the single orders behind them costs |
| `WalkedVwap.VwapIsMatched` | src/execution/execution_adapter.h:461-478 | for an order that the matcher fills, the estimate is exactly the average price of the trades the matcher then makes |
| `WalkedVwap.NoEstimateNoFill` | src/execution/execution_adapter.h:461-478 | where the estimate reports too little depth, no limit lets an order of that size fill |
| `FillAccounts.PlaceSafe` | src/execution/execution_adapter.h:205-233 | submitting an order under an unused id keeps every account in order: queued fills, what is left and what is unreported fit into what was submitted |
| `FillAccounts.ReportSafe` | src/execution/execution_adapter.h:487-518 | turning a trade leg into a fill of at most its quantity keeps the accounts in order |
| `FillAccounts.SweepSafe` | src/execution/execution_adapter.h:392-439 | a traversal fill of all that is left of a tracked order, which is then forgotten, keeps the accounts in order |
| `FillAccounts.ForeignAddSafe` | src/market_maker/market_maker.cpp:119-132 | an order of the market maker in the shared book keeps the accounts in order; its trades become unreported legs |
| `FillAccounts.UpdateSafe` | src/orderbook/orderbook.cpp:435-465 | a depth update under a new id keeps the accounts in order |
| `FillAccounts.SnapshotSafe` | src/orderbook/orderbook.cpp:401-433 | a depth snapshot under new ids keeps the accounts in order |
| `FillAccounts.DropSafe` | src/execution/execution_adapter.h:328-352 | removing orders from the book and from tracking keeps the accounts in order |
| `FillReports.FadeShrinks` | src/execution/execution_adapter.h:258-263 | the fade never increases a fill |
| `FillReports.DroppedByKind` | src/execution/execution_adapter.h:144-157 | stop orders never enter the book, market orders always, limit orders unless there are a fill model and a mid price and the draw is above the probability |
| `FillReports.EntryPriceNear` | src/execution/execution_adapter.h:166-203 | a limit order enters at its price and a market order at its reference times the aggression, mirrored for sells, both to the nearest tick; the reference is the walked average where it is wanted and exists |
| `FillReports.AggressionCrosses` | src/execution/execution_adapter.h:197-200 | with an aggression of at least one, a market order’s limit is at or beyond its reference |
| `FillReports.WalkDeals` | src/orderbook/orderbook.cpp:173-233 | the trades of the walk are deals with the opposite orders from the first on, each at that order’s price, and what they leave is what was not bought |
| `FillReports.ReportDeals` | src/execution/execution_adapter.h:235-312 | the trades of a submission become, deal by deal, a fill of the resting order if it is tracked and a fill of the submitted one less the fade, both at the resting order’s price |
| `FillReports.EnteredIsReported` | src/execution/execution_adapter.h:144-314 | from an uncrossed book a submission queues exactly these fills, and is tracked afterwards if and only if it may rest and did not get all it wanted |
| `FillReports.FillsCostEstimate` | src/execution/execution_adapter.h:461-478 | without a fade, a submission that gets all it wants is filled for that quantity at the average price estimated just before |
| `FillReports.EveryLegFilledIff` | src/execution/execution_adapter.h:376-385 | every leg of a tracked order in a delivered batch becomes a fill at the order’s own price if and only if no tracked order that is filled by now has two legs in the batch |
| `FillReports.SecondLegIsLost` | src/execution/execution_adapter.h:487-518 | an order for 5, filled in one batch for 2 and for 3, is reported as filled for 2 |
| `LocalAdapter.LocalBookAdapter.constructor` | src/execution/execution_adapter.h:113-131 | an adapter with an empty book, nothing submitted and no fills |
| `LocalAdapter.LocalBookAdapter.RecordRestingFill` | src/execution/execution_adapter.h:487-518 | a leg of a tracked order becomes one fill at its own price, and a filled order is no longer tracked; other legs do nothing |
| `LocalAdapter.LocalBookAdapter.OnBookTrades` | src/execution/execution_adapter.h:376-385 | the legs of other parties’ trades are recorded in order, bid before ask, each once |
| `LocalAdapter.LocalBookAdapter.ReportAll` | src/execution/execution_adapter.h:235-312 | per trade the resting counterparty is recorded first, then the order itself at the counterparty’s price less the fade |
| `LocalAdapter.LocalBookAdapter.BookPrice` | src/execution/execution_adapter.h:166-203 | the limit an order enters with: its own, or for market orders the walked average, else the impact price, times the aggression |
| `LocalAdapter.LocalBookAdapter.Place` | src/execution/execution_adapter.h:205-223 | book and trades are those of the matcher, and the accounts are in order with the new trades unreported |
| `LocalAdapter.LocalBookAdapter.Submit` | src/execution/execution_adapter.h:144-314 | stop orders and limit orders that lose the draw change nothing; any other order is matched, its good-till-cancel remainder tracked and its trades reported in order; from an uncrossed book the fills are one per order reached, at that order’s price |
| `LocalAdapter.LocalBookAdapter.PollFills` | src/execution/execution_adapter.h:316-326 | all queued fills are handed over once and in order |
| `LocalAdapter.LocalBookAdapter.CancelOrder` | src/execution/execution_adapter.h:328-341 | at once the order leaves book and tracking, or the cancel is scheduled after the latency and nothing else changes |
| `LocalAdapter.LocalBookAdapter.ModifyOrder` | src/execution/execution_adapter.h:343-352 | the order is no longer tracked, and the book replaces it exactly if it has the id |
| `LocalAdapter.LocalBookAdapter.AdvanceTime` | src/execution/execution_adapter.h:354-374 | exactly the orders whose cancel is due leave book and tracking |
| `LocalAdapter.LocalBookAdapter.SweepOne` | src/execution/execution_adapter.h:405-436 | what is left of one traversed order becomes one fill at its own price and the order leaves book and tracking |
| `LocalAdapter.LocalBookAdapter.SweepRestingRange` | src/execution/execution_adapter.h:392-439 | exactly the tracked orders of the symbol that the bar traversed and that have no cancel under way are gone; those with something left have one added fill each, for all of it at their own price, and leave the book; nothing else changes |
| `LocalAdapter.SweptInFull` | src/execution/execution_adapter.h:413-436 | a sweep fills every order it takes for exactly what was left of it, at the order’s own limit, and nothing else |
| `LocalAdapter.InsideIsSwept` | src/execution/execution_adapter.h:387-411 | every tracked order of the symbol whose limit lies in the bar’s range and that has no cancel under way is swept, none of another symbol or with a cancel under way |
| `Latency.DueAfterLatency` | src/execution/execution_adapter.h:328-374 | a cancel is due exactly when its latency has passed, whatever other cancels are under way, and stays due |
| `Latency.NoneDueTwice` | src/execution/execution_adapter.h:354-374 | a cancel that was carried out is not due again |
| `LocalAdapter.SweptInsideIff` | src/execution/execution_adapter.h:386-438 | a bar sweeps only limits inside its range if and only if no tracked buy of the symbol, without a cancel under way, is above it and no such sell below it |
| `LocalAdapter.SweepsAboveTheBar` | src/execution/execution_adapter.h:386-438 | a buy limited at 103 is swept in full by a bar from 98 to 101 |
| `LocalAdapter.SweptStep` | src/execution/execution_adapter.h:399-438 | sweeping one more order, whichever comes next, extends the sweep of a set of orders to that order |
| `LocalAdapter.LocalBookAdapter.ForeignAdd` | src/market_maker/market_maker.cpp:119-132 | an order of another party is matched and its trades wait to be delivered |
| `LocalAdapter.LocalBookAdapter.QuoteUpdate` | src/orderbook/orderbook.cpp:435-465 | a depth update in the shared book leaves the adapter’s accounts in order |
| `LocalAdapter.LocalBookAdapter.QuoteSnapshot` | src/orderbook/orderbook.cpp:401-433 | a depth snapshot in the shared book leaves the adapter’s accounts in order |
| `LocalAdapter.LocalBookAdapter.NeverOverfilled` | src/execution/execution_adapter.h:144-439 | in every valid state the fills of an order, queued and polled, total at most its submitted quantity |
| `LocalAdapter.LocalBookAdapter.Do` | src/execution/execution_adapter.h:144-439 | any call on the adapter or by others on its book keeps the accounts in order, never changes what was submitted and takes back no fill |
| `LocalAdapter.LocalBookAdapter.Run` | src/execution/execution_adapter.h:144-439 | over every sequence of calls on adapter and book, the fills of an order never total more than was submitted |
| `Ledgers.LegBalanced` | src/execution/portfolio.cpp:40-109 | closing or opening one leg, the portfolio’s proportional cost basis and the analytics’ average price stay coupled, and cash moves alike in both |
| `Ledgers.KeptAmount` | src/execution/portfolio.cpp:56-71 | releasing a fraction of the basis releases the same fraction of the entry value and of the entry commission |
| `Ledgers.AverageAmount` | src/analytics/analytics.cpp:421-428 | the weighted average keeps the entry value when a position grows |
| `Ledgers.SameLegs` | src/execution/portfolio.cpp:40-109 | away from the dust threshold both ledgers split a fill into the same legs: close, open, or close to flat and reopen |
| `Ledgers.LegsCharge` | src/analytics/analytics.cpp:345-443 | the commission of a fill is charged exactly once over its legs |
| `Ledgers.PostInStep` | src/analytics/analytics.cpp:338-444 | posting balanced legs keeps the two ledgers in step, statistics included |
| `Ledgers.FillInStep` | src/analytics/analytics.cpp:338-444 | one fill keeps the two ledgers in step and moves the position by the signed quantity, other symbols untouched |
| `Ledgers.LedgersStayInStep` | src/analytics/analytics.cpp:292-444 | over every run of fills and funding without dust: equal cash, coupled positions, cash is initial plus funding plus realised profit less the cost basis held, realised profit is the sum per trade and per symbol, and positions are what was traded |
| `Ledgers.LotsLeaveNoDust` | src/execution/portfolio.cpp:40-109 | fills in whole lots above the dust threshold never leave dust, so every such run qualifies |
| `Ledgers.QuantityKeptIff` | src/analytics/analytics.cpp:338-444 | both ledgers move the position by exactly the fill if and only if the new quantity is zero, above the dust threshold, or exactly at it after a partial close |
| `LedgerTotals.RunFollowsFlow` | src/execution/portfolio.cpp:33-109 | over every run without dust, both ledgers hold the initial cash plus what was funded and taken in less what was paid, commissions included, and of every symbol what was bought less what was sold; what is realized is what came in and is not tied up |
| `LedgerTotals.SymbolFollowsFlow` | src/analytics/analytics.cpp:338-444 | the same symbol by symbol |
| `LedgerTotals.RunTotals` | src/analytics/analytics.cpp:338-444 | over every run the totals won and lost and the number of winners are those of the results booked |
| `LedgerTotals.OneResultPerClose` | src/analytics/analytics.cpp:338-444 | one result is booked for a fill against the position held, and none for another |
| `LedgerTotals.DustPartsIff` | src/execution/portfolio.cpp:40-80 | after a fill that is dust the two ledgers agree on cash if and only if its price is zero |
| `LedgerTotals.DustParts` | src/execution/portfolio.cpp:40-80 | a tenth of the threshold bought at 100 leaves the two ledgers apart |
| `Ledgers.Portfolio.constructor` | src/execution/portfolio.cpp:10-11 | the initial balance and no position |
| `Ledgers.Portfolio.OnFunding` | src/execution/portfolio.cpp:33-38 | funding moves cash and the funding total, nothing else |
| `Ledgers.Portfolio.CloseShort` | src/execution/portfolio.cpp:54-71 | a buy closes part of a short: that part of the basis goes, dust goes with it |
| `Ledgers.Portfolio.CloseLong` | src/execution/portfolio.cpp:84-98 | the mirror image for a sell against a long |
| `Ledgers.Portfolio.Open` | src/execution/portfolio.cpp:78-107 | opening moves the cost with commission from cash to the basis |
| `Ledgers.Portfolio.ApplyNettedFill` | src/execution/portfolio.cpp:40-109 | a fill is the sequence of its legs |
| `Ledgers.Analytics.constructor` | src/analytics/analytics.cpp:19-25 | the initial cash and no statistics |
| `Ledgers.Analytics.OnFunding` | src/analytics/analytics.cpp:166-181 | funding moves cash and the funding total, nothing else |
| `Ledgers.Analytics.Record` | src/analytics/analytics.cpp:384-405 | a close enters the win or loss total, the list of profits and the total of its symbol |
| `Ledgers.Analytics.Close` | src/analytics/analytics.cpp:347-405 | a closing part books its gross gain less exit commission and the released share of entry commission |
| `Ledgers.Analytics.Open` | src/analytics/analytics.cpp:421-443 | an opening part enters the average price and the commission still to be charged |
| `Ledgers.Analytics.OnFill` | src/analytics/analytics.cpp:338-444 | a fill is the sequence of its legs |
| `Ledgers.Follow` | src/analytics/analytics.cpp:292-444 | two ledger objects fed the same events end in step, both holding what was traded |
| `BridgeSafety.StepKeepsMaps` | src/execution/execution_bridge.h:200-206 | every critical section keeps the maps by engine id and by client id inverse to each other |
| `BridgeSafety.StepKeepsFifo` | src/execution/execution_bridge.h:215-220 | every step keeps accepted requests equal to answered, in-flight and queued ones in order: none lost, doubled or reordered, and results answer them in that order |
| `BridgeSafety.StepKeepsIds` | src/execution/execution_bridge.h:402-405 | every step keeps fill ids unique, also against the id held by a handler call in progress |
| `BridgeSafety.StepKeepsMeta` | src/execution/execution_bridge.h:447-459 | every step keeps the meta of a synthesized fill published before the fill |
| `BridgeSafety.CommitKeepsAccounts` | src/execution/execution_bridge.h:361-388 | taking a message keeps the cumulative quantities equal to the reported fills, takes none after a terminal message, and owes exactly one fill per fill message with the right remainder |
| `BridgeSafety.StepKeepsSafe` | src/execution/execution_bridge.h:180-261 | every critical section of every thread keeps all of the above |
| `BridgeSafety.RunIsSafe` | src/execution/execution_bridge.h:531-656 | every interleaving of engine, transport and fill threads, whatever the venue answers and sends, is safe if ids are fresh and client ids not empty |
| `BridgeSafety.FillsThenMetasIsSafe` | src/execution/execution_bridge.h:447-459 | a consumer that takes fills first and metas after always has the meta of every synthesized fill, whatever happens in between |
| `BridgeSafety.MetasThenFillsCanMiss` | src/engine/engine.cpp:2867-2870 | the engine’s own polling order, metas before fills, can take a synthesized fill whose meta it has not seen |
| `BridgeSafety.MetasThenFillsIff` | src/engine/engine.cpp:2867-2870 | in that order, of the synthesized fills there are at a later poll, exactly those announced since the metas were polled lack their meta |
| `BridgeSafety.EmptyClientBreaksInverse` | src/execution/execution_bridge.h:629-635 | whatever else is queued or in flight, a submission under an empty client id can fail and leave one of the maps behind |
| `BridgeSafety.InverseIffNamed` | src/execution/execution_bridge.h:200-206 | from any safe state, a new order under unused ids leaves the maps inverse in every continuation if and only if its client id is not empty |
| `BridgeHistory.RunTellsHistory` | src/execution/execution_bridge.h:180-656 | in every interleaving: the accepted requests are what the engine asked for, the results carry order by order what the venue replied, a call that threw counting as a refusal, the messages taken in are those that came for tracked orders, the handler’s fills and metas are what it made, all in their order; and every result names the symbol its order was sent with |
| `BridgeHistory.InMapsIff` | src/execution/execution_bridge.h:180-656 | in every interleaving an order is in both maps if and only if it was sent and the venue itself neither refused it nor accepted its cancel and no terminal message came |
| `BridgeHistory.RunHandsOver` | src/execution/execution_bridge.h:223-232 | in every interleaving what the engine was handed and what is still queued are together, in order and each once, all results, fills and metas that were ever posted |
| `BridgeHistory.ThrownSubmitStays` | src/execution/execution_bridge.h:544-558 | a submission whose call throws is reported as failed and stays in both maps |
| `BridgeHistory.QuietSubmit` | src/execution/execution_bridge.h:629-656 | a submission that meets an empty queue is answered with what the venue replies |
| `BridgeHistory.QuietCancel` | src/execution/execution_bridge.h:573-626 | so is a cancel of a tracked order |
| `BridgeHistory.LateCancel` | src/execution/execution_bridge.h:577-591 | a cancel whose order is gone by the time it is looked up is still sent and answered |
| `BridgeHistory.QuietMessage` | src/execution/execution_bridge.h:361-421 | a message for a tracked order becomes a fill, if it is one, with the next fill id and what is left of the order, and ends the order if it is terminal |
| `BridgeHistory.QuietUnknown` | src/execution/execution_bridge.h:429-460 | a message for an order that is not tracked is offered to the handler if there is one and the message has an exchange id; what it makes is announced and published, and a refusal only uses up a fill id |
| `ExecutionBridge.ExecutionBridge.constructor` | src/execution/execution_bridge.h:119-132 | a bridge with nothing tracked or pending |
| `ExecutionBridge.ExecutionBridge.Interleave` | src/execution/execution_bridge.h:531-656 | the object under any interleaving of the critical sections of its three threads reaches the state of the model, which is safe |
| `ExitRules.JudgeRatchets` | src/exits/exit_manager.cpp:167-203 | a tick or bar moves a stop only in the position’s favour and changes nothing else but the best price |
| `ExitRules.BarPriceSide` | src/exits/exit_manager.cpp:263-299 | a stop fires at its level or the worse open, a target at its level or the better open, a deadline at the close; the stop comes first |
| `ExitRules.BarUsesOldStop` | src/exits/exit_manager.cpp:263-299 | what a bar fires does not depend on the trailing distance or the best price: the stop is the one from previous bars |
| `ExitRules.WithinRangeIff` | src/exits/exit_manager.cpp:246-299 | every possible fire price lies within the bar if and only if its open and close do; the code does not check that they do |
| `ExitRules.FiresAboveTheBar` | src/exits/exit_manager.cpp:246-299 | a bar from 98 to 101 that opens at 105 fires a target of 100 at 105 |
| `ExitTriggers.TickFiresIff` | src/exits/exit_manager.cpp:150-202 | a tick fires a long exactly when its price is at or below the stop or the level trailing the best price, this tick included, or at or above the target, or its time at or after the deadline, and shorts mirrored; the best price and the stop then are the better and the tighter of old and new |
| `ExitTriggers.BarFiresIff` | src/exits/exit_manager.cpp:242-324 | a bar fires exactly when its range meets the old stop or the target or its time the deadline, at the worse of open and stop, else the better of open and target, else the close; otherwise the stop trails the bar’s best price |
| `ExitTriggers.LeftUnmet` | src/exits/exit_manager.cpp:189-202 | what a tick leaves armed it does not meet, by the stop as it is afterwards |
| `ExitTriggers.TriggerSurvivors` | src/exits/exit_manager.cpp:150-324 | a tick or bar takes away exactly the armed intents of its symbol that it meets and moves the stops of the others; one without a proper price does nothing |
| `ExitTriggers.NothingMetIsLeft` | src/exits/exit_manager.cpp:150-240 | after a tick no intent of its symbol is armed whose stop, target or deadline the tick met |
| `ExitTriggers.RunClosesWhatIsMet` | src/exits/exit_manager.cpp:150-362 | over every run in whole lots with fractions summing to at most one, a tick or bar closes exactly the armed intents it meets, each once, in full and at its fire price |
| `ExitLifecycle.ArmedAtEntry` | src/exits/exit_manager.cpp:92-127 | an intent is armed for its share at the price of the fill, with levels given for a reference price as far from the entry as they were from the reference |
| `ExitLifecycle.GrownAtAverage` | src/exits/exit_manager.cpp:57-84 | a further fill adds the intent’s share at its price, and the entry price is the average of what was paid |
| `ExitLifecycle.StepHolds` | src/exits/exit_manager.cpp:10-505 | no operation but a cancel or a closing fill from elsewhere loses a share of an opener |
| `ExitLifecycle.RunHoldsShares` | src/exits/exit_manager.cpp:10-505 | over every such run, every registered share of an opener is pending, armed or fired |
| `ExitLifecycle.CancelIs` | src/exits/exit_manager.cpp:373-393 | a cancel takes out all of its opener, intents, quantities and bracket, and nothing of any other |
| `ExitLifecycle.BulkCancelIs` | src/exits/exit_manager.cpp:395-411 | a cancel for a strategy and symbol takes out all of the openers indexed under them and nothing of any other |
| `ExitLifecycle.BulkCancelsAllIff` | src/exits/exit_manager.h:71-74 | it removes every intent of the strategy and symbol if and only if all of them are of openers indexed under them |
| `ExitLifecycle.LatePendingSurvives` | src/exits/exit_manager.cpp:233-238 | an intent registered after its opener was armed loses its index entry when the armed one fires, and the cancel for its strategy and symbol leaves it pending |
| `ExitLifecycle.CancelUntracks` | src/exits/exit_manager.cpp:373-393 | a cancel of an opener takes its own entry out of the index by strategy and symbol, and no other |
| `ExitLifecycle.BulkUntracks` | src/exits/exit_manager.cpp:395-402 | a cancel for a strategy and symbol takes all entries under them out of the index, and no other |
| `ExitSafety.StepBounded` | src/exits/exit_manager.cpp:27-505 | every operation keeps closes, armed and pending shares of an opener within its fills times its registered fractions, in whatever order the containers hold the intents |
| `ExitSafety.RunBounded` | src/exits/exit_manager.cpp:27-505 | over every run the same |
| `ExitSafety.NeverOverCloses` | src/exits/exit_manager.cpp:151-362 | over every run, the closes emitted for an opener total at most its filled quantity times the registered fractions, hence at most the fills when these sum to at most one |
| `ExitCounterexamples.CascadeCloses` | src/exits/exit_manager.cpp:204-240 | intents that are all due on one tick close every share in full once the first has closed the opener, because a close is cut only while something remains |
| `ExitCounterexamples.ClosesTwice` | src/exits/exit_manager.cpp:540-554 | two intents that each close all of an opener filled for 2 close 4 |
| `ExitCounterexamples.NeverTooMuchIff` | src/exits/exit_manager.cpp:151-362 | no run closes more than was filled, whatever the fills, ticks and bars, if and only if the fractions registered for the opener sum to at most one |
| `ExitCounterexamples.StolenFillRun` | src/exits/exit_manager.cpp:29-55 | two halves of an opener of 2: one is closed in flight, a manual close of 1 comes first and leaves the other armed, and the fill of the own close then disarms it |
| `ExitBrackets.ReleaseOnce` | src/exits/exit_manager.cpp:507-523 | a venue bracket is handed to the adapter for cancellation only when it still has a handle, and then loses it |
| `ExitBrackets.StepBrackets` | src/exits/exit_manager.cpp:27-523 | every operation keeps handles only for armed openers and, if the brackets handed to it are new, never cancels one twice |
| `ExitBrackets.RunBrackets` | src/exits/exit_manager.cpp:27-523 | over every run with new brackets the same |
| `ExitBrackets.RunBacked` | src/exits/exit_manager.cpp:133-148 | whatever brackets the venue hands over, only openers with an armed intent have a handle |
| `ExitBrackets.NeverTwiceIff` | src/exits/exit_manager.cpp:462-523 | a placed or recovered bracket is cancelled at most once, whatever follows, if and only if the manager neither holds nor has cancelled it before |
| `ExitBrackets.RecoveredTwice` | src/exits/exit_manager.cpp:462-523 | a bracket recovered again after its opener was cancelled is cancelled twice |
| `ExitStops.StepDescends` | src/exits/exit_manager.cpp:27-505 | every operation leaves armed intents that are new or come from one before with the stop no worse |
| `ExitStops.RunDescends` | src/exits/exit_manager.cpp:27-505 | the same across any stretch of any run |
| `ExitStops.StopsOnlyRatchet` | src/exits/exit_manager.cpp:167-203 | between any two moments of any run, an armed intent’s stop has moved only in the position’s favour |
| `ExitCover.StepCover` | src/exits/exit_manager.cpp:27-148 | with fills in whole lots and fractions summing to at most one, every operation keeps what remains of an opener at least its armed quantities, and what is in flight equal to its outstanding closes |
| `ExitCover.RunCover` | src/exits/exit_manager.cpp:27-362 | over every such run the same |
| `ExitCover.CoveredAmount` | src/exits/exit_manager.cpp:540-554 | so a close never has to be cut: the armed quantities are within what remains |
| `ExitCover.KeepsSiblingsIff` | src/exits/exit_manager.cpp:31-55 | a closing fill leaves the armed intents of its opener alone if and only if it is within what is in flight |
| `ExitCover.OwnFillsKeepSiblings` | src/exits/exit_manager.cpp:29-55 | over every run, a fill of the manager’s own close never disarms the remaining intents of the opener, unless another close or a cancel of the opener came in between |
| `ExitCover.StolenFillDisarms` | src/exits/exit_manager.cpp:31-55 | and if one did, it does: a manual close uses up what is in flight, and the manager’s own fill then cancels the bracket |
| `ExitManager.ExitManager.constructor` | src/exits/exit_manager.h:24-27 | nothing pending, armed or tracked |
| `ExitManager.ExitManager.RegisterPending` | src/exits/exit_manager.cpp:10-16 | the intent waits under its opener and is tracked by strategy and symbol |
| `ExitManager.ExitManager.GrowArmed` | src/exits/exit_manager.cpp:57-84 | a further opener fill adds its share to every armed intent and averages the entry price |
| `ExitManager.ExitManager.PromotePending` | src/exits/exit_manager.cpp:92-127 | exactly the pending intents of the opener are armed, sized by their fraction of the fill and shifted to the actual entry |
| `ExitManager.ExitManager.OnOpenerFill` | src/exits/exit_manager.cpp:57-148 | an opener fill arms or grows, adds to what remains, and keeps a bracket the venue took |
| `ExitManager.ExitManager.ReleaseVenueBracket` | src/exits/exit_manager.cpp:507-523 | a handle is removed and cancelled once, without a handle nothing happens |
| `ExitManager.ExitManager.UntrackOpener` | src/exits/exit_manager.cpp:525-538 | exactly the entries of the opener leave the index |
| `ExitManager.ExitManager.CancelOpener` | src/exits/exit_manager.cpp:373-392 | pending and armed intents, amounts and bracket of the opener are gone, others untouched |
| `ExitManager.ExitManager.CancelFor` | src/exits/exit_manager.cpp:394-411 | the same for all openers of a strategy and symbol |
| `ExitManager.ExitManager.OnCloserFill` | src/exits/exit_manager.cpp:29-55 | a closing fill settles what is in flight; more than that, or a flat opener, cancels the rest |
| `ExitManager.ExitManager.ConsumeOpenerQty` | src/exits/exit_manager.cpp:540-554 | grants the request up to what remains, with dust rounded to zero |
| `ExitManager.ExitManager.FireAt` | src/exits/exit_manager.cpp:205-242 | a fired intent leaves, emits one close of the granted quantity and retires a flat opener |
| `ExitManager.ExitManager.VisitAt` | src/exits/exit_manager.cpp:159-242 | one turn of the loop is one visit of the model |
| `ExitManager.ExitManager.OnPrice` | src/exits/exit_manager.cpp:151-243 | a tick visits every armed intent once and returns exactly the closes it logged |
| `ExitManager.ExitManager.OnBar` | src/exits/exit_manager.cpp:246-364 | a bar, with range normalised and a missing open replaced by the close, does the same |
| `ExitManager.ExitManager.Rehydrated` | src/exits/exit_manager.cpp:462-505 | a recovered bracket is armed with its quantity as what remains; without an opener or a bracket nothing happens |
| `ExitManager.ExitManager.Rearrange` | src/exits/exit_manager.cpp:151-159 | the hash containers may take any other order, which is the order in which the loops visit them |
| `ExitManager.ExitManager.ActAll` | src/exits/exit_manager.cpp:10-505 | the object under any sequence of operations reaches the state of the model, with all closes within bounds |
| `QueueModel.UniformWithin` | src/execution/queue_model.h:20-57 | one cancel under the uniform model moves an order no further than under the front model and no less than under the back model |
| `QueueModel.TradeKeepsOrder` | src/execution/queue_aware_book_adapter.h:178-213 | a trade keeps an order that is no further back and no less filled that way |
| `QueueModel.DepthKeepsBrackets` | src/execution/queue_aware_book_adapter.h:121-155 | a depth update keeps the three places in bracket |
| `QueueModel.StreamKeepsBrackets` | src/execution/queue_model.h:5-10 | over every stream of trades and depth updates, the place under the front model is no worse and under the back model no better than under the uniform model |
| `QueueModel.TellingTells` | src/execution/queue_model.h:5-10 | with trades not yet reflected in the depth there is a stream on which the front model does worse than the uniform one |
| `QueueModel.BracketedIff` | src/execution/queue_model.h:5-10 | an order joining a level is bracketed on every stream if and only if the level is empty or has no such trades |
| `QueueAware.TradeConserves` | src/execution/queue_aware_book_adapter.h:158-225 | queue consumption and fills of one trade add up to what it used, at most the traded quantity, in any visiting order |
| `QueueAware.AloneTrade` | src/execution/queue_aware_book_adapter.h:171-216 | the only order at a price sees the whole trade, wherever its turn comes |
| `QueueAware.StepProjects` | src/execution/queue_aware_book_adapter.h:121-225 | for an order alone at its price, the adapter’s step is the step of the single-order queue model, while other orders come and go at other prices |
| `QueueAware.TraceProjects` | src/execution/queue_aware_book_adapter.h:121-225 | for every stream the same, and the fills emitted for the order add up to what the model has filled |
| `QueueAware.AdaptersBracket` | src/execution/queue_model.h:5-10 | three adapters with the three models, fed the same stream, with other orders coming and going at other prices, after the same submission at an up-to-date level, show the order bracketed at the end, and the fills they emitted for it are bracketed too |
| `QueuePlaces.AdvanceIs` | src/execution/queue_model.h:20-57 | cancelled volume is taken off the queue ahead as far as it goes, or not at all, or so that the order keeps its relative place in what is left of the level |
| `QueuePlaces.ExplainedAgree` | src/execution/queue_aware_book_adapter.h:121-225 | as long as trades explain the reported sizes, all three models put an order where the traded volume alone puts it |
| `QueuePlaces.JoinedIsFilled` | src/execution/queue_aware_book_adapter.h:42-64 | an order that joins a level is then filled with what was traded beyond the size it joined behind |
| `QueuePlaces.TradeSweeps` | src/execution/queue_aware_book_adapter.h:158-212 | a trade fills only orders at its symbol and price, at that price and for no more than was left of them; if something of it is left over, none of the orders it came to is still there |
| `QueuePlaces.TradeMarks` | src/execution/queue_aware_book_adapter.h:214-224 | a trade counts at both sides of its price and at no other level |
| `QueueAware.QueueAwareBookAdapter.constructor` | src/execution/queue_aware_book_adapter.h:33-38 | no orders, levels or fills |
| `QueueAware.QueueAwareBookAdapter.Submit` | src/execution/queue_aware_book_adapter.h:42-64 | a limit order joins behind the reported size of its level, or at the front of an unknown one; other orders are ignored |
| `QueueAware.QueueAwareBookAdapter.PollFills` | src/execution/queue_aware_book_adapter.h:66-74 | all queued fills, once |
| `QueueAware.QueueAwareBookAdapter.CancelOrder` | src/execution/queue_aware_book_adapter.h:76-90 | true exactly for held orders, which go at once or after the latency |
| `QueueAware.QueueAwareBookAdapter.AdvanceTime` | src/execution/queue_aware_book_adapter.h:92-107 | exactly the orders whose cancel is due are gone |
| `QueueAware.QueueAwareBookAdapter.OnL2Update` | src/execution/queue_aware_book_adapter.h:121-156 | the part of a shrinking level that trades do not explain moves the orders of that level by the queue model |
| `QueueAware.QueueAwareBookAdapter.OnTrade` | src/execution/queue_aware_book_adapter.h:158-225 | in some visiting order every matching order first lets its queue be used up and then fills; both sides of the level note the trade |
| `QueueAware.QueueAwareBookAdapter.VisitOne` | src/execution/queue_aware_book_adapter.h:170-216 | one order’s turn |
| `ShadowTape.MeetSound` | src/execution/trade_tape_shadow_adapter.h:172-198 | an order meeting a print: queue consumption plus fill is what the print loses, a fill needs an empty queue, and a drained queue is counted once |
| `ShadowTape.WalkConserves` | src/execution/trade_tape_shadow_adapter.h:148-224 | the walk over the orders keeps this balance |
| `ShadowTape.PrintConserves` | src/execution/trade_tape_shadow_adapter.h:138-224 | queue consumption and fills of one print never exceed its quantity |
| `ShadowTape.WalkTallied` | src/execution/trade_tape_shadow_adapter.h:168-190 | drained plus waiting orders stay within those submitted behind a queue |
| `ShadowTape.StepSound` | src/execution/trade_tape_shadow_adapter.h:42-224 | every operation keeps each order’s initial queue equal to what is ahead plus consumed, and the statistics in bound |
| `ShadowTape.RunSound` | src/execution/trade_tape_shadow_adapter.h:244-259 | over every run the same, so drained plus blocked orders never exceed those that had a queue |
| `ShadowPrints.WalkIsServed` | src/execution/trade_tape_shadow_adapter.h:138-224 | the loop over the open orders serves them one after the other, queue before order; the dust test on the queue makes no difference |
| `ShadowPrints.PrintIsServed` | src/execution/trade_tape_shadow_adapter.h:138-224 | a print adds fills at its own price, for orders of its symbol that were there by then and whose limit it is within, for no more than they had open; if something of it is left over, no order it is for is still open; a print without quantity or price does nothing |
| `ShadowPrints.RunCountsSubmitted` | src/execution/trade_tape_shadow_adapter.h:59-64 | over every run the orders counted as submitted with a queue are those that were |
| `ShadowPrints.PulledIsGone` | src/execution/trade_tape_shadow_adapter.h:78-100 | a cancel takes out every order with its id and no other |
| `ShadowPrints.AmendedInPlace` | src/execution/trade_tape_shadow_adapter.h:123-136 | a change of limit and quantity reaches the first order with the id and leaves every order in its place |
| `ShadowPrints.FirstFillCountedIff` | src/execution/trade_tape_shadow_adapter.h:172-190 | the first fill of an order behind a queue is counted if and only if something of the queue was still ahead when the print came |
| `ShadowPrints.PrintTally` | src/execution/trade_tape_shadow_adapter.h:172-190 | as long as every order that got through its queue was counted, a print counts all that get through on it |
| `ShadowPrints.DrainUncounted` | src/execution/trade_tape_shadow_adapter.h:242-250 | an order whose queue a print takes exactly, and which the next print fills, is never counted as filled after its queue drained |
| `ShadowTape.TradeTapeShadowAdapter.constructor` | src/execution/trade_tape_shadow_adapter.h:34-37 | no orders and no statistics |
| `ShadowTape.TradeTapeShadowAdapter.SubmitOrder` | src/execution/trade_tape_shadow_adapter.h:42-66 | a limit order starts behind its queue and is counted if there is one |
| `ShadowTape.TradeTapeShadowAdapter.DrainAt` | src/execution/trade_tape_shadow_adapter.h:172-190 | the queue of one order against a print: blocked or through, counted once |
| `ShadowTape.TradeTapeShadowAdapter.VisitAt` | src/execution/trade_tape_shadow_adapter.h:150-222 | one turn of the loop is one visit of the model |
| `ShadowTape.TradeTapeShadowAdapter.OnTrade` | src/execution/trade_tape_shadow_adapter.h:138-224 | a print visits the open orders in order until it is used up |
| `ShadowTape.TradeTapeShadowAdapter.BlockedCount` | src/execution/trade_tape_shadow_adapter.h:252-259 | the orders that had a queue and still have one |
| `ShadowTape.TradeTapeShadowAdapter.PollFills` | src/execution/trade_tape_shadow_adapter.h:68-76 | hands over the queued fills once |
| `ShadowTape.TradeTapeShadowAdapter.CancelOrder` | src/execution/trade_tape_shadow_adapter.h:78-100 | true exactly for open orders, which go at once or after the latency |
| `ShadowTape.TradeTapeShadowAdapter.AdvanceTime` | src/execution/trade_tape_shadow_adapter.h:102-121 | exactly the orders whose cancel is due are gone, the others keep their places |
| `ShadowTape.TradeTapeShadowAdapter.ModifyOrder` | src/execution/trade_tape_shadow_adapter.h:123-136 | limit and quantity of the first order with the id change, its place in the queue does not |
| `ShadowTape.TradeTapeShadowAdapter.Do` | src/execution/trade_tape_shadow_adapter.h:42-259 | one call of any kind keeps every order’s queue accounted for and the statistics in bound |
| `ShadowTape.TradeTapeShadowAdapter.Run` | src/execution/trade_tape_shadow_adapter.h:42-259 | over every run of the object, cancels after a latency included, the same, and drained plus blocked orders never exceed those that had a queue |
| `EventCodec.BytesValue` | src/core/event_log.h:22-28 | the little-endian bytes of a number that fits give the number back |
| `EventCodec.U64RoundTrip` | src/core/event_log.h:25-62 | an unsigned field comes back with the rest of the buffer |
| `EventCodec.I64RoundTrip` | src/core/event_log.h:26-62 | so does a signed one |
| `EventCodec.StrRoundTrip` | src/core/event_log.h:30-71 | a string comes back cut to its length modulo 65536, so intact if and only if it is shorter than that |
| `EventCodec.LongStringIsCut` | src/core/event_log.h:30-35 | a string of 65536 bytes comes back empty |
| `EventCodec.RowsRoundTrip` | src/core/event_log.h:478-505 | the levels of a snapshot side come back |
| `EventCodec.BodyRoundTrip` | src/core/event_log.h:80-546 | the fields of every kind of event come back if and only if the strings and levels fit and it is no market order that is good till cancelled |
| `EventCodec.EventRoundTrip` | src/core/event_log.h:80-546 | an event comes back from its payload if and only if it is representable |
| `EventLog.FrameRoundTrip` | src/core/event_log.h:592-655 | the frame of a representable event, followed by anything, is read back as the event and its size |
| `EventLog.IndexRoundTrip` | src/core/event_log.h:665-668 | the index entries come back |
| `EventLog.FooterRoundTrip` | src/core/event_log.h:669-671 | the sixteen footer bytes come back |
| `EventLayout.BodyLayout` | src/core/event_log.h:80-546 | the body of every kind of event is its fields in the order and widths of the table, lowest byte first, and then its reason |
| `EventLayout.FrameLayout` | src/core/event_log.h:592-655 | a frame is the number of the kind, the size in four bytes, and time, symbol and body |
| `EventLayout.FileLayout` | src/core/event_log.h:659-673 | a finished log is its frames, its index of times and offsets, where the index begins, its length and four letters |
| `EventLayout.OldFills` | src/core/event_log.h:449-468 | a fill that ends after its commission, its remaining quantity or its fill id reads as zero for what is missing |
| `EventLog.OpenFile` | src/core/event_log.h:729-755 | opening a finished log finds its index and where its events end |
| `EventLog.ScanLaid` | src/core/event_log.h:802-845 | reading on from any event delivers what a scan of the remaining events delivers |
| `EventLog.LooksCompressedIff` | src/core/event_log.h:765-783 | the first frame of an uncompressed log is taken for a compressed one if and only if the low half of its timestamp is the magic number of section 3.1.1 of RFC 8878 |
| `EventLog.ReplayAllIff` | src/core/event_log.h:718-845 | replaying a whole uncompressed log gives back every event in order if and only if it is empty or its first event does not look compressed |
| `EventLog.MarksAt` | src/core/event_log.h:592-602 | the index has one entry for every thousandth event, from the first |
| `EventLog.JumpToIs` | src/core/event_log.h:756-763 | the seek lands on an event, one not after the start time unless it is the first, and the next indexed event is after it |
| `EventLog.IndexedReplay` | src/core/event_log.h:756-845 | a replay with a start time delivers the linear scan from the event the seek lands on |
| `EventLog.ReplayIsSuffix` | src/core/event_log.h:756-845 | for a log in order of time the replay of its file from a start time is a suffix of the scan of the file from its first byte |
| `EventLog.ReplayIsLinearIff` | src/core/event_log.h:756-845 | it is that whole scan if and only if no skipped event carries exactly the start time, or the interval is empty |
| `EventLog.SkipsEventsAtStart` | src/core/event_log.h:756-845 | of a thousand and one events at one time, a replay from that time delivers only the last, where the scan delivers all |
| `EventCuts.BrokenFrameEnds` | src/core/event_log.h:802-820 | a frame that breaks off anywhere ends the stream without an event |
| `EventCuts.WholeIs` | src/core/event_log.h:802-845 | the number of whole frames is the one whose end is within the cut and whose next end is not |
| `EventCuts.CutReplayIff` | src/core/event_log.h:718-845 | a log cut at any byte, or never finished, replays to exactly the events whose frames are whole, if and only if it does not look compressed and its last bytes do not look like a footer that is unreadable or points before its last whole frame |
| `EventCuts.CutWithoutMagic` | src/core/event_log.h:729-755 | in particular every cut that does not end in the four bytes of the index magic does |
| `EventCuts.FooterTextHidesEvents` | src/core/event_log.h:729-755 | an unfinished log of one cancel, whose reason reads like a footer, replays to nothing |
| `EventLog.MagicTimestampIsLost` | src/core/event_log.h:765-783 | a log of one event whose timestamp begins with the magic number, which does not come back |
| `EventLog.StrictlyIncreasingAgrees` | src/core/event_log.h:756-763 | so with strictly increasing timestamps replay and scan of the file always agree |
| `EventFiles.EventLogger.constructor` | src/core/event_log.h:562-581 | an empty log |
| `EventFiles.EventLogger.WriteFrame` | src/core/event_log.h:631-648 | kind, size and payload follow what was written |
| `EventFiles.EventLogger.Log` | src/core/event_log.h:592-655 | the file is the frames of the events logged so far and the index that of these events |
| `EventFiles.EventLogger.WriteIndex` | src/core/event_log.h:665-668 | all index entries in order |
| `EventFiles.EventLogger.Finalize` | src/core/event_log.h:659-673 | frames, index and footer, written once however often it is called |
| `EventFiles.FindEntry` | src/core/event_log.h:757-759 | the halving search on the index, for any index, finds a place with no later entry right before it and no earlier one at it |
| `EventFiles.EventReplayer.constructor` | src/core/event_log.h:718-784 | a replayer whose events still to come are the replay of the file |
| `EventFiles.EventReplayer.Next` | src/core/event_log.h:802-845 | delivers the next event to come, ends exactly when there is none, and leaves the file behind the event delivered or the one past the end time |
| `EventFiles.EventReplayer.ReplayAll` | src/core/event_log.h:802-845 | collects exactly the events to come |
| `EventFiles.LogAll` | src/core/event_log.h:592-673 | logging events and finishing gives the file of the specification |
| `EventFiles.LogAndReplay` | src/core/event_log.h:718-845 | what was logged is what is replayed |
| `CivilDate.EraForm` | src/data/date_parse.h:35-38 | the era arithmetic with truncating division is 365 days a year plus the leap years of the Gregorian rule, for negative years too |
| `CivilDate.YearStartForm` | src/data/date_parse.h:29-41 | counting year by year in both directions from 1970 agrees with that |
| `CivilDate.MonthTable` | src/data/date_parse.h:37-37 | the month formula gives the days before each month, February last |
| `CivilDate.CivilIsCounted` | src/data/date_parse.h:29-41 | for every valid date of every year the formula is the number of days counted year by year, month by month and day by day from 1970-01-01 |
| `CivilDate.TomorrowIsNext` | src/data/date_parse.h:29-41 | the next calendar day is one more, across months, leap days, centuries and eras, and 1970-01-01 is zero |
| `CivilDate.AgreesWithPosix` | src/data/date_parse.h:28-41 | from 1970 on the seconds are those of section 4.16 of POSIX.1-2017 |
| `RateLimiter.RunBalance` | src/execution/rate_limiter.h:28-38 | over every run of calls, tokens and grants balance against what was refilled, and tokens stay within the capacity |
| `RateLimiter.WindowBound` | src/execution/rate_limiter.h:28-38 | within any window of any run the grants total at most capacity plus rate times the length of the window, plus the tolerance of a billionth |
| `RateLimiter.CeilCovers` | src/execution/rate_limiter.h:46-49 | the announced nanoseconds, rounded up, earn the deficit |
| `RateLimiter.WaitIsShortest` | src/execution/rate_limiter.h:43-54 | the announced wait is the shortest in whole nanoseconds that earns the deficit, and zero if and only if there is none |
| `RateLimiter.TooLargeWaitsForever` | src/execution/rate_limiter.h:52-60 | for two tokens from a bucket of one a second is announced, and no wait is ever enough |
| `RateLimiter.WaitSufficesIff` | src/execution/rate_limiter.h:40-60 | waiting as announced or longer is enough if and only if the request is within the capacity and the tolerance; otherwise the blocking call would wait for ever |
| `RateLimiter.TokenBucketRateLimiter.constructor` | src/execution/rate_limiter.h:21-26 | a full bucket |
| `RateLimiter.TokenBucketRateLimiter.RefillLocked` | src/execution/rate_limiter.h:70-76 | the time passed is earned up to the capacity |
| `RateLimiter.TokenBucketRateLimiter.TryAcquire` | src/execution/rate_limiter.h:28-38 | grants and takes exactly when the refilled bucket has enough |
| `RateLimiter.TokenBucketRateLimiter.Until` | src/execution/rate_limiter.h:40-50 | nothing to wait for, never, or the deficit over the rate, rounded up |
| `RateLimiter.TokenBucketRateLimiter.AcquireBlocking` | src/execution/rate_limiter.h:52-60 | for a request within the capacity: after at most one wait the tokens are taken, unless the rate is not positive |

## Left out

- The engine loop, strategies, providers, parsers, encoders, dashboards, risk checks and reports.
- Floating point: prices and amounts of the ledgers, exits, queues and limiter are reals; the doubles in the log are their bit patterns. Prices of the book are integers as in the source, its quantities natural numbers.
- Overflow of 64-bit ids, quantities and counters, and of years in the date formula.
- Fees in the adapters, timestamps, fill ids and latency of their fills, and debug output. Commissions are modelled where they matter, in the ledgers.
- The fill model's draw and probability, the impact price, the queue ahead, the visiting order of hash maps, sleep times and the clock come from outside and are arbitrary.
- Resting fills in the adapter are kept in book units; dividing by the quantity scale is left to the caller.
- The order object pool, whose bookkeeping is memory management only. Order objects are kept in a sequence and never reused.
- The branch of the matching loop and of its sweep for a node that is not in the index: the invariant rules it out.
- Lots per opener in the portfolio, trade counts, and in the analytics the per-strategy statistics, holding times and equity curve.
- The bridge without encoder or transport, its status and error strings, and what the encoder writes.
- The strategy name in a bridge meta. Handlers are assumed to use the fill id they are given.
- Exit manager: the reverse map from exchange ids and the read-only views. The containers are sequences that may be put in any other order between two calls.
- Depth snapshots of the queue-aware adapter, which are a loop over depth updates.
- Event log: compression, rotation, stream errors, and the seek behaviour on a truncated or malformed index, which the model answers with a failure. The payload reader is modelled on values instead of as a cursor.
- Date parsing around the day formula, and concurrent callers of the rate limiter.
- OrderBook.OrderBook.ApplyL2Update: asks for an id that is not in the book, as the generator gives; an id used before would corrupt the index in the source.
- FillReports.EnteredIsReported: asks for an uncrossed book in which nothing immediate rests; from a crossed one the trades are those of the matcher.
- LocalAdapter.LocalBookAdapter.Submit: asks for an id the generator has not given before and a size that is not negative, as the engine gives.
- LocalAdapter.LocalBookAdapter.OnBookTrades: asks for the trades not delivered yet in their order, as the engine delivers them; a trade delivered twice would be reported as two fills.
- LocalAdapter.LocalBookAdapter.Do: states that the accounts stay in order and nothing is taken back; what each call does is stated by the method it calls.
- LocalAdapter.LocalBookAdapter.Run: bounds the fills; that a fill is reported for every trade is stated by Submit, OnBookTrades and SweepRestingRange.
- Ledgers.LedgersStayInStep: asks that no fill and no held quantity is within a trillionth of zero without being zero, since the two ledgers treat such dust differently; QuantityKeptIff says exactly when one fill does.
- Ledgers.Analytics.OnFill: asks for a positive quantity, by which the source divides.
- BridgeSafety.MetasThenFillsIff: asks that an order announced in between was not announced before, as the engine's handler takes a new id for each.
- BridgeSafety.RunIsSafe: asks that an order's id and client id are new and the client id not empty, as the engine's ids are.
- ExitSafety.NeverOverCloses: asks that filled and recovered quantities are positive.
- ExitBrackets.RunBrackets: asks that brackets are new when they are handed over; NeverTwiceIff says that this is exactly what it takes, and RunBacked needs nothing.
- ExitTriggers.RunClosesWhatIsMet: asks for whole lots and fractions that sum to at most one, so that no close is cut; which intents fire and at what price TriggerSurvivors says of every state.
- ExitLifecycle.RunHoldsShares: asks for the same, and that nothing cancels the opener.
- ExitCover.RunCover: asks for whole lots above the dust threshold and fractions that sum to at most one; with other sizes the source rounds what remains. A fill of an own close that comes after a cancel of its opener counts as a close from elsewhere.
- WalkedVwap.VwapNonzeroIff: for depth with negative prices says only that the cost must not cancel out.
- ShadowTape.TradeTapeShadowAdapter.Do: states what every call keeps; what each call does is stated by the method it calls.
- QueueAware.AdaptersBracket: is about an order alone at its price, since orders at one price share a trade in an order that the source leaves open.
- EventLog.ReplayAllIff: asks for representable events from 1970 on in a file below the limits of its fields. A file that looks compressed is answered with a failure here, where the source calls the decompressor, which is not part of this model.
- EventLog.ReplayIsLinearIff: asks that the event the seek lands on does not look compressed, for the same reason.
- EventLayout.BodyLayout: asks for reasons, and FrameLayout for symbols, shorter than 65536 bytes; LongStringIsCut shows what happens to others.
- LedgerTotals.RunFollowsFlow: asks for a run without dust, as LedgersStayInStep does.
- EventCuts.CutReplayIff: is about whole replays of representable events from 1970 on; a tail that looks like a footer whose index cannot be read is answered with a failure.
- EventLog.UpperBound: is the halving search that standard libraries use; on an index out of order the C++ standard leaves the result open.
- EventFiles.EventReplayer.constructor: covers files that do not look compressed and whose index, if they have one, can be read.
- RateLimiter.TokenBucketRateLimiter.AcquireBlocking: asks for a request within the capacity; for others the source never returns, which WaitSufficesIff shows.
