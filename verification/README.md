# A verified model of a price-time matching engine

The repository holds a limit order book with limit, market, iceberg and stop-loss orders, a naive engine kept for
comparison, a slab pool for orders, and a lock-free queue that lets many producers feed one engine. This project
models all four in Dafny and proves what they keep, over every input, every run and every interleaving.

`dafny verify dfyconfig.toml` checks the whole project.

## How it is built

**The book as functions.** `Orders` and `BookSpec` say what each operation does as a function of the old state, branch
by branch: `SweepQueue` and `SweepLevels` are the nested matching loops, `Record` what a turn does to history, stops and
index, `Cascade` the loop over batches of triggered stops. `EngineSpec` turns commands into runs. `BaselineSpec` does
the same for the naive engine and `PoolSpec` for the pool.

**The book as objects.** `LiveOrder`, `LiveLevels`, `LiveBook` and `LiveEngine` are the classes of the source: order
objects shared between levels, index and stop lists, updated in place, and methods with the source's loops. A ghost
snapshot `shown` records the value each object holds, so that `View()` is a book of `BookSpec`, and every method is
proved to take `View()` where the specification says. `MatchingEngine.Valid` adds that each object on a level is the
one the index gives back for its id, and every command keeps it. The loops are proved by `MatchSteps`: each turn
leaves the end of the whole sweep unchanged. `LiveBaseline` and `MemoryPool` are the other two classes, tied to
`BaselineSpec` and `PoolSpec` in the same way.

**Properties of the book.** `BookInvariants` holds the invariant; `UncrossedBook`, `StopCascade`, `Ledger`,
`Allocation`, `Splitting`, `SplitOrders`, `CancelRoundTrip`, `IcebergLimits`, `Duality`, `Transparency` and
`TransparentCascade` hold one theme each; `EngineRuns`, `EngineLedger` and `BaselineRuns` lift them to whole runs.

**What the commands mean.** `CommandMeaning`, `StopTriggers` and `ModifyMeaning` say, in the fields of a command alone,
what becomes of the order it creates or changes in every later state of every run. They rest on `OrderTerms` and
`RunTerms`, which keep each order to its terms through sweeps, cascades and runs, and on `EntryQuantity`.

**The queue.** `QueueModel` is a transition system for any number of threads: one atomic load or compare-and-swap per
step, a program counter and locals per thread, weak compare-and-swaps that may fail spuriously, and any interleaving.
`QueueInvariant` proves the structural invariant, `Linearisable` the simulation of a sequential queue, `LinearPoints`
that every operation takes effect once between its call and its return, `LockFreedom` the progress guarantee.
`ConcurrentEngine` and `ConcurrentBook` put the consumer on top of it; `LiveConsumer` is the consumer's loop on the live
engine.

## Terms

- An order is *fresh* as submitted, *sound* if the display of an iceberg is 0 or display plus hidden part are its
  leaves, and *clean* if it is sound and shows something.
- A book is *clean* if every resting order is. Three things leave that state and no others: an iceberg that comes to
  rest showing nothing, because it was submitted with a display of 0 or because it crossed on entry and traded its
  display but not all of itself (`MatchOneOk`, `IcebergRestsCleanIff`), a modify of an iceberg, and a modify to quantity
  0 (`ModifyOk`). Such an order is later dropped from its level and stays in the index (`InvisibleIcebergStrays`). A
  *tidy* run does none of the three.
- Quantity is *lost* when it leaves the book without a trade: with a cancel, with the remainder of a market order, or
  with an order that is dropped from its level because it shows nothing (`LostIn`, `StepLost`).
- An iceberg command is *legal* if its display does not exceed its total (`IcebergSoundIff`).

## Where the code differs from its own description

- The repository's README says that `checkStopTriggers` moves triggered stops out "then clears" the pending list. The
  code erases only the stops that fire; the others stay pending, in order.
- Its usage example modifies an iceberg. The code rebuilds the order with the plain constructor, so an iceberg loses
  its display (`ModifyOk`), and does not match it again, so a crossing price leaves a crossed book
  (`ModifyUncrossedIff`).
- A limit order of quantity 0 that crosses records a trade of quantity 0 (`ZeroQuantityAgreesIff`).
- "Lock-free" holds up to spurious failures of the weak compare-and-swaps, each of which can cost up to ten further
  steps (`LockFree`).

## Model

| member | source | states |
|---|---|---|
| LiveOrder.Order.MakePlain | src/order.cpp:6-10 | a limit or market order starts active with all of its quantity left |
| LiveOrder.Order.MakeIceberg | src/order.cpp:12-19 | an iceberg starts with its display showing, which is also the size of its lots, and the rest hidden; the unchecked subtraction wraps |
| LiveOrder.Order.MakeStop | src/order.cpp:21-27 | a stop starts untriggered, with its limit as price and its trigger apart from it |
| LiveOrder.Order.VisibleQty | src/order.cpp:29-31 | an iceberg shows its display, any other order its leaves |
| LiveOrder.Order.Replenish | src/order.cpp:33-38 | the next lot moves from hidden to display in place; nothing happens to other orders or without hidden quantity |
| LiveOrder.Order.Fill | src/order.cpp:40-53 | leaves, display, hidden part and status after a fill, the saturating branch included: filled when nothing is left, else partial |
| LiveOrder.Order.Cancel | src/order.cpp:55-58 | a cancelled order has no leaves |
| BookInvariants.TradedKeeps | src/order.cpp:33-53 | a trade within the visible lot takes exactly that much from the leaves, keeps display plus hidden equal to them, and a used-up lot is replaced by min(hidden, original display) |
| IcebergLimits.IcebergSoundIff | src/order.cpp:12-19 | an iceberg is well formed if and only if its display does not exceed its total |
| IcebergLimits.WrappedIcebergOverfills | src/order.cpp:12-19 | with a display above the total, one later order buys more than the iceberg ever had |
| IcebergLimits.NoOverfill | src/order.cpp:29-53 | in every state a run of commands reaches, what a resting order shows it still has, a trade of that much takes exactly that much, and a lot used up is refilled |
| LiveBook.OrderBook.constructor | include/orderbook.h:23-68 | the empty book on shared order objects |
| LiveBook.OrderBook.AddToBook | src/orderbook.cpp:7-14 | the shared object joins the end of the level of its side and price, the index gives back this very object under its id, and nothing else moves |
| LiveBook.OrderBook.CancelLocked | src/orderbook.cpp:16-39 | true exactly for an id in the index; the object leaves every place of the book and ends cancelled, without leaves; everything else stays, the other resting objects stay indexed by their ids |
| LiveBook.OrderBook.MakeTrade | src/orderbook.cpp:42-45 | the next trade id is used and the trade appended to the history |
| LiveBook.OrderBook.CheckStopTriggers | src/orderbook.cpp:47-61 | one pass with erasure splits the pending stops into those that hold and those that fire, in order, and marks the fired objects; a sell stop is left if the price is above its trigger, a buy stop if it is below, and all others are staged |
| LiveBook.OrderBook.Execute | src/orderbook.cpp:81-91 | both orders are filled in place, one trade is recorded, and the stops are checked at its price |
| LiveBook.OrderBook.TradeWithFront | src/orderbook.cpp:81-98 | one whole turn of the inner loop, with exit from level and index or refill in place, is the turn of the specification |
| LiveBook.OrderBook.SweepAskLevel | src/orderbook.cpp:73-99 | the inner loop of matchBuy ends where the specification of the whole sweep goes on |
| LiveBook.OrderBook.SweepBidLevel | src/orderbook.cpp:118-144 | the inner loop of matchSell, likewise |
| LiveBook.OrderBook.MatchBuy | src/orderbook.cpp:63-107 | nested loops over shared objects refine the functional matcher; the returned trades are exactly what the history gained |
| LiveBook.OrderBook.MatchSell | src/orderbook.cpp:109-152 | the same for the sell side |
| LiveBook.OrderBook.RunTriggered | src/orderbook.cpp:169-172 | a batch of triggered stops is run one after the other, each unaffected by the earlier ones until its turn |
| LiveBook.OrderBook.Match | src/orderbook.cpp:154-176 | untriggered stops are held; otherwise the order and then the cascade run to its end, which is reached; the history grows by the returned vector; with unique ids every resting object stays the one its id stands for in the index |
| LiveBook.OrderBook.CancelOrder | src/orderbook.cpp:178-181 | cancel under the lock |
| LiveBook.OrderBook.ModifyOrder | src/orderbook.cpp:183-199 | true exactly for a known id, which is replaced by a new plain order at the end of its new level, without matching |
| LiveBook.OrderBook.BestBid | src/orderbook.cpp:201-204 | the best bid price, 0 for an empty side |
| LiveBook.OrderBook.BestAsk | src/orderbook.cpp:206-209 | the best ask price, 0 for an empty side |
| LiveBook.OrderBook.Spread | src/orderbook.cpp:211-215 | the difference of the best prices, 0 for a one-sided book |
| MatchSteps.InnerTrade | src/orderbook.cpp:73-99 | a turn that trades leaves the end of the whole sweep unchanged: trades, stops, levels and aggressor |
| MatchSteps.InnerSkip | src/orderbook.cpp:76-79 | dropping a front order that shows nothing leaves the end unchanged |
| MatchSteps.InnerLeave | src/orderbook.cpp:101-102 | leaving a level, emptied or not, leaves the end unchanged |
| LiveBook.TurnEnds | src/orderbook.cpp:93-98 | the three ways a turn can end, taken together, are one step of the specification |
| LiveLevels.InsertOk | src/orderbook.cpp:8-12 | insertion by price on shared objects keeps the side sorted, adds one object and shows as insertion of its value |
| LiveLevels.EraseOk | src/orderbook.cpp:23-34 | the erasure removes exactly the objects with that id and price and an emptied level |
| LiveLevels.FrontSeen | src/orderbook.cpp:74-98 | an update of the front object is seen at the front of its level and nowhere else |
| LiveLevels.MoveStop | src/orderbook.cpp:53-56 | moving a fired stop keeps every stop in exactly one of the two lists |
| BookInvariants.MatchOneOk | src/orderbook.cpp:63-152 | one sweep keeps sides sorted, levels non-empty, every resting order indexed at its own side and price exactly once; the book stays clean if and only if the remainder rests with something visible |
| BookInvariants.MatchOk | src/orderbook.cpp:154-176 | the same through a whole match with its cascade |
| BookInvariants.CancelOk | src/orderbook.cpp:16-39 | cancel keeps the invariant and removes one index entry |
| BookInvariants.ModifyOk | src/orderbook.cpp:183-199 | modify keeps the invariant; it keeps a clean book clean if and only if the order is no iceberg and the new quantity is positive |
| BookInvariants.SweepLevelsOk | src/orderbook.cpp:66-102 | what a sweep leaves, whom it trades with and whom it finishes; on a clean side the ids split into those left and those finished |
| BookInvariants.SidesApart | src/orderbook.cpp:7-14 | no order rests on both sides |
| CancelRoundTrip.CancelKeepsOthers | src/orderbook.cpp:16-39 | cancel takes out the named id and leaves all other orders of both sides in their sequence |
| CancelRoundTrip.ModifyKeepsOthers | src/orderbook.cpp:183-199 | modify moves the named order alone, to the end of the level of its new price |
| CancelRoundTrip.CancelUndoesSubmit | src/orderbook.cpp:16-39 | cancelling an order that did not cross on entry restores the book exactly |
| UncrossedBook.MatchUncrossed | src/orderbook.cpp:154-176 | best bid stays below best ask through a match, residuals added in mid-cascade included |
| UncrossedBook.CancelUncrossed | src/orderbook.cpp:16-39 | and through a cancel |
| UncrossedBook.ModifyUncrossedIff | src/orderbook.cpp:183-199 | modify does not rematch: the book stays uncrossed if and only if the new price does not cross |
| UncrossedBook.SpreadPositive | src/orderbook.cpp:211-215 | the spread is positive if and only if both sides exist, then the difference of the quotes, and 0 if and only if one is empty |
| UncrossedBook.BestPriceRests | src/orderbook.cpp:201-209 | an empty side answers 0, any other the price of an order that rests there |
| UncrossedBook.BestPriceBounds | src/orderbook.cpp:201-209 | no bid is above the best bid reported and no ask below the best ask |
| IcebergLimits.IcebergRestsCleanIff | src/orderbook.cpp:84-104 | an iceberg that crosses on entry rests with something to show if and only if it trades less than its display or all of itself |
| IcebergLimits.OthersRestClean | src/orderbook.cpp:104 | every other order rests with something to show |
| IcebergLimits.InvisibleIcebergStrays | src/orderbook.cpp:76-79 | a run in which an iceberg filled down to a zero display is later dropped from its level and stays in the index |
| Transparency.SweepQueueSeen | src/orderbook.cpp:73-99 | on a clean level the lots of icebergs allocate as plain orders of the same leaves would, and merge to the same fills |
| TransparentCascade.IcebergTransparency | src/orderbook.cpp:154-176 | replacing every iceberg by a plain order with its leaves changes neither levels, leaves, ids, stops nor, lots counted together, the trades of a match with its whole cascade |
| TransparentCascade.CheckTwice | src/orderbook.cpp:47-61 | checking the stops again at the same price fires nothing |
| Allocation.GreedyFill | src/orderbook.cpp:63-152 | an aggressor trades min(its quantity, all leaves in reach, hidden included), and the line of resting orders loses exactly that from its front |
| Allocation.ServedShares | src/orderbook.cpp:73-99 | an order is touched if and only if those before it do not suffice, and then gets what they leave over up to its size |
| Allocation.PriceTimePriority | src/orderbook.cpp:66-102 | trades go down the queue order by order at each order's own price; all but the last finish their order; prices only get worse and satisfy the aggressor |
| Splitting.SplitAggressor | src/orderbook.cpp:63-152 | two aggressors in a row leave the opposite side exactly as one of their total quantity, and on a clean side give every order the same |
| SplitOrders.SplitMatch | src/orderbook.cpp:154-176 | the same for whole matches when no stop waits, with the trades read from the history |
| Ledger.SweepLevelsLedger | src/orderbook.cpp:73-102 | on any well-formed side each resting order's leaves are what it still has, what the fills took from it and what was dropped with it; what the aggressor gives is what the fills take |
| Ledger.MatchLedger | src/orderbook.cpp:63-176 | for every book and order, through match and cascade: what an id had or brought is what it may still trade, what the new trades say and what was lost with it, as a market remainder or dropped with nothing visible |
| Ledger.MatchPlaced | src/orderbook.cpp:63-176 | match places nobody but the submitted order, and an order that loses quantity in it is neither on a level nor waiting afterwards |
| StopCascade.MatchFollows | src/orderbook.cpp:47-61 | after any match the pending stops are the earlier ones that no new trade met, in their order; none is left staged |
| StopCascade.ExactlyOnce | src/orderbook.cpp:154-176 | every stop is run in the cascade or still pending, as often as it was there before |
| StopCascade.CascadeIsWorklist | src/orderbook.cpp:165-173 | the batched loop gives the same book, trades and order of runs as a one-at-a-time worklist |
| BookSpec.RunBatch | src/orderbook.cpp:165-173 | a batch conserves pending plus triggered stops, which is why the loop ends: each turn leaves fewer |
| BookSpec.Cascade | src/orderbook.cpp:165-173 | the cascade terminates with nothing staged |
| LiveEngine.MatchingEngine.SubmitLimit | src/matching_engine.cpp:31-50 | the next id is given out and a limit order matched |
| LiveEngine.MatchingEngine.SubmitMarket | src/matching_engine.cpp:52-67 | a market order is matched at price 0 |
| LiveEngine.MatchingEngine.SubmitIceberg | src/matching_engine.cpp:69-86 | an iceberg is matched |
| LiveEngine.MatchingEngine.SubmitStopLoss | src/matching_engine.cpp:88-107 | a stop is held |
| LiveEngine.MatchingEngine.CancelOrder | src/matching_engine.cpp:109-115 | a cancel is passed on; the answer says whether the id was known |
| LiveEngine.MatchingEngine.ModifyOrder | src/matching_engine.cpp:117-123 | a modify is passed on; the answer says whether the id was known; if so the order stands last at the new price on its old side with the new quantity and time, if not nothing changes |
| EngineRuns.RunOk | src/matching_engine.cpp:31-123 | every state of every run satisfies the book invariant, ids stay below the counter, and trades are numbered from 1 without a gap |
| EngineRuns.RunUncrossed | src/matching_engine.cpp:31-123 | no run whose modifies do not cross produces a crossed book |
| EngineRuns.RunClean | src/matching_engine.cpp:31-123 | in a tidy run the index holds exactly the resting orders and each has something to show |
| EngineRuns.RunStops | src/orderbook.cpp:47-61 | after any run a submitted stop is pending if and only if no trade since its submission met its trigger; pending stops keep submission order |
| EngineLedger.RunBalances | src/orderbook.cpp:63-199 | after any legal run, for every order submitted: the quantity it was given at its submit or last modify is what it may still trade, what the history since says it traded, and what was lost with it by cancel, market remainder or drop; a placed order lost nothing; nobody trades more than it was given |
| EngineLedger.NeverOverfilled | src/orderbook.cpp:84-90 | at every point of the history of any legal run, between the trades of one match too, an order that is not modified has traded at most the quantity it was submitted with, resting or incoming |
| Duality.MirrorMatch | src/orderbook.cpp:63-176 | swapping sides and negating prices commutes with match and cascade for every book: matchSell is the mirror of matchBuy |
| Duality.MirrorRun | src/matching_engine.cpp:31-123 | and with whole runs |
| OrderTerms.MatchHonours | src/orderbook.cpp:63-176 | match and cascade keep every order to its side, kind, price, quantity and lot, wherever it is and in every trade; an order that is not incoming trades at its own price and in lots of at most its display |
| EntryQuantity.OwnSweep | src/orderbook.cpp:63-152 | an incoming order trades, in trades of its own side, time and accepted prices, the smaller of its quantity and all that shows within its price |
| CommandMeaning.EntryTakes | src/matching_engine.cpp:31-86 | the same for the limit, market and iceberg commands of any run, in their own fields |
| CommandMeaning.LimitFate | src/matching_engine.cpp:31-50 | in every later state of every run a limit order left alone rests on its side at its price with what it has not traded and nowhere else, or has traded all and is nowhere |
| CommandMeaning.MarketTakes | src/matching_engine.cpp:52-67 | a market order trades the smaller of its quantity and all that shows on the other side whatever the prices; on a clean book that is all that rests there |
| CommandMeaning.MarketNeverRests | src/matching_engine.cpp:52-67 | after its command a market order is on no level, waits for nothing and is in no index, for ever |
| CommandMeaning.IcebergShows | src/order.cpp:29-53 | in every later state an iceberg that is not modified shows at most its display and, if anything, exactly the rest of the display-sized lot its trades have reached; a used-up lot comes back as the smaller of the display and what is left |
| CommandMeaning.RestingTrades | src/orderbook.cpp:81-98 | after its own sweep a limit order or an iceberg trades at exactly its price, an iceberg at most its display at a time |
| CommandMeaning.PricesKept | src/orderbook.cpp:66-102 | an order that is not modified trades on its own side only and never beyond its price, a stop never beyond its limit price |
| CommandMeaning.StopFate | src/matching_engine.cpp:88-107 | a stop left alone has traded nothing while it waits; from its trigger on it rests at its limit price with what it has not traded and nowhere else, or has traded all and is nowhere |
| StopTriggers.StopWaitsWhile | src/orderbook.cpp:47-61 | over every run: a sell stop still waits if and only if every trade since its submit was above the trigger submitted, a buy stop if and only if every one was below; it waits with the side, limit, quantity and time submitted |
| StopTriggers.WaitInOrder | src/orderbook.cpp:154-163 | waiting stops stand in the order of their submits |
| StopTriggers.FireInOrder | src/orderbook.cpp:47-61 | the stops one trade fires are staged in the order of their submits, behind those fired before |
| ModifyMeaning.ModifyMeans | src/matching_engine.cpp:117-123 | a modify of a known order puts it last at the price asked for on its old side with the quantity asked for and nowhere else; everybody else stays and nothing trades |
| ModifyMeaning.ModifyFate | src/matching_engine.cpp:117-123 | after a modify the order never trades but at exactly the new price; it rests with what it has not traded of the new quantity, until it has traded all |
| ModifyMeaning.CancelMeans | src/matching_engine.cpp:109-115 | a cancel of a known order leaves it on no level and in no index; everybody else stays and nothing trades |
| ModifyMeaning.UnknownChangesNothing | src/matching_engine.cpp:109-123 | cancel and modify of an unknown id change nothing |
| ModifyMeaning.IdsOneByOne | src/matching_engine.cpp:31-107 | ids are given out one by one from 1 on |
| LiveBaseline.BaselineLOB.Match | benchmark/baseline_stl.cpp:26-64 | the naive engine's loops refine its specification: both sides, the next id and the returned trades |
| LiveBaseline.InnerTurn | benchmark/baseline_stl.cpp:35-42 | a turn of the naive inner loop leaves its end unchanged |
| BaselineRuns.RunSimulates | benchmark/baseline_stl.cpp:26-64 | the full engine simulates the naive one level by level, icebergs that stay clean included at total size, with the same trades once lots are counted together |
| BaselineRuns.LimitStreamsAgree | benchmark/baseline_stl.cpp:26-64 | for every stream of limit orders with quantity both engines give the same trades one by one and corresponding books |
| BaselineRuns.ZeroQuantityAgreesIff | benchmark/baseline_stl.cpp:30-45 | a limit order without quantity makes the engines differ if and only if it crosses |
| MemoryPool.MemoryPool.constructor | include/memory_pool.h:33-37 | a pool starts with one slab, all free, also for empty slabs |
| MemoryPool.MemoryPool.Grow | include/memory_pool.h:23-30 | the blocks of a new slab are linked, last one first, in front of the list, which stays acyclic |
| MemoryPool.MemoryPool.Allocate | include/memory_pool.h:49-62 | the block returned was at the front of the list and is no block in use |
| MemoryPool.MemoryPool.Deallocate | include/memory_pool.h:64-72 | the block becomes the front of the list |
| MemoryPool.MemoryPool.FreeCount | include/memory_pool.h:74-81 | the walk counts the free blocks; with the blocks in use they are the capacity |
| MemoryPool.MemoryPool.TotalCapacity | include/memory_pool.h:83-86 | slabs times slab size |
| PoolSpec.PoolRun | include/memory_pool.h:23-86 | after any allowed run free and live blocks partition the slabs and the capacity is slab size times max(1, peak in use rounded up to slabs) |
| PoolSpec.AllocateOk | include/memory_pool.h:49-62 | an allocation returns a block not in use and keeps the partition |
| PoolSpec.FreeThenAllocate | include/memory_pool.h:49-72 | reuse is last in, first out, and the allocation undoes the free |
| PoolSpec.AllocateThenFree | include/memory_pool.h:49-72 | a free undoes an allocation up to the slab it may have made |
| PoolSpec.FirstBlocks | include/memory_pool.h:23-62 | a new pool hands out the blocks of its slab from the last to the first |
| PoolSpec.FreedComeBack | include/memory_pool.h:64-72 | blocks freed one after the other stand on the list in reverse |
| QueueInvariant.StepOk | benchmark/concurrent_queue.h:73-150 | every atomic step of every thread keeps one acyclic chain, head not past tail, tail last or last but one, and what each program counter knows of its stale locals |
| QueueInvariant.LinkNode | benchmark/concurrent_queue.h:83-89 | a successful link is made on the true last node, with the global tail there |
| QueueInvariant.MoveHead | benchmark/concurrent_queue.h:134-142 | a successful swap of the head moves it one node on and not past the tail |
| QueueInvariant.MoveTail | benchmark/concurrent_queue.h:92-104 | a successful swap of the tail moves it one node on |
| QueueInvariant.SuccessorExists | benchmark/concurrent_queue.h:134-136 | a head that differs from the tail has a successor |
| Linearisable.Reachable | benchmark/concurrent_queue.h:73-150 | the invariant holds in every state of every interleaving of any number of threads, and no thread dereferences null |
| Linearisable.StepSimulates | benchmark/concurrent_queue.h:73-150 | each step leaves the abstract queue alone, or appends one value, or removes the front one and returns it |
| Linearisable.LogLegal | benchmark/concurrent_queue.h:73-150 | the linearisation points form a legal history of a sequential queue that ends in the contents |
| Linearisable.NothingLostOrReordered | benchmark/concurrent_queue.h:73-150 | what was enqueued is what was dequeued followed by the contents |
| LinearPoints.EveryReturnTookEffect | benchmark/concurrent_queue.h:73-150 | every operation that returns took effect at exactly one moment between its call and its return; one that found nothing had an empty queue at that moment |
| LinearPoints.RealTimeOrder | benchmark/concurrent_queue.h:15 | the moments of two operations differ, and an operation that returned before another began comes first |
| LinearPoints.EveryEffectWasAsked | benchmark/concurrent_queue.h:73-150 | every linearisation point belongs to one operation in progress that asked for it |
| LinearPoints.EmptyWhenNull | benchmark/concurrent_queue.h:116-129 | a head without a successor means that nothing is queued at that moment |
| LinearPoints.ProgramOrder | benchmark/concurrent_queue.h:73-106 | a thread's values are linked in the order of its calls; at most its last call is missing |
| LockFreedom.LockFree | benchmark/concurrent_queue.h:16-17 | while no operation returns, n threads together make at most 10n + (10n + 1)(2n + 1) moves, starts of operations included, plus ten for each spurious failure, wherever all other threads have stopped |
| LockFreedom.WorkDown | benchmark/concurrent_queue.h:76-149 | each step without a return uses up some of that work |
| LockFreedom.StartDown | benchmark/concurrent_queue.h:73-112 | and so does the start of an operation |
| ConcurrentEngine.EventsMean | benchmark/concurrent_matching_engine.cpp:24-52 | the event a producer enqueues makes the consumer do what the producer asked for |
| ConcurrentEngine.ConsumerReplays | benchmark/concurrent_matching_engine.cpp:64-95 | at every moment engine and counter are those of a sequential run over the events taken out, and the consumer stops right after a sentinel |
| ConcurrentEngine.SequentialReplay | benchmark/concurrent_matching_engine.cpp:24-95 | the engine is in the state of one sequential run over the first linearised events, and the counter is their exact number |
| ConcurrentEngine.StoppedAtSentinel | benchmark/concurrent_matching_engine.cpp:54-62 | once stopped, exactly the events linearised before the first sentinel have been served |
| ConcurrentEngine.StopDrains | benchmark/concurrent_matching_engine.cpp:54-62 | an event linked before any sentinel has been served when the consumer stops |
| ConcurrentEngine.ProducerOrder | benchmark/concurrent_matching_engine.cpp:24-95 | the events served are the first linearised enqueues, and among these those of each producer are the first events it called enqueue with, in the order of its calls |
| ConcurrentEngine.ConsumerIsLoop | benchmark/concurrent_matching_engine.cpp:64-95 | seen from the consumer alone the execution is its loop |
| ConcurrentBook.AlwaysOrderly | benchmark/concurrent_matching_engine.cpp:64-95 | whatever the producers do and however threads interleave, the book is consistent, uncrossed and clean and its index exact |
| LiveConsumer.Dispatch | benchmark/concurrent_matching_engine.cpp:75-91 | the switch over event kinds drives the live engine |
| LiveConsumer.ConsumerLoop | benchmark/concurrent_matching_engine.cpp:64-95 | the loop over dequeue answers serves them on the live engine up to the sentinel and counts them |

## Left out

- IcebergTransparency: assumes a clean book, fresh orders with something to trade and a submitted order that rests clean; on a book that is not clean the two differ, as `InvisibleIcebergStrays` shows for the index.
- GreedyFill: speaks of clean sides; orders that show nothing are skipped and dropped, so their leaves are not served.
- PriceTimePriority: counts an iceberg's consecutive lots as one trade, since each lot is a trade of its own in the history.
- NeverOverfilled: speaks of orders that are not modified; for a modified one RunBalances bounds what it trades after its last modify by the new quantity.
- LimitFate: speaks of orders that no later command cancels or modifies; CancelMeans and ModifyMeans say what those commands do.
- StopFate: the same; while it waits a stop can be neither cancelled nor modified.
- ModifyFate: promises only for limit orders and stops with a quantity that they rest until all has traded; a modified iceberg shows nothing and is dropped when it is reached, as RunBalances accounts for.
- Allocate: requires a free block or a slab size above 0; with empty slabs the source dereferences null there.
- RunSimulates: covers limit orders and icebergs; the naive engine has no market orders, stops, cancels or modifies.
- The maps from price to level are modelled as sequences sorted by the map's comparator; balanced trees are library code.
- 64-bit wrap-around of ids, prices and quantities, except in the one subtraction that can wrap for ordinary inputs, the hidden part of an iceberg.
- Mutexes: each public book and pool operation is one atomic step, as its lock makes it.
- Clock readings are parameters; queue position and not time decides priority.
- The pool stands alone: the engine's orders are plain objects here and are not placed in pool blocks.
- Weak memory orderings, cache-line padding, deletion of retired nodes and the ABA problem: the steps of the queue are sequentially consistent and nodes are never reused.
- The consumer's dispatch is taken together with the dequeue it follows, since no other thread sees the engine before `stop` has joined.
- Printing, logging, statistics, benchmark drivers, random workloads, the demo and the test framework.
- Reference counts, the pool's deleter, destructors and the order in which members are destroyed.
