# A verified model of the exchange and its trading client

The repository is a small electronic exchange and a trading client for it. This
project models both in Dafny, from the linked lists of the order book up to the
distributed protocols, and proves what each part owes the others.

There are three layers, and every layer is proved against the one above it.

1. **Meaning.** A side of a book is one sequence of orders, best first
   (`PriceTime`). Requests, market updates, responses, snapshots, positions and
   order slots are functions on such values (`Exchange`, `Replica`, `Snapshot`,
   `Consumer`, `Orders`, `Position`). What holds over whole runs is proved here.
2. **Objects.** The classes of the repository, with their fields and loops, proved
   to do what those functions say: `MEOrderBook` and `MarketOrderBook` over
   circular level lists, circular FIFO lists, direct-mapped tables and pools
   (`LinkedBook`, `BookStore`, `MemPool`, `OrderBook`, `MarketBook`),
   `MatchingEngine`, `MarketDataPublisher`, `SnapshotSynthesizer`,
   `MarketDataConsumer`, `TradeEngine`, `OrderManager`, `PositionInfo`,
   `TCPSocket`, `OrderGateway`, `OrderServer`, `FIFOSequencer`.
3. **Systems.** Step machines whose events interleave freely, with theorems about
   every reachable state: market-data replication over two lossy multicast streams
   (`Replication`, `CatchUp`, `ClientSafety`), the closed trading loop (`ClosedLoop`, `SlotLife`), order
   entry over chunked byte pipes (`Session`), the trading loop over that order entry and
   back, which is proved to simulate the loop over plain queues (`WiredLoop`), and the
   lock-free ring (`LockFreeQueue`).

| file | what is in it |
|---|---|
| `Types`, `PriceTime` | messages, capacities; the flat price-time book and its three mutations |
| `Exchange`, `Reports`, `Soundness`, `Ledger`, `Lifecycle`, `Matching` | the matching engine as a function; what each request is answered with and leaves, field by field; what every request keeps; responses as a ledger; the life of one order in everything sent about it; one match in pieces |
| `Levels`, `LinkedBook`, `BookStore`, `MemPool`, `OrderBook`, `MatchingEngine` | price levels; circular lists and tables; the store object; pools; the book and the engine as objects |
| `KeyedBook` | the map-keyed book and its comparison with the direct-mapped one |
| `Replica`, `MarketBook`, `TradeEngine` | the client's books as a fold; the client's book and dispatcher as objects |
| `Snapshot`, `Publisher`, `Consumer`, `Replication`, `CatchUp`, `ClientSafety`, `ClientPath` | snapshot image, publisher and synthesizer, gap recovery, the whole market-data path and how a client catches up, down to its books and best prices |
| `Position`, `Orders`, `ClosedLoop`, `LoopAccounts`, `SlotLife`, `WiredLoop`, `WiredRest` | PnL, order slots and risk check, the closed loop over plain queues: its bounds, what the strategy may rely on, the life of a slot; the loop over the wire, and how it comes to rest |
| `LockFreeQueue`, `Wire`, `ResponseWire`, `OrderEntry`, `Sequencer`, `Session`, `Downlink` | the ring, the packed frames both ways, sockets, gateway and server, the fairness sort, requests end to end, responses end to end |

## Assumptions

- A NEW request carries BUY or SELL. The matching loop treats every other side byte
  as SELL; such requests are outside the model.
- A fatal condition is an explicit failure result (`ok == false`): order pool used
  up, socket buffer full, more pending requests than the sequencer holds. Where it is
  proved that it cannot happen (level pool, client order pool) there is no such result.
- Capacities are symbolic (`Config`): price slots, order ids, clients, tickers. Both
  build profiles are instances.
- Sequence numbers, order ids and priorities do not wrap: a request or response whose fields
  do not fit its frame is never sent. Position limits leave room
  in 32 bits; that room is then proved sufficient. The best bid and offer quantity is
  kept modulo 2 to the 32, as in the code.
- PnL is over the reals.
- The networks: a delivery names any message ever sent, any number of times, in any
  order. A byte pipe is reliable and delivers in arbitrary pieces; a kernel send that
  succeeds moves at least one byte. A snapshot cycle is put on the wire as a whole,
  but may be delivered in any fashion.
- A pointer into a pool is the number of its block; the null pointer is -1.
- `std::sort` enters by its promise alone: the same entries, none before an earlier one.
- Gateways are honest: each sends under its own client id, and no two share one.
- The server registers its sockets for input only (`include/tcp_server.h:34`), so the list
  of sockets ready for output stays empty and the second pass of `sendAndRecv`
  (`src/tcp_server.cpp:154-156`) reads nothing. That a poll cycle reads a socket once, and
  so gives a client's requests one receive time, rests on it.
- The strategy may call `moveOrders` at any moment with any prices and clip.
- The lock-free ring's atomic accesses interleave sequentially consistently.

## Model

| member | source | states |
|---|---|---|
| Exchange.GreedySweep | Exchange/matcher/me_order_book.cpp:158-240 | the matching loop is the greedy price-time allocation: a prefix of the crossing orders is filled completely, the next one at most in part; each fill is told to both owners and to the market at the price of the resting order, every field of every report given, in this order, and nothing else is touched |
| Reports.NewRefused | Exchange/matcher/me_order_book.cpp:248-286 | a NEW is answered with INVALID, carrying its own ids, side and price, and does nothing else, exactly if an id is out of range, its owner has a resting order, or a resting order has another price in the same slot |
| Reports.NewServed | Exchange/matcher/me_order_book.cpp:158-326 | any other NEW: ACCEPTED with the market id and its own fields first; fills only within the limit, best price first and then the earlier order, as much as is possible, both FILLED and the TRADE at the resting price with both owners' ids, sides and quantities; what is left is announced by an ADD and rests last in the queue of its price, with the next priority there |
| Reports.CancelServed | Exchange/matcher/me_order_book.cpp:328-373 | a CANCEL takes out exactly the order its client has resting under that id and sends CANCELED and a CANCEL update with that order's fields, or is answered with CANCEL_REJECTED, naming no order, side or price, if there is none |
| Reports.NextServed | Exchange/matcher/matching_engine.h:56-118 | after any run, the next request does one of these things to the book of its ticker and nothing to any other; a request for no book or of an unknown kind is answered with INVALID |
| Soundness.SweepTakes | Exchange/matcher/me_order_book.cpp:210-240 | the quantity filled is the smaller of the order's quantity and all that crosses it |
| Soundness.SweepSurvivors | Exchange/matcher/me_order_book.cpp:210-240 | what is left of the other side is in order, only shrunk, and if the taker has quantity left nothing remaining crosses it |
| Soundness.AddKeepsSound | Exchange/matcher/me_order_book.cpp:244-326 | any NEW request leaves the book sorted, uncrossed, alias-free, uniquely keyed, with positive quantities and rising priorities |
| Soundness.CancelKeepsSound | Exchange/matcher/me_order_book.cpp:328-373 | any CANCEL request does the same |
| Soundness.RunSound | Exchange/matcher/me_order_book.cpp:244-373 | after every run of requests every book is uncrossed, so no remainder ever joins a level of the other side or of an aliasing price |
| Ledger.SweepTaker | Exchange/matcher/me_order_book.cpp:158-208 | each fill reported to the aggressor carries as leaves what is still unfilled of it |
| Ledger.SweepMaker | Exchange/matcher/me_order_book.cpp:158-208 | the fills reported to a resting order lead from its quantity to what the sweep leaves of it |
| Ledger.ProcessLedger | Exchange/matcher/matching_engine.h:74-118 | the responses of one request take every account from the old book to the new one |
| Ledger.RunLedger | Exchange/matcher/me_order_book.cpp:158-373 | over every run, replaying the responses about an order gives exactly what the book holds of it |
| Lifecycle.Conservation | Exchange/matcher/me_order_book.cpp:158-373 | over every run and per market order id: it is accepted at most once and not mentioned before; the quantity of its ACCEPTED is the sum of its FILLED, plus what rests under it, plus, once it was CANCELED, the quantity its CANCEL update reports; a CANCELED comes with exactly one CANCEL update, and nothing rests after either |
| Lifecycle.CancelsAloneBalance | Exchange/matcher/me_order_book.cpp:190-208 | a trade that uses an order up also sends a CANCEL update, with the quantity before the trade; so counting every CANCEL update as withdrawn balances if and only if each came with a CANCELED |
| Lifecycle.LooksCanceled | Exchange/matcher/me_order_book.cpp:190-208 | two requests after which it does not: a buy, and a sell that trades it away |
| Lifecycle.NewUsesUp | Exchange/matcher/me_order_book.cpp:158-240 | request by request: a NEW sends a CANCEL update, and no CANCELED, about a resting order exactly when that order and every one before it cross, and their total is within its quantity |
| Lifecycle.CancelSendsBoth | Exchange/matcher/me_order_book.cpp:349-372 | a CANCEL request sends a CANCELED and a CANCEL update about an order, or neither |
| Ledger.RunBalanced | Exchange/matcher/me_order_book.cpp:158-208 | over every run, total bought equals total sold equals total of the TRADE updates |
| Levels.NewLevel | Exchange/matcher/me_order_book.cpp:41-84 | a new level at the place the walk finds is a priority insertion into the flat side |
| Levels.JoinLevel | Exchange/matcher/me_order_book.cpp:121-129 | appending to the level of the same price is the same insertion |
| Levels.TakeOutFlat | Exchange/matcher/me_order_book.cpp:134-154 | taking an order out of its level, and an emptied level out of its list, removes exactly that order from the flat side |
| Levels.NextPriorityLevel | Exchange/matcher/me_order_book.cpp:34-39 | the tail of a level's queue decides the next priority at its price |
| Levels.SameLevels | Exchange/matcher/me_order_book.cpp:41-84 | equal flat sides have equal levels with equal queues |
| LinkedBooks.RingInsert | Exchange/matcher/me_order_book.cpp:65-83 | the four link assignments turn a circular list into the one with the new node between its neighbours |
| LinkedBooks.RingRemove | Exchange/matcher/me_order_book.cpp:93-101 | linking a node out of a circular list of at least two leaves the circular list without it |
| LinkedBooks.SeatedOk | Exchange/matcher/me_order_book.cpp:109-120 | starting a level keeps the whole linked invariant, adds exactly that level and leaves the other side alone |
| LinkedBooks.UnseatedOk | Exchange/matcher/me_order_book.cpp:86-105 | dropping an emptied level keeps the whole linked invariant and removes exactly that level |
| LinkedBooks.AppendOk | Exchange/matcher/me_order_book.cpp:121-129 | linking an order in behind the tail keeps the whole linked invariant and extends exactly that queue |
| LinkedBooks.UnqueueOk | Exchange/matcher/me_order_book.cpp:134-151 | linking an order out from between others keeps the whole linked invariant and shortens exactly that queue |
| MemPools.Pigeonhole | include/mem_pool.h:22-47 | distinct numbers below n that all miss some value are fewer than n |
| MemPools.MemPool.Allocate | include/mem_pool.h:22-47 | the circular scan terminates and hands out a block nobody holds, and fails exactly when none is free |
| MemPools.MemPool.Deallocate | include/mem_pool.h:49-56 | exactly the given block becomes free |
| BookStores.RoomForLevel | Exchange/matcher/me_order_book.cpp:109-120 | live levels occupy distinct slots, so an empty slot means a free block in the level pool: it is never used up |
| BookStores.BookStore.FindPlace | Exchange/matcher/me_order_book.cpp:57-67 | the walk stops at the first level the new price is not worse than, or at the last |
| BookStores.BookStore.AddOrdersAtPrice | Exchange/matcher/me_order_book.cpp:41-84 | the level is linked in at its place in price order, the head and the slot table follow, nothing else changes |
| BookStores.BookStore.RemoveOrdersAtPrice | Exchange/matcher/me_order_book.cpp:86-105 | the level leaves ring, head and slot, and exactly its block becomes free |
| BookStores.BookStore.AddOrder | Exchange/matcher/me_order_book.cpp:109-132 | the order is inserted by price and time in the flat book, the linked invariant and the pools' agreement are kept, every other order is where it was |
| BookStores.BookStore.RemoveOrder | Exchange/matcher/me_order_book.cpp:134-154 | exactly the order leaves the flat book and its block is free again, with the same invariants |
| BookStores.BookStore.NextPriority | Exchange/matcher/me_order_book.cpp:34-39 | the priority read off the level's tail is one more than the youngest order's at that price, or 1 |
| BookStores.BookStore.Best | Exchange/matcher/me_order_book.cpp:216-236 | the first order of the first level is the first of the flat side |
| BookStores.BookStore.AliasCheck | Exchange/matcher/me_order_book.cpp:274-286 | the slot holds a level at another price exactly if some resting order aliases the price |
| BookStores.BookStore.ClearLevels | trading/strategy/market_order_book.cpp:188-209 | after the clear loops every block is free, every slot empty and the book empty |
| OrderBooks.MEOrderBook.constructor | Exchange/matcher/me_order_book.cpp:12-20 | a new book is empty and satisfies the invariant |
| OrderBooks.MEOrderBook.Match | Exchange/matcher/me_order_book.cpp:158-208 | one match changes the book, and sends the messages, of the flat book's match, whose prices, ids, sides and quantities `Exchange.GreedySweep` gives field by field |
| OrderBooks.MEOrderBook.CheckForMatch | Exchange/matcher/me_order_book.cpp:210-240 | the loop terminates, and book, leaves and messages are those of the sweep that `Exchange.GreedySweep` proves greedy and whose every report it gives field by field |
| OrderBooks.MEOrderBook.Add | Exchange/matcher/me_order_book.cpp:244-326 | on every input, book and messages are those of the flat add; it fails exactly when the order is admitted, is not filled completely, and its remainder finds as many orders resting as the pool has blocks |
| OrderBooks.MEOrderBook.Occupancy | Exchange/matcher/me_order_book.cpp:134-154 | the free blocks of the order pool and the orders resting always add up to its capacity, so exhaustion is a count of resting orders |
| Matching.RoomSuffices | Exchange/matcher/me_order_book.cpp:302-316 | while fewer orders rest than the pool has blocks, no request fails |
| OrderBooks.MEOrderBook.Cancel | Exchange/matcher/me_order_book.cpp:328-373 | on every input, book and messages are those of the flat cancel |
| OrderBooks.MEOrderBook.TableLookup | Exchange/matcher/me_order_book.cpp:331-337 | the client and order id table finds exactly the order that client has resting under that id |
| MatchingEngines.MatchingEngine.ProcessClientRequest | Exchange/matcher/matching_engine.h:74-118 | dispatch with lazily made books has the effect of the engine function on all books and both queues; it fails exactly for a NEW request of a known ticker whose remainder finds its book's pool used up; a new book brings only new objects |
| MatchingEngines.MatchingEngine.ServeAll | Exchange/matcher/matching_engine.h:124-146 | the run loop over queued requests leaves the engine object, its books and both its queues, as the run as a function does; it goes through exactly if every request finds room |
| MatchingEngines.StartAndServe | Exchange/matcher/matching_engine.h:74-146 | from start-up through any requests, the engine object's books are sound, and the responses it sent tell of every order exactly what its books hold |
| KeyedBook.AddTwins | Exchange/matcher/unordered_map_me_order_book.cpp:226-258 | on every request the direct-mapped book admits, both books send the same messages and stay equivalent |
| KeyedBook.CancelTwins | Exchange/matcher/unordered_map_me_order_book.cpp:260-305 | every CANCEL has the same outcome in both |
| KeyedBook.SweepRep | Exchange/matcher/unordered_map_me_order_book.cpp:156-224 | the matching loop over the price-keyed map is the greedy sweep |
| KeyedBook.SameUnlessRejected | Exchange/matcher/unordered_map_me_order_book.cpp:50-305 | over any run of requests the two books send the same messages if and only if the direct-mapped one sends no INVALID |
| Replica.SweepCarries | Exchange/matcher/me_order_book.cpp:158-208 | the CANCEL and MODIFY updates of a sweep take the client's view of the book along |
| Replica.ProcessCarries | Exchange/matcher/me_order_book.cpp:158-373 | one request's updates are valid and take the client's books from the old views to the new |
| Replica.ReplayReproduces | trading/strategy/market_order_book.cpp:213-307 | over every run, the emitted stream is valid, each in-range MODIFY and CANCEL in it giving side, price and priority of an order then in the book, a MODIFY a lower quantity, a CANCEL its quantity; replaying it gives the exchange's books: same levels, same FIFO, same quantities and priorities |
| Replica.VisibleWhole | trading/strategy/market_order_book.cpp:214-228 | while all market order ids fit the client's table, the view leaves nothing out |
| Replica.ApplyUpdates | trading/strategy/market_order_book.cpp:213-307 | what one update does to what a book holds: an ADD brings its order unless its id is out of range or its price shares a slot with another live price, a MODIFY changes one quantity in place, a CANCEL takes one id out, CLEAR and SNAPSHOT_START empty the book, the rest does nothing |
| MarketBooks.MarketOrderBook.RoomForOrder | trading/strategy/market_order_book.cpp:245-250 | an absent id in range always finds a free block: the client's order pool is never used up |
| MarketBooks.MarketOrderBook.ClearBook | trading/strategy/market_order_book.cpp:188-209 | both clear loops together leave an empty, consistent book |
| MarketBooks.MarketOrderBook.SumQueue | trading/strategy/market_order_book.cpp:155-184 | the loop around the circular queue sums each order once, modulo 2 to the 32 |
| MarketBooks.MarketOrderBook.BestOf | trading/strategy/market_order_book.cpp:155-184 | price and total are those of the leading run of equal prices of the flat side |
| MarketBooks.BboIsBest | trading/strategy/market_order_book.cpp:155-184 | on every book kept in price order the prices and quantities of the leading runs are the highest bid and lowest ask and the totals offered there, each on its own side |
| MarketBooks.MarketOrderBook.OnMarketUpdate | trading/strategy/market_order_book.cpp:213-307 | every update has the effect of the replica function, and the cached prices are the highest bid and the lowest ask of the new book, each with all that is offered at it, modulo 2 to the 32, an empty side with no price and 0; an in-range ADD must be one that does not reuse a live id or land on a level of the other side, as `ClientSafety.ForwardedIsLandable` proves of everything forwarded |
| TradeEngines.TradeEngine.HandleMarketUpdate | trading/strategy/trade_engine.cpp:131-183 | one book, or on a CLEAR for no ticker all of them, take the update; exactly that ticker's position is marked, except on a TRADE; an in-range ADD must be landable, as `ClientSafety.ForwardedIsLandable` proves of everything forwarded |
| TradeEngines.TradeEngine.QuoteIs | trading/strategy/trade_engine.cpp:131-183 | the quote a position is marked with is the pair of best prices cached in its book |
| TradeEngines.TradeEngine.HandleResponse | trading/strategy/trade_engine.cpp:96-129 | a fill moves and then marks the position of its ticker, every response reaches the order manager, an unknown ticker changes nothing |
| Publishers.MarketDataPublisher.Poll | Exchange/market_data/market_data_publisher.cpp:79-129 | everything queued goes out once, in order, numbered consecutively, and is forwarded under the same numbers |
| Publishers.SnapshotSynthesizer.AddToSnapshot | Exchange/market_data/snapshot_synthesizer.cpp:90-140 | the table absorbs the update as the fold says, out-of-range ids being dropped; it fails exactly when an in-range ADD finds no free block |
| Publishers.SnapshotSynthesizer.PublishSnapshot | Exchange/market_data/snapshot_synthesizer.cpp:142-186 | the nested loops send exactly one cycle: CLEAR, START, one ADD per live order by ticker and id, END with the last absorbed number, numbered consecutively |
| Snapshot.SynthMirrors | Exchange/market_data/snapshot_synthesizer.cpp:90-140 | on every valid stream the table describes exactly the orders of the folded books |
| Snapshot.PartialStep | trading/strategy/market_order_book.cpp:105-128 | the next ADD of an image in id order is well placed in the part rebuilt so far and extends it |
| Snapshot.ImageRebuilds | Exchange/market_data/snapshot_synthesizer.cpp:142-186 | for every valid stream, replaying the ADDs of its snapshot rebuilds the same level order and in-level FIFO as replaying the stream |
| Snapshot.ImageAscends | Exchange/market_data/snapshot_synthesizer.cpp:155-169 | and its ADDs are listed by ticker and, within one, by order id |
| Consumer.MarketDataConsumer.ProcessIncremental | trading/market_data/market_data_consumer.cpp:112-155 | outside recovery the expected incremental goes out, and behind it exactly the updates buffered without a hole from the next number on, and the expected number moves past them; an old one changes nothing; a later one is kept and opens a recovery; in recovery everything is kept |
| Consumer.DrainForwards | trading/market_data/market_data_consumer.cpp:130-138 | the drain loop forwards exactly the consecutive run at the front of the buffer and stops at the first hole |
| Consumer.InOrder | trading/market_data/market_data_consumer.cpp:124-139 | incrementals delivered in order go out one by one as they come in, none held back |
| Consumer.MarketDataConsumer.StartRecovery | trading/market_data/market_data_consumer.cpp:157-174 | recovery starts with clean snapshot state, and starting it again changes nothing |
| Consumer.MarketDataConsumer.ProcessSnapshot | trading/market_data/market_data_consumer.cpp:195-271 | the snapshot state machine, message kind by message kind |
| Consumer.MarketDataConsumer.FinishRecoveryAt | trading/market_data/market_data_consumer.cpp:273-307 | the replay loop skips what the image covers, publishes what follows without a gap, and keeps the rest |
| Consumer.WholeCycle | trading/market_data/market_data_consumer.cpp:195-307 | CLEAR, START, ADDs and END delivered in order to a recovering consumer end its recovery: CLEAR and the ADDs went out, then the buffered run behind the number the END carries, older entries are gone and younger ones wait |
| Consumer.GapAborts | trading/market_data/market_data_consumer.cpp:214-265 | a number out of turn, at the START, at an ADD or at the END, gives the attempt up: up to the next CLEAR nothing is forwarded and the recovery goes on, whatever arrives |
| Replication.CycleFaithful | Exchange/market_data/snapshot_synthesizer.cpp:142-186 | whatever looks like one complete cycle in the snapshot stream is one, and stands for the incrementals its END names |
| Replication.DrainOk | trading/market_data/market_data_consumer.cpp:118-138 | draining keeps the client's books on the fold of the incrementals and leaves only the future buffered |
| Replication.FinishOk | trading/market_data/market_data_consumer.cpp:273-307 | at the END of a contiguous cycle the client's books are the fold of incrementals 1 to the number it carries, and replaying the buffer keeps the invariant |
| Replication.RecoveryEndsExact | trading/market_data/market_data_consumer.cpp:195-307 | in every reachable state, recovery ends with exactly those deliveries of an END that follow the last accepted message of an open image; what was forwarded since the last CLEAR is then one complete cycle, its image is the fold of incrementals 1 to the number its END carries, and the client goes on behind that number |
| Replication.ReachOk | trading/market_data/market_data_consumer.cpp:112-307 | the invariant of publisher, synthesizer, both streams and consumer holds in every reachable state |
| Replication.ClientExact | trading/market_data/market_data_consumer.cpp:112-307 | for every loss, duplication and reordering of both streams, outside recovery the client's books are exactly the fold of incrementals 1 to next-1, everything buffered is from the future, and once all is consumed they are the exchange's own books |
| CatchUp.EmitsRun | Exchange/matcher/matching_engine.h:74-118 | whatever happens on the networks, the books and the emitted updates are those of the run of the requests traded |
| CatchUp.InOrderCatchesUp | trading/market_data/market_data_consumer.cpp:124-155 | from every reachable state outside recovery, the incrementals delivered in order bring the client's books to the fold of all that was published |
| CatchUp.CycleCatchesUp | Exchange/market_data/snapshot_synthesizer.cpp:60-186 | from every reachable state in recovery: once everything emitted is published and absorbed, one cycle delivered in order ends the recovery with the exchange's own books, without an incremental being sent again |
| ClientSafety.CycleClean | Exchange/market_data/snapshot_synthesizer.cpp:155-169 | every beginning of a snapshot cycle is a clean stream of its own |
| ClientSafety.ReachSafe | trading/market_data/market_data_consumer.cpp:195-316 | in every reachable state, in recovery or out of it, everything forwarded downstream found its book ready |
| ClientSafety.ForwardedIsLandable | trading/strategy/market_order_book.cpp:213-250 | every forwarded in-range ADD meets the demands of the client's book object and is queued, never dropped |
| ClientSafety.ForwardedRefers | trading/strategy/market_order_book.cpp:253-290 | every forwarded in-range MODIFY and CANCEL finds its order in the client's book, with the side, price and priority it states, a MODIFY with a higher quantity, a CANCEL with the same |
| ClientPath.DrainMarketUpdates | trading/strategy/trade_engine.cpp:201-209 | the run loop over forwarded updates leaves every book object at the fold of all updates so far, its cached prices at that fold's highest bid and lowest ask with all that is offered there |
| ClientPath.FollowExchange | trading/strategy/trade_engine.cpp:201-209 | for every loss, duplication and reordering, outside recovery the client's book objects hold the fold of incrementals 1 to next-1, their cached prices and quantities are its best offers, and once all is consumed both are the exchange's own |
| Position.PositionInfo.AddFill | trading/strategy/position_keeper.h:46-102 | the in-place fill has the effect of the fill function, whether it opens, reduces, closes or flips |
| Position.PositionInfo.UpdateBBO | trading/strategy/position_keeper.h:104-125 | only an open position is marked, only to a quote with both sides |
| Position.FillBalanced | trading/strategy/position_keeper.h:46-102 | a fill keeps realised PnL equal to cash received plus the cost of the open position, and total PnL equal to cash plus position at the fill price |
| Position.PnlExact | trading/strategy/position_keeper.h:46-125 | after any sequence of fills and quotes: the position is what was bought less what was sold, total PnL is net cash flow plus position times the last fill price or usable mid, (bid + ask) / 2, since; it is realised plus unrealised, and the side opposite the position carries no cost |
| Position.OpeningAdds | trading/strategy/position_keeper.h:61-63 | a fill on the side of the position realises nothing and adds price times quantity to the cost of its side |
| Position.ClosingRealises | trading/strategy/position_keeper.h:64-79 | a fill against the position realises, on the quantity it closes, its price's difference to the average entry price; what stays open keeps that average, what opens beyond it starts at the fill's price |
| Orders.OrderManager.MoveOrderAt | trading/strategy/order_manager.cpp:25-113 | one side's move, every field given: a free slot gets a NEW of the price, side, clip and next id exactly if there is a price and the order is within all three limits; a live order that differs in price or quantity is canceled by its own id, ticker and side; a waiting slot sends nothing and stays as it is |
| Orders.RiskMeans | trading/strategy/risk_manager.h:57-74 | with sizes of at most 31 bits an order is allowed exactly if its quantity, the position it would lead to and total PnL are all within their limits, and a refusal names the first of the three that is broken |
| Orders.MovesBoth | trading/strategy/order_manager.cpp:117-128 | the same of both sides together as a function of the slots, for every position and every limit |
| Orders.OrderManager.Move | trading/strategy/order_manager.cpp:117-128 | the bid side moves to the bid, then the ask side to the ask, each so, and no other slot changes |
| Orders.OrderManager.OnUpdate | trading/strategy/order_manager.cpp:132-160 | a response changes the slot of its ticker and side only |
| ClosedLoop.PlaceWithin | trading/strategy/risk_manager.h:57-74 | an order the risk check allows on a free slot keeps the exposure of both sides within the limit |
| ClosedLoop.ReachOk | trading/strategy/order_manager.cpp:77-160 | the loop invariant, position plus open buys and minus open sells within the limit included, holds in every interleaving |
| ClosedLoop.PositionBounded | trading/strategy/risk_manager.h:57-74 | in every interleaving the absolute position never exceeds the limit, although the check ignores open orders |
| ClosedLoop.TruePositionBounded | trading/strategy/risk_manager.h:57-74 | neither does the position including every fill the client has not heard of |
| ClosedLoop.RestingIsSlotted | trading/strategy/order_manager.cpp:132-160 | an order of this client resting at the exchange is the one its slot stands for, the slot is neither unused nor dead, and tracks what rests plus the fills in flight |
| ClosedLoop.AtMostOnePerSide | trading/strategy/order_manager.cpp:77-160 | at most one order per ticker and side rests |
| ClosedLoop.OneOrderPerSide | trading/strategy/order_manager.cpp:77-160 | in every interleaving, a resting order, a queued NEW and an unread ACCEPTED, FILLED or CANCELED of one ticker and side all name one order, its slot's, and the slot is neither unused nor dead |
| ClosedLoop.QueuedIsAlone | trading/strategy/order_manager.cpp:77-113 | while a NEW is queued, no order of its ticker and side rests, no ACCEPTED, FILLED or CANCELED of one is unread, and no other NEW is queued |
| ClosedLoop.InFlightIsSlotted | trading/strategy/trade_engine.cpp:96-129 | every fill or cancel still in flight is about the order its slot stands for, although responses are matched without an order id |
| LoopAccounts.OnlyQuotedLeaves | trading/strategy/risk_manager.h:57-74 | in every run a NEW leaves only at the strategy's turn, at the bid if it buys and at the ask if it sells, of the wanted size, and within the limits as they stand then: none leaves while total PnL is below its limit |
| LoopAccounts.PositionExact | trading/strategy/position_keeper.h:46-60 | in every run the position is, at any moment, exactly what the responses read so far executed, bought less sold |
| LoopAccounts.PnlExact | trading/strategy/position_keeper.h:46-125 | and total PnL is the cash those fills moved plus the position at the price it was last marked to |
| SlotLife.ReachSlots | trading/strategy/order_manager.cpp:77-160 | in every run a live or canceled-for slot is an order known to be open with its exact quantity, unless it was for nothing; a slot that waits for ACCEPTED has its NEW or its ACCEPTED on the way or was refused; one being withdrawn has its CANCEL on the way or the exchange is done with it |
| SlotLife.Settled | trading/strategy/order_manager.cpp:132-160 | once nothing is on its way, a slot is live with a quantity if and only if an order of the client rests on that side, which then has the slot's id and quantity |
| SlotLife.StuckForEver | trading/strategy/order_manager.cpp:108-111 | a slot that waits for an ACCEPTED that will not come, or works an order for nothing, stays so for ever, whatever happens |
| SlotLife.StuckExactly | trading/strategy/order_manager.cpp:156-158 | and a slot becomes stuck if and only if the engine now takes its NEW and refuses it, or the client now reads the ACCEPTED of a NEW of quantity 0 |
| SlotLife.FreeRestingOrStuck | trading/strategy/order_manager.cpp:77-160 | so once nothing is on its way every slot is free, stands for a resting order, or is stuck |
| SlotLife.ComesToRest | trading/strategy/trade_engine.cpp:185-225 | from every reachable state, the engine taking what is queued and the client reading what was sent leave nothing on its way |
| LockFreeQueue.RunOk | include/lq_free.h:42-87 | the index invariant holds under every interleaving and every staleness of the cached indices |
| LockFreeQueue.ConsumedPrefix | include/lq_free.h:42-87 | what is consumed is a prefix of what was published, and at most n-1 elements wait; `LockFreeQueue.DeliversWritten` ties what was published to what the producer wrote |
| LockFreeQueue.DeliversWritten | include/lq_free.h:42-87 | in every run there is one published element for each publication that took effect, and it is the value the producer last wrote for it, or what the slot held a round before if it wrote none; what is consumed is a prefix of that |
| LockFreeQueue.SendsUnlessFull | include/lq_free.h:42-62 | wherever the consumer stands, write and publish add exactly the value written, unless n-1 elements are unread, and then the queue overflows |
| LockFreeQueue.ReceivesUnlessEmpty | include/lq_free.h:64-87 | wherever the producer stands, read and release take exactly the oldest unread element, if there is one |
| LockFreeQueue.NeverOverwrites | include/lq_free.h:42-62 | the producer never writes a slot that waits to be read or is being read |
| LockFreeQueue.OverflowMeansFull | include/lq_free.h:47-62 | the reload ends in overflow if and only if n-1 elements are unread at that moment |
| LockFreeQueue.NullMeansEmpty | include/lq_free.h:64-73 | null is returned if and only if everything published has been consumed at that moment |
| Wire.RoundTrip | Exchange/order_server/client_request.h:29-60 | decoding an encoded frame gives the frame back |
| Wire.Layout | Exchange/order_server/client_request.h:29-60 | the bytes of a request frame: number, type, client, ticker, order id, side, price, quantity, packed in this order, each least significant byte first |
| ResponseWire.RoundTrip | Exchange/order_server/client_response.h:37-66 | decoding an encoded response frame gives the frame back |
| ResponseWire.Layout | Exchange/order_server/client_response.h:36-70 | the bytes of a response frame, likewise |
| Wire.FramesConcat | Exchange/order_server/order_server.cpp:92-169 | parsing does not depend on how a stream is cut into pieces |
| Wire.FramesOfPrefix | Exchange/order_server/order_server.cpp:92-169 | whatever arrived of a stream of frames parses to the first of them |
| OrderEntry.TCPSocket.Send | src/tcp_socket.cpp:24-32 | data is queued behind what waits, or nothing happens if it does not fit |
| OrderEntry.TCPSocket.Flush | src/tcp_socket.cpp:90-127 | exactly as many bytes go out as the kernel's answers say, each call offering what the ones before it left; bytes taken followed by bytes kept are the bytes that waited; the socket is given up exactly when an answer says so while bytes wait |
| OrderEntry.TakenIs | src/tcp_socket.cpp:90-127 | the kernel's answers count up to the first that is not positive: the bytes gone are their sum, or all there were, and the connection dies exactly if that answer is negative while bytes wait |
| OrderEntry.OrderGateway.SendRequest | trading/order_gw/order_gateway.cpp:88-104 | number and payload go out as one frame, and the number advances by one |
| OrderEntry.OrderServer.Accept | Exchange/order_server/order_server.cpp:105-160 | type, client, socket and sequence checks, in this order and with these effects; fatal exactly when an accepted request finds the sequencer full |
| OrderEntry.OrderServer.RecvCallback | Exchange/order_server/order_server.cpp:80-170 | the offset loop takes every complete frame through the checks and keeps the incomplete rest; it fails exactly when the requests so accepted outgrow the sequencer |
| OrderEntry.AdmitAllGrows | Exchange/order_server/order_server.cpp:80-170 | a read adds at most one request per complete frame and takes none away, so the cycle's requests plus those frames bound the need |
| OrderEntry.OrderServer.SendAndRecv | src/tcp_socket.cpp:34-134 | bytes that arrive join the unparsed ones, their complete frames are checked, and the waiting bytes go out as the kernel's answers say; it fails exactly when the callback does |
| OrderEntry.OrderServer.Respond | Exchange/order_server/order_server.cpp:200-211 | a response goes to its client's socket as one frame under the client's next number, or is dropped if the client has no socket |
| OrderEntry.OrderGateway.ProcessResponse | trading/order_gw/order_gateway.cpp:145-172 | the client and sequence checks, in this order, and then on to the strategy |
| OrderEntry.OrderGateway.RecvCallback | trading/order_gw/order_gateway.cpp:108-132 | the offset loop takes every complete response through the checks and keeps the incomplete rest |
| OrderEntry.OrderServer.Disconnect | Exchange/order_server/order_server.cpp:35-46 | exactly the clients of a dead socket start new sessions |
| Sequencers.SortIsSequenced | Exchange/order_server/fifo_sequencer.h:39-55 | a result is a sort by the comparison if and only if it is the one order by receive time and arrival |
| Sequencers.KeepsClientOrder | Exchange/order_server/fifo_sequencer.h:76-95 | a client whose pending requests came with one read keeps its own order |
| Sequencers.FIFOSequencer.AddClientRequest | Exchange/order_server/fifo_sequencer.h:64-74 | the request is buffered under its arrival index, or refused exactly when the buffer is full |
| Sequencers.FIFOSequencer.SequenceAndPublish | Exchange/order_server/fifo_sequencer.h:76-95 | the whole buffer is published in that order and is empty afterwards |
| Session.AdmitRun | Exchange/order_server/order_server.cpp:105-160 | the next frames of a session are all accepted, in order, and no other client's session changes |
| Session.ReadAllOk | src/tcp_server.cpp:134-158 | a poll cycle reads a socket once, so a client's pending requests share their receive time |
| Session.ReachOk | Exchange/order_server/order_server.cpp:80-177 | every byte sent is in exactly one of the send buffer, the pipe and the server, in order, in every reachable state |
| Session.SessionOrder | trading/order_gw/order_gateway.cpp:88-104 | for any chunking, interleaving of clients and clocks, and any reconnections, the engine's requests from one client are those of its earlier sessions, followed by exactly the first of those given to its gateway, in order; none is refused, lost or repeated, and all of them once everything has arrived |
| Session.Delivers | trading/order_gw/order_gateway.cpp:88-104 | from every reachable state a request that fits its frame reaches the engine: once its bytes are flushed and read, the engine has been handed everything the gateway was given |
| Session.SessionEnds | Exchange/order_server/order_server.cpp:35-46 | when a connection dies, its session contributed exactly the requests whose frames had arrived, and the server waits for number 1 of the client's next gateway |
| Session.EndsAlone | Exchange/order_server/order_server.cpp:35-46 | and no other client's session changes, and its own next one is answered from number 1 |
| Session.HeldRefuses | Exchange/order_server/order_server.cpp:128-142 | while the server still holds a client's old socket it takes nothing of the client from another one |
| Session.GapRefuses | Exchange/order_server/order_server.cpp:144-154 | and a session that has missed its next number is refused for good |
| Downlink.ReadOk | trading/order_gw/order_gateway.cpp:108-172 | however the bytes arrive, the gateway passes on exactly the responses whose frames have arrived, in order |
| WiredLoop.Simulates | Exchange/order_server/order_server.cpp:179-217 | every run of the trading loop over gateway, byte pipes, server, sequencer and engine, shared with other clients, is a run of the loop over plain queues |
| WiredLoop.PositionBounded | trading/strategy/risk_manager.h:57-74 | so over the wire, too, the absolute position never exceeds the limit, with or without the fills the client has not heard of |
| WiredLoop.OneOrderPerSide | trading/strategy/order_manager.cpp:77-160 | and a resting order, a NEW anywhere between strategy and engine, and an ACCEPTED, FILLED or CANCELED anywhere between engine and strategy name the one order their slot stands for |
| WiredLoop.HeardInOrder | Exchange/order_server/order_server.cpp:188-215 | the strategy hears what the engine said to the client, in order, none dropped, lost or repeated, and all of it once nothing is on its way |
| WiredRest.StrategyActs | trading/strategy/order_manager.cpp:117-128 | over the wire the strategy's turn is the loop's, as long as its requests fit their frames |
| WiredRest.ComesToRest | Exchange/order_server/order_server.cpp:179-217 | from every reachable state, bytes carried up, requests taken, responses answered, carried down and handled leave nothing of this client on its way, provided what the engine said fits its frames |
| WiredRest.Settled | trading/strategy/order_manager.cpp:132-160 | and then, over the wire as over plain queues, a slot is live with a quantity if and only if the order it stands for rests |

## Left out

- Sockets, epoll, multicast join, threads, affinity, signals, main programs: I/O plumbing, replaced by the network assumptions above.
- `MarketDataConsumer::recvSnapshot` and `recvIncremental` buffer loops: the model starts at decoded messages; the snapshot loop keeps using its offset after `finishRecovery` has reset the receive index.
- Real addresses: list nodes are named by pool block numbers, so dangling pointers are absent by construction; poisoned links are modelled as -1.
- The order of the two link-poisoning writes in `removeOrder` against the rest, which no reader can see.
- The linked list relinking of the map-keyed book: it repeats the direct-mapped book's, so `KeyedBook` models it on values, with sorted price lists and a map of queues; its matching loop stops at an empty resting order, which is proved never to occur.
- `LFQueue` as an object: it is modelled on values as a step machine, because its two sides run concurrently; weak memory and `size()` from a third thread are not modelled.
- A gateway of the trading loop does not reconnect in `WiredLoop`, as it never does in the code; other gateways do. Responses to other clients are not followed on their way back.
- MatchingEngines.MatchingEngine.ServeAll: the SHUTDOWN poison pill that ends the loop, and waiting on an empty queue, are not modelled.
- OrderBooks.MEOrderBook.Add: after a fatal pool exhaustion nothing is claimed, since the process ends there.
- TradeEngines.TradeEngine.HandleMarketUpdate: the feature engine and strategy callbacks are not modelled; a strategy is an arbitrary caller of `moveOrders`.
- `OrderManager` never recovers a slot whose NEW was refused with INVALID, or accepted with quantity 0: `SlotLife.StuckExactly` says exactly when, `SlotLife.StuckForEver` that it is for good.
- CatchUp.CycleCatchesUp: when a cycle is sent and that it gets through whole are assumptions of a schedule, as on any lossy network; what is proved is that one suffices.
- ClosedLoop.PositionBounded: assumes this client's orders go through `OrderManager` alone, as its own id space; other clients trade arbitrarily.
- Floating-point rounding in PnL, FeatureEngine, MarketMaker, LiquidityTaker.
- Logging, latency tracking, `toString`, OptLogger, OptMemPool, benchmarks, Python bindings, dashboards, test hooks, and the RANDOM driver.
