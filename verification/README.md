# market-sim, verified

A Dafny model of market-sim's matching and accounting engine (C++) and of the concurrent pieces of
the Go server around it, with proofs of what they promise. `dafny verify dfyconfig.toml` checks
everything.

| file | models |
|---|---|
| `OrderBook.dfy` | the two price-sorted sides, resting and market orders, the greedy fill loop |
| `Ledger.dfy` | average-cost position accounting, eight branches, whole fill histories |
| `Drain.dfy` | the order queue, the drain loop, the event log, every interleaving of pushes, pops and ticks |
| `Agents.dfy`, `Whales.dfy`, `Engine.dfy` | the price walk, the three kinds of agent, the shuffled agent phase, one whole tick, runs of ticks |
| `Numerals.dfy`, `Wire.dfy`, `Json.dfy`, `Protocol.dfy`, `Events.dfy`, `Ticks.dfy`, `Formats.dfy` | decimal numerals, substring search, Go's JSON strings and objects, the engine's parser, the two Go printers, the fill, reject and tick lines, their classifier and their reader |
| `Limiter.dfy`, `Relay.dfy` | a sandbox handler's rate limiter; routing of engine events to sandboxes |
| `Hub.dfy` | the WebSocket hub's loop |
| `Manager.dfy` | the sandbox status machine and its cap |
| `Store.dfy` | tick inserts, asynchronous trims and history reads |

Objects that the source updates in place are classes, and their methods are proved against pure
functions; the concurrent protocols are step systems whose steps are the source's critical sections,
and the statements about them hold after every finite sequence of steps. Doubles are exact reals.
Random draws, shuffles, clock readings, and the outcomes of Docker and file system calls are
arbitrary arguments.

## How the main results hang together

* **Book.** `Eat` is what the fill loop computes. It takes exactly what it can, best price first, at
  the least cost of all ways of taking that total, conserves quantity price by price, and can be cut
  into two orders without a trace. A side is determined by its quantity per price
  (`LevelsDetermined`), so the per-price statements are about the whole container.
* **Ledger.** After any history the net quantity is bought minus sold, realised minus cost of holding
  is the cash that changed hands, and the average cost is the weighted mean of the lots still open,
  which are exactly the same-direction fills since the position was opened. Together these determine
  every field of an open position; a flat one keeps the average it was closed at
  (`PartialCloseKeepsAverage`).
* **Drain.** Every interleaving of the stdin thread's pushes with the drain's pops keeps the orders in
  push order, gives each exactly one outcome and keeps the tracker equal to the replay of the emitted
  fills. Splitting a market order is invisible across book and ledger together.
* **Runs of ticks.** `Market.Run` is any number of ticks. At every point of every run the tracker is the
  replay of the emitted fills, every agent phase leaves an uncrossed book of known shape, and every
  whale waits for, and acts in, exactly the ticks of its own schedule (`WhaleWaits`, `WhaleActs`), so
  the spacing theorems of `Whales.dfy` are about the engine.
* **Wire.** In a printed line a quote is a delimiter or follows a backslash, so a needle that starts
  with a quote can only be found at its own key. What the parser hears of an order is characterised for
  every string in it (`HubHeard`, `RelayHeard`); it is what was meant if and only if both ids are
  non-empty and made of characters that Go's encoder copies verbatim. The engine echoes the escaped
  ids as they are, so the relay's JSON reader turns them back into the ids that were sent, if and only
  if neither holds a quote; otherwise the line is not JSON and reaches nobody (`EndToEnd`). The same
  happens to every tenth tick line, which lists the positions, if any trader with a position sent an
  id with a quote: no sandbox gets that tick (`TickRouted`). The lines are spelled out character by
  character (`HubFormat`, `RelayFormat`, `FillFormat`, `RejectFormat`, `TickFormat`).
* **Server.** The relay, the sandbox manager, the tick store and the hub are classes over step systems:
  each method is one step from a reachable state (in the hub, from any state that keeps the
  invariant), so the statements about all runs hold of the objects. What a step queues, drops or
  writes is stated by itself (`Relay.StepQueues`, `Hub.StepServes`, `Manager.StatusByName`,
  `Store.AllInserted`), not through the step function.

Where the code and its description differ, the model follows the code: levels aggregate quantity, so
there is no time priority within a level (readme.md:37 says price-time); drained limit orders never
match; only the aggressor's position is recorded; the limiter's window is fixed, not sliding as
server/sandbox/relay.go:155 says: `BoundMet` shows 19 forwarded orders within one second, and
`SlidingExactly` says exactly when every second stays within ten.

## Model

| member | source | states |
|---|---|---|
| `OrderBookModel.OrderBook.AddLimitOrder` | src/OrderBook.cpp:5-12 | a resting order changes its own side only, by `Rest`; ids count up modulo 2^64 |
| `OrderBookModel.RestMeaning` | src/OrderBook.cpp:7-10 | resting adds the quantity at that price and at no other, and keeps the side sorted and positive |
| `OrderBookModel.OrderBook.Fill` | src/OrderBook.cpp:18-31 | the fill loop leaves and trades exactly what `Eat` says, with the aggressor's id on each trade |
| `OrderBookModel.OrderBook.AddMarketOrder` | src/OrderBook.cpp:14-39 | a market order consumes the opposite side by `Eat` and leaves its own side alone |
| `OrderBookModel.EatTakesExactly` | src/OrderBook.cpp:18-31 | the fills total min(qty, what rests), run strictly from best to worst, and nothing is filled exactly when there is nothing to take; all levels stay strictly positive |
| `OrderBookModel.EatConserves` | src/OrderBook.cpp:22-25 | at every price, what rested is what still rests plus what was filled |
| `OrderBookModel.EatOptimal` | src/OrderBook.cpp:14-39 | a buy pays no more, and a sell receives no less, than any other allocation of the same total over the resting levels |
| `OrderBookModel.EatCapped` | src/OrderBook.cpp:21-30 | asking for more than rests is asking for all that rests |
| `OrderBookModel.EatSplit` | src/OrderBook.cpp:14-39 | q1 then q2 leaves the levels that q1 + q2 leaves, with the same fills up to one fill cut in two |
| `OrderBookModel.LevelsDetermined` | src/OrderBook.h:28-29 | a sorted positive side is determined by its quantity at each price |
| `OrderBookModel.WellFormedMeans` | src/OrderBook.h:28-29 | the class invariant, spelled out pairwise: positive quantities, each price ahead of every later one |
| `OrderBookModel.OrderBook.RemoveQty` | src/OrderBook.cpp:47-59 | removal changes its own side only, by `Cancel` |
| `OrderBookModel.CancelMeaning` | src/OrderBook.cpp:47-59 | removal lowers the quantity at that price, erasing it at zero or below, does nothing at an absent price, and touches no other price |
| `OrderBookModel.OrderBook.Clear` | src/OrderBook.cpp:61-64 | both sides empty, ids go on |
| `OrderBookModel.OrderBook.Depth` | src/OrderBook.cpp:66-82 | the depth query returns the best levels, and every level it omits ranks behind every one it returns |
| `OrderBookModel.BestIsBest` | src/OrderBook.cpp:41-43 | the best bid is the highest, the best ask the lowest, 0 where there is none; the spread is their difference |
| `Ledger.PositionTracker.Bought` | src/PositionTracker.cpp:14-37 | the four BUY branches compute `Apply` |
| `Ledger.PositionTracker.Sold` | src/PositionTracker.cpp:38-63 | the four SELL branches compute `Apply` |
| `Ledger.PositionTracker.RecordFill` | src/PositionTracker.cpp:8-64 | one entry is created or updated, all others stay |
| `Ledger.ReplayNet` | src/PositionTracker.cpp:12-63 | after any history the net quantity is bought minus sold and every fill is counted |
| `Ledger.PnlIdentity` | src/PositionTracker.cpp:4-64 | after any history, at every mark price, realised plus unrealised P&L is sell notional minus buy notional plus net quantity at the mark; a flat trader has realised exactly their net cash |
| `Ledger.ApplyBalanced` | src/PositionTracker.cpp:14-63 | each of the eight branches keeps realised minus cost of holding equal to the cash exchanged |
| `Ledger.ReplayMirror` | src/PositionTracker.cpp:8-64 | swapping BUY and SELL through a history negates net quantity and realised P&L and keeps the average cost |
| `Ledger.NegatedUnrealised` | src/PositionTracker.cpp:4-6 | the mirrored position's unrealised P&L is the negative at every price |
| `Ledger.FillSplit` | src/PositionTracker.cpp:8-64 | a fill cut in two at its price leaves the same quantity, average cost and realised P&L, whether it opens, adds, closes or flips |
| `Ledger.ReplayCarries` | src/PositionTracker.cpp:17-18 | at every point of every history the average cost is the weighted mean of the open lots, which weigh what is held |
| `Ledger.LotsSinceOpened` | src/PositionTracker.cpp:14-63 | whenever a position is open, its lots are exactly the same-direction fills since the last flat or flip, in order |
| `Ledger.Opened` | src/PositionTracker.cpp:14-63 | every open position was opened by some fill |
| `Ledger.AverageBetween` | src/PositionTracker.cpp:14-63 | whenever a position is open its average cost lies between the lowest and highest of those prices |
| `Ledger.PartialCloseKeepsAverage` | src/PositionTracker.cpp:22-36 | a close, partial or full, never moves the average cost; only a flip does, to its own price |
| `Ledger.ReplayAllSeparates` | src/PositionTracker.cpp:10-12 | each tracked position is the replay of that trader's own fills, and exactly the traders with fills are tracked |
| `Drain.OrderQueue.Enqueue` | src/OrderQueue.h:21-24 | a push keeps the queue first in, first out: what was ever popped, then what is queued, is what was ever pushed |
| `Drain.OrderQueue.Dequeue` | src/OrderQueue.h:26-32 | so does a pop, which takes the front, or nothing from an empty queue |
| `Drain.Simulation.Report` | src/Simulation.cpp:80-83 | each trade is recorded for the aggressor and emitted, in order |
| `Drain.Simulation.ProcessOrder` | src/Simulation.cpp:62-87 | one iteration of the drain loop computes `Process` |
| `Drain.Simulation.NextOrder` | src/OrderQueue.h:21-32 | whatever the other thread pushes joins the queue, then the front is popped |
| `Drain.Simulation.DrainOrderQueue` | src/Simulation.cpp:58-89 | whatever is pushed between its pops, the loop ends with an empty queue, having popped the orders queued at first and those that arrived, with the effect of processing them one after another |
| `Drain.OutcomeIsOne` | src/Simulation.cpp:62-87 | each order has exactly one outcome, by exact conditions: one reject with its reason, silence for a resting limit order, or fills best price first adding up to min(qty, opposite side); a valid market order is rejected exactly when the opposite side is empty |
| `Drain.DrainConserves` | src/Simulation.cpp:58-89 | over any drained sequence, at every price of each side, starting quantity plus accepted limit quantity equals final quantity plus quantity filled there |
| `Drain.BookAfter` | src/Simulation.cpp:73-78 | every remaining level stays strictly positive and sorted |
| `Drain.ProcessTracks` | src/Simulation.cpp:80-83 | one order keeps the tracker equal to the replay of the emitted fills |
| `Drain.DrainTracks` | src/Simulation.cpp:58-89 | so does a whole drain |
| `Drain.MarketSplit` | src/Simulation.cpp:73-83 | sending a market order in two parts leaves the same book and every trader with the same net quantity, average cost and realised P&L |
| `Drain.RunKeeps` | src/Simulation.cpp:58-89 | in every interleaving of pushes, drain iterations and ticks: popped orders followed by the queue are the push order, each has exactly one outcome, the log is those outcomes in order, the tracker is the replay of the emitted fills |
| `Drain.InterleavedDrain` | src/OrderQueue.h:21-32 | however pushes interleave with a drain, its effect is that of draining the orders it popped |
| `Agents.WalkBounded` | src/PriceEngine.cpp:6-11 | a price step never lands below the floor, and from the floor up moves by at most one percent |
| `Agents.WalkIs` | src/PriceEngine.cpp:7-9 | a step adds the drawn fraction of the price if that is above 10, else lands on 10 |
| `Agents.PriceEngine.NextPrice` | src/PriceEngine.cpp:6-11 | that step is stored and returned |
| `Agents.MakerQuotesIs` | src/agents/MakerTrader.cpp:9-14 | by the levels alone: nothing if both best prices are positive and more than 2 * offset * mid * 1.000001 apart, else an order at mid - offset * mid and one at mid + offset * mid |
| `Agents.GuardNeverFires` | src/agents/MakerTrader.cpp:9-11 | in the agent phase the maker's spread guard never fires |
| `Agents.PhaseExact` | src/Simulation.cpp:41-42 | whatever the agents do in whatever order, at most one level a side remains, at mid - offset * mid and mid + offset * mid, and on each side resting plus taken is the number of quotes times the maker quantity |
| `Agents.PhaseUncrossed` | src/agents/MakerTrader.cpp:13-14 | the book the phase leaves is well formed, every bid is below every ask, and with both sides present they are 2 * offset * mid apart |
| `Agents.ShuffleVisitsOnce` | src/Simulation.cpp:37-39 | a shuffled iota visits every index exactly once |
| `Agents.CountShuffled` | src/Simulation.cpp:39 | counting agents of a kind does not depend on the shuffle |
| `Engine.Populate` | src/Simulation.cpp:11-30 | the population: as many makers as configured, all with offset 0.002 and quantity 1; takers with probability 0.3 and quantity 1; whales with interval 200, quantity 15 and their own first appointment; a negative number means none |
| `Engine.MakerTrader.Act` | src/agents/MakerTrader.cpp:7-15 | on the shared book a maker does what `MakerQuotesIs` says |
| `Engine.TakerTrader.Act` | src/agents/TakerTrader.cpp:11-19 | a taker does nothing or sends one market order |
| `Engine.WhaleTrader.constructor` | src/agents/WhaleTrader.cpp:3-13 | fifteen times the base quantity; the first appointment is one delay after tick 0 |
| `Engine.WhaleTrader.Act` | src/agents/WhaleTrader.cpp:21-29 | before its appointment a whale does nothing; then it sends one market order and reschedules |
| `Engine.EachMakerQuotes` | src/Simulation.cpp:37-42 | in a shuffled phase each maker quotes exactly once |
| `Engine.PhaseFacts` | src/Simulation.cpp:33-42 | for every shuffle and every draw: mid at least 10, at most one level a side at mid -/+ offset * mid, uncrossed, and resting plus taken is makers times maker quantity |
| `Engine.WaitsOnce` | src/Simulation.cpp:41-42 | every agent ends the phase one step of its own from where it started |
| `Engine.Market.RunAgents` | src/Simulation.cpp:37-42 | the agent loop computes the turns in the given order |
| `Engine.Market.RunPhase` | src/Simulation.cpp:32-42 | clearing, pricing and acting in the shuffled order have the effect of `AfterPhase` |
| `Engine.Market.RunTick` | src/Simulation.cpp:32-47 | a tick is that phase, then the drain of the queue into its book, and the tick number goes up by one |
| `Engine.Market.Run` | src/Simulation.cpp:49-52 | a run is as many ticks, each from where the one before ended, and no queued order is lost between them |
| `Engine.EveryPhase` | src/Simulation.cpp:32-52 | in every tick of every run the phase leaves a book as `PhaseFacts` says |
| `Engine.RunTracks` | src/Simulation.cpp:49-52 | at every point of every run the tracker is the replay of the emitted fills |
| `Engine.WhaleWaits` | src/agents/WhaleTrader.cpp:21-29 | at every point of every run each whale waits for the tick its schedule says, given its own draws |
| `Engine.WhaleActs` | src/agents/WhaleTrader.cpp:21-29 | in tick t it sends an order if and only if t is one of its schedule's ticks |
| `Whales.ActsOnSchedule` | src/agents/WhaleTrader.cpp:15-29 | over every run of ticks a whale acts exactly in its appointed ticks and misses none |
| `Whales.ActsExactly` | src/agents/WhaleTrader.cpp:21-22 | tick t is acted in if and only if the appointment has come by then |
| `Whales.ActGaps` | src/agents/WhaleTrader.cpp:15-19 | each act comes exactly max(1, interval + draw) ticks after the one before, the draw being that act's own, and the first so long after tick 0 by the constructor's |
| `Whales.ActsSpaced` | src/agents/WhaleTrader.cpp:15-19 | so the gaps are between max(1, interval - jitter) and max(1, interval + jitter) |
| `Whales.ActsApart` | src/agents/WhaleTrader.cpp:15-29 | any two acts are as many times max(1, interval - jitter) apart as there are acts between them |
| `Whales.ActsBounded` | src/agents/WhaleTrader.cpp:15-29 | any n consecutive ticks hold at most ceil(n / max(1, interval - jitter)) acts |
| `Whales.DefaultActsBounded` | src/agents/WhaleTrader.h:7-8 | with the default settings that is ceil(n / 150) |
| `Numerals.ReadPrint` | src/Protocol.h:30-33 | a printed JSON number followed by a delimiter reads back as itself |
| `Numerals.ReadAfterSpace` | src/Protocol.h:32 | white space in front of a numeral is passed over |
| `Numerals.ReadPlus` | src/Protocol.h:32 | so is a plus sign |
| `Numerals.DecimalBack` | src/Protocol.h:32 | the decimal digits of a natural number are worth that number |
| `Numerals.ValueSplits` | src/Protocol.h:32 | whole.frac is worth whole plus frac over its power of ten |
| `Numerals.ScientificWorth` | src/Protocol.h:32 | a numeral with sign, fraction and exponent is worth the signed sum shifted by that power of ten |
| `Numerals.PointMoves` | src/Protocol.h:32 | moving the point into a negative exponent changes nothing |
| `Numerals.NumberRestBack` | server/sandbox/relay.go:56 | a printed numeral without leading zeros is a JSON number |
| `Wire.QuoteAlign` | src/Protocol.h:12-16 | two quote-free words that agree through the next quote are the same word |
| `Wire.NoNeedle` | src/Protocol.h:12-13 | no quote in or before text whose quotes follow backslashes starts a key with its colon |
| `Wire.SkipField` | src/Protocol.h:13 | the search passes over any field that is not the one sought, whatever its value spells |
| `Wire.FindField` | src/Protocol.h:12-15 | searching a printed line for a key lands on its first field with that key |
| `Wire.FindNothing` | server/engine/runner.go:179-183 | searching for a key with a quoted value that no field has finds nothing |
| `Protocol.ExtractNumber` | src/Protocol.h:23-37 | the out parameter is set exactly when a number is found, and left alone otherwise |
| `Protocol.ExtractText` | src/Protocol.h:11-19 | extraction of a string key returns the escaped value up to its first quote |
| `Protocol.ExtractBare` | src/Protocol.h:23-37 | extraction of a number key returns the value of the numeral printed for it |
| `Protocol.ParseCarried` | src/Protocol.h:47-75 | in whatever order the keys come and whatever the values spell, the parser hears a printed order as `Heard` says: refused exactly for an empty id or an unknown side |
| `Protocol.ParsedExactly` | src/Protocol.h:47-75 | of any line whatever: when it is an order, and which field is which; an absent price is 0, an absent type LIMIT |
| `Protocol.HubHeard` | server/ws/hub.go:159-171 | what the parser makes of the hub's line, for every string in the order |
| `Formats.HubFormat` | server/ws/hub.go:126-133 | the hub's line, character by character |
| `Formats.RelayFormat` | server/sandbox/relay.go:200-207 | the relay's line, character by character |
| `Protocol.RelayHeard` | server/sandbox/relay.go:196-207 | the same for the relay's line, with any side and type text |
| `Protocol.HubRoundTrip` | server/ws/hub.go:126-133 | through the hub's struct order an order is recovered if and only if both ids are non-empty and verbatim; an unknown side is refused |
| `Protocol.RelayRoundTrip` | server/sandbox/relay.go:200-207 | the same through the relay's sorted-map order |
| `Protocol.TypedRoundTrip` | src/Protocol.h:61-66 | an order with any Side and OrderType, printed with the words BUY, SELL, LIMIT, MARKET by either printer, is parsed to that very Side and OrderType, price and quantity, if and only if both ids are plain |
| `Protocol.SandboxIdPlain` | server/sandbox/manager.go:30 | every id the manager admits is plain, so it survives the wire |
| `Json.EscapeFixed` | server/ws/hub.go:171 | the encoder leaves a string alone exactly when every character is one it copies |
| `Json.VerbatimIs` | server/ws/hub.go:171 | the encoder copies all but control characters, quote, backslash, <, >, & and the two line separators |
| `Json.EscapeGuarded` | server/ws/hub.go:171 | in an encoded string every quote follows a backslash |
| `Json.SeenIs` | src/Protocol.h:16-18 | a reader that stops at the first quote sees of an encoded string what `Seen` says |
| `Json.SeenFixed` | src/Protocol.h:16-18 | that is the string itself exactly when every character is copied verbatim |
| `Json.SeenWord` | src/Protocol.h:62-66 | a plain word is seen exactly where it was sent |
| `Json.StringBack` | server/sandbox/relay.go:56 | decoding undoes encoding, for every string |
| `Json.PairBack` | server/sandbox/relay.go:56 | a character beyond the first 65536 is decoded from its two halves |
| `Json.MembersBack` | server/sandbox/relay.go:56 | decoding a printed object gives its members |
| `Json.ElementsBack` | src/Simulation.cpp:147-157 | an array of printed objects is decoded to its end |
| `Json.ArrayBroken` | src/Simulation.cpp:163-173 | an object that is not JSON spoils the array around it |
| `Json.BrokenAt` | src/Simulation.cpp:100-101 | a line with a value that ends in a lone backslash, and more after it, is not JSON |
| `Events.HeaderExactly` | server/sandbox/relay.go:52-56 | the relay decodes an event's type and the very trader id that was sent exactly when neither id holds a quote; otherwise the line is not JSON |
| `Events.EndToEnd` | server/sandbox/relay.go:58-83 | from printer through parser and engine to the fan-out, an order's events are reports for its sender under that condition, and for nobody otherwise |
| `Protocol.ParsedQuoteFree` | src/Protocol.h:11-19 | no id the parser produces holds a quote |
| `Events.EventTyped` | server/engine/runner.go:177-188 | a fill or reject line whose ids hold no quote is classified as what it is |
| `Formats.FillFormat` | src/Simulation.cpp:96-109 | the line of a fill, character by character |
| `Formats.RejectFormat` | src/Simulation.cpp:111-122 | the line of a reject, character by character |
| `Events.EventWords` | src/Simulation.cpp:96-122 | a JSON reader finds the side of a fill and the reason of a reject by their words |
| `Events.EventNumbers` | src/Simulation.cpp:103-104 | price and quantity of a fill stand under their own keys |
| `Events.EveryLineTyped` | src/Simulation.cpp:96-122 | in every run of the engine fed by the parser, every emitted line is classified as its true type |
| `Ticks.FirstFieldTick` | server/engine/runner.go:177-180 | a line whose first field is the type tick is classified as a tick, whatever else it holds |
| `Ticks.TickFormat` | src/Simulation.cpp:124-180 | the line of a tick, character by character; every tenth lists the positions |
| `Ticks.PositionFormat` | src/Simulation.cpp:167-171 | one row of the positions |
| `Ticks.LevelFormat` | src/Simulation.cpp:149 | one level of the depth |
| `Ticks.TickRouted` | server/sandbox/relay.go:56-68 | the relay takes a tick line for a tick, except every tenth if some trader with a position sent an id that holds a quote; that one is not JSON |
| `Limiter.Limit` | server/sandbox/relay.go:156-192 | the loop's verdicts are those of the window after each order |
| `Limiter.ForwardingBounded` | server/sandbox/relay.go:179-192 | with a clock that never goes back, a closed interval of T > 0 sees at most 10 * ceil(T) + 9 forwarded orders, 19 in one second |
| `Limiter.BoundMet` | server/sandbox/relay.go:180-183 | 19 in one second does happen, so the window does not slide |
| `Limiter.SlidingExactly` | server/sandbox/relay.go:155-192 | every closed second sees at most ten forwarded orders if and only if, at each forwarded order, the window's count and what earlier windows forwarded in the second before it are at most ten together |
| `Limiter.CompliantNeverLimited` | server/sandbox/relay.go:179-192 | a sender with at most ten orders in every closed second is never limited |
| `Relay.RunKeeps` | server/sandbox/relay.go:47-117 | every interleaving keeps the routing invariant |
| `Relay.OnlyOwnItems` | server/sandbox/relay.go:58-83 | a channel holds only published ticks, fills and rejects with its own trader id, or its own rate-limit rejects |
| `Relay.InStreamOrder` | server/sandbox/relay.go:48-83 | apart from the catch-up tick, engine events come in stream order, none twice |
| `Relay.RunComplete` | server/sandbox/relay.go:58-83 | a registered handler whose buffer never overflowed has been offered every tick and every report of its trader since it attached |
| `Relay.StepQueues` | server/sandbox/relay.go:62-82 | for every channel and step: what is sent is queued with fewer than 64 items unread and dropped with 64; only the writer takes items |
| `Relay.StepRegisters` | server/sandbox/relay.go:58-117 | the stream grows by each event, the newest tick is kept, attaching registers an empty channel, leaving unregisters |
| `Relay.RunBuffered` | server/sandbox/relay.go:93 | after every run at most 64 items are unread, and the tick kept for newcomers is the newest |
| `Relay.DeliveredBelowCapacity` | server/sandbox/relay.go:58-83 | a registered handler whose channel never held 64 unread items holds everything due to it, in order |
| `Relay.RegistrationKept` | server/sandbox/relay.go:95-106 | a registration ends only by its own handler's exit or a newer attach |
| `Relay.Registry.OfferTick` | server/sandbox/relay.go:62-67 | the tick loop offers to each registered channel once, in any order |
| `Relay.Registry.OnEvent` | server/sandbox/relay.go:48-76 | the fan-out's critical sections are one step of the system, from every reachable state |
| `Relay.Registry.OnSendPending` | server/sandbox/relay.go:77-82 | the send outside the lock is one step |
| `Relay.Registry.OnAttach` | server/sandbox/relay.go:93-97 | attaching is one step |
| `Relay.Registry.OnReadLast` | server/sandbox/relay.go:109-111 | so is reading the last tick |
| `Relay.Registry.OnSendLast` | server/sandbox/relay.go:112-117 | and sending it |
| `Relay.Registry.OnReject` | server/sandbox/relay.go:185-191 | and queueing a rate-limit reject |
| `Relay.Registry.OnWrite` | server/sandbox/relay.go:124-134 | and taking the oldest item off the channel |
| `Relay.Registry.OnLeave` | server/sandbox/relay.go:99-106 | exiting is one step, and never removes another's registration |
| `Hub.RunFaithful` | server/ws/hub.go:46-72 | in every run each client's engine messages are a gap-free block of the dequeued stream from registration to removal; its channel is closed once, at removal; the loop never sends on or closes a closed channel |
| `Hub.RemovedStays` | server/ws/hub.go:53-69 | nothing more reaches a removed client |
| `Hub.StepServes` | server/ws/hub.go:53-69 | for every client and step: it is removed exactly by unregistering or by a broadcast with 256 items unread; what is sent is queued below that; a removed client's channel is closed |
| `Hub.RunBuffered` | server/ws/hub.go:61-69 | after every run at most 256 items are unread |
| `Hub.RemovedExactly` | server/ws/hub.go:61-69 | after every run a broadcast removes exactly the clients with 256 unread |
| `Hub.Loop.OnRegister` | server/ws/hub.go:49-50 | registration |
| `Hub.Loop.OnUnregister` | server/ws/hub.go:53-58 | removal closes the channel, only if still registered |
| `Hub.Loop.FanOut` | server/ws/hub.go:61-69 | in whatever order the map yields the clients, those with room get the message and the others are closed and dropped |
| `Hub.Loop.OnBroadcast` | server/ws/hub.go:60-70 | one broadcast step |
| `Manager.NeverAdmittedTwice` | server/sandbox/manager.go:73-102 | no id is admitted twice in any run |
| `Manager.JudgeReasons` | server/sandbox/manager.go:65-89 | each refusal has its own reason, by exact conditions |
| `Manager.IdCharIs` | server/sandbox/manager.go:30 | the characters of an id, one by one |
| `Manager.StatusByName` | server/sandbox/manager.go:73-254 | after every run each entry has the status last written to it, by name: Spawning, Running, Error or Stopped; Spawns in flight and monitors are as the run tells |
| `Manager.RunCounts` | server/sandbox/manager.go:73-254 | admissions and late kills are those of the run |
| `Manager.ActiveBounded` | server/sandbox/manager.go:79-89 | at most five entries are active, plus one for each Stopped that Kill wrote to an entry in flight; so five if that never happens |
| `Manager.CapLeftExactly` | server/sandbox/manager.go:175-178 | one step leaves the cap exactly when Spawn writes Running over an inactive entry while five are active |
| `Manager.LateKillsLeaveCap` | server/sandbox/manager.go:250-254 | the bound is met for every n: with any 5 + n valid ids there is a run with n such kills and 5 + n active entries |
| `Manager.Sandboxes.CountActive` | server/sandbox/manager.go:80-85 | the loop counts the spawning and running entries |
| `Manager.Sandboxes.Reserve` | server/sandbox/manager.go:65-102 | the refusals in the order they are checked, and the reservation of the slot: one step, from every reachable state |
| `Manager.Sandboxes.SetRunning` | server/sandbox/manager.go:175-178 | the end of a Spawn that succeeded is one step |
| `Manager.Sandboxes.SetError` | server/sandbox/manager.go:184-192 | so is the end of one that failed; its entry is still there |
| `Manager.Sandboxes.MonitorStops` | server/sandbox/manager.go:216-223 | and the monitor finding the container gone |
| `Manager.Sandboxes.Kill` | server/sandbox/manager.go:232-258 | and Kill, which fails exactly for an unknown id |
| `Store.TrimKeepsNewest` | server/db/store.go:80-84 | the delete leaves exactly the newest 10000 rows |
| `Store.OrderSorts` | server/db/store.go:90-92 | the outer ordering is sorted by time stamp and id, with the same rows |
| `Store.HistoryUntouched` | server/db/store.go:66-93 | for every interleaving of inserts and trims and every limit from 0 to 10000, history is what it would be on a never-trimmed table |
| `Store.HistoryMeans` | server/db/store.go:86-108 | a history is the raw text of min(limit, rows) rows, the last in the table, each once, by time stamp and id |
| `Store.RowsByAge` | server/db/store.go:80-92 | ids go up along the table in every run, so rows left out have smaller ids |
| `Store.AllInserted` | server/db/store.go:66-69 | the rows ever inserted are the run's ticks, each with its own time stamp and raw text |
| `Store.TrimVisibleExactly` | server/db/store.go:80-93 | after a trim that is so exactly for those limits, unless nothing was trimmed |
| `Store.HistoryInInsertionOrder` | server/db/store.go:86-93 | with time stamps that never go back, it is the last rows in insertion order |
| `Store.Table.StoreTick` | server/db/store.go:57-78 | a tick is one insert step, from every reachable state; a message that does not parse is refused and any other ignored |
| `Store.Table.TrimOldTicks` | server/db/store.go:80-84 | trimming is one step and leaves the newest 10000 of all rows ever inserted |
| `Store.Table.ReadHistory` | server/db/store.go:87-108 | the read loop returns the ordered rows; up to 10000 of them, as if nothing had ever been trimmed |

## Left out

- Protocol.ExtractNumber: `std::stod` is modelled on decimal numerals; hexadecimal, infinity and NaN spellings and range errors are not.
- Protocol.HubRoundTrip: strings are sequences of Unicode characters, so Go's replacement of invalid UTF-8 is not modelled; either spelling of backspace and form feed in the encoder is an escape.
- Events.HeaderExactly: keys are matched exactly, and the nesting limit of Go's decoder is not modelled; the engine's lines are flat with fixed keys, so neither can show.
- Hub.RunFaithful: a pong queued after the channel was closed is outside the step system; the non-blocking drop when the hub's own inbound buffer is full comes before the stream it speaks of.
- Engine.WhaleTrader.Act: tick numbers are unbounded, so 64-bit wrap-around of the schedule is not modelled.
- Ledger.PositionTracker.RecordFill: the 32-bit fill counter is unbounded.
- Floating-point rounding, NaN and infinity: prices and quantities are exact reals.
- Number formatting, `printBook` and the order of a position snapshot: printed numbers are any JSON numbers, and rows come in any order.
- Random generators and their distributions: draws are arbitrary arguments in range.
- Docker calls, script files, container logs, cancellation, cleanup and stream demultiplexing in the sandbox package: only status and channel steps are kept.
- Process launching and restarts in the runner, HTTP handlers, configuration, database errors, WebSocket transport, the command line and the Python SDK.
- The hub's `validateOrder` and the manager's `List` and `Get`: the first only narrows the orders printed, and the statements hold for all of them; the others only copy entries out.
