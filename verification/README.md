# A verified model of the MEXC futures connector

This project models the parts of the connector that hold state across events and proves
what they keep over every run. Classes carry the fields the C++ objects update in place;
each of their methods is proved to change the object exactly as a function says, and the
theorems are about those functions over all histories.

- **WebSocket session** (`WsProtocol`, `WsSpec`, `WsInvariants`, `WsTheorems`, `WsVenue`,
  `WsVitals`, `WsHistory`, `WsBoundaries`, `WsSession`). A step system: one step is one completion handler, one
  posted strand task, or one client call under the lock. The state holds the session's
  fields, the asynchronous operations in progress (each with the generation its handler
  captured), the posted tasks, and the frames queued, handed over and written on the current
  connection. `WsSession.Session` is the object: every handler is a method proved to do what its
  step function says, and `Session.Take` collects them into the step system.
- **Fills** (`FillLedger`): fill events from cumulative volumes, the table of accounted
  volumes, and a consumer that drops fill ids it has seen.
- **Order lane** (`OrderLane`, with `Spacing` for counting time stamps in windows).
- **Conversion** (`Conversion`, `PriceGrid`): base quantities to contracts and back, prices to
  the tick grid.
- **Execution gateway** (`ExecutionGateway`): the object that puts fills, specs, conversion and
  the lane together.
- **HTTP session** (`HttpRetry`): the pool and the retry ladder.
- **Limiter** (`RateLimiter`): the pruned queue against the history of all grants.
- **Pagination** (`Candles`, `FuturesCandles`, `SpotCandles`, `FundingHistory`).

`Common` holds shared vocabulary. `dafny verify dfyconfig.toml` checks everything.

## Assumptions

- Each strand handler is one step. Client calls touch only the topic lists and post a task,
  all under the lock, so they are steps between handlers. Posted tasks run in any order,
  which covers the order in which they were posted.
- `run()` is called once and credentials are set before it. The reconnect timer reports an
  error only after `closeByUser` cancelled it. `is_open()` and clock readings are values a
  step may see; they are not constrained further.
- An inbound frame is given by its meaning; `Unparsable` stands for every JSON exception. A
  topic is its method and an opaque rest.
- What is stored at the venue is what the frames of one connection, in the order queued,
  add and remove. `sub.*` topics are assumed where venue agreement is claimed.
- Claiming a volume and emitting its fill is one step; the contract size of a symbol is
  fixed over a ledger history, and all reports of an order name one symbol (`OneSymbol`).
  Nothing is assumed of the volumes: `FillConservation` says for which histories they add up.
- The ping timer's wait reports an error only when it was cancelled; `WsHistory.HeartbeatGoesOn` alone
  relies on it.
- A throttle answer means the venue did not act on the request. A limiter's clock does not
  go back (the source reads the system clock); the lane's clock is steady.
- Quantities, volumes and prices are exact reals. Times are integers, in the source's units.
- Venues answer pages as `Serves` in each pagination module says.

## Where the code differs from its comments

- `isAuthenticated()` is documented as always false while reconnecting
  (`include/stonky/mexc/mexc_futures_ws_session.h:79-83`). A login read that had completed before the error
  can still raise it: `WsBoundaries.FlagWhileReconnecting` says exactly when, and
  `FlagWhileReconnectingReached` gives a run.
- "never round an order UP" (`src/mexc_execution_gateway.cpp:560`) holds for whole units, not for the
  rounding to whole contracts before it: six tenths of a contract are sent as one
  (`Conversion.SixTenthsGrow`). `Conversion.GrowsIff` says exactly when an order grows. The slack
  itself rounds some volume up as soon as a unit reaches 10^9 contracts (`SlackHarmlessIff`).
- Accepted fills can exceed the highest volume processed: a report lost before a terminal event
  and delivered after it is credited twice (`FillLedger.LateUnseenVolumeOvercounts`), and
  `FillLedger.FillConservation` says exactly when. They never fall short of it.
- The spot pagination comment says candles are returned forward from the start time
  (`src/mexc_spot_rest_client.cpp:155`); the loop is exact only for a venue that returns the newest of the
  window, which is the contract used. Its first page of a large range is requested without a
  start: when the range holds less than a page and the venue has candles before it, the venue's
  newest page comes back instead of the range (`SpotCandles.GetHistoricalPrices`, by
  `ReachesBack`). `LoneCandleReachesBack` is an input: one candle at 0, asked for 1 to 100000000 ms.
- An interval outside the enumeration counts as 0 ms (`src/mexc.cpp:34-35`), and the spot loop
  then requests the same page for ever: `SpotCandles.UnknownIntervalRepeats`.
- The comment on the stale retry says "on a fresh connection"
  (`src/mexc_http_futures_session.cpp:302-303`); the code may take another pooled one, so freshness is not claimed.

## Model

| member | source | states |
|---|---|---|
| WsProtocol.UnsubscribeUndoesSubscribe | src/mexc_futures_ws_session.cpp:42-53 | the frame made from a `sub.*` topic removes exactly that topic at the venue, and subscribing then unsubscribing leaves it out |
| WsProtocol.DeliverMessages | src/mexc_futures_ws_session.cpp:193-217 | a batch of subscribe frames adds exactly the batch to the venue's set |
| WsInvariants.StepInv | src/mexc_futures_ws_session.cpp:124-615 | every step keeps all whole-machine invariants (phases, frames, login gate, lists, no topic forgotten), and changes the joined topic lists only as the client call says |
| WsInvariants.StepOnward | src/mexc_futures_ws_session.cpp:124-615 | no step lowers the generation or reopens a closed session; only reading a login ack records one and lets the flag rise; scheduling a reconnect lowers the flag; only client calls post tasks |
| WsTheorems.ReachableInv | src/mexc_futures_ws_session.cpp:124-671 | the invariants hold after every possible run |
| WsTheorems.TopicsAreOneOrderedSet | src/mexc_futures_ws_session.cpp:161-217 | over every interleaving, subscriptions followed by pending topics is the insertion-ordered duplicate-free list that the client calls alone describe; flushes, errors and reconnects leave it unchanged |
| WsTheorems.NeverStuckNeverDoubled | src/mexc_futures_ws_session.cpp:243-438 | once started and until closed, exactly one of: a connect operation in progress, connected with a read in progress, a reconnect scheduled with its timer running; nothing of a generation is in progress twice |
| WsTheorems.FramesInOrder | src/mexc_futures_ws_session.cpp:119-157 | at most one write and one ping wait per generation; what was written, the frame in flight and the queue are together the frames queued, in order; both are empty while not connected |
| WsTheorems.OldOperationsOnlyEnd | src/mexc_futures_ws_session.cpp:124-615 | over every run no operation of a passed generation is started again, and completing one that is left changes nothing else |
| WsTheorems.ClosedForGood | src/mexc_futures_ws_session.cpp:243-246 | after the user closed the session no run starts a generation or sets connected |
| WsTheorems.AckWasRead | src/mexc_futures_ws_session.cpp:467-482 | a recorded ack generation is one in which the run really read a login ack |
| WsTheorems.NoSubscriptionBeforeLoginAck | src/mexc_futures_ws_session.cpp:195-198 | with credentials a connection's first frame is the login; no `sub.*` frame is queued, in flight or written, and the flag is not raised, before the login ack of that same connection was read |
| WsTheorems.NoFrameIsStranded | src/mexc_futures_ws_session.cpp:119-157 | while the stream reports open, every queued frame of a connected session has a write in progress ahead of it |
| WsTheorems.NoTopicIsForgotten | src/mexc_futures_ws_session.cpp:629-634 | a topic waiting while it could be sent has a flush posted |
| WsTheorems.SilenceIsNoticed | src/mexc_futures_ws_session.cpp:500-526 | the heartbeat judges by the recorded time of the last sign of life (which `WsHistory.HeardLast` ties to the run); when it gives up, all topics are pending and the reconnect timer runs, otherwise one ping is queued and the wait goes on |
| WsVitals.StepVitals | src/mexc_futures_ws_session.cpp:124-615 | flags and times move on their own: every step of the session projects onto a small machine without queues, lists and operations |
| WsHistory.HeardLast | src/mexc_futures_ws_session.cpp:358-359 | over every run, from the steps alone: the generation counts the connects begun, closed means a posted close has run, and the recorded time is that of the last pong frame, pong message of the current connection, or coming up |
| WsHistory.LoginDeadline | src/mexc_futures_ws_session.cpp:236 | a connected session waiting for its login ack waits until exactly 15 s after it came up |
| WsHistory.GivenUpExactly | src/mexc_futures_ws_session.cpp:530-547 | after every run of an open session, a step schedules a reconnect exactly when a current operation fails, a frame is not JSON or refuses the login, or the heartbeat finds nothing heard for 41 s or no ack 15 s after coming up |
| WsHistory.AllFourStages | src/mexc_futures_ws_session.cpp:263-358 | a connection has behind it resolve, connect, TLS and WebSocket handshake of its own generation, each begun when the one before had completed |
| WsHistory.WaitsBackOff | src/mexc_futures_ws_session.cpp:565-567 | the n-th reconnect scheduled since the last proof of life, counted on the steps, waits 1, 2, 4, 8, 16, 30, 30, ... s |
| WsHistory.HeartbeatGoesOn | src/mexc_futures_ws_session.cpp:361-362 | while connected and open the heartbeat is always waiting to go off |
| WsHistory.LoginFirst | src/mexc_futures_ws_session.cpp:221-239 | the first frame of a connection with credentials is the login, stamped with the time it came up |
| WsHistory.CloseStartsHandshake | src/mexc_futures_ws_session.cpp:584-615 | the first close that runs closes the session, and starts the close handshake exactly when the stream is open and no write is in flight |
| WsTheorems.BackoffDoublesToThirty | src/mexc_futures_ws_session.cpp:565-567 | reconnect delays are 1, 2, 4, 8, 16, 30, 30, ... by the number of failures since the last proof of life |
| WsVenue.AgreementStep | src/mexc_futures_ws_session.cpp:193-217 | a step breaks agreement between the venue and the session if and only if it flushes a topic whose unsubscribe task is still posted |
| WsVenue.AgreementIffNoRacingFlush | src/mexc_futures_ws_session.cpp:124-650 | over a whole run, reconnects included, venue and session agree in every state if and only if no such flush happens |
| WsVenue.VenueAgreement | src/mexc_futures_ws_session.cpp:124-650 | if no topic is re-added while its unsubscribe task is posted: in every connected, not closed state the venue holds exactly `subscriptions` once the in-flight, queued and posted work is delivered |
| WsBoundaries.ReaddedTooEarly | src/mexc_futures_ws_session.cpp:636-650 | a run in which a topic re-added too early stays listed while the venue has dropped it |
| WsBoundaries.FlagWhileReconnecting | src/mexc_futures_ws_session.cpp:467-480 | the flag comes to be raised with a reconnect scheduled exactly at the step that reads a late login ack |
| WsBoundaries.FlagWhileReconnectingReached | src/mexc_futures_ws_session.cpp:530-547 | and a run reaches it |
| WsSession.Session.Take | src/mexc_futures_ws_session.cpp:124-676 | the object takes any possible step exactly as the step system says, keeping the invariants and the ordered topic set |
| WsSession.Session.Remove | src/mexc_futures_ws_session.cpp:175-185 | removes a topic from both lists and reports whether it had been sent |
| WsSession.Session.FlushPending | src/mexc_futures_ws_session.cpp:195-217 | moves pending topics behind the subscriptions and queues one frame each, only when logged in if needed |
| WsSession.Session.RequeueSubscriptions | src/mexc_futures_ws_session.cpp:553-557 | the reverse loop puts all subscriptions, in order, in front of the pending topics |
| FillLedger.SoundAlways | src/mexc_execution_gateway.cpp:270-281 | on every history, whatever the venue repeats: the highest volume was emitted, ids seen are positive and at most it, and the table equals it until a terminal event |
| FillLedger.ConservedStep | src/mexc_execution_gateway.cpp:382-402 | a report keeps accepted fills equal to the highest volume times contract size if and only if it is not an unseen volume above a dropped entry |
| FillLedger.FillConservation | src/mexc_execution_gateway.cpp:265-402 | over every history of duplicates, losses, erased entries and REST reconciliation: accepted fills equal the highest cumulative volume times contract size after every report, if and only if no report overcounts (an unseen volume above a dropped entry) |
| FillLedger.RepeatingVenueConserves | src/mexc_execution_gateway.cpp:395-402 | a venue that only repeats known volumes after an order's end never overcounts |
| FillLedger.FillsPrecedeState | src/mexc_execution_gateway.cpp:377-442 | on every history, late volumes included: when an update goes out, or a gone order was reconciled, at least the volume it reports is already accepted |
| FillLedger.OtherOrderUntouched | src/mexc_execution_gateway.cpp:265-281 | a report of one order leaves every other order's books as they were |
| FillLedger.UpdateTells | src/mexc_execution_gateway.cpp:409-442 | an event of a known state is told with its own ids, price and base volume: filled iff completed, cancelled iff cancelled without code 20, rejected iff invalid or code 20, with the kind of each error code |
| FillLedger.FillCredits | src/mexc_execution_gateway.cpp:382-393 | there is a fill exactly for a positive volume above the one accounted, for the difference in base units, at the average deal price if there is one |
| FillLedger.LateUnseenVolumeOvercounts | src/mexc_execution_gateway.cpp:395-402 | a history of two reports in which a late volume is credited twice |
| OrderLane.DeadlinesGrow | src/mexc_execution_gateway.cpp:214-226 | over every history neither deadline is ever below an earlier value |
| OrderLane.LaneHistory | src/mexc_execution_gateway.cpp:186-231 | over all histories: holds never overlap; starts are 1250 ms apart (at most w/1250+1 in a window); after a request that ended throttled no start falls within 5, 10, 20 or 30 s, by the throttles since the last success; and the next attempt is granted exactly when the lane is free, 1250 ms have passed since the last start and every such penalty is over |
| OrderLane.SharedLane.TryAcquireLane | src/mexc_execution_gateway.cpp:197-216 | busy while held, cooling before the one deadline, pacing before the other, else held with the next start 1250 ms away |
| OrderLane.SharedLane.ExtendCooldownAfterThrottle | src/mexc_execution_gateway.cpp:220-227 | the streak goes up to four, and both deadlines to at least 5, 10, 20 or 30 s from now |
| OrderLane.SharedLane.EndRequest | src/mexc_execution_gateway.cpp:575-596 | success clears the streak, a throttle extends the cooldown, and the lane is freed |
| Conversion.UnitsExact | src/mexc_execution_gateway.cpp:559-561 | floor with slack is exact integer division, plus one exactly where the slack tips |
| Conversion.RoundHalf | src/mexc_execution_gateway.cpp:558 | halves are rounded away from zero |
| Conversion.SlackHarmlessIff | src/mexc_execution_gateway.cpp:559-561 | the slack never rounds any volume up if and only if the unit is below 10^9 |
| Conversion.VolumeOnGrid | src/mexc_execution_gateway.cpp:558-561 | the volume is a multiple of the unit, less than one unit below the rounded quantity, and at most it exactly when the slack does not tip |
| Conversion.GrowsIff | src/mexc_execution_gateway.cpp:558-561 | for every unit: an order grows exactly when the slack tips or rounding to whole contracts went up and hit a whole unit; below 10^9 by at most half a contract |
| Conversion.SixTenthsGrow | src/mexc_execution_gateway.cpp:558 | an input for which it grows |
| Conversion.StepsConvert | src/mexc_execution_gateway.cpp:482-488 | k quantity steps become exactly k units of contracts |
| Conversion.RoundTripIff | src/mexc_execution_gateway.cpp:388 | contracts times contract size give the quantity back if and only if it is a whole number of steps |
| PriceGrid.DecimalsOf | src/mexc_execution_gateway.cpp:50-64 | the loop returns the first scale, up to 12, at which some integer is within 10^-9, and 8 for a step that is not positive |
| PriceGrid.FirstNear | src/mexc_execution_gateway.cpp:58-63 | no smaller scale is nearly whole |
| PriceGrid.TickDecimals | src/mexc_execution_gateway.cpp:50-64 | for a tick that is a multiple of 10^-8: the least d with tick*10^d whole, and d <= 8 |
| PriceGrid.KeptIff | src/mexc_execution_gateway.cpp:70-72 | rounding to decimals leaves a value alone exactly when it has no more decimals |
| PriceGrid.RoundedNear | src/mexc_execution_gateway.cpp:70-72 | rounding moves a value by at most half a unit of the last place kept, onto that place |
| PriceGrid.UntickedPrice | src/mexc_execution_gateway.cpp:551-556 | without a tick the price only goes to the decimals kept |
| PriceGrid.GridKeptIff | src/mexc_execution_gateway.cpp:499 | rounding leaves every tick multiple alone if and only if at least that many decimals are kept |
| PriceGrid.SnappedPrice | src/mexc_execution_gateway.cpp:552-556 | the submitted price is a tick multiple within half a tick, and snapping it again changes nothing |
| ExecutionGateway.LookedKeepsSync | src/mexc_execution_gateway.cpp:471-517 | lookups, refreshes and refetches keep sizes and units positive and every cached spec equal to the parameters in use |
| ExecutionGateway.LookedAnswers | src/mexc_execution_gateway.cpp:480-506 | for a symbol not cached the first matching contract is put in use, with its spec in base units and no other symbol touched, or nothing changes |
| ExecutionGateway.LearnGivesTick | src/mexc_execution_gateway.cpp:492-500 | a well-described contract leaves a tick that the decimals kept can express |
| ExecutionGateway.OrdersOnGrid | src/mexc_execution_gateway.cpp:536-573 | every order sent, limit or market, has a positive whole-unit volume, not above the rounded quantity for units below 10^9 |
| ExecutionGateway.RequestsAsAsked | src/mexc_execution_gateway.cpp:342-347 | a buy lengthens the position and a sell shortens it, an order reduces exactly when asked to (a market order always), under the id, symbol and type asked for |
| ExecutionGateway.CachedStepsConvert | src/mexc_execution_gateway.cpp:482-501 | a quantity of k steps of the cached spec is sent as k units, and a full fill credits exactly that quantity |
| ExecutionGateway.LimitPriceOnTick | src/mexc_execution_gateway.cpp:552-556 | a limit price is on the tick, at most half a tick off, and resubmitting it gives the same request |
| ExecutionGateway.StreamFeedsConsumer | src/mexc_execution_gateway.cpp:366-443 | over every history the stream of deliveries alone rebuilds the ledger's consumer |
| ExecutionGateway.UpdateAfterItsFills | src/mexc_execution_gateway.cpp:377-442 | on every history: an update comes last for its event, what was accepted from the stream before it covers the volume it reports, and an update that ends the order has dropped its entry |
| ExecutionGateway.Gateway.NewlyFilled | src/mexc_execution_gateway.cpp:270-281 | returns and claims what is new; a lookup creates a missing entry |
| ExecutionGateway.Gateway.OnOrderEvent | src/mexc_execution_gateway.cpp:366-443 | delivers first the fill for a volume not accounted before, then the update for a known state, each field by field; table and consumer move as the ledger says; events without a client id change nothing |
| ExecutionGateway.Gateway.ReconcileMissedFills | src/mexc_execution_gateway.cpp:299-329 | REST truth is credited through the same ledger step; a failed query changes nothing |
| ExecutionGateway.Gateway.InstrumentSpecFor | src/mexc_execution_gateway.cpp:471-507 | a cached spec as it is, else the venue's first matching contract is stored, else failure with nothing changed |
| ExecutionGateway.Gateway.RefreshInstruments | src/mexc_execution_gateway.cpp:509-517 | empties the cache and keeps the last-known parameters |
| ExecutionGateway.Gateway.RefetchSpecAfterPrecisionReject | src/mexc_execution_gateway.cpp:599-618 | only a precision reject drops and refetches the symbol's spec |
| ExecutionGateway.Gateway.SubmitPostOnlyLimit | src/mexc_execution_gateway.cpp:536-597 | refused as hard before the lane is touched, refused locally without a request, or exactly one request sent, on the side asked for, with the lane told of its success or throttle, and the spec refetched after a precision reject only |
| ExecutionGateway.Gateway.SubmitReduceOnlyMarket | src/mexc_execution_gateway.cpp:650-692 | the same for a reduce-only market order |
| ExecutionGateway.Gateway.Cancel | src/mexc_execution_gateway.cpp:624-648 | reports an order gone only after REST's volume was credited or the query failed; every other outcome leaves the books alone |
| HttpRetry.TakeFindsLastFresh | src/mexc_http_futures_session.cpp:63-78 | a connection is handed out exactly when one is idle for at most 25 s, the last such; only aged ones are dropped on the way |
| HttpRetry.GivenBackIsNext | src/mexc_http_futures_session.cpp:63-87 | a connection returned to a pool of fewer than four is the next handed out for 25 s, and taking it restores the pool |
| HttpRetry.PostExecutesAtMostOnce | src/mexc_http_futures_session.cpp:254-321 | every POST attempt but the last was throttled or never sent, so the venue acts at most once, and never if the call ends throttled or unsent |
| HttpRetry.GetRepeatsOnce | src/mexc_http_futures_session.cpp:299-310 | a GET repeats an unanswered write at most once, and then only on a reused connection |
| HttpRetry.LadderAccounts | src/mexc_http_futures_session.cpp:263-321 | at most 5 attempts for POST and 6 for GET, a fresh signature for each, and giving up on a throttle only after 5 |
| HttpRetry.CallPausesAtMost | src/mexc_http_futures_session.cpp:295-319 | a call pauses for at most 10500 ms |
| HttpRetry.ExhaustedLadder | src/mexc_http_futures_session.cpp:287-319 | the bound is reached: five throttles pause exactly 10500 ms, five failed connects 7500 ms |
| HttpRetry.HttpSession.TakeConn | src/mexc_http_futures_session.cpp:63-78 | pops as specified |
| HttpRetry.HttpSession.ReturnConn | src/mexc_http_futures_session.cpp:80-87 | keeps at most four connections |
| HttpRetry.HttpSession.PerformOnce | src/mexc_http_futures_session.cpp:223-252 | reports whether the request left the socket and whether the connection was reused; the connection is back in the pool only after an answer that keeps it alive |
| HttpRetry.CallFollowsWire | src/mexc_http_futures_session.cpp:263-321 | a call told by the wire alone: each logged attempt says what happened to it and its pause, an attempt is followed by another exactly when it was refused, never sent, or (a GET, once) lost on a reused connection, and the caller gets what became of the last |
| HttpRetry.HttpSession.Request | src/mexc_http_futures_session.cpp:212-322 | the loop runs exactly the ladder and follows the wire, takes one limiter grant per attempt, and its pauses add up |
| RateLimiter.WindowRefinesHistory | src/mexc_futures_rest_client.cpp:32-57 | with any number of waiters the pruned queue is exactly the grants of the full history aged at most a second; at most 6 in any closed second and 6*(w/1001+1) in length w |
| RateLimiter.GrantedUnlessOvertaken | src/mexc_futures_rest_client.cpp:52-55 | a sleep is 1 to 1010 ms; after it a waiter is granted unless another was granted meanwhile, and up to 10 ms before its end it would still be refused |
| RateLimiter.Limiter.TryGrant | src/mexc_futures_rest_client.cpp:40-52 | one pass of the locked section: prune, then grant or name the sleep |
| RateLimiter.Limiter.WaitAlone | src/mexc_futures_rest_client.cpp:32-57 | a lone waiter is granted exactly once, after at most one sleep |
| Candles.BackwardPage | src/mexc_futures_rest_client.cpp:281-305 | the newest page taken off a range leaves what opens before it, whatever bound lies in the gap |
| FuturesCandles.GetHistoricalPrices | src/mexc_futures_rest_client.cpp:268-314 | ends and returns all venue candles in range, ascending, minus the newest; the batches in reverse are the full range if and only if start is below end or the range is empty |
| SpotCandles.IntervalMs | src/mexc.cpp:12-37 | the minutes each interval is named after, an unknown one no time |
| SpotCandles.GetHistoricalPrices | src/mexc_spot_rest_client.cpp:136-201 | for any orderly venue it ends, strictly ascending, batches consistent; for a served grid it is exactly the range asked for if and only if the range does not reach back (too long for one request, less than a page in it, candles before it), and otherwise the venue's newest page |
| SpotCandles.OvershootsIff | src/mexc_spot_rest_client.cpp:155-166 | the first page begins before the start exactly when the venue's data reaches back |
| SpotCandles.LoneCandleReachesBack | src/mexc_spot_rest_client.cpp:158-162 | an input for which it does |
| SpotCandles.UnknownIntervalRepeats | src/mexc_spot_rest_client.cpp:186-196 | with an unknown interval a page's oldest candle is requested again and again |
| SpotCandles.GridToTheEndIsExact | src/mexc_spot_rest_client.cpp:155-166 | no range reaches back when the grid comes to within one interval of its end |
| FundingHistory.GetHistoricalFundingRates | src/mexc_futures_exchange_connector.cpp:235-275 | ends and returns exactly the venue's rates that settle in the range, strictly ascending, reading no page after the first that ends the history or ends before the start |
| FundingHistory.StoppedComplete | src/mexc_futures_exchange_connector.cpp:257-264 | wherever the loop stops, no later page holds a wanted rate |
| FundingHistory.SortByTime | src/mexc_futures_exchange_connector.cpp:269-272 | a sorted permutation |
| FundingHistory.SortedRises | src/mexc_futures_exchange_connector.cpp:269-272 | distinct settle times sorted are strictly ascending, with the same rates |

## Left out

- How long the ping timer waits (15 s): the heartbeat may go off at any time.
- Sockets, TLS, DNS, HMAC signing, real threads and sleeping: only outcomes and clock readings are kept.
- JSON parsing and field reading; `classifyReject` and `isOrderGoneReason` text tables; the match on the throttle code in a body: their verdicts are inputs.
- A second `run()` on one session: it would start a connection without moving `subscriptions` back to pending.
- Sessions whose topics are not `sub.*`: venue agreement is not claimed for them; every other session theorem holds.
- The spot client's own limiter: it records the time before the sleep and does not check again, so no window bound holds for it.
- Threads that split a claim from its fill callback, and a contract size that changes while fills of an order are outstanding.
- Floating-point rounding, and ticks that are not multiples of 10^-8 in `PriceGrid.TickDecimals`.
- SpotCandles.GetHistoricalPrices: an interval outside the enumeration, with which the loop need not end, is excluded.
- ExecutionGateway.Gateway.Cancel: the venue's answer to the cancel itself is an input; that the order is really gone is not modelled.
- FundingHistory.SortByTime: an insertion sort stands for the library's sort; only its contract is used.
- HttpRetry.HttpSession.PerformOnce: what other requests do to the pool meanwhile is given by the attempt, in two places (before taking, before returning).
- OrderLane.SharedLane.EndRequest: the cooldown is extended and the lane freed at one time stamp; the source frees it slightly later.
- `start()`, quotes, ticker and kline caches, stream managers, `placeOrder` field mapping, account calls.
- Months of other than 30 days in the spot grid.
