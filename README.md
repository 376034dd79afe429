# Trade-cost simulator core, modelled in Dafny

This project models the core of a trade simulator that streams a live
limit-order book per symbol and turns each tick into cost estimates. It
covers the following parts:

- **Fee lookup** (`FeeModel`). A static table of three tiers, each with a
  maker and a taker rate. The fee is price × quantity × the selected rate.
  An unknown tier fails the way the Python `ValueError` does.
- **Slippage** (`SlippageModel`). Coefficient × spread × quantity. The
  coefficient is 1.0 unless the optional parameter dictionary names one.
- **Market impact** (`MarketImpactModel`). The Almgren–Chriss style sum of
  temporary impact, permanent impact and a risk term. The exponents are
  natural numbers.
- **Latency timer** (`Latency`). A class with one mutable timestamp. The
  clock reading is passed to the constructor and to `Tick`.
- **Streaming ingestion** (`WebSocketClient`). This covers:
  - the capacity-1 per-symbol queue (`Slot`);
  - the get-or-create registry `orderbook_queues` (`Registry`);
  - the idempotent start of listener threads by name (`ListenerManager`);
  - the reconnect loop of `_ws_listener` as a phase machine driven by a
    trace of await results.
- **Per-tick pipeline** (`App`). This covers:
  - taking at most one tick from the slot;
  - rejecting an empty book;
  - deriving mid price, spread and base quantity;
  - computing the three costs and the net cost;
  - ticking the timer on the success path only.

All arithmetic is over Dafny's `real`. Prices, sizes and user inputs are
taken as already parsed reals.

Where the code and its comments disagree, the model follows the code:

- **Drop-on-full slot.** The comments at `websocket_client.py:12,14` say
  only the newest tick is kept. The code does `put(block=False)` and
  swallows `Full` (`websocket_client.py:44-47`), so a full slot DROPS the
  new tick and keeps the older unread one. `Offer`, `OfferAllKeepsOldest`,
  `KeepsOlderTick` and `UnreadTickKept` state this.
- **Bad frames reconnect.** A frame that `json.loads` rejects raises
  inside the read loop. The outer handler catches it, sleeps and
  reconnects. The bad frame is not simply skipped on the same connection
  (`DecodeFailureReconnects`).
- **Errors escape the callback.** A zero mid price raises
  `ZeroDivisionError` at `app.py:115`, before the fee table is consulted.
  An unknown tier then raises `ValueError` at `app.py:117`. Neither is
  caught, so the callback ends with the exception (`Raised`), not with
  `PreventUpdate`. The tick has already been consumed, and the timer is
  not ticked.
- **Missing imports.** `app.py` imports `orderbook_queue` and
  `run_listener_in_thread`, which `websocket_client.py` does not define.
  The model passes the consumer's slot to `UpdateMetrics` instead.

## Model

| member | source | states |
|---|---|---|
| FeeModel.CalculateFee | utils/fee_model.py:12-31 | fails with the unknown tier exactly when the tier is not in the table; otherwise price × quantity × the taker rate when `isTaker`, the maker rate when not |
| FeeModel.TableShape | utils/fee_model.py:6-10 | the table has exactly the keys Tier 0, Tier 1 and Tier 2, and in each tier 0 ≤ maker rate < taker rate |
| FeeModel.FeeNonNegative | utils/fee_model.py:6-31 | for non-negative price and quantity and a known tier, the fee succeeds, is non-negative, and the maker fee is at most the taker fee |
| FeeModel.DefaultIsTaker | utils/fee_model.py:16 | leaving out the flag gives the taker fee |
| FeeModel.ConcreteFees | tests/test_utils.py:7-23 | 100 × 2 in Tier 0 costs 0.40 as taker and 0.20 as maker; "InvalidTier" fails |
| SlippageModel.HasCoefficient | models/slippage_model.py:17 | the test `model_params and 'coefficient' in model_params` holds exactly when a dictionary is given and has the key |
| SlippageModel.Coefficient | models/slippage_model.py:16-18 | the dictionary's "coefficient" entry when it has one (such a dictionary is always truthy), else 1.0 |
| SlippageModel.EstimateSlippage | models/slippage_model.py:4-19 | the supplied coefficient × spread × quantity when the dictionary names one, else spread × quantity |
| SlippageModel.DefaultCoefficientApplies | models/slippage_model.py:16-17 | no dictionary, an empty one, or one without "coefficient" all give the default result |
| SlippageModel.OtherKeysIgnored | models/slippage_model.py:17-18 | setting any key other than "coefficient" leaves the estimate unchanged |
| SlippageModel.SlippageLinear | models/slippage_model.py:19 | the estimate scales linearly with spread and with quantity; a zero spread or zero quantity gives 0 |
| SlippageModel.ConcreteSlippage | tests/test_models.py:9-16 | (0.1, 10) gives 1.0 by default; (0.2, 5) with coefficient 2.5 gives 2.5 |
| MarketImpactModel.Pow | models/market_impact_model.py:30-32 | a natural power of a non-negative base is non-negative; a positive power of 0 is 0; the first power is the base |
| MarketImpactModel.AlmgrenChrissImpact | models/market_impact_model.py:4-35 | needs a non-zero horizon; for T > 0 and non-negative quantity, η, γ and λ the impact is ≥ 0; a zero quantity with α, β ≥ 1 gives 0 |
| MarketImpactModel.TemporaryImpact | models/market_impact_model.py:30 | η·(q/T)^α is ≥ 0 for T > 0 and non-negative q and η; it is 0 for q = 0 when α ≥ 1, η·q/T at α = 1, and η at α = 0 |
| MarketImpactModel.PermanentImpact | models/market_impact_model.py:32 | γ·(q/T)^β has the same facts for β and γ |
| MarketImpactModel.RiskTerm | models/market_impact_model.py:34 | the variance penalty is ≥ 0 for T > 0 and λ ≥ 0, whatever the signs of q and σ; it is 0 when q, σ or λ is 0 |
| MarketImpactModel.LinearExponents | models/market_impact_model.py:30-34 | with α = β = 1: temporary = η·q/T, permanent = γ·q/T, and the impact is (η+γ)·q/T + 0.5·λ·σ²·q²/T |
| MarketImpactModel.ConcreteImpact | tests/test_models.py:19-43 | q = 10, T = 2, α = β = 1, γ = η = 1, σ = 2, λ = 0.5 gives terms 5, 5 and 50, total 60 |
| Latency.ElapsedMs | utils/latency_timer.py:20 | the milliseconds between two readings are non-negative exactly when the clock did not go back, and zero exactly when the readings are equal |
| Latency.LatencyTimer.constructor | utils/latency_timer.py:10-11 | the stored timestamp is the clock reading at construction |
| Latency.LatencyTimer.Tick | utils/latency_timer.py:13-22 | returns (now − stored timestamp) × 1000, then stores `now` |
| Latency.LatenciesTelescope | utils/latency_timer.py:19-21 | consecutive tick results sum to (last reading − construction reading) × 1000 |
| Latency.LatenciesNonNegative | utils/latency_timer.py:19-20 | with a clock that never goes back, every tick result is ≥ 0 |
| Latency.TickAll | utils/latency_timer.py:13-22 | ticking one timer at each reading in turn returns `Latencies` of its stored reading and leaves the last reading stored |
| Latency.TimedRun | utils/latency_timer.py:10-21 | for any number of ticks on a new timer, the results sum to (last reading − construction reading) × 1000 and none is negative when the clock never goes back |
| Latency.TwoTicks | utils/latency_timer.py:19-21 | of two ticks on one timer, the second measures from the first one's reading; the two add up to the time since construction |
| Latency.TenSecondTick | tests/test_utils.py:26-38 | a timer built at 100 and ticked at 110 reports 10000 ms |
| WebSocketClient.Offer | websocket_client.py:44-47 | a put on an empty slot stores the stamped tick; a put on a full slot leaves the slot unchanged; the slot never exceeds one item |
| WebSocketClient.OfferAllKeepsOldest | websocket_client.py:44-47 | of any burst of ticks with no read between, an empty slot keeps the first one, and a full slot keeps what it had |
| WebSocketClient.Slot.constructor | websocket_client.py:20 | a new queue is empty and within its capacity of 1 |
| WebSocketClient.Slot.PutNowait | websocket_client.py:45-47 | reports full exactly when the slot already holds an item; otherwise appends the item |
| WebSocketClient.Slot.GetNowait | app.py:99-102 | returns and removes the held item, or reports empty; afterwards the slot is empty |
| WebSocketClient.Publish | websocket_client.py:44-47 | the listener's put with `Full` ignored never fails and leaves the slot as `Offer` says |
| WebSocketClient.KeepsOlderTick | websocket_client.py:44-47 | after ticks T1 then T2 with no read between, the next read returns T1 and the one after finds the slot empty |
| WebSocketClient.Registry.constructor | websocket_client.py:15 | the registry starts empty |
| WebSocketClient.Registry.GetOrderbookQueue | websocket_client.py:17-21 | an existing symbol's slot is returned with the registry unchanged; a new symbol gains a fresh empty slot under exactly that key; other entries are unchanged; no two symbols share a slot |
| WebSocketClient.GetTwice | websocket_client.py:17-21 | two calls for one symbol return the same slot; the second changes nothing, so the pair has the effect of one call (a new symbol gains one fresh empty slot) |
| WebSocketClient.ThreadName | websocket_client.py:63 | the thread name is "ws-" followed by the symbol: prefix, suffix and length |
| WebSocketClient.FeedUri | websocket_client.py:62 | the endpoint is the feed base URI followed by the symbol: prefix, suffix and length |
| WebSocketClient.ThreadNameInjective | websocket_client.py:63-64 | two symbols have the same thread name exactly when they are the same symbol |
| WebSocketClient.ListenerManager.constructor | websocket_client.py:64 | the manager starts from the process's running thread names, with no listeners of its own |
| WebSocketClient.ListenerManager.RunListenerForSymbol | websocket_client.py:57-71 | gets or creates the slot (an existing symbol leaves the registry unchanged; a new one gains a fresh empty slot under that key only); starts a listener on the symbol's URI and slot exactly when no running thread has the name `ws-{symbol}`; afterwards a thread of that name runs |
| WebSocketClient.SubscribeTwice | websocket_client.py:57-71 | a second start for the same symbol starts nothing |
| WebSocketClient.Raises | websocket_client.py:40-50 | only the connect and the read raise, never the back-off sleep or a successful connect; an undecodable frame raises exactly while reading |
| WebSocketClient.Step | websocket_client.py:32-50 | a successful connect leads to reading; a failed connect, a lost connection or an undecodable frame leads to back-off; the end of the back-off leads to a new connection attempt; a decoded frame is offered to the slot paired with its receipt time; only that changes the slot |
| WebSocketClient.Run | websocket_client.py:32-50 | along any trace of events the slot holds at most one item |
| WebSocketClient.NoExit | websocket_client.py:32-50 | from every phase, the failure of its await followed by the end of the back-off returns to a connection attempt with the slot untouched |
| WebSocketClient.DecodeFailureReconnects | websocket_client.py:40-50 | an undecodable frame ends the connection: back-off, then reconnect, with the slot untouched |
| WebSocketClient.RetriesForever | websocket_client.py:32-50 | after any number n of consecutive failed attempts, the listener is again attempting to connect |
| WebSocketClient.UnreadTickKept | websocket_client.py:40-47 | while a tick sits unread, no trace of events changes the slot |
| WebSocketClient.ConnectThenFrameStored | websocket_client.py:34-45 | connecting and then receiving one decoded frame stores that frame with its receipt time in an empty slot |
| WebSocketClient.FirstFrameStored | websocket_client.py:41-45 | when an empty slot gets filled, it holds one decoded frame of the trace paired with that frame's receipt time |
| WebSocketClient.Listen | websocket_client.py:23-50 | the listener loop run over a finite trace ends in the phase and slot contents that `Run` gives |
| App.Usable | app.py:104-107 | the book is usable exactly when neither side is empty |
| App.BestBid | app.py:109 | the first bid level's price; on a feed listing the best level first it is the highest bid |
| App.BestAsk | app.py:110 | the first ask level's price; on a feed listing the best level first it is the lowest ask |
| App.MidPrice | app.py:109-111 | the mid price is half a spread from each best price, so it lies between them on an uncrossed book |
| App.Spread | app.py:109-112 | the spread (best ask − best bid) is non-negative exactly when the book is not crossed |
| App.ComputeCosts | app.py:109-129 | a zero mid price raises division by zero; otherwise an unknown tier raises the fee error. On success: slippage, taker fee and impact are computed at base quantity `quantityUsd / mid` with T = 1, α = β = 1, γ = η = 0.05, λ = 0.001, and net cost is their sum |
| App.SlippageInQuoteTerms | app.py:112-115 | the slippage is spread × dollar quantity / mid price |
| App.FeeOnDollarQuantity | app.py:111-117 | the fee is the dollar quantity × the tier's taker rate |
| App.ImpactAtFixedParameters | app.py:119-128 | the impact on base quantity q is 0.1·q + 0.0005·σ²·q² |
| App.NetCostNonNegative | app.py:109-129 | on an uncrossed book with positive mid and non-negative dollar quantity, each cost and the net cost are ≥ 0 |
| App.Evaluate | app.py:99-136 | an empty slot or an empty side prevents the update; a cost error yields `Raised` with that error, never `PreventUpdate`; otherwise the metrics are the computed costs, with the latency since the timer's last reading |
| App.UpdateMetrics | app.py:97-136 | consumes the tick, leaving the slot empty whatever follows; its result is `Evaluate` of the consumed tick; the timer is advanced to `now` exactly when metrics are produced |

## Left out

- `models/maker_taker_model.py` is not part of this model. It is a logistic of an exponential, which has no exact counterpart over reals here. `Metrics` therefore carries no maker proportion.
- `docs/almgren_chriss_demo.py` (the execution trajectory) is not part of this model. It needs `sqrt` and `sinh`.
- The dashboard is not modelled: layout, interval component, the string formatting of the outputs (`app.py:138-145`) and the Dash wiring.
- Network and concurrency are not modelled: `websockets.connect`, `recv`, the ping exchange, the asyncio event loop, daemon threads and the log message.
  - The ping and delay constants are recorded as values only.
  - Two threads interleaving on one slot are not modelled; each put and get is one atomic step.
- `tests/test_app.py` is not modelled. It targets functions and signatures that `app.py` does not have.
- String-to-float parsing of price levels and IEEE rounding are not modelled; all numbers are exact reals.
- JSON that decodes to something other than an order-book object is not modelled. It would raise `AttributeError` in the source.
- A `None` quantity or volatility from the dashboard is not modelled. It would raise `TypeError` in the source.
- A `None` fee tier is not representable, because tiers are strings here. In the source, `FEE_TIERS.get(None)` returns `None`, so it raises `ValueError` on the same path as any unknown tier.
- MarketImpactModel.AlmgrenChrissImpact: the exponents α and β are natural numbers, not arbitrary floats. A fractional power of a negative base is therefore not modelled.
- MarketImpactModel.AlmgrenChrissImpact: a zero horizon is excluded by its precondition rather than modelled as the `ZeroDivisionError` the source raises. The only caller passes a horizon of 1.0.
- WebSocketClient.Step: an event that the listener's current await cannot produce leaves the state unchanged. This is a convention of the trace, not behaviour of the source.
- WebSocketClient.Listen: the two `while True` loops never end. They are modelled as one loop over a finite trace of await results. "Never exits" is stated by `NoExit` and `RetriesForever`.
- Typed errors beyond the source's own are not modelled: no `UnknownFeeTierError` or `InvalidTickError` types, and no parameter validation. The source raises `ValueError`, or prevents the update.
