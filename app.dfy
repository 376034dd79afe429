/** The computational body of the dashboard callback `update_metrics`
    (app.py): take at most one tick from the slot, reject an empty book,
    derive mid price, spread and base quantity, price the three costs and
    tick the latency timer on success. The user inputs arrive as reals. */
module App {
  import opened Wrappers
  import FeeModel
  import SlippageModel
  import MarketImpactModel
  import Latency
  import WebSocketClient

  type OrderBook = WebSocketClient.OrderBook

  /** The impact parameters the callback fixes. */
  const TimeHorizon: real := 1.0
  const Alpha: nat := 1
  const Beta: nat := 1
  const Gamma: real := 0.05
  const Eta: real := 0.05
  const RiskAversion: real := 0.001

  /** The exceptions the callback lets escape: the `ZeroDivisionError` of
      `quantity_usd / mid_price` and the fee table's `ValueError`. */
  datatype AppError = ZeroDivision | FeeFailure(cause: FeeModel.FeeError)

  datatype Costs = Costs(slippage: real, fees: real, impact: real, netCost: real)

  datatype Metrics = Metrics(costs: Costs, latencyMs: real)

  /** The callback's outcome: `PreventUpdate`, an escaping exception, or
      new metrics. */
  datatype Update = PreventUpdate | Raised(error: AppError) | Updated(metrics: Metrics)

  /** Both sides of the book have a level: the callback's test
      `not bids or not asks` fails. */
  predicate Usable(book: OrderBook)
    ensures Usable(book) <==> book.bids != [] && book.asks != []
  {
    |book.bids| > 0 && |book.asks| > 0
  }

  /** Bids listed best (highest price) first. */
  ghost predicate BidsBestFirst(bids: seq<WebSocketClient.Level>)
  {
    forall i, j :: 0 <= i < j < |bids| ==> bids[j].price <= bids[i].price
  }

  /** Asks listed best (lowest price) first. */
  ghost predicate AsksBestFirst(asks: seq<WebSocketClient.Level>)
  {
    forall i, j :: 0 <= i < j < |asks| ==> asks[i].price <= asks[j].price
  }

  /** The price of the first bid level; on a feed that lists the best level
      first it is the highest bid. */
  function BestBid(book: OrderBook): (p: real)
    requires Usable(book)
    ensures BidsBestFirst(book.bids) ==> forall i :: 0 <= i < |book.bids| ==> book.bids[i].price <= p
  {
    assert BidsBestFirst(book.bids) ==> forall i :: 0 < i < |book.bids| ==> book.bids[i].price <= book.bids[0].price;
    book.bids[0].price
  }

  /** The price of the first ask level; on a feed that lists the best level
      first it is the lowest ask. */
  function BestAsk(book: OrderBook): (p: real)
    requires Usable(book)
    ensures AsksBestFirst(book.asks) ==> forall i :: 0 <= i < |book.asks| ==> p <= book.asks[i].price
  {
    assert AsksBestFirst(book.asks) ==> forall i :: 0 < i < |book.asks| ==> book.asks[0].price <= book.asks[i].price;
    book.asks[0].price
  }

  /** The mid price lies half a spread from either best price, hence
      between them on an uncrossed book. */
  function MidPrice(book: OrderBook): (m: real)
    requires Usable(book)
    ensures m - Spread(book) / 2.0 == BestBid(book) && m + Spread(book) / 2.0 == BestAsk(book)
    ensures BestBid(book) <= BestAsk(book) ==> BestBid(book) <= m <= BestAsk(book)
  {
    0.5 * (BestBid(book) + BestAsk(book))
  }

  /** The spread is non-negative exactly when the book is not crossed. */
  function Spread(book: OrderBook): (s: real)
    requires Usable(book)
    ensures s >= 0.0 <==> BestBid(book) <= BestAsk(book)
  {
    BestAsk(book) - BestBid(book)
  }

  /** Lines 109-129: the three costs at base quantity
      `quantityUsd / mid`, the fee always as taker, the impact with the
      fixed parameters, and their sum. A zero mid price raises before the
      fee table is consulted; an unknown tier raises next. */
  function ComputeCosts(book: OrderBook, quantityUsd: real, volatility: real, feeTier: string)
    : (r: Result<Costs, AppError>)
    requires Usable(book)
    ensures MidPrice(book) == 0.0 ==> r == Failure(ZeroDivision)
    ensures MidPrice(book) != 0.0 && feeTier !in FeeModel.FeeTiers ==>
              r == Failure(FeeFailure(FeeModel.UnknownFeeTier(feeTier)))
    ensures r.Success? <==> MidPrice(book) != 0.0 && feeTier in FeeModel.FeeTiers
    ensures r.Success? ==>
              var baseQty := quantityUsd / MidPrice(book);
              && r.value.slippage == SlippageModel.EstimateSlippage(Spread(book), baseQty)
              && Success(r.value.fees) == FeeModel.CalculateFee(MidPrice(book), baseQty, feeTier, true)
              && r.value.impact == MarketImpactModel.AlmgrenChrissImpact(
                                     baseQty, TimeHorizon, Alpha, Beta, Gamma, Eta, volatility, RiskAversion)
              && r.value.netCost == r.value.slippage + r.value.fees + r.value.impact
  {
    var mid := MidPrice(book);
    if mid == 0.0 then
      Failure(ZeroDivision)
    else
      var baseQty := quantityUsd / mid;
      var slippage := SlippageModel.EstimateSlippage(Spread(book), baseQty);
      match FeeModel.CalculateFee(mid, baseQty, feeTier, true)
      case Failure(e) => Failure(FeeFailure(e))
      case Success(fees) =>
        var impact := MarketImpactModel.AlmgrenChrissImpact(
                        baseQty, TimeHorizon, Alpha, Beta, Gamma, Eta, volatility, RiskAversion);
        Success(Costs(slippage, fees, impact, slippage + fees + impact))
  }

  /** In quote-currency terms the slippage is the spread times the dollar
      quantity over the mid price. */
  lemma SlippageInQuoteTerms(book: OrderBook, quantityUsd: real, volatility: real, feeTier: string)
    requires Usable(book)
    requires ComputeCosts(book, quantityUsd, volatility, feeTier).Success?
    ensures ComputeCosts(book, quantityUsd, volatility, feeTier).value.slippage
         == Spread(book) * quantityUsd / MidPrice(book)
  {
    var mid, sp := MidPrice(book), Spread(book);
    assert sp * (quantityUsd / mid) == sp * quantityUsd / mid;
  }

  /** The taker fee on the base quantity at the mid price is the dollar
      quantity times the tier's taker rate. */
  lemma FeeOnDollarQuantity(book: OrderBook, quantityUsd: real, volatility: real, feeTier: string)
    requires Usable(book)
    requires ComputeCosts(book, quantityUsd, volatility, feeTier).Success?
    ensures ComputeCosts(book, quantityUsd, volatility, feeTier).value.fees
         == quantityUsd * FeeModel.FeeTiers[feeTier].taker
  {
    var mid := MidPrice(book);
    var rate := FeeModel.FeeTiers[feeTier].taker;
    assert mid * (quantityUsd / mid) == quantityUsd;
    assert mid * (quantityUsd / mid) * rate == quantityUsd * rate;
  }

  /** With the fixed parameters the impact on base quantity `q` is
      `0.1 * q + 0.0005 * sigma^2 * q^2`. */
  lemma ImpactAtFixedParameters(book: OrderBook, quantityUsd: real, volatility: real, feeTier: string)
    requires Usable(book)
    requires ComputeCosts(book, quantityUsd, volatility, feeTier).Success?
    ensures var q := quantityUsd / MidPrice(book);
            ComputeCosts(book, quantityUsd, volatility, feeTier).value.impact
              == 0.1 * q + 0.0005 * volatility * volatility * q * q
  {
    var q := quantityUsd / MidPrice(book);
    MarketImpactModel.LinearExponents(q, TimeHorizon, Gamma, Eta, volatility, RiskAversion);
  }

  /** On an uncrossed book with a positive mid price and a non-negative
      dollar quantity, every cost and so the net cost is non-negative. */
  lemma NetCostNonNegative(book: OrderBook, quantityUsd: real, volatility: real, feeTier: string)
    requires Usable(book) && BestBid(book) <= BestAsk(book) && MidPrice(book) > 0.0
    requires quantityUsd >= 0.0 && feeTier in FeeModel.FeeTiers
    ensures ComputeCosts(book, quantityUsd, volatility, feeTier).Success?
    ensures var c := ComputeCosts(book, quantityUsd, volatility, feeTier).value;
            c.slippage >= 0.0 && c.fees >= 0.0 && c.impact >= 0.0 && c.netCost >= 0.0
  {
    var mid := MidPrice(book);
    var q := quantityUsd / mid;
    assert q >= 0.0;
    assert Spread(book) * q >= 0.0;
    FeeModel.FeeNonNegative(mid, q, feeTier, true);
  }

  /** The pure outcome of one callback on the tick taken from the slot
      (`None` when the slot was empty), given the timer's stored reading
      and the clock now. */
  function Evaluate(tick: Option<WebSocketClient.Stamped>, quantityUsd: real, volatility: real,
                    feeTier: string, lastTick: real, now: real): (r: Update)
    ensures tick.None? ==> r == PreventUpdate
    ensures tick.Some? && !Usable(tick.value.data) ==> r == PreventUpdate
    ensures r.Updated? <==>
              tick.Some? && Usable(tick.value.data)
              && ComputeCosts(tick.value.data, quantityUsd, volatility, feeTier).Success?
    ensures r.Raised? ==>
              tick.Some? && Usable(tick.value.data)
              && ComputeCosts(tick.value.data, quantityUsd, volatility, feeTier) == Failure(r.error)
    ensures tick.Some? && Usable(tick.value.data)
            && ComputeCosts(tick.value.data, quantityUsd, volatility, feeTier).Failure? ==>
              r == Raised(ComputeCosts(tick.value.data, quantityUsd, volatility, feeTier).error)
    ensures r.Updated? ==>
              Success(r.metrics.costs) == ComputeCosts(tick.value.data, quantityUsd, volatility, feeTier)
              && r.metrics.latencyMs == Latency.ElapsedMs(lastTick, now)
  {
    match tick
    case None => PreventUpdate
    case Some(t) =>
      if !Usable(t.data) then PreventUpdate
      else
        match ComputeCosts(t.data, quantityUsd, volatility, feeTier)
        case Failure(e) => Raised(e)
        case Success(c) => Updated(Metrics(c, Latency.ElapsedMs(lastTick, now)))
  }

  /** `update_metrics`: drains the slot with `get_nowait` (the tick is
      consumed whatever follows), and ticks the timer exactly once when an
      update is produced and never otherwise. */
  method UpdateMetrics(slot: WebSocketClient.Slot, timer: Latency.LatencyTimer,
                       quantityUsd: real, volatility: real, feeTier: string, now: real)
    returns (r: Update)
    requires slot.Valid()
    modifies slot, timer
    ensures slot.Valid() && slot.items == []
    ensures r == Evaluate(if old(slot.items) == [] then None else Some(old(slot.items)[0]),
                          quantityUsd, volatility, feeTier, old(timer.last), now)
    ensures timer.last == if r.Updated? then now else old(timer.last)
  {
    var tick := slot.GetNowait();
    if tick.None? {
      return PreventUpdate;
    }
    var data := tick.value.data;
    if |data.bids| == 0 || |data.asks| == 0 {
      return PreventUpdate;
    }
    var costs := ComputeCosts(data, quantityUsd, volatility, feeTier);
    if costs.Failure? {
      return Raised(costs.error);
    }
    var latency := timer.Tick(now);
    r := Updated(Metrics(costs.value, latency));
  }
}
