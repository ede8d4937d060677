/** Order sizing and execution against an exchange account.
    The account is a small mutable model: KRW balance, coin holdings, the open
    orders it reports, the orders actually sent to it and the cancel requests
    it received. Every sizing rule is first stated as a pure outcome function;
    the methods perform the same steps on the account and are proved to match. */
module Utils {
  import opened Series
  import opened Extensions

  /** Minimum order value in KRW. */
  const MIN_ORDER_KRW: real := 5000.0

  datatype OrderKind = MarketBuy | MarketSell | LimitBuy(price: real) | LimitSell(price: real)

  /** An order as handed to the exchange; `amount` is KRW for a buy (market or
      limit) and the requested quantity for a sell. */
  datatype Order = Order(kind: OrderKind, market: string, amount: real)

  datatype SkipReason = InsufficientKrw | NoHoldings

  /** What one call of a sizing function did: skipped, only logged (dry run),
      sent the order, or raised before deciding (a symbol without '-'). */
  datatype Outcome = Skipped(reason: SkipReason) | Simulated(order: Order) | Submitted(order: Order) | Raised

  /** The call reached the point of placing an order, live or simulated. */
  predicate Accepted(o: Outcome)
  {
    o.Simulated? || o.Submitted?
  }

  /** Orders that reach the exchange. */
  function Sent(o: Outcome): (r: seq<Order>)
    ensures |r| <= 1
    ensures r != [] <==> o.Submitted?
  {
    if o.Submitted? then [o.order] else []
  }

  datatype OpenOrder = OpenOrder(uuid: string, market: string)

  function Min(a: real, b: real): real
  {
    if b < a then b else a
  }

  function Max(a: real, b: real): real
  {
    if b > a then b else a
  }

  /** The holding of a coin; a coin the account does not list counts as 0. */
  function HeldAmount(holdings: map<string, real>, coin: string): real
  {
    if coin in holdings then holdings[coin] else 0.0
  }

  class Upbit {
    var krw: real
    var holdings: map<string, real>
    var openOrders: seq<OpenOrder>
    var placed: seq<Order>
    var cancelRequests: seq<string>

    constructor (krw: real, holdings: map<string, real>, openOrders: seq<OpenOrder>)
      ensures this.krw == krw && this.holdings == holdings && this.openOrders == openOrders
      ensures placed == [] && cancelRequests == []
    {
      this.krw := krw;
      this.holdings := holdings;
      this.openOrders := openOrders;
      placed := [];
      cancelRequests := [];
    }

    /** Send one order to the exchange. */
    method SubmitOrder(o: Order)
      modifies this`placed
      ensures placed == old(placed) + [o]
    {
      placed := placed + [o];
    }

    /** Ask the exchange to cancel the order with this uuid. */
    method CancelOrder(uuid: string)
      modifies this`cancelRequests
      ensures cancelRequests == old(cancelRequests) + [uuid]
    {
      cancelRequests := cancelRequests + [uuid];
    }
  }

  // ---------------------------------------------------------------------------
  // Sizing rules as outcome functions
  // ---------------------------------------------------------------------------

  /** `max(0.0, min(p, 1.0))` */
  function Clamp01(p: real): (r: real)
    ensures 0.0 <= r <= 1.0
    ensures 0.0 <= p <= 1.0 ==> r == p
    ensures p >= 1.0 ==> r == 1.0
    ensures p <= 0.0 ==> r == 0.0
  {
    Max(0.0, Min(p, 1.0))
  }

  /** A share of a non-negative amount lies between 0 and the amount. */
  lemma ShareWithin(x: real, c: real)
    requires 0.0 <= c <= 1.0
    ensures x >= 0.0 ==> 0.0 <= x * c <= x
  {
    if x >= 0.0 {
      assert x - x * c == x * (1.0 - c);
    }
  }

  /** A buy capped by the KRW balance and skipped below the minimum order value. */
  function CappedBuy(kind: OrderKind, krw: real, ticker: string, amountKrw: real, dryRun: bool): (o: Outcome)
    ensures !o.Raised?
    ensures o.Skipped? <==> krw < MIN_ORDER_KRW || amountKrw < MIN_ORDER_KRW
    ensures Accepted(o) ==> o.order == Order(kind, ticker, Min(krw, amountKrw))
    ensures Accepted(o) ==> MIN_ORDER_KRW <= o.order.amount <= krw && o.order.amount <= amountKrw
    ensures o.Submitted? <==> Accepted(o) && !dryRun
  {
    var amount := Min(krw, amountKrw);
    if amount < MIN_ORDER_KRW then Skipped(InsufficientKrw)
    else if dryRun then Simulated(Order(kind, ticker, amount))
    else Submitted(Order(kind, ticker, amount))
  }

  /** A buy of a fraction of the KRW balance, the fraction clamped into [0, 1]:
      whatever it places is that share of a positive balance, never more than the balance. */
  function PercentageBuy(kind: OrderKind, krw: real, ticker: string, percentage: real, dryRun: bool): (o: Outcome)
    ensures !o.Raised?
    ensures o.Skipped? <==> Min(krw, krw * Clamp01(percentage)) < MIN_ORDER_KRW
    ensures Accepted(o) ==> krw >= MIN_ORDER_KRW && o.order == Order(kind, ticker, krw * Clamp01(percentage))
    ensures Accepted(o) ==> MIN_ORDER_KRW <= o.order.amount <= krw
    ensures o.Submitted? <==> Accepted(o) && !dryRun
  {
    var c := Clamp01(percentage);
    ShareWithin(krw, c);
    CappedBuy(kind, krw, ticker, krw * c, dryRun)
  }

  /** `sell_market`: no order while the coin's holding is not positive; otherwise
      the requested amount is passed on unchanged. */
  function SellMarketOutcome(holdings: map<string, real>, ticker: string, amount: real, dryRun: bool): (o: Outcome)
    ensures o.Raised? <==> '-' !in ticker
    ensures o.Skipped? <==> '-' in ticker && HeldAmount(holdings, BaseAsset(ticker).value) <= 0.0
    ensures Accepted(o) ==> o.order == Order(MarketSell, ticker, amount) &&
                            HeldAmount(holdings, BaseAsset(ticker).value) > 0.0
    ensures o.Submitted? <==> Accepted(o) && !dryRun
  {
    match BaseAsset(ticker)
    case None => Raised
    case Some(coin) =>
      if HeldAmount(holdings, coin) <= 0.0 then Skipped(NoHoldings)
      else if dryRun then Simulated(Order(MarketSell, ticker, amount))
      else Submitted(Order(MarketSell, ticker, amount))
  }

  /** Selling the share c of the holding of a market's coin. */
  lemma SellShareFacts(holdings: map<string, real>, ticker: string, coin: string, c: real, dryRun: bool)
    requires BaseAsset(ticker) == Some(coin) && 0.0 <= c <= 1.0
    ensures var held := HeldAmount(holdings, coin);
            var o := SellMarketOutcome(holdings, ticker, held * c, dryRun);
            (o.Skipped? <==> held <= 0.0) &&
            (Accepted(o) ==> o.order == Order(MarketSell, ticker, held * c) && 0.0 <= o.order.amount <= held)
  {
    ShareWithin(HeldAmount(holdings, coin), c);
  }

  /** `sell_market_percentage`: sells the clamped share of the holding, which lies
      between 0 and the holding. */
  function SellMarketPercentageOutcome(holdings: map<string, real>, ticker: string, percentage: real, dryRun: bool): (o: Outcome)
    ensures o.Raised? <==> '-' !in ticker
    ensures o.Skipped? <==> '-' in ticker && HeldAmount(holdings, BaseAsset(ticker).value) <= 0.0
    ensures Accepted(o) ==>
              var held := HeldAmount(holdings, BaseAsset(ticker).value);
              o.order == Order(MarketSell, ticker, held * Clamp01(percentage)) &&
              0.0 <= o.order.amount <= held
    ensures o.Submitted? <==> Accepted(o) && !dryRun
  {
    match BaseAsset(ticker)
    case None => Raised
    case Some(coin) =>
      SellShareFacts(holdings, ticker, coin, Clamp01(percentage), dryRun);
      SellMarketOutcome(holdings, ticker, HeldAmount(holdings, coin) * Clamp01(percentage), dryRun)
  }

  /** `sell_limit`: skipped whenever the holding does not exceed the requested amount. */
  function SellLimitOutcome(holdings: map<string, real>, ticker: string, targetPrice: real, amount: real, dryRun: bool): (o: Outcome)
    ensures o.Raised? <==> '-' !in ticker
    ensures o.Skipped? <==> '-' in ticker && HeldAmount(holdings, BaseAsset(ticker).value) <= amount
    ensures Accepted(o) ==> o.order == Order(LimitSell(targetPrice), ticker, amount) &&
                            amount < HeldAmount(holdings, BaseAsset(ticker).value)
    ensures o.Submitted? <==> Accepted(o) && !dryRun
  {
    match BaseAsset(ticker)
    case None => Raised
    case Some(coin) =>
      if HeldAmount(holdings, coin) <= amount then Skipped(NoHoldings)
      else if dryRun then Simulated(Order(LimitSell(targetPrice), ticker, amount))
      else Submitted(Order(LimitSell(targetPrice), ticker, amount))
  }

  /** A limit sell of the share c of the holding of a market's coin; the whole
      holding (c == 1) never passes the guard. */
  lemma LimitShareFacts(holdings: map<string, real>, ticker: string, coin: string, targetPrice: real, c: real, dryRun: bool)
    requires BaseAsset(ticker) == Some(coin) && 0.0 <= c <= 1.0
    ensures var held := HeldAmount(holdings, coin);
            var o := SellLimitOutcome(holdings, ticker, targetPrice, held * c, dryRun);
            (o.Skipped? <==> held <= held * c) && (c == 1.0 ==> o.Skipped?)
  {
  }

  /** `sell_limit_percentage`: a fraction clamped to 1 asks for the whole holding,
      which the guard of `sell_limit` always skips. */
  function SellLimitPercentageOutcome(holdings: map<string, real>, ticker: string, targetPrice: real, percentage: real, dryRun: bool): (o: Outcome)
    ensures o.Raised? <==> '-' !in ticker
    ensures o.Skipped? <==> ('-' in ticker &&
                             HeldAmount(holdings, BaseAsset(ticker).value) <= HeldAmount(holdings, BaseAsset(ticker).value) * Clamp01(percentage))
    ensures Clamp01(percentage) == 1.0 ==> !Accepted(o)
    ensures Accepted(o) ==>
              o.order == Order(LimitSell(targetPrice), ticker, HeldAmount(holdings, BaseAsset(ticker).value) * Clamp01(percentage))
    ensures o.Submitted? <==> Accepted(o) && !dryRun
  {
    match BaseAsset(ticker)
    case None => Raised
    case Some(coin) =>
      LimitShareFacts(holdings, ticker, coin, targetPrice, Clamp01(percentage), dryRun);
      SellLimitOutcome(holdings, ticker, targetPrice, HeldAmount(holdings, coin) * Clamp01(percentage), dryRun)
  }

  /** With a positive holding a limit sell by percentage goes through exactly when
      the fraction is below 1. */
  lemma SellLimitPercentageAcceptsBelowAll(holdings: map<string, real>, ticker: string, targetPrice: real, percentage: real, dryRun: bool)
    requires '-' in ticker
    requires HeldAmount(holdings, BaseAsset(ticker).value) > 0.0
    ensures Accepted(SellLimitPercentageOutcome(holdings, ticker, targetPrice, percentage, dryRun)) <==> percentage < 1.0
  {
    var held := HeldAmount(holdings, BaseAsset(ticker).value);
    var c := Clamp01(percentage);
    assert held * c < held <==> c < 1.0 by {
      assert held * c - held == held * (c - 1.0);
    }
  }

  // ---------------------------------------------------------------------------
  // The functions of the module, performed against the account
  // ---------------------------------------------------------------------------

  method BuyMarket(ex: Upbit, ticker: string, amountKrw: real, dryRun: bool) returns (o: Outcome)
    modifies ex`placed
    ensures o == CappedBuy(MarketBuy, ex.krw, ticker, amountKrw, dryRun)
    ensures ex.placed == old(ex.placed) + Sent(o)
  {
    var krw := ex.krw;
    var amount := Min(krw, amountKrw);
    if amount < MIN_ORDER_KRW {
      return Skipped(InsufficientKrw);
    }
    if dryRun {
      return Simulated(Order(MarketBuy, ticker, amount));
    }
    ex.SubmitOrder(Order(MarketBuy, ticker, amount));
    o := Submitted(Order(MarketBuy, ticker, amount));
  }

  method BuyMarketPercentage(ex: Upbit, ticker: string, percentage: real, dryRun: bool) returns (o: Outcome)
    modifies ex`placed
    ensures o == PercentageBuy(MarketBuy, ex.krw, ticker, percentage, dryRun)
    ensures ex.placed == old(ex.placed) + Sent(o)
  {
    var p := Max(0.0, Min(percentage, 1.0));
    var amountKrw := ex.krw * p;
    o := BuyMarket(ex, ticker, amountKrw, dryRun);
  }

  method SellMarket(ex: Upbit, ticker: string, amount: real, dryRun: bool) returns (o: Outcome)
    modifies ex`placed
    ensures o == SellMarketOutcome(ex.holdings, ticker, amount, dryRun)
    ensures ex.placed == old(ex.placed) + Sent(o)
  {
    var coin := BaseAsset(ticker);
    if coin.None? {
      return Raised;
    }
    var volume := HeldAmount(ex.holdings, coin.value);
    if volume <= 0.0 {
      return Skipped(NoHoldings);
    }
    if dryRun {
      return Simulated(Order(MarketSell, ticker, amount));
    }
    ex.SubmitOrder(Order(MarketSell, ticker, amount));
    o := Submitted(Order(MarketSell, ticker, amount));
  }

  method SellMarketPercentage(ex: Upbit, ticker: string, percentage: real, dryRun: bool) returns (o: Outcome)
    modifies ex`placed
    ensures o == SellMarketPercentageOutcome(ex.holdings, ticker, percentage, dryRun)
    ensures ex.placed == old(ex.placed) + Sent(o)
  {
    var p := Max(0.0, Min(percentage, 1.0));
    var coin := BaseAsset(ticker);
    if coin.None? {
      return Raised;
    }
    var amount := HeldAmount(ex.holdings, coin.value) * p;
    o := SellMarket(ex, ticker, amount, dryRun);
  }

  method BuyLimit(ex: Upbit, ticker: string, targetPrice: real, amountKrw: real, dryRun: bool) returns (o: Outcome)
    modifies ex`placed
    ensures o == CappedBuy(LimitBuy(targetPrice), ex.krw, ticker, amountKrw, dryRun)
    ensures ex.placed == old(ex.placed) + Sent(o)
  {
    var krw := ex.krw;
    var amount := Min(krw, amountKrw);
    if amount < MIN_ORDER_KRW {
      return Skipped(InsufficientKrw);
    }
    if dryRun {
      return Simulated(Order(LimitBuy(targetPrice), ticker, amount));
    }
    ex.SubmitOrder(Order(LimitBuy(targetPrice), ticker, amount));
    o := Submitted(Order(LimitBuy(targetPrice), ticker, amount));
  }

  method BuyLimitPercentage(ex: Upbit, ticker: string, targetPrice: real, percentage: real, dryRun: bool) returns (o: Outcome)
    modifies ex`placed
    ensures o == PercentageBuy(LimitBuy(targetPrice), ex.krw, ticker, percentage, dryRun)
    ensures ex.placed == old(ex.placed) + Sent(o)
  {
    var p := Max(0.0, Min(1.0, percentage));
    var amountKrw := ex.krw * p;
    o := BuyLimit(ex, ticker, targetPrice, amountKrw, dryRun);
  }

  method SellLimit(ex: Upbit, ticker: string, targetPrice: real, amount: real, dryRun: bool) returns (o: Outcome)
    modifies ex`placed
    ensures o == SellLimitOutcome(ex.holdings, ticker, targetPrice, amount, dryRun)
    ensures ex.placed == old(ex.placed) + Sent(o)
  {
    var coin := BaseAsset(ticker);
    if coin.None? {
      return Raised;
    }
    var volume := HeldAmount(ex.holdings, coin.value);
    if volume <= amount {
      return Skipped(NoHoldings);
    }
    if dryRun {
      return Simulated(Order(LimitSell(targetPrice), ticker, amount));
    }
    ex.SubmitOrder(Order(LimitSell(targetPrice), ticker, amount));
    o := Submitted(Order(LimitSell(targetPrice), ticker, amount));
  }

  method SellLimitPercentage(ex: Upbit, ticker: string, targetPrice: real, percentage: real, dryRun: bool) returns (o: Outcome)
    modifies ex`placed
    ensures o == SellLimitPercentageOutcome(ex.holdings, ticker, targetPrice, percentage, dryRun)
    ensures ex.placed == old(ex.placed) + Sent(o)
  {
    var p := Max(0.0, Min(1.0, percentage));
    var coin := BaseAsset(ticker);
    if coin.None? {
      return Raised;
    }
    var amount := HeldAmount(ex.holdings, coin.value) * p;
    o := SellLimit(ex, ticker, targetPrice, amount, dryRun);
  }

  // ---------------------------------------------------------------------------
  // Cancelling the open orders of one market
  // ---------------------------------------------------------------------------

  /** The uuids, in list order, of the open orders on the given market. */
  function UuidsOn(orders: seq<OpenOrder>, ticker: string): (r: seq<string>)
    ensures |r| <= |orders|
  {
    if |orders| == 0 then []
    else UuidsOn(orders[..|orders| - 1], ticker) +
         (if orders[|orders| - 1].market == ticker then [orders[|orders| - 1].uuid] else [])
  }

  /** A uuid is targeted exactly when some open order on the market carries it. */
  lemma {:induction false} UuidsOnTargetsMarket(orders: seq<OpenOrder>, ticker: string)
    ensures forall u :: u in UuidsOn(orders, ticker) <==>
              exists i :: 0 <= i < |orders| && orders[i].market == ticker && orders[i].uuid == u
  {
    if |orders| > 0 {
      var n := |orders|;
      UuidsOnTargetsMarket(orders[..n - 1], ticker);
      assert forall i :: 0 <= i < n - 1 ==> orders[..n - 1][i] == orders[i];
    }
  }

  method CancelAllOrders(ex: Upbit, ticker: string)
    modifies ex`cancelRequests
    ensures ex.cancelRequests == old(ex.cancelRequests) + UuidsOn(ex.openOrders, ticker)
  {
    var orders := ex.openOrders;
    if |orders| == 0 {
      return;
    }
    var i := 0;
    while i < |orders|
      invariant 0 <= i <= |orders|
      invariant ex.cancelRequests == old(ex.cancelRequests) + UuidsOn(orders[..i], ticker)
    {
      if ticker == orders[i].market {
        ex.CancelOrder(orders[i].uuid);
      }
      assert orders[..i + 1][..i] == orders[..i];
      i := i + 1;
    }
    assert orders[..|orders|] == orders;
  }
}
