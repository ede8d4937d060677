/** The multi-ticker template bot: its own copy of the 5/20 moving-average cross,
    a market buy capped by a fixed per-ticker budget, and a market sell of the
    whole holding. The configuration is fixed in the program; the dry-run flag
    is passed in so that both of its branches are part of the model. */
module TemplateBot {
  import opened Series
  import Strategy
  import Utils
  import Extensions

  /** Most KRW spent on one buy of one ticker. */
  const ORDER_BUDGET: real := 10000.0

  /** The exchange's minimum order value, as this program assumes it. */
  const MIN_ORDER_KRW: real := 5000.0

  /** The program's configured dry-run switch. */
  const DRY_RUN: bool := true

  /** The cross rule as this program writes it; None where reading the
      previous mean raises (no frame, or fewer than two candles). */
  function Algorithm(candles: Option<seq<Candle>>, ticker: string): (r: Option<Strategy.Signal>)
    ensures r == Strategy.Algorithm(candles, ticker)
  {
    if candles.None? || |candles.value| < 2 then None
    else
      var closes := Closes(candles.value);
      var n := |closes|;
      var ma5Now := Strategy.RollingMean(closes, 5, n);
      var ma20Now := Strategy.RollingMean(closes, 20, n);
      var ma5Prev := Strategy.RollingMean(closes, 5, n - 1);
      var ma20Prev := Strategy.RollingMean(closes, 20, n - 1);
      if Strategy.AtMost(ma5Prev, ma20Prev) && Strategy.Below(ma20Now, ma5Now) then Some(Strategy.Buy)
      else if Strategy.AtMost(ma20Prev, ma5Prev) && Strategy.Below(ma5Now, ma20Now) then Some(Strategy.Sell)
      else Some(Strategy.Hold)
  }

  /** `buy`: spends min(balance, budget), and nothing when that is under the minimum. */
  function BuyOutcome(krw: real, ticker: string, dryRun: bool): (o: Utils.Outcome)
    ensures !o.Raised?
    ensures o.Skipped? <==> krw < MIN_ORDER_KRW
    ensures Utils.Accepted(o) ==> o.order == Utils.Order(Utils.MarketBuy, ticker, Utils.Min(krw, ORDER_BUDGET))
    ensures Utils.Accepted(o) ==> MIN_ORDER_KRW <= o.order.amount <= ORDER_BUDGET && o.order.amount <= krw
    ensures o.Submitted? <==> Utils.Accepted(o) && !dryRun
  {
    var amount := Utils.Min(krw, ORDER_BUDGET);
    if amount < MIN_ORDER_KRW then Utils.Skipped(Utils.InsufficientKrw)
    else if dryRun then Utils.Simulated(Utils.Order(Utils.MarketBuy, ticker, amount))
    else Utils.Submitted(Utils.Order(Utils.MarketBuy, ticker, amount))
  }

  /** `sell`: sells the entire holding of the base coin, nothing when it is not positive. */
  function SellOutcome(holdings: map<string, real>, ticker: string, dryRun: bool): (o: Utils.Outcome)
    ensures o.Raised? <==> '-' !in ticker
    ensures o.Skipped? <==> '-' in ticker && Utils.HeldAmount(holdings, Extensions.BaseAsset(ticker).value) <= 0.0
    ensures Utils.Accepted(o) ==>
              var held := Utils.HeldAmount(holdings, Extensions.BaseAsset(ticker).value);
              held > 0.0 && o.order == Utils.Order(Utils.MarketSell, ticker, held)
    ensures o.Submitted? <==> Utils.Accepted(o) && !dryRun
  {
    match Extensions.BaseAsset(ticker)
    case None => Utils.Raised
    case Some(coin) =>
      var volume := Utils.HeldAmount(holdings, coin);
      if volume <= 0.0 then Utils.Skipped(Utils.NoHoldings)
      else if dryRun then Utils.Simulated(Utils.Order(Utils.MarketSell, ticker, volume))
      else Utils.Submitted(Utils.Order(Utils.MarketSell, ticker, volume))
  }

  /** The template's buy is the library's capped market buy with the budget as the request. */
  lemma BuyIsBudgetedBuyMarket(krw: real, ticker: string, dryRun: bool)
    ensures BuyOutcome(krw, ticker, dryRun) == Utils.CappedBuy(Utils.MarketBuy, krw, ticker, ORDER_BUDGET, dryRun)
  {
  }

  /** The template's sell is the library's market sell of 100 percent. */
  lemma SellIsFullSellMarketPercentage(holdings: map<string, real>, ticker: string, dryRun: bool)
    ensures SellOutcome(holdings, ticker, dryRun) == Utils.SellMarketPercentageOutcome(holdings, ticker, 1.0, dryRun)
  {
    if '-' in ticker {
      var held := Utils.HeldAmount(holdings, Extensions.BaseAsset(ticker).value);
      assert held * Utils.Clamp01(1.0) == held;
    }
  }

  /** With the configured switch neither order function reaches the exchange. */
  lemma ConfiguredDryRunSendsNothing(krw: real, holdings: map<string, real>, ticker: string)
    ensures Utils.Sent(BuyOutcome(krw, ticker, DRY_RUN)) == []
    ensures Utils.Sent(SellOutcome(holdings, ticker, DRY_RUN)) == []
  {
  }

  method Buy(ex: Utils.Upbit, ticker: string, dryRun: bool) returns (o: Utils.Outcome)
    modifies ex`placed
    ensures o == BuyOutcome(ex.krw, ticker, dryRun)
    ensures ex.placed == old(ex.placed) + Utils.Sent(o)
  {
    var krw := ex.krw;
    var amount := Utils.Min(krw, ORDER_BUDGET);
    if amount < MIN_ORDER_KRW {
      return Utils.Skipped(Utils.InsufficientKrw);
    }
    if dryRun {
      return Utils.Simulated(Utils.Order(Utils.MarketBuy, ticker, amount));
    }
    ex.SubmitOrder(Utils.Order(Utils.MarketBuy, ticker, amount));
    o := Utils.Submitted(Utils.Order(Utils.MarketBuy, ticker, amount));
  }

  method Sell(ex: Utils.Upbit, ticker: string, dryRun: bool) returns (o: Utils.Outcome)
    modifies ex`placed
    ensures o == SellOutcome(ex.holdings, ticker, dryRun)
    ensures ex.placed == old(ex.placed) + Utils.Sent(o)
  {
    var coin := Extensions.BaseAsset(ticker);
    if coin.None? {
      return Utils.Raised;
    }
    var volume := Utils.HeldAmount(ex.holdings, coin.value);
    if volume <= 0.0 {
      return Utils.Skipped(Utils.NoHoldings);
    }
    if dryRun {
      return Utils.Simulated(Utils.Order(Utils.MarketSell, ticker, volume));
    }
    ex.SubmitOrder(Utils.Order(Utils.MarketSell, ticker, volume));
    o := Utils.Submitted(Utils.Order(Utils.MarketSell, ticker, volume));
  }

  /** One pass of the main loop over one ticker: the signal, then the matching order.
      A frame the signal cannot be read from ends the pass with no order. */
  method Step(ex: Utils.Upbit, candles: Option<seq<Candle>>, ticker: string, dryRun: bool) returns (signal: Option<Strategy.Signal>)
    modifies ex`placed
    ensures signal == Algorithm(candles, ticker)
    ensures signal == Some(Strategy.Buy) ==> ex.placed == old(ex.placed) + Utils.Sent(BuyOutcome(ex.krw, ticker, dryRun))
    ensures signal == Some(Strategy.Sell) ==> ex.placed == old(ex.placed) + Utils.Sent(SellOutcome(ex.holdings, ticker, dryRun))
    ensures signal != Some(Strategy.Buy) && signal != Some(Strategy.Sell) ==> ex.placed == old(ex.placed)
  {
    signal := Algorithm(candles, ticker);
    if signal == Some(Strategy.Buy) {
      var _ := Buy(ex, ticker, dryRun);
    } else if signal == Some(Strategy.Sell) {
      var _ := Sell(ex, ticker, dryRun);
    }
  }
}
