/** The scalping bot: a scan for markets whose last one-minute volume jumped
    against the minute before, and a per-market rule chain over second-candle
    indicators (stop-loss, then entry, then take-profit) that places at most one
    order. Exchange data arrive as inputs: the market list, the fetched frames,
    the balance list, the current prices, the trade ticks and the clock. */
module Scalping {
  import opened Series
  import opened Extensions
  import opened Utils

  // ---------------------------------------------------------------------------
  // Finding surging markets
  // ---------------------------------------------------------------------------

  /** A market found worth trading: its fetched frame (a market missing from
      `frames` is a fetch that failed or returned nothing) has at least two
      candles, the previous volume is not 0, and the last volume is at least
      `threshold` times the previous one. */
  function VolumeSurged(frames: map<string, seq<Candle>>, ticker: string, threshold: real): (r: bool)
    ensures r ==> ticker in frames && |frames[ticker]| >= 2 && frames[ticker][|frames[ticker]| - 2].volume != 0.0
    ensures ticker in frames && |frames[ticker]| >= 2 && frames[ticker][|frames[ticker]| - 2].volume > 0.0 ==>
              (r <==> frames[ticker][|frames[ticker]| - 1].volume >= threshold * frames[ticker][|frames[ticker]| - 2].volume)
  {
    ticker in frames && |frames[ticker]| >= 2 &&
    var c := frames[ticker];
    var prev := c[|c| - 2].volume;
    QuotientAtLeast(c[|c| - 1].volume, prev, threshold);
    prev != 0.0 && c[|c| - 1].volume / prev >= threshold
  }

  /** Against a positive divisor, comparing the quotient is comparing the product. */
  lemma QuotientAtLeast(a: real, b: real, t: real)
    ensures b > 0.0 ==> (a / b >= t <==> a >= t * b)
  {
    if b > 0.0 {
      assert a / b * b == a;
      if a / b >= t {
        assert a / b * b >= t * b;
      } else {
        assert a / b * b < t * b;
      }
    }
  }

  /** The surging markets, in the order of the market list. */
  function Surging(tickers: seq<string>, frames: map<string, seq<Candle>>, threshold: real): (r: seq<string>)
    ensures |r| <= |tickers|
  {
    if |tickers| == 0 then []
    else Surging(tickers[..|tickers| - 1], frames, threshold) +
         (if VolumeSurged(frames, tickers[|tickers| - 1], threshold) then [tickers[|tickers| - 1]] else [])
  }

  /** sub can be obtained from s by deleting elements. */
  predicate IsSubsequence(sub: seq<string>, s: seq<string>)
  {
    if |sub| == 0 then true
    else if |s| == 0 then false
    else if sub[|sub| - 1] == s[|s| - 1] then IsSubsequence(sub[..|sub| - 1], s[..|s| - 1])
    else IsSubsequence(sub, s[..|s| - 1])
  }

  /** A market is reported exactly when it is listed and surging. */
  lemma {:induction false} SurgingMembers(tickers: seq<string>, frames: map<string, seq<Candle>>, threshold: real)
    ensures forall t :: t in Surging(tickers, frames, threshold) <==> t in tickers && VolumeSurged(frames, t, threshold)
  {
    if |tickers| > 0 {
      var n := |tickers|;
      SurgingMembers(tickers[..n - 1], frames, threshold);
      assert tickers == tickers[..n - 1] + [tickers[n - 1]];
    }
  }

  /** The report keeps the order of the market list. */
  lemma {:induction false} SurgingIsSubsequence(tickers: seq<string>, frames: map<string, seq<Candle>>, threshold: real)
    ensures IsSubsequence(Surging(tickers, frames, threshold), tickers)
  {
    if |tickers| > 0 {
      var n := |tickers|;
      var prefix := Surging(tickers[..n - 1], frames, threshold);
      SurgingIsSubsequence(tickers[..n - 1], frames, threshold);
      if VolumeSurged(frames, tickers[n - 1], threshold) {
        assert (prefix + [tickers[n - 1]])[..|prefix|] == prefix;
      } else {
        assert Surging(tickers, frames, threshold) == prefix + [] == prefix;
        if |prefix| > 0 {
          SurgingMembers(tickers[..n - 1], frames, threshold);
          assert prefix[|prefix| - 1] in prefix;
          assert prefix[|prefix| - 1] != tickers[n - 1];
        }
      }
    }
  }

  /** `find_tickers` (its default threshold is 3.0): one pass over the market list, appending every surging market. */
  method FindTickers(tickers: seq<string>, frames: map<string, seq<Candle>>, threshold: real) returns (result: seq<string>)
    ensures result == Surging(tickers, frames, threshold)
  {
    result := [];
    var i := 0;
    while i < |tickers|
      invariant 0 <= i <= |tickers|
      invariant result == Surging(tickers[..i], frames, threshold)
    {
      var ticker := tickers[i];
      assert tickers[..i + 1][..i] == tickers[..i];
      i := i + 1;
      if ticker !in frames || |frames[ticker]| < 2 {
        continue;
      }
      var df := frames[ticker];
      var volNow := df[|df| - 1].volume;
      var volPrev := df[|df| - 2].volume;
      if volPrev == 0.0 {
        continue;
      }
      if volNow / volPrev >= threshold {
        result := result + [ticker];
      }
    }
    assert tickers[..|tickers|] == tickers;
  }

  // ---------------------------------------------------------------------------
  // The rule chain
  // ---------------------------------------------------------------------------

  /** Fewest second candles the rules look at. */
  const MIN_CANDLES: nat := 100

  /** A PnL rate at or below this sells everything. */
  const STOP_LOSS_RATE: real := -0.03

  /** Share of the KRW balance one entry spends. */
  const PERCENTAGE_BUY: real := 0.1

  /** Share of the holding one take-profit sells. */
  const PERCENTAGE_SELL: real := 0.5

  /** Seconds that must pass after a recorded buy before the next one. */
  const BUY_DELAY: real := 5.0

  /** What one call decides to do with the market. */
  datatype Action = NoOrder | BuyPercent(fraction: real) | SellPercent(fraction: real)

  /** The indicator values the rules compare. */
  datatype Indicators = Indicators(pnl: real, bullish: real, slope3: real, slope5: real, slope10: real,
                                   slope30: real, slope100: real, strength: Strength)

  /** A market never bought, or bought at least BUY_DELAY seconds before now. */
  function DelayPassed(buyTimeMap: map<string, real>, ticker: string, now: real): (r: bool)
    ensures ticker !in buyTimeMap ==> r
    ensures ticker in buyTimeMap ==> (r <==> buyTimeMap[ticker] <= now - BUY_DELAY)
  {
    ticker !in buyTimeMap || now - buyTimeMap[ticker] >= BUY_DELAY
  }

  predicate StopLoss(s: Indicators)
  {
    s.pnl <= STOP_LOSS_RATE
  }

  /** Mostly rising candles, both the short and the long trend up, buyers leading. */
  predicate EntrySignal(s: Indicators)
  {
    s.bullish >= 0.6 && s.slope5 > 0.0 && s.slope100 > 0.2 && StrengthAbove(s.strength, 1.0)
  }

  /** Any of the short trends falling steeply. */
  predicate TrendBreak(s: Indicators)
  {
    s.slope3 <= -0.7 || s.slope10 <= -0.5 || s.slope30 <= -0.3
  }

  /** The if/elif chain: each rule applies only when every earlier one did not. */
  function Decide(s: Indicators, delayPassed: bool): (a: Action)
    ensures StopLoss(s) ==> a == SellPercent(1.0)
    ensures a.BuyPercent? <==> !StopLoss(s) && EntrySignal(s) && delayPassed
    ensures a.BuyPercent? ==> a.fraction == PERCENTAGE_BUY
    ensures a.SellPercent? && !StopLoss(s) ==> a.fraction == PERCENTAGE_SELL && TrendBreak(s)
    ensures a.NoOrder? <==> !StopLoss(s) && !(EntrySignal(s) && delayPassed) && !TrendBreak(s)
  {
    if StopLoss(s) then SellPercent(1.0)
    else if EntrySignal(s) && delayPassed then BuyPercent(PERCENTAGE_BUY)
    else if TrendBreak(s) then SellPercent(PERCENTAGE_SELL)
    else NoOrder
  }

  /** The indicators over a frame of at least MIN_CANDLES second candles. */
  function ComputeIndicators(c: seq<Candle>, pnl: real, trades: Option<seq<Trade>>): (s: Indicators)
    requires |c| >= MIN_CANDLES
    ensures 0.0 <= s.bullish <= 1.0 && s.pnl == pnl
  {
    Indicators(pnl, GetBullishRatio(Some(c), 10),
               CalculateTrendSlope(Some(c), 3), CalculateTrendSlope(Some(c), 5), CalculateTrendSlope(Some(c), 10),
               CalculateTrendSlope(Some(c), 30), CalculateTrendSlope(Some(c), 100), TradeStrength(trades))
  }

  /** The whole decision for one market. No frame or a short one decides nothing;
      so does a market symbol without '-', whose PnL lookup raises and is caught. */
  function DecideFor(df: Option<seq<Candle>>, balances: seq<Balance>, prices: map<string, real>, ticker: string,
                     trades: Option<seq<Trade>>, buyTimeMap: map<string, real>, now: real): (a: Action)
    ensures df.None? || |df.value| < MIN_CANDLES || '-' !in ticker ==> a == NoOrder
  {
    if df.None? || |df.value| < MIN_CANDLES then NoOrder
    else
      match PnlRate(ticker, balances, prices)
      case None => NoOrder
      case Some(pnl) => Decide(ComputeIndicators(df.value, pnl, trades), DelayPassed(buyTimeMap, ticker, now))
  }

  /** What the chosen action does on the account: None when nothing is called. */
  function ActionOutcome(a: Action, krw: real, holdings: map<string, real>, ticker: string, dryRun: bool): (o: Option<Outcome>)
    ensures o.None? <==> a.NoOrder?
    ensures o.Some? && o.value.Submitted? ==> !dryRun
    ensures a.BuyPercent? ==> o == Some(PercentageBuy(MarketBuy, krw, ticker, a.fraction, dryRun))
    ensures a.SellPercent? ==> o == Some(SellMarketPercentageOutcome(holdings, ticker, a.fraction, dryRun))
  {
    match a
    case NoOrder => None
    case BuyPercent(f) => Some(PercentageBuy(MarketBuy, krw, ticker, f, dryRun))
    case SellPercent(f) => Some(SellMarketPercentageOutcome(holdings, ticker, f, dryRun))
  }

  /** Orders an optional outcome sends to the exchange. */
  function SentBy(o: Option<Outcome>): (r: seq<Order>)
    ensures |r| <= 1
  {
    if o.None? then [] else Sent(o.value)
  }

  // ---------------------------------------------------------------------------
  // Properties of the decision
  // ---------------------------------------------------------------------------

  /** Stop-loss wins over every other indicator. */
  lemma StopLossPriority(c: seq<Candle>, balances: seq<Balance>, prices: map<string, real>, ticker: string,
                         trades: Option<seq<Trade>>, buyTimeMap: map<string, real>, now: real)
    requires |c| >= MIN_CANDLES
    requires PnlRate(ticker, balances, prices).Some? && PnlRate(ticker, balances, prices).value <= STOP_LOSS_RATE
    ensures DecideFor(Some(c), balances, prices, ticker, trades, buyTimeMap, now) == SellPercent(1.0)
  {
  }

  /** An entry of 10 percent happens exactly when every entry condition holds. */
  lemma BuyIff(df: Option<seq<Candle>>, balances: seq<Balance>, prices: map<string, real>, ticker: string,
               trades: Option<seq<Trade>>, buyTimeMap: map<string, real>, now: real)
    ensures DecideFor(df, balances, prices, ticker, trades, buyTimeMap, now) == BuyPercent(PERCENTAGE_BUY) <==>
              df.Some? && |df.value| >= MIN_CANDLES &&
              PnlRate(ticker, balances, prices).Some? && PnlRate(ticker, balances, prices).value > STOP_LOSS_RATE &&
              GetBullishRatio(df, 10) >= 0.6 &&
              CalculateTrendSlope(df, 5) > 0.0 && CalculateTrendSlope(df, 100) > 0.2 &&
              StrengthAbove(TradeStrength(trades), 1.0) &&
              DelayPassed(buyTimeMap, ticker, now)
  {
  }

  /** A take-profit of half the holding happens exactly when neither earlier rule
      fired and a short trend broke down. */
  lemma TakeProfitIff(df: Option<seq<Candle>>, balances: seq<Balance>, prices: map<string, real>, ticker: string,
                      trades: Option<seq<Trade>>, buyTimeMap: map<string, real>, now: real)
    ensures DecideFor(df, balances, prices, ticker, trades, buyTimeMap, now) == SellPercent(PERCENTAGE_SELL) <==>
              df.Some? && |df.value| >= MIN_CANDLES &&
              PnlRate(ticker, balances, prices).Some? && PnlRate(ticker, balances, prices).value > STOP_LOSS_RATE &&
              !(GetBullishRatio(df, 10) >= 0.6 &&
                CalculateTrendSlope(df, 5) > 0.0 && CalculateTrendSlope(df, 100) > 0.2 &&
                StrengthAbove(TradeStrength(trades), 1.0) &&
                DelayPassed(buyTimeMap, ticker, now)) &&
              (CalculateTrendSlope(df, 3) <= -0.7 || CalculateTrendSlope(df, 10) <= -0.5 || CalculateTrendSlope(df, 30) <= -0.3)
  {
  }

  /** A buy recorded less than BUY_DELAY seconds ago blocks every entry. */
  lemma CooldownBlocksBuy(df: Option<seq<Candle>>, balances: seq<Balance>, prices: map<string, real>, ticker: string,
                          trades: Option<seq<Trade>>, buyTimeMap: map<string, real>, now: real)
    requires ticker in buyTimeMap && now - buyTimeMap[ticker] < BUY_DELAY
    ensures !DecideFor(df, balances, prices, ticker, trades, buyTimeMap, now).BuyPercent?
  {
  }

  /** The buy-time map starts empty and nothing writes it, so the delay always counts as passed. */
  lemma EmptyBuyTimeMapNeverDelays(ticker: string, now: real)
    ensures DelayPassed(map[], ticker, now)
  {
  }

  /** A stop-loss on a live account sells the whole positive holding at market. */
  lemma StopLossSellsWholeHolding(krw: real, holdings: map<string, real>, ticker: string)
    requires '-' in ticker && HeldAmount(holdings, BaseAsset(ticker).value) > 0.0
    ensures ActionOutcome(SellPercent(1.0), krw, holdings, ticker, false) ==
              Some(Submitted(Order(MarketSell, ticker, HeldAmount(holdings, BaseAsset(ticker).value))))
  {
    var held := HeldAmount(holdings, BaseAsset(ticker).value);
    assert held * Clamp01(1.0) == held;
  }

  /** A take-profit without a position reaches the sell function and is skipped there. */
  lemma TakeProfitWithoutPositionSkips(krw: real, holdings: map<string, real>, ticker: string, dryRun: bool)
    requires '-' in ticker && HeldAmount(holdings, BaseAsset(ticker).value) == 0.0
    ensures ActionOutcome(SellPercent(PERCENTAGE_SELL), krw, holdings, ticker, dryRun) == Some(Skipped(NoHoldings))
  {
  }

  /** An entry spends a tenth of the KRW balance, which passes the minimum exactly
      from a balance of 50000 KRW on. */
  lemma BuyOrderIsTenPercent(krw: real, holdings: map<string, real>, ticker: string, dryRun: bool)
    ensures var o := ActionOutcome(BuyPercent(PERCENTAGE_BUY), krw, holdings, ticker, dryRun);
            o.Some? && (Accepted(o.value) <==> krw >= 50000.0) &&
            (Accepted(o.value) ==> o.value.order.amount == krw / 10.0)
  {
    assert Clamp01(PERCENTAGE_BUY) == 0.1;
    assert Min(krw, krw * 0.1) == krw * 0.1 <==> krw >= 0.0;
  }

  /** With 100 candles, an average price of 100 and a price of 96.9 (a rate of
      -3.1 percent) the rules pick the stop-loss, whatever the other indicators. */
  lemma StopLossExample(c: seq<Candle>, trades: Option<seq<Trade>>, buyTimeMap: map<string, real>, now: real)
    requires |c| == 100
    ensures DecideFor(Some(c), [Balance("BTC", 1.0, 100.0)], map["KRW-BTC" := 96.9], "KRW-BTC", trades, buyTimeMap, now)
            == SellPercent(1.0)
  {
    PnlRateExample();
    StopLossPriority(c, [Balance("BTC", 1.0, 100.0)], map["KRW-BTC" := 96.9], "KRW-BTC", trades, buyTimeMap, now);
  }

  /** ... and, on a live account holding 1 BTC, that sells the whole 1 BTC at market. */
  lemma StopLossExampleOrder(krw: real)
    ensures ActionOutcome(SellPercent(1.0), krw, map["BTC" := 1.0], "KRW-BTC", false)
            == Some(Submitted(Order(MarketSell, "KRW-BTC", 1.0)))
  {
    BaseAssetOfMarket("KRW", "BTC", "");
    assert "KRW" + "-" + "BTC" + "" == "KRW-BTC";
    assert HeldAmount(map["BTC" := 1.0], "BTC") == 1.0;
    StopLossSellsWholeHolding(krw, map["BTC" := 1.0], "KRW-BTC");
  }

  // ---------------------------------------------------------------------------
  // The bot
  // ---------------------------------------------------------------------------

  /** The module-level state of the bot: the time of the last buy per market.
      It is only ever read. */
  class Scalper {
    var buyTimeMap: map<string, real>

    constructor ()
      ensures buyTimeMap == map[]
    {
      buyTimeMap := map[];
    }

    /** `algorithm` for one market: the data guard, the indicators, the cooldown
        check and the rule chain, then the one order function the rule calls. */
    method Algorithm(ex: Upbit, balances: seq<Balance>, prices: map<string, real>, ticker: string,
                     df: Option<seq<Candle>>, trades: Option<seq<Trade>>, now: real, dryRun: bool)
      returns (a: Action, o: Option<Outcome>)
      modifies ex`placed
      ensures a == DecideFor(df, balances, prices, ticker, trades, buyTimeMap, now)
      ensures o == ActionOutcome(a, ex.krw, ex.holdings, ticker, dryRun)
      ensures ex.placed == old(ex.placed) + SentBy(o)
      ensures buyTimeMap == old(buyTimeMap)
    {
      if df.None? || |df.value| < MIN_CANDLES {
        return NoOrder, None;
      }
      var c := df.value;
      var slope100 := CalculateTrendSlope(df, 100);
      var slope30 := CalculateTrendSlope(df, 30);
      var slope10 := CalculateTrendSlope(df, 10);
      var slope5 := CalculateTrendSlope(df, 5);
      var slope3 := CalculateTrendSlope(df, 3);
      var bullish := GetBullishRatio(df, 10);
      var pnl := GetTickerPnlRate(ticker, balances, prices);
      if pnl.None? {
        return NoOrder, None;
      }
      var strength := TradeStrength(trades);
      var delayPassed := true;
      if ticker in buyTimeMap {
        delayPassed := now - buyTimeMap[ticker] >= BUY_DELAY;
      }
      var s := Indicators(pnl.value, bullish, slope3, slope5, slope10, slope30, slope100, strength);
      assert s == ComputeIndicators(c, pnl.value, trades);
      if StopLoss(s) {
        a := SellPercent(1.0);
        var r := SellMarketPercentage(ex, ticker, 1.0, dryRun);
        o := Some(r);
      } else if EntrySignal(s) && delayPassed {
        a := BuyPercent(PERCENTAGE_BUY);
        var r := BuyMarketPercentage(ex, ticker, PERCENTAGE_BUY, dryRun);
        o := Some(r);
      } else if TrendBreak(s) {
        a := SellPercent(PERCENTAGE_SELL);
        var r := SellMarketPercentage(ex, ticker, PERCENTAGE_SELL, dryRun);
        o := Some(r);
      } else {
        a, o := NoOrder, None;
      }
    }
  }
}
