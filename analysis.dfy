/**
  The analysis record built by analyze_coin from the already-fetched market data:
  the two volatilities, the 24-hour ticker, the latest funding rate and the daily
  candles of the 14-day window.
 */
module Analysis {
  import opened Wrappers
  import opened Rounding
  import opened PriceRange

  /** The dictionary returned by analyze_coin. */
  datatype MarketAnalysis = MarketAnalysis(
    coin: string,
    dailyVolatility: real,   // percent, 2 decimals
    weeklyVolatility: real,  // percent, 2 decimals
    volume: real,            // millions of USD, 2 decimals
    fundingFee: real,        // percent, 4 decimals
    rangeHigh: real,         // quote currency, 2 decimals
    rangeLow: real           // quote currency, 2 decimals
  )

  /** get_volume: 24-hour base-asset volume valued at the last price (quote currency). */
  function QuoteVolume(baseVolume: real, lastPrice: real): (v: real)
    ensures lastPrice != 0.0 ==> v / lastPrice == baseVolume
    ensures lastPrice == 0.0 ==> v == 0.0
    ensures baseVolume >= 0.0 && lastPrice >= 0.0 ==> v >= 0.0
  {
    baseVolume * lastPrice
  }

  /** get_funding_rate: the fractional funding rate expressed as a percentage. */
  function FundingPercent(fundingRate: real): (pct: real)
    ensures pct / 100.0 == fundingRate
    ensures pct > 0.0 <==> fundingRate > 0.0
  {
    fundingRate * 100.0
  }

  /** The conversion to millions in analyze_coin. */
  function Millions(amount: real): (m: real)
    ensures m * 1000000.0 == amount
  {
    amount / 1000000.0
  }

  /**
    analyze_coin. The volatilities come from calculate_volatility, which is not part of this
    model, so they are parameters. The only error the record assembly itself can raise is
    the empty candle window; every field is Python's round of its converted quantity.
   */
  function AnalyzeCoin(symbol: string, dailyVol: real, weeklyVol: real,
                       baseVolume: real, lastPrice: real, fundingRate: real,
                       candles: seq<Candle>): (r: Result<MarketAnalysis>)
    ensures r.Err? <==> candles == []
    ensures r.Err? ==> r.error == MaxOfEmpty
    ensures r.Ok? ==>
      && r.value.coin == symbol
      && r.value.dailyVolatility == RoundTo(dailyVol, 2)
      && r.value.weeklyVolatility == RoundTo(weeklyVol, 2)
      && r.value.volume == RoundTo(baseVolume * lastPrice / 1000000.0, 2)
      && r.value.fundingFee == RoundTo(fundingRate * 100.0, 4)
      && r.value.rangeHigh == RoundTo(GetPriceRange(candles).value.high, 2)
      && r.value.rangeLow == RoundTo(GetPriceRange(candles).value.low, 2)
  {
    var volume := QuoteVolume(baseVolume, lastPrice);
    var funding := FundingPercent(fundingRate);
    match GetPriceRange(candles)
    case Err(e) => Err(e)
    case Ok(range) =>
      Ok(MarketAnalysis(
        symbol,
        RoundTo(dailyVol, 2),
        RoundTo(weeklyVol, 2),
        RoundTo(Millions(volume), 2),
        RoundTo(funding, 4),
        RoundTo(range.high, 2),
        RoundTo(range.low, 2)))
  }

  /**
    Every numeric field is within half a unit of its last kept decimal of the exact quantity:
    the volatilities of their unrounded values, volume of baseVolume * lastPrice / 10^6,
    the funding fee of fundingRate * 100, and the range bounds of the highest high and
    the lowest low of the window.
   */
  lemma {:induction false} AnalysisAccuracy(symbol: string, dailyVol: real, weeklyVol: real,
                                            baseVolume: real, lastPrice: real, fundingRate: real,
                                            candles: seq<Candle>)
    requires candles != []
    ensures AnalyzeCoin(symbol, dailyVol, weeklyVol, baseVolume, lastPrice, fundingRate, candles).Ok?
    ensures var a := AnalyzeCoin(symbol, dailyVol, weeklyVol, baseVolume, lastPrice, fundingRate, candles).value;
      && dailyVol - 0.005 <= a.dailyVolatility <= dailyVol + 0.005
      && weeklyVol - 0.005 <= a.weeklyVolatility <= weeklyVol + 0.005
      && baseVolume * lastPrice / 1000000.0 - 0.005 <= a.volume <= baseVolume * lastPrice / 1000000.0 + 0.005
      && fundingRate * 100.0 - 0.00005 <= a.fundingFee <= fundingRate * 100.0 + 0.00005
      && GetPriceRange(candles).value.high - 0.005 <= a.rangeHigh <= GetPriceRange(candles).value.high + 0.005
      && GetPriceRange(candles).value.low - 0.005 <= a.rangeLow <= GetPriceRange(candles).value.low + 0.005
  {
    assert Pow10(2) == 100 by { assert Pow10(1) == 10; }
    assert Pow10(4) == 10000 by { assert Pow10(3) == 1000 by { assert Pow10(1) == 10; } }
    var range := GetPriceRange(candles).value;
    RoundToError(dailyVol, 2);
    RoundToError(weeklyVol, 2);
    RoundToError(baseVolume * lastPrice / 1000000.0, 2);
    RoundToError(fundingRate * 100.0, 4);
    RoundToError(range.high, 2);
    RoundToError(range.low, 2);
  }

  /** Rounding keeps the range the right way round: with well-formed candles rangeHigh >= rangeLow. */
  lemma {:induction false} AnalysisRangeOrdered(symbol: string, dailyVol: real, weeklyVol: real,
                                                baseVolume: real, lastPrice: real, fundingRate: real,
                                                candles: seq<Candle>)
    requires candles != []
    requires forall i :: 0 <= i < |candles| ==> WellFormed(candles[i])
    ensures AnalyzeCoin(symbol, dailyVol, weeklyVol, baseVolume, lastPrice, fundingRate, candles).Ok?
    ensures var a := AnalyzeCoin(symbol, dailyVol, weeklyVol, baseVolume, lastPrice, fundingRate, candles).value;
      a.rangeLow <= a.rangeHigh
  {
    RangeOrdered(candles);
    var range := GetPriceRange(candles).value;
    RoundToMonotone(range.low, range.high, 2);
  }
}
