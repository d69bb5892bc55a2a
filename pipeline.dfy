/**
  print_analysis without the printing: analyze_coin followed by calculate_grid_settings
  on its result.
 */
module Pipeline {
  import opened Wrappers
  import opened Rounding
  import opened PriceRange
  import opened Analysis
  import opened GridSettings

  datatype Report = Report(analysis: MarketAnalysis, settings: Settings)

  /** The two calls as the program makes them: the settings see the rounded analysis. */
  function Run(symbol: string, dailyVol: real, weeklyVol: real,
               baseVolume: real, lastPrice: real, fundingRate: real,
               candles: seq<Candle>): (r: Result<Report>)
    ensures candles == [] ==> r == Err(MaxOfEmpty)
    ensures candles != [] && r.Err? ==> r.error == DivisionByZero
    ensures r.Ok? <==> candles != [] && RoundTo(GetPriceRange(candles).value.low, 2) != 0.0
    ensures r.Ok? ==>
      && AnalyzeCoin(symbol, dailyVol, weeklyVol, baseVolume, lastPrice, fundingRate, candles) == Ok(r.value.analysis)
      && CalculateGridSettings(r.value.analysis) == Ok(r.value.settings)
  {
    match AnalyzeCoin(symbol, dailyVol, weeklyVol, baseVolume, lastPrice, fundingRate, candles)
    case Err(e) => Err(e)
    case Ok(a) =>
      match CalculateGridSettings(a)
      case Err(e) => Err(e)
      case Ok(s) => Ok(Report(a, s))
  }

  /**
    When every low in the window is above 0.005 and every candle is well formed, the
    program reports settings whose grid count lies in 0..50.
   */
  lemma {:induction false} RunGridCountInRange(symbol: string, dailyVol: real, weeklyVol: real,
                                               baseVolume: real, lastPrice: real, fundingRate: real,
                                               candles: seq<Candle>)
    requires candles != []
    requires forall i :: 0 <= i < |candles| ==> WellFormed(candles[i]) && candles[i].low > 0.005
    ensures Run(symbol, dailyVol, weeklyVol, baseVolume, lastPrice, fundingRate, candles).Ok?
    ensures 0 <= Run(symbol, dailyVol, weeklyVol, baseVolume, lastPrice, fundingRate, candles).value.settings.gridCount <= 50
  {
    var a := AnalyzeCoin(symbol, dailyVol, weeklyVol, baseVolume, lastPrice, fundingRate, candles).value;
    var range := GetPriceRange(candles).value;
    var i :| 0 <= i < |candles| && candles[i].low == range.low;
    RoundToPositive(range.low);
    AnalysisRangeOrdered(symbol, dailyVol, weeklyVol, baseVolume, lastPrice, fundingRate, candles);
    GridCountBounds(a.rangeLow, a.rangeHigh);
  }

  /**
    The range is rounded to two decimals before the grid count divides by it, so a window
    whose lowest low is positive but below 0.005 (a sub-cent coin) makes the program raise
    ZeroDivisionError although every price is valid.
   */
  lemma {:induction false} RunDividesByZeroBelowHalfCent(symbol: string, dailyVol: real, weeklyVol: real,
                                                         baseVolume: real, lastPrice: real, fundingRate: real,
                                                         candles: seq<Candle>, j: nat)
    requires j < |candles|
    requires forall i :: 0 <= i < |candles| ==> candles[i].low > 0.0
    requires candles[j].low < 0.005
    ensures Run(symbol, dailyVol, weeklyVol, baseVolume, lastPrice, fundingRate, candles) == Err(DivisionByZero)
  {
    var range := GetPriceRange(candles).value;
    var i :| 0 <= i < |candles| && candles[i].low == range.low;
    RoundToZero(range.low);
  }

  /** One such window: a single candle trading between 0.0031 and 0.0042. */
  lemma ExampleSubCentCoinFails()
    ensures Run("COINUSDT", 5.0, 12.0, 1000000.0, 0.004, 0.0001, [Candle(0.0042, 0.0031)]) == Err(DivisionByZero)
  {
    RunDividesByZeroBelowHalfCent("COINUSDT", 5.0, 12.0, 1000000.0, 0.004, 0.0001, [Candle(0.0042, 0.0031)], 0);
  }

  /**
    The evidently intended pipeline: the grid count is derived from the unrounded range,
    and rounding is applied only to the figures shown.
   */
  function RunCorrected(symbol: string, dailyVol: real, weeklyVol: real,
                        baseVolume: real, lastPrice: real, fundingRate: real,
                        candles: seq<Candle>): (r: Result<Report>)
    ensures candles == [] ==> r == Err(MaxOfEmpty)
    ensures candles != [] && r.Err? ==> r.error == DivisionByZero
    ensures r.Ok? <==> candles != [] && GetPriceRange(candles).value.low != 0.0
    ensures r.Ok? ==>
      && AnalyzeCoin(symbol, dailyVol, weeklyVol, baseVolume, lastPrice, fundingRate, candles) == Ok(r.value.analysis)
      && r.value.settings.rangeLow == r.value.analysis.rangeLow
      && r.value.settings.rangeHigh == r.value.analysis.rangeHigh
      && r.value.settings.leverage == 20
      && r.value.settings.stopLoss == 20
      && r.value.settings.takeProfit == 75
      && r.value.settings.bnbCommission == "Evet"
      && GetPriceRange(candles).Ok? && GetPriceRange(candles).value.low != 0.0
      && r.value.settings.gridCount == GridCount(GetPriceRange(candles).value.low, GetPriceRange(candles).value.high)
  {
    match AnalyzeCoin(symbol, dailyVol, weeklyVol, baseVolume, lastPrice, fundingRate, candles)
    case Err(e) => Err(e)
    case Ok(a) =>
      var range := GetPriceRange(candles).value;
      match CalculateGridSettings(a.(rangeLow := range.low, rangeHigh := range.high))
      case Err(e) => Err(e)
      case Ok(s) => Ok(Report(a, s.(rangeLow := a.rangeLow, rangeHigh := a.rangeHigh)))
  }

  /**
    The corrected pipeline succeeds on every non-empty window of well-formed candles with
    positive prices, however small, and its grid count lies in 0..50.
   */
  lemma {:induction false} RunCorrectedGridCountInRange(symbol: string, dailyVol: real, weeklyVol: real,
                                                        baseVolume: real, lastPrice: real, fundingRate: real,
                                                        candles: seq<Candle>)
    requires candles != []
    requires forall i :: 0 <= i < |candles| ==> WellFormed(candles[i]) && candles[i].low > 0.0
    ensures RunCorrected(symbol, dailyVol, weeklyVol, baseVolume, lastPrice, fundingRate, candles).Ok?
    ensures 0 <= RunCorrected(symbol, dailyVol, weeklyVol, baseVolume, lastPrice, fundingRate, candles).value.settings.gridCount <= 50
  {
    var range := GetPriceRange(candles).value;
    RangeLowPositive(candles);
    RangeOrdered(candles);
    GridCountBounds(range.low, range.high);
  }

  /** On the sub-cent window above, the corrected pipeline reports the full 50 grids. */
  lemma ExampleSubCentCoinCorrected()
    ensures RunCorrected("COINUSDT", 5.0, 12.0, 1000000.0, 0.004, 0.0001, [Candle(0.0042, 0.0031)]).Ok?
    ensures RunCorrected("COINUSDT", 5.0, 12.0, 1000000.0, 0.004, 0.0001, [Candle(0.0042, 0.0031)]).value.settings.gridCount == 50
  {
    var candles := [Candle(0.0042, 0.0031)];
    var range := GetPriceRange(candles).value;
    assert range == Range(0.0042, 0.0031);
    assert GridQuotient(0.0031, 0.0042) >= 50.0;
  }
}
