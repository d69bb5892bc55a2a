/**
  calculate_grid_settings: the grid-bot configuration recommended for an analysis.
  The grid count is the number of whole steps of 0.5% of range_low that fit between
  range_low and range_high, capped at 50; everything else is fixed policy.
 */
module GridSettings {
  import opened Wrappers
  import opened Analysis

  const Leverage: int := 20
  const StopLoss: int := 20
  const TakeProfit: int := 75
  const BnbCommission: string := "Evet"
  const MaxGrids: int := 50
  /** Minimum grid spacing, as a fraction of range_low. */
  const MinSpacing: real := 0.005

  /** The dictionary returned by calculate_grid_settings. The display string
      "$low - $high" is represented by the two bounds it shows. */
  datatype Settings = Settings(
    leverage: int,
    rangeLow: real,
    rangeHigh: real,
    gridCount: int,
    stopLoss: int,
    takeProfit: int,
    bnbCommission: string
  )

  /** Python's int() on a float: truncation toward zero. */
  function TruncToInt(x: real): (n: int)
    ensures 0.0 <= x ==> n as real <= x < n as real + 1.0
    ensures x < 0.0 ==> n as real - 1.0 < x <= n as real
  {
    if x >= 0.0 then x.Floor else -((-x).Floor)
  }

  /** `price_range / (range_low * 0.005)`: the range measured in steps of 0.5% of the low. */
  function GridQuotient(low: real, high: real): (q: real)
    requires low != 0.0
    ensures q * (low * MinSpacing) == high - low
  {
    (high - low) / (low * MinSpacing)
  }

  /** `min(int(price_range / (range_low * 0.005)), 50)`. */
  function GridCount(low: real, high: real): (n: int)
    requires low != 0.0
    ensures n <= MaxGrids
    ensures n == MaxGrids <==> GridQuotient(low, high) >= MaxGrids as real
    ensures GridQuotient(low, high) < MaxGrids as real ==> n == TruncToInt(GridQuotient(low, high))
  {
    var raw := TruncToInt(GridQuotient(low, high));
    if raw < MaxGrids then raw else MaxGrids
  }

  /**
    calculate_grid_settings. Dividing by range_low * 0.005 raises ZeroDivisionError exactly
    when range_low is 0.0; otherwise the settings carry the fixed policy constants, the
    analysis' range, and a grid count that never exceeds 50.
   */
  function CalculateGridSettings(a: MarketAnalysis): (r: Result<Settings>)
    ensures r.Err? <==> a.rangeLow == 0.0
    ensures r.Err? ==> r.error == DivisionByZero
    ensures r.Ok? ==>
      && r.value.leverage == 20
      && r.value.stopLoss == 20
      && r.value.takeProfit == 75
      && r.value.bnbCommission == "Evet"
      && r.value.rangeLow == a.rangeLow
      && r.value.rangeHigh == a.rangeHigh
      && r.value.gridCount <= 50
      && r.value.gridCount == GridCount(a.rangeLow, a.rangeHigh)
  {
    if a.rangeLow == 0.0 then Err(DivisionByZero)
    else
      Ok(Settings(
        Leverage,
        a.rangeLow,
        a.rangeHigh,
        GridCount(a.rangeLow, a.rangeHigh),
        StopLoss,
        TakeProfit,
        BnbCommission))
  }

  /** Two analyses with a usable range get the same leverage, stop-loss, take-profit and
      commission setting: only the grid count and the displayed range depend on the analysis. */
  lemma PolicyIndependentOfAnalysis(a: MarketAnalysis, b: MarketAnalysis)
    requires a.rangeLow != 0.0 && b.rangeLow != 0.0
    ensures CalculateGridSettings(a).Ok? && CalculateGridSettings(b).Ok?
    ensures var s, t := CalculateGridSettings(a).value, CalculateGridSettings(b).value;
      s.(gridCount := 0, rangeLow := 0.0, rangeHigh := 0.0) == t.(gridCount := 0, rangeLow := 0.0, rangeHigh := 0.0)
  {
  }

  lemma {:induction false} TruncMonotone(x: real, y: real)
    requires x <= y
    ensures TruncToInt(x) <= TruncToInt(y)
  {
    if x >= 0.0 {
      assert x.Floor <= y.Floor;
    } else if y < 0.0 {
      assert (-y).Floor <= (-x).Floor;
    }
  }

  lemma {:induction false} QuotientMonotone(low: real, high: real, high': real)
    requires low > 0.0 && high <= high'
    ensures GridQuotient(low, high) <= GridQuotient(low, high')
  {
    var step := low * MinSpacing;
    assert step > 0.0;
    assert (high - low) / step * step == high - low;
    assert (high' - low) / step * step == high' - low;
  }

  /** For a positive range_low, raising range_high never lowers the grid count. */
  lemma {:induction false} GridCountMonotone(low: real, high: real, high': real)
    requires low > 0.0 && high <= high'
    ensures GridCount(low, high) <= GridCount(low, high')
  {
    QuotientMonotone(low, high, high');
    TruncMonotone(GridQuotient(low, high), GridQuotient(low, high'));
  }

  /** With 0 < range_low <= range_high the grid count lies in 0..50. */
  lemma {:induction false} GridCountBounds(low: real, high: real)
    requires 0.0 < low <= high
    ensures 0 <= GridCount(low, high) <= MaxGrids
  {
    QuotientMonotone(low, low, high);
    assert GridQuotient(low, low) == 0.0;
  }

  /**
    Below the cap, the grid count is exactly the number of whole grid steps of 0.5% of
    range_low that fit into the price range: n steps fit, n + 1 do not.
   */
  lemma {:induction false} GridCountIsWholeSteps(low: real, high: real)
    requires 0.0 < low <= high
    requires GridCount(low, high) < MaxGrids
    ensures var n := GridCount(low, high) as real;
      n * (low * MinSpacing) <= high - low < (n + 1.0) * (low * MinSpacing)
  {
    var step := low * MinSpacing;
    var q := GridQuotient(low, high);
    GridCountBounds(low, high);
    assert q * step == high - low;
    var n := GridCount(low, high) as real;
    assert n <= q < n + 1.0;
    MulStrict(q, n + 1.0, step);
    assert high - low < (n + 1.0) * step;
    assert n * step <= q * step;
  }

  lemma MulStrict(a: real, b: real, s: real)
    requires a < b && s > 0.0
    ensures a * s < b * s
  {
  }

  /** A one-unit range over a low of 100 fits two 0.5 steps. */
  lemma ExampleTwoGrids()
    ensures GridCount(100.0, 101.0) == 2
  {
    assert GridQuotient(100.0, 101.0) == 2.0;
  }

  /** A range of exactly 100 steps is cut down to the cap. */
  lemma ExampleCapped()
    ensures GridCount(10.0, 15.0) == 50
  {
    assert GridQuotient(10.0, 15.0) == 100.0;
  }

  /** An inverted range truncates toward zero: -0.5 steps gives 0 grids, not floor's -1. */
  lemma ExampleTruncatesTowardZero()
    ensures GridCount(100.0, 99.75) == 0
  {
    assert GridQuotient(100.0, 99.75) == -0.5;
  }
}
