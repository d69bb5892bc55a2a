# Grid-bot analyzer: range, unit conversion and grid-settings model

This project models, in Dafny, the numeric core of `GridBotAnalyzer` (`grid_bot_code.py`),
a small utility that looks at a Binance futures symbol and recommends a grid-bot
configuration. The analyzer:

- reduces the daily candles of a 14-day window to a price range: the highest high and the
  lowest low (`get_price_range`);
- converts the 24-hour ticker volume to millions of quote currency and the funding rate to
  a percentage (`get_volume`, `get_funding_rate`, `analyze_coin`);
- rounds every figure with Python's `round`, to 2 decimals (4 for the funding fee), into an
  analysis record (`analyze_coin`);
- derives the grid settings from that record (`calculate_grid_settings`). The grid count is
  the number of whole steps of 0.5% of `range_low` that fit between `range_low` and
  `range_high`, capped at 50. Leverage 20, stop-loss 20, take-profit 75 and the BNB
  commission flag "Evet" are fixed policy.

Everything is modelled with pure functions and lemmas, as in the source: the class's only
field, the exchange client, is set once and never changed. Floats are modelled as exact
`real`s. Python exceptions raised by the modelled code become `Err` values of a `Result`:
`MaxOfEmpty` for `max()` of an empty list and `DivisionByZero` for the grid-count division.

Modules (one file each):

- `Wrappers` (`wrappers.dfy`): `Result` and the two failures.
- `Rounding` (`rounding.dfy`): Python's `round(x, n)` on exact reals. The result is the
  multiple of 10^-n nearest to x; an exact tie goes to the even multiple.
- `PriceRange` (`price_range.dfy`): candles, `max(highs)`, `min(lows)`.
- `Analysis` (`analysis.dfy`): the analysis record and the unit conversions.
- `GridSettings` (`grid_settings.dfy`): `int()` truncation, the grid count and the settings record.
- `Pipeline` (`pipeline.dfy`): `analyze_coin` followed by `calculate_grid_settings`, as
  `print_analysis` calls them. It also holds the finding below.

Behaviour of the code worth noting:

- The grid count is converted with `int()`, which truncates toward zero. A negative
  quotient that is not whole therefore moves up to the next integer: -0.5 steps gives 0
  grids. For a positive `range_low` the quotient is negative only for an inverted range
  (`range_high < range_low`).
- The division fails only when `range_low == 0.0`. A negative `range_low` divides without
  error and yields a grid count.
- The only bound the code puts on the grid count is the cap of 50. The count is 0 when
  `range_high == range_low` and can be negative for an inverted range.
- The commission setting is the string "Evet". The price-range label is kept as the two
  bounds it displays.

## Model

| member | source | states |
|---|---|---|
| `Rounding.RoundHalfEven` | grid_bot_code.py:53-58 | the result is an integer within 1/2 of y, and an exact tie goes to the even neighbour (how `round` chooses) |
| `Rounding.RoundTo` | grid_bot_code.py:53-58 | `round(x, n)` times 10^n is the integer nearest to x times 10^n, ties to even: the result is the multiple of 10^-n nearest to x |
| `Rounding.RoundHalfEvenMonotone` | grid_bot_code.py:53-58 | rounding to an integer never reverses the order of two values |
| `Rounding.RoundToMonotone` | grid_bot_code.py:53-58 | `round(x, n) <= round(x', n)` whenever `x <= x'` |
| `Rounding.RoundToError` | grid_bot_code.py:53-58 | `round(x, n)` is within `0.5 * 10^-n` of x |
| `Rounding.RoundToExact` | grid_bot_code.py:53-58 | a value with at most n decimals is returned unchanged by `round(x, n)` |
| `Rounding.RoundToIdempotent` | grid_bot_code.py:53-58 | rounding an already rounded value to the same precision changes nothing |
| `Rounding.RoundToZero` | grid_bot_code.py:58 | every value in [0, 0.005) becomes 0.0 under `round(x, 2)` |
| `Rounding.RoundToPositive` | grid_bot_code.py:58 | every value above 0.005 stays positive under `round(x, 2)` |
| `PriceRange.Highs` | grid_bot_code.py:38 | the list of highs has one entry per candle, the i-th being the i-th candle's high |
| `PriceRange.Lows` | grid_bot_code.py:39 | the list of lows has one entry per candle, the i-th being the i-th candle's low |
| `PriceRange.MaxSeq` | grid_bot_code.py:41 | `max` of a non-empty list is one of its elements and is `>=` every element |
| `PriceRange.MinSeq` | grid_bot_code.py:41 | `min` of a non-empty list is one of its elements and is `<=` every element |
| `PriceRange.GetPriceRange` | grid_bot_code.py:38-41 | fails with `MaxOfEmpty` exactly when there are no candles. Otherwise the high is some candle's high and bounds every high, and the low is some candle's low and bounds every low |
| `PriceRange.RangeOrdered` | grid_bot_code.py:38-41 | if every candle has high >= low and the list is non-empty, the range's high is >= its low |
| `PriceRange.RangeLowPositive` | grid_bot_code.py:39-41 | if every candle's low is positive, so is the range's low |
| `PriceRange.RangeWidens` | grid_bot_code.py:38-41 | adding a candle to the window never lowers the high and never raises the low |
| `Analysis.QuoteVolume` | grid_bot_code.py:19 | the quote volume divided by a non-zero last price gives back the base volume; it is 0 when the last price is 0, and non-negative when volume and price are |
| `Analysis.FundingPercent` | grid_bot_code.py:24 | the percentage divided by 100 gives back the funding rate, and it is positive exactly when the rate is |
| `Analysis.Millions` | grid_bot_code.py:55 | the amount in millions times 10^6 gives back the amount |
| `Analysis.AnalyzeCoin` | grid_bot_code.py:43-59 | fails exactly when the candle window is empty. Otherwise the record holds the symbol and rounded values: `round(volume * lastPrice / 1_000_000, 2)`, `round(fundingRate * 100, 4)`, and `max(highs)` and `min(lows)` each rounded to 2 decimals |
| `Analysis.AnalysisAccuracy` | grid_bot_code.py:53-58 | each numeric field is within half a unit in its last decimal of the exact quantity: the two volatilities, volume and range within 0.005, funding fee within 0.00005 |
| `Analysis.AnalysisRangeOrdered` | grid_bot_code.py:49-58 | with well-formed, non-empty candles, the rounded `range_high` is still `>=` the rounded `range_low` |
| `GridSettings.TruncToInt` | grid_bot_code.py:64 | `int()` truncates toward zero: for x >= 0, n <= x < n + 1; for x < 0, n - 1 < x <= n |
| `GridSettings.GridQuotient` | grid_bot_code.py:63-64 | the quotient times the step `range_low * 0.005` is the price range `range_high - range_low` |
| `GridSettings.GridCount` | grid_bot_code.py:63-69 | the count never exceeds 50. It is exactly 50 iff the quotient `(high - low) / (low * 0.005)` is at least 50. Below that it is the quotient truncated toward zero |
| `GridSettings.CalculateGridSettings` | grid_bot_code.py:61-73 | fails with `DivisionByZero` iff `range_low == 0`. Otherwise: leverage 20, stop-loss 20, take-profit 75, commission "Evet", the analysis' range, and a grid count <= 50 |
| `GridSettings.PolicyIndependentOfAnalysis` | grid_bot_code.py:66-73 | any two analyses with a usable range get settings that differ only in grid count and displayed range |
| `GridSettings.TruncMonotone` | grid_bot_code.py:64 | `int()` truncation is monotone |
| `GridSettings.QuotientMonotone` | grid_bot_code.py:63-64 | for a positive `range_low`, the step quotient grows with `range_high` |
| `GridSettings.GridCountMonotone` | grid_bot_code.py:63-69 | for a fixed positive `range_low`, the grid count is non-decreasing in `range_high` |
| `GridSettings.GridCountBounds` | grid_bot_code.py:63-69 | if `0 < range_low <= range_high`, then `0 <= grid_count <= 50` |
| `GridSettings.GridCountIsWholeSteps` | grid_bot_code.py:63-69 | below the cap, n steps of `0.005 * range_low` fit in the range and n + 1 do not |
| `GridSettings.ExampleTwoGrids` | grid_bot_code.py:63-69 | low 100 and high 101 give 2 grids |
| `GridSettings.ExampleCapped` | grid_bot_code.py:63-69 | low 10 and high 15 give 100 raw steps, capped to 50 |
| `GridSettings.ExampleTruncatesTowardZero` | grid_bot_code.py:63-69 | low 100 and high 99.75 give 0 grids (truncation of -0.5) |
| `Pipeline.Run` | grid_bot_code.py:77-78 | an empty window fails with `MaxOfEmpty`; a non-empty window fails only with `DivisionByZero`. It succeeds exactly when the window is non-empty and its lowest low, rounded to 2 decimals, is not 0. A success is the record `analyze_coin` builds, paired with the settings `calculate_grid_settings` derives from that record |
| `Pipeline.RunGridCountInRange` | grid_bot_code.py:77-78 | a non-empty window of well-formed candles whose lows are all above 0.005 always produces settings, with a grid count in 0..50 |
| `Pipeline.RunDividesByZeroBelowHalfCent` | grid_bot_code.py:58-64 | if every low is positive but one is below 0.005, the program fails with `DivisionByZero` |
| `Pipeline.ExampleSubCentCoinFails` | grid_bot_code.py:58-64 | a single candle trading between 0.0031 and 0.0042 makes the program fail with `DivisionByZero` |
| `Pipeline.RunCorrected` | grid_bot_code.py:77-78 | same record, failures and policy settings (leverage 20, stop-loss 20, take-profit 75, "Evet") as `Run`, but it succeeds exactly when the window is non-empty and its unrounded lowest low is not 0. The grid count comes from the unrounded range; the displayed bounds are the rounded ones |
| `Pipeline.RunCorrectedGridCountInRange` | grid_bot_code.py:77-78 | the corrected pipeline succeeds on every non-empty window of well-formed, positive candles, with a grid count in 0..50 |
| `Pipeline.ExampleSubCentCoinCorrected` | grid_bot_code.py:58-64 | on the sub-cent candle above, the corrected pipeline reports 50 grids |

## Findings

| source | as written | input that shows it | evidently intended | confidence | as-written member | corrected member |
|---|---|---|---|---|---|---|
| grid_bot_code.py:58-64 | `range_low` is rounded to 2 decimals before `calculate_grid_settings` divides by `range_low * 0.005` | a 14-day window whose lowest low is positive and below 0.005, e.g. one candle with high 0.0042 and low 0.0031: `range_low` becomes 0.0 and the division raises ZeroDivisionError | grid settings for every coin with positive prices, with rounding used only for display | medium, not executed | `Pipeline.RunDividesByZeroBelowHalfCent` | `Pipeline.RunCorrectedGridCountInRange` |

## Left out

- `calculate_volatility` (grid_bot_code.py:10-14): the floating-point log returns, `np.std`
  and `np.sqrt` have no exact counterpart over reals. The pandas `shift` also yields a
  leading NaN that `np.std` skips. The two volatilities are inputs of `AnalyzeCoin`.
- All use of the Binance client (grid_bot_code.py:3, 8, 12, 18, 23, 31-36): construction,
  `futures_klines`, `futures_ticker` and `futures_funding_rate` are network I/O. The model
  takes their results as parameters: the candles, the ticker volume and last price, and
  the latest funding rate. Indexing `[0]` of the funding-rate list is part of that fetch.
- The time window from `datetime.now()` and millisecond timestamps (grid_bot_code.py:28-29,
  34-35): it depends on the wall clock. The candles are taken as already limited to the window.
- Binary floating point: values are exact reals. So there is no rounding error in
  `volume * lastPrice`, no representation error in literals such as 0.005, and no
  overflow of `int()` on an infinite quotient. `round` is modelled as round-half-even on
  the exact value; on a float it rounds the nearest binary value. The two differ on
  decimal ties such as 0.005 and on values within half a binary unit of one: the real
  0.00499999999999999999 rounds to 0.0 here, but its nearest float lies just above 0.005
  and Python rounds it to 0.01.
- `GridCount`: a quotient that is whole over the reals can come out slightly below that
  integer in floats, and `int()` then gives one grid fewer. With low 8.00 and high 8.04
  the float difference is 0.0399999999999991, the quotient 0.99999999999998 and the code
  0 grids; `GridCount(8.0, 8.04)` is 1.
- `AnalyzeCoin`, `Run`, `RunCorrected`: the order in which `analyze_coin` calls its
  fetches, and any failure inside them, are not modelled. Only the empty-window error of
  `max()` and `min()` is.
- The text of the `price_range` label (grid_bot_code.py:68): float-to-string formatting is
  not modelled. `Settings` keeps the two bounds the label shows.
- `print_analysis` output (grid_bot_code.py:80-95) and the `__main__` block
  (grid_bot_code.py:98-103): presentation and credentials.
- NaN candle values, for which Python's `max`/`min` depend on position: real numbers have
  no NaN.
