/**
  The post-processing of get_price_range: the daily candles of the look-back window
  (already fetched) reduce to the highest high and the lowest low.
 */
module PriceRange {
  import opened Wrappers

  /** The two kline columns the range uses: index 2 (high) and index 3 (low). */
  datatype Candle = Candle(high: real, low: real)

  /** The range returned as the pair (max(highs), min(lows)). */
  datatype Range = Range(high: real, low: real)

  /** The list comprehension `[float(k[2]) for k in klines]`. */
  function Highs(candles: seq<Candle>): (hs: seq<real>)
    ensures |hs| == |candles|
    ensures forall i :: 0 <= i < |candles| ==> hs[i] == candles[i].high
  {
    seq(|candles|, i requires 0 <= i < |candles| => candles[i].high)
  }

  /** The list comprehension `[float(k[3]) for k in klines]`. */
  function Lows(candles: seq<Candle>): (ls: seq<real>)
    ensures |ls| == |candles|
    ensures forall i :: 0 <= i < |candles| ==> ls[i] == candles[i].low
  {
    seq(|candles|, i requires 0 <= i < |candles| => candles[i].low)
  }

  /** Python's max over a non-empty list. */
  function MaxSeq(s: seq<real>): (m: real)
    requires |s| > 0
    ensures m in s
    ensures forall i :: 0 <= i < |s| ==> s[i] <= m
  {
    if |s| == 1 then s[0]
    else
      var rest := MaxSeq(s[1..]);
      if s[0] >= rest then s[0] else rest
  }

  /** Python's min over a non-empty list. */
  function MinSeq(s: seq<real>): (m: real)
    requires |s| > 0
    ensures m in s
    ensures forall i :: 0 <= i < |s| ==> m <= s[i]
  {
    if |s| == 1 then s[0]
    else
      var rest := MinSeq(s[1..]);
      if s[0] <= rest then s[0] else rest
  }

  /** A candle whose high is not below its low, as every exchange candle is. */
  predicate WellFormed(c: Candle)
  {
    c.low <= c.high
  }

  /**
    `max(highs), min(lows)`. An empty window makes max() raise, so the result is an error
    exactly when no candle was returned; otherwise the high is attained by some candle and
    bounds every high from above, and the low is attained by some candle and bounds every
    low from below.
   */
  function GetPriceRange(candles: seq<Candle>): (r: Result<Range>)
    ensures r.Err? <==> candles == []
    ensures r.Err? ==> r.error == MaxOfEmpty
    ensures r.Ok? ==>
      && (exists i :: 0 <= i < |candles| && candles[i].high == r.value.high)
      && (forall i :: 0 <= i < |candles| ==> candles[i].high <= r.value.high)
      && (exists i :: 0 <= i < |candles| && candles[i].low == r.value.low)
      && (forall i :: 0 <= i < |candles| ==> r.value.low <= candles[i].low)
  {
    if |candles| == 0 then Err(MaxOfEmpty)
    else
      Ok(Range(MaxSeq(Highs(candles)), MinSeq(Lows(candles))))
  }

  /** With well-formed candles the range is never inverted. */
  lemma {:induction false} RangeOrdered(candles: seq<Candle>)
    requires candles != []
    requires forall i :: 0 <= i < |candles| ==> WellFormed(candles[i])
    ensures GetPriceRange(candles).Ok?
    ensures GetPriceRange(candles).value.low <= GetPriceRange(candles).value.high
  {
    var r := GetPriceRange(candles).value;
    assert r.low <= candles[0].low <= candles[0].high <= r.high;
  }

  /** The range's low is positive when every candle's low is. */
  lemma {:induction false} RangeLowPositive(candles: seq<Candle>)
    requires candles != []
    requires forall i :: 0 <= i < |candles| ==> candles[i].low > 0.0
    ensures GetPriceRange(candles).Ok? && GetPriceRange(candles).value.low > 0.0
  {
    var r := GetPriceRange(candles).value;
    var i :| 0 <= i < |candles| && candles[i].low == r.low;
  }

  /** Appending a candle can only widen the range (the window's range covers each candle). */
  lemma {:induction false} RangeWidens(candles: seq<Candle>, c: Candle)
    requires candles != []
    ensures GetPriceRange(candles + [c]).Ok?
    ensures GetPriceRange(candles).value.high <= GetPriceRange(candles + [c]).value.high
    ensures GetPriceRange(candles + [c]).value.low <= GetPriceRange(candles).value.low
  {
    var r, r' := GetPriceRange(candles).value, GetPriceRange(candles + [c]).value;
    var i :| 0 <= i < |candles| && candles[i].high == r.high;
    var j :| 0 <= j < |candles| && candles[j].low == r.low;
    assert (candles + [c])[i] == candles[i];
    assert (candles + [c])[j] == candles[j];
  }
}
