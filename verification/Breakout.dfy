/** Range breakout detection: how its confidence responds to price and volume, and its up/down mirror symmetry. */
module Breakout {
  import opened Common

  const EPS := 0.000000001

  datatype Candle = Candle(open: real, high: real, low: real, close: real, volume: real)

  datatype Raw = NotADict | Row(candle: Candle)

  datatype Direction = Up | Down | NoDirection

  datatype Signal = Signal(triggered: bool, direction: Direction, confidence: real, breakoutPrice: Option<real>)

  const NO_SIGNAL := Signal(false, NoDirection, 0.0, None)

  function Straighten(c: Candle): Candle
  {
    if c.high < c.low then c.(high := c.low, low := c.high) else c
  }

  function Normalized(rows: seq<Raw>): seq<Candle>
  {
    if |rows| == 0 then []
    else Normalized(rows[..|rows| - 1]) + (if rows[|rows| - 1].Row? then [Straighten(rows[|rows| - 1].candle)] else [])
  }

  method NormalizeCandles(rows: seq<Raw>) returns (out: seq<Candle>)
    ensures out == Normalized(rows)
    ensures forall i :: 0 <= i < |out| ==> out[i].low <= out[i].high
  {
    out := [];
    for i := 0 to |rows|
      invariant out == Normalized(rows[..i])
      invariant forall k :: 0 <= k < |out| ==> out[k].low <= out[k].high
    {
      assert rows[..i + 1][..i] == rows[..i];
      if rows[i].Row? {
        out := out + [Straighten(rows[i].candle)];
      }
    }
    assert rows[..|rows|] == rows;
  }

  function MaxHigh(cs: seq<Candle>): real
    requires |cs| > 0
  {
    if |cs| == 1 then cs[0].high else RMax(MaxHigh(cs[..|cs| - 1]), cs[|cs| - 1].high)
  }

  function MinLow(cs: seq<Candle>): real
    requires |cs| > 0
  {
    if |cs| == 1 then cs[0].low else RMin(MinLow(cs[..|cs| - 1]), cs[|cs| - 1].low)
  }

  function Volumes(cs: seq<Candle>): seq<real>
  {
    seq(|cs|, i requires 0 <= i < |cs| => cs[i].volume)
  }

  function Ranges(cs: seq<Candle>): seq<real>
  {
    seq(|cs|, i requires 0 <= i < |cs| => cs[i].high - cs[i].low)
  }

  function RequiredRatio(minVolumeRatio: real, spike: bool): (r: real)
    ensures r >= 1.0
  {
    if spike then RMax(RMax(1.0, minVolumeRatio), 1.6) else RMax(1.0, minVolumeRatio)
  }

  function Damped(raw: real, ratio: real, required: real): real
    requires required > 0.0
  {
    if ratio < required then raw * RMax(0.0, Ratio(ratio, required)) else raw
  }

  function VolumeScore(ratio: real, required: real): real
  {
    Clamp01(Ratio(ratio - 1.0, RMax(required - 1.0, 0.15)))
  }

  // Before the volume penalty: a weighted score, capped near the level while price has not crossed it.
  function PriceScore(distance: real, crossed: bool, volumeScore: real, rangeScore: real): real
  {
    var raw := 0.55 * Clamp01(distance / 0.5) + 0.30 * volumeScore + 0.15 * rangeScore;
    if crossed then raw else RMin(raw, Clamp01((1.0 - RAbs(distance)) * 0.25))
  }

  // `bias` is the directional F&O bias in the direction of the pattern, when F&O signals are available.
  function Confidence(distance: real, crossed: bool, ratio: real,
      required: real, rangeScore: real, bias: Option<real>): real
    requires required >= 1.0
  {
    var damped := Damped(PriceScore(distance, crossed, VolumeScore(ratio, required), rangeScore), ratio, required);
    Clamp01(if bias.Some? then Clamp01(damped + bias.value * 0.12) else damped)
  }

  function Judge(level: real, distance: real, crossed: bool, direction: Direction, ratio: real, required: real,
      rangeScore: real, bias: Option<real>): Signal
    requires required >= 1.0
  {
    var confidence := Confidence(distance, crossed, ratio, required, rangeScore, bias);
    var triggered := crossed && ratio >= required && confidence >= 0.15;
    Signal(triggered, if triggered then direction else NoDirection, confidence, if crossed then Some(level) else None)
  }

  function Span(hist: seq<Candle>): real requires |hist| > 0 { RMax(MaxHigh(hist) - MinLow(hist), EPS) }

  function VolumeRatio(hist: seq<Candle>, latest: Candle): real
    requires |hist| > 0
  {
    Ratio(latest.volume, RMax(Mean(Volumes(hist)), EPS))
  }

  function RangeScore(hist: seq<Candle>, latest: Candle): real
    requires |hist| > 0
  {
    Clamp01(Ratio(latest.high - latest.low, RMax(Mean(Ranges(hist)), EPS)) - 0.5)
  }

  function Against(bias: Option<real>): Option<real> { if bias.Some? then Some(-bias.value) else None }

  function DetectAgainst(hist: seq<Candle>, latest: Candle, down: bool, required: real, bias: Option<real>): Signal
    requires |hist| > 0 && required >= 1.0
  {
    var resistance, support, span := MaxHigh(hist), MinLow(hist), Span(hist);
    if down then
      Judge(support, Ratio(support - latest.close, span), latest.close < support, Down, VolumeRatio(hist, latest),
        required, RangeScore(hist, latest), Against(bias))
    else
      Judge(resistance, Ratio(latest.close - resistance, span), latest.close > resistance, Up,
        VolumeRatio(hist, latest), required, RangeScore(hist, latest), bias)
  }

  function Detect(candles: seq<Candle>, pattern: string, lookback: int,
      minVolumeRatio: real, spike: bool, bias: Option<real>): Signal
  {
    if lookback < 3 || |candles| < lookback + 1 then NO_SIGNAL
    else DetectAgainst(candles[|candles| - lookback - 1..|candles| - 1], candles[|candles| - 1],
      pattern == "range_breakdown_down", RequiredRatio(minVolumeRatio, spike), bias)
  }

  function DetectPattern(candles: seq<Candle>, pattern: string, lookback: int,
      minVolumeRatio: real, bias: Option<real>): Signal
  {
    if pattern == "volume_spike_breakout" then
      Detect(candles, pattern, if lookback < 10 then 10 else lookback, RMax(minVolumeRatio, 1.6), true, bias)
    else if pattern == "range_breakout_up" || pattern == "range_breakdown_down"
      then Detect(candles, pattern, lookback, minVolumeRatio, false, bias)
    else NO_SIGNAL
  }

  // ----- Monotonicity -----

  lemma RatioAtMostOne(x: real, y: real)
    requires y > 0.0 && x <= y
    ensures Ratio(x, y) <= 1.0
  {
    RatioMonotone(x, y, y);
  }

  lemma RatioSign(x: real, y: real)
    requires y > 0.0
    ensures Ratio(x, y) > 0.0 <==> x > 0.0
    ensures Ratio(-x, y) == -Ratio(x, y)
  {
    var q := Ratio(x, y);
    assert q * y == x;
    assert (-q) * y == -x;
  }

  lemma PriceScoreMonotone(d1: real, d2: real, v1: real, v2: real, r: real)
    requires d1 <= d2 && 0.0 <= v1 <= v2 && 0.0 <= r
    ensures 0.0 <= PriceScore(d1, d1 > 0.0, v1, r) <= PriceScore(d2, d2 > 0.0, v2, r)
  {
  }

  lemma DampedMonotone(raw1: real, raw2: real, ratio1: real, ratio2: real, required: real)
    requires 0.0 <= raw1 <= raw2 && ratio1 <= ratio2 && required > 0.0
    ensures Damped(raw1, ratio1, required) <= Damped(raw2, ratio2, required)
  {
    var f1, f2 := RMax(0.0, Ratio(ratio1, required)), RMax(0.0, Ratio(ratio2, required));
    RatioMonotone(ratio1, ratio2, required);
    if ratio1 < required {
      RatioAtMostOne(ratio1, required);
      TimesMonotone(raw1, raw2, f1, if ratio2 < required then f2 else 1.0);
    }
  }

  lemma ConfidenceMonotone(d1: real, d2: real, ratio1: real, ratio2: real,
      required: real, rangeScore: real, bias: Option<real>)
    requires d1 <= d2 && ratio1 <= ratio2 && required >= 1.0 && rangeScore >= 0.0
    ensures Confidence(d1, d1 > 0.0, ratio1, required, rangeScore, bias) <=
      Confidence(d2, d2 > 0.0, ratio2, required, rangeScore, bias)
  {
    RatioMonotone(ratio1 - 1.0, ratio2 - 1.0, RMax(required - 1.0, 0.15));
    var v1, v2 := VolumeScore(ratio1, required), VolumeScore(ratio2, required);
    PriceScoreMonotone(d1, d2, v1, v2, rangeScore);
    DampedMonotone(PriceScore(d1, d1 > 0.0, v1, rangeScore),
      PriceScore(d2, d2 > 0.0, v2, rangeScore), ratio1, ratio2, required);
  }

  // a is no stronger a signal than b.
  ghost predicate NoStronger(a: Signal, b: Signal)
  {
    a.confidence <= b.confidence && (a.triggered ==> b.triggered)
    && (a.breakoutPrice.Some? ==> b.breakoutPrice == a.breakoutPrice)
  }

  // The upward pattern responds monotonically to the latest close (through the jump at the crossing) and the latest
  // volume, for any history and any fixed bias.
  lemma UpwardDetectionIsMonotone(hist: seq<Candle>, latest: Candle, close: real,
      volume: real, required: real, bias: Option<real>)
    requires |hist| > 0 && required >= 1.0
    requires latest.close <= close && latest.volume <= volume
    ensures NoStronger(DetectAgainst(hist, latest, false, required, bias),
                       DetectAgainst(hist, latest.(close := close, volume := volume), false, required, bias))
  {
    var resistance, span := MaxHigh(hist), Span(hist);
    var d1, d2 := Ratio(latest.close - resistance, span), Ratio(close - resistance, span);
    RatioMonotone(latest.close - resistance, close - resistance, span);
    RatioSign(latest.close - resistance, span);
    RatioSign(close - resistance, span);
    var average := RMax(Mean(Volumes(hist)), EPS);
    RatioMonotone(latest.volume, volume, average);
    ConfidenceMonotone(d1, d2, Ratio(latest.volume, average), Ratio(volume, average),
      required, RangeScore(hist, latest), bias);
  }

  lemma DetectIsMonotone(candles: seq<Candle>, close: real, volume: real, pattern: string, lookback: int,
      minVolumeRatio: real, spike: bool, bias: Option<real>)
    requires |candles| > 0 && pattern != "range_breakdown_down"
    requires candles[|candles| - 1].close <= close && candles[|candles| - 1].volume <= volume
    ensures NoStronger(Detect(candles, pattern, lookback, minVolumeRatio, spike, bias),
                       Detect(candles[|candles| - 1 := candles[|candles| - 1].(close := close, volume := volume)],
                         pattern, lookback, minVolumeRatio, spike, bias))
  {
    if lookback >= 3 && |candles| >= lookback + 1 {
      var n := |candles|;
      var changed := candles[n - 1 := candles[n - 1].(close := close, volume := volume)];
      assert changed[n - lookback - 1..n - 1] == candles[n - lookback - 1..n - 1];
      UpwardDetectionIsMonotone(candles[n - lookback - 1..n - 1], candles[n - 1], close, volume,
        RequiredRatio(minVolumeRatio, spike), bias);
    }
  }

  lemma ConfidenceIsUnit(candles: seq<Candle>, pattern: string, lookback: int, minVolumeRatio: real, bias: Option<real>)
    ensures var s := DetectPattern(candles, pattern, lookback, minVolumeRatio, bias);
      0.0 <= s.confidence <= 1.0 && (s.triggered <==> s.direction != NoDirection)
      && (s.triggered ==> s.confidence >= 0.15 && s.breakoutPrice.Some?)
  {
  }

  // ----- Mirror symmetry -----

  function Flip(c: Candle): Candle { Candle(-c.open, -c.low, -c.high, -c.close, c.volume) }

  function FlipAll(cs: seq<Candle>): seq<Candle>
  {
    seq(|cs|, i requires 0 <= i < |cs| => Flip(cs[i]))
  }

  lemma {:induction false} ExtremesFlip(cs: seq<Candle>)
    requires |cs| > 0
    ensures MinLow(FlipAll(cs)) == -MaxHigh(cs) && MaxHigh(FlipAll(cs)) == -MinLow(cs)
  {
    if |cs| > 1 {
      assert FlipAll(cs)[..|cs| - 1] == FlipAll(cs[..|cs| - 1]);
      ExtremesFlip(cs[..|cs| - 1]);
    }
  }

  ghost predicate Mirrors(down: Signal, up: Signal)
  {
    && down.confidence == up.confidence && down.triggered == up.triggered
    && (down.direction == Down <==> up.direction == Up)
    && (down.breakoutPrice.Some? <==> up.breakoutPrice.Some?)
    && (up.breakoutPrice.Some? ==> down.breakoutPrice == Some(-up.breakoutPrice.value))
  }

  lemma DetectAgainstMirrors(hist: seq<Candle>, latest: Candle, required: real, bias: Option<real>)
    requires |hist| > 0 && required >= 1.0
    ensures Mirrors(DetectAgainst(FlipAll(hist), Flip(latest), true, required, Against(bias)),
      DetectAgainst(hist, latest, false, required, bias))
  {
    ExtremesFlip(hist);
    assert Volumes(FlipAll(hist)) == Volumes(hist);
    assert Ranges(FlipAll(hist)) == Ranges(hist);
    assert Span(FlipAll(hist)) == Span(hist);
    assert RangeScore(FlipAll(hist), Flip(latest)) == RangeScore(hist, latest);
    assert VolumeRatio(FlipAll(hist), Flip(latest)) == VolumeRatio(hist, latest);
    assert MinLow(FlipAll(hist)) - Flip(latest).close == latest.close - MaxHigh(hist);
    assert Against(Against(bias)) == bias;
  }

  // The breakdown pattern on price-negated candles with negated bias is the breakout pattern.
  lemma DetectMirrors(candles: seq<Candle>, pattern: string, lookback: int,
      minVolumeRatio: real, spike: bool, bias: Option<real>)
    requires pattern != "range_breakdown_down"
    ensures Mirrors(Detect(FlipAll(candles), "range_breakdown_down", lookback, minVolumeRatio, spike, Against(bias)),
                    Detect(candles, pattern, lookback, minVolumeRatio, spike, bias))
  {
    if lookback >= 3 && |candles| >= lookback + 1 {
      var n := |candles|;
      assert FlipAll(candles)[n - lookback - 1..n - 1] == FlipAll(candles[n - lookback - 1..n - 1]);
      DetectAgainstMirrors(candles[n - lookback - 1..n - 1], candles[n - 1],
        RequiredRatio(minVolumeRatio, spike), bias);
    }
  }
}
