/**
 What a breakout signal means in candles: which level was crossed, how much volume it takes, and how the confidence is
 made up of points for distance, volume and range.
 */
module BreakoutLaws {
  import opened Common
  import opened Breakout

  // The highest and the lowest price of some candles.
  ghost predicate Top(cs: seq<Candle>, x: real)
  {
    (exists i :: 0 <= i < |cs| && cs[i].high == x) && forall i :: 0 <= i < |cs| ==> cs[i].high <= x
  }

  ghost predicate Bottom(cs: seq<Candle>, x: real)
  {
    (exists i :: 0 <= i < |cs| && cs[i].low == x) && forall i :: 0 <= i < |cs| ==> cs[i].low >= x
  }

  // Sums of what the candles traded and how far they ranged.
  function Traded(cs: seq<Candle>): real
  {
    if |cs| == 0 then 0.0 else Traded(cs[..|cs| - 1]) + cs[|cs| - 1].volume
  }

  function Ranged(cs: seq<Candle>): real
  {
    if |cs| == 0 then 0.0 else Ranged(cs[..|cs| - 1]) + cs[|cs| - 1].high - cs[|cs| - 1].low
  }

  // At least the smallest positive number the detector divides by.
  function Floored(x: real): (r: real)
    ensures r > 0.0
  {
    if x < 0.000000001 then 0.000000001 else x
  }

  // x points, but no fewer than none and no more than `most`.
  function Points(x: real, most: real): real { if x <= 0.0 then 0.0 else if x >= most then most else x }

  // What the detector reads off the candles: the level, how far the close is beyond it, and the usual figures.
  datatype Facts = Facts(
    level: real, gap: real, span: real, volume: real, average: real, range: real, usual: real)

  ghost predicate Reads(hist: seq<Candle>, latest: Candle, down: bool, f: Facts)
  {
    && |hist| > 0
    && (exists top, bottom :: Top(hist, top) && Bottom(hist, bottom)
          && f.level == (if down then bottom else top) && f.span == Floored(top - bottom))
    && f.gap == (if down then f.level - latest.close else latest.close - f.level)
    && f.volume == latest.volume && f.average == Floored(Traded(hist) / |hist| as real)
    && f.range == latest.high - latest.low && f.usual == Floored(Ranged(hist) / |hist| as real)
  }

  ghost predicate Usable(f: Facts) { f.span > 0.0 && f.average > 0.0 && f.usual > 0.0 }

  // 55 points for a close half the span beyond the level, 30 for the required volume, 15 for one and a half times the
  // usual range.
  function Earned(f: Facts, required: real): real
    requires Usable(f) && required >= 1.0
  {
    Points(1.1 * Ratio(f.gap, f.span), 0.55)
    + Points(0.30 * Ratio(Ratio(f.volume, f.average) - 1.0, if required < 1.15 then 0.15 else required - 1.0), 0.30)
    + Points(0.15 * Ratio(f.range, f.usual) - 0.075, 0.15)
  }

  // Near the level without crossing it, at most 25.
  function Kept(f: Facts, required: real): real
    requires Usable(f) && required >= 1.0
  {
    var near := Points(0.25 - 0.25 * RAbs(Ratio(f.gap, f.span)), 0.25);
    if f.gap > 0.0 || Earned(f, required) < near then Earned(f, required) else near
  }

  // Too little volume counts in proportion.
  function Weighed(points: real, times: real, required: real): real
    requires required >= 1.0
  {
    if times >= required then points else if times <= 0.0 then 0.0 else Times(points, Ratio(times, required))
  }

  // A full bias weighs 12.
  function Confident(f: Facts, required: real, bias: Option<real>): real
    requires Usable(f) && required >= 1.0
  {
    Points(Weighed(Kept(f, required), Ratio(f.volume, f.average), required)
      + (if bias.Some? then 0.12 * bias.value else 0.0), 1.0)
  }

  // ----- The level, the averages and the points -----

  lemma {:induction false} ExtremesAreTopAndBottom(cs: seq<Candle>)
    requires |cs| > 0
    ensures Top(cs, MaxHigh(cs)) && Bottom(cs, MinLow(cs))
  {
    if |cs| == 1 {
      assert cs[0].high == MaxHigh(cs) && cs[0].low == MinLow(cs);
    } else {
      var init, last := cs[..|cs| - 1], |cs| - 1;
      ExtremesAreTopAndBottom(init);
      var i :| 0 <= i < |init| && init[i].high == MaxHigh(init);
      var j :| 0 <= j < |init| && init[j].low == MinLow(init);
      assert cs[i].high == MaxHigh(init) && cs[j].low == MinLow(init);
      assert cs[last].high == MaxHigh(cs) || cs[i].high == MaxHigh(cs);
      assert cs[last].low == MinLow(cs) || cs[j].low == MinLow(cs);
      forall k | 0 <= k < |cs| ensures cs[k].high <= MaxHigh(cs) && cs[k].low >= MinLow(cs) {
        if k < last { assert init[k] == cs[k]; }
      }
    }
  }

  lemma {:induction false} SumsOf(cs: seq<Candle>)
    ensures Sum(Volumes(cs)) == Traded(cs) && Sum(Ranges(cs)) == Ranged(cs)
  {
    if |cs| > 0 {
      SumsOf(cs[..|cs| - 1]);
      assert Volumes(cs)[..|cs| - 1] == Volumes(cs[..|cs| - 1]);
      assert Ranges(cs)[..|cs| - 1] == Ranges(cs[..|cs| - 1]);
    }
  }

  lemma ReadsWhatIsDetected(hist: seq<Candle>, latest: Candle, down: bool) returns (f: Facts)
    requires |hist| > 0
    ensures Reads(hist, latest, down, f) && Usable(f)
    ensures f.level == (if down then MinLow(hist) else MaxHigh(hist)) && f.span == Span(hist)
    ensures Ratio(f.volume, f.average) == VolumeRatio(hist, latest)
    ensures f.usual == RMax(Mean(Ranges(hist)), EPS)
  {
    ExtremesAreTopAndBottom(hist);
    SumsOf(hist);
    var top, bottom := MaxHigh(hist), MinLow(hist);
    var level := if down then bottom else top;
    f := Facts(level, if down then level - latest.close else latest.close - level, Floored(top - bottom),
      latest.volume, Floored(Traded(hist) / |hist| as real),
      latest.high - latest.low, Floored(Ranged(hist) / |hist| as real));
  }

  // Weighing a clamped score is clamping the weighed one.
  lemma WeighedPoints(x: real, weight: real)
    requires weight > 0.0
    ensures weight * Clamp01(x) == Points(weight * x, weight)
  {
  }

  lemma ScoreIsKept(f: Facts, required: real)
    requires Usable(f) && required >= 1.0
    ensures PriceScore(Ratio(f.gap, f.span), f.gap > 0.0, VolumeScore(Ratio(f.volume, f.average), required),
      Clamp01(Ratio(f.range, f.usual) - 0.5)) == Kept(f, required)
  {
    var times, d := Ratio(f.volume, f.average), Ratio(f.gap, f.span);
    WeighedPoints(d / 0.5, 0.55);
    WeighedPoints(Ratio(times - 1.0, RMax(required - 1.0, 0.15)), 0.30);
    WeighedPoints(Ratio(f.range, f.usual) - 0.5, 0.15);
  }

  lemma DampedIsWeighed(points: real, times: real, required: real)
    requires required >= 1.0
    ensures Damped(points, times, required) == Weighed(points, times, required)
  {
    var q := RMax(0.0, Ratio(times, required));
    RatioSign(times, required);
    assert points * q == Times(points, q);
    assert Times(points, 0.0) == 0.0;
  }

  lemma ConfidenceIsPoints(f: Facts, required: real, bias: Option<real>)
    requires Usable(f) && required >= 1.0
    ensures Confidence(Ratio(f.gap, f.span), f.gap > 0.0, Ratio(f.volume, f.average), required,
      Clamp01(Ratio(f.range, f.usual) - 0.5), bias) == Confident(f, required, bias)
  {
    ScoreIsKept(f, required);
    DampedIsWeighed(Kept(f, required), Ratio(f.volume, f.average), required);
  }

  // ----- What is read in -----

  // One row more: anything but a dictionary is skipped, and a candle is kept with the higher of its two bounds as high.
  lemma NormalizedSnoc(rows: seq<Raw>, row: Raw)
    ensures row.NotADict? ==> Normalized(rows + [row]) == Normalized(rows)
    ensures row.Row? ==>
      var c, n := row.candle, Normalized(rows + [row]);
      n == Normalized(rows) + [Candle(c.open, RMax(c.high, c.low), RMin(c.high, c.low), c.close, c.volume)]
  {
    assert (rows + [row])[..|rows|] == rows;
  }

  // ----- What is detected -----

  // The signal that the facts call for.
  ghost predicate Signals(f: Facts, down: bool, required: real, bias: Option<real>, s: Signal)
  {
    && Usable(f) && required >= 1.0
    && s.confidence == Confident(f, required, if down && bias.Some? then Some(-bias.value) else bias)
    && s.breakoutPrice == (if f.gap > 0.0 then Some(f.level) else None)
    && (s.triggered <==> f.gap > 0.0 && f.volume >= Times(required, f.average) && s.confidence >= 0.15)
    && s.direction == if !s.triggered then NoDirection else if down then Down else Up
  }

  lemma EnoughVolume(volume: real, average: real, required: real)
    requires average > 0.0
    ensures Ratio(volume, average) >= required <==> volume >= Times(required, average)
  {
    RatioAgainst(volume, average, required);
  }

  lemma DetectAgainstSignals(hist: seq<Candle>, latest: Candle, down: bool, required: real,
      bias: Option<real>) returns (f: Facts)
    requires |hist| > 0 && required >= 1.0
    ensures Reads(hist, latest, down, f)
    ensures Signals(f, down, required, bias, DetectAgainst(hist, latest, down, required, bias))
  {
    f := ReadsWhatIsDetected(hist, latest, down);
    ConfidenceIsPoints(f, required, if down then Against(bias) else bias);
    EnoughVolume(f.volume, f.average, required);
    JudgeSignals(f, down, required, bias);
  }

  lemma JudgeSignals(f: Facts, down: bool, required: real, bias: Option<real>)
    requires Usable(f) && required >= 1.0
    ensures Signals(f, down, required, bias,
      Judge(f.level, Ratio(f.gap, f.span), f.gap > 0.0, if down then Down else Up, Ratio(f.volume, f.average),
        required, Clamp01(Ratio(f.range, f.usual) - 0.5), if down then Against(bias) else bias))
  {
    ConfidenceIsPoints(f, required, if down then Against(bias) else bias);
    EnoughVolume(f.volume, f.average, required);
  }

  lemma DetectSignals(candles: seq<Candle>, pattern: string, lookback: int, minimum: real, spike: bool,
      bias: Option<real>) returns (f: Facts)
    requires 3 <= lookback < |candles|
    ensures var last, down := |candles| - 1, pattern == "range_breakdown_down";
      && Reads(candles[last - lookback..last], candles[last], down, f)
      && Signals(f, down, RMax(if spike then 1.6 else 1.0, minimum), bias,
        Detect(candles, pattern, lookback, minimum, spike, bias))
  {
    var last := |candles| - 1;
    f := DetectAgainstSignals(candles[last - lookback..last], candles[last], pattern == "range_breakdown_down",
      RMax(if spike then 1.6 else 1.0, minimum), bias);
  }

  // Which candles a pattern compares and which volume it requires, and when there is nothing to compare.
  lemma PatternSignals(candles: seq<Candle>, pattern: string, lookback: int, minimum: real,
      bias: Option<real>) returns (f: Facts)
    ensures var s, last := DetectPattern(candles, pattern, lookback, minimum, bias), |candles| - 1;
      var spike, up, down :=
        pattern == "volume_spike_breakout", pattern == "range_breakout_up", pattern == "range_breakdown_down";
      var n := if spike && lookback < 10 then 10 else lookback;
      if (spike || up || down) && 3 <= n <= last then
        Reads(candles[last - n..last], candles[last], down, f)
        && Signals(f, down, RMax(if spike then 1.6 else 1.0, minimum), bias, s)
      else s == Signal(false, NoDirection, 0.0, None)
  {
    var spike := pattern == "volume_spike_breakout";
    var n := if spike && lookback < 10 then 10 else lookback;
    f := Facts(0.0, 0.0, 0.0, 0.0, 0.0, 0.0, 0.0);
    if 3 <= n < |candles| {
      f := DetectSignals(candles, pattern, n, if spike then RMax(minimum, 1.6) else minimum, spike, bias);
    }
  }

  // ----- When a breakout triggers -----

  // The required volume alone is worth 15 points once it is 7.5% above the average.
  lemma VolumeSuffices(f: Facts, required: real)
    requires Usable(f) && required >= 1.075 && f.gap > 0.0 && Ratio(f.volume, f.average) >= required
    ensures Confident(f, required, None) >= 0.15
  {
    var whole := if required < 1.15 then 0.15 else required - 1.0;
    RatioMonotone(required - 1.0, Ratio(f.volume, f.average) - 1.0, whole);
    RatioTimes(required - 1.0, whole);
  }

  // Without a bias, and asking for at least 7.5% more than the average volume, a breakout triggers exactly when the
  // latest close is above every high of the candles before and the latest volume reaches what is asked for.
  lemma TriggersIffCrossedOnVolume(hist: seq<Candle>, latest: Candle, required: real)
    requires |hist| > 0 && required >= 1.075
    ensures DetectAgainst(hist, latest, false, required, None).triggered <==>
      (forall i :: 0 <= i < |hist| ==> latest.close > hist[i].high)
      && latest.volume >= Times(required, Floored(Traded(hist) / |hist| as real))
  {
    var f := DetectAgainstSignals(hist, latest, false, required, None);
    EnoughVolume(f.volume, f.average, required);
    if f.gap > 0.0 && f.volume >= Times(required, f.average) { VolumeSuffices(f, required); }
    assert f.gap > 0.0 <==> forall i :: 0 <= i < |hist| ==> latest.close > hist[i].high;
  }
}
