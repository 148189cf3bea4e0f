/** Candle-path reconstruction of a trade: the loop, its prefix causality, and the range every row stays in. */
module TradePath {
  import opened Common
  import opened TpProtection

  datatype Candle = Candle(time: int, open: real, high: real, low: real, close: real, spread: Option<real>)

  datatype TradeCase = TradeCase(
    side: Side, entry: real, stopLoss: real, takeProfit: real, entryTime: int, exitTime: Option<int>,
    spreadAtEntry: Option<real>)

  datatype Row = Row(time: int, r: real, mfe: real, mae: real, regime: string)

  datatype Path = Path(
    timeline: seq<Row>, mfe: real, mae: real, targetR: real, retracement: real, spreadAtEntry: Option<real>,
    maximumSpread: Option<real>)

  function NonZero(risk: real): (r: real)
    requires risk >= 0.0
    ensures r > 0.0
  {
    if risk == 0.0 then 0.00001 else risk
  }

  function RiskOf(c: TradeCase): real { NonZero(RAbs(c.entry - c.stopLoss)) }

  // The R multiple of a price: its favourable distance from entry in units of risk.
  function SignedR(side: Side, entry: real, price: real, risk: real): real
    requires risk > 0.0
  {
    Ratio(if side == Long then price - entry else entry - price, risk)
  }

  function RAt(c: TradeCase, price: real): real { SignedR(c.side, c.entry, price, RiskOf(c)) }

  predicate InWindow(c: TradeCase, k: Candle)
  {
    k.time >= c.entryTime && (c.exitTime == None || k.time <= c.exitTime.value)
  }

  function Ordered(c: TradeCase, candles: seq<Candle>): seq<Candle>
  {
    if |candles| == 0 then []
    else
      Ordered(c, candles[..|candles| - 1])
      + (if InWindow(c, candles[|candles| - 1]) then [candles[|candles| - 1]] else [])
  }

  function Favourable(c: TradeCase, k: Candle): real { RAt(c, if c.side == Long then k.high else k.low) }

  function Adverse(c: TradeCase, k: Candle): real { RAt(c, if c.side == Long then k.low else k.high) }

  function Mfe(c: TradeCase, ks: seq<Candle>): real
  {
    if |ks| == 0 then 0.0 else RMax(Mfe(c, ks[..|ks| - 1]), Favourable(c, ks[|ks| - 1]))
  }

  function Mae(c: TradeCase, ks: seq<Candle>): real
  {
    if |ks| == 0 then 0.0 else RMin(Mae(c, ks[..|ks| - 1]), Adverse(c, ks[|ks| - 1]))
  }

  // Any regime detector over the completed candles so far.
  type Detector = seq<Candle> -> string

  function TimelineOf(c: TradeCase, ks: seq<Candle>, detect: Detector): (t: seq<Row>)
    ensures |t| == |ks|
  {
    if |ks| == 0 then []
    else
      TimelineOf(c, ks[..|ks| - 1], detect)
      + [Row(ks[|ks| - 1].time, RAt(c, ks[|ks| - 1].close), Mfe(c, ks), Mae(c, ks), detect(ks))]
  }

  function Spreads(ks: seq<Candle>): seq<real>
  {
    if |ks| == 0 then []
    else Spreads(ks[..|ks| - 1]) + (if ks[|ks| - 1].spread.Some? then [ks[|ks| - 1].spread.value] else [])
  }

  function Largest(s: seq<real>): real
    requires |s| > 0
  {
    if |s| == 1 then s[0] else RMax(Largest(s[..|s| - 1]), s[|s| - 1])
  }

  function FinalR(t: seq<Row>): real { if |t| == 0 then 0.0 else t[|t| - 1].r }

  function PathOf(c: TradeCase, candles: seq<Candle>, detect: Detector): Path
  {
    var ks := Ordered(c, candles);
    var t, spreads := TimelineOf(c, ks, detect), Spreads(ks);
    Path(t, Mfe(c, ks), Mae(c, ks), Ratio(RAbs(c.takeProfit - c.entry), RiskOf(c)), RMax(0.0, Mfe(c, ks) - FinalR(t)),
         if |spreads| > 0 then Some(spreads[0]) else c.spreadAtEntry,
         if |spreads| > 0 then Some(Largest(spreads)) else None)
  }

  method ReconstructPath(c: TradeCase, candles: seq<Candle>, detect: Detector) returns (path: Path)
    ensures path == PathOf(c, candles, detect)
  {
    var ordered: seq<Candle> := [];
    for i := 0 to |candles|
      invariant ordered == Ordered(c, candles[..i])
    {
      assert candles[..i + 1][..i] == candles[..i];
      if InWindow(c, candles[i]) {
        ordered := ordered + [candles[i]];
      }
    }
    assert candles[..|candles|] == candles;
    var risk := RiskOf(c);
    var timeline: seq<Row>, spreads: seq<real> := [], [];
    var mfe, mae := 0.0, 0.0;
    for i := 0 to |ordered|
      invariant timeline == TimelineOf(c, ordered[..i], detect) && spreads == Spreads(ordered[..i])
      invariant mfe == Mfe(c, ordered[..i]) && mae == Mae(c, ordered[..i])
    {
      var k := ordered[i];
      assert ordered[..i + 1][..i] == ordered[..i];
      var favourable := SignedR(c.side, c.entry, if c.side == Long then k.high else k.low, risk);
      var adverse := SignedR(c.side, c.entry, if c.side == Long then k.low else k.high, risk);
      if favourable > mfe {
        mfe := favourable;
      }
      if adverse < mae {
        mae := adverse;
      }
      if k.spread.Some? {
        spreads := spreads + [k.spread.value];
      }
      timeline := timeline + [Row(k.time, SignedR(c.side, c.entry, k.close, risk), mfe, mae, detect(ordered[..i + 1]))];
    }
    assert ordered[..|ordered|] == ordered;
    var exitR := if |ordered| > 0 then SignedR(c.side, c.entry, ordered[|ordered| - 1].close, risk) else 0.0;
    path := Path(timeline, mfe, mae, Ratio(RAbs(c.takeProfit - c.entry), risk), RMax(0.0, mfe - exitR),
                 if |spreads| > 0 then Some(spreads[0]) else c.spreadAtEntry,
                 if |spreads| > 0 then Some(Largest(spreads)) else None);
  }

  // ----- What a row says -----

  // How far a price is in favour of the trade.
  function Favour(c: TradeCase, price: real): real { if c.side == Long then price - c.entry else c.entry - price }

  // One R: the distance from entry to stop, or 0.00001 when they coincide.
  function OneR(c: TradeCase): real
  {
    if c.entry > c.stopLoss then c.entry - c.stopLoss else if c.entry < c.stopLoss then c.stopLoss - c.entry
    else 0.00001
  }

  function BestPrice(c: TradeCase, k: Candle): real { if c.side == Long then k.high else k.low }

  function WorstPrice(c: TradeCase, k: Candle): real { if c.side == Long then k.low else k.high }

  lemma InR(c: TradeCase, price: real)
    ensures Times(RAt(c, price), OneR(c)) == Favour(c, price)
  {
    RatioTimes(Favour(c, price), OneR(c));
  }

  // x is the largest favour of the best prices, or 0 when none was in favour.
  ghost predicate BestSoFar(c: TradeCase, ks: seq<Candle>, x: real)
  {
    && x >= 0.0 && (forall i :: 0 <= i < |ks| ==> Favour(c, BestPrice(c, ks[i])) <= x)
    && (x == 0.0 || exists i :: 0 <= i < |ks| && Favour(c, BestPrice(c, ks[i])) == x)
  }

  ghost predicate WorstSoFar(c: TradeCase, ks: seq<Candle>, x: real)
  {
    && x <= 0.0 && (forall i :: 0 <= i < |ks| ==> Favour(c, WorstPrice(c, ks[i])) >= x)
    && (x == 0.0 || exists i :: 0 <= i < |ks| && Favour(c, WorstPrice(c, ks[i])) == x)
  }

  lemma InOneR(x: real, y: real, one: real)
    requires one > 0.0
    ensures x >= y <==> Times(x, one) >= Times(y, one)
  {
    assert x >= y ==> (x - y) * one >= 0.0;
    assert x < y ==> (y - x) * one > 0.0;
  }

  lemma {:induction false} ExtremesSoFar(c: TradeCase, ks: seq<Candle>)
    ensures BestSoFar(c, ks, Times(Mfe(c, ks), OneR(c))) && WorstSoFar(c, ks, Times(Mae(c, ks), OneR(c)))
  {
    if |ks| > 0 {
      var init, k, one := ks[..|ks| - 1], ks[|ks| - 1], OneR(c);
      ExtremesSoFar(c, init);
      InR(c, BestPrice(c, k));
      InR(c, WorstPrice(c, k));
      InOneR(Mfe(c, init), Favourable(c, k), one);
      InOneR(Mae(c, init), Adverse(c, k), one);
      ExtendsSoFar(c, init, k, Times(Mfe(c, init), one), Times(Mae(c, init), one));
      assert init + [k] == ks;
    }
  }

  lemma ExtendsSoFar(c: TradeCase, ks: seq<Candle>, k: Candle, best: real, worst: real)
    requires BestSoFar(c, ks, best) && WorstSoFar(c, ks, worst)
    ensures BestSoFar(c, ks + [k], RMax(best, Favour(c, BestPrice(c, k))))
    ensures WorstSoFar(c, ks + [k], RMin(worst, Favour(c, WorstPrice(c, k))))
  {
    var all, n := ks + [k], |ks|;
    assert all[n] == k;
    assert forall i :: 0 <= i < n ==> all[i] == ks[i];
  }

  // Each row of the timeline, in price units: the close of its candle, and the best and worst excursion up to it.
  lemma {:induction false} RowsSay(c: TradeCase, ks: seq<Candle>, detect: Detector, i: nat)
    requires i < |ks|
    ensures var row := TimelineOf(c, ks, detect)[i];
      && row.time == ks[i].time && row.regime == detect(ks[..i + 1])
      && Times(row.r, OneR(c)) == Favour(c, ks[i].close)
      && BestSoFar(c, ks[..i + 1], Times(row.mfe, OneR(c))) && WorstSoFar(c, ks[..i + 1], Times(row.mae, OneR(c)))
  {
    if i == |ks| - 1 {
      assert ks[..i + 1] == ks;
      InR(c, ks[i].close);
      ExtremesSoFar(c, ks);
    } else {
      var init := ks[..|ks| - 1];
      assert init[..i + 1] == ks[..i + 1];
      RowsSay(c, init, detect, i);
    }
  }

  lemma TargetSays(c: TradeCase)
    ensures Times(Ratio(RAbs(c.takeProfit - c.entry), RiskOf(c)), OneR(c)) ==
      RMax(c.takeProfit - c.entry, c.entry - c.takeProfit)
  {
    RatioTimes(RAbs(c.takeProfit - c.entry), OneR(c));
  }

  // The path keeps the candles between entry and exit.
  lemma {:induction false} HeldCandles(c: TradeCase, candles: seq<Candle>)
    ensures forall k :: k in Ordered(c, candles) <==>
      k in candles && c.entryTime <= k.time && (c.exitTime.Some? ==> k.time <= c.exitTime.value)
  {
    if |candles| > 0 {
      HeldCandles(c, candles[..|candles| - 1]);
      assert forall k :: k in candles <==> k in candles[..|candles| - 1] || k == candles[|candles| - 1];
    }
  }

  // Its target, excursions and retracement are in the same unit as its rows.
  lemma PathSays(c: TradeCase, candles: seq<Candle>, detect: Detector)
    ensures var ks, p, one := Ordered(c, candles), PathOf(c, candles, detect), OneR(c);
      && p.timeline == TimelineOf(c, ks, detect)
      && Times(p.targetR, one) == RMax(c.takeProfit - c.entry, c.entry - c.takeProfit)
      && BestSoFar(c, ks, Times(p.mfe, one)) && WorstSoFar(c, ks, Times(p.mae, one))
      && p.retracement == RMax(0.0, p.mfe - (if |ks| == 0 then 0.0 else p.timeline[|ks| - 1].r))
  {
    ExtremesSoFar(c, Ordered(c, candles));
    TargetSays(c);
  }

  ghost predicate NoSpread(ks: seq<Candle>) { forall i :: 0 <= i < |ks| ==> ks[i].spread == None }

  ghost predicate FirstSpread(ks: seq<Candle>, x: real)
  {
    exists i :: 0 <= i < |ks| && ks[i].spread == Some(x) && NoSpread(ks[..i])
  }

  ghost predicate LargestSpread(ks: seq<Candle>, x: real)
  {
    && (exists i :: 0 <= i < |ks| && ks[i].spread == Some(x))
    && (forall i :: 0 <= i < |ks| && ks[i].spread.Some? ==> ks[i].spread.value <= x)
  }

  // The first spread quoted on the path is the one at entry (the case's own figure when none is), and the maximum is
  // the largest one quoted.
  lemma SpreadsSay(c: TradeCase, candles: seq<Candle>, detect: Detector)
    ensures var ks, p := Ordered(c, candles), PathOf(c, candles, detect);
      if NoSpread(ks) then p.spreadAtEntry == c.spreadAtEntry && p.maximumSpread == None
      else
        p.spreadAtEntry.Some? && FirstSpread(ks, p.spreadAtEntry.value)
        && p.maximumSpread.Some? && LargestSpread(ks, p.maximumSpread.value)
  {
    FirstQuoted(Ordered(c, candles));
    LargestQuoted(Ordered(c, candles));
  }

  lemma {:induction false} FirstQuoted(ks: seq<Candle>)
    ensures |Spreads(ks)| == 0 <==> NoSpread(ks)
    ensures |Spreads(ks)| > 0 ==> FirstSpread(ks, Spreads(ks)[0])
  {
    if |ks| > 0 {
      var n, init := |ks| - 1, ks[..|ks| - 1];
      FirstQuoted(init);
      if |Spreads(init)| > 0 {
        var i :| 0 <= i < |init| && init[i].spread == Some(Spreads(init)[0]) && NoSpread(init[..i]);
        assert ks[i] == init[i] && ks[..i] == init[..i];
      } else {
        assert forall j :: 0 <= j < n ==> ks[j] == init[j];
        assert ks[..n] == init;
      }
    }
  }

  // x is the largest spread of the candles, None when they quote none.
  ghost predicate LargestOf(ks: seq<Candle>, x: Option<real>)
  {
    if x == None then NoSpread(ks) else LargestSpread(ks, x.value)
  }

  lemma LargestStep(ks: seq<Candle>, x: Option<real>, k: Candle)
    requires LargestOf(ks, x)
    ensures LargestOf(ks + [k],
      if k.spread == None then x else if x == None then k.spread else Some(RMax(x.value, k.spread.value)))
  {
    var all, n := ks + [k], |ks|;
    assert all[n] == k;
    assert forall i :: 0 <= i < n ==> all[i] == ks[i];
  }

  lemma {:induction false} LargestQuoted(ks: seq<Candle>)
    ensures var s := Spreads(ks); LargestOf(ks, if |s| > 0 then Some(Largest(s)) else None)
  {
    if |ks| > 0 {
      var init, k := ks[..|ks| - 1], ks[|ks| - 1];
      var before := Spreads(init);
      LargestQuoted(init);
      LargestStep(init, if |before| > 0 then Some(Largest(before)) else None, k);
      assert init + [k] == ks;
      if k.spread.Some? {
        assert Spreads(ks) == before + [k.spread.value];
        LargestSnoc(before, k.spread.value);
      } else {
        assert Spreads(ks) == before;
      }
    }
  }

  lemma LargestSnoc(s: seq<real>, x: real)
    ensures Largest(s + [x]) == if |s| == 0 then x else RMax(Largest(s), x)
  {
    assert (s + [x])[..|s|] == s;
  }

  // ----- Prefix causality -----

  lemma {:induction false} OrderedPrefix(c: TradeCase, candles: seq<Candle>, k: nat)
    requires k <= |candles|
    ensures Ordered(c, candles[..k]) <= Ordered(c, candles)
  {
    if k == |candles| {
      assert candles[..k] == candles;
    } else {
      var init := candles[..|candles| - 1];
      assert init[..k] == candles[..k];
      OrderedPrefix(c, init, k);
    }
  }

  lemma {:induction false} TimelinePrefix(c: TradeCase, ks: seq<Candle>, n: nat, detect: Detector)
    requires n <= |ks|
    ensures TimelineOf(c, ks[..n], detect) <= TimelineOf(c, ks, detect)
  {
    if n == |ks| {
      assert ks[..n] == ks;
    } else {
      var init := ks[..|ks| - 1];
      assert init[..n] == ks[..n];
      TimelinePrefix(c, init, n, detect);
    }
  }

  // No lookahead: what is reconstructed from the first candles never changes when later candles arrive.
  lemma ReconstructionIsCausal(c: TradeCase, candles: seq<Candle>, k: nat, detect: Detector)
    requires k <= |candles|
    ensures PathOf(c, candles[..k], detect).timeline <= PathOf(c, candles, detect).timeline
  {
    OrderedPrefix(c, candles, k);
    var short, all := Ordered(c, candles[..k]), Ordered(c, candles);
    assert all[..|short|] == short;
    TimelinePrefix(c, all, |short|, detect);
  }

  // ----- Where the rows stay -----

  ghost predicate Sane(candles: seq<Candle>)
  {
    forall i :: 0 <= i < |candles| ==> candles[i].low <= candles[i].close <= candles[i].high
  }

  ghost predicate RowOnPath(row: Row, mfe: real, mae: real)
  {
    mae <= row.mae <= row.r <= row.mfe <= mfe && row.mae <= 0.0 <= row.mfe
  }

  ghost predicate AllOnPath(t: seq<Row>, mfe: real, mae: real)
  {
    forall i :: 0 <= i < |t| ==> RowOnPath(t[i], mfe, mae)
  }

  ghost predicate OnPath(p: Path)
  {
    && p.mae <= 0.0 <= p.mfe && p.targetR >= 0.0
    && AllOnPath(p.timeline, p.mfe, p.mae)
    && p.retracement == RMax(0.0, p.mfe - FinalR(p.timeline))
  }

  lemma CloseBetweenExtremes(c: TradeCase, k: Candle)
    requires k.low <= k.close <= k.high
    ensures Adverse(c, k) <= RAt(c, k.close) <= Favourable(c, k)
  {
    var risk := RiskOf(c);
    if c.side == Long {
      RatioMonotone(k.low - c.entry, k.close - c.entry, risk);
      RatioMonotone(k.close - c.entry, k.high - c.entry, risk);
    } else {
      RatioMonotone(c.entry - k.high, c.entry - k.close, risk);
      RatioMonotone(c.entry - k.close, c.entry - k.low, risk);
    }
  }

  lemma {:induction false} RowsOnPath(c: TradeCase, ks: seq<Candle>, detect: Detector)
    requires Sane(ks)
    ensures Mae(c, ks) <= 0.0 <= Mfe(c, ks)
    ensures AllOnPath(TimelineOf(c, ks, detect), Mfe(c, ks), Mae(c, ks))
  {
    if |ks| > 0 {
      var init := ks[..|ks| - 1];
      RowsOnPath(c, init, detect);
      LastRowOnPath(c, ks, detect);
      var before, t := TimelineOf(c, init, detect), TimelineOf(c, ks, detect);
      forall i | 0 <= i < |t| ensures RowOnPath(t[i], Mfe(c, ks), Mae(c, ks)) {
        if i < |before| { assert t[i] == before[i] && RowOnPath(before[i], Mfe(c, init), Mae(c, init)); }
      }
    }
  }

  lemma LastRowOnPath(c: TradeCase, ks: seq<Candle>, detect: Detector)
    requires |ks| > 0 && Sane(ks) && Mae(c, ks[..|ks| - 1]) <= 0.0 <= Mfe(c, ks[..|ks| - 1])
    ensures RowOnPath(TimelineOf(c, ks, detect)[|ks| - 1], Mfe(c, ks), Mae(c, ks))
  {
    CloseBetweenExtremes(c, ks[|ks| - 1]);
    var row := TimelineOf(c, ks, detect)[|ks| - 1];
    assert row.mae <= Adverse(c, ks[|ks| - 1]) && Favourable(c, ks[|ks| - 1]) <= row.mfe;
    assert row.r == RAt(c, ks[|ks| - 1].close);
  }

  lemma {:induction false} OrderedSane(c: TradeCase, candles: seq<Candle>)
    requires Sane(candles)
    ensures Sane(Ordered(c, candles))
  {
    if |candles| > 0 {
      OrderedSane(c, candles[..|candles| - 1]);
    }
  }

  lemma ReconstructedPathIsOnPath(c: TradeCase, candles: seq<Candle>, detect: Detector)
    requires Sane(candles)
    ensures OnPath(PathOf(c, candles, detect))
  {
    OrderedSane(c, candles);
    RowsOnPath(c, Ordered(c, candles), detect);
    var p, ks := PathOf(c, candles, detect), Ordered(c, candles);
    assert p.timeline == TimelineOf(c, ks, detect) && p.mfe == Mfe(c, ks) && p.mae == Mae(c, ks);
    RatioNonNegative(RAbs(c.takeProfit - c.entry), RiskOf(c));
  }
}
