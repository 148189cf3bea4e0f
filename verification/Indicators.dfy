/** EMA, MACD and RSI as the alert evaluator computes them over its cached prices. */
module Indicators {
  import opened Common

  function Smoothing(period: nat): real { 2.0 / (period as real + 1.0) }

  function Blend(price: real, ema: real, k: real): real { price * k + ema * (1.0 - k) }

  // Seeded with the mean of the first `period` values, then smoothed over the rest.
  function EmaOf(values: seq<real>, period: nat): real
    requires 1 <= period <= |values|
  {
    if |values| == period then Mean(values)
    else Blend(values[|values| - 1], EmaOf(values[..|values| - 1], period), Smoothing(period))
  }

  method Ema(values: seq<real>, period: nat) returns (r: Option<real>)
    requires period >= 1
    ensures r == if |values| < period then None else Some(EmaOf(values, period))
  {
    if |values| < period {
      return None;
    }
    var k := Smoothing(period);
    var ema := Mean(values[..period]);
    for i := period to |values|
      invariant ema == EmaOf(values[..i], period)
    {
      assert values[..i + 1][..i] == values[..i];
      ema := Blend(values[i], ema, k);
    }
    assert values[..|values|] == values;
    return Some(ema);
  }

  // ----- MACD -----

  function MacdLine(prices: seq<real>): real
    requires |prices| >= 26
  {
    EmaOf(prices, 12) - EmaOf(prices, 26)
  }

  // The MACD line of every prefix of at least 26 prices.
  function MacdSeries(prices: seq<real>): (r: seq<real>)
    ensures |r| == if |prices| < 26 then 0 else |prices| - 25
  {
    if |prices| < 26 then [] else MacdSeries(prices[..|prices| - 1]) + [MacdLine(prices)]
  }

  datatype Macd = Macd(line: real, signal: real)

  function MacdOf(prices: seq<real>): Option<Macd>
  {
    if |prices| < 35 then None else Some(Macd(MacdLine(prices), EmaOf(MacdSeries(prices), 9)))
  }

  method CalcMacd(prices: seq<real>) returns (r: Option<Macd>)
    ensures r == MacdOf(prices)
    ensures r == None <==> |prices| < 35
  {
    if |prices| < 35 {
      return None;
    }
    var lines: seq<real> := [];
    for i := 26 to |prices| + 1
      invariant lines == MacdSeries(prices[..i - 1])
    {
      assert prices[..i][..i - 1] == prices[..i - 1];
      var fast := Ema(prices[..i], 12);
      var slow := Ema(prices[..i], 26);
      lines := lines + [fast.value - slow.value];
    }
    assert prices[..|prices|] == prices;
    var signal := Ema(lines, 9);
    return Some(Macd(lines[|lines| - 1], signal.value));
  }

  // The one-pass form: a running EMA holds the sum of its first values until it is seeded.
  datatype Running = Running(period: nat, count: nat, value: real)

  function Push(r: Running, price: real): Running
    requires r.period >= 1
  {
    if r.count + 1 < r.period then Running(r.period, r.count + 1, r.value + price)
    else if r.count + 1 == r.period then Running(r.period, r.period, (r.value + price) / r.period as real)
    else Running(r.period, r.count + 1, Blend(price, r.value, Smoothing(r.period)))
  }

  datatype Stream = Stream(fast: Running, slow: Running, signal: Running)

  const START := Stream(Running(12, 0, 0.0), Running(26, 0, 0.0), Running(9, 0, 0.0))

  function Feed(s: Stream, price: real): (t: Stream)
    requires s.fast.period >= 1 && s.slow.period >= 1 && s.signal.period >= 1
    ensures t.fast.period == s.fast.period && t.slow.period == s.slow.period && t.signal.period == s.signal.period
  {
    var fast, slow := Push(s.fast, price), Push(s.slow, price);
    Stream(fast, slow, if slow.count < slow.period then s.signal else Push(s.signal, fast.value - slow.value))
  }

  function Streamed(prices: seq<real>): (s: Stream)
    ensures s.fast.period == 12 && s.slow.period == 26 && s.signal.period == 9
  {
    if |prices| == 0 then START else Feed(Streamed(prices[..|prices| - 1]), prices[|prices| - 1])
  }

  function StreamOutput(s: Stream): Option<Macd>
  {
    if s.slow.count < 35 then None else Some(Macd(s.fast.value - s.slow.value, s.signal.value))
  }

  ghost predicate Tracks(r: Running, period: nat, values: seq<real>)
    requires period >= 1
  {
    && r.period == period && r.count == |values|
    && r.value == if |values| < period then Sum(values) else EmaOf(values, period)
  }

  lemma PushTracks(r: Running, period: nat, values: seq<real>, price: real)
    requires period >= 1 && Tracks(r, period, values)
    ensures Tracks(Push(r, price), period, values + [price])
  {
    assert (values + [price])[..|values|] == values;
  }

  // The prefix-recomputing MACD is the one-pass MACD.
  lemma {:induction false} StreamTracks(prices: seq<real>)
    ensures var s := Streamed(prices);
      Tracks(s.fast, 12, prices) && Tracks(s.slow, 26, prices) && Tracks(s.signal, 9, MacdSeries(prices))
  {
    if |prices| > 0 {
      var init, price := prices[..|prices| - 1], prices[|prices| - 1];
      StreamTracks(init);
      assert init + [price] == prices;
      PushTracks(Streamed(init).fast, 12, init, price);
      PushTracks(Streamed(init).slow, 26, init, price);
      if |prices| >= 26 {
        PushTracks(Streamed(init).signal, 9, MacdSeries(init), MacdLine(prices));
      }
    }
  }

  lemma OnePassMacd(prices: seq<real>)
    ensures StreamOutput(Streamed(prices)) == MacdOf(prices)
  {
    StreamTracks(prices);
  }

  // ----- Behaviour under a change of price scale -----

  function Affine(x: real, a: real, b: real): real { a * x + b }

  function Rescale(values: seq<real>, a: real, b: real): (r: seq<real>)
    ensures |r| == |values| && forall i :: 0 <= i < |r| ==> r[i] == Affine(values[i], a, b)
  {
    seq(|values|, i requires 0 <= i < |values| => Affine(values[i], a, b))
  }

  lemma RescaleSnoc(values: seq<real>, v: real, a: real, b: real)
    ensures Rescale(values + [v], a, b) == Rescale(values, a, b) + [Affine(v, a, b)]
  {
  }

  lemma RescaleInit(values: seq<real>, a: real, b: real)
    requires |values| > 0
    ensures Rescale(values, a, b)[..|values| - 1] == Rescale(values[..|values| - 1], a, b)
  {
  }

  lemma {:induction false} SumRescale(values: seq<real>, a: real, b: real)
    ensures Sum(Rescale(values, a, b)) == a * Sum(values) + b * |values| as real
  {
    if |values| > 0 {
      RescaleInit(values, a, b);
      SumRescale(values[..|values| - 1], a, b);
      AddTerm(a, b, Sum(values[..|values| - 1]), values[|values| - 1], (|values| - 1) as real);
    }
  }

  lemma AddTerm(a: real, b: real, s: real, v: real, n: real)
    ensures a * s + b * n + Affine(v, a, b) == a * (s + v) + b * (n + 1.0)
  {
  }

  lemma MeanRescale(values: seq<real>, a: real, b: real)
    requires |values| > 0
    ensures Mean(Rescale(values, a, b)) == Affine(Mean(values), a, b)
  {
    SumRescale(values, a, b);
    DivideAffine(a, Sum(values), b, |values| as real);
  }

  lemma DivideAffine(a: real, s: real, b: real, n: real)
    requires n > 0.0
    ensures (a * s + b * n) / n == Affine(s / n, a, b)
  {
    var q := s / n;
    assert q * n == s;
    assert (a * q + b) * n == a * s + b * n;
    QuotientUnique(a * s + b * n, a * q + b, n);
  }

  lemma QuotientUnique(x: real, q: real, n: real)
    requires n != 0.0 && q * n == x
    ensures x / n == q
  {
  }

  lemma BlendRescale(a: real, b: real, price: real, ema: real, k: real)
    ensures Blend(Affine(price, a, b), Affine(ema, a, b), k) == Affine(Blend(price, ema, k), a, b)
  {
  }

  lemma {:induction false} EmaRescale(values: seq<real>, period: nat, a: real, b: real)
    requires 1 <= period <= |values|
    ensures EmaOf(Rescale(values, a, b), period) == Affine(EmaOf(values, period), a, b)
  {
    if |values| == period {
      MeanRescale(values, a, b);
    } else {
      var init := values[..|values| - 1];
      RescaleInit(values, a, b);
      EmaRescale(init, period, a, b);
      BlendRescale(a, b, values[|values| - 1], EmaOf(init, period), Smoothing(period));
    }
  }

  lemma LineRescale(prices: seq<real>, a: real, b: real)
    requires |prices| >= 26
    ensures MacdLine(Rescale(prices, a, b)) == Affine(MacdLine(prices), a, 0.0)
  {
    EmaRescale(prices, 12, a, b);
    EmaRescale(prices, 26, a, b);
    Spread(a, b, EmaOf(prices, 12), EmaOf(prices, 26));
  }

  lemma Spread(a: real, b: real, x: real, y: real)
    ensures Affine(x, a, b) - Affine(y, a, b) == Affine(x - y, a, 0.0)
  {
  }

  lemma {:induction false} SeriesRescale(prices: seq<real>, a: real, b: real)
    ensures MacdSeries(Rescale(prices, a, b)) == Rescale(MacdSeries(prices), a, 0.0)
  {
    if |prices| >= 26 {
      var init := prices[..|prices| - 1];
      RescaleInit(prices, a, b);
      SeriesRescale(init, a, b);
      LineRescale(prices, a, b);
      RescaleSnoc(MacdSeries(init), MacdLine(prices), a, 0.0);
    }
  }

  // MACD ignores a constant shift of every price and scales with the price unit; a crossing is scale-free.
  lemma MacdRescales(prices: seq<real>, a: real, b: real)
    ensures MacdOf(prices) == None ==> MacdOf(Rescale(prices, a, b)) == None
    ensures MacdOf(prices).Some? ==>
      MacdOf(Rescale(prices, a, b)) ==
      Some(Macd(Affine(MacdOf(prices).value.line, a, 0.0), Affine(MacdOf(prices).value.signal, a, 0.0)))
  {
    if |prices| >= 35 {
      LineRescale(prices, a, b);
      SeriesRescale(prices, a, b);
      EmaRescale(MacdSeries(prices), 9, a, 0.0);
    }
  }

  // ----- How much each value weighs -----

  // What the last value takes of the average, and what it leaves to the values before.
  function LastShare(period: nat): real { 2.0 / (period as real + 1.0) }

  function LeftShare(period: nat): real { (period as real - 1.0) / (period as real + 1.0) }

  // The weight of value j in the EMA of n values: that of the last one shrinks by the same factor with each step back,
  // and the values of the seed share what is left equally.
  function Weight(n: nat, period: nat, j: nat): real
    requires 1 <= period <= n && j < n
  {
    if j < period then Times(Pow(LeftShare(period), n - period), 1.0 / period as real)
    else Times(Pow(LeftShare(period), n - 1 - j), LastShare(period))
  }

  // Raising value j by d raises the EMA by d times its weight, whatever the values are.
  lemma {:induction false} EmaWeighs(values: seq<real>, period: nat, j: nat, d: real)
    requires 1 <= period <= |values| && j < |values|
    ensures EmaOf(values[j := values[j] + d], period) == EmaOf(values, period) + Times(d, Weight(|values|, period, j))
  {
    var n, raised := |values|, values[j := values[j] + d];
    if n == period {
      RaisedMean(values, j, d);
    } else if j == n - 1 {
      assert raised[..n - 1] == values[..n - 1];
      BlendRaised(values[n - 1], d, EmaOf(values[..n - 1], period), 0.0, period);
    } else {
      var init := values[..n - 1];
      assert raised[..n - 1] == init[j := init[j] + d];
      EmaWeighs(init, period, j, d);
      BlendRaised(values[n - 1], 0.0, EmaOf(init, period), Times(d, Weight(n - 1, period, j)), period);
      WeightShrinks(n, period, j, d);
    }
  }

  lemma BlendRaised(price: real, d: real, ema: real, e: real, period: nat)
    requires period >= 1
    ensures Blend(price + d, ema + e, Smoothing(period)) ==
      Blend(price, ema, Smoothing(period)) + Times(d, LastShare(period)) + Times(e, LeftShare(period))
  {
    var p := period as real;
    assert LeftShare(period) == 1.0 - LastShare(period) by {
      assert (LeftShare(period) + LastShare(period)) * (p + 1.0) == p + 1.0;
    }
  }

  lemma WeightShrinks(n: nat, period: nat, j: nat, d: real)
    requires 1 <= period < n && j < n - 1
    ensures Times(Times(d, Weight(n - 1, period, j)), LeftShare(period)) == Times(d, Weight(n, period, j))
  {
    var x, back := LeftShare(period), if j < period then n - 1 - period else n - 2 - j;
    assert Pow(x, back + 1) == Times(Pow(x, back), x);
    Reorder(d, Pow(x, back), if j < period then 1.0 / period as real else LastShare(period), x);
  }

  lemma Reorder(d: real, p: real, w: real, x: real)
    ensures Times(Times(d, Times(p, w)), x) == Times(d, Times(Times(p, x), w))
  {
  }

  lemma {:induction false} RaisedSum(s: seq<real>, j: nat, d: real)
    requires j < |s|
    ensures Sum(s[j := s[j] + d]) == Sum(s) + d
  {
    var n, raised := |s|, s[j := s[j] + d];
    if j == n - 1 {
      assert raised[..n - 1] == s[..n - 1];
    } else {
      assert raised[..n - 1] == s[..n - 1][j := s[j] + d];
      RaisedSum(s[..n - 1], j, d);
    }
  }

  lemma RaisedMean(s: seq<real>, j: nat, d: real)
    requires j < |s|
    ensures Mean(s[j := s[j] + d]) == Mean(s) + Times(d, Times(1.0, 1.0 / |s| as real))
  {
    RaisedSum(s, j, d);
  }

  // Together with the weights this fixes the EMA: it starts from the common value of equal values.
  lemma EmaOfConstant(n: nat, period: nat, v: real)
    requires 1 <= period <= n
    ensures EmaOf(seq(n, _ => v), period) == v
  {
    var flat := seq(n, _ => v);
    assert Rescale(flat, 0.0, v) == flat;
    EmaRescale(flat, period, 0.0, v);
  }

  lemma RaisedLine(prices: seq<real>, d: real)
    requires |prices| >= 27
    ensures MacdLine(prices[|prices| - 1 := prices[|prices| - 1] + d]) ==
      MacdLine(prices) + d * (2.0 / 13.0 - 2.0 / 27.0)
  {
    var n := |prices|;
    EmaWeighs(prices, 12, n - 1, d);
    EmaWeighs(prices, 26, n - 1, d);
    assert Weight(n, 12, n - 1) == 2.0 / 13.0 && Weight(n, 26, n - 1) == 2.0 / 27.0;
  }

  // A change of the last price moves the line by what the 12 and the 26 period weigh it at, and the signal by a fifth
  // of that.
  lemma LastPriceMovesMacd(prices: seq<real>, d: real)
    requires |prices| >= 35
    ensures var before, move := MacdOf(prices).value, d * (2.0 / 13.0 - 2.0 / 27.0);
      MacdOf(prices[|prices| - 1 := prices[|prices| - 1] + d]) ==
      Some(Macd(before.line + move, before.signal + move * 0.2))
  {
    var n, move := |prices|, d * (2.0 / 13.0 - 2.0 / 27.0);
    var raised, lines := prices[n - 1 := prices[n - 1] + d], MacdSeries(prices);
    RaisedLine(prices, d);
    assert raised[..n - 1] == prices[..n - 1];
    assert lines == MacdSeries(prices[..n - 1]) + [MacdLine(prices)];
    assert MacdSeries(raised) == lines[|lines| - 1 := lines[|lines| - 1] + move];
    EmaWeighs(lines, 9, |lines| - 1, move);
    assert Weight(|lines|, 9, |lines| - 1) == 0.2;
  }

  // ----- RSI -----

  // The last `period` price changes.
  function Changes(prices: seq<real>, period: nat): seq<real>
    requires |prices| >= period + 1
  {
    seq(period, i requires 0 <= i < period => prices[|prices| - period + i] - prices[|prices| - period + i - 1])
  }

  function Gains(changes: seq<real>): seq<real>
  {
    seq(|changes|, i requires 0 <= i < |changes| => RMax(changes[i], 0.0))
  }

  function Losses(changes: seq<real>): seq<real>
  {
    seq(|changes|, i requires 0 <= i < |changes| => RMax(-changes[i], 0.0))
  }

  function FromAverages(gain: real, loss: real): real
    requires gain >= 0.0 && loss >= 0.0
  {
    if loss == 0.0 then 100.0 else 100.0 - 100.0 / (1.0 + RelativeStrength(gain, loss))
  }

  function RelativeStrength(gain: real, loss: real): (rs: real)
    requires gain >= 0.0 && loss > 0.0
    ensures rs >= 0.0 && rs * loss == gain
  {
    gain / loss
  }

  function RsiOf(prices: seq<real>, period: nat): real
    requires period >= 1 && |prices| >= period + 1
  {
    AveragesNonNegative(Changes(prices, period));
    FromAverages(Mean(Gains(Changes(prices, period))), Mean(Losses(Changes(prices, period))))
  }

  lemma {:induction false} SumNonNegative(s: seq<real>)
    requires forall i :: 0 <= i < |s| ==> s[i] >= 0.0
    ensures Sum(s) >= 0.0
    ensures Sum(s) == 0.0 <==> forall i :: 0 <= i < |s| ==> s[i] == 0.0
  {
    if |s| > 0 {
      var init := s[..|s| - 1];
      SumNonNegative(init);
      if forall i :: 0 <= i < |s| ==> s[i] == 0.0 {
        assert forall i :: 0 <= i < |init| ==> init[i] == 0.0;
      }
      if Sum(s) == 0.0 {
        assert Sum(init) == 0.0 && s[|s| - 1] == 0.0;
        assert forall i :: 0 <= i < |s| ==> s[i] == s[|s| - 1] || (i < |init| && s[i] == init[i]);
      }
    }
  }

  lemma AverageSign(s: seq<real>)
    requires |s| > 0 && forall i :: 0 <= i < |s| ==> s[i] >= 0.0
    ensures Mean(s) >= 0.0 && (Mean(s) == 0.0 <==> Sum(s) == 0.0)
  {
    SumNonNegative(s);
    assert Mean(s) * |s| as real == Sum(s);
  }

  lemma AveragesNonNegative(changes: seq<real>)
    requires |changes| > 0
    ensures Mean(Gains(changes)) >= 0.0 && Mean(Losses(changes)) >= 0.0
  {
    AverageSign(Gains(changes));
    AverageSign(Losses(changes));
  }

  method CalcRsi(prices: seq<real>, period: nat) returns (r: Option<real>)
    requires period >= 1
    ensures r == if |prices| < period + 1 then None else Some(RsiOf(prices, period))
    ensures r.Some? ==> 0.0 <= r.value <= 100.0
  {
    if |prices| < period + 1 {
      return None;
    }
    var gains: seq<real>, losses: seq<real> := [], [];
    for i := 0 to period
      invariant |gains| == i && |losses| == i
      invariant forall j :: 0 <= j < i ==>
        gains[j] == Gains(Changes(prices, period))[j] && losses[j] == Losses(Changes(prices, period))[j]
    {
      var at := |prices| - period + i;
      var delta := prices[at] - prices[at - 1];
      gains := gains + [RMax(delta, 0.0)];
      losses := losses + [RMax(-delta, 0.0)];
    }
    assert gains == Gains(Changes(prices, period)) && losses == Losses(Changes(prices, period));
    AveragesNonNegative(Changes(prices, period));
    var gain, loss := Mean(gains), Mean(losses);
    RsiBounds(gain, loss);
    return Some(FromAverages(gain, loss));
  }

  // RSI is the share of gains in all movement, with the all-gains convention for a flat window.
  lemma RsiShare(gain: real, loss: real)
    requires gain >= 0.0 && loss >= 0.0 && gain + loss > 0.0
    ensures FromAverages(gain, loss) == 100.0 * (gain / (gain + loss))
  {
    if loss > 0.0 {
      var rs, total := RelativeStrength(gain, loss), gain + loss;
      assert (1.0 + rs) * loss == total;
      Shares(gain, loss, rs);
    }
  }

  lemma Shares(gain: real, loss: real, rs: real)
    requires gain >= 0.0 && loss > 0.0 && rs >= 0.0 && (1.0 + rs) * loss == gain + loss
    ensures 100.0 - 100.0 / (1.0 + rs) == 100.0 * (gain / (gain + loss))
  {
    var share := loss / (gain + loss);
    assert share * (gain + loss) == loss;
    assert (share * (1.0 + rs) - 1.0) * loss == share * (gain + loss) - loss;
    NoZeroFactor(share * (1.0 + rs) - 1.0, loss);
    QuotientUnique(100.0, 100.0 * share, 1.0 + rs);
    WholeShares(gain, loss, gain + loss);
  }

  lemma WholeShares(x: real, y: real, total: real)
    requires total > 0.0 && x + y == total
    ensures x / total + y / total == 1.0
  {
    var p, q := x / total, y / total;
    assert p * total == x && q * total == y;
    assert (p + q - 1.0) * total == p * total + q * total - total;
    NoZeroFactor(p + q - 1.0, total);
  }

  lemma NoZeroFactor(x: real, y: real)
    requires x * y == 0.0 && y != 0.0
    ensures x == 0.0
  {
  }

  // What the last n steps rose and fell, in sum.
  function Rises(prices: seq<real>, n: nat): real
    requires |prices| > n
  {
    if n == 0 then 0.0
    else
      var step := prices[|prices| - 1] - prices[|prices| - 2];
      Rises(prices[..|prices| - 1], n - 1) + (if step > 0.0 then step else 0.0)
  }

  function Falls(prices: seq<real>, n: nat): real
    requires |prices| > n
  {
    if n == 0 then 0.0
    else
      var step := prices[|prices| - 1] - prices[|prices| - 2];
      Falls(prices[..|prices| - 1], n - 1) + (if step < 0.0 then -step else 0.0)
  }

  lemma ChangesSnoc(prices: seq<real>, n: nat)
    requires |prices| > n > 0
    ensures Changes(prices, n) ==
      Changes(prices[..|prices| - 1], n - 1) + [prices[|prices| - 1] - prices[|prices| - 2]]
  {
  }

  lemma SidesSnoc(changes: seq<real>, x: real)
    ensures Sum(Gains(changes + [x])) == Sum(Gains(changes)) + RMax(x, 0.0)
    ensures Sum(Losses(changes + [x])) == Sum(Losses(changes)) + RMax(-x, 0.0)
  {
    assert Gains(changes + [x])[..|changes|] == Gains(changes);
    assert Losses(changes + [x])[..|changes|] == Losses(changes);
  }

  lemma {:induction false} StepsAddUp(prices: seq<real>, n: nat)
    requires |prices| > n
    ensures Sum(Gains(Changes(prices, n))) == Rises(prices, n) >= 0.0
    ensures Sum(Losses(Changes(prices, n))) == Falls(prices, n) >= 0.0
    ensures Rises(prices, n) - Falls(prices, n) == prices[|prices| - 1] - prices[|prices| - 1 - n]
  {
    if n > 0 {
      StepsAddUp(prices[..|prices| - 1], n - 1);
      ChangesSnoc(prices, n);
      SidesSnoc(Changes(prices[..|prices| - 1], n - 1), prices[|prices| - 1] - prices[|prices| - 2]);
    }
  }

  // RSI is the percentage of the movement of its window that went up, and 100 when nothing moved.
  lemma RsiIsShareOfRises(prices: seq<real>, period: nat)
    requires period >= 1 && |prices| > period
    ensures Times(RsiOf(prices, period), Rises(prices, period) + Falls(prices, period)) == 100.0 * Rises(prices, period)
    ensures Rises(prices, period) == 0.0 && Falls(prices, period) == 0.0 ==> RsiOf(prices, period) == 100.0
  {
    StepsAddUp(prices, period);
    AveragesNonNegative(Changes(prices, period));
    ShareOfAverages(Rises(prices, period), Falls(prices, period), period as real);
  }

  lemma ShareOfAverages(up: real, down: real, n: real)
    requires up >= 0.0 && down >= 0.0 && n > 0.0 && up / n >= 0.0 && down / n >= 0.0
    ensures Times(FromAverages(up / n, down / n), up + down) == 100.0 * up
    ensures up == 0.0 && down == 0.0 ==> FromAverages(up / n, down / n) == 100.0
  {
    var gain, loss := up / n, down / n;
    assert gain * n == up && loss * n == down;
    if up + down > 0.0 {
      assert (gain + loss) * n == up + down;
      RsiShare(gain, loss);
      WholeShare(gain, loss, n);
    }
  }

  lemma WholeShare(gain: real, loss: real, n: real)
    requires gain + loss > 0.0
    ensures Times(100.0 * (gain / (gain + loss)), gain * n + loss * n) == 100.0 * (gain * n)
  {
    var share := gain / (gain + loss);
    assert share * (gain + loss) == gain;
    assert share * (gain * n + loss * n) == share * (gain + loss) * n;
  }

  lemma RsiBounds(gain: real, loss: real)
    requires gain >= 0.0 && loss >= 0.0
    ensures 0.0 <= FromAverages(gain, loss) <= 100.0
  {
    if loss > 0.0 {
      var d := 1.0 + RelativeStrength(gain, loss);
      var q := 100.0 / d;
      assert q * d == 100.0;
      assert 0.0 <= q <= 100.0 by { UnitQuotient(q, d); }
    }
  }

  lemma UnitQuotient(q: real, d: real)
    requires d >= 1.0 && q * d == 100.0
    ensures 0.0 <= q <= 100.0
  {
    assert q < 0.0 ==> q * d < 0.0;
    assert q * (d - 1.0) >= 0.0;
  }

  ghost predicate Flat(prices: seq<real>, period: nat)
    requires |prices| >= period + 1
  {
    forall i :: 0 <= i < period ==> Changes(prices, period)[i] == 0.0
  }

  lemma FlatAverages(prices: seq<real>, period: nat)
    requires period >= 1 && |prices| >= period + 1
    ensures Flat(prices, period) <==>
      Mean(Gains(Changes(prices, period))) == 0.0 && Mean(Losses(Changes(prices, period))) == 0.0
  {
    var changes := Changes(prices, period);
    AverageSign(Gains(changes));
    AverageSign(Losses(changes));
    SumNonNegative(Gains(changes));
    SumNonNegative(Losses(changes));
    forall i | 0 <= i < period ensures changes[i] == 0.0 <==> Gains(changes)[i] == 0.0 && Losses(changes)[i] == 0.0 {}
  }

  // Scaling all prices by a > 0 and shifting them scales both averages by a.
  lemma ChangesRescale(prices: seq<real>, period: nat, a: real, b: real)
    requires |prices| >= period + 1
    ensures Changes(Rescale(prices, a, b), period) == Rescale(Changes(prices, period), a, 0.0)
  {
    var lhs, rhs := Changes(Rescale(prices, a, b), period), Rescale(Changes(prices, period), a, 0.0);
    forall i | 0 <= i < period ensures lhs[i] == rhs[i] {
      var at := |prices| - period + i;
      Spread(a, b, prices[at], prices[at - 1]);
    }
  }

  lemma PositiveScale(changes: seq<real>, a: real)
    requires a > 0.0
    ensures Gains(Rescale(changes, a, 0.0)) == Rescale(Gains(changes), a, 0.0)
    ensures Losses(Rescale(changes, a, 0.0)) == Rescale(Losses(changes), a, 0.0)
  {
    forall i | 0 <= i < |changes|
      ensures RMax(Affine(changes[i], a, 0.0), 0.0) == Affine(RMax(changes[i], 0.0), a, 0.0)
      ensures RMax(-Affine(changes[i], a, 0.0), 0.0) == Affine(RMax(-changes[i], 0.0), a, 0.0)
    {
      ScaledSign(a, changes[i]);
    }
    assert forall i :: 0 <= i < |changes| ==> Gains(Rescale(changes, a, 0.0))[i] == Rescale(Gains(changes), a, 0.0)[i];
    assert forall i :: 0 <= i < |changes| ==>
      Losses(Rescale(changes, a, 0.0))[i] == Rescale(Losses(changes), a, 0.0)[i];
  }

  lemma ScaledSign(a: real, x: real)
    requires a > 0.0
    ensures x >= 0.0 ==> a * x >= 0.0
    ensures x <= 0.0 ==> a * x <= 0.0
    ensures a * (-x) == -(a * x)
  {
  }

  lemma StrengthScale(gain: real, loss: real, a: real)
    requires gain >= 0.0 && loss >= 0.0 && a > 0.0
    ensures Affine(gain, a, 0.0) >= 0.0 && Affine(loss, a, 0.0) >= 0.0
    ensures FromAverages(Affine(gain, a, 0.0), Affine(loss, a, 0.0)) == FromAverages(gain, loss)
  {
    ScaledSign(a, gain);
    ScaledSign(a, loss);
    if loss > 0.0 {
      assert a * loss > 0.0;
      var rs := RelativeStrength(gain, loss);
      assert rs * (a * loss) == a * gain;
      QuotientUnique(a * gain, rs, a * loss);
    }
  }

  lemma AveragesScale(changes: seq<real>, a: real)
    requires |changes| > 0 && a > 0.0
    ensures Mean(Gains(Rescale(changes, a, 0.0))) == Affine(Mean(Gains(changes)), a, 0.0)
    ensures Mean(Losses(Rescale(changes, a, 0.0))) == Affine(Mean(Losses(changes)), a, 0.0)
  {
    PositiveScale(changes, a);
    MeanRescale(Gains(changes), a, 0.0);
    MeanRescale(Losses(changes), a, 0.0);
  }

  // RSI does not depend on the price unit or on a constant shift.
  lemma RsiInvariant(prices: seq<real>, period: nat, a: real, b: real)
    requires period >= 1 && |prices| >= period + 1 && a > 0.0
    ensures RsiOf(Rescale(prices, a, b), period) == RsiOf(prices, period)
  {
    var changes := Changes(prices, period);
    ChangesRescale(prices, period, a, b);
    AveragesScale(changes, a);
    AveragesNonNegative(changes);
    StrengthScale(Mean(Gains(changes)), Mean(Losses(changes)), a);
  }

  // Negating every price mirrors RSI about 50, exactly when the window moved at all.
  lemma RsiMirror(prices: seq<real>, period: nat)
    requires period >= 1 && |prices| >= period + 1
    ensures RsiOf(Rescale(prices, -1.0, 0.0), period) == 100.0 - RsiOf(prices, period) <==> !Flat(prices, period)
  {
    var changes := Changes(prices, period);
    ChangesRescale(prices, period, -1.0, 0.0);
    assert Gains(Rescale(changes, -1.0, 0.0)) == Losses(changes);
    assert Losses(Rescale(changes, -1.0, 0.0)) == Gains(changes);
    AveragesNonNegative(changes);
    FlatAverages(prices, period);
    MirroredShares(Mean(Gains(changes)), Mean(Losses(changes)));
  }

  lemma MirroredShares(gain: real, loss: real)
    requires gain >= 0.0 && loss >= 0.0
    ensures FromAverages(loss, gain) == 100.0 - FromAverages(gain, loss) <==> gain + loss > 0.0
  {
    if gain + loss > 0.0 {
      RsiShare(gain, loss);
      RsiShare(loss, gain);
      var total := gain + loss;
      WholeShares(gain, loss, total);
    }
  }
}
