/** The method-of-moments GARCH(1,1) fit and its closed-form variance forecast. */
module Garch {
  import opened Common

  const FLOOR_OMEGA := 0.0000001
  const MIN_GAP := 0.001

  datatype Params = Params(omega: real, alpha: real, beta: real)

  function Squares(xs: seq<real>): (r: seq<real>)
    ensures |r| == |xs|
  {
    if |xs| == 0 then [] else Squares(xs[..|xs| - 1]) + [xs[|xs| - 1] * xs[|xs| - 1]]
  }

  // `correlation` is whatever the library reports for the lag-one autocorrelation; None is its NaN, which both clamps
  // lose.
  function ClampedCorrelation(correlation: Option<real>): real
  {
    match correlation
    case None => 0.01
    case Some(c) => RMax(0.01, RMin(c, 0.99))
  }

  function Beta(autocorr: real): real { RMax(0.5, RMin(autocorr, 0.95)) }

  function Alpha(beta: real): real { RMax(0.01, RMin(0.15, 1.0 - beta - 0.02)) }

  // The mean of no data is NaN, which the floor absorbs.
  function Omega(rets: seq<real>, gap: real): real
  {
    if |rets| == 0 then FLOOR_OMEGA else Floored(Mean(Squares(rets)), gap)
  }

  function Floored(variance: real, gap: real): real { RMax(FLOOR_OMEGA, variance * gap) }

  // `known` is false for a ticker without a return series.
  function Fit(known: bool, rets: seq<real>, correlation: Option<real>): Params
  {
    if !known then Params(0.00001, 0.08, 0.90)
    else
      var beta := Beta(if |rets| > 10 then ClampedCorrelation(correlation) else 0.9);
      var alpha := Alpha(beta);
      Params(Omega(rets, 1.0 - alpha - beta), alpha, beta)
  }

  function Persistence(p: Params): real { p.alpha + p.beta }

  function LongRunVariance(p: Params): real
  {
    p.omega / RMax(1.0 - p.alpha - p.beta, MIN_GAP)
  }

  // The point that keeps the fraction w of the gap from target to current.
  function Between(target: real, current: real, w: real): real
  {
    target + w * (current - target)
  }

  function ForecastAt(p: Params, current: real, h: nat): real
  {
    Between(LongRunVariance(p), current, Pow(Persistence(p), h))
  }

  method Forecast(p: Params, current: real, days: int) returns (forecasts: seq<real>)
    ensures |forecasts| == if days < 0 then 0 else days
    ensures forall h :: 1 <= h <= |forecasts| ==> forecasts[h - 1] == ForecastAt(p, current, h)
  {
    var longRun := p.omega / RMax(1.0 - p.alpha - p.beta, MIN_GAP);
    forecasts := [];
    var h := 1;
    while h <= days
      invariant |forecasts| == h - 1 && (days < 0 || h <= days + 1) && (days < 0 ==> h == 1)
      invariant forall k :: 1 <= k <= |forecasts| ==> forecasts[k - 1] == ForecastAt(p, current, k)
    {
      forecasts := forecasts + [longRun + Pow(p.alpha + p.beta, h) * (current - longRun)];
      h := h + 1;
    }
  }

  // Any fit is stationary with room to spare, for any correlation estimate at all.
  lemma FitIsStationary(known: bool, rets: seq<real>, correlation: Option<real>)
    ensures var p := Fit(known, rets, correlation);
      0.65 <= Persistence(p) <= 0.98 && 0.03 <= p.alpha <= 0.15 && 0.5 <= p.beta <= 0.95 && p.omega >= FLOOR_OMEGA
  {
  }

  // How the fit reads the estimated correlation: beta follows it between 0.5 and 0.95 (0.5 when it is NaN), and alpha
  // fills up to a persistence of 0.98, with at most 0.15. Ten returns or fewer, and an unknown ticker, get 0.08 and
  // 0.9.
  lemma FitReadsCorrelation(rets: seq<real>, correlation: Option<real>)
    ensures Fit(false, rets, correlation) == Params(0.00001, 0.08, 0.9)
    ensures var p := Fit(true, rets, correlation);
      && (|rets| <= 10 ==> p.beta == 0.9)
      && (|rets| > 10 ==>
            && (correlation == None || correlation.value <= 0.5 ==> p.beta == 0.5)
            && (correlation.Some? && 0.5 <= correlation.value <= 0.95 ==> p.beta == correlation.value)
            && (correlation.Some? && correlation.value >= 0.95 ==> p.beta == 0.95))
      && (p.beta <= 0.83 ==> p.alpha == 0.15) && (p.beta >= 0.83 ==> p.alpha + p.beta == 0.98)
  {
  }

  lemma MulDiv(a: real, b: real)
    requires b != 0.0
    ensures a / b * b == a
  {
  }

  // omega over the guarded gap is the variance v exactly when the floor on omega does not bite.
  ghost predicate TargetsVariance(omega: real, gap: real, v: real)
  {
    omega / RMax(gap, MIN_GAP) == v <==> v * gap >= FLOOR_OMEGA
  }

  lemma Targets(omega: real, gap: real, v: real)
    requires gap >= MIN_GAP && omega == Floored(v, gap)
    ensures TargetsVariance(omega, gap, v)
  {
    MulDiv(omega, gap);
    if omega == v * gap { Cancel(omega / gap, v, gap); }
  }

  // Variance targeting: unless the floor on omega bites, the long-run variance is the mean squared return.
  lemma FitTargetsSampleVariance(rets: seq<real>, correlation: Option<real>)
    requires |rets| > 0
    ensures var p := Fit(true, rets, correlation); TargetsVariance(p.omega, 1.0 - p.alpha - p.beta, Mean(Squares(rets)))
  {
    var p := Fit(true, rets, correlation);
    FitIsStationary(true, rets, correlation);
    Targets(p.omega, 1.0 - p.alpha - p.beta, Mean(Squares(rets)));
  }

  lemma Cancel(a: real, b: real, w: real)
    requires w != 0.0 && a * w == b * w
    ensures a == b
  {
    assert (a - b) * w == 0.0;
  }

  // One step of the GARCH recursion leaves the same residue at every horizon.
  lemma StepResidue(p: Params, current: real, h: nat)
    ensures ForecastAt(p, current, h + 1) - (p.omega + Persistence(p) * ForecastAt(p, current, h)) ==
      LongRunVariance(p) * (1.0 - Persistence(p)) - p.omega
  {
    var l, q, w := LongRunVariance(p), Persistence(p), Pow(Persistence(p), h);
    assert Pow(q, h + 1) == w * q;
    Residue(l, q, w, current - l, p.omega);
  }

  lemma Residue(l: real, q: real, w: real, d: real, omega: real)
    ensures l + (w * q) * d - (omega + q * (l + w * d)) == l * (1.0 - q) - omega
  {
  }

  lemma FirstStep(p: Params, current: real)
    requires FollowsRecursion(p, current)
    ensures LongRunVariance(p) * (1.0 - Persistence(p)) - p.omega == 0.0
  {
    StepResidue(p, current, 0);
    assert ForecastAt(p, current, 0 + 1) == p.omega + Persistence(p) * ForecastAt(p, current, 0);
  }

  lemma AllSteps(p: Params, current: real)
    requires LongRunVariance(p) * (1.0 - Persistence(p)) - p.omega == 0.0
    ensures FollowsRecursion(p, current)
  {
    forall h: nat
      ensures ForecastAt(p, current, h + 1) == p.omega + Persistence(p) * ForecastAt(p, current, h)
    {
      StepResidue(p, current, h);
    }
  }

  ghost predicate FollowsRecursion(p: Params, current: real)
  {
    forall h: nat :: ForecastAt(p, current, h + 1) == p.omega + Persistence(p) * ForecastAt(p, current, h)
  }

  // The closed form is the recursion exactly when the guard on the denominator is inert (or there is no omega to
  // divide).
  lemma ClosedFormIffRecursion(p: Params, current: real)
    ensures FollowsRecursion(p, current) <==> 1.0 - Persistence(p) >= MIN_GAP || p.omega == 0.0
  {
    var gap := 1.0 - Persistence(p);
    assert gap == 1.0 - p.alpha - p.beta;
    ResidueVanishes(p.omega, gap, RMax(gap, MIN_GAP));
    if gap >= MIN_GAP || p.omega == 0.0 {
      AllSteps(p, current);
    } else if FollowsRecursion(p, current) {
      FirstStep(p, current);
      assert false;
    }
  }

  lemma ResidueVanishes(omega: real, gap: real, used: real)
    requires used == RMax(gap, MIN_GAP)
    ensures (omega / used) * gap - omega == 0.0 <==> gap >= MIN_GAP || omega == 0.0
  {
    var x := omega / used;
    MulDiv(omega, used);
    assert x * used - x * gap == x * (used - gap);
    assert used != gap && x != 0.0 ==> x * (used - gap) != 0.0;
  }

  lemma FitFollowsRecursion(known: bool, rets: seq<real>, correlation: Option<real>, current: real)
    ensures FollowsRecursion(Fit(known, rets, correlation), current)
  {
    FitIsStationary(known, rets, correlation);
    ClosedFormIffRecursion(Fit(known, rets, correlation), current);
  }

  lemma {:induction false} PowBounds(b: real, top: real, n: nat)
    requires 0.0 <= b <= top <= 1.0
    ensures 0.0 <= Pow(b, n) <= Pow(top, n) <= 1.0
  {
    if n > 0 {
      PowBounds(b, top, n - 1);
      Products(Pow(b, n - 1), Pow(top, n - 1), b, top);
    }
  }

  lemma PowDecreases(b: real, n: nat)
    requires 0.0 <= b <= 1.0
    ensures Pow(b, n + 1) <= Pow(b, n)
  {
    PowBounds(b, 1.0, n);
    Products(Pow(b, n), Pow(b, n), b, 1.0);
  }

  lemma Products(x: real, y: real, b: real, top: real)
    requires 0.0 <= x <= y && 0.0 <= b <= top <= 1.0
    ensures 0.0 <= Times(x, b) <= Times(y, top) <= y
  {
    ScaleLe(0.0, x, b);
    TimesUnit(y, b);
    ScaleLe(b, top, x);
    ScaleLe(x, y, top);
    ScaleLe(top, 1.0, y);
  }

  lemma TimesUnit(x: real, b: real)
    ensures Times(x, 1.0) == x && Times(0.0, b) == 0.0
  {
  }

  // Gaps from the target: `gap` at the start, f now, g one step on. No step overshoots, and top bounds what is left.
  ghost predicate Closing(gap: real, f: real, g: real, top: real)
  {
    && (gap >= 0.0 ==> 0.0 <= g <= f <= gap)
    && (gap <= 0.0 ==> gap <= f <= g <= 0.0)
    && RAbs(f) <= top * RAbs(gap)
  }

  ghost predicate ConvergesAt(p: Params, current: real, h: nat)
  {
    var l := LongRunVariance(p);
    Closing(current - l, ForecastAt(p, current, h) - l, ForecastAt(p, current, h + 1) - l, Pow(0.98, h))
  }

  lemma StationaryConverges(p: Params, current: real, h: nat)
    requires 0.0 <= Persistence(p) <= 0.98
    ensures ConvergesAt(p, current, h)
  {
    PowBounds(Persistence(p), 0.98, h);
    PowBounds(Persistence(p), 0.98, h + 1);
    PowDecreases(Persistence(p), h);
    WeightsClose(LongRunVariance(p), current, Pow(Persistence(p), h), Pow(Persistence(p), h + 1), Pow(0.98, h));
  }

  // Each step of a fitted forecast moves toward the long-run variance, never past it, and the gap decays like 0.98^h.
  lemma FitConverges(known: bool, rets: seq<real>, correlation: Option<real>, current: real, h: nat)
    ensures ConvergesAt(Fit(known, rets, correlation), current, h)
  {
    FitIsStationary(known, rets, correlation);
    StationaryConverges(Fit(known, rets, correlation), current, h);
  }

  lemma WeightsClose(target: real, current: real, w: real, next: real, top: real)
    requires 0.0 <= next <= w <= top && w <= 1.0
    ensures Closing(current - target, Between(target, current, w) - target,
      Between(target, current, next) - target, top)
  {
    var gap := current - target;
    if gap >= 0.0 {
      Shrink(w, next, top, gap, Between(target, current, w) - target, Between(target, current, next) - target);
    } else {
      Negate(w, gap);
      Negate(next, gap);
      Shrink(w, next, top, -gap, target - Between(target, current, w), target - Between(target, current, next));
    }
  }

  lemma Negate(w: real, d: real)
    ensures w * (-d) == -(w * d)
  {
  }

  lemma Shrink(w: real, next: real, top: real, gap: real, f: real, g: real)
    requires 0.0 <= next <= w <= top && w <= 1.0 && gap >= 0.0
    requires f == w * gap && g == next * gap
    ensures 0.0 <= g <= f <= gap && f <= top * gap
  {
    ScaleLe(0.0, next, gap);
    ScaleLe(next, w, gap);
    ScaleLe(w, top, gap);
    TimesAtMost(gap, w);
  }
}
