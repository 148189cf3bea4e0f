/**
 The pure take-profit protection rules: progress, giveback allowance, profit-lock floor, winner classes, protective
 stops.
 */
module TpProtection {
  import opened Common

  datatype Side = Long | Short

  datatype Regime =
    | TrendingUp | TrendingDown | BreakoutRegime | HighVolatility | Reversal | UnstableTransition | Ranging
    | LowVolatility | EventDriven | InsufficientData

  datatype Timeframe = M1 | M5 | M15 | M30 | H1 | H4 | D1 | OtherTimeframe

  datatype Zone = NoZone | Below60 | Zone60 | Zone75 | Zone85 | Zone95

  datatype Retracement = Normal | Elevated | Abnormal | ThesisInvalidating

  datatype Winner = StrongContinuation | HealthyPullback | Weakening | Critical | Invalidated | UnknownWinner

  datatype Trend = Neutral | Bullish | Bearish

  function TpProgress(side: Side, entry: real, price: real, tp: Option<real>): Option<real>
  {
    if tp == None then None
    else
      var denominator := if side == Long then tp.value - entry else entry - tp.value;
      if RAbs(denominator) < 0.000000000001 then None
      else Some(if side == Long then (price - entry) / denominator else (entry - price) / denominator)
  }

  function ProgressZone(progress: real): Zone
  {
    if progress < 0.60 then Below60 else if progress < 0.75 then Zone60 else if progress < 0.85 then Zone75
    else if progress < 0.95 then Zone85 else Zone95
  }

  function RegimeBase(regime: Regime): real
  {
    match regime
    case TrendingUp | TrendingDown => 0.45
    case BreakoutRegime => 0.40
    case HighVolatility => 0.35
    case Reversal | UnstableTransition | Ranging => 0.25
    case LowVolatility | EventDriven => 0.20
    case InsufficientData => 0.30
  }

  function TimeframeAdjustment(t: Timeframe): real
  {
    match t
    case M1 => -0.05
    case M5 => -0.03
    case M15 | M30 | OtherTimeframe => 0.0
    case H1 => 0.03
    case H4 => 0.06
    case D1 => 0.08
  }

  function Allowance(atrR: real, regime: Regime, timeframe: Timeframe, least: real, most: real): real
  {
    var volatility := if atrR != 0.0 then RMin(0.10, RMax(0.0, atrR - 1.0) * 0.05) else 0.0;
    RMax(least, RMin(most, RegimeBase(regime) + TimeframeAdjustment(timeframe) + volatility))
  }

  function ClassifyRetracement(giveback: real, allowance: real): Retracement
  {
    if allowance <= 0.0 then (if giveback > 0.0 then Abnormal else Normal)
    else
      var ratio := giveback / allowance;
      if ratio <= 0.6 then Normal else if ratio <= 1.0 then Elevated else if ratio <= 1.5 then Abnormal
        else ThesisInvalidating
  }

  predicate Trending(regime: Regime) { regime == TrendingUp || regime == TrendingDown || regime == BreakoutRegime }

  datatype Lock = Lock(fraction: real, floor: Option<real>)

  predicate LockTriggered(maxProgress: real, maxR: real) { maxProgress >= 0.80 && maxR > 0.0 }

  function BandLow(maxProgress: real): real { if maxProgress >= 0.90 then 0.70 else 0.50 }

  function BandHigh(maxProgress: real): real { if maxProgress >= 0.90 then 0.85 else 0.70 }

  function ProtectFraction(maxProgress: real, regime: Regime, atrR: real): real
  {
    var low, high := BandLow(maxProgress), BandHigh(maxProgress);
    var base :=
      if maxProgress >= 0.90 then 0.70 + (0.85 - 0.70) * RMin(1.0, (maxProgress - 0.90) / 0.10)
      else 0.50 + (0.70 - 0.50) * RMin(1.0, (maxProgress - 0.80) / 0.10);
    var trended := if Trending(regime) then RMax(low, base - 0.05) else base;
    if atrR > 1.5 then RMin(high, trended + 0.05) else trended
  }

  function ProfitLock(maxProgress: real, maxR: real, regime: Regime, atrR: real): Lock
  {
    if !LockTriggered(maxProgress, maxR) then Lock(0.0, None)
    else Lock(ProtectFraction(maxProgress, regime, atrR), Some(Times(maxR, ProtectFraction(maxProgress, regime, atrR))))
  }

  function ClassifyWinner(opposing: nat, retracement: Retracement, regime: Regime,
      side: Side, trend: Trend, candlesHeld: Option<nat>): Winner
  {
    if candlesHeld == None then UnknownWinner
    else if retracement == ThesisInvalidating || opposing >= 3 then Invalidated
    else if opposing >= 2 && retracement == Abnormal then Critical
    else if retracement == Abnormal || opposing >= 2 then Weakening
    else
      var supports :=
        if trend == Neutral then (side == Long && regime == TrendingUp) || (side == Short && regime == TrendingDown) ||
          regime == BreakoutRegime
        else (side == Long && trend == Bullish) || (side == Short && trend == Bearish);
      if supports && Trending(regime) then StrongContinuation else HealthyPullback
  }

  datatype StopRules = StopRules(minAtr: real, maxAtr: real, minSpreadRatio: real)

  function ConstructDynamicStop(side: Side, entry: real, structure: Option<real>, atr: Option<real>,
      spread: Option<real>, rules: StopRules): Option<real>
  {
    if atr == None || atr.value <= 0.0 || rules.minAtr <= 0.0 || rules.maxAtr <= 0.0 || rules.minAtr > rules.maxAtr
      then None
    else if structure == Some(entry) then None
    else
      var spreadValue := if spread.Some? then spread.value else 0.0;
      var buffer := RMax(RMax(atr.value * 0.15, spreadValue * 2.0), 0.0);
      var raw :=
        if structure.Some? then RAbs(entry - structure.value) + buffer
        else Times(atr.value, RMax(rules.minAtr, 1.0));
      var distance := RMax(Times(atr.value, rules.minAtr), RMin(raw, Times(atr.value, rules.maxAtr)));
      if distance <= 0.0 || distance < Times(spreadValue, rules.minSpreadRatio) then None
      else Some(if side == Long then entry - distance else entry + distance)
  }

  // ----- Properties -----

  lemma AllowanceIsBoundedAndMonotone(atr1: real, atr2: real, regime: Regime,
      timeframe: Timeframe, least: real, most: real)
    requires atr1 <= atr2 && least <= most
    ensures least <= Allowance(atr1, regime, timeframe, least, most) <=
      Allowance(atr2, regime, timeframe, least, most) <= most
  {
  }

  lemma FractionInBand(p: real, regime: Regime, atrR: real)
    requires p >= 0.80
    ensures BandLow(p) <= ProtectFraction(p, regime, atrR) <= BandHigh(p)
  {
  }

  lemma FractionMonotone(p1: real, p2: real, regime: Regime, atrR: real)
    requires 0.80 <= p1 <= p2
    ensures ProtectFraction(p1, regime, atrR) <= ProtectFraction(p2, regime, atrR)
  {
    if p1 < 0.90 <= p2 {
      FractionInBand(p1, regime, atrR);
      FractionInBand(p2, regime, atrR);
    }
  }

  // A change of regime and volatility alone moves the protected fraction by at most a tenth.
  lemma FractionShift(p: real, regime1: Regime, atr1: real, regime2: Regime, atr2: real)
    requires p >= 0.80
    ensures RAbs(ProtectFraction(p, regime1, atr1) - ProtectFraction(p, regime2, atr2)) <= 0.10
  {
  }

  // A triggered floor is between 0.50 and 0.85 of the best R achieved.
  lemma FloorBand(p: real, maxR: real, regime: Regime, atrR: real)
    requires LockTriggered(p, maxR)
    ensures ProfitLock(p, maxR, regime, atrR).floor.Some?
    ensures Times(maxR, 0.50) <= ProfitLock(p, maxR, regime, atrR).floor.value <= Times(maxR, 0.85)
  {
    var fraction := ProtectFraction(p, regime, atrR);
    FractionInBand(p, regime, atrR);
    TimesMonotone(maxR, maxR, 0.50, fraction);
    TimesMonotone(maxR, maxR, fraction, 0.85);
  }

  // With regime and volatility fixed the floor only rises, through the band switch at 0.90.
  lemma FloorMonotone(p1: real, r1: real, p2: real, r2: real, regime: Regime, atrR: real)
    requires p1 <= p2 && r1 <= r2 && LockTriggered(p1, r1)
    ensures LockTriggered(p2, r2)
    ensures ProfitLock(p1, r1, regime, atrR).floor.value <= ProfitLock(p2, r2, regime, atrR).floor.value
  {
    FractionInBand(p1, regime, atrR);
    FractionMonotone(p1, p2, regime, atrR);
    TimesMonotone(r1, r2, ProtectFraction(p1, regime, atrR), ProtectFraction(p2, regime, atrR));
  }

  // Whatever the regime and volatility do meanwhile, at most a tenth of the earlier best R is given up.
  lemma FloorAfterRegimeChange(p1: real, r1: real, regime1: Regime, atr1: real,
      p2: real, r2: real, regime2: Regime, atr2: real)
    requires p1 <= p2 && r1 <= r2 && LockTriggered(p1, r1)
    ensures LockTriggered(p2, r2)
    ensures var before, after := ProfitLock(p1, r1, regime1, atr1).floor, ProfitLock(p2, r2, regime2, atr2).floor;
      after.value >= before.value - Times(r1, 0.10)
  {
    FloorMonotone(p1, r1, p2, r2, regime2, atr2);
    FractionShift(p1, regime1, atr1, regime2, atr2);
    LessTenth(r1, ProtectFraction(p1, regime1, atr1), ProtectFraction(p1, regime2, atr2));
  }

  lemma LessTenth(r: real, f1: real, f2: real)
    requires r >= 0.0 && f1 - f2 <= 0.10
    ensures Times(r, f2) >= Times(r, f1) - Times(r, 0.10)
  {
    var d := 0.10 - (f1 - f2);
    TimesMinus(r, 0.10, f1 - f2);
    TimesMinus(r, f1, f2);
    assert Times(r, d) >= 0.0;
  }

  lemma TimesMinus(r: real, x: real, y: real)
    ensures Times(r, x - y) == Times(r, x) - Times(r, y)
  {
  }

  function Severity(r: Retracement): nat
  {
    match r case Normal => 0 case Elevated => 1 case Abnormal => 2 case ThesisInvalidating => 3
  }

  function Concern(w: Winner): nat
  {
    match w
    case StrongContinuation => 0
    case HealthyPullback => 1
    case Weakening => 2
    case Critical => 3
    case Invalidated => 4
    case UnknownWinner => 5
  }

  // A deeper giveback or one more opposing candle never makes the winner look better.
  lemma WinnerNeverImproves(opp1: nat, g1: real, opp2: nat, g2: real, allowance: real,
      regime: Regime, side: Side, trend: Trend, held: nat)
    requires opp1 <= opp2 && g1 <= g2
    ensures Severity(ClassifyRetracement(g1, allowance)) <= Severity(ClassifyRetracement(g2, allowance))
    ensures Concern(ClassifyWinner(opp1, ClassifyRetracement(g1, allowance), regime, side, trend, Some(held)))
         <= Concern(ClassifyWinner(opp2, ClassifyRetracement(g2, allowance), regime, side, trend, Some(held)))
  {
    if allowance > 0.0 { RatioMonotone(g1, g2, allowance); }
  }

  // A constructed stop is on the protective side, within the configured ATR multiples, clear of the spread; and the
  // SHORT stop is the LONG stop reflected in the entry price.
  lemma DynamicStopIsProtective(entry: real, structure: Option<real>,
      atr: Option<real>, spread: Option<real>, rules: StopRules)
    ensures var up, down := ConstructDynamicStop(Long, entry, structure, atr, spread, rules),
      ConstructDynamicStop(Short, entry, structure, atr, spread, rules);
      && (up.Some? <==> down.Some?)
      && (up.Some? ==>
            && down.value - entry == entry - up.value > 0.0
            && Times(atr.value, rules.minAtr) <= entry - up.value <= Times(atr.value, rules.maxAtr)
            && (spread.Some? ==> entry - up.value >= Times(spread.value, rules.minSpreadRatio)))
  {
    if atr.Some? && atr.value > 0.0 && 0.0 < rules.minAtr <= rules.maxAtr {
      TimesMonotone(atr.value, atr.value, rules.minAtr, rules.maxAtr);
    }
  }

  // ----- The rules in plain figures -----

  // Progress is the share of the way from entry to target that the price has come, on either side; there is none
  // without a target that is apart from the entry.
  lemma ProgressIsShare(side: Side, entry: real, price: real, tp: Option<real>)
    ensures var progress := TpProgress(side, entry, price, tp);
      && (progress.Some? <==>
            tp.Some? && (tp.value >= entry + 0.000000000001 || tp.value <= entry - 0.000000000001))
      && (progress.Some? ==> Times(progress.value, tp.value - entry) == price - entry)
  {
  }

  function Within(x: real, least: real, most: real): real { if x < least then least else if x > most then most else x }

  // The allowance when no bound interferes.
  function Share(atrR: real, regime: Regime, timeframe: Timeframe): real
  {
    Allowance(atrR, regime, timeframe, 0.0, 1.0)
  }

  // What each regime allows in calm markets.
  lemma RegimeShares()
    ensures Share(0.0, TrendingUp, M15) == Share(0.0, TrendingDown, M15) == 0.45
    ensures Share(0.0, BreakoutRegime, M15) == 0.40 && Share(0.0, HighVolatility, M15) == 0.35
    ensures Share(0.0, InsufficientData, M15) == 0.30
    ensures Share(0.0, Ranging, M15) == Share(0.0, Reversal, M15) == Share(0.0, UnstableTransition, M15) == 0.25
    ensures Share(0.0, LowVolatility, M15) == Share(0.0, EventDriven, M15) == 0.20
  {
  }

  // The longer the timeframe the more is allowed, by the same steps in every regime.
  lemma TimeframeSteps(regime: Regime)
    ensures Share(0.0, regime, M5) - Share(0.0, regime, M1) == 0.02
    ensures Share(0.0, regime, M15) - Share(0.0, regime, M5) == 0.03
    ensures Share(0.0, regime, M15) == Share(0.0, regime, M30) == Share(0.0, regime, OtherTimeframe)
    ensures Share(0.0, regime, H1) - Share(0.0, regime, M30) == 0.03
    ensures Share(0.0, regime, H4) - Share(0.0, regime, H1) == 0.03
    ensures Share(0.0, regime, D1) - Share(0.0, regime, H4) == 0.02
  {
  }

  // Volatility adds a twentieth per R of true range beyond the first, up to a tenth.
  lemma VolatilityAdds(atrR: real, regime: Regime, timeframe: Timeframe)
    ensures Share(atrR, regime, timeframe) - Share(0.0, regime, timeframe) ==
      if atrR <= 1.0 then 0.0 else if atrR >= 3.0 then 0.10 else (atrR - 1.0) / 20.0
  {
  }

  // Between its bounds the allowance is what adds up.
  lemma AllowanceIsClamped(atrR: real, regime: Regime, timeframe: Timeframe, least: real, most: real)
    requires 0.0 <= least <= most <= 1.0
    ensures Allowance(atrR, regime, timeframe, least, most) == Within(Share(atrR, regime, timeframe), least, most)
  {
  }

  // The protected fraction climbs from 0.50 at four fifths of the way to 0.70 at nine tenths, and from there to 0.85 at
  // the target; a trend takes 0.05 off and volatility puts 0.05 on, each within the band.
  lemma FractionClimbs(p: real, regime: Regime, atrR: real)
    requires p >= 0.80
    ensures var plain :=
        if p < 0.90 then 0.50 + 2.0 * (p - 0.80) else if p < 1.0 then 0.70 + 1.5 * (p - 0.90) else 0.85;
      var low, high := if p < 0.90 then 0.50 else 0.70, if p < 0.90 then 0.70 else 0.85;
      var trends := regime in {TrendingUp, TrendingDown, BreakoutRegime};
      var eased := if !trends then plain else if plain - 0.05 < low then low else plain - 0.05;
      ProtectFraction(p, regime, atrR) ==
      if atrR <= 1.5 then eased else if eased + 0.05 > high then high else eased + 0.05
  {
  }

  // The price gave back more than is allowed, and more than half as much again.
  predicate GaveBackMuch(giveback: real, allowance: real)
  {
    if allowance > 0.0 then giveback > allowance else giveback > 0.0
  }

  predicate GaveBackTooMuch(giveback: real, allowance: real)
  {
    allowance > 0.0 && giveback > allowance + allowance / 2.0
  }

  // The class of a winner by two kinds of evidence: candles against it, and what it gave back. Three candles or far too
  // much given back invalidate it; both two candles and too much make it critical; one of them alone weakens it.
  lemma WinnerMeans(opposing: nat, giveback: real, allowance: real,
      regime: Regime, side: Side, trend: Trend, held: nat)
    ensures var retraced := ClassifyRetracement(giveback, allowance);
      var w := ClassifyWinner(opposing, retraced, regime, side, trend, Some(held));
      var much := GaveBackMuch(giveback, allowance);
      var out := opposing > 2 || GaveBackTooMuch(giveback, allowance);
      var carried := if trend == Neutral then
          regime == BreakoutRegime || regime == (if side == Long then TrendingUp else TrendingDown)
        else
          regime in {TrendingUp, TrendingDown, BreakoutRegime} && trend == (if side == Long then Bullish else Bearish);
      && (w == Invalidated <==> out)
      && (w == Critical <==> !out && opposing == 2 && much)
      && (w == Weakening <==> !out && (opposing == 2 || much) && !(opposing == 2 && much))
      && (w == StrongContinuation <==> opposing < 2 && !much && carried)
      && (w == HealthyPullback <==> opposing < 2 && !much && !carried)
  {
    if allowance > 0.0 { ShareOf(giveback, allowance); }
  }

  lemma ShareOf(giveback: real, allowance: real)
    requires allowance > 0.0
    ensures giveback / allowance <= 0.6 <==> giveback <= 0.6 * allowance
    ensures giveback / allowance <= 1.0 <==> giveback <= allowance
    ensures giveback / allowance <= 1.5 <==> giveback <= allowance + allowance / 2.0
  {
    RatioAgainst(giveback, allowance, 0.6);
    RatioAgainst(giveback, allowance, 1.0);
    RatioAgainst(giveback, allowance, 1.5);
  }

  // Three fifths of the allowance are normal, and all of it elevated.
  lemma RetracementMeans(giveback: real, allowance: real)
    requires allowance > 0.0
    ensures var state := ClassifyRetracement(giveback, allowance);
      && (state == Normal <==> giveback <= 0.6 * allowance)
      && (state in {Normal, Elevated} <==> !GaveBackMuch(giveback, allowance))
      && (state == ThesisInvalidating <==> GaveBackTooMuch(giveback, allowance))
  {
    ShareOf(giveback, allowance);
  }

  // The distance a protective stop would like: behind structure with room for noise and spread, or so many ATRs.
  function WishedDistance(entry: real, structure: Option<real>, atr: real, spread: real, rules: StopRules): real
  {
    if structure == None then (if rules.minAtr < 1.0 then atr else Times(atr, rules.minAtr))
    else
      RMax(entry - structure.value, structure.value - entry)
      + (if spread <= 0.0 || 2.0 * spread <= 0.15 * atr then 0.15 * atr else 2.0 * spread)
  }

  lemma WishIsRaw(entry: real, structure: Option<real>, atr: real, spread: real, rules: StopRules)
    requires atr > 0.0
    ensures WishedDistance(entry, structure, atr, spread, rules) ==
      if structure.Some? then RAbs(entry - structure.value) + RMax(RMax(atr * 0.15, spread * 2.0), 0.0)
      else Times(atr, RMax(rules.minAtr, 1.0))
  {
    assert Times(atr, 1.0) == atr;
  }

  // A dynamic stop stands at the wished distance, or at the nearest of its two ATR bounds; there is none without a true
  // range, with senseless bounds, with structure at the entry itself, or too near for the spread.
  lemma DynamicStopStands(entry: real, structure: Option<real>, atr: real, spread: Option<real>, rules: StopRules)
    requires atr > 0.0 && 0.0 < rules.minAtr <= rules.maxAtr
    ensures var s := if spread.Some? then spread.value else 0.0;
      var distance := Within(WishedDistance(entry, structure, atr, s, rules),
        Times(atr, rules.minAtr), Times(atr, rules.maxAtr));
      ConstructDynamicStop(Long, entry, structure, Some(atr), spread, rules) ==
      if structure == Some(entry) || distance < Times(s, rules.minSpreadRatio) then None else Some(entry - distance)
  {
    var s := if spread.Some? then spread.value else 0.0;
    WishIsRaw(entry, structure, atr, s, rules);
    TimesMonotone(atr, atr, rules.minAtr, rules.maxAtr);
    assert Times(atr, rules.minAtr) > 0.0;
  }

  lemma NoDynamicStop(side: Side, entry: real, structure: Option<real>, atr: Option<real>,
      spread: Option<real>, rules: StopRules)
    requires atr == None || atr.value <= 0.0 || rules.minAtr <= 0.0 || rules.minAtr > rules.maxAtr
    ensures ConstructDynamicStop(side, entry, structure, atr, spread, rules) == None
  {
  }
}
