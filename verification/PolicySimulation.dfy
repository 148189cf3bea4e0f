/**
 The counterfactual policy simulator: exits stay on the reconstructed path, and which families are free of lookahead.
 */
module PolicySimulation {
  import opened Common
  import opened TradePath

  datatype Policy =
    | Static
    | PartialProfit(trigger: real, fraction: real)
    | Breakeven(trigger: real)
    | Trailing(trigger: real, trail: real)
    | MfeRetracement(minMfe: real, fraction: real)
    | ThesisInvalidation
    | TimeExit(maxCandles: nat, minimum: real)
    | ContextExit(multiple: real)
    | TpProgressPartial(progress1: real, progress2: real, fraction1: real, fraction2: real)
    | TpProgressFullProtect(trigger: real, floorFraction: real)
    | AtrStructureStop(multiple: real)

  // The exit row (None for an empty timeline), the R multiple realized, and whether the policy intervened.
  datatype Exit = Exit(row: Option<nat>, r: real, intervened: bool)

  function LastRow(t: seq<Row>): Option<nat> { if |t| == 0 then None else Some(|t| - 1) }

  function First(t: seq<Row>, p: Row -> bool): (k: Option<nat>)
    ensures k.Some? ==> k.value < |t| && p(t[k.value]) && forall j :: 0 <= j < k.value ==> !p(t[j])
    ensures k == None ==> forall j :: 0 <= j < |t| ==> !p(t[j])
  {
    if |t| == 0 then None
    else
      var k := First(t[..|t| - 1], p);
      if k.Some? then k else if p(t[|t| - 1]) then Some(|t| - 1) else None
  }

  predicate FallingTwice(t: seq<Row>, i: int)
    requires i < |t|
  {
    i >= 2 && t[i].r < t[i - 1].r < t[i - 2].r
  }

  function FirstOpposing(t: seq<Row>): (k: Option<nat>)
    ensures k.Some? ==> k.value < |t| && FallingTwice(t, k.value) && forall j :: 0 <= j < k.value ==>
      !FallingTwice(t, j)
    ensures k == None ==> forall j :: 0 <= j < |t| ==> !FallingTwice(t, j)
  {
    if |t| == 0 then None
    else
      var init := t[..|t| - 1];
      var k := FirstOpposing(init);
      assert forall j :: 0 <= j < |init| ==> FallingTwice(t, j) == FallingTwice(init, j);
      if k.Some? then k else if FallingTwice(t, |t| - 1) then Some(|t| - 1) else None
  }

  function Reaches(level: real): Row -> bool { (row: Row) => row.r >= level }

  function Retraced(trigger: real): Row -> bool { (row: Row) => row.mfe >= trigger && row.r <= 0.0 }

  function TrailedOut(trigger: real, trail: real): Row -> bool
  {
    (row: Row) => row.mfe >= trigger && row.mfe - row.r >= trail
  }

  function GaveBack(minMfe: real, fraction: real): Row -> bool
  {
    (row: Row) => row.mfe >= minMfe && row.r <= Times(row.mfe, 1.0 - fraction)
  }

  function FellBelow(after: int, floor: real): Row -> bool { (row: Row) => row.time > after && row.r < floor }

  // The given exit at a hit, the static exit otherwise.
  function AtHit(t: seq<Row>, hit: Option<nat>, r: real): Exit
  {
    if hit.Some? then Exit(hit, r, true) else Exit(LastRow(t), FinalR(t), false)
  }

  function RAtRow(t: seq<Row>, hit: Option<nat>): real
    requires hit.Some? ==> hit.value < |t|
  {
    if hit.Some? then t[hit.value].r else 0.0
  }

  function TimedOut(t: seq<Row>, maxCandles: nat, minimum: real): Option<nat>
  {
    if 1 <= maxCandles < |t| && First(t[..maxCandles], Reaches(minimum)) == None then Some(maxCandles - 1) else None
  }

  function SpreadFires(p: Path, multiple: real): bool
  {
    p.spreadAtEntry.Some? && p.spreadAtEntry.value != 0.0
    && (if p.maximumSpread.Some? then p.maximumSpread.value else 0.0) >= Times(p.spreadAtEntry.value, multiple)
  }

  function StagedR(p: Path, q: Policy, second: bool): real
    requires q.TpProgressPartial?
  {
    Times(Times(p.targetR, q.progress1), q.fraction1)
    + (if second then Times(Times(p.targetR, q.progress2), q.fraction2) else 0.0)
    + Times(FinalR(p.timeline), 1.0 - q.fraction1 - (if second then q.fraction2 else 0.0))
  }

  function StagedExit(p: Path, q: Policy): Exit
    requires q.TpProgressPartial?
  {
    var t := p.timeline;
    var hit1 := if p.targetR != 0.0 then First(t, Reaches(Times(p.targetR, q.progress1))) else None;
    var hit2 := if p.targetR != 0.0 then First(t, Reaches(Times(p.targetR, q.progress2))) else None;
    if hit1 == None then AtHit(t, None, 0.0) else AtHit(t, if hit2.Some? then hit2 else hit1, StagedR(p, q, hit2.Some?))
  }

  function ProtectedExit(p: Path, trigger: real, floorFraction: real): Exit
  {
    var t := p.timeline;
    var hit := if p.targetR != 0.0 then First(t, Reaches(Times(p.targetR, trigger))) else None;
    if hit == None then AtHit(t, None, 0.0)
    else
      var floor := Times(t[hit.value].r, floorFraction);
      AtHit(t, First(t, FellBelow(t[hit.value].time, floor)), floor)
  }

  function Simulate(p: Path, q: Policy): Exit
  {
    var t := p.timeline;
    match q
    case Static => AtHit(t, None, 0.0)
    case PartialProfit(trigger, fraction) => AtHit(t, First(t, Reaches(trigger)),
      Times(trigger, fraction) + Times(FinalR(t), 1.0 - fraction))
    case Breakeven(trigger) => AtHit(t, First(t, Retraced(trigger)), 0.0)
    case Trailing(trigger, trail) => var hit := First(t, TrailedOut(trigger, trail)); AtHit(t, hit, RAtRow(t, hit))
    case MfeRetracement(minMfe, fraction) => var hit := First(t, GaveBack(minMfe, fraction));
      AtHit(t, hit, RAtRow(t, hit))
    case ThesisInvalidation => var hit := FirstOpposing(t); AtHit(t, hit, RAtRow(t, hit))
    case TimeExit(maxCandles, minimum) => var hit := TimedOut(t, maxCandles, minimum); AtHit(t, hit, RAtRow(t, hit))
    case ContextExit(multiple) =>
      var hit := if SpreadFires(p, multiple) && |t| > 0 then Some(0) else None; AtHit(t, hit, RAtRow(t, hit))
    case TpProgressPartial(_, _, _, _) => StagedExit(p, q)
    case TpProgressFullProtect(trigger, floorFraction) => ProtectedExit(p, trigger, floorFraction)
    case AtrStructureStop(multiple) =>
      if multiple > 0.0 then Exit(LastRow(t), Ratio(FinalR(t), multiple), true) else AtHit(t, None, 0.0)
  }

  // ----- Which row a family leaves at -----

  // Row i meets the exit condition of a family that watches single rows (or three in a row).
  ghost predicate LeavesAt(q: Policy, t: seq<Row>, i: int)
    requires 0 <= i < |t|
  {
    match q
    case PartialProfit(trigger, _) => t[i].r >= trigger
    case Breakeven(trigger) => t[i].mfe >= trigger && t[i].r <= 0.0
    case Trailing(trigger, trail) => t[i].mfe >= trigger && t[i].r <= t[i].mfe - trail
    case MfeRetracement(minMfe, fraction) =>
      t[i].mfe >= minMfe && t[i].mfe - t[i].r >= Times(t[i].mfe, fraction)
    case ThesisInvalidation => i >= 2 && t[i - 2].r > t[i - 1].r && t[i - 1].r > t[i].r
    case _ => false
  }

  predicate WatchesRows(q: Policy)
  {
    q.PartialProfit? || q.Breakeven? || q.Trailing? || q.MfeRetracement? || q.ThesisInvalidation?
  }

  // Holding to the end.
  predicate Holds(e: Exit, t: seq<Row>)
  {
    !e.intervened && (if |t| == 0 then e == Exit(None, 0.0, false) else e == Exit(Some(|t| - 1), t[|t| - 1].r, false))
  }

  // i is the first row whose R has reached the level.
  ghost predicate FirstReached(t: seq<Row>, level: real, i: int)
  {
    0 <= i < |t| && t[i].r >= level && forall j :: 0 <= j < i ==> t[j].r < level
  }

  ghost predicate NeverReached(t: seq<Row>, level: real) { forall j :: 0 <= j < |t| ==> t[j].r < level }

  // A family that watches rows leaves at the first row that meets its condition and holds when none does. It realizes
  // the R of that row, but 0 for the break-even stop, and for the partial profit the trigger and the last R, each with
  // its share.
  lemma WatchedExit(p: Path, q: Policy)
    requires WatchesRows(q)
    ensures var e, t := Simulate(p, q), p.timeline;
      && (!e.intervened ==> Holds(e, t) && forall i :: 0 <= i < |t| ==> !LeavesAt(q, t, i))
      && (e.intervened ==>
            && e.row.Some? && e.row.value < |t| && LeavesAt(q, t, e.row.value)
            && (forall i :: 0 <= i < e.row.value ==> !LeavesAt(q, t, i))
            && e.r == (match q
                       case PartialProfit(trigger, fraction) =>
                         Times(trigger, fraction) + t[|t| - 1].r - Times(t[|t| - 1].r, fraction)
                       case Breakeven(_) => 0.0
                       case _ => t[e.row.value].r))
  {
    var t := p.timeline;
    match q
    case MfeRetracement(_, fraction) =>
      forall i | 0 <= i < |t| ensures Remainder(t[i].mfe, fraction) { Remains(t[i].mfe, fraction); }
    case PartialProfit(_, fraction) => Remains(FinalR(t), fraction);
    case ThesisInvalidation => assert forall i :: 0 <= i < |t| ==> (LeavesAt(q, t, i) <==> FallingTwice(t, i));
    case _ =>
  }

  predicate Remainder(x: real, fraction: real) { Times(x, 1.0 - fraction) == x - Times(x, fraction) }

  lemma Remains(x: real, fraction: real)
    ensures Remainder(x, fraction)
  {
  }

  // time_exit leaves at the last of its candles, if there are more and none of those reached the minimum.
  lemma TimeExitWhen(p: Path, q: Policy)
    requires q.TimeExit? && q.maxCandles >= 1
    ensures var e, t := Simulate(p, q), p.timeline;
      if |t| > q.maxCandles && (forall i :: 0 <= i < q.maxCandles ==> t[i].r < q.minimum)
      then e == Exit(Some(q.maxCandles - 1), t[q.maxCandles - 1].r, true) else Holds(e, t)
  {
    if |p.timeline| > q.maxCandles {
      assert forall i :: 0 <= i < q.maxCandles ==> p.timeline[..q.maxCandles][i] == p.timeline[i];
    }
  }

  // context_exit leaves at the very first row, if the largest spread is `multiple` times the one at entry.
  lemma ContextExitWhen(p: Path, multiple: real)
    ensures var e, t := Simulate(p, ContextExit(multiple)), p.timeline;
      var entry, most := if p.spreadAtEntry.Some? then p.spreadAtEntry.value else 0.0,
        if p.maximumSpread.Some? then p.maximumSpread.value else 0.0;
      if |t| > 0 && entry != 0.0 && most >= Times(entry, multiple) then e == Exit(Some(0), t[0].r, true)
        else Holds(e, t)
  {
  }

  // tp_progress_partial sells a share at each of its two levels as it is reached and the rest at the end; it counts as
  // leaving at the second level, or at the first when the second is never reached.
  lemma StagedExitWhen(p: Path, q: Policy)
    requires q.TpProgressPartial?
    ensures var e, t := Simulate(p, q), p.timeline;
      var level1, level2 := Times(p.targetR, q.progress1), Times(p.targetR, q.progress2);
      && (p.targetR == 0.0 || NeverReached(t, level1) ==> Holds(e, t))
      && (p.targetR != 0.0 && !NeverReached(t, level1) ==>
            && e.intervened && e.row.Some?
            && (if NeverReached(t, level2) then
                  FirstReached(t, level1, e.row.value)
                  && e.r == Times(level1, q.fraction1) + Times(t[|t| - 1].r, 1.0 - q.fraction1)
                else
                  FirstReached(t, level2, e.row.value)
                  && e.r == Times(level1, q.fraction1) + Times(level2, q.fraction2)
                    + Times(t[|t| - 1].r, 1.0 - q.fraction1 - q.fraction2)))
  {
  }

  // tp_progress_full_protect leaves where, after its trigger was first reached, R first falls below the share of the R
  // it was reached with, and realizes that share.
  lemma ProtectedExitWhen(p: Path, q: Policy, hit: nat)
    requires q.TpProgressFullProtect? && p.targetR != 0.0 && FirstReached(p.timeline, Times(p.targetR, q.trigger), hit)
    ensures var e, t := Simulate(p, q), p.timeline;
      var floor := Times(t[hit].r, q.floorFraction);
      && (!e.intervened ==> Holds(e, t) && forall i :: 0 <= i < |t| && t[i].time > t[hit].time ==> t[i].r >= floor)
      && (e.intervened ==>
            && e.r == floor && e.row.Some? && e.row.value < |t|
            && t[e.row.value].time > t[hit].time && t[e.row.value].r < floor
            && forall i :: 0 <= i < e.row.value && t[i].time > t[hit].time ==> t[i].r >= floor)
  {
    assert First(p.timeline, Reaches(Times(p.targetR, q.trigger))) == Some(hit);
  }

  // Without a target or without reaching the trigger it holds; so does the static policy; and the rescaled stop
  // multiplies back to the final R.
  lemma OtherwiseHolds(p: Path, q: Policy)
    ensures q.Static? ==> Holds(Simulate(p, q), p.timeline)
    ensures q.TpProgressFullProtect? && (p.targetR == 0.0 || NeverReached(p.timeline, Times(p.targetR, q.trigger))) ==>
      Holds(Simulate(p, q), p.timeline)
    ensures q.AtrStructureStop? && q.multiple <= 0.0 ==> Holds(Simulate(p, q), p.timeline)
    ensures q.AtrStructureStop? && q.multiple > 0.0 ==> Simulate(p, q).intervened
    ensures q.AtrStructureStop? && q.multiple > 0.0 && |p.timeline| > 0 ==>
      Times(Simulate(p, q).r, q.multiple) == p.timeline[|p.timeline| - 1].r
  {
    if q.AtrStructureStop? && q.multiple > 0.0 { RatioTimes(FinalR(p.timeline), q.multiple); }
  }

  // ----- Exits stay on the path -----

  predicate Fraction(f: real) { 0.0 <= f <= 1.0 }

  // The parameters a policy table can sensibly hold.
  predicate Admissible(q: Policy)
  {
    match q
    case PartialProfit(trigger, fraction) => trigger >= 0.0 && Fraction(fraction)
    case TpProgressPartial(progress1, progress2, fraction1, fraction2) =>
      progress1 >= 0.0 && progress2 >= 0.0 && fraction1 >= 0.0 && fraction2 >= 0.0 && fraction1 + fraction2 <= 1.0
    case TpProgressFullProtect(trigger, floorFraction) => trigger >= 0.0 && Fraction(floorFraction)
    case _ => true
  }

  lemma ShareBetween(x: real, fraction: real, lo: real, hi: real)
    requires lo <= x <= hi && fraction >= 0.0
    ensures Times(lo, fraction) <= Times(x, fraction) <= Times(hi, fraction)
  {
    assert (x - lo) * fraction >= 0.0 && (hi - x) * fraction >= 0.0;
  }

  lemma SharesAddUp(x: real, f1: real, f2: real, f3: real)
    requires f1 + f2 + f3 == 1.0
    ensures Times(x, f1) + Times(x, f2) + Times(x, f3) == x
  {
    assert x * f1 + x * f2 + x * f3 == x * (f1 + f2 + f3);
  }

  // A weighted mean of values in a range is in the range.
  lemma MixBetween(x: real, f1: real, y: real, f2: real, z: real, f3: real, lo: real, hi: real)
    requires lo <= x <= hi && lo <= y <= hi && lo <= z <= hi
    requires f1 >= 0.0 && f2 >= 0.0 && f3 >= 0.0 && f1 + f2 + f3 == 1.0
    ensures lo <= Times(x, f1) + Times(y, f2) + Times(z, f3) <= hi
  {
    ShareBetween(x, f1, lo, hi);
    ShareBetween(y, f2, lo, hi);
    ShareBetween(z, f3, lo, hi);
    SharesAddUp(lo, f1, f2, f3);
    SharesAddUp(hi, f1, f2, f3);
  }

  lemma ShareNonNegative(x: real, fraction: real)
    requires x >= 0.0 && fraction >= 0.0
    ensures Times(x, fraction) >= 0.0
  {
  }

  lemma StagedStaysOnPath(p: Path, q: Policy)
    requires OnPath(p) && q.TpProgressPartial? && Admissible(q)
    ensures p.mae <= StagedExit(p, q).r <= p.mfe
  {
    var t, final := p.timeline, FinalR(p.timeline);
    var level1, level2 := Times(p.targetR, q.progress1), Times(p.targetR, q.progress2);
    ShareNonNegative(p.targetR, q.progress1);
    ShareNonNegative(p.targetR, q.progress2);
    var hit1, hit2 := First(t, Reaches(level1)), First(t, Reaches(level2));
    if p.targetR != 0.0 && hit1.Some? {
      assert RowOnPath(t[hit1.value], p.mfe, p.mae);
      if hit2.Some? {
        assert RowOnPath(t[hit2.value], p.mfe, p.mae);
        MixBetween(level1, q.fraction1, level2, q.fraction2, final, 1.0 - q.fraction1 - q.fraction2, p.mae, p.mfe);
      } else {
        MixBetween(level1, q.fraction1, 0.0, 0.0, final, 1.0 - q.fraction1, p.mae, p.mfe);
      }
    }
  }

  lemma ProtectedStaysOnPath(p: Path, trigger: real, floorFraction: real)
    requires OnPath(p) && trigger >= 0.0 && Fraction(floorFraction)
    ensures p.mae <= ProtectedExit(p, trigger, floorFraction).r <= p.mfe
  {
    var hit := First(p.timeline, Reaches(Times(p.targetR, trigger)));
    ShareNonNegative(p.targetR, trigger);
    if p.targetR != 0.0 && hit.Some? {
      assert RowOnPath(p.timeline[hit.value], p.mfe, p.mae);
      TimesAtMost(p.timeline[hit.value].r, floorFraction);
    }
  }

  // Every family but the rescaling one realizes an R between the path's worst and best excursion.
  lemma ExitStaysOnPath(p: Path, q: Policy)
    requires OnPath(p) && Admissible(q) && !q.AtrStructureStop?
    ensures p.mae <= Simulate(p, q).r <= p.mfe
  {
    match q
    case PartialProfit(trigger, fraction) =>
      var hit := First(p.timeline, Reaches(trigger));
      if hit.Some? {
        assert RowOnPath(p.timeline[hit.value], p.mfe, p.mae);
        MixBetween(trigger, fraction, 0.0, 0.0, FinalR(p.timeline), 1.0 - fraction, p.mae, p.mfe);
      }
    case TpProgressPartial(_, _, _, _) => StagedStaysOnPath(p, q);
    case TpProgressFullProtect(trigger, floorFraction) => ProtectedStaysOnPath(p, trigger, floorFraction);
    case _ =>
  }

  function MfeCapture(p: Path, q: Policy): real
  {
    if p.mfe == 0.0 then 0.0 else Simulate(p, q).r / p.mfe
  }

  function GivebackAvoided(p: Path, q: Policy): real
  {
    RMax(0.0, p.retracement - RMax(0.0, p.mfe - Simulate(p, q).r))
  }

  // Hence a policy never captures more than the whole excursion, and the giveback it avoids is its R gain over holding.
  lemma CaptureAndGiveback(p: Path, q: Policy)
    requires OnPath(p) && Admissible(q) && !q.AtrStructureStop?
    ensures MfeCapture(p, q) <= 1.0
    ensures if p.mfe == 0.0 then MfeCapture(p, q) == 0.0 else Times(MfeCapture(p, q), p.mfe) == Simulate(p, q).r
    ensures GivebackAvoided(p, q) == RMax(0.0, Simulate(p, q).r - FinalR(p.timeline))
  {
    ExitStaysOnPath(p, q);
    if p.mfe != 0.0 {
      AtMostWhole(Simulate(p, q).r, p.mfe);
      RatioTimes(Simulate(p, q).r, p.mfe);
    }
  }

  lemma AtMostWhole(x: real, y: real)
    requires y > 0.0 && x <= y
    ensures x / y <= 1.0
  {
    var c := x / y;
    assert c * y == x;
    assert c > 1.0 ==> (c - 1.0) * y > 0.0;
  }

  // The excluded family divides the final R by its multiple: it stays on every path exactly when it does not enlarge
  // it.
  lemma RescaledExitStaysIffNotEnlarging(multiple: real)
    ensures (forall p: Path :: OnPath(p) ==> p.mae <= Simulate(p, AtrStructureStop(multiple)).r <= p.mfe) <==>
      multiple <= 0.0 || multiple >= 1.0
  {
    if multiple <= 0.0 || multiple >= 1.0 {
      forall p: Path | OnPath(p) ensures p.mae <= Simulate(p, AtrStructureStop(multiple)).r <= p.mfe {
        FinalOnPath(p);
        if multiple >= 1.0 { RatioShrinks(FinalR(p.timeline), multiple); }
      }
    } else {
      var p := Path([Row(0, 1.0, 1.0, 0.0, "")], 1.0, 0.0, 1.0, 0.0, None, None);
      RatioGrows(multiple);
      assert OnPath(p) && Simulate(p, AtrStructureStop(multiple)).r > p.mfe;
    }
  }

  lemma FinalOnPath(p: Path)
    requires OnPath(p)
    ensures p.mae <= FinalR(p.timeline) <= p.mfe
  {
    var t := p.timeline;
    if |t| > 0 { assert RowOnPath(t[|t| - 1], p.mfe, p.mae); }
  }

  lemma RatioShrinks(x: real, y: real)
    requires y >= 1.0
    ensures x >= 0.0 ==> 0.0 <= Ratio(x, y) <= x
    ensures x <= 0.0 ==> x <= Ratio(x, y) <= 0.0
  {
    var q := Ratio(x, y);
    assert q * y == x;
    assert q >= 0.0 ==> q * (y - 1.0) >= 0.0;
    assert q <= 0.0 ==> q * (y - 1.0) <= 0.0;
  }

  lemma RatioGrows(y: real)
    requires 0.0 < y < 1.0
    ensures Ratio(1.0, y) > 1.0
  {
    var q := Ratio(1.0, y);
    assert q * y == 1.0;
    assert q <= 1.0 ==> (1.0 - q) * y >= 0.0;
  }

  // ----- Lookahead -----

  predicate CausalFamily(q: Policy) { q.Breakeven? || q.Trailing? || q.MfeRetracement? || q.ThesisInvalidation? }

  lemma {:induction false} FirstIsStable(t1: seq<Row>, t2: seq<Row>, p: Row -> bool, i: nat)
    requires i < |t1| && i < |t2| && t1[..i + 1] == t2[..i + 1]
    requires First(t1, p) == Some(i)
    ensures First(t2, p) == Some(i)
  {
    forall j | 0 <= j <= i ensures t1[j] == t2[j] { assert t1[..i + 1][j] == t2[..i + 1][j]; }
  }

  lemma OpposingIsStable(t1: seq<Row>, t2: seq<Row>, i: nat)
    requires i < |t1| && i < |t2| && t1[..i + 1] == t2[..i + 1]
    requires FirstOpposing(t1) == Some(i)
    ensures FirstOpposing(t2) == Some(i)
  {
    forall j | 0 <= j <= i ensures t1[j] == t2[j] { assert t1[..i + 1][j] == t2[..i + 1][j]; }
    forall j | 0 <= j <= i ensures FallingTwice(t1, j) == FallingTwice(t2, j) {}
  }

  // If a causal family exits at row i, every timeline that agrees through row i gives the same exit and R.
  lemma CausalExit(p1: Path, p2: Path, q: Policy, i: nat)
    requires CausalFamily(q) && Simulate(p1, q).intervened && Simulate(p1, q).row == Some(i)
    requires i < |p2.timeline| && p1.timeline[..i + 1] == p2.timeline[..i + 1]
    ensures Simulate(p2, q) == Simulate(p1, q)
  {
    var t1, t2 := p1.timeline, p2.timeline;
    assert t1[..i + 1][i] == t2[..i + 1][i];
    match q
    case Breakeven(trigger) => FirstIsStable(t1, t2, Retraced(trigger), i);
    case Trailing(trigger, trail) => FirstIsStable(t1, t2, TrailedOut(trigger, trail), i);
    case MfeRetracement(minMfe, fraction) => FirstIsStable(t1, t2, GaveBack(minMfe, fraction), i);
    case ThesisInvalidation => OpposingIsStable(t1, t2, i);
  }

  ghost predicate TimesIncrease(t: seq<Row>) { forall i, j :: 0 <= i < j < |t| ==> t[i].time < t[j].time }

  // The full-protect family is causal too, as long as candle times increase and the target is the same.
  lemma CausalProtectedExit(p1: Path, p2: Path, q: Policy, i: nat)
    requires q.TpProgressFullProtect? && p1.targetR == p2.targetR && TimesIncrease(p1.timeline)
    requires TimesIncrease(p2.timeline)
    requires Simulate(p1, q).intervened && Simulate(p1, q).row == Some(i)
    requires i < |p2.timeline| && p1.timeline[..i + 1] == p2.timeline[..i + 1]
    ensures Simulate(p2, q) == Simulate(p1, q)
  {
    var t1, t2, reached := p1.timeline, p2.timeline, Reaches(Times(p1.targetR, q.trigger));
    var hit := First(t1, reached).value;
    assert t1[i].time > t1[hit].time;
    assert hit < i;
    assert t1[..hit + 1] == t1[..i + 1][..hit + 1] && t2[..hit + 1] == t2[..i + 1][..hit + 1];
    FirstIsStable(t1, t2, reached, hit);
    assert t1[hit] == t1[..i + 1][hit] && t2[hit] == t2[..i + 1][hit];
    FirstIsStable(t1, t2, FellBelow(t1[hit].time, Times(t1[hit].r, q.floorFraction)), i);
  }

  // time_exit decides one row after the row it exits at, yet its exit row and R are those of every timeline that agrees
  // through that row: a timeline that stops there exits at the same row anyway.
  lemma TimeExitRowIsCausal(p1: Path, p2: Path, q: Policy, i: nat)
    requires q.TimeExit? && Simulate(p1, q).intervened && Simulate(p1, q).row == Some(i)
    requires i < |p2.timeline| && p1.timeline[..i + 1] == p2.timeline[..i + 1]
    ensures Simulate(p2, q).row == Some(i) && Simulate(p2, q).r == Simulate(p1, q).r
    ensures Simulate(p2, q).intervened <==> |p2.timeline| > i + 1
  {
    assert p1.timeline[..i + 1][i] == p2.timeline[..i + 1][i];
  }

  // all continues short: the same target, and a timeline that starts with that of short.
  ghost predicate Continues(all: Path, short: Path)
  {
    && all.targetR == short.targetR && |short.timeline| <= |all.timeline|
    && all.timeline[..|short.timeline|] == short.timeline
  }

  // The path of all candles continues that of the candles seen so far.
  lemma ReplayContinues(c: TradeCase, candles: seq<Candle>, k: nat, detect: Detector)
    requires k <= |candles|
    ensures Continues(PathOf(c, candles, detect), PathOf(c, candles[..k], detect))
  {
    ReconstructionIsCausal(c, candles, k, detect);
  }

  lemma ExitContinues(short: Path, all: Path, q: Policy)
    requires CausalFamily(q) && Continues(all, short) && Simulate(short, q).intervened
    ensures Simulate(all, q) == Simulate(short, q)
  {
    var i := Simulate(short, q).row.value;
    assert short.timeline[..i + 1] == all.timeline[..i + 1];
    CausalExit(short, all, q, i);
  }

  // End to end: an exit taken on the candles seen so far is the exit taken on any continuation of them.
  lemma ReplayDecisionIsCausal(c: TradeCase, candles: seq<Candle>, k: nat, detect: Detector, q: Policy)
    requires k <= |candles| && CausalFamily(q)
    requires Simulate(PathOf(c, candles[..k], detect), q).intervened
    ensures Simulate(PathOf(c, candles, detect), q) == Simulate(PathOf(c, candles[..k], detect), q)
  {
    ReplayContinues(c, candles, k, detect);
    ExitContinues(PathOf(c, candles[..k], detect), PathOf(c, candles, detect), q);
  }

  // What two mixtures with the same early part have in common: they are equal exactly when nothing is left to the late
  // part or the late parts agree.
  lemma SameMixIff(early: real, x: real, y: real, left: real)
    ensures early + Times(x, left) == early + Times(y, left) <==> left == 0.0 || x == y
  {
    assert (x - y) * left == x * left - y * left;
  }

  // A hit in a prefix is the hit in every continuation.
  lemma FirstInPrefix(short: seq<Row>, all: seq<Row>, p: Row -> bool)
    requires |short| <= |all| && all[..|short|] == short && First(short, p).Some?
    ensures First(all, p) == First(short, p)
  {
    var i := First(short, p).value;
    assert short[..i + 1] == all[..i + 1];
    FirstIsStable(short, all, p, i);
  }

  // partial_profit takes part of its R from the last row. Its exit row is that of every continuation; its R is so
  // exactly when the whole position is closed at the trigger or the final R is the same.
  lemma PartialExitIsCausalIff(short: Path, all: Path, q: Policy)
    requires q.PartialProfit? && Continues(all, short) && Simulate(short, q).intervened
    ensures Simulate(all, q).intervened && Simulate(all, q).row == Simulate(short, q).row
    ensures Simulate(all, q).r == Simulate(short, q).r <==>
      q.fraction == 1.0 || FinalR(all.timeline) == FinalR(short.timeline)
  {
    FirstInPrefix(short.timeline, all.timeline, Reaches(q.trigger));
    SameMixIff(Times(q.trigger, q.fraction), FinalR(all.timeline), FinalR(short.timeline), 1.0 - q.fraction);
  }

  function SecondHit(p: Path, q: Policy): Option<nat>
    requires q.TpProgressPartial?
  {
    First(p.timeline, Reaches(Times(p.targetR, q.progress2)))
  }

  // tp_progress_partial moves its exit row when the second stage is reached later: the row is that of a continuation
  // exactly when the second stage was reached already or is not reached there, and then the R is exactly when nothing
  // is left to the last row or the final R is the same.
  lemma StagedExitIsCausalIff(short: Path, all: Path, q: Policy)
    requires q.TpProgressPartial? && Continues(all, short) && Simulate(short, q).intervened
    ensures Simulate(all, q).intervened
    ensures Simulate(all, q).row == Simulate(short, q).row <==> SecondHit(short, q).Some? || SecondHit(all, q) == None
    ensures var left := 1.0 - q.fraction1 - (if SecondHit(short, q).Some? then q.fraction2 else 0.0);
      Simulate(all, q).row == Simulate(short, q).row ==>
        (Simulate(all, q).r == Simulate(short, q).r <==> left == 0.0 || FinalR(all.timeline) == FinalR(short.timeline))
  {
    FirstInPrefix(short.timeline, all.timeline, Reaches(Times(short.targetR, q.progress1)));
    if SecondHit(short, q).Some? {
      FirstInPrefix(short.timeline, all.timeline, Reaches(Times(short.targetR, q.progress2)));
    }
    StagedMix(short, all, q, SecondHit(short, q).Some?);
  }

  lemma StagedMix(seen: Path, all: Path, q: Policy, second: bool)
    requires q.TpProgressPartial? && seen.targetR == all.targetR
    ensures var left := 1.0 - q.fraction1 - (if second then q.fraction2 else 0.0);
      StagedR(all, q, second) == StagedR(seen, q, second)
      <==> left == 0.0 || FinalR(all.timeline) == FinalR(seen.timeline)
  {
    var left := 1.0 - q.fraction1 - (if second then q.fraction2 else 0.0);
    SameMixIff(0.0, FinalR(all.timeline), FinalR(seen.timeline), left);
  }

  lemma {:induction false} SpreadsPrefix(ks: seq<Candle>, n: nat)
    requires n <= |ks|
    ensures Spreads(ks[..n]) <= Spreads(ks)
  {
    if n == |ks| {
      assert ks[..n] == ks;
    } else {
      var init := ks[..|ks| - 1];
      assert init[..n] == ks[..n];
      SpreadsPrefix(init, n);
    }
  }

  lemma {:induction false} LargestOfPrefix(s: seq<real>, t: seq<real>)
    requires 0 < |s| && s <= t
    ensures Largest(s) <= Largest(t)
  {
    if |s| == |t| {
      assert s == t;
    } else {
      LargestOfPrefix(s, t[..|t| - 1]);
    }
  }

  // context_exit reads the maximum spread of the whole path but exits at its first row. Once a spread has been quoted,
  // its decision on the candles seen so far is its decision on all of them exactly when it has fired already or the
  // spread never reaches the multiple later; having fired, it stays with its exit.
  lemma ContextExitIsCausalIffQuiet(c: TradeCase, candles: seq<Candle>, k: nat, detect: Detector, multiple: real)
    requires k <= |candles| && |Spreads(Ordered(c, candles[..k]))| > 0
    ensures var seen, all := Spreads(Ordered(c, candles[..k])), Spreads(Ordered(c, candles));
      var short := Simulate(PathOf(c, candles[..k], detect), ContextExit(multiple));
      var whole := Simulate(PathOf(c, candles, detect), ContextExit(multiple));
      var threshold := Times(seen[0], multiple);
      && |all| > 0 && (short.intervened ==> whole == short)
      && (short.intervened == whole.intervened <==> short.intervened || seen[0] == 0.0 || Largest(all) < threshold)
  {
    var ks, all := Ordered(c, candles[..k]), Ordered(c, candles);
    OrderedPrefix(c, candles, k);
    assert all[..|ks|] == ks && |ks| > 0;
    SpreadsPrefix(all, |ks|);
    TimelinePrefix(c, all, |ks|, detect);
    LargestOfPrefix(Spreads(ks), Spreads(all));
  }

  // Before any candle has quoted a spread the exit cannot fire, so it decides as it finally does exactly when the
  // candles still to come do not expand their own first spread to the multiple.
  lemma ContextExitBeforeQuotes(c: TradeCase, candles: seq<Candle>, k: nat, detect: Detector, multiple: real)
    requires k <= |candles| && |Ordered(c, candles[..k])| > 0 && |Spreads(Ordered(c, candles[..k]))| == 0
    requires (c.spreadAtEntry.Some? ==> c.spreadAtEntry.value >= 0.0) && multiple > 0.0
    ensures var all := Spreads(Ordered(c, candles));
      var short := Simulate(PathOf(c, candles[..k], detect), ContextExit(multiple));
      var whole := Simulate(PathOf(c, candles, detect), ContextExit(multiple));
      && !short.intervened
      && (!whole.intervened <==> |all| == 0 || all[0] == 0.0 || Largest(all) < Times(all[0], multiple))
  {
    OrderedPrefix(c, candles, k);
    assert |Ordered(c, candles)| > 0;
    if c.spreadAtEntry.Some? { PositiveShare(c.spreadAtEntry.value, multiple); }
  }

  lemma PositiveShare(x: real, multiple: real)
    requires x >= 0.0 && multiple > 0.0
    ensures x != 0.0 ==> Times(x, multiple) > 0.0
  {
  }

  // A concrete pair of histories that agree through the exit row and disagree on the exit.
  lemma ContextExitLooksAhead(c: TradeCase, detect: Detector)
    requires c.entryTime == 0 && c.exitTime == None
    ensures exists xs: seq<Candle>, ys: seq<Candle> ::
      && |xs| == 2 && |ys| == 2 && xs[0] == ys[0]
      && |PathOf(c, xs, detect).timeline| == |PathOf(c, ys, detect).timeline| == 2
      && PathOf(c, xs, detect).timeline[0] == PathOf(c, ys, detect).timeline[0]
      && Simulate(PathOf(c, xs, detect), ContextExit(2.5)).row == Some(0)
      && Simulate(PathOf(c, ys, detect), ContextExit(2.5)).row == Some(1)
  {
    var start := Candle(0, 1.0, 1.0, 1.0, 1.0, Some(1.0));
    var wide, calm := start.(time := 1, spread := Some(5.0)), start.(time := 1);
    TwoCandles(c, start, wide, detect);
    TwoCandles(c, start, calm, detect);
    assert Times(1.0, 2.5) == 2.5;
    var xs, ys := [start, wide], [start, calm];
    assert xs[0] == ys[0];
  }

  lemma TwoCandles(c: TradeCase, k0: Candle, k1: Candle, detect: Detector)
    requires InWindow(c, k0) && InWindow(c, k1) && k0.spread.Some? && k1.spread.Some?
    ensures var p := PathOf(c, [k0, k1], detect);
      && |p.timeline| == 2 && p.timeline[0] == TimelineOf(c, [k0], detect)[0]
      && p.spreadAtEntry == k0.spread && p.maximumSpread == Some(RMax(k0.spread.value, k1.spread.value))
  {
    var ks := [k0, k1];
    assert ks[..1] == [k0] && [k0][..0] == [];
    assert Ordered(c, [k0]) == [k0];
    assert Ordered(c, ks) == ks;
    assert Spreads([k0]) == [k0.spread.value];
    assert Spreads(ks) == [k0.spread.value, k1.spread.value];
    assert [k0.spread.value, k1.spread.value][..1] == [k0.spread.value];
    assert Largest([k0.spread.value]) == k0.spread.value;
    assert Largest([k0.spread.value, k1.spread.value]) == RMax(k0.spread.value, k1.spread.value);
  }
}
