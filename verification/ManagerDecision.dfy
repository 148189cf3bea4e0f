/**
 The manager's decision as a list of questions, most urgent first, asked of prices and volumes instead of R multiples;
 generating all candidates, sorting them and taking the first gives the same answer for every position and market.
 */
module ManagerDecision {
  import opened Common
  import opened TpProtection
  import TradePath
  import opened ManagerRules

  // ----- The questions -----

  predicate Protected(row: PositionRow)
  {
    row.currentSl.Some? && row.currentTp.Some? && row.currentSl.value != 0.0 && row.currentTp.value != 0.0
  }

  // How far the price has moved in favour of the position.
  function Gain(row: PositionRow, price: real): real
  {
    if row.side == Long then price - row.entry else row.entry - price
  }

  // The distance from entry to the stop: one R.
  function AtStake(row: PositionRow): (distance: real)
    requires Protected(row)
    ensures distance > 0.0
  {
    var sl := row.currentSl.value;
    if row.entry == sl then 0.00001 else RMax(row.entry - sl, sl - row.entry)
  }

  // A number of R in price units.
  function InPrice(r: real, row: PositionRow): real
    requires Protected(row)
  {
    Times(r, AtStake(row))
  }

  // The average true range as a share of the stake; 0 when there is no reading.
  function Noise(row: PositionRow, k: Market): real
    requires Protected(row)
  {
    if k.atr.Some? then Ratio(k.atr.value, AtStake(row)) else 0.0
  }

  // Since the last stop move; the stop may be moved again.
  predicate MayMove(row: PositionRow, k: Market, cfg: Config, now: int)
  {
    (row.lastManagementAt.Some? ==> now >= row.lastManagementAt.value + cfg.cooldown) && !k.economic.ManageExistingOnly?
  }

  predicate Tightens(row: PositionRow, stop: real)
    requires Protected(row)
  {
    if row.side == Long then row.currentSl.value < stop else stop < row.currentSl.value
  }

  predicate ThesisBroken(row: PositionRow, price: real, k: Market)
    requires Protected(row)
  {
    k.opposing > 1 && Gain(row, price) < InPrice(-0.25, row)
  }

  predicate EventAhead(row: PositionRow, price: real, k: Market)
    requires Protected(row)
  {
    k.eventRisk && Gain(row, price) > InPrice(0.2, row)
  }

  predicate SizeToCut(row: PositionRow, price: real, k: Market) { k.economic.ReduceSize? && Gain(row, price) > 0.0 }

  // The share of the position that an economic guard leaves open: one half unless it says otherwise.
  function KeptShare(e: Economic): real
    requires e.ReduceSize?
  {
    match e.multiplier case Some(m) => if m == 0.0 then 0.5 else m case None => 0.5
  }

  // Four fifths of the way to the target were reached in profit, and the price is back below the floor that gave.
  predicate FloorBroken(row: PositionRow, price: real, k: Market)
    requires Protected(row)
  {
    && row.maxTpProgress >= 0.8 && row.maxR > 0.0
    && Gain(row, price) <
      InPrice(Times(row.maxR, ProtectFraction(row.maxTpProgress, k.regime, Noise(row, k))), row)
  }

  function LockedShare(row: PositionRow): real
  {
    if row.winner == Invalidated || (row.winner == Critical && row.maxTpProgress >= 0.95) then 1.0
    else if row.winner == Critical then 0.7 else if row.winner == Weakening then 0.5
    else if row.winner == StrongContinuation then 0.3 else 0.4
  }

  // More of the best R was given back than the allowance of regime, timeframe and volatility.
  predicate GaveTooMuch(row: PositionRow, price: real, k: Market, cfg: Config)
    requires Protected(row)
  {
    var allowed := Times(Allowance(Noise(row, k), k.regime, cfg.timeframe, 0.15, 0.60), row.maxR);
    row.maxR >= cfg.mfeMinR && (allowed < 0.0 || Gain(row, price) < InPrice(row.maxR - allowed, row))
  }

  // The stage of partial protection the progress belongs to.
  function StageAt(progress: real): Option<Stage>
  {
    if progress >= 0.95 then Some(Runner) else if progress >= 0.85 then Some(Stage2)
    else if progress >= 0.6 then Some(Stage1) else None
  }

  predicate StageDue(row: PositionRow, done: set<Stage>)
  {
    StageAt(row.tpProgress).Some? && row.winner in {Weakening, Critical} && StageAt(row.tpProgress).value !in done
  }

  function StageShare(stage: Stage, cfg: Config): real
  {
    if stage == Runner then cfg.runnerFraction else if stage == Stage2 then cfg.stage2Fraction else cfg.stage1Fraction
  }

  // The stop behind recent structure, when there is one.
  function StructureStop(row: PositionRow, price: real, k: Market, cfg: Config): Option<real>
  {
    ConstructDynamicStop(row.side, price, k.structure, k.atr, k.spread, cfg.stops)
  }

  predicate StructureDue(row: PositionRow, price: real, k: Market, cfg: Config, now: int)
    requires Protected(row)
  {
    var stop := StructureStop(row, price, k, cfg);
    && row.tpProgress >= 0.75 && row.winner in {StrongContinuation, HealthyPullback} && MayMove(row, k, cfg, now)
    && stop.Some? && stop.value != 0.0 && Tightens(row, stop.value)
  }

  // The entry price adjusted by the costs, or a tenth of the ATR behind structure where that protects more (or where
  // the adjusted price is exactly 0, which counts as no stop).
  function EvenStop(row: PositionRow, k: Market, cfg: Config): real
  {
    var cost := Times(cfg.costBuffer, Point(row.symbol));
    var even := if row.side == Long then row.entry + cost else row.entry - cost;
    if k.structure == None || k.atr == None || k.atr.value == 0.0 then even
    else
      var tenth := 0.1 * k.atr.value;
      var behind := if row.side == Long then k.structure.value - tenth else k.structure.value + tenth;
      if even == 0.0 then behind else if row.side == Long then RMax(even, behind) else RMin(even, behind)
  }

  predicate EvenDue(row: PositionRow, price: real, k: Market, cfg: Config, now: int)
    requires Protected(row)
  {
    && Gain(row, price) >= InPrice(cfg.breakevenR, row) && row.tpProgress >= cfg.breakevenMinProgress
    && k.opposing <= 1 && row.winner != Invalidated && Noise(row, k) < cfg.breakevenMaxAtrR
    && MayMove(row, k, cfg, now) && Tightens(row, EvenStop(row, k, cfg))
  }

  // The price less the allowed share of the stake.
  function TrailingStop(row: PositionRow, price: real, k: Market, cfg: Config): real
    requires Protected(row)
  {
    var behind := Times(AtStake(row), Allowance(Noise(row, k), k.regime, cfg.timeframe, 0.2, 0.5));
    if row.side == Long then price - behind else price + behind
  }

  predicate TrailDue(row: PositionRow, price: real, k: Market, cfg: Config, now: int)
    requires Protected(row)
  {
    var stop := TrailingStop(row, price, k, cfg);
    && row.currentSl.value != row.entry && Gain(row, price) >= InPrice(cfg.trailR, row)
    && MayMove(row, k, cfg, now) && stop != 0.0 && Tightens(row, stop)
  }

  predicate TimeOver(row: PositionRow, k: Market, cfg: Config)
  {
    row.maxR < 0.25 && (cfg.timeExitCandles == 0 || (row.openedAt.Some? && k.held >= cfg.timeExitCandles))
  }

  // ----- The verdict -----

  function Sell(action: ActionType, priority: int, row: PositionRow, share: real): Candidate
  {
    Candidate(action, priority, Some(Times(row.currentVolume, share)), None, None, None)
  }

  function SellAll(action: ActionType, priority: int, row: PositionRow): Candidate
  {
    Candidate(action, priority, Some(row.currentVolume), None, None, None)
  }

  function Protect(action: ActionType, priority: int, row: PositionRow, stop: real): Candidate
  {
    Candidate(action, priority, None, Some(stop), row.currentTp, None)
  }

  // Only a position with both protections is managed.
  function Verdict(row: PositionRow, price: real, k: Market, cfg: Config, done: set<Stage>, now: int): Candidate
  {
    if !Protected(row) then Candidate(Hold, 1, None, None, None, None)
    else if ThesisBroken(row, price, k) then SellAll(ThesisInvalidationClose, 10, row)
    else if EventAhead(row, price, k) then Sell(EventRiskReduction, 20, row, 0.25)
    else if SizeToCut(row, price, k) then Sell(EconomicReduceSize, 21, row, 1.0 - KeptShare(k.economic))
    else if FloorBroken(row, price, k) then Sell(TpProgressProfitLock, 25, row, LockedShare(row))
    else if GaveTooMuch(row, price, k, cfg) then SellAll(MfeProtectionClose, 30, row)
    else if StageDue(row, done) then
      var stage := StageAt(row.tpProgress).value;
      Sell(TpProgressPartialProtect, 35, row, StageShare(stage, cfg)).(stage := Some(stage))
    else CalmVerdict(row, price, k, cfg, now)
  }

  // When nothing presses.
  function CalmVerdict(row: PositionRow, price: real, k: Market, cfg: Config, now: int): Candidate
    requires Protected(row)
  {
    if Gain(row, price) >= InPrice(cfg.partialR, row) then Sell(PartialProfit, 40, row, cfg.partialFraction)
    else if StructureDue(row, price, k, cfg, now)
      then Protect(TpProgressStructureStop, 45, row, StructureStop(row, price, k, cfg).value)
    else if EvenDue(row, price, k, cfg, now) then Protect(MoveSlBreakeven, 50, row, EvenStop(row, k, cfg))
    else if TrailDue(row, price, k, cfg, now) then Protect(TrailStop, 60, row, TrailingStop(row, price, k, cfg))
    else if TimeOver(row, k, cfg) then SellAll(TimeExit, 70, row)
    else if k.economic.ManageExistingOnly? then Candidate(EconomicManageExistingOnly, 95, None, None, None, None)
    else Candidate(Hold, 100, None, None, None, None)
  }

  // ----- Every rule answers its question -----

  lemma StakeIsRisk(row: PositionRow)
    requires Protected(row)
    ensures AtStake(row) == RiskNow(row)
  {
  }

  // Comparing R with a threshold is comparing the gain with that many stakes.
  lemma InStakes(row: PositionRow, price: real, k: Market, cfg: Config, now: int, x: real)
    requires Protected(row)
    ensures var s := SituationOf(row, price, k, cfg, now);
      (s.r < x <==> Gain(row, price) < InPrice(x, row)) && (s.r > x <==> Gain(row, price) > InPrice(x, row))
  {
    StakeIsRisk(row);
    RatioAgainst(Gain(row, price), AtStake(row), x);
  }

  lemma SituationReads(row: PositionRow, price: real, k: Market, cfg: Config, now: int)
    requires Protected(row)
    ensures var s := SituationOf(row, price, k, cfg, now);
      && s.atrR == Noise(row, k) && (MayMove(row, k, cfg, now) <==> s.cooldownOk && !s.manageOnly)
      && (s.r > 0.0 <==> Gain(row, price) > 0.0) && (s.manageOnly <==> k.economic.ManageExistingOnly?)
  {
    StakeIsRisk(row);
    InStakes(row, price, k, cfg, now, 0.0);
    if k.atr == Some(0.0) { RatioTimes(0.0, AtStake(row)); NoShare(AtStake(row)); }
  }

  lemma NoShare(stake: real)
    requires stake > 0.0
    ensures Ratio(0.0, stake) == 0.0
  {
  }

  // The candidate of a rule is the verdict on its question.
  predicate Answers(rule: Option<Candidate>, asked: bool, verdict: Candidate)
  {
    rule == if asked then Some(verdict) else None
  }

  lemma UrgentRules(row: PositionRow, price: real, k: Market, cfg: Config, now: int)
    requires Protected(row)
    ensures var s := SituationOf(row, price, k, cfg, now);
      && Answers(InvalidationRule(row, s, k), ThesisBroken(row, price, k), SellAll(ThesisInvalidationClose, 10, row))
      && Answers(EventRule(row, s, k), EventAhead(row, price, k), Sell(EventRiskReduction, 20, row, 0.25))
      && (k.economic.ReduceSize? ==>
            Answers(ReduceRule(row, s, k), SizeToCut(row, price, k),
              Sell(EconomicReduceSize, 21, row, 1.0 - KeptShare(k.economic))))
      && (!k.economic.ReduceSize? ==> ReduceRule(row, s, k) == None)
  {
    InStakes(row, price, k, cfg, now, -0.25);
    InStakes(row, price, k, cfg, now, 0.2);
    SituationReads(row, price, k, cfg, now);
  }

  lemma LockAnswers(row: PositionRow, price: real, k: Market, cfg: Config, now: int)
    requires Protected(row)
    ensures Answers(LockRule(row, SituationOf(row, price, k, cfg, now), k), FloorBroken(row, price, k),
      Sell(TpProgressProfitLock, 25, row, LockedShare(row)))
  {
    SituationReads(row, price, k, cfg, now);
    InStakes(row, price, k, cfg, now,
      Times(row.maxR, ProtectFraction(row.maxTpProgress, k.regime, Noise(row, k))));
  }

  lemma GivebackAnswers(row: PositionRow, price: real, k: Market, cfg: Config, now: int)
    requires Protected(row)
    ensures Answers(GivebackRule(row, SituationOf(row, price, k, cfg, now), k, cfg), GaveTooMuch(row, price, k, cfg),
      SellAll(MfeProtectionClose, 30, row))
  {
    SituationReads(row, price, k, cfg, now);
    var allowed := Times(Allowance(Noise(row, k), k.regime, cfg.timeframe, 0.15, 0.60), row.maxR);
    InStakes(row, price, k, cfg, now, row.maxR - allowed);
  }

  lemma StageAnswers(row: PositionRow, cfg: Config, done: set<Stage>)
    ensures !StageDue(row, done) ==> StageRule(row, cfg, done) == None
    ensures StageDue(row, done) ==>
      var stage := StageAt(row.tpProgress).value;
      StageRule(row, cfg, done) ==
      Some(Sell(TpProgressPartialProtect, 35, row, StageShare(stage, cfg)).(stage := Some(stage)))
  {
  }

  lemma CalmRules(row: PositionRow, price: real, k: Market, cfg: Config, now: int)
    requires Protected(row)
    ensures var s := SituationOf(row, price, k, cfg, now);
      && Answers(PartialRule(row, s, cfg), Gain(row, price) >= InPrice(cfg.partialR, row),
        Sell(PartialProfit, 40, row, cfg.partialFraction))
      && (StructureDue(row, price, k, cfg, now) ==>
            StructureRule(row, price, s, k, cfg) ==
            Some(Protect(TpProgressStructureStop, 45, row, StructureStop(row, price, k, cfg).value)))
      && (!StructureDue(row, price, k, cfg, now) ==> StructureRule(row, price, s, k, cfg) == None)
      && Answers(TimeRule(row, k, cfg), TimeOver(row, k, cfg), SellAll(TimeExit, 70, row))
      && Answers(ManageOnlyRule(s), k.economic.ManageExistingOnly?,
        Candidate(EconomicManageExistingOnly, 95, None, None, None, None))
  {
    SituationReads(row, price, k, cfg, now);
    InStakes(row, price, k, cfg, now, cfg.partialR);
  }

  lemma EvenAnswers(row: PositionRow, price: real, k: Market, cfg: Config, now: int)
    requires Protected(row)
    ensures Answers(BreakevenRule(row, SituationOf(row, price, k, cfg, now), k, cfg),
      EvenDue(row, price, k, cfg, now), Protect(MoveSlBreakeven, 50, row, EvenStop(row, k, cfg)))
  {
    SituationReads(row, price, k, cfg, now);
    InStakes(row, price, k, cfg, now, cfg.breakevenR);
    assert EvenStop(row, k, cfg) == StructurePreferred(row.side, BreakevenPrice(row, cfg), k.structure, k.atr);
  }

  lemma TrailPriceIs(row: PositionRow, price: real, k: Market, cfg: Config)
    requires Protected(row)
    ensures TrailPrice(row, price, Allowance(Noise(row, k), k.regime, cfg.timeframe, 0.2, 0.5)) ==
      if row.currentSl.value == row.entry then None else Some(TrailingStop(row, price, k, cfg))
  {
  }

  lemma TrailAnswers(row: PositionRow, price: real, k: Market, cfg: Config, now: int)
    requires Protected(row)
    ensures Answers(TrailRule(row, price, SituationOf(row, price, k, cfg, now), k, cfg),
      TrailDue(row, price, k, cfg, now), Protect(TrailStop, 60, row, TrailingStop(row, price, k, cfg)))
  {
    SituationReads(row, price, k, cfg, now);
    InStakes(row, price, k, cfg, now, cfg.trailR);
    TrailPriceIs(row, price, k, cfg);
    assert SituationOf(row, price, k, cfg, now).atrR == Noise(row, k);
  }

  // ----- Sorting the candidates gives the verdict -----

  // The numbers of the rules, most urgent first.
  const ORDER := [0, 1, 2, 4, 5, 6, 7, 8, 9, 10, 11, 3]

  // The first candidate in that order.
  function FirstOf(rules: seq<Option<Candidate>>, n: nat): Candidate
    requires |rules| == |ORDER| && n <= |ORDER|
    decreases |ORDER| - n
  {
    if n == |ORDER| then HOLD else if rules[ORDER[n]].Some? then rules[ORDER[n]].value else FirstOf(rules, n + 1)
  }

  lemma FirstIsMostUrgent(rules: seq<Option<Candidate>>, n: nat)
    requires |rules| == |URGENCY| && n < |ORDER| && rules[ORDER[n]].Some?
    requires forall m :: 0 <= m < n ==> rules[ORDER[m]] == None
    ensures MostUrgent(rules, ORDER[n])
  {
    forall j | 0 <= j < |rules| && URGENCY[j] < URGENCY[ORDER[n]] ensures rules[j] == None {
      assert ORDER[if j < 3 then j else if j == 3 then 11 else j - 1] == j;
    }
  }

  lemma {:induction false} FirstIsSelected(row: PositionRow, rules: seq<Option<Candidate>>, n: nat)
    requires Prioritized(rules) && Protected(row) && n <= |ORDER|
    requires forall m :: 0 <= m < n ==> rules[ORDER[m]] == None
    ensures Select(Considered(row, rules)) == FirstOf(rules, n)
    decreases |ORDER| - n
  {
    if n == |ORDER| {
      forall j | 0 <= j < |rules| ensures rules[j] == None {
        assert ORDER[if j < 3 then j else if j == 3 then 11 else j - 1] == j;
      }
      DecisionList(row, rules);
    } else if rules[ORDER[n]].Some? {
      FirstIsMostUrgent(rules, n);
      SelectMostUrgent(row, rules, ORDER[n]);
    } else {
      FirstIsSelected(row, rules, n + 1);
    }
  }

  lemma FirstIsVerdict(row: PositionRow, price: real, k: Market, cfg: Config, done: set<Stage>, now: int)
    requires Protected(row)
    ensures FirstOf(Rules(row, price, k, cfg, done, now), 0) == Verdict(row, price, k, cfg, done, now)
  {
    var rules := Rules(row, price, k, cfg, done, now);
    UrgentRules(row, price, k, cfg, now);
    LockAnswers(row, price, k, cfg, now);
    GivebackAnswers(row, price, k, cfg, now);
    StageAnswers(row, cfg, done);
    assert FirstOf(rules, 0) ==
      if rules[0].Some? then rules[0].value else if rules[1].Some? then rules[1].value
      else if rules[2].Some? then rules[2].value else if rules[4].Some? then rules[4].value
      else if rules[5].Some? then rules[5].value else if rules[6].Some? then rules[6].value else FirstOf(rules, 6);
    CalmFirst(row, price, k, cfg, done, now);
  }

  lemma CalmFirst(row: PositionRow, price: real, k: Market, cfg: Config, done: set<Stage>, now: int)
    requires Protected(row)
    ensures FirstOf(Rules(row, price, k, cfg, done, now), 6) == CalmVerdict(row, price, k, cfg, now)
  {
    var rules := Rules(row, price, k, cfg, done, now);
    CalmRules(row, price, k, cfg, now);
    EvenAnswers(row, price, k, cfg, now);
    TrailAnswers(row, price, k, cfg, now);
    assert FirstOf(rules, 6) ==
      if rules[7].Some? then rules[7].value else if rules[8].Some? then rules[8].value
      else if rules[9].Some? then rules[9].value else if rules[10].Some? then rules[10].value
      else if rules[11].Some? then rules[11].value else if rules[3].Some? then rules[3].value else HOLD;
  }

  // For every position, market, configuration and history of stages.
  lemma ManagerDecides(row: PositionRow, price: real, k: Market, cfg: Config, done: set<Stage>, now: int)
    ensures Select(Evaluate(row, price, k, cfg, done, now)) == Verdict(row, price, k, cfg, done, now)
  {
    if Protected(row) {
      RulesArePrioritized(row, price, k, cfg, done, now);
      FirstIsSelected(row, Rules(row, price, k, cfg, done, now), 0);
      FirstIsVerdict(row, price, k, cfg, done, now);
    }
  }

  // ----- What a worse winner costs -----

  // Nothing more urgent than the profit lock applies.
  predicate Unpressed(row: PositionRow, price: real, k: Market)
    requires Protected(row)
  {
    !ThesisBroken(row, price, k) && !EventAhead(row, price, k) && !SizeToCut(row, price, k)
  }

  // The gain is below the floor that regime and volatility resolve to.
  predicate BelowFloor(row: PositionRow, price: real, k: Market)
    requires Protected(row)
  {
    var floor := ProfitLock(row.maxTpProgress, row.maxR, k.regime, Noise(row, k)).floor;
    floor.Some? && Gain(row, price) < InPrice(floor.value, row)
  }

  lemma FloorDecides(row: PositionRow, price: real, k: Market, cfg: Config, done: set<Stage>, now: int)
    requires Protected(row) && Unpressed(row, price, k) && BelowFloor(row, price, k)
    ensures Select(Evaluate(row, price, k, cfg, done, now)) == Sell(TpProgressProfitLock, 25, row, LockedShare(row))
  {
    ManagerDecides(row, price, k, cfg, done, now);
  }

  lemma WorseSellsMore(row: PositionRow, worse: Winner)
    requires row.currentVolume >= 0.0 && row.winner != UnknownWinner && worse != UnknownWinner
    requires Concern(row.winner) <= Concern(worse)
    ensures var share, more := LockedShare(row), LockedShare(row.(winner := worse));
      && 0.0 <= Times(row.currentVolume, share) <= Times(row.currentVolume, more) <= row.currentVolume
      && (worse == Invalidated ==> Times(row.currentVolume, more) == row.currentVolume)
  {
    var share, more := LockedShare(row), LockedShare(row.(winner := worse));
    ScaleLe(0.0, share, row.currentVolume);
    ScaleLe(share, more, row.currentVolume);
    TimesAtMost(row.currentVolume, more);
  }

  // Below its floor, with nothing more urgent, a position sells; an invalidated winner sells all of it, and of two
  // winners at the same floor the worse one never sells less.
  lemma BrokenFloorSells(row: PositionRow, worse: Winner, price: real, k: Market, cfg: Config,
      done: set<Stage>, now: int)
    requires Protected(row) && Unpressed(row, price, k) && BelowFloor(row, price, k) && row.currentVolume >= 0.0
    requires row.winner != UnknownWinner && worse != UnknownWinner && Concern(row.winner) <= Concern(worse)
    ensures var c := Select(Evaluate(row, price, k, cfg, done, now));
      var d := Select(Evaluate(row.(winner := worse), price, k, cfg, done, now));
      && c.action == d.action == TpProgressProfitLock && c.volume.Some? && d.volume.Some?
      && 0.0 <= c.volume.value <= d.volume.value <= row.currentVolume
      && (worse == Invalidated ==> d.volume.value == row.currentVolume)
  {
    FloorDecides(row, price, k, cfg, done, now);
    FloorDecides(row.(winner := worse), price, k, cfg, done, now);
    WorseSellsMore(row, worse);
  }

  // ----- The row that is decided on -----

  // What the broker reports goes into the row as it is, what came first is kept, and the rest is one figure, the R
  // reached now: it extends the best and the worst, and its distance from the best is what was given back.
  lemma SyncSays(stored: Option<PositionRow>, p: Position, k: Market, cfg: Config, allowed: bool, adopted: bool)
      returns (r: real, stake: real)
    requires Sync(stored, p, k, cfg, allowed, adopted).Some?
    ensures var s := Sync(stored, p, k, cfg, allowed, adopted).value;
      var before := if stored.Some? then stored.value else Fresh(p);
      && s.symbol == p.symbol && s.side == p.side && s.currentVolume == p.volume && s.openedAt == p.openedAt
      && s.currentSl == p.sl && s.currentTp == p.tp && s.lastManagementAt == before.lastManagementAt
      && s.entry == (if p.priceOpen == 0.0 then p.priceCurrent else p.priceOpen)
      && s.originalVolume == (if before.originalVolume == 0.0 then p.volume else before.originalVolume)
      && s.originalSl == (if before.originalSl == None then p.sl else before.originalSl)
      && s.originalTp == (if before.originalTp == None then p.tp else before.originalTp)
      && s.adopted == (before.adopted || adopted) && s.managed == (allowed || s.adopted)
      && stake > 0.0
      && (p.sl.Some? && p.sl.value != 0.0 ==> stake == RMax(s.entry - p.sl.value, p.sl.value - s.entry))
      && (p.sl == None || p.sl.value == 0.0 ==> stake == 0.00001)
      && Times(r, stake) == Gain(s, if p.priceCurrent == 0.0 then p.priceOpen else p.priceCurrent)
      && s.maxR == (if r > before.maxR then r else before.maxR)
      && s.minR == (if r < before.minR then r else before.minR)
      && s.giveback == s.maxR - r
  {
    stake := SyncRisk(p);
    r := TradePath.SignedR(p.side, EntryOf(p), PriceOf(p), stake);
    RatioTimes(if p.side == Long then PriceOf(p) - EntryOf(p) else EntryOf(p) - PriceOf(p), stake);
  }

  // A position seen for the first time starts its extremes at 0, its originals at what is reported, and with nothing
  // on record.
  lemma FirstSync(p: Position, k: Market, cfg: Config, allowed: bool, adopted: bool) returns (r: real, stake: real)
    requires Sync(None, p, k, cfg, allowed, adopted).Some?
    ensures var s := Sync(None, p, k, cfg, allowed, adopted).value;
      && stake > 0.0 && Times(r, stake) == Gain(s, if p.priceCurrent == 0.0 then p.priceOpen else p.priceCurrent)
      && s.maxR == RMax(0.0, r) && s.minR == RMin(0.0, r) && s.giveback == RMax(0.0, -r)
      && s.originalVolume == p.volume && s.originalSl == p.sl && s.originalTp == p.tp
      && s.lastManagementAt == None && s.adopted == adopted && s.managed == (allowed || adopted)
      && s.maxTpProgress >= 0.0 && s.maxTpProgress in {0.0, s.tpProgress}
      && (p.tp == None ==> s.tpProgress == 0.0 && s.floor == None)
  {
    r, stake := SyncSays(None, p, k, cfg, allowed, adopted);
  }

  // The judgements in the row are those of the figures beside them.
  lemma SyncJudges(stored: Option<PositionRow>, p: Position, k: Market, cfg: Config, allowed: bool, adopted: bool,
      stake: real)
    requires Sync(stored, p, k, cfg, allowed, adopted).Some? && stake == SyncRisk(p)
    ensures var s := Sync(stored, p, k, cfg, allowed, adopted).value;
      var before := if stored.Some? then stored.value else Fresh(p);
      var price := if p.priceCurrent == 0.0 then p.priceOpen else p.priceCurrent;
      var progress := TpProgress(s.side, s.entry, price, s.currentTp);
      var noise := if k.atr.Some? then Ratio(k.atr.value, stake) else 0.0;
      var allowance := Times(Allowance(noise, k.regime, cfg.timeframe, 0.15, 0.60), s.maxR);
      && s.tpProgress == (if progress == None then before.tpProgress else progress.value)
      && s.maxTpProgress ==
        (if progress == None then before.maxTpProgress else RMax(before.maxTpProgress, progress.value))
      && s.floor == ProfitLock(s.maxTpProgress, s.maxR, k.regime, noise).floor
      && (p.openedAt == None || !k.haveCandles ==> s.winner == UnknownWinner)
      && (p.openedAt.Some? && k.haveCandles ==>
            s.winner == ClassifyWinner(k.opposing, ClassifyRetracement(s.giveback, allowance), k.regime, s.side,
              Neutral, Some(k.held)))
  {
    if k.atr == Some(0.0) { NoShare(stake); }
  }
}
