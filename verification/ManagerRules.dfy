/**
 The adaptive manager's decisions for one position: state sync, candidate actions, selection, and the broker request.
 */
module ManagerRules {
  import opened Common
  import opened TpProtection
  import TradePath

  type Pid = nat

  // What the broker reports for an open position; a price of 0 stands for a missing one.
  datatype Position = Position(
    symbol: string, side: Side, volume: real, priceOpen: real, priceCurrent: real, sl: Option<real>,
    tp: Option<real>, openedAt: Option<int>)

  datatype PositionRow = PositionRow(
    symbol: string, side: Side, originalVolume: real, currentVolume: real, entry: real,
    originalSl: Option<real>, currentSl: Option<real>, originalTp: Option<real>, currentTp: Option<real>,
    maxR: real, minR: real, tpProgress: real, maxTpProgress: real, giveback: real, winner: Winner,
    floor: Option<real>, adopted: bool, managed: bool, openedAt: Option<int>, lastManagementAt: Option<int>)

  datatype Economic = Allow | ReduceSize(multiplier: Option<real>) | ManageExistingOnly

  // Readings of market and context services for one visit; their values are arbitrary.
  datatype Market = Market(
    regime: Regime, atr: Option<real>, opposing: nat, haveCandles: bool, held: nat, structure: Option<real>,
    spread: Option<real>, eventRisk: bool, economic: Economic)

  datatype Config = Config(
    timeframe: Timeframe, breakevenR: real, breakevenMinProgress: real, breakevenMaxAtrR: real, trailR: real,
    partialR: real, partialFraction: real, mfeMinR: real, stage1Fraction: real, stage2Fraction: real,
    runnerFraction: real, timeExitCandles: nat, stops: StopRules, costBuffer: real, cooldown: nat,
    failureLimit: nat)

  datatype Stage = Stage1 | Stage2 | Runner

  datatype ActionType =
    | Hold | ThesisInvalidationClose | EventRiskReduction | EconomicReduceSize | EconomicManageExistingOnly
    | TpProgressProfitLock | MfeProtectionClose | TpProgressPartialProtect | PartialProfit | TpProgressStructureStop
    | MoveSlBreakeven | TrailStop | TimeExit

  datatype Candidate = Candidate(
    action: ActionType, priority: int, volume: Option<real>, sl: Option<real>, tp: Option<real>,
    stage: Option<Stage>)

  predicate IsStopMove(a: ActionType) { a == MoveSlBreakeven || a == TrailStop || a == TpProgressStructureStop }

  predicate IsClose(a: ActionType)
  {
    a == PartialProfit || a == EventRiskReduction || a == MfeProtectionClose || a == TimeExit
    || a == ThesisInvalidationClose
    || a == TpProgressProfitLock || a == TpProgressPartialProtect || a == EconomicReduceSize
  }

  predicate Truthy(x: Option<real>) { x.Some? && x.value != 0.0 }

  function Or(x: Option<real>, y: real): real { if Truthy(x) then x.value else y }

  // ----- Sync -----

  function EntryOf(p: Position): real
  {
    if p.priceOpen != 0.0 then p.priceOpen else if p.priceCurrent != 0.0 then p.priceCurrent else 0.0
  }

  function PriceOf(p: Position): real
  {
    if p.priceCurrent != 0.0 then p.priceCurrent else p.priceOpen
  }

  function SyncRisk(p: Position): real
  {
    if Truthy(p.sl) then RAbs(EntryOf(p) - p.sl.value) else 0.00001
  }

  function Fresh(p: Position): PositionRow
  {
    PositionRow(p.symbol, p.side, 0.0, 0.0, 0.0, None, None, None, None, 0.0, 0.0,
      0.0, 0.0, 0.0, UnknownWinner, None, false, false, None, None)
  }

  function AtrR(atr: Option<real>, risk: real): real
    requires risk > 0.0
  {
    if Truthy(atr) then Ratio(atr.value, risk) else 0.0
  }

  // The synced row from the stored one, given the current R multiple and take-profit progress.
  function Synced(row: PositionRow, p: Position, k: Market, cfg: Config,
      allowed: bool, adopted: bool, r: real, atrR: real): PositionRow
  {
    var progress := TpProgress(p.side, EntryOf(p), PriceOf(p), p.tp);
    var maxR := RMax(row.maxR, r);
    var maxProgress :=
      if progress.Some? && progress.value > row.maxTpProgress then progress.value else row.maxTpProgress;
    var giveback := RMax(0.0, maxR - r);
    var allowance := Times(Allowance(atrR, k.regime, cfg.timeframe, 0.15, 0.60), maxR);
    var held := if p.openedAt.Some? && k.haveCandles then Some(k.held) else None;
    var adoptedNow := row.adopted || adopted;
    PositionRow(
      p.symbol, p.side, if row.originalVolume != 0.0 then row.originalVolume else p.volume, p.volume, EntryOf(p),
      if row.originalSl.Some? then row.originalSl else p.sl, p.sl,
      if row.originalTp.Some? then row.originalTp else p.tp, p.tp,
      maxR, RMin(row.minR, r), if progress.Some? then progress.value else row.tpProgress, maxProgress, giveback,
      ClassifyWinner(k.opposing, ClassifyRetracement(giveback, allowance), k.regime, p.side, Neutral, held),
      ProfitLock(maxProgress, maxR, k.regime, atrR).floor, adoptedNow, allowed || adoptedNow, p.openedAt,
      row.lastManagementAt)
  }

  // None stands for the ZeroDivisionError of a stop placed exactly at the entry price.
  function Sync(stored: Option<PositionRow>, p: Position, k: Market, cfg: Config, allowed: bool,
      adopted: bool): Option<PositionRow>
  {
    var risk := SyncRisk(p);
    if risk <= 0.0 then None
    else
      var row := if stored.Some? then stored.value else Fresh(p);
      Some(Synced(row, p, k, cfg, allowed, adopted,
        TradePath.SignedR(p.side, EntryOf(p), PriceOf(p), risk), AtrR(k.atr, risk)))
  }

  lemma SyncFailsIffStopAtEntry(stored: Option<PositionRow>, p: Position,
      k: Market, cfg: Config, allowed: bool, adopted: bool)
    ensures Sync(stored, p, k, cfg, allowed, adopted) == None <==> Truthy(p.sl) && p.sl.value == EntryOf(p)
  {
  }

  // ----- Candidates -----

  // The quantities every rule reads.
  datatype Situation = Situation(r: real, atrR: real, cooldownOk: bool, manageOnly: bool)

  predicate CooldownElapsed(last: Option<int>, cooldown: nat, now: int)
  {
    last == None || now - last.value >= cooldown
  }

  function RiskNow(row: PositionRow): (risk: real)
    ensures risk > 0.0
  {
    TradePath.NonZero(RAbs(row.entry - Or(row.currentSl, Or(row.originalSl, row.entry))))
  }

  function SituationOf(row: PositionRow, price: real, k: Market, cfg: Config, now: int): Situation
  {
    Situation(TradePath.SignedR(row.side, row.entry, price, RiskNow(row)), AtrR(k.atr, RiskNow(row)),
              CooldownElapsed(row.lastManagementAt, cfg.cooldown, now), k.economic == ManageExistingOnly)
  }

  predicate StopImproves(side: Side, proposed: real, current: Option<real>)
  {
    !Truthy(current) || (if side == Long then proposed > current.value else proposed < current.value)
  }

  function Close(a: ActionType, priority: int, volume: real): Option<Candidate>
  {
    Some(Candidate(a, priority, Some(volume), None, None, None))
  }

  function MoveStop(a: ActionType, priority: int, sl: real, row: PositionRow): Option<Candidate>
  {
    Some(Candidate(a, priority, None, Some(sl), row.currentTp, None))
  }

  const HOLD := Candidate(Hold, 100, None, None, None, None)

  function InvalidationRule(row: PositionRow, s: Situation, k: Market): Option<Candidate>
  {
    if k.opposing >= 2 && s.r < -0.25 then Close(ThesisInvalidationClose, 10, row.currentVolume) else None
  }

  function EventRule(row: PositionRow, s: Situation, k: Market): Option<Candidate>
  {
    if k.eventRisk && s.r > 0.2 then Close(EventRiskReduction, 20, Times(row.currentVolume, 0.25)) else None
  }

  // A missing or zero multiplier defaults to one half.
  function SizeMultiplier(e: Economic): real
    requires e.ReduceSize?
  {
    Or(e.multiplier, 0.5)
  }

  function ReduceRule(row: PositionRow, s: Situation, k: Market): Option<Candidate>
  {
    if k.economic.ReduceSize? && s.r > 0.0
      then Close(EconomicReduceSize, 21, Times(row.currentVolume, 1.0 - SizeMultiplier(k.economic))) else None
  }

  function ManageOnlyRule(s: Situation): Option<Candidate>
  {
    if s.manageOnly then Some(Candidate(EconomicManageExistingOnly, 95, None, None, None, None)) else None
  }

  // The fraction closed on a floor breach.
  function LockFraction(winner: Winner, maxProgress: real): real
  {
    match winner
    case Invalidated => 1.0
    case Critical => if maxProgress >= 0.95 then 1.0 else 0.7
    case Weakening => 0.5
    case StrongContinuation => 0.3
    case _ => 0.4
  }

  function LockRule(row: PositionRow, s: Situation, k: Market): Option<Candidate>
  {
    var lock := ProfitLock(row.maxTpProgress, row.maxR, k.regime, s.atrR);
    if lock.floor.Some? && s.r < lock.floor.value
      then Close(TpProgressProfitLock, 25, Times(row.currentVolume, LockFraction(row.winner, row.maxTpProgress)))
    else None
  }

  function GivebackRule(row: PositionRow, s: Situation, k: Market, cfg: Config): Option<Candidate>
  {
    var allowance := Times(Allowance(s.atrR, k.regime, cfg.timeframe, 0.15, 0.60), row.maxR);
    if row.maxR >= cfg.mfeMinR && RMax(0.0, row.maxR - s.r) > allowance
      then Close(MfeProtectionClose, 30, row.currentVolume) else None
  }

  function StageOf(zone: Zone): Option<Stage>
  {
    match zone
    case Zone60 | Zone75 => Some(Stage1)
    case Zone85 => Some(Stage2)
    case Zone95 => Some(Runner)
    case _ => None
  }

  function StageFraction(stage: Stage, cfg: Config): real
  {
    match stage case Stage1 => cfg.stage1Fraction case Stage2 => cfg.stage2Fraction case Runner => cfg.runnerFraction
  }

  function StageRule(row: PositionRow, cfg: Config, done: set<Stage>): Option<Candidate>
  {
    var stage := StageOf(ProgressZone(row.tpProgress));
    if stage.Some? && (row.winner == Weakening || row.winner == Critical) && stage.value !in done
    then Some(Candidate(TpProgressPartialProtect, 35,
      Some(Times(row.currentVolume, StageFraction(stage.value, cfg))), None, None, stage))
    else None
  }

  function PartialRule(row: PositionRow, s: Situation, cfg: Config): Option<Candidate>
  {
    if s.r >= cfg.partialR then Close(PartialProfit, 40, Times(row.currentVolume, cfg.partialFraction)) else None
  }

  predicate LateZone(zone: Zone) { zone == Zone75 || zone == Zone85 || zone == Zone95 }

  function StructureRule(row: PositionRow, price: real, s: Situation, k: Market, cfg: Config): Option<Candidate>
  {
    var stop := ConstructDynamicStop(row.side, price, k.structure, k.atr, k.spread, cfg.stops);
    if LateZone(ProgressZone(row.tpProgress)) && (row.winner == StrongContinuation || row.winner == HealthyPullback)
       && s.cooldownOk && !s.manageOnly && Truthy(stop) && StopImproves(row.side, stop.value, row.currentSl)
    then MoveStop(TpProgressStructureStop, 45, stop.value, row) else None
  }

  function Point(symbol: string): real { if |symbol| >= 3 && symbol[|symbol| - 3..] == "JPY" then 0.01 else 0.0001 }

  // Quotes in yen have two decimals, all others four.
  lemma PointIsPip(symbol: string)
    ensures (exists currency: string :: symbol == currency + "JPY") ==> Point(symbol) == 0.01
    ensures (forall currency: string :: symbol != currency + "JPY") ==> Point(symbol) == 0.0001
  {
    if |symbol| >= 3 && symbol[|symbol| - 3..] == "JPY" { assert symbol == symbol[..|symbol| - 3] + "JPY"; }
  }

  function BreakevenPrice(row: PositionRow, cfg: Config): real
  {
    if row.side == Long then row.entry + cfg.costBuffer * Point(row.symbol)
      else row.entry - cfg.costBuffer * Point(row.symbol)
  }

  function StructurePreferred(side: Side, breakeven: real, structure: Option<real>, atr: Option<real>): real
  {
    if structure == None || !Truthy(atr) then breakeven
    else
      var stop := if side == Long then structure.value - atr.value * 0.1 else structure.value + atr.value * 0.1;
      if StopImproves(side, stop, Some(breakeven)) then stop else breakeven
  }

  function BreakevenRule(row: PositionRow, s: Situation, k: Market, cfg: Config): Option<Candidate>
  {
    var stop := StructurePreferred(row.side, BreakevenPrice(row, cfg), k.structure, k.atr);
    if s.cooldownOk && !s.manageOnly && s.r >= cfg.breakevenR && row.tpProgress >= cfg.breakevenMinProgress
       && row.winner != Invalidated && k.opposing < 2 && s.atrR < cfg.breakevenMaxAtrR
       && StopImproves(row.side, stop, row.currentSl)
    then MoveStop(MoveSlBreakeven, 50, stop, row) else None
  }

  function TrailPrice(row: PositionRow, price: real, fraction: real): Option<real>
  {
    var distance := RAbs(row.entry - Or(row.currentSl, Or(row.originalSl, row.entry)));
    if distance <= 0.0 then None
    else Some(if row.side == Long then price - Times(distance, fraction) else price + Times(distance, fraction))
  }

  function TrailRule(row: PositionRow, price: real, s: Situation, k: Market, cfg: Config): Option<Candidate>
  {
    var stop := TrailPrice(row, price, Allowance(s.atrR, k.regime, cfg.timeframe, 0.2, 0.5));
    if s.cooldownOk && !s.manageOnly && s.r >= cfg.trailR && Truthy(stop)
       && StopImproves(row.side, stop.value, row.currentSl)
    then MoveStop(TrailStop, 60, stop.value, row) else None
  }

  function TimeRule(row: PositionRow, k: Market, cfg: Config): Option<Candidate>
  {
    if (if row.openedAt.Some? then k.held else 0) >= cfg.timeExitCandles && row.maxR < 0.25
      then Close(TimeExit, 70, row.currentVolume) else None
  }

  const RULES := 12

  // The priority of each rule; the advisory marker (number 3) comes after everything else.
  const URGENCY := [10, 20, 21, 95, 25, 30, 35, 40, 45, 50, 60, 70]

  // The rules that can follow the default HOLD, numbered in the order of generation.
  function Rule(i: nat, row: PositionRow, price: real, s: Situation, k: Market, cfg: Config,
      done: set<Stage>): Option<Candidate>
    requires i < RULES
  {
    match i
    case 0 => InvalidationRule(row, s, k)
    case 1 => EventRule(row, s, k)
    case 2 => ReduceRule(row, s, k)
    case 3 => ManageOnlyRule(s)
    case 4 => LockRule(row, s, k)
    case 5 => GivebackRule(row, s, k, cfg)
    case 6 => StageRule(row, cfg, done)
    case 7 => PartialRule(row, s, cfg)
    case 8 => StructureRule(row, price, s, k, cfg)
    case 9 => BreakevenRule(row, s, k, cfg)
    case 10 => TrailRule(row, price, s, k, cfg)
    case _ => TimeRule(row, k, cfg)
  }

  function Rules(row: PositionRow, price: real, k: Market, cfg: Config, done: set<Stage>,
      now: int): (rules: seq<Option<Candidate>>)
    ensures |rules| == RULES
  {
    var s := SituationOf(row, price, k, cfg, now);
    seq(RULES, i requires 0 <= i < RULES => Rule(i, row, price, s, k, cfg, done))
  }

  function Present(rules: seq<Option<Candidate>>): seq<Candidate>
  {
    if |rules| == 0 then []
    else Present(rules[..|rules| - 1]) + (if rules[|rules| - 1].Some? then [rules[|rules| - 1].value] else [])
  }

  // A position without both protections is only ever held.
  function Evaluate(row: PositionRow, price: real, k: Market, cfg: Config,
      done: set<Stage>, now: int): (cs: seq<Candidate>)
    ensures |cs| > 0
  {
    Considered(row, Rules(row, price, k, cfg, done, now))
  }

  function Considered(row: PositionRow, rules: seq<Option<Candidate>>): (cs: seq<Candidate>)
    ensures |cs| > 0
  {
    if !Truthy(row.currentSl) || !Truthy(row.currentTp) then [HOLD, Candidate(Hold, 1, None, None, None, None)]
    else [HOLD] + Present(rules)
  }

  // sorted(candidates, key=priority)[0]: the first of least priority.
  function Select(cs: seq<Candidate>): (c: Candidate)
    requires |cs| > 0
    ensures c in cs && forall i :: 0 <= i < |cs| ==> c.priority <= cs[i].priority
  {
    if |cs| == 1 then cs[0]
    else
      var best := Select(cs[..|cs| - 1]);
      if cs[|cs| - 1].priority < best.priority then cs[|cs| - 1] else best
  }

  // ----- Selection is a decision list -----

  predicate HasPriority(rule: Option<Candidate>, priority: int) { rule.Some? ==> rule.value.priority == priority }

  ghost predicate Prioritized(rules: seq<Option<Candidate>>)
  {
    |rules| == |URGENCY| && forall i :: 0 <= i < |rules| ==> HasPriority(rules[i], URGENCY[i])
  }

  // Rule i fires and no more urgent one does.
  ghost predicate MostUrgent(rules: seq<Option<Candidate>>, i: int)
    requires |rules| == |URGENCY| && 0 <= i < |rules|
  {
    rules[i].Some? && forall j :: 0 <= j < |rules| && URGENCY[j] < URGENCY[i] ==> rules[j] == None
  }

  lemma {:induction false} PresentFrom(rules: seq<Option<Candidate>>, c: Candidate)
    requires c in Present(rules)
    ensures exists i :: 0 <= i < |rules| && rules[i] == Some(c)
  {
    if |rules| > 0 && rules[|rules| - 1] != Some(c) {
      PresentFrom(rules[..|rules| - 1], c);
    }
  }

  lemma {:induction false} PresentHolds(rules: seq<Option<Candidate>>, i: nat)
    requires i < |rules| && rules[i].Some?
    ensures rules[i].value in Present(rules)
  {
    if i < |rules| - 1 { PresentHolds(rules[..|rules| - 1], i); }
  }

  lemma {:induction false} NothingPresent(rules: seq<Option<Candidate>>)
    requires forall i :: 0 <= i < |rules| ==> rules[i] == None
    ensures Present(rules) == []
  {
    if |rules| > 0 { NothingPresent(rules[..|rules| - 1]); }
  }

  lemma UrgencyDistinct(i: int, j: int)
    requires 0 <= i < |URGENCY| && 0 <= j < |URGENCY| && URGENCY[i] == URGENCY[j]
    ensures i == j
  {
  }

  lemma RulePriority(i: nat, row: PositionRow, price: real, s: Situation, k: Market, cfg: Config, done: set<Stage>)
    requires i < RULES
    ensures HasPriority(Rule(i, row, price, s, k, cfg, done), URGENCY[i])
  {
  }

  lemma RulesArePrioritized(row: PositionRow, price: real, k: Market, cfg: Config, done: set<Stage>, now: int)
    ensures Prioritized(Rules(row, price, k, cfg, done, now))
  {
    var s, rules := SituationOf(row, price, k, cfg, now), Rules(row, price, k, cfg, done, now);
    forall i | 0 <= i < RULES
      ensures HasPriority(rules[i], URGENCY[i])
    {
      RulePriority(i, row, price, s, k, cfg, done);
    }
  }

  lemma SelectMostUrgent(row: PositionRow, rules: seq<Option<Candidate>>, i: int)
    requires Prioritized(rules) && Truthy(row.currentSl) && Truthy(row.currentTp)
    requires 0 <= i < |rules| && MostUrgent(rules, i)
    ensures Select(Considered(row, rules)) == rules[i].value
  {
    var cs, c := Considered(row, rules), Select(Considered(row, rules));
    PresentHolds(rules, i);
    assert rules[i].value in cs;
    assert HasPriority(rules[i], URGENCY[i]);
    assert c.priority <= URGENCY[i] < HOLD.priority;
    PresentFrom(rules, c);
    var j :| 0 <= j < |rules| && rules[j] == Some(c);
    assert HasPriority(rules[j], URGENCY[j]);
    if URGENCY[j] == URGENCY[i] { UrgencyDistinct(i, j); }
  }

  // Sorting the candidates and taking the first is a decision list over the rules: the most urgent rule that fires
  // decides, with HOLD when none does; a position missing a protection is held whatever fires.
  lemma SelectionIsDecisionList(row: PositionRow, price: real, k: Market, cfg: Config, done: set<Stage>, now: int)
    ensures var c, rules := Select(Evaluate(row, price, k, cfg, done, now)), Rules(row, price, k, cfg, done, now);
      && (!Truthy(row.currentSl) || !Truthy(row.currentTp) ==> c.action == Hold)
      && (Truthy(row.currentSl) && Truthy(row.currentTp) ==>
            && (forall i :: 0 <= i < |rules| && MostUrgent(rules, i) ==> c == rules[i].value)
            && ((forall i :: 0 <= i < |rules| ==> rules[i] == None) ==> c == HOLD))
  {
    var rules := Rules(row, price, k, cfg, done, now);
    RulesArePrioritized(row, price, k, cfg, done, now);
    DecisionList(row, rules);
  }

  lemma DecisionList(row: PositionRow, rules: seq<Option<Candidate>>)
    requires Prioritized(rules)
    ensures var c := Select(Considered(row, rules));
      && (!Truthy(row.currentSl) || !Truthy(row.currentTp) ==> c.action == Hold)
      && (Truthy(row.currentSl) && Truthy(row.currentTp) ==>
            && (forall i :: 0 <= i < |rules| && MostUrgent(rules, i) ==> c == rules[i].value)
            && ((forall i :: 0 <= i < |rules| ==> rules[i] == None) ==> c == HOLD))
  {
    if Truthy(row.currentSl) && Truthy(row.currentTp) {
      forall i | 0 <= i < |rules| && MostUrgent(rules, i)
        ensures Select(Considered(row, rules)) == rules[i].value
      {
        SelectMostUrgent(row, rules, i);
      }
      if forall i :: 0 <= i < |rules| ==> rules[i] == None { NothingPresent(rules); }
    }
  }

  // ----- What a selected candidate guarantees -----

  predicate UnitConfig(cfg: Config)
  {
    && 0.0 <= cfg.partialFraction <= 1.0 && 0.0 <= cfg.stage1Fraction <= 1.0
    && 0.0 <= cfg.stage2Fraction <= 1.0 && 0.0 <= cfg.runnerFraction <= 1.0
  }

  predicate UnitMarket(k: Market)
  {
    k.economic.ReduceSize? && k.economic.multiplier.Some? ==> 0.0 <= k.economic.multiplier.value <= 1.0
  }

  // A stop move strictly improves a stop that is set, keeps the take profit, and waits for the cooldown.
  predicate StopMoveOk(row: PositionRow, c: Candidate, cfg: Config, now: int)
  {
    IsStopMove(c.action) ==>
      && c.sl.Some? && Truthy(row.currentSl) && StopImproves(row.side, c.sl.value, row.currentSl)
      && Truthy(c.tp) && c.tp == row.currentTp && CooldownElapsed(row.lastManagementAt, cfg.cooldown, now)
  }

  // A close never asks for more than the position.
  predicate CloseOk(row: PositionRow, c: Candidate)
  {
    IsClose(c.action) ==> c.volume.Some? && 0.0 <= c.volume.value <= row.currentVolume
  }

  // Exactly the staged protection names a stage, one that was not executed before.
  predicate StageOk(c: Candidate, done: set<Stage>)
  {
    (c.action == TpProgressPartialProtect <==> c.stage.Some?) && (c.stage.Some? ==> c.stage.value !in done)
  }

  // `bounded` adds the volume bound, which needs fractions in [0, 1].
  predicate CandidateOk(row: PositionRow, c: Candidate, cfg: Config, now: int, done: set<Stage>, bounded: bool)
  {
    StopMoveOk(row, c, cfg, now) && StageOk(c, done) && (bounded ==> CloseOk(row, c))
  }

  predicate RuleOk(rule: Option<Candidate>, row: PositionRow, cfg: Config, now: int, done: set<Stage>, bounded: bool)
  {
    rule.Some? ==> CandidateOk(row, rule.value, cfg, now, done, bounded)
  }

  lemma SelectedFrom(row: PositionRow, rules: seq<Option<Candidate>>,
      cfg: Config, now: int, done: set<Stage>, bounded: bool)
    requires Truthy(row.currentSl) && Truthy(row.currentTp) ==> forall i :: 0 <= i < |rules| ==>
      RuleOk(rules[i], row, cfg, now, done, bounded)
    ensures CandidateOk(row, Select(Considered(row, rules)), cfg, now, done, bounded)
  {
    var cs := Considered(row, rules);
    var c := Select(cs);
    if Truthy(row.currentSl) && Truthy(row.currentTp) && c != HOLD {
      assert c in Present(rules);
      PresentFrom(rules, c);
    }
  }

  lemma StopAndStageRules(row: PositionRow, price: real, s: Situation, k: Market,
      cfg: Config, done: set<Stage>, now: int, bounded: bool)
    requires Truthy(row.currentSl) && Truthy(row.currentTp)
    requires s.cooldownOk == CooldownElapsed(row.lastManagementAt, cfg.cooldown, now)
    ensures RuleOk(StructureRule(row, price, s, k, cfg), row, cfg, now, done, bounded)
    ensures RuleOk(BreakevenRule(row, s, k, cfg), row, cfg, now, done, bounded)
    ensures RuleOk(TrailRule(row, price, s, k, cfg), row, cfg, now, done, bounded)
    ensures RuleOk(ManageOnlyRule(s), row, cfg, now, done, bounded)
  {
  }

  lemma EarlyCloseRules(row: PositionRow, s: Situation, k: Market,
      cfg: Config, done: set<Stage>, now: int, bounded: bool)
    requires bounded ==> UnitMarket(k) && row.currentVolume >= 0.0
    ensures RuleOk(InvalidationRule(row, s, k), row, cfg, now, done, bounded)
    ensures RuleOk(EventRule(row, s, k), row, cfg, now, done, bounded)
    ensures RuleOk(ReduceRule(row, s, k), row, cfg, now, done, bounded)
    ensures RuleOk(LockRule(row, s, k), row, cfg, now, done, bounded)
  {
    if bounded {
      TimesAtMost(row.currentVolume, 0.25);
      TimesAtMost(row.currentVolume, LockFraction(row.winner, row.maxTpProgress));
      if k.economic.ReduceSize? { TimesAtMost(row.currentVolume, 1.0 - SizeMultiplier(k.economic)); }
    }
  }

  lemma LateCloseRules(row: PositionRow, s: Situation, k: Market,
      cfg: Config, done: set<Stage>, now: int, bounded: bool)
    requires bounded ==> UnitConfig(cfg) && row.currentVolume >= 0.0
    ensures RuleOk(GivebackRule(row, s, k, cfg), row, cfg, now, done, bounded)
    ensures RuleOk(StageRule(row, cfg, done), row, cfg, now, done, bounded)
    ensures RuleOk(PartialRule(row, s, cfg), row, cfg, now, done, bounded)
    ensures RuleOk(TimeRule(row, k, cfg), row, cfg, now, done, bounded)
  {
    if bounded {
      TimesAtMost(row.currentVolume, cfg.partialFraction);
      var stage := StageOf(ProgressZone(row.tpProgress));
      if stage.Some? { TimesAtMost(row.currentVolume, StageFraction(stage.value, cfg)); }
    }
  }

  lemma RuleIsOk(i: nat, row: PositionRow, price: real, s: Situation, k: Market,
      cfg: Config, done: set<Stage>, now: int, bounded: bool)
    requires i < RULES && Truthy(row.currentSl) && Truthy(row.currentTp)
    requires s.cooldownOk == CooldownElapsed(row.lastManagementAt, cfg.cooldown, now)
    requires bounded ==> UnitConfig(cfg) && UnitMarket(k) && row.currentVolume >= 0.0
    ensures RuleOk(Rule(i, row, price, s, k, cfg, done), row, cfg, now, done, bounded)
  {
    if i == 3 || 8 <= i <= 10 {
      StopAndStageRules(row, price, s, k, cfg, done, now, bounded);
    } else if i <= 4 {
      EarlyCloseRules(row, s, k, cfg, done, now, bounded);
    } else {
      LateCloseRules(row, s, k, cfg, done, now, bounded);
    }
  }

  // The selected candidate is sound for any market; with fractions in [0, 1] a close asks for at most the position.
  lemma SelectedOk(row: PositionRow, price: real, k: Market, cfg: Config, done: set<Stage>, now: int, bounded: bool)
    requires bounded ==> UnitConfig(cfg) && UnitMarket(k) && row.currentVolume >= 0.0
    ensures CandidateOk(row, Select(Evaluate(row, price, k, cfg, done, now)), cfg, now, done, bounded)
  {
    if Truthy(row.currentSl) && Truthy(row.currentTp) {
      var s, rules := SituationOf(row, price, k, cfg, now), Rules(row, price, k, cfg, done, now);
      forall i | 0 <= i < RULES ensures RuleOk(rules[i], row, cfg, now, done, bounded) {
        RuleIsOk(i, row, price, s, k, cfg, done, now, bounded);
      }
    }
    SelectedFrom(row, Rules(row, price, k, cfg, done, now), cfg, now, done, bounded);
  }

  // ----- The broker request -----

  datatype SymbolSpec = SymbolSpec(step: real, minVolume: real, maxVolume: real, digits: nat)

  // Missing or zero specifications take the defaults 0.01, 0.01, 100 and 5.
  function Defaulted(s: SymbolSpec): SymbolSpec
  {
    SymbolSpec(if s.step == 0.0 then 0.01 else s.step, if s.minVolume == 0.0 then 0.01 else s.minVolume,
               if s.maxVolume == 0.0 then 100.0 else s.maxVolume, if s.digits == 0 then 5 else s.digits)
  }

  predicate Tradable(s: SymbolSpec) { s.step >= 0.0 && s.minVolume >= 0.0 && s.maxVolume >= 0.0 }

  function FloorTo(value: real, step: real): real
    requires step != 0.0
  {
    Times((value / step).Floor as real, step)
  }

  function NormalizeVolume(volume: real, s: SymbolSpec): real
  {
    var d := Defaulted(s);
    var bounded := RMin(RMax(FloorTo(RMax(0.0, volume), d.step), 0.0), d.maxVolume);
    if bounded >= d.minVolume then bounded else 0.0
  }

  lemma FloorToBelow(value: real, step: real)
    requires step > 0.0 && value >= 0.0
    ensures FloorTo(value, step) <= value
  {
    var q := value / step;
    assert q * step == value;
    assert (q - q.Floor as real) * step >= 0.0;
  }

  // A normalized volume is 0 or at least the minimum, and never above what was asked.
  lemma NormalizedVolumeBounds(volume: real, s: SymbolSpec)
    requires Tradable(s) && volume >= 0.0
    ensures 0.0 <= NormalizeVolume(volume, s) <= volume
    ensures NormalizeVolume(volume, s) != 0.0 ==>
      Defaulted(s).minVolume <= NormalizeVolume(volume, s) <= Defaulted(s).maxVolume
  {
    FloorToBelow(volume, Defaulted(s).step);
  }

  // The volume becomes the largest number of whole steps within it, cut at the maximum, and nothing below the minimum.
  lemma NormalizedIsWholeLots(volume: real, s: SymbolSpec) returns (lots: int)
    requires Tradable(s) && volume >= 0.0
    ensures var step, least, most := if s.step == 0.0 then 0.01 else s.step,
        if s.minVolume == 0.0 then 0.01 else s.minVolume, if s.maxVolume == 0.0 then 100.0 else s.maxVolume;
      var whole := Times(lots as real, step);
      && lots >= 0 && whole <= volume < whole + step
      && NormalizeVolume(volume, s) ==
        if RMin(whole, most) < least then 0.0 else RMin(whole, most)
  {
    var step := Defaulted(s).step;
    lots := (volume / step).Floor;
    RatioNonNegative(volume, step);
    RatioTimes(volume, step);
    Floors(Ratio(volume, step), lots, step);
  }

  lemma Floors(q: real, n: int, step: real)
    requires step > 0.0 && q >= 0.0 && n as real <= q < n as real + 1.0
    ensures n >= 0 && 0.0 <= Times(n as real, step) <= Times(q, step) < Times(n as real, step) + step
  {
    ScaleLe(0.0, n as real, step);
    ScaleLe(n as real, q, step);
    ScaleLess(q, n as real + 1.0, step);
  }

  lemma ScaleLess(a: real, b: real, step: real)
    requires a < b && step > 0.0
    ensures Times(a, step) < Times(b, step)
    ensures Times(b, step) == Times(b - 1.0, step) + step
  {
    assert (b - a) * step > 0.0;
  }

  // Python's round: nearest integer, ties to even.
  function RoundInt(x: real): int
  {
    var below := x.Floor;
    if x - below as real < 0.5 then below else if x - below as real > 0.5 then below + 1
      else if below % 2 == 0 then below else below + 1
  }

  lemma RoundIntMonotone(x: real, y: real)
    requires x <= y
    ensures RoundInt(x) <= RoundInt(y)
  {
  }

  lemma RoundIntOfInteger(n: int)
    ensures RoundInt(n as real) == n
  {
  }

  function Pow10(n: nat): (r: real)
    ensures r >= 1.0
  {
    if n == 0 then 1.0 else 10.0 * Pow10(n - 1)
  }

  function RoundPrice(price: real, s: SymbolSpec): real
  {
    var grid := Pow10(Defaulted(s).digits);
    Ratio(RoundInt(Times(price, grid)) as real, grid)
  }

  lemma {:induction false} Pow10IsPower(n: nat)
    ensures Pow10(n) == Pow(10.0, n)
  {
    if n > 0 { Pow10IsPower(n - 1); }
  }

  // A rounded price is the nearest whole number of steps, five digits unless the symbol says otherwise; halfway it is
  // the even one.
  lemma RoundedIsNearest(price: real, s: SymbolSpec) returns (steps: int)
    ensures var grid := Pow(10.0, if s.digits == 0 then 5 else s.digits);
      && Times(RoundPrice(price, s), grid) == steps as real
      && steps as real - 0.5 <= Times(price, grid) <= steps as real + 0.5
      && (RAbs(Times(price, grid) - steps as real) == 0.5 ==> steps % 2 == 0)
  {
    var grid := Pow10(Defaulted(s).digits);
    Pow10IsPower(Defaulted(s).digits);
    steps := RoundInt(Times(price, grid));
    RatioTimes(steps as real, grid);
  }

  ghost predicate OnGrid(price: real, s: SymbolSpec)
  {
    RoundPrice(price, s) == price
  }

  lemma RoundedIsOnGrid(price: real, s: SymbolSpec)
    ensures OnGrid(RoundPrice(price, s), s)
  {
    var grid := Pow10(Defaulted(s).digits);
    var n := RoundInt(Times(price, grid));
    RatioTimes(n as real, grid);
    RoundIntOfInteger(n);
  }

  lemma RoundPriceMonotone(x: real, y: real, s: SymbolSpec)
    requires x <= y
    ensures RoundPrice(x, s) <= RoundPrice(y, s)
  {
    var grid := Pow10(Defaulted(s).digits);
    ScaleLe(x, y, grid);
    RoundIntMonotone(Times(x, grid), Times(y, grid));
    RatioMonotone(RoundInt(Times(x, grid)) as real, RoundInt(Times(y, grid)) as real, grid);
  }

  datatype Request = CloseRequest(volume: real) | StopRequest(sl: real, tp: real)

  function ClosedVolume(requested: Option<real>, current: real, s: SymbolSpec): real
  {
    NormalizeVolume(Or(requested, current), s)
  }

  function BuildRequest(action: ActionType, volume: Option<real>, sl: Option<real>, tp: Option<real>,
      currentVolume: real, s: SymbolSpec): Option<Request>
  {
    if IsClose(action) then
      if ClosedVolume(volume, currentVolume, s) <= 0.0 then None
        else Some(CloseRequest(ClosedVolume(volume, currentVolume, s)))
    else if IsStopMove(action) then
      Some(StopRequest(if sl.Some? then RoundPrice(sl.value, s) else 0.0, if Truthy(tp) then RoundPrice(tp.value, s)
        else 0.0))
    else None
  }

  // A close request stays within the position and reaches the broker minimum.
  lemma CloseRequestBounds(action: ActionType, volume: Option<real>, current: real, s: SymbolSpec)
    requires Tradable(s) && IsClose(action)
    requires volume.Some? && 0.0 <= volume.value <= current
    ensures var q := BuildRequest(action, volume, None, None, current, s);
      q.Some? ==> q.value.CloseRequest? && Defaulted(s).minVolume <= q.value.volume <= current
  {
    NormalizedVolumeBounds(Or(volume, current), s);
  }

  // A stop request never moves the stop backwards, leaves the take profit alone, and stays on the grid.
  lemma StopRequestRatchets(side: Side, current: real, proposed: real, tp: real, s: SymbolSpec)
    requires StopImproves(side, proposed, Some(current)) && current != 0.0 && tp != 0.0 && OnGrid(current, s)
    requires OnGrid(tp, s)
    ensures side == Long ==> RoundPrice(proposed, s) >= current
    ensures side == Short ==> RoundPrice(proposed, s) <= current
    ensures OnGrid(RoundPrice(proposed, s), s) && RoundPrice(tp, s) == tp
  {
    RoundedIsOnGrid(proposed, s);
    if side == Long { RoundPriceMonotone(current, proposed, s); } else { RoundPriceMonotone(proposed, current, s); }
  }

  // A requested volume is exceeded exactly when it is 0 and the whole position normalizes to something: `or` then
  // closes it all.
  lemma CloseExceedsRequestIffZero(requested: real, current: real, s: SymbolSpec)
    requires Tradable(s) && 0.0 <= requested <= current
    ensures ClosedVolume(Some(requested), current, s) > requested <==>
      requested == 0.0 && NormalizeVolume(current, s) > 0.0
  {
    NormalizedVolumeBounds(requested, s);
    NormalizedVolumeBounds(current, s);
  }

  // An economic "reduce size" with multiplier 1 asks for 0, and so closes the whole position.
  lemma ReduceByNothingClosesAll(row: PositionRow, s: Situation, k: Market, spec: SymbolSpec)
    requires Tradable(spec) && k.economic == ReduceSize(Some(1.0)) && s.r > 0.0
    ensures var c := ReduceRule(row, s, k);
      && c.Some? && c.value.volume == Some(0.0)
      && ClosedVolume(c.value.volume, row.currentVolume, spec) == NormalizeVolume(row.currentVolume, spec)
  {
  }

  // Whether a buffer of d grid steps is rounded away at the grid point n; ties go to even.
  predicate RoundedAway(n: int, d: real) { d < 0.5 || (d == 0.5 && n % 2 == 0) }

  // The break-even stop lands on the entry price itself exactly when its buffer is rounded away, and exactly then the
  // next sync of the position fails.
  lemma BreakevenStopBlocksSyncIff(p: Position, buffer: real, s: SymbolSpec, stored: Option<PositionRow>, k: Market,
      cfg: Config, allowed: bool, adopted: bool)
    requires EntryOf(p) != 0.0 && OnGrid(EntryOf(p), s) && buffer >= 0.0
    ensures var e, grid := EntryOf(p), Pow10(Defaulted(s).digits);
      var away := RoundedAway(RoundInt(Times(e, grid)), Times(buffer, grid));
      var above, below := RoundPrice(e + buffer, s), RoundPrice(e - buffer, s);
      && (above == e <==> away) && (Sync(stored, p.(sl := Some(above)), k, cfg, allowed, adopted) == None <==> away)
      && (below == e <==> away) && (Sync(stored, p.(sl := Some(below)), k, cfg, allowed, adopted) == None <==> away)
  {
    var e := EntryOf(p);
    RoundedStopIff(e, buffer, s);
    SyncFailsIffStopAtEntry(stored, p.(sl := Some(RoundPrice(e + buffer, s))), k, cfg, allowed, adopted);
    SyncFailsIffStopAtEntry(stored, p.(sl := Some(RoundPrice(e - buffer, s))), k, cfg, allowed, adopted);
  }

  lemma RoundedStopIff(e: real, buffer: real, s: SymbolSpec)
    requires OnGrid(e, s) && buffer >= 0.0
    ensures var grid := Pow10(Defaulted(s).digits);
      var away := RoundedAway(RoundInt(Times(e, grid)), Times(buffer, grid));
      (RoundPrice(e + buffer, s) == e <==> away) && (RoundPrice(e - buffer, s) == e <==> away)
  {
    var grid := Pow10(Defaulted(s).digits);
    var n := RoundInt(Times(e, grid));
    RatioTimes(n as real, grid);
    assert Times(e, grid) == n as real;
    Spreads(e, buffer, grid);
    RoundNear(n, Times(buffer, grid));
    RatioTimes(RoundInt(Times(e + buffer, grid)) as real, grid);
    RatioTimes(RoundInt(Times(e - buffer, grid)) as real, grid);
  }

  lemma Spreads(e: real, buffer: real, grid: real)
    requires buffer >= 0.0 && grid >= 1.0
    ensures Times(e + buffer, grid) == Times(e, grid) + Times(buffer, grid)
    ensures Times(e - buffer, grid) == Times(e, grid) - Times(buffer, grid)
    ensures Times(buffer, grid) >= 0.0
  {
  }

  lemma RoundNear(n: int, d: real)
    requires d >= 0.0
    ensures RoundInt(n as real + d) == n <==> RoundedAway(n, d)
    ensures RoundInt(n as real - d) == n <==> RoundedAway(n, d)
  {
  }
}
