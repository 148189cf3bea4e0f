/** Concrete runs of the adaptive manager in which a stage of the staged protection is closed twice. */
module ManagerStageWitness {
  import opened Common
  import opened TpProtection
  import TradePath
  import opened ManagerRules
  import opened ManagerRun
  import opened ManagerSafety
  import opened ManagerWitness

  // Two opposing candles on a position whose candles are known: a weakening winner.
  const TIRED := QUIET.(opposing := 2, haveCandles := true, held := 1)

  const EVENTFUL := QUIET.(eventRisk := true)

  const SHADOW := GATE.(demoActive := false)

  function Held(volume: real): Position { OPENED.(volume := volume, openedAt := Some(0)) }

  function ProgressAt(price: real): real { (price - 100.0) / 100.0 }

  function RAt(price: real): real { (price - 100.0) / 10.0 }

  // A price in the first stage's zone, or in the second's.
  predicate Staged(price: real) { price == 165.0 || price == 190.0 }

  function StageAt(price: real): Stage { if price == 165.0 then Stage1 else Stage2 }

  // The cycle begins with the one position, whose stored row has seen no price above 165.
  ghost predicate Visitable(m: Machine, volume: real)
  {
    && m.listed == m.broker == map[0 := Held(volume)] && !m.view.open && !m.breaker.open && m.session == m.committed
    && (0 in m.session.positions ==> m.session.positions[0].maxR <= 6.5 && m.session.positions[0].maxTpProgress <= 0.65)
  }

  ghost predicate Tiring(row: PositionRow, volume: real, price: real)
  {
    && row.symbol == "X" && row.side == Long && row.entry == 100.0 && row.currentSl == Some(90.0)
    && row.currentTp == Some(200.0)
    && row.currentVolume == volume && row.managed && row.maxR == RAt(price)
    && row.tpProgress == ProgressAt(price) == row.maxTpProgress
  }

  lemma SyncedNumbers(price: real)
    requires Staged(price)
    ensures TradePath.SignedR(Long, 100.0, price, 10.0) == RAt(price) && RAt(price) >= 6.5
    ensures TpProgress(Long, 100.0, price, Some(200.0)) == Some(ProgressAt(price)) && ProgressAt(price) >= 0.65
  {
    assert price == 165.0 ==> RAt(price) == 6.5 && ProgressAt(price) == 0.65;
    assert price == 190.0 ==> RAt(price) == 9.0 && ProgressAt(price) == 0.9;
  }

  lemma NoGiveback(allowance: real)
    requires allowance >= 0.0
    ensures ClassifyRetracement(0.0, allowance) == Normal
  {
  }

  lemma SyncedTiring(m: Machine, v: Visit, volume: real)
    requires Visitable(m, volume) && v.pid == 0 && Staged(v.price) && v.allowed
    ensures var row := SyncedRow(TheWorld(), m, v); row.Some? && Tiring(row.value, volume, v.price)
    ensures v.market == TIRED ==> SyncedRow(TheWorld(), m, v).value.winner == Weakening
  {
    SyncedNumbers(v.price);
    var allowance := Allowance(0.0, Ranging, M5, 0.15, 0.60);
    TimesMonotone(0.0, allowance, 0.0, RAt(v.price));
    NoGiveback(Times(allowance, RAt(v.price)));
  }

  // ----- What is chosen -----

  lemma SituationAt(row: PositionRow, volume: real, price: real, k: Market)
    requires Tiring(row, volume, price) && Staged(price) && k.atr == None && k.economic == Allow
    ensures var s := SituationOf(row, price, k, CONFIG, 0); s.r == RAt(price) && s.atrR == 0.0
  {
    assert RiskNow(row) == 10.0;
    SyncedNumbers(price);
  }

  // At its best price so far a position is above any floor under its profit.
  lemma AboveFloor(row: PositionRow, volume: real, price: real, s: Situation, k: Market)
    requires Tiring(row, volume, price) && Staged(price) && s.r == RAt(price)
    ensures LockRule(row, s, k) == None && GivebackRule(row, s, k, CONFIG) == None
  {
    SyncedNumbers(price);
    if LockTriggered(row.maxTpProgress, row.maxR) {
      FloorBand(row.maxTpProgress, row.maxR, k.regime, s.atrR);
      TimesAtMost(row.maxR, 0.85);
    }
  }

  function StagedClose(volume: real, price: real): Candidate
  {
    Candidate(TpProgressPartialProtect, 35, Some(Times(volume, StageFraction(StageAt(price), CONFIG))),
      None, None, Some(StageAt(price)))
  }

  lemma StagedChoice(row: PositionRow, volume: real, price: real, done: set<Stage>)
    requires Tiring(row, volume, price) && Staged(price) && row.winner == Weakening && StageAt(price) !in done
    ensures Select(Evaluate(row, price, TIRED, CONFIG, done, 0)) == StagedClose(volume, price)
  {
    var s, rules := SituationOf(row, price, TIRED, CONFIG, 0), Rules(row, price, TIRED, CONFIG, done, 0);
    SituationAt(row, volume, price, TIRED);
    SyncedNumbers(price);
    AboveFloor(row, volume, price, s, TIRED);
    assert price == 190.0 ==> ProgressAt(price) == 0.9;
    assert price == 165.0 ==> ProgressAt(price) == 0.65;
    assert rules[6] == Some(StagedClose(volume, price));
    assert rules[0] == None && rules[1] == None && rules[2] == None && rules[4] == None && rules[5] == None;
    RulesArePrioritized(row, price, TIRED, CONFIG, done, 0);
    SelectMostUrgent(row, rules, 6);
  }

  function EventClose(volume: real): Candidate
  {
    Candidate(EventRiskReduction, 20, Some(Times(volume, 0.25)), None, None, None)
  }

  lemma EventChoice(row: PositionRow, volume: real, price: real, done: set<Stage>)
    requires Tiring(row, volume, price) && Staged(price)
    ensures Select(Evaluate(row, price, EVENTFUL, CONFIG, done, 0)) == EventClose(volume)
  {
    var rules := Rules(row, price, EVENTFUL, CONFIG, done, 0);
    SituationAt(row, volume, price, EVENTFUL);
    SyncedNumbers(price);
    assert rules[1] == Some(EventClose(volume)) && rules[0] == None;
    RulesArePrioritized(row, price, EVENTFUL, CONFIG, done, 0);
    SelectMostUrgent(row, rules, 1);
  }

  // ----- What an accepted close leaves -----

  // The close of the action is accepted, filling `filled`, and settles as the machine's rules say.
  ghost predicate Closes(m: Machine, t: Machine, d: Decision, filled: real)
    requires 0 in m.broker
  {
    var staged := d.action.key.action == TpProgressPartialProtect && d.action.stage.Some?;
    var known := 0 in m.committed.positions;
    && t.broker == m.broker[0 := m.broker[0].(volume := m.broker[0].volume - filled)]
    && t.committed == m.committed && t.view == m.view && t.breaker == m.breaker
    && t.orders.Keys == m.orders.Keys + {d.action.key}
    && t.session.positions == m.session.positions[0 := d.row]
    && t.session.actions == m.session.actions[d.action.key := d.action.(status := Submitted, attempted := true)]
    && t.session.stages == m.session.stages + (if staged && known then {(0, d.action.stage.value)} else {})
    && t.log.protections == m.log.protections + (if staged then [Protection(0, d.action.stage.value, known)] else [])
  }

  ghost predicate OpenAction(a: ActionRow)
  {
    IsClose(a.key.action) && !a.attempted && (a.status == Chosen || a.status == ShadowSelected)
  }

  lemma SubmittedClose(m: Machine, v: Visit, d: Decision, q: Request, filled: real)
    requires 0 in m.broker && filled < m.broker[0].volume && v == VisitAt(v.price, v.market, Answered(true, filled))
    requires d.action.key !in m.orders && q.CloseRequest?
    ensures Submit(m.orders, d.action.key, v.submission).ok == Some(true)
    ensures var t := Effects(TheWorld(), m, v, d.action.key, q);
            && t.broker == m.broker[0 := m.broker[0].(volume := m.broker[0].volume - filled)]
            && t.committed == m.committed && t.session == m.session && t.view == m.view && t.breaker == m.breaker
            && t.orders.Keys == m.orders.Keys + {d.action.key} && t.log.protections == m.log.protections
  {
  }

  lemma CarriedClose(m: Machine, v: Visit, d: Decision, q: Request, filled: real)
    requires 0 in m.broker && 0 in m.session.positions && m.session.positions[0] == d.row
    requires v == VisitAt(v.price, v.market, Answered(true, filled)) && filled < m.broker[0].volume
    requires OpenAction(d.action) && d.action.key !in m.orders && q.CloseRequest? && RequestOf(TheWorld(), d) == Some(q)
    ensures Closes(m, Carry(TheWorld(), m, v, d), d, filled)
  {
    SubmittedClose(m, v, d, q, filled);
  }

  lemma ClosesOnceNoted(m: Machine, t: Machine, d: Decision, filled: real)
    requires 0 in m.broker && Closes(Noted(m, 0, d), t, d, filled)
    ensures Closes(m, t, d, filled)
  {
  }

  lemma AcceptedClose(m: Machine, v: Visit, d: Decision, q: Request, filled: real)
    requires 0 in m.broker && !m.view.open && v == VisitAt(v.price, v.market, Answered(true, filled))
    requires filled < m.broker[0].volume
    requires OpenAction(d.action) && d.action.key !in m.orders && d.row.managed
    requires q.CloseRequest? && RequestOf(TheWorld(), d) == Some(q)
    ensures Closes(m, Act(TheWorld(), m, v, d), d, filled)
  {
    assert CanExecute(d.action, d.row, GATE, m.view);
    CarriedClose(Noted(m, 0, d), v, d, q, filled);
    ClosesOnceNoted(m, Carry(TheWorld(), Noted(m, 0, d), v, d), d, filled);
  }

  // Whole lots only.
  lemma LotsRequested(d: Decision, volume: real, lots: nat)
    requires d.action.key.volume == Some(volume) && IsClose(d.action.key.action) && 1 <= lots <= 100
    requires lots as real <= volume < lots as real + 1.0
    ensures RequestOf(TheWorld(), d) == Some(CloseRequest(lots as real))
  {
    assert volume / 1.0 == volume;
    assert volume.Floor == lots;
    assert FloorTo(volume, 1.0) == lots as real;
  }

  // ----- Cycles -----

  // After an accepted close: what is left of the position, and a stored row that has seen no price above 165.
  ghost predicate Left(t: Machine, volume: real)
  {
    && t.broker == map[0 := Held(volume)] && !t.breaker.open && 0 in t.session.positions
    && t.session.positions[0].maxR <= 6.5 && t.session.positions[0].maxTpProgress <= 0.65
  }

  // The next cycle begins after a commit.
  lemma NextVisit(m: Machine, volume: real) returns (stored: Machine, t: Machine)
    requires Left(m, volume)
    ensures Steps(TheWorld(), m, Commit, stored) && Steps(TheWorld(), stored, Begin, t)
    ensures Visitable(t, volume) && t.session == m.session && t.log == m.log && t.orders == m.orders
  {
    stored := m.(committed := m.session, listed := map[]);
    t := stored.(view := m.breaker, listed := m.broker);
  }

  // A run without rollbacks.
  ghost predicate Reaches(ms: seq<Machine>, es: seq<Event>, m: Machine) { RunTo(ms, es, m) && NoAborts(es) }

  lemma Arrival(volume: real) returns (ms: seq<Machine>, es: seq<Event>, m: Machine)
    requires volume > 0.0
    ensures Reaches(ms, es, m) && FreshCycle(m, Held(volume)) && Visitable(m, volume) && m.orders == map[]
    ensures m.log.protections == []
  {
    var m1, m2 := FirstCycle(Held(volume));
    ms, es := Onward([START], [], START, Open(0, Held(volume)), m1);
    ms, es := Onward(ms, es, m1, Begin, m2);
    m := m2;
  }

  lemma Recommenced(ms: seq<Machine>, es: seq<Event>, m: Machine, volume: real)
      returns (ms': seq<Machine>, es': seq<Event>, t: Machine)
    requires Reaches(ms, es, m) && Left(m, volume)
    ensures Reaches(ms', es', t) && Visitable(t, volume) && t.session == m.session && t.log == m.log
    ensures t.orders == m.orders
  {
    var stored, begun := NextVisit(m, volume);
    ms', es' := Onward(ms, es, m, Commit, stored);
    ms', es' := Onward(ms', es', stored, Begin, begun);
    t := begun;
  }

  // ----- Visits -----

  function StagedKey(volume: real, price: real): Key { KeyOf(0, StagedClose(volume, price), 0) }

  // The action a staged close finds or creates.
  function StagedAction(db: Db, volume: real, price: real, status: Status): ActionRow
  {
    PersistedAction(db, StagedKey(volume, price), StagedClose(volume, price), status)
  }

  lemma StagedDecision(m: Machine, v: Visit, volume: real)
    requires Visitable(m, volume) && Staged(v.price) && v == VisitAt(v.price, TIRED, v.submission).(gate := v.gate)
    requires v.gate == GATE || v.gate == SHADOW
    requires (0, StageAt(v.price)) !in m.session.stages
    ensures SyncedRow(TheWorld(), m, v).Some?
    ensures var d := Decide(TheWorld(), m, v);
      && Tiring(d.row, volume, v.price)
      && d.action == StagedAction(m.session, volume, v.price, if v.gate == GATE then Chosen else ShadowSelected)
  {
    SyncedTiring(m, v, volume);
    var row, done := SyncedRow(TheWorld(), m, v).value, DoneStages(m.session, 0);
    assert PriceOf(Reported(m, v)) == v.price;
    StagedChoice(row, volume, v.price, done);
  }

  lemma StagedVisit(m: Machine, volume: real, price: real, lots: nat, filled: real) returns (t: Machine, d: Decision)
    requires Visitable(m, volume) && Staged(price) && (0, StageAt(price)) !in m.session.stages && 0.0 <= filled < volume
    requires var a := StagedAction(m.session, volume, price, Chosen);
      OpenAction(a) && a.key == StagedKey(volume, price) && a.key !in m.orders
    requires var asked := Times(volume, StageFraction(StageAt(price), CONFIG));
      1 <= lots <= 100 && lots as real <= asked < lots as real + 1.0 && filled <= lots as real
    ensures Steps(TheWorld(), m, Handle(VisitAt(price, TIRED, Answered(true, filled))), t) && Closes(m, t, d, filled)
    ensures d.action == StagedAction(m.session, volume, price, Chosen) && Tiring(d.row, volume, price)
  {
    var v := VisitAt(price, TIRED, Answered(true, filled));
    StagedDecision(m, v, volume);
    d := Decide(TheWorld(), m, v);
    LotsRequested(d, Times(volume, StageFraction(StageAt(price), CONFIG)), lots);
    AcceptedClose(m, v, d, CloseRequest(lots as real), filled);
    t := Act(TheWorld(), m, v, d);
  }

  const SHADOWED := VisitAt(165.0, TIRED, ClientNotReady).(gate := SHADOW)

  // A visit in shadow mode stores the action and leaves it alone.
  lemma ShadowVisit(m: Machine, volume: real) returns (t: Machine)
    requires Visitable(m, volume) && (0, Stage1) !in m.session.stages && StagedKey(volume, 165.0) !in m.session.actions
    ensures Steps(TheWorld(), m, Handle(SHADOWED), t)
    ensures var a := ActionRow(StagedKey(volume, 165.0), Some(Stage1), ShadowSelected, false);
      && t.session.actions == m.session.actions[a.key := a] && t.session.stages == m.session.stages
      && 0 in t.session.positions && t.session.positions[0].maxR <= 6.5 && t.session.positions[0].maxTpProgress <= 0.65
      && t.broker == m.broker && t.breaker == m.breaker && t.orders == m.orders && t.log == m.log
  {
    StagedDecision(m, SHADOWED, volume);
    SyncedNumbers(165.0);
    assert RAt(165.0) == 6.5 && ProgressAt(165.0) == 0.65;
    t := HandleVisit(TheWorld(), m, SHADOWED);
  }

  function Reduction(filled: real): Visit { VisitAt(165.0, EVENTFUL, Answered(true, filled)) }

  lemma EventVisit(m: Machine, volume: real, lots: nat, filled: real) returns (t: Machine, d: Decision)
    requires Visitable(m, volume) && 0.0 <= filled < volume
    requires var k := KeyOf(0, EventClose(volume), 0); k !in m.session.actions && k !in m.orders
    requires 1 <= lots <= 100 && lots as real <= Times(volume, 0.25) < lots as real + 1.0 && filled <= lots as real
    ensures Steps(TheWorld(), m, Handle(Reduction(filled)), t) && Closes(m, t, d, filled)
    ensures d.action.key == KeyOf(0, EventClose(volume), 0) && Tiring(d.row, volume, 165.0)
  {
    var v := Reduction(filled);
    SyncedTiring(m, v, volume);
    var row := SyncedRow(TheWorld(), m, v).value;
    assert PriceOf(Reported(m, v)) == 165.0;
    EventChoice(row, volume, 165.0, DoneStages(m.session, 0));
    d := Decide(TheWorld(), m, v);
    LotsRequested(d, Times(volume, 0.25), lots);
    AcceptedClose(m, v, d, CloseRequest(lots as real), filled);
    t := Act(TheWorld(), m, v, d);
  }

  lemma FirstZone()
    ensures Staged(165.0) && RAt(165.0) == 6.5 && ProgressAt(165.0) == 0.65
  {
  }

  lemma CloseLeaves(m: Machine, t: Machine, d: Decision, volume: real, filled: real)
    requires Visitable(m, volume) && Closes(m, t, d, filled) && Tiring(d.row, volume, 165.0)
    ensures Left(t, volume - filled)
  {
    FirstZone();
  }

  // ----- A stage closed in the first cycle and again in the next -----

  const FIRSTCLOSE := VisitAt(165.0, TIRED, Answered(true, 2.0))

  ghost predicate ClosedUnknown(t: Machine)
  {
    && t.orders.Keys == t.session.actions.Keys == {StagedKey(8.0, 165.0)}
    && t.session.stages == {} && t.log.protections == [Protection(0, Stage1, false)]
  }

  lemma FirstClose(m: Machine) returns (t: Machine)
    requires Visitable(m, 8.0) && FreshCycle(m, Held(8.0)) && m.orders == map[] && m.log.protections == []
    ensures Steps(TheWorld(), m, Handle(FIRSTCLOSE), t) && Left(t, 6.0) && ClosedUnknown(t)
  {
    var d;
    t, d := StagedVisit(m, 8.0, 165.0, 2, 2.0);
    CloseLeaves(m, t, d, 8.0, 2.0);
  }

  const SECONDCLOSE := VisitAt(165.0, TIRED, Answered(true, 1.0))

  lemma SecondClose(m: Machine) returns (t: Machine)
    requires Visitable(m, 6.0) && ClosedUnknown(m) && 0 in m.session.positions
    ensures Steps(TheWorld(), m, Handle(SECONDCLOSE), t)
    ensures t.log.protections == m.log.protections + [Protection(0, Stage1, true)]
  {
    assert StagedKey(6.0, 165.0).volume == Some(1.5) && StagedKey(8.0, 165.0).volume == Some(2.0);
    var d;
    t, d := StagedVisit(m, 6.0, 165.0, 1, 1.0);
  }

  // The cycle that first sees a position leaves no stage row, so the next cycle closes the same stage again.
  lemma FirstCloseLeavesStageOpen() returns (ms: seq<Machine>, es: seq<Event>)
    ensures IsRun(TheWorld(), ms, es) && NoAborts(es) && ms[0] == START
    ensures ms[|es|].log.protections == [Protection(0, Stage1, false), Protection(0, Stage1, true)]
  {
    var m;
    ms, es, m := Arrival(8.0);
    var closed := FirstClose(m);
    ms, es := Onward(ms, es, m, Handle(FIRSTCLOSE), closed);
    ms, es, m := Recommenced(ms, es, closed, 6.0);
    var again := SecondClose(m);
    ms, es := Onward(ms, es, m, Handle(SECONDCLOSE), again);
  }

  // ----- A stage closed again through a stored action of another stage -----

  // The action left by a visit in shadow mode: a quarter of 6, which is also three tenths of 5.
  const LEFTOVER := ActionRow(Key(0, TpProgressPartialProtect, Some(1.5), None, None, 0),
    Some(Stage1), ShadowSelected, false)

  ghost predicate Waiting(m: Machine)
  {
    LEFTOVER.key !in m.orders && LEFTOVER.key in m.session.actions && m.session.actions[LEFTOVER.key] == LEFTOVER
  }

  ghost predicate Unstaged(m: Machine) { m.session.stages == {} && m.log.protections == [] }

  ghost predicate OnceStaged(m: Machine)
  {
    m.session.stages == {(0, Stage1)} && m.log.protections == [Protection(0, Stage1, true)]
  }

  lemma Shadowed(m: Machine) returns (t: Machine)
    requires Visitable(m, 6.0) && FreshCycle(m, Held(6.0)) && m.orders == map[] && m.log.protections == []
    ensures Steps(TheWorld(), m, Handle(SHADOWED), t) && Left(t, 6.0) && Unstaged(t)
    ensures t.orders == map[] && t.session.actions == map[LEFTOVER.key := LEFTOVER]
  {
    assert StagedKey(6.0, 165.0).volume == Some(1.5);
    t := ShadowVisit(m, 6.0);
  }

  const SMALLCLOSE := Key(0, TpProgressPartialProtect, Some(1.25), None, None, 0)

  const REDUCTIONKEY := Key(0, EventRiskReduction, Some(1.5), None, None, 0)

  lemma ReductionKeeps(m: Machine, t: Machine, d: Decision, filled: real)
    requires 0 in m.broker && Closes(m, t, d, filled) && Unstaged(m) && d.action.key == REDUCTIONKEY
    requires m.orders == map[] && m.session.actions == map[LEFTOVER.key := LEFTOVER]
    ensures Unstaged(t) && Waiting(t) && SMALLCLOSE !in t.orders && SMALLCLOSE !in t.session.actions
  {
  }

  lemma Reduced(m: Machine) returns (t: Machine)
    requires Visitable(m, 6.0) && Unstaged(m) && m.orders == map[] && m.session.actions == map[LEFTOVER.key := LEFTOVER]
    ensures Steps(TheWorld(), m, Handle(Reduction(1.0)), t) && Left(t, 5.0) && Unstaged(t) && Waiting(t)
    ensures SMALLCLOSE !in t.orders && SMALLCLOSE !in t.session.actions
  {
    var d;
    t, d := EventVisit(m, 6.0, 1, 1.0);
    CloseLeaves(m, t, d, 6.0, 1.0);
    ReductionKeeps(m, t, d, 1.0);
  }

  const UNFILLED := VisitAt(165.0, TIRED, Answered(true, 0.0))

  lemma CloseMarksOnce(m: Machine, t: Machine, d: Decision, filled: real)
    requires 0 in m.broker && Closes(m, t, d, filled) && 0 in m.committed.positions && Unstaged(m) && Waiting(m)
    requires d.action == ActionRow(SMALLCLOSE, Some(Stage1), Chosen, false)
    ensures OnceStaged(t) && Waiting(t)
  {
  }

  lemma OnceClosed(m: Machine) returns (t: Machine)
    requires Visitable(m, 5.0) && Unstaged(m) && Waiting(m) && 0 in m.session.positions
    requires SMALLCLOSE !in m.orders && SMALLCLOSE !in m.session.actions
    ensures Steps(TheWorld(), m, Handle(UNFILLED), t) && Left(t, 5.0) && OnceStaged(t) && Waiting(t)
  {
    assert StagedKey(5.0, 165.0) == SMALLCLOSE;
    var d;
    t, d := StagedVisit(m, 5.0, 165.0, 1, 0.0);
    CloseLeaves(m, t, d, 5.0, 0.0);
    CloseMarksOnce(m, t, d, 0.0);
  }

  const LATERSTAGE := VisitAt(190.0, TIRED, Answered(true, 0.0))

  lemma ClosedThroughLeftover(m: Machine) returns (t: Machine)
    requires Visitable(m, 5.0) && OnceStaged(m) && Waiting(m) && 0 in m.session.positions
    ensures Steps(TheWorld(), m, Handle(LATERSTAGE), t)
    ensures t.log.protections == [Protection(0, Stage1, true), Protection(0, Stage1, true)]
  {
    assert StagedKey(5.0, 190.0) == LEFTOVER.key;
    var d;
    t, d := StagedVisit(m, 5.0, 190.0, 1, 0.0);
  }

  lemma TwiceIsNotOnce(ps: seq<Protection>, p: Protection, stages: set<(Pid, Stage)>)
    requires ps == [p, p] && p.known
    ensures !OncePerStage(ps, stages)
  {
    assert ps[0] == ps[1];
  }

  // Four cycles within a minute: an action stored in shadow mode for the first stage is found again by the key of a
  // close for the second stage, of the same volume, and closes the first stage of a stored position a second time.
  lemma SharedKeyRepeatsStage() returns (ms: seq<Machine>, es: seq<Event>)
    ensures IsRun(TheWorld(), ms, es) && NoAborts(es) && ms[0] == START
    ensures ms[|es|].log.protections == [Protection(0, Stage1, true), Protection(0, Stage1, true)]
    ensures !ProtectedOnce(ms[|es|])
  {
    var m;
    ms, es, m := Arrival(6.0);
    var shadowed := Shadowed(m);
    ms, es := Onward(ms, es, m, Handle(SHADOWED), shadowed);
    ms, es, m := Recommenced(ms, es, shadowed, 6.0);
    var reduced := Reduced(m);
    ms, es := Onward(ms, es, m, Handle(Reduction(1.0)), reduced);
    ms, es, m := Recommenced(ms, es, reduced, 5.0);
    var once := OnceClosed(m);
    ms, es := Onward(ms, es, m, Handle(UNFILLED), once);
    ms, es, m := Recommenced(ms, es, once, 5.0);
    var twice := ClosedThroughLeftover(m);
    ms, es := Onward(ms, es, m, Handle(LATERSTAGE), twice);
    TwiceIsNotOnce(twice.log.protections, Protection(0, Stage1, true), twice.session.stages);
  }
}
