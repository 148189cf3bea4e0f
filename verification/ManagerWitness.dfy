/** Concrete runs of the adaptive manager that show why the hypotheses of its whole-run results are needed. */
module ManagerWitness {
  import opened Common
  import opened TpProtection
  import TradePath
  import opened ManagerRules
  import opened ManagerRun
  import opened ManagerSafety

  const SPEC := SymbolSpec(1.0, 1.0, 100.0, 1)

  const CONFIG := Config(M5, 0.0, 0.0, 1.0, 0.0, 1000.0, 0.25, 1000.0, 0.25,
    0.30, 0.5, 24, StopRules(0.3, 1.5, 2.0), 10000.0, 120, 3)

  function TheWorld(): World { World(CONFIG, (symbol: string) => SPEC) }

  const GATE := Gate(true, Some({}), false, true)

  const QUIET := Market(Ranging, None, 0, false, 0, None, None, false, Allow)

  const OPENED := Position("X", Long, 1.0, 100.0, 100.0, Some(90.0), Some(200.0), None)

  function VisitAt(price: real, market: Market, s: Submission): Visit
  {
    Visit(0, price, market, GATE, true, false, 0, 0, 0, true, s)
  }

  // ----- A key submitted twice -----

  const BROKEN := VisitAt(95.0, QUIET.(opposing := 2), SendRaised(false, 0.0))

  const CLOSE := Candidate(ThesisInvalidationClose, 10, Some(1.0), None, None, None)

  const CLOSE_KEY := Key(0, ThesisInvalidationClose, Some(1.0), None, None, 0)

  lemma InvalidationFires(row: PositionRow)
    requires row.side == Long && row.entry == 100.0 && row.currentSl == Some(90.0) && row.currentVolume == 1.0
    ensures InvalidationRule(row, SituationOf(row, 95.0, BROKEN.market, CONFIG, 0), BROKEN.market) == Some(CLOSE)
  {
    assert RiskNow(row) == 10.0;
    assert Ratio(-5.0, 10.0) == -0.5;
  }

  // A cycle that sees its only position for the first time.
  ghost predicate FreshCycle(m: Machine, p: Position)
  {
    m.broker == m.listed == map[0 := p] && m.session == EMPTY_DB == m.committed && !m.view.open
  }

  lemma BrokenDecision(m: Machine)
    requires FreshCycle(m, OPENED)
    ensures SyncedRow(TheWorld(), m, BROKEN).Some?
    ensures var d := Decide(TheWorld(), m, BROKEN);
      && d.action == ActionRow(CLOSE_KEY, None, Chosen, false) && d.row.managed && d.row.symbol == "X"
      && d.row.currentVolume == 1.0
  {
    var row, rules := SyncedRow(TheWorld(), m, BROKEN).value,
      Rules(SyncedRow(TheWorld(), m, BROKEN).value, 95.0, BROKEN.market, CONFIG, {}, 0);
    assert DoneStages(m.session, 0) == {};
    InvalidationFires(row);
    assert rules[0] == Some(CLOSE);
    RulesArePrioritized(row, 95.0, BROKEN.market, CONFIG, {}, 0);
    SelectMostUrgent(row, rules, 0);
    assert PriceOf(Reported(m, BROKEN)) == 95.0;
  }

  lemma CloseRequested(d: Decision)
    requires d.action.key == CLOSE_KEY && d.row.symbol == "X"
    ensures RequestOf(TheWorld(), d) == Some(CloseRequest(1.0))
  {
    assert 1.0 / 1.0 == 1.0;
    assert FloorTo(1.0, 1.0) == 1.0;
  }

  // What one such visit does outside the session.
  ghost predicate FailedOnce(m: Machine, t: Machine)
  {
    && t.log.submits == m.log.submits + [CLOSE_KEY] && t.broker == m.broker && t.committed == m.committed
    && t.breaker == CountFailure(m.breaker, 3) && !OkOf(t.orders, CLOSE_KEY)
  }

  lemma BrokenCarry(m: Machine, d: Decision)
    requires d.action == ActionRow(CLOSE_KEY, None, Chosen, false)
    requires RequestOf(TheWorld(), d) == Some(CloseRequest(1.0)) && !OkOf(m.orders, CLOSE_KEY)
    ensures FailedOnce(m, Carry(TheWorld(), m, BROKEN, d))
  {
    var reply := Submit(m.orders, CLOSE_KEY, BROKEN.submission);
    assert reply.ok != Some(true) && !OkOf(reply.orders, CLOSE_KEY) && !TakesEffect(BROKEN.submission, reply);
  }

  lemma BrokenAct(m: Machine, d: Decision)
    requires !m.view.open && d.action == ActionRow(CLOSE_KEY, None, Chosen, false) && d.row.managed
    requires d.row.symbol == "X"
    requires !OkOf(m.orders, CLOSE_KEY)
    ensures FailedOnce(m, Act(TheWorld(), m, BROKEN, d))
  {
    CloseRequested(d);
    assert CanExecute(d.action, d.row, GATE, m.view);
    BrokenCarry(Noted(m, 0, d), d);
  }

  lemma BrokenVisit(m: Machine) returns (t: Machine)
    requires FreshCycle(m, OPENED) && !OkOf(m.orders, CLOSE_KEY)
    ensures Steps(TheWorld(), m, Handle(BROKEN), t) && FailedOnce(m, t)
  {
    BrokenDecision(m);
    CloseRequested(Decide(TheWorld(), m, BROKEN));
    BrokenAct(m, Decide(TheWorld(), m, BROKEN));
    t := HandleVisit(TheWorld(), m, BROKEN);
  }

  lemma Restart(m: Machine) returns (rolledBack: Machine, t: Machine)
    requires m.broker == map[0 := OPENED] && m.committed == EMPTY_DB && !m.breaker.open
    ensures Steps(TheWorld(), m, Abort, rolledBack) && Steps(TheWorld(), rolledBack, Begin, t)
    ensures FreshCycle(t, OPENED) && t.log == m.log && t.orders == m.orders
  {
    rolledBack := m.(session := m.committed, listed := map[]);
    t := rolledBack.(view := m.breaker, listed := m.broker);
  }

  lemma FirstCycle(p: Position) returns (arrived: Machine, t: Machine)
    requires p.volume > 0.0
    ensures Steps(TheWorld(), START, Open(0, p), arrived) && Steps(TheWorld(), arrived, Begin, t)
    ensures FreshCycle(t, p) && t.orders == map[] && t.breaker == START.breaker
    ensures t.log.submits == [] && t.log.moves == [] && t.log.protections == []
  {
    arrived := Apply(TheWorld(), START, Open(0, p));
    t := Apply(TheWorld(), arrived, Begin);
  }

  // A run from the empty store that ends in m.
  ghost predicate RunTo(ms: seq<Machine>, es: seq<Event>, m: Machine)
  {
    IsRun(TheWorld(), ms, es) && ms[0] == START && ms[|es|] == m
  }

  ghost predicate NoAborts(es: seq<Event>) { forall i :: 0 <= i < |es| ==> !es[i].Abort? }

  lemma Onward(ms: seq<Machine>, es: seq<Event>, m: Machine, e: Event, n: Machine)
      returns (ms': seq<Machine>, es': seq<Event>)
    requires RunTo(ms, es, m) && Steps(TheWorld(), m, e, n)
    ensures RunTo(ms', es', n) && (NoAborts(es) && !e.Abort? ==> NoAborts(es'))
  {
    ms', es' := ms + [n], es + [e];
    forall i | 0 <= i < |es'| ensures Steps(TheWorld(), ms'[i], es'[i], ms'[i + 1]) {
      if i < |es| { assert ms'[i] == ms[i] && es'[i] == es[i] && ms'[i + 1] == ms[i + 1]; }
    }
  }

  lemma FailedCycle() returns (ms: seq<Machine>, es: seq<Event>, t: Machine)
    ensures RunTo(ms, es, t) && t.log.submits == [CLOSE_KEY]
    ensures t.broker == map[0 := OPENED] && t.committed == EMPTY_DB && !t.breaker.open && !OkOf(t.orders, CLOSE_KEY)
  {
    var arrived, begun := FirstCycle(OPENED);
    t := BrokenVisit(begun);
    ms, es := Onward([START], [], START, Open(0, OPENED), arrived);
    ms, es := Onward(ms, es, arrived, Begin, begun);
    ms, es := Onward(ms, es, begun, Handle(BROKEN), t);
  }

  // The second cycle, in the same minute, submits the key again.
  lemma RestartedCycle(ms: seq<Machine>, es: seq<Event>, m: Machine)
      returns (ms': seq<Machine>, es': seq<Event>, t: Machine)
    requires RunTo(ms, es, m)
    requires m.broker == map[0 := OPENED] && m.committed == EMPTY_DB && !m.breaker.open && !OkOf(m.orders, CLOSE_KEY)
    ensures RunTo(ms', es', t) && t.log.submits == m.log.submits + [CLOSE_KEY]
  {
    var rolledBack, begun := Restart(m);
    t := BrokenVisit(begun);
    ms', es' := Onward(ms, es, m, Abort, rolledBack);
    ms', es' := Onward(ms', es', rolledBack, Begin, begun);
    ms', es' := Onward(ms', es', begun, Handle(BROKEN), t);
  }

  // A cycle that submits and then rolls back, in a minute in which the next cycle decides the same.
  lemma SubmissionRepeatsAfterRollback() returns (ms: seq<Machine>, es: seq<Event>)
    ensures IsRun(TheWorld(), ms, es) && ms[0] == START && !Distinct(ms[|es|].log.submits)
  {
    var failed, again;
    ms, es, failed := FailedCycle();
    ms, es, again := RestartedCycle(ms, es, failed);
    TwiceIsNotDistinct(again.log.submits, CLOSE_KEY);
  }

  lemma TwiceIsNotDistinct(ks: seq<Key>, k: Key)
    requires ks == [k, k]
    ensures !Distinct(ks)
  {
    assert ks[0] == ks[1];
  }

  // ----- Two stop moves in the same second -----

  const FIRST := VisitAt(101.0, QUIET, Answered(true, 0.0))

  const SECOND := VisitAt(110.0, QUIET, Answered(true, 0.0))

  const MOVED := OPENED.(sl := Some(101.0), tp := Some(200.0))

  // Nothing but a stop move can apply to such a row.
  ghost predicate Calm(row: PositionRow, sl: real)
  {
    && row.symbol == "X" && row.side == Long && row.entry == 100.0 && row.currentSl == Some(sl)
    && row.currentTp == Some(200.0)
    && row.winner == UnknownWinner && row.managed && row.openedAt == None && row.lastManagementAt == None
    && 0.0 <= row.tpProgress < 0.60 && row.maxTpProgress < 0.80 && row.maxR < 1000.0
  }

  lemma CalmRules(row: PositionRow, price: real, s: Situation, sl: real)
    requires Calm(row, sl) && 0.0 <= s.r < 1000.0
    ensures InvalidationRule(row, s, QUIET) == None && EventRule(row, s, QUIET) == None
    ensures ReduceRule(row, s, QUIET) == None
    ensures LockRule(row, s, QUIET) == None && GivebackRule(row, s, QUIET, CONFIG) == None
    ensures StageRule(row, CONFIG, {}) == None
    ensures PartialRule(row, s, CONFIG) == None && StructureRule(row, price, s, QUIET, CONFIG) == None
  {
  }

  const BREAKEVEN := Candidate(MoveSlBreakeven, 50, None, Some(101.0), Some(200.0), None)

  lemma BreakevenFires(row: PositionRow, s: Situation)
    requires Calm(row, 90.0) && s.cooldownOk && !s.manageOnly && s.r >= 0.0 && s.atrR == 0.0
    ensures BreakevenRule(row, s, QUIET, CONFIG) == Some(BREAKEVEN)
  {
    assert BreakevenPrice(row, CONFIG) == 101.0;
  }

  lemma TrailFires(row: PositionRow, s: Situation)
    requires Calm(row, 101.0) && s.cooldownOk && !s.manageOnly && s.r >= 0.0 && s.atrR == 0.0
    ensures BreakevenRule(row, s, QUIET, CONFIG) == None
    ensures var rule := TrailRule(row, 110.0, s, QUIET, CONFIG); rule.Some? && rule.value.action == TrailStop
  {
    assert BreakevenPrice(row, CONFIG) == 101.0;
    var fraction := Allowance(s.atrR, Ranging, M5, 0.2, 0.5);
    assert 0.2 <= fraction <= 0.5;
    assert Times(1.0, fraction) == fraction;
  }

  lemma SituationIsCalm(row: PositionRow, price: real, sl: real, risk: real)
    requires Calm(row, sl) && price >= 100.0 && ((sl == 90.0 && risk == 10.0) || (sl == 101.0 && risk == 1.0))
    requires price <= 110.0
    ensures var s := SituationOf(row, price, QUIET, CONFIG, 0);
      s.cooldownOk && !s.manageOnly && 0.0 <= s.r < 1000.0 && s.atrR == 0.0
  {
    assert RiskNow(row) == risk;
    RatioNonNegative(price - 100.0, risk);
    assert Ratio(price - 100.0, risk) * risk == price - 100.0;
  }

  lemma FirstChoice(row: PositionRow)
    requires Calm(row, 90.0)
    ensures Select(Evaluate(row, 101.0, QUIET, CONFIG, {}, 0)) == BREAKEVEN
  {
    var s, rules := SituationOf(row, 101.0, QUIET, CONFIG, 0), Rules(row, 101.0, QUIET, CONFIG, {}, 0);
    SituationIsCalm(row, 101.0, 90.0, 10.0);
    CalmRules(row, 101.0, s, 90.0);
    BreakevenFires(row, s);
    RulesArePrioritized(row, 101.0, QUIET, CONFIG, {}, 0);
    SelectMostUrgent(row, rules, 9);
  }

  lemma SecondChoice(row: PositionRow)
    requires Calm(row, 101.0)
    ensures Select(Evaluate(row, 110.0, QUIET, CONFIG, {}, 0)).action == TrailStop
  {
    var s, rules := SituationOf(row, 110.0, QUIET, CONFIG, 0), Rules(row, 110.0, QUIET, CONFIG, {}, 0);
    SituationIsCalm(row, 110.0, 101.0, 1.0);
    CalmRules(row, 110.0, s, 101.0);
    TrailFires(row, s);
    RulesArePrioritized(row, 110.0, QUIET, CONFIG, {}, 0);
    SelectMostUrgent(row, rules, 10);
  }

  const BREAKEVEN_KEY := Key(0, MoveSlBreakeven, None, Some(101.0), Some(200.0), 0)

  lemma RoundsTo(price: real, n: int)
    requires price * 10.0 == n as real
    ensures RoundPrice(price, SPEC) == price
  {
    assert Pow10(1) == 10.0 * Pow10(0);
    assert Times(price, 10.0) == n as real;
    RoundIntOfInteger(n);
    assert Ratio(n as real, 10.0) * 10.0 == n as real;
  }

  lemma FirstRow(m: Machine)
    requires FreshCycle(m, OPENED)
    ensures var row := SyncedRow(TheWorld(), m, FIRST);
      row.Some? && Calm(row.value, 90.0) && row.value.maxR <= 1.0 && row.value.maxTpProgress <= 0.5
  {
    assert Ratio(1.0, 10.0) == 0.1;
  }

  lemma FirstDecision(m: Machine)
    requires FreshCycle(m, OPENED)
    ensures var w := TheWorld(); SyncedRow(w, m, FIRST).Some? && Decide(w, m, FIRST).row == SyncedRow(w, m, FIRST).value
    ensures Decide(TheWorld(), m, FIRST).action == ActionRow(BREAKEVEN_KEY, None, Chosen, false)
  {
    FirstRow(m);
    assert DoneStages(m.session, 0) == {};
    assert PriceOf(Reported(m, FIRST)) == 101.0;
    FirstChoice(SyncedRow(TheWorld(), m, FIRST).value);
  }

  // What an accepted stop move by a visit that nothing blocks leaves behind.
  ghost predicate Moves(m: Machine, t: Machine, d: Decision, q: Request)
    requires 0 in m.broker
  {
    && t.log.moves == m.log.moves + [StopMove(0, 0, 0 in m.committed.positions)]
    && t.broker == AfterRequest(m.broker, 0, q, 0.0) && t.committed == m.committed && t.view == m.view
    && t.breaker == m.breaker
    && t.orders.Keys == m.orders.Keys + {d.action.key}
    && t.session.stages == m.session.stages && t.session.actions.Keys == m.session.actions.Keys + {d.action.key}
  }

  ghost predicate PlainMove(d: Decision)
  {
    d.action == ActionRow(d.action.key, None, Chosen, false) && IsStopMove(d.action.key.action) && d.row.managed
  }

  lemma CarriedMove(m: Machine, v: Visit, d: Decision, q: Request)
    requires 0 in m.broker && v == VisitAt(v.price, QUIET, Answered(true, 0.0)) && 0 in m.session.positions
    requires PlainMove(d) && d.action.key !in m.orders && RequestOf(TheWorld(), d) == Some(q)
    ensures Moves(m, Carry(TheWorld(), m, v, d), d, q)
    ensures 0 !in m.committed.positions ==> Carry(TheWorld(), m, v, d).session.positions == m.session.positions
  {
  }

  lemma AcceptedMove(m: Machine, v: Visit, d: Decision, q: Request)
    requires 0 in m.broker && !m.view.open && v == VisitAt(v.price, QUIET, Answered(true, 0.0))
    requires PlainMove(d) && d.action.key !in m.orders && RequestOf(TheWorld(), d) == Some(q)
    ensures Moves(m, Act(TheWorld(), m, v, d), d, q)
    ensures 0 !in m.committed.positions ==>
      Act(TheWorld(), m, v, d).session.positions == m.session.positions[0 := d.row]
  {
    assert CanExecute(d.action, d.row, GATE, m.view);
    CarriedMove(Noted(m, 0, d), v, d, q);
  }

  lemma FirstRequest(d: Decision)
    requires d.action.key == BREAKEVEN_KEY
    ensures RequestOf(TheWorld(), d) == Some(StopRequest(101.0, 200.0))
  {
    RoundsTo(101.0, 1010);
    RoundsTo(200.0, 2000);
  }

  // What the first cycle leaves: the moved stop, one key, and a row without a management time.
  ghost predicate LeftCalm(t: Machine)
  {
    && !t.breaker.open && t.broker == map[0 := MOVED] && t.session.stages == {}
    && t.orders.Keys == {BREAKEVEN_KEY} == t.session.actions.Keys
    && 0 in t.session.positions && Calm(t.session.positions[0], 90.0) && t.session.positions[0].maxR <= 1.0
  }

  lemma MoveLeavesCalm(m: Machine, t: Machine, d: Decision)
    requires FreshCycle(m, OPENED) && m.orders == map[] && !m.breaker.open && d.action.key == BREAKEVEN_KEY
    requires Calm(d.row, 90.0) && d.row.maxR <= 1.0
    requires Moves(m, t, d, StopRequest(101.0, 200.0)) && t.session.positions == m.session.positions[0 := d.row]
    ensures LeftCalm(t)
  {
  }

  lemma FirstMove(m: Machine) returns (t: Machine)
    requires FreshCycle(m, OPENED) && m.orders == map[] && !m.breaker.open
    ensures Steps(TheWorld(), m, Handle(FIRST), t) && LeftCalm(t)
    ensures t.log.moves == m.log.moves + [StopMove(0, 0, false)]
  {
    FirstRow(m);
    FirstDecision(m);
    var d := Decide(TheWorld(), m, FIRST);
    FirstRequest(d);
    AcceptedMove(m, FIRST, d, StopRequest(101.0, 200.0));
    t := Act(TheWorld(), m, FIRST, d);
    MoveLeavesCalm(m, t, d);
  }

  // The next cycle, in the same second, on what the first one committed.
  ghost predicate MovedCycle(m: Machine)
  {
    LeftCalm(m) && m.listed == m.broker && !m.view.open && m.session == m.committed
  }

  lemma SecondRow(m: Machine)
    requires MovedCycle(m)
    ensures var row := SyncedRow(TheWorld(), m, SECOND); row.Some? && Calm(row.value, 101.0)
  {
    assert Ratio(10.0, 1.0) == 10.0;
  }

  lemma SecondDecision(m: Machine)
    requires MovedCycle(m)
    ensures SyncedRow(TheWorld(), m, SECOND).Some?
    ensures PlainMove(Decide(TheWorld(), m, SECOND)) && Decide(TheWorld(), m, SECOND).action.key.action == TrailStop
  {
    SecondRow(m);
    assert DoneStages(m.session, 0) == {};
    assert PriceOf(Reported(m, SECOND)) == 110.0;
    SecondChoice(SyncedRow(TheWorld(), m, SECOND).value);
    SelectedOk(SyncedRow(TheWorld(), m, SECOND).value, 110.0, QUIET, CONFIG, {}, 0, false);
  }

  lemma SecondMove(m: Machine) returns (t: Machine)
    requires MovedCycle(m)
    ensures Steps(TheWorld(), m, Handle(SECOND), t) && t.log.moves == m.log.moves + [StopMove(0, 0, true)]
  {
    SecondDecision(m);
    var d := Decide(TheWorld(), m, SECOND);
    AcceptedMove(m, SECOND, d, RequestOf(TheWorld(), d).value);
    t := HandleVisit(TheWorld(), m, SECOND);
  }

  lemma NextCycle(m: Machine) returns (stored: Machine, t: Machine)
    requires LeftCalm(m)
    ensures Steps(TheWorld(), m, Commit, stored) && Steps(TheWorld(), stored, Begin, t) && MovedCycle(t)
    ensures t.log == m.log
  {
    stored := m.(committed := m.session, listed := map[]);
    t := stored.(view := m.breaker, listed := m.broker);
  }

  lemma MovingCycle() returns (ms: seq<Machine>, es: seq<Event>, t: Machine)
    ensures RunTo(ms, es, t) && NoAborts(es) && LeftCalm(t) && t.log.moves == [StopMove(0, 0, false)]
  {
    var arrived, begun := FirstCycle(OPENED);
    t := FirstMove(begun);
    ms, es := Onward([START], [], START, Open(0, OPENED), arrived);
    ms, es := Onward(ms, es, arrived, Begin, begun);
    ms, es := Onward(ms, es, begun, Handle(FIRST), t);
  }

  lemma MovingAgain(ms: seq<Machine>, es: seq<Event>, m: Machine)
      returns (ms': seq<Machine>, es': seq<Event>, t: Machine)
    requires RunTo(ms, es, m) && NoAborts(es) && LeftCalm(m)
    ensures RunTo(ms', es', t) && NoAborts(es') && t.log.moves == m.log.moves + [StopMove(0, 0, true)]
  {
    var stored, begun := NextCycle(m);
    t := SecondMove(begun);
    ms', es' := Onward(ms, es, m, Commit, stored);
    ms', es' := Onward(ms', es', stored, Begin, begun);
    ms', es' := Onward(ms', es', begun, Handle(SECOND), t);
  }

  // The cycle that first sees a position leaves no management time, so the next cycle moves its stop again at once.
  lemma FirstMoveLeavesNoCooldown() returns (ms: seq<Machine>, es: seq<Event>)
    ensures IsRun(TheWorld(), ms, es) && ms[0] == START && NoAborts(es)
    ensures ms[|es|].log.moves == [StopMove(0, 0, false), StopMove(0, 0, true)] && TheWorld().cfg.cooldown == 120
  {
    var first, second;
    ms, es, first := MovingCycle();
    ms, es, second := MovingAgain(ms, es, first);
  }
}
