/**
 The adaptive manager in imperative form. Each method updates the fields the service updates and is proved equal to its
 part of the state machine; a whole monitor cycle is then a run of that machine, so every result about runs holds of it.
 */
module ManagerService {
  import opened Common
  import opened TpProtection
  import TradePath
  import opened ManagerRules
  import opened ManagerRun
  import opened ManagerSafety

  // ----- A cycle as a run of the machine -----

  // What a cycle meets in turn: a position to manage, an outside call that raises, or something that happens elsewhere
  // between two positions: one is closed or opened by others, or the breaker is reset, by hand or by an activation.
  datatype Stop = Manage(visit: Visit) | Raise | Elsewhere(event: Event)

  predicate Outside(e: Event) { e.Drop? || e.Open? || e.Reset? || e.Activate? }

  // The positions to be managed are listed, each once.
  ghost predicate Planned(listed: set<Pid>, stops: seq<Stop>)
  {
    && (forall i :: 0 <= i < |stops| && stops[i].Manage? ==> stops[i].visit.pid in listed)
    && (forall i, j :: 0 <= i < j < |stops| && stops[i].Manage? && stops[j].Manage? ==>
      stops[i].visit.pid != stops[j].visit.pid)
    && (forall i :: 0 <= i < |stops| && stops[i].Elsewhere? ==> Outside(stops[i].event))
  }

  lemma PlannedRest(listed: set<Pid>, stops: seq<Stop>)
    requires Planned(listed, stops) && |stops| > 0
    ensures Planned(if stops[0].Manage? then listed - {stops[0].visit.pid} else listed, stops[1..])
  {
  }

  // Whether the cycle ends here with an exception.
  predicate Fails(w: World, m: Machine, stop: Stop)
    requires stop.Manage? ==> stop.visit.pid in m.listed
  {
    stop.Raise? || (stop.Manage? && SyncedRow(w, m, stop.visit) == None)
  }

  function EventOf(stop: Stop): Event
  {
    match stop case Manage(v) => Handle(v) case Raise => Abort case Elsewhere(e) => e
  }

  lemma StaysPlanned(w: World, m: Machine, stops: seq<Stop>)
    requires |stops| > 0 && Planned(m.listed.Keys, stops) && !Fails(w, m, stops[0])
    ensures Planned(Apply(w, m, EventOf(stops[0])).listed.Keys, stops[1..])
  {
    PlannedRest(m.listed.Keys, stops);
    if stops[0].Manage? { ListingShrinks(w, m, stops[0].visit, Decide(w, m, stops[0].visit)); }
  }

  lemma ListingShrinks(w: World, m: Machine, v: Visit, d: Decision)
    ensures Act(w, m, v, d).listed.Keys == m.listed.Keys - {v.pid}
  {
  }

  // The rest of a cycle: handle the positions in order and commit, or roll back at the first exception.
  ghost function Rest(w: World, m: Machine, stops: seq<Stop>): Machine
    requires Planned(m.listed.Keys, stops)
    decreases |stops|
  {
    if |stops| == 0 then Apply(w, m, Commit)
    else if Fails(w, m, stops[0]) then Apply(w, m, Abort)
    else
      StaysPlanned(w, m, stops);
      Rest(w, Apply(w, m, EventOf(stops[0])), stops[1..])
  }

  // Clocks do not run backwards within a visit, fills stay within what was asked, and new positions are new.
  ghost predicate Honest(w: World, m: Machine, stops: seq<Stop>)
    requires Planned(m.listed.Keys, stops)
    decreases |stops|
  {
    |stops| > 0 && !Fails(w, m, stops[0]) ==>
      && Enabled(w, m, EventOf(stops[0]))
      && (StaysPlanned(w, m, stops); Honest(w, Apply(w, m, EventOf(stops[0])), stops[1..]))
  }

  lemma PrependRun(w: World, m: Machine, e: Event, ms: seq<Machine>, es: seq<Event>)
    requires IsRun(w, ms, es) && Steps(w, m, e, ms[0])
    ensures IsRun(w, [m] + ms, [e] + es)
  {
    var ms', es' := [m] + ms, [e] + es;
    forall i | 0 <= i < |es'| ensures Steps(w, ms'[i], es'[i], ms'[i + 1]) {
      if i > 0 { assert ms'[i] == ms[i - 1] && es'[i] == es[i - 1] && ms'[i + 1] == ms[i]; }
    }
  }

  // A run made only of the stops of the cycle, closed by a commit or a rollback.
  ghost predicate CycleEvents(es: seq<Event>, stops: seq<Stop>)
  {
    forall i :: 0 <= i < |es| ==>
      es[i].Commit? || es[i].Abort? || exists j :: 0 <= j < |stops| && es[i] == EventOf(stops[j])
  }

  lemma PrependEvent(es: seq<Event>, stops: seq<Stop>)
    requires |stops| > 0 && CycleEvents(es, stops[1..])
    ensures CycleEvents([EventOf(stops[0])] + es, stops)
  {
    var all := [EventOf(stops[0])] + es;
    forall i | 0 <= i < |all| && !all[i].Commit? && !all[i].Abort?
      ensures exists j :: 0 <= j < |stops| && all[i] == EventOf(stops[j])
    {
      if i > 0 {
        var j :| 0 <= j < |stops[1..]| && es[i - 1] == EventOf(stops[1..][j]);
        assert all[i] == EventOf(stops[j + 1]);
      }
    }
  }

  lemma {:induction false} CycleIsRun(w: World, m: Machine, stops: seq<Stop>) returns (ms: seq<Machine>, es: seq<Event>)
    requires Planned(m.listed.Keys, stops) && Honest(w, m, stops)
    ensures IsRun(w, ms, es) && ms[0] == m && ms[|es|] == Rest(w, m, stops) && CycleEvents(es, stops)
    decreases |stops|
  {
    if |stops| == 0 {
      ms, es := [m, Apply(w, m, Commit)], [Commit];
    } else if Fails(w, m, stops[0]) {
      ms, es := [m, Apply(w, m, Abort)], [Abort];
    } else {
      StaysPlanned(w, m, stops);
      var ms', es' := CycleIsRun(w, Apply(w, m, EventOf(stops[0])), stops[1..]);
      PrependRun(w, m, EventOf(stops[0]), ms', es');
      PrependEvent(es', stops);
      ms, es := [m] + ms', [EventOf(stops[0])] + es';
    }
  }

  // What the results about runs say of one cycle.
  lemma CycleIsSafe(w: World, m: Machine, stops: seq<Stop>)
    requires Planned(m.listed.Keys, stops) && Honest(w, m, stops)
    requires forall i :: 0 <= i < |stops| && stops[i].Elsewhere? ==> OpensGridded(w, stops[i].event)
    requires SendsOnce(m) && RatchetInvariant(w, m) && AllGrew(m.committed.positions, m.session.positions)
    ensures var t := Rest(w, m, stops);
      && SendsOnce(t) && RatchetInvariant(w, t) && AllGrew(m.committed.positions, t.committed.positions)
      && t.session == t.committed
  {
    var ms, es := CycleIsRun(w, m, stops);
    EachKeySentAtMostOnce(w, ms, es);
    EventsOpenGridded(w, es, stops);
    RatchetInvariantHolds(w, ms, es);
    ExtremesOnlyGrow(w, ms, es);
    RestSettles(w, m, stops);
  }

  lemma EventsOpenGridded(w: World, es: seq<Event>, stops: seq<Stop>)
    requires CycleEvents(es, stops) && forall i :: 0 <= i < |stops| && stops[i].Elsewhere? ==>
      OpensGridded(w, stops[i].event)
    ensures forall i :: 0 <= i < |es| ==> OpensGridded(w, es[i])
  {
    forall i | 0 <= i < |es| && es[i].Open? ensures OpensGridded(w, es[i]) {
      var j :| 0 <= j < |stops| && es[i] == EventOf(stops[j]);
      assert stops[j].Elsewhere?;
    }
  }

  lemma {:induction false} RatchetInvariantHolds(w: World, ms: seq<Machine>, es: seq<Event>)
    requires IsRun(w, ms, es) && RatchetInvariant(w, ms[0]) && forall i :: 0 <= i < |es| ==> OpensGridded(w, es[i])
    ensures RatchetInvariant(w, ms[|es|])
  {
    if |es| > 0 {
      RatchetInvariantHolds(w, ms[..|es|], es[..|es| - 1]);
      StepRatchets(w, ms[|es| - 1], es[|es| - 1], ms[|es|]);
    }
  }

  // However it ends, a cycle leaves the session and the store in agreement.
  lemma {:induction false} RestSettles(w: World, m: Machine, stops: seq<Stop>)
    requires Planned(m.listed.Keys, stops)
    ensures Rest(w, m, stops).session == Rest(w, m, stops).committed
    decreases |stops|
  {
    if |stops| > 0 && !Fails(w, m, stops[0]) {
      StaysPlanned(w, m, stops);
      RestSettles(w, Apply(w, m, EventOf(stops[0])), stops[1..]);
    }
  }

  lemma RestAfterStop(w: World, m: Machine, stops: seq<Stop>, i: nat)
    requires i < |stops| && Planned(m.listed.Keys, stops[i..]) && !Fails(w, m, stops[i])
    ensures Planned(Apply(w, m, EventOf(stops[i])).listed.Keys, stops[i + 1..])
    ensures Rest(w, m, stops[i..]) == Rest(w, Apply(w, m, EventOf(stops[i])), stops[i + 1..])
  {
    assert stops[i..][0] == stops[i] && stops[i..][1..] == stops[i + 1..];
    StaysPlanned(w, m, stops[i..]);
  }

  lemma RestAfterException(w: World, m: Machine, stops: seq<Stop>, i: nat)
    requires i < |stops| && Planned(m.listed.Keys, stops[i..]) && Fails(w, m, stops[i])
    ensures Rest(w, m, stops[i..]) == m.(session := m.committed, listed := map[])
  {
  }

  // ----- The service -----

  class AdaptiveManager {
    const world: World
    var committed: Db
    var session: Db
    var view: Breaker
    var breaker: Breaker
    var orders: map<Key, OrderRow>
    var broker: map<Pid, Position>
    var listed: map<Pid, Position>
    ghost var log: Log

    constructor (world: World)
      ensures this.world == world && View() == START && Valid()
    {
      this.world := world;
      committed, session, view, breaker := EMPTY_DB, EMPTY_DB, Breaker(false, NoReason, 0), Breaker(false, NoReason, 0);
      orders, broker, listed, log := map[], map[], map[], Log([], [], [], [], [], map[]);
    }

    ghost function View(): Machine
      reads this
    {
      Machine(committed, session, view, breaker, orders, broker, listed, log)
    }

    ghost predicate Valid()
      reads this
    {
      KeysConsistent(session) && KeysConsistent(committed)
    }

    // ----- Breaker -----

    method RecordActionFailure()
      modifies `breaker
      ensures breaker == CountFailure(old(breaker), world.cfg.failureLimit)
    {
      breaker := breaker.(failed := breaker.failed + 1, reason := ActionFailed);
      if breaker.failed >= world.cfg.failureLimit { breaker := breaker.(open := true); }
    }

    method OpenBreaker()
      modifies `breaker
      ensures View() == Apply(world, old(View()), Outage)
    {
      breaker := breaker.(open := true, reason := BrokerNotReady);
    }

    method ResetCircuitBreaker()
      modifies `breaker
      ensures View() == Apply(world, old(View()), Reset)
    {
      breaker := breaker.(open := false, reason := ManualReset, failed := 0);
    }

    // The part of an activation that concerns the breaker.
    method ActivateBreaker()
      modifies `breaker
      ensures View() == Apply(world, old(View()), Activate)
    {
      breaker := breaker.(open := false, reason := NoReason, failed := 0);
    }

    method AutoRecoverBreaker()
      modifies `view, `breaker
      ensures View() == old(View()).(view := AutoRecovery(old(breaker)), breaker := AutoRecovery(old(breaker)))
    {
      view := breaker;
      if !view.open || view.reason != BrokerNotReady { return; }
      view := view.(open := false, reason := AutoRecovered, failed := 0);
      breaker := view;
    }

    // ----- One position -----

    // What the broker reports, the original protections, the extremes, and who manages the position.
    method RefreshRow(stored: PositionRow, p: Position, v: Visit, rNow: real) returns (row: PositionRow)
      ensures row == stored.(
        symbol := p.symbol, side := p.side, openedAt := p.openedAt, currentVolume := p.volume, entry := EntryOf(p),
        originalVolume := if stored.originalVolume != 0.0 then stored.originalVolume else p.volume,
        originalSl := if stored.originalSl.Some? then stored.originalSl else p.sl,
        originalTp := if stored.originalTp.Some? then stored.originalTp else p.tp,
        currentSl := p.sl, currentTp := p.tp, maxR := RMax(stored.maxR, rNow), minR := RMin(stored.minR, rNow),
        adopted := stored.adopted || v.adopted, managed := v.allowed || stored.adopted || v.adopted)
    {
      row := stored.(symbol := p.symbol, side := p.side, openedAt := p.openedAt);
      row := row.(originalVolume := if row.originalVolume != 0.0 then row.originalVolume else p.volume);
      row := row.(currentVolume := p.volume, entry := EntryOf(p));
      row := row.(originalSl := if row.originalSl.Some? then row.originalSl else p.sl, currentSl := p.sl);
      row := row.(originalTp := if row.originalTp.Some? then row.originalTp else p.tp, currentTp := p.tp);
      row := row.(maxR := RMax(row.maxR, rNow), minR := RMin(row.minR, rNow));
      row := row.(adopted := row.adopted || v.adopted);
      row := row.(managed := v.allowed || row.adopted);
    }

    // Progress to the target, giveback from the best R, the winner's class and the profit floor.
    method AssessRow(refreshed: PositionRow, p: Position, k: Market, rNow: real, atrR: real) returns (row: PositionRow)
      ensures var progress := TpProgress(p.side, EntryOf(p), PriceOf(p), p.tp);
        var maxProgress :=
          if progress.Some? && progress.value > refreshed.maxTpProgress then progress.value
          else refreshed.maxTpProgress;
        var giveback := RMax(0.0, refreshed.maxR - rNow);
        var allowance := Times(Allowance(atrR, k.regime, world.cfg.timeframe, 0.15, 0.60), refreshed.maxR);
        var held := if p.openedAt.Some? && k.haveCandles then Some(k.held) else None;
        row == refreshed.(
          tpProgress := if progress.Some? then progress.value else refreshed.tpProgress,
          maxTpProgress := maxProgress,
          giveback := giveback,
          winner := ClassifyWinner(k.opposing, ClassifyRetracement(giveback, allowance), k.regime, p.side, Neutral,
            held),
          floor := ProfitLock(maxProgress, refreshed.maxR, k.regime, atrR).floor)
    {
      row := refreshed;
      var progress := TpProgress(p.side, EntryOf(p), PriceOf(p), p.tp);
      if progress.Some? {
        row := row.(tpProgress := progress.value);
        if progress.value > row.maxTpProgress { row := row.(maxTpProgress := progress.value); }
      }
      row := row.(giveback := RMax(0.0, row.maxR - rNow));
      var allowance := Times(Allowance(atrR, k.regime, world.cfg.timeframe, 0.15, 0.60), row.maxR);
      var held := if p.openedAt.Some? && k.haveCandles then Some(k.held) else None;
      var retracement := ClassifyRetracement(row.giveback, allowance);
      row := row.(winner := ClassifyWinner(k.opposing, retracement, k.regime, p.side, Neutral, held));
      row := row.(floor := ProfitLock(row.maxTpProgress, row.maxR, k.regime, atrR).floor);
    }

    method SyncPositionState(v: Visit) returns (state: Option<PositionRow>)
      requires v.pid in listed
      modifies `session
      ensures state == SyncedRow(world, old(View()), v)
      ensures session == if state.Some? then old(session).(positions := old(session).positions[v.pid := state.value])
        else old(session)
    {
      var p := listed[v.pid].(priceCurrent := v.price);
      var row := if v.pid in session.positions then session.positions[v.pid] else Fresh(p);
      var risk := SyncRisk(p);
      if risk <= 0.0 { return None; }
      var rNow := TradePath.SignedR(p.side, EntryOf(p), PriceOf(p), risk);
      row := RefreshRow(row, p, v, rNow);
      row := AssessRow(row, p, v.market, rNow, AtrR(v.market.atr, risk));
      session := session.(positions := session.positions[v.pid := row]);
      state := Some(row);
    }

    method PersistAction(pid: Pid, managed: bool, choice: Candidate, gate: Gate, at: int) returns (action: ActionRow)
      requires KeysConsistent(session)
      modifies `session
      ensures action == PersistedAction(old(session), KeyOf(pid, choice, at), choice,
        InitialStatus(choice, gate, view, managed))
      ensures session == WithAction(old(session), action)
    {
      var key := KeyOf(pid, choice, at);
      if key in session.actions {
        action := session.actions[key];
        assert session.actions[key := action] == session.actions;
        return;
      }
      action := ActionRow(key, choice.stage, if choice.action != Hold then Chosen else Held, false);
      if !gate.demoActive {
        action := action.(status := ShadowSelected);
      } else if gate.activation == None {
        action := action.(status := ShadowNoActivation);
      } else if view.open {
        action := action.(status := BlockedCircuitOpen);
      } else if !managed {
        action := action.(status := BlockedNotAdopted);
      }
      session := session.(actions := session.actions[key := action]);
    }

    // The execution manager: one order per key, whatever became of it.
    method SubmitRequest(v: Visit, key: Key, q: Request) returns (ok: Option<bool>)
      modifies `orders, `broker, `log
      ensures var reply := Submit(old(orders), key, v.submission);
        var took := TakesEffect(v.submission, reply) && v.pid in old(broker);
        && orders == reply.orders && ok == reply.ok
        && broker == (if took then AfterRequest(old(broker), v.pid, q, FilledBy(v.submission)) else old(broker))
        && log == old(log).(submits := old(log).submits + [key],
          sends := old(log).sends + (if reply.sent then [key] else []),
                            fills := old(log).fills + (if took && q.CloseRequest?
                              then [FillOf(world, old(broker)[v.pid].symbol, v, q)] else []))
    {
      log := log.(submits := log.submits + [key]);
      if v.submission.LiveBlocked? {
        orders := orders[key := OrderRow(RejectedOrder, key in orders && orders[key].ok)];
        return Some(false);
      }
      if key in orders && orders[key].state != PendingOrder { return Some(orders[key].ok); }
      var order := OrderRow(PendingOrder, false);
      orders := orders[key := order];
      if v.submission.PreflightRejected? {
        orders := orders[key := order.(state := RejectedOrder)];
        return Some(false);
      }
      if v.submission.ClientNotReady? { return None; }
      ok := Transmit(v, key, q);
    }

    // From the commit of the submitted state to that of the answer; a raised call leaves the order submitted.
    method Transmit(v: Visit, key: Key, q: Request) returns (ok: Option<bool>)
      requires v.submission.Answered? || v.submission.SendRaised?
      modifies `orders, `broker, `log
      ensures v.submission.SendRaised? ==> ok == None && orders == old(orders)[key := OrderRow(SentOrder, false)]
      ensures v.submission.Answered? ==>
        && ok == Some(v.submission.ok)
        && orders == old(orders)[key :=
             OrderRow(if v.submission.ok then AcceptedOrder else RejectedOrder, v.submission.ok)]
      ensures var took := Took(v.submission) && v.pid in old(broker);
        && broker == (if took then AfterRequest(old(broker), v.pid, q, FilledBy(v.submission)) else old(broker))
        && log == Sent(old(log), key, if took && q.CloseRequest? then [FillOf(world, old(broker)[v.pid].symbol, v, q)]
          else [])
    {
      var order := OrderRow(SentOrder, false);
      orders := orders[key := order];
      OrderSend(v, key, q);
      match v.submission
      case Answered(answer, _) =>
        order := OrderRow(if answer then AcceptedOrder else RejectedOrder, answer);
        orders := orders[key := order];
        ok := Some(answer);
      case _ => ok := None;
    }

    static predicate Took(s: Submission) { (s.Answered? && s.ok) || (s.SendRaised? && s.took) }

    static ghost function Sent(log: Log, key: Key, fills: seq<Fill>): Log
    {
      log.(sends := log.sends + [key], fills := log.fills + fills)
    }

    // The broker's side of a request that reaches it.
    method OrderSend(v: Visit, key: Key, q: Request)
      requires v.submission.Answered? || v.submission.SendRaised?
      modifies `broker, `log
      ensures var took := Took(v.submission) && v.pid in old(broker);
        && broker == (if took then AfterRequest(old(broker), v.pid, q, FilledBy(v.submission)) else old(broker))
        && log == Sent(old(log), key, if took && q.CloseRequest? then [FillOf(world, old(broker)[v.pid].symbol, v, q)]
          else [])
    {
      log := Sent(log, key, []);
      if !Took(v.submission) || v.pid !in broker { return; }
      var p := broker[v.pid];
      match q
      case StopRequest(sl, tp) => broker := broker[v.pid := p.(sl := Some(sl), tp := Some(tp))];
      case CloseRequest(_) =>
        log := log.(fills := log.fills + [FillOf(world, p.symbol, v, q)]);
        p := p.(volume := p.volume - FilledBy(v.submission));
        if p.volume == 0.0 { broker := broker - {v.pid}; } else { broker := broker[v.pid := p]; }
    }

    method ExecuteAction(v: Visit, d: Decision) returns (status: Status, attempted: bool)
      modifies `orders, `broker, `breaker, `log
      ensures !v.ready ==> status == Errored && attempted == d.action.attempted
                           && View() == old(View()).(breaker := CountFailure(old(breaker), world.cfg.failureLimit))
      ensures v.ready && RequestOf(world, d) == None ==>
        status == Noop && attempted == d.action.attempted && View() == old(View())
      ensures v.ready && RequestOf(world, d).Some? ==>
        && status == OutcomeStatus(Submit(old(orders), d.action.key, v.submission).ok) && attempted
        && View() == Effects(world, old(View()), v, d.action.key, RequestOf(world, d).value)
    {
      attempted := d.action.attempted;
      if !v.ready {
        RecordActionFailure();
        return Errored, attempted;
      }
      var q := RequestOf(world, d);
      if q == None { return Noop, attempted; }
      attempted := true;
      var ok := SubmitRequest(v, d.action.key, q.value);
      if ok != Some(true) { RecordActionFailure(); }
      status := OutcomeStatus(ok);
    }

    method PersistResult(v: Visit, action: ActionRow)
      modifies `session, `log
      ensures var settled := old(View()).(session := WithAction(old(session), action));
        View() == if action.status == Submitted then RecordAccepted(settled, v, action, v.pid in committed.positions)
          else settled
    {
      session := session.(actions := session.actions[action.key := action]);
      if action.status != Submitted { return; }
      log := Accepted(log, v, action, v.pid in committed.positions);
      // The lookup sees stored rows only: a row merged in this cycle is not flushed yet.
      if v.pid !in committed.positions { return; }
      if IsStopMove(action.key.action) && v.pid in session.positions {
        var row := session.positions[v.pid].(lastManagementAt := Some(v.recordedAt));
        session := session.(positions := session.positions[v.pid := row]);
      }
      if action.key.action == TpProgressPartialProtect && action.stage.Some? {
        session := session.(stages := session.stages + {(v.pid, action.stage.value)});
      }
    }

    static ghost function Accepted(log: Log, v: Visit, a: ActionRow, known: bool): Log
    {
      log.(moves := log.moves + (if IsStopMove(a.key.action) then [StopMove(v.pid, v.recordedAt, known)] else []),
           protections := log.protections
           + (if a.key.action == TpProgressPartialProtect && a.stage.Some?
             then [Protection(v.pid, a.stage.value, known)] else []))
    }

    method CarryOut(v: Visit, d: Decision)
      modifies `session, `orders, `broker, `breaker, `log
      ensures View() == Carry(world, old(View()), v, d)
    {
      var status, attempted := ExecuteAction(v, d);
      PersistResult(v, d.action.(status := status, attempted := attempted));
    }

    // One position of a cycle. The result is whether it could be synced; if not, nothing has changed.
    method ManagePosition(v: Visit) returns (synced: bool)
      requires Valid() && v.pid in listed
      modifies `session, `orders, `broker, `listed, `breaker, `log
      ensures Valid() && synced == SyncedRow(world, old(View()), v).Some?
      ensures View() == if synced then HandleVisit(world, old(View()), v) else old(View())
    {
      ghost var m := View();
      var state := SyncPositionState(v);
      if state == None { return false; }
      var candidates := Evaluate(state.value, PriceOf(listed[v.pid].(priceCurrent := v.price)), v.market, world.cfg,
        DoneStages(session, v.pid), v.now);
      var choice := Select(candidates);
      var action := PersistAction(v.pid, state.value.managed, choice, v.gate, v.keyedAt);
      var d := Decision(state.value, choice, action);
      listed := listed - {v.pid};
      assert d == Decide(world, m, v) && View() == Noted(m, v.pid, d);
      ActKeepsKeys(world, m, v, d);
      if CanExecute(action, state.value, v.gate, view) { CarryOut(v, d); }
      return true;
    }

    // ----- The cycle -----

    // What happens outside the cycle while it awaits something.
    method Meanwhile(e: Event)
      requires Outside(e)
      modifies `broker, `breaker, `log
      ensures View() == Apply(world, old(View()), e)
    {
      match e
      case Open(pid, p) =>
        broker := broker[pid := p];
        log := log.(volumes := log.volumes[pid := p.volume]);
      case Drop(pid) => broker := broker - {pid};
      case Reset => ResetCircuitBreaker();
      case Activate => ActivateBreaker();
    }

    // One stop of a cycle; the result is whether the cycle goes on.
    method Advance(stop: Stop) returns (ok: bool)
      requires Valid() && (stop.Manage? ==> stop.visit.pid in listed) && (stop.Elsewhere? ==> Outside(stop.event))
      modifies `session, `orders, `broker, `listed, `breaker, `log
      ensures Valid() && committed == old(committed)
      ensures ok == !Fails(world, old(View()), stop)
      ensures View() == if ok then Apply(world, old(View()), EventOf(stop)) else old(View())
    {
      match stop
      case Manage(v) => ok := ManagePosition(v);
      case Raise => ok := false;
      case Elsewhere(e) =>
        Meanwhile(e);
        ok := true;
    }

    // The rest of a cycle that has listed the positions, up to its commit or to the rollback at the first exception.
    method ManagePositions(stops: seq<Stop>)
      requires Valid() && Planned(listed.Keys, stops)
      modifies `committed, `session, `breaker, `orders, `broker, `listed, `log
      ensures Valid() && session == committed
      ensures View() == Rest(world, old(View()), stops)
    {
      var i := 0;
      while i < |stops|
        invariant 0 <= i <= |stops| && Valid() && Planned(listed.Keys, stops[i..])
        invariant Rest(world, View(), stops[i..]) == Rest(world, old(View()), stops)
      {
        ghost var m := View();
        assert stops[i..][0] == stops[i];
        var ok := Advance(stops[i]);
        if !ok {
          RestAfterException(world, m, stops, i);
          session, listed := committed, map[];
          return;
        }
        RestAfterStop(world, m, stops, i);
        i := i + 1;
      }
      committed, listed := session, map[];
    }

    // `activates`: the cycle found no activation and made one from the environment.
    method MonitorCycle(enabled: bool, activates: bool, reachable: bool, stops: seq<Stop>)
      requires Valid() && session == committed && Planned(broker.Keys, stops)
      modifies `committed, `session, `view, `breaker, `orders, `broker, `listed, `log
      ensures Valid() && session == committed
      ensures !enabled ==> View() == old(View())
      ensures enabled ==>
        var m := if activates then Apply(world, old(View()), Activate) else old(View());
        View() == if !reachable then Apply(world, m, Outage) else Rest(world, Apply(world, m, Begin), stops)
    {
      if !enabled { return; }
      if activates { ActivateBreaker(); }
      if !reachable {
        OpenBreaker();
        return;
      }
      listed := broker;
      AutoRecoverBreaker();
      ManagePositions(stops);
    }
  }
}
