/**
 What one visit does outside the session, and when: which gates must be open, what is asked of the broker, what the
 broker then does, and which failures trip the breaker.
 */
module ManagerEffects {
  import opened Common
  import opened TpProtection
  import opened ManagerRules
  import opened ManagerRun
  import opened ManagerSafety
  import opened ManagerDecision

  // ----- What is decided and whether it is carried out -----

  // The synced row and the verdict on it.
  ghost predicate Decided(w: World, m: Machine, v: Visit, row: PositionRow, c: Candidate)
  {
    && v.pid in m.listed && SyncedRow(w, m, v) == Some(row)
    && c == Verdict(row, PriceOf(Reported(m, v)), v.market, w.cfg, DoneStages(m.session, v.pid), v.now)
  }

  // The key of a verdict: everything the broker is asked for, and the minute.
  function KeyFor(v: Visit, c: Candidate): Key { Key(v.pid, c.action, c.volume, c.sl, c.tp, v.keyedAt / 60) }

  // The stage the action of that key carries: a stored one keeps its own.
  function StageFor(m: Machine, v: Visit, c: Candidate): Option<Stage>
  {
    if KeyFor(v, c) in m.session.actions then m.session.actions[KeyFor(v, c)].stage else c.stage
  }

  // Demo trading is on, for this symbol and a managed position, and the cycle began with the breaker closed.
  ghost predicate GatesOpen(m: Machine, v: Visit, row: PositionRow)
  {
    && v.gate.demoActive && v.gate.demoAccount && !v.gate.live && !m.view.open && row.managed
    && v.gate.activation.Some? && (v.gate.activation.value != {} ==> row.symbol in v.gate.activation.value)
  }

  // Nothing was done yet under the key.
  ghost predicate Untried(m: Machine, key: Key)
  {
    key in m.session.actions ==>
      !m.session.actions[key].attempted && m.session.actions[key].status !in {Submitted, Rejected, Errored}
  }

  ghost predicate Executes(m: Machine, v: Visit, row: PositionRow, c: Candidate)
  {
    c.action != Hold && GatesOpen(m, v, row) && Untried(m, KeyFor(v, c))
  }

  // ----- What is asked of the broker -----

  // Closing asks for whole lots, moving a stop for rounded prices; a mere marker asks for nothing.
  function Asked(w: World, row: PositionRow, c: Candidate): Option<Request>
  {
    var spec := w.specs(row.symbol);
    if c.sl.Some? then
      Some(StopRequest(RoundPrice(c.sl.value, spec), if c.tp == None || c.tp.value == 0.0 then 0.0
        else RoundPrice(c.tp.value, spec)))
    else if c.volume == None then None
    else
      var lots := NormalizeVolume(if c.volume.value == 0.0 then row.currentVolume else c.volume.value, spec);
      if lots > 0.0 then Some(CloseRequest(lots)) else None
  }

  lemma VerdictIsAsked(w: World, row: PositionRow, price: real, k: Market, done: set<Stage>, now: int)
    ensures var c := Verdict(row, price, k, w.cfg, done, now);
      BuildRequest(c.action, c.volume, c.sl, c.tp, row.currentVolume, w.specs(row.symbol)) == Asked(w, row, c)
  {
  }

  lemma DecidedIsDone(w: World, m: Machine, v: Visit, row: PositionRow, c: Candidate)
    requires Decided(w, m, v, row, c) && KeysConsistent(m.session)
    ensures var d := Decide(w, m, v);
      && d.row == row && d.choice == c && d.action.key == KeyFor(v, c) && RequestOf(w, d) == Asked(w, row, c)
      && d.action.stage == StageFor(m, v, c)
      && (CanExecute(d.action, row, v.gate, m.view) <==> Executes(m, v, row, c))
  {
    ManagerDecides(row, PriceOf(Reported(m, v)), v.market, w.cfg, DoneStages(m.session, v.pid), v.now);
    VerdictIsAsked(w, row, PriceOf(Reported(m, v)), v.market, DoneStages(m.session, v.pid), v.now);
  }

  // ----- What happens then -----

  // An earlier order under the key stands; it is not sent again.
  ghost predicate Standing(m: Machine, key: Key)
  {
    key in m.orders && m.orders[key].state != PendingOrder
  }

  // The submission is reported as a success.
  ghost predicate Succeeds(m: Machine, key: Key, s: Submission)
  {
    !s.LiveBlocked? && (if Standing(m, key) then m.orders[key].ok else s.Answered? && s.ok)
  }

  // The broker acts on it.
  ghost predicate Works(m: Machine, key: Key, s: Submission)
  {
    !Standing(m, key) && ((s.Answered? && s.ok) || (s.SendRaised? && s.took))
  }

  ghost predicate Submits(w: World, m: Machine, v: Visit, row: PositionRow, c: Candidate)
  {
    Executes(m, v, row, c) && v.ready && Asked(w, row, c).Some?
  }

  // The terminal was not ready, or what was submitted did not succeed.
  ghost predicate Broken(m: Machine, v: Visit, key: Key, q: Option<Request>)
  {
    !v.ready || (q.Some? && !Succeeds(m, key, v.submission))
  }

  ghost predicate Fails(w: World, m: Machine, v: Visit, row: PositionRow, c: Candidate)
  {
    Executes(m, v, row, c) && Broken(m, v, KeyFor(v, c), Asked(w, row, c))
  }

  // A visit submits exactly what was decided, exactly when every gate is open, nothing was tried under its key, the
  // terminal is ready and there is something to ask for.
  lemma VisitSubmitsIff(w: World, m: Machine, v: Visit, row: PositionRow, c: Candidate)
    requires Decided(w, m, v, row, c) && KeysConsistent(m.session)
    ensures HandleVisit(w, m, v).log.submits ==
      m.log.submits + (if Submits(w, m, v, row, c) then [KeyFor(v, c)] else [])
  {
    DecidedIsDone(w, m, v, row, c);
  }

  lemma CarryCounts(w: World, m: Machine, v: Visit, d: Decision)
    ensures Carry(w, m, v, d).breaker == if Broken(m, v, d.action.key, RequestOf(w, d))
      then CountFailure(m.breaker, w.cfg.failureLimit) else m.breaker
  {
  }

  // A visit counts exactly its failures, and opens the breaker exactly when the count reaches the limit.
  lemma VisitCountsFailures(w: World, m: Machine, v: Visit, row: PositionRow, c: Candidate)
    requires Decided(w, m, v, row, c) && KeysConsistent(m.session)
    ensures var b, failed := HandleVisit(w, m, v).breaker,
        m.breaker.failed + (if Fails(w, m, v, row, c) then 1 else 0);
      && b.failed == failed && (b.open <==> m.breaker.open || (Fails(w, m, v, row, c) && failed >= w.cfg.failureLimit))
      && b.reason == if Fails(w, m, v, row, c) then ActionFailed else m.breaker.reason
  {
    var d := Decide(w, m, v);
    DecidedIsDone(w, m, v, row, c);
    CarryCounts(w, Noted(m, v.pid, d), v, d);
  }

  // The position after the broker acted on a request.
  ghost predicate Acted(before: Position, after: map<Pid, Position>, pid: Pid, q: Request, filled: real)
  {
    match q
    case StopRequest(sl, tp) => pid in after && after[pid] == before.(sl := Some(sl), tp := Some(tp))
    case CloseRequest(_) =>
      if before.volume == filled then pid !in after
      else pid in after && after[pid] == before.(volume := before.volume - filled)
  }

  lemma CarryAtBroker(w: World, m: Machine, v: Visit, d: Decision)
    ensures var q := RequestOf(w, d);
      Carry(w, m, v, d).broker == if v.ready && q.Some? && v.pid in m.broker && Works(m, d.action.key, v.submission)
      then AfterRequest(m.broker, v.pid, q.value, v.submission.filled) else m.broker
  {
  }

  ghost predicate OthersKept(before: map<Pid, Position>, after: map<Pid, Position>, pid: Pid)
  {
    forall p :: p != pid ==> (p in after <==> p in before) && (p in before ==> after[p] == before[p])
  }

  lemma AfterActed(before: map<Pid, Position>, pid: Pid, q: Request, filled: real)
    requires pid in before
    ensures OthersKept(before, AfterRequest(before, pid, q, filled), pid)
    ensures Acted(before[pid], AfterRequest(before, pid, q, filled), pid, q, filled)
  {
  }

  // The broker's positions change exactly as asked, and only when it acts on what was submitted.
  lemma VisitAtBroker(w: World, m: Machine, v: Visit, row: PositionRow, c: Candidate)
    requires Decided(w, m, v, row, c) && KeysConsistent(m.session)
    ensures var t := HandleVisit(w, m, v);
      && OthersKept(m.broker, t.broker, v.pid)
      && (if v.pid in m.broker && Submits(w, m, v, row, c) && Works(m, KeyFor(v, c), v.submission)
          then Acted(m.broker[v.pid], t.broker, v.pid, Asked(w, row, c).value, v.submission.filled)
          else t.broker == m.broker)
  {
    var d := Decide(w, m, v);
    DecidedIsDone(w, m, v, row, c);
    CarryAtBroker(w, Noted(m, v.pid, d), v, d);
    if v.pid in m.broker && Submits(w, m, v, row, c) && Works(m, KeyFor(v, c), v.submission) {
      AfterActed(m.broker, v.pid, Asked(w, row, c).value, v.submission.filled);
    }
  }

  // ----- What is noted -----

  // The order table after a submission: a blocked one is rejected, a standing order stays, and otherwise the row says
  // how far the submission came.
  ghost predicate Tabled(before: map<Key, OrderRow>, after: map<Key, OrderRow>, key: Key, s: Submission)
  {
    && key in after && after == before[key := after[key]]
    && (s.LiveBlocked? ==>
          after[key] == OrderRow(RejectedOrder, key in before && before[key].ok))
    && (!s.LiveBlocked? ==>
          if key in before && before[key].state != PendingOrder then after[key] == before[key]
          else after[key] == OrderRow(
            if s.SendRaised? then SentOrder else if s.ClientNotReady? then PendingOrder
            else if s.Answered? && s.ok then AcceptedOrder else RejectedOrder, s.Answered? && s.ok))
  }

  lemma SubmitTables(orders: map<Key, OrderRow>, key: Key, s: Submission)
    ensures Tabled(orders, Submit(orders, key, s).orders, key, s)
  {
  }

  lemma VisitTables(w: World, m: Machine, v: Visit, row: PositionRow, c: Candidate)
    requires Decided(w, m, v, row, c) && KeysConsistent(m.session)
    ensures if Submits(w, m, v, row, c) then Tabled(m.orders, HandleVisit(w, m, v).orders, KeyFor(v, c), v.submission)
      else HandleVisit(w, m, v).orders == m.orders
  {
    DecidedIsDone(w, m, v, row, c);
    SubmitTables(m.orders, KeyFor(v, c), v.submission);
  }

  // The submit routine raised: the client was lost before or during the call.
  ghost predicate Raises(m: Machine, key: Key, s: Submission)
  {
    !Standing(m, key) && (s.SendRaised? || s.ClientNotReady?)
  }

  // The status of an action that is only noted, by the first gate that is shut.
  function Waiting(m: Machine, v: Visit, row: PositionRow, c: Candidate): Status
  {
    if !v.gate.demoActive then ShadowSelected
    else if v.gate.activation == None then ShadowNoActivation
    else if m.view.open then BlockedCircuitOpen
    else if !row.managed then BlockedNotAdopted
    else if c.action == Hold then Held
    else Chosen
  }

  lemma ReplyMeans(m: Machine, key: Key, s: Submission)
    ensures var ok := Submit(m.orders, key, s).ok;
      (ok == None <==> Raises(m, key, s)) && (ok == Some(true) <==> Succeeds(m, key, s))
  {
  }

  // The row of an action that was carried out.
  ghost predicate NotedAs(m: Machine, v: Visit, a: ActionRow, q: Option<Request>, after: ActionRow)
  {
    after == a.(
      attempted := a.attempted || (v.ready && q.Some?),
      status :=
        if !v.ready then Errored
        else if q == None then Noop
        else if Raises(m, a.key, v.submission) then Errored
        else if Succeeds(m, a.key, v.submission) then Submitted else Rejected)
  }

  lemma CarryNotes(w: World, m: Machine, v: Visit, d: Decision)
    ensures var t := Carry(w, m, v, d);
      && d.action.key in t.session.actions
      && t.session.actions == m.session.actions[d.action.key := t.session.actions[d.action.key]]
      && NotedAs(m, v, d.action, RequestOf(w, d), t.session.actions[d.action.key])
  {
    var a := CarryActions(w, m, v, d);
    ReplyMeans(m, d.action.key, v.submission);
    NoteOf(w, m, v, d);
  }

  lemma NoteOf(w: World, m: Machine, v: Visit, d: Decision)
    ensures d.action.key in Carry(w, m, v, d).session.actions
    ensures var ok, a := Submit(m.orders, d.action.key, v.submission).ok, d.action;
      Carry(w, m, v, d).session.actions[a.key] ==
      if !v.ready then a.(status := Errored)
      else if RequestOf(w, d) == None then a.(status := Noop)
      else a.(status := OutcomeStatus(ok), attempted := true)
  {
  }

  // The action of a visit's key, and only that one, is noted: with the outcome when it was carried out, and otherwise
  // as it was, or waiting when it is new.
  lemma VisitNotes(w: World, m: Machine, v: Visit, row: PositionRow, c: Candidate)
    requires Decided(w, m, v, row, c) && KeysConsistent(m.session)
    ensures var key, after := KeyFor(v, c), HandleVisit(w, m, v).session.actions;
      var before := if key in m.session.actions then m.session.actions[key]
        else ActionRow(key, c.stage, Waiting(m, v, row, c), false);
      && key in after && after == m.session.actions[key := after[key]]
      && after[key] == before.(
        attempted := before.attempted || Submits(w, m, v, row, c),
        status :=
          if !Executes(m, v, row, c) then before.status
          else if !v.ready then Errored
          else if Asked(w, row, c) == None then Noop
          else if Raises(m, key, v.submission) then Errored
          else if Succeeds(m, key, v.submission) then Submitted else Rejected)
  {
    var d := Decide(w, m, v);
    var n := Noted(m, v.pid, d);
    DecidedIsDone(w, m, v, row, c);
    assert n.session.actions == m.session.actions[d.action.key := d.action];
    if Executes(m, v, row, c) {
      CarryNotes(w, n, v, d);
      NotedOver(m, n, Carry(w, n, v, d), v, d.action, Asked(w, row, c));
    }
  }

  lemma NotedOver(m: Machine, n: Machine, t: Machine, v: Visit, a: ActionRow, q: Option<Request>)
    requires n.session.actions == m.session.actions[a.key := a] && n.orders == m.orders
    requires a.key in t.session.actions && t.session.actions == n.session.actions[a.key := t.session.actions[a.key]]
    requires NotedAs(n, v, a, q, t.session.actions[a.key])
    ensures t.session.actions == m.session.actions[a.key := t.session.actions[a.key]]
    ensures NotedAs(m, v, a, q, t.session.actions[a.key])
  {
  }

  // ----- What a success leaves behind -----

  // The history entries, times and stages that carrying out an action leaves: those of a success alone, and in the
  // session only for a position that was stored before the cycle.
  ghost predicate Left(m: Machine, t: Machine, v: Visit, action: ActionType, stage: Option<Stage>, ok: bool)
  {
    var known := v.pid in m.committed.positions;
    var staged := ok && action == TpProgressPartialProtect && stage.Some?;
    var moved := ok && IsStopMove(action);
    && t.log.moves == m.log.moves + (if moved then [StopMove(v.pid, v.recordedAt, known)] else [])
    && t.log.protections == m.log.protections + (if staged then [Protection(v.pid, stage.value, known)] else [])
    && t.session.stages == m.session.stages + (if staged && known then {(v.pid, stage.value)} else {})
    && t.session.positions == if moved && known && v.pid in m.session.positions
      then m.session.positions[v.pid := m.session.positions[v.pid].(lastManagementAt := Some(v.recordedAt))]
      else m.session.positions
  }

  lemma SettledLeaves(m: Machine, v: Visit, a: ActionRow)
    ensures Left(m, RecordAccepted(m, v, a, v.pid in m.committed.positions), v, a.key.action, a.stage, true)
  {
  }

  lemma EffectsLeaveNothing(w: World, m: Machine, v: Visit, key: Key, q: Request)
    ensures var t := Effects(w, m, v, key, q);
      t.log.moves == m.log.moves && t.log.protections == m.log.protections && t.session == m.session
      && t.committed == m.committed
    ensures Effects(w, m, v, key, q).log.sends == m.log.sends + (if Sent(m, key, v.submission) then [key] else [])
  {
  }

  // An order goes out: nothing blocks it before the broker is called.
  ghost predicate Sent(m: Machine, key: Key, s: Submission)
  {
    !Standing(m, key) && (s.SendRaised? || s.Answered?)
  }

  lemma CarryLeaves(w: World, m: Machine, v: Visit, d: Decision)
    ensures Left(m, Carry(w, m, v, d), v, d.action.key.action, d.action.stage,
      v.ready && RequestOf(w, d).Some? && Succeeds(m, d.action.key, v.submission))
    ensures Carry(w, m, v, d).log.sends == m.log.sends +
      (if v.ready && RequestOf(w, d).Some? && Sent(m, d.action.key, v.submission) then [d.action.key] else [])
  {
    ReplyMeans(m, d.action.key, v.submission);
    if v.ready && RequestOf(w, d).Some? {
      var acted := Effects(w, m, v, d.action.key, RequestOf(w, d).value);
      var ok := Submit(m.orders, d.action.key, v.submission).ok;
      var done := d.action.(status := OutcomeStatus(ok), attempted := true);
      var settled := acted.(session := WithAction(acted.session, done));
      EffectsLeaveNothing(w, m, v, d.action.key, RequestOf(w, d).value);
      SettledLeaves(settled, v, d.action);
    }
  }

  // An order goes out exactly when nothing blocks the submission.
  lemma VisitSends(w: World, m: Machine, v: Visit, row: PositionRow, c: Candidate)
    requires Decided(w, m, v, row, c) && KeysConsistent(m.session)
    ensures HandleVisit(w, m, v).log.sends == m.log.sends +
      (if Submits(w, m, v, row, c) && Sent(m, KeyFor(v, c), v.submission) then [KeyFor(v, c)] else [])
  {
    var d := Decide(w, m, v);
    DecidedIsDone(w, m, v, row, c);
    CarryLeaves(w, Noted(m, v.pid, d), v, d);
  }

  // A visit stores the synced row, and records a moved stop or a closed stage exactly when it submitted one and the
  // submission succeeded.
  lemma VisitRecords(w: World, m: Machine, v: Visit, row: PositionRow, c: Candidate)
    requires Decided(w, m, v, row, c) && KeysConsistent(m.session)
    ensures Left(m.(session := m.session.(positions := m.session.positions[v.pid := row])), HandleVisit(w, m, v), v,
      c.action, StageFor(m, v, c), Submits(w, m, v, row, c) && Succeeds(m, KeyFor(v, c), v.submission))
  {
    var d := Decide(w, m, v);
    var n := Noted(m, v.pid, d);
    var ok := Submits(w, m, v, row, c) && Succeeds(m, KeyFor(v, c), v.submission);
    DecidedIsDone(w, m, v, row, c);
    if Executes(m, v, row, c) {
      CarryLeaves(w, n, v, d);
      LeftOver(m, n, Carry(w, n, v, d), v, row, c.action, StageFor(m, v, c), ok);
    } else {
      LeftOver(m, n, n, v, row, c.action, StageFor(m, v, c), false);
    }
  }

  lemma LeftOver(m: Machine, n: Machine, t: Machine, v: Visit, row: PositionRow,
      action: ActionType, stage: Option<Stage>, ok: bool)
    requires n.committed == m.committed && n.log == m.log && n.session.stages == m.session.stages
    requires n.session.positions == m.session.positions[v.pid := row] && Left(n, t, v, action, stage, ok)
    ensures Left(m.(session := m.session.(positions := m.session.positions[v.pid := row])), t, v, action, stage, ok)
  {
  }

  // ----- The breaker over whole runs -----

  ghost predicate FailsAt(w: World, m: Machine, e: Event)
  {
    e.Handle? && exists row, c :: Decided(w, m, e.visit, row, c) && Fails(w, m, e.visit, row, c)
  }

  // How many of the first n events were failures.
  ghost function Failures(w: World, ms: seq<Machine>, es: seq<Event>, n: nat): nat
    requires |ms| == |es| + 1 && n <= |es|
  {
    if n == 0 then 0 else Failures(w, ms, es, n - 1) + (if FailsAt(w, ms[n - 1], es[n - 1]) then 1 else 0)
  }

  // The breaker and its count start afresh.
  ghost predicate Clears(m: Machine, e: Event)
  {
    e.Reset? || e.Activate? || (e.Begin? && m.breaker.open && m.breaker.reason == BrokerNotReady)
  }

  lemma StepCountsFailures(w: World, m: Machine, e: Event, n: Machine)
    requires Steps(w, m, e, n) && KeysConsistent(m.session)
    ensures if Clears(m, e) then !n.breaker.open && n.breaker.failed == 0
      else
        n.breaker.failed == m.breaker.failed + (if FailsAt(w, m, e) then 1 else 0)
        && (n.breaker.open <==>
              m.breaker.open || e.Outage? || (FailsAt(w, m, e) && n.breaker.failed >= w.cfg.failureLimit))
  {
    if e.Handle? {
      var v, row := e.visit, SyncedRow(w, m, e.visit).value;
      var c := Verdict(row, PriceOf(Reported(m, v)), v.market, w.cfg, DoneStages(m.session, v.pid), v.now);
      assert Decided(w, m, v, row, c);
      VisitCountsFailures(w, m, v, row, c);
    }
  }

  ghost predicate OutageSeen(es: seq<Event>, n: nat)
    requires n <= |es|
  {
    exists k :: 0 <= k < n && es[k].Outage?
  }

  // b is the breaker after `count` failures since it was fresh.
  predicate Tripped(b: Breaker, count: nat, limit: nat, outage: bool)
  {
    b.failed == count && (b.open <==> count >= limit || outage)
  }

  lemma TrippedStep(w: World, m: Machine, e: Event, n: Machine, count: nat, outage: bool)
    requires Steps(w, m, e, n) && KeysConsistent(m.session) && !Clears(m, e)
    requires Tripped(m.breaker, count, w.cfg.failureLimit, outage)
    ensures Tripped(n.breaker, count + (if FailsAt(w, m, e) then 1 else 0), w.cfg.failureLimit, outage || e.Outage?)
  {
    StepCountsFailures(w, m, e, n);
  }

  lemma {:induction false} TrippedAt(w: World, ms: seq<Machine>, es: seq<Event>, n: nat)
    requires IsRun(w, ms, es) && n <= |es| && w.cfg.failureLimit >= 1
    requires KeysConsistent(ms[0].session) && KeysConsistent(ms[0].committed)
    requires !ms[0].breaker.open && ms[0].breaker.failed == 0 && forall k :: 0 <= k < n ==> !Clears(ms[k], es[k])
    ensures Tripped(ms[n].breaker, Failures(w, ms, es, n), w.cfg.failureLimit, OutageSeen(es, n))
  {
    if n > 0 {
      TrippedAt(w, ms, es, n - 1);
      KeysConsistentAt(w, ms, es, n - 1);
      StepAt(w, ms, es, n - 1);
      TrippedStep(w, ms[n - 1], es[n - 1], ms[n], Failures(w, ms, es, n - 1), OutageSeen(es, n - 1));
    }
  }

  // Over every run that starts with a fresh breaker and does not clear it: the count is that of the failures, and the
  // breaker is open exactly when they reached the limit or an outage was seen.
  lemma FailuresTripBreaker(w: World, ms: seq<Machine>, es: seq<Event>)
    requires IsRun(w, ms, es) && w.cfg.failureLimit >= 1
    requires KeysConsistent(ms[0].session) && KeysConsistent(ms[0].committed)
    requires !ms[0].breaker.open && ms[0].breaker.failed == 0 && forall k :: 0 <= k < |es| ==> !Clears(ms[k], es[k])
    ensures ms[|es|].breaker.failed == Failures(w, ms, es, |es|)
    ensures ms[|es|].breaker.open <==>
      Failures(w, ms, es, |es|) >= w.cfg.failureLimit || exists k :: 0 <= k < |es| && es[k].Outage?
  {
    TrippedAt(w, ms, es, |es|);
  }
}
