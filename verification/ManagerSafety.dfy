/**
 Whole-run safety of the adaptive manager: submissions, stop ratchet, cooldown, stages, volumes, breaker, extremes.
 */
module ManagerSafety {
  import opened Common
  import opened TpProtection
  import opened ManagerRules
  import opened ManagerRun

  // ----- What a decision carries over from the broker's report and the stored row -----

  ghost predicate KeysConsistent(db: Db) { forall k :: k in db.actions ==> db.actions[k].key == k }

  ghost predicate RowReflects(row: PositionRow, p: Position, stored: Option<PositionRow>)
  {
    && row.symbol == p.symbol && row.side == p.side && row.currentVolume == p.volume && row.currentSl == p.sl
    && row.currentTp == p.tp
    && row.lastManagementAt == (if stored.Some? then stored.value.lastManagementAt else None)
    && (stored.Some? ==>
          && stored.value.maxR <= row.maxR && stored.value.maxTpProgress <= row.maxTpProgress
          && row.minR <= stored.value.minR)
  }

  ghost predicate Asks(a: ActionRow, pid: Pid, c: Candidate)
  {
    a.key.pid == pid && a.key.action == c.action && a.key.volume == c.volume && a.key.sl == c.sl && a.key.tp == c.tp
  }

  ghost function Stored(db: Db, pid: Pid): Option<PositionRow>
  {
    if pid in db.positions then Some(db.positions[pid]) else None
  }

  lemma RowFacts(w: World, m: Machine, v: Visit)
    requires v.pid in m.listed && SyncedRow(w, m, v).Some?
    ensures RowReflects(SyncedRow(w, m, v).value, m.listed[v.pid], Stored(m.session, v.pid))
  {
  }

  lemma DecisionFacts(w: World, m: Machine, v: Visit, bounded: bool)
    requires v.pid in m.listed && SyncedRow(w, m, v).Some? && KeysConsistent(m.session)
    requires bounded ==> UnitConfig(w.cfg) && UnitMarket(v.market) && m.listed[v.pid].volume >= 0.0
    ensures var d := Decide(w, m, v);
      && RowReflects(d.row, m.listed[v.pid], Stored(m.session, v.pid))
      && CandidateOk(d.row, d.choice, w.cfg, v.now, DoneStages(m.session, v.pid), bounded)
      && Asks(d.action, v.pid, d.choice)
  {
    RowFacts(w, m, v);
    SelectedOk(SyncedRow(w, m, v).value, PriceOf(Reported(m, v)), v.market,
      w.cfg, DoneStages(m.session, v.pid), v.now, bounded);
  }

  // The keys of the session and of the store name their rows, over every run.
  lemma ActKeepsKeys(w: World, m: Machine, v: Visit, d: Decision)
    requires KeysConsistent(m.session)
    ensures KeysConsistent(Act(w, m, v, d).session) && Act(w, m, v, d).committed == m.committed
  {
    var a := CarryActions(w, Noted(m, v.pid, d), v, d);
  }

  lemma KeysStayConsistent(w: World, m: Machine, e: Event, n: Machine)
    requires Steps(w, m, e, n) && KeysConsistent(m.session) && KeysConsistent(m.committed)
    ensures KeysConsistent(n.session) && KeysConsistent(n.committed)
  {
    if e.Handle? { ActKeepsKeys(w, m, e.visit, Decide(w, m, e.visit)); }
  }

  lemma {:induction false} KeysConsistentAt(w: World, ms: seq<Machine>, es: seq<Event>, i: nat)
    requires IsRun(w, ms, es) && i <= |es| && KeysConsistent(ms[0].session) && KeysConsistent(ms[0].committed)
    ensures KeysConsistent(ms[i].session) && KeysConsistent(ms[i].committed)
  {
    if i > 0 {
      KeysConsistentAt(w, ms, es, i - 1);
      KeysStayConsistent(w, ms[i - 1], es[i - 1], ms[i]);
    }
  }

  // ----- Submissions: at most once per key, as long as no rollback discards one -----

  ghost predicate Attempted(db: Db, key: Key) { key in db.actions && db.actions[key].attempted }

  ghost predicate SubmitsOnce(m: Machine)
  {
    KeysConsistent(m.session) && Distinct(m.log.submits) && forall k :: k in m.log.submits ==> Attempted(m.session, k)
  }

  // Every submission so far has reached the store.
  ghost predicate SubmissionsStored(m: Machine) { forall k :: k in m.log.submits ==> Attempted(m.committed, k) }

  // The exact condition for one rollback: it keeps the knowledge of past submissions just when all of them are stored.
  lemma RollbackKeepsSubmissionsIffStored(w: World, m: Machine)
    requires SubmitsOnce(m) && KeysConsistent(m.committed)
    ensures SubmitsOnce(Apply(w, m, Abort)) <==> SubmissionsStored(m)
  {
  }

  ghost predicate ActionKnown(db: Db, a: ActionRow) { a.key in db.actions ==> db.actions[a.key] == a }

  lemma NotedSubmitsOnce(m: Machine, pid: Pid, d: Decision)
    requires SubmitsOnce(m) && ActionKnown(m.session, d.action)
    ensures SubmitsOnce(Noted(m, pid, d)) && (!d.action.attempted ==> d.action.key !in m.log.submits)
  {
    var n := Noted(m, pid, d);
    forall k | k in m.log.submits ensures Attempted(n.session, k) { assert Attempted(m.session, k); }
  }

  // Carrying out touches the action row of its key only, and marks it attempted when it submits.
  lemma CarryActions(w: World, m: Machine, v: Visit, d: Decision) returns (a: ActionRow)
    ensures var t := Carry(w, m, v, d);
      && a.key == d.action.key && t.session.actions == m.session.actions[a.key := a]
      && (t.log.submits == m.log.submits || (t.log.submits == m.log.submits + [a.key] && a.attempted))
      && (d.action.attempted ==> a.attempted)
  {
    a := Carry(w, m, v, d).session.actions[d.action.key];
  }

  lemma CarrySubmitsOnce(w: World, m: Machine, v: Visit, d: Decision)
    requires SubmitsOnce(m) && d.action.key !in m.log.submits
    ensures SubmitsOnce(Carry(w, m, v, d))
  {
    var a := CarryActions(w, m, v, d);
    var t := Carry(w, m, v, d);
    forall k | k in t.log.submits
      ensures Attempted(t.session, k)
    {
      assert k in m.log.submits ==> Attempted(m.session, k);
    }
  }

  lemma ActSubmitsOnce(w: World, m: Machine, v: Visit, d: Decision)
    requires SubmitsOnce(m) && ActionKnown(m.session, d.action)
    ensures SubmitsOnce(Act(w, m, v, d))
  {
    NotedSubmitsOnce(m, v.pid, d);
    if CanExecute(d.action, d.row, v.gate, m.view) { CarrySubmitsOnce(w, Noted(m, v.pid, d), v, d); }
  }

  lemma DecisionActionKnown(w: World, m: Machine, v: Visit)
    requires v.pid in m.listed && SyncedRow(w, m, v).Some? && KeysConsistent(m.session)
    ensures ActionKnown(m.session, Decide(w, m, v).action)
  {
  }

  lemma StepSubmitsOnce(w: World, m: Machine, e: Event, n: Machine)
    requires Steps(w, m, e, n) && SubmitsOnce(m) && KeysConsistent(m.committed) && (e.Abort? ==> SubmissionsStored(m))
    ensures SubmitsOnce(n)
  {
    if e.Handle? {
      DecisionActionKnown(w, m, e.visit);
      ActSubmitsOnce(w, m, e.visit, Decide(w, m, e.visit));
    }
  }

  ghost predicate RollbacksKeepSubmissions(ms: seq<Machine>, es: seq<Event>)
    requires |ms| == |es| + 1
  {
    forall i :: 0 <= i < |es| && es[i].Abort? ==> SubmissionsStored(ms[i])
  }

  lemma {:induction false} SubmitsOnceAt(w: World, ms: seq<Machine>, es: seq<Event>, i: nat)
    requires IsRun(w, ms, es) && i <= |es| && RollbacksKeepSubmissions(ms, es)
    requires SubmitsOnce(ms[0]) && KeysConsistent(ms[0].committed)
    ensures SubmitsOnce(ms[i])
  {
    if i > 0 {
      SubmitsOnceAt(w, ms, es, i - 1);
      KeysConsistentAt(w, ms, es, i - 1);
      StepSubmitsOnce(w, ms[i - 1], es[i - 1], ms[i]);
    }
  }

  // Over every run: the submit routine is called at most once per key, and the session remembers each call, exactly
  // when no rollback came while a submission was not yet stored.
  lemma EachKeySubmittedAtMostOnce(w: World, ms: seq<Machine>, es: seq<Event>)
    requires IsRun(w, ms, es) && SubmitsOnce(ms[0]) && KeysConsistent(ms[0].committed)
    ensures (forall i :: 0 <= i <= |es| ==> SubmitsOnce(ms[i])) <==> RollbacksKeepSubmissions(ms, es)
  {
    if RollbacksKeepSubmissions(ms, es) {
      forall i | 0 <= i <= |es| ensures SubmitsOnce(ms[i]) { SubmitsOnceAt(w, ms, es, i); }
    }
    if forall i :: 0 <= i <= |es| ==> SubmitsOnce(ms[i]) {
      forall i | 0 <= i < |es| && es[i].Abort? ensures SubmissionsStored(ms[i]) {
        KeysConsistentAt(w, ms, es, i);
        RolledBack(w, ms[i], es[i], ms[i + 1]);
        RollbackKeepsSubmissionsIffStored(w, ms[i]);
      }
    }
  }

  lemma StepAt(w: World, ms: seq<Machine>, es: seq<Event>, i: nat)
    requires IsRun(w, ms, es) && i < |es|
    ensures Steps(w, ms[i], es[i], ms[i + 1])
  {
  }

  lemma RolledBack(w: World, m: Machine, e: Event, n: Machine)
    requires Steps(w, m, e, n) && e.Abort?
    ensures n == Apply(w, m, Abort) && n.session == n.committed == m.committed && n.log == m.log
  {
  }

  // ----- The stop ratchet -----

  ghost predicate Gridded(w: World, p: Position)
  {
    (Truthy(p.sl) ==> OnGrid(p.sl.value, w.specs(p.symbol))) && (Truthy(p.tp) ==> OnGrid(p.tp.value, w.specs(p.symbol)))
  }

  ghost predicate BrokerGridded(w: World, m: Machine) { forall pid :: pid in m.broker ==> Gridded(w, m.broker[pid]) }

  // The stop only moves in favour of the position, and the take profit and everything else that identifies it stays.
  ghost predicate Ratcheted(p: Position, q: Position)
  {
    && q.symbol == p.symbol && q.side == p.side && q.tp == p.tp && q.volume <= p.volume
    && (!Truthy(p.sl) ==> q.sl == p.sl)
    && (Truthy(p.sl) ==>
          && q.sl.Some?
          && (p.side == Long ==> q.sl.value >= p.sl.value) && (p.side == Short ==> q.sl.value <= p.sl.value))
  }

  lemma RequestRatchets(w: World, p: Position, d: Decision, v: Visit, stored: Option<PositionRow>, done: set<Stage>)
    requires RowReflects(d.row, p, stored) && CandidateOk(d.row, d.choice, w.cfg, v.now, done, false)
    requires Asks(d.action, v.pid, d.choice) && Gridded(w, p)
    requires RequestOf(w, d).Some? && RequestOf(w, d).value.StopRequest?
    ensures var q := p.(sl := Some(RequestOf(w, d).value.sl), tp := Some(RequestOf(w, d).value.tp));
      Ratcheted(p, q) && Gridded(w, q)
  {
    StopRequestRatchets(p.side, p.sl.value, d.choice.sl.value, p.tp.value, w.specs(p.symbol));
  }

  // The broker is touched at one position at most, and only as the request says.
  lemma EffectOnBroker(w: World, m: Machine, v: Visit, d: Decision)
    ensures var after := Act(w, m, v, d).broker;
      || after == m.broker
      || (RequestOf(w, d).Some? && v.pid in m.broker &&
        after == AfterRequest(m.broker, v.pid, RequestOf(w, d).value, FilledBy(v.submission)))
  {
  }

  ghost predicate AllRatcheted(w: World, before: map<Pid, Position>, after: map<Pid, Position>)
  {
    forall pid :: pid in after ==> pid in before && Ratcheted(before[pid], after[pid]) && Gridded(w, after[pid])
  }

  lemma AfterRequestRatchets(w: World, broker: map<Pid, Position>, pid: Pid, q: Request, filled: real)
    requires pid in broker && filled >= 0.0 && forall p :: p in broker ==> Gridded(w, broker[p])
    requires q.StopRequest? ==> (var r := broker[pid].(sl := Some(q.sl), tp := Some(q.tp));
      Ratcheted(broker[pid], r) && Gridded(w, r))
    ensures AllRatcheted(w, broker, AfterRequest(broker, pid, q, filled))
  {
  }

  // What was listed is what the broker still holds, for positions not closed since.
  ghost predicate ListingCurrent(m: Machine)
  {
    forall pid :: pid in m.listed && pid in m.broker ==> m.listed[pid] == m.broker[pid]
  }

  lemma ActKeepsListing(w: World, m: Machine, v: Visit, d: Decision)
    requires ListingCurrent(m)
    ensures ListingCurrent(Act(w, m, v, d))
  {
    EffectOnBroker(w, m, v, d);
    assert Act(w, m, v, d).listed == m.listed - {v.pid};
  }

  lemma StepKeepsListing(w: World, m: Machine, e: Event, n: Machine)
    requires Steps(w, m, e, n) && ListingCurrent(m)
    ensures ListingCurrent(n)
  {
    if e.Handle? { ActKeepsListing(w, m, e.visit, Decide(w, m, e.visit)); }
  }

  // One visit: every stop of the broker is where it was or better, whichever of the three stop actions was taken.
  lemma VisitRatchets(w: World, m: Machine, v: Visit)
    requires Enabled(w, m, Handle(v)) && KeysConsistent(m.session) && BrokerGridded(w, m) && ListingCurrent(m)
    ensures AllRatcheted(w, m.broker, HandleVisit(w, m, v).broker)
  {
    var d := Decide(w, m, v);
    DecisionFacts(w, m, v, false);
    ActRatchets(w, m, v, d, Stored(m.session, v.pid), DoneStages(m.session, v.pid));
  }

  lemma ActRatchets(w: World, m: Machine, v: Visit, d: Decision, stored: Option<PositionRow>, done: set<Stage>)
    requires v.pid in m.listed && BrokerGridded(w, m) && ListingCurrent(m) && FilledBy(v.submission) >= 0.0
    requires RowReflects(d.row, m.listed[v.pid], stored) && CandidateOk(d.row, d.choice, w.cfg, v.now, done, false)
    requires Asks(d.action, v.pid, d.choice)
    ensures AllRatcheted(w, m.broker, Act(w, m, v, d).broker)
  {
    EffectOnBroker(w, m, v, d);
    var q := RequestOf(w, d);
    if q.Some? && v.pid in m.broker {
      if q.value.StopRequest? { RequestRatchets(w, m.broker[v.pid], d, v, stored, done); }
      AfterRequestRatchets(w, m.broker, v.pid, q.value, FilledBy(v.submission));
    }
  }

  lemma RatchetTransitive(p: Position, q: Position, r: Position)
    requires Ratcheted(p, q) && Ratcheted(q, r)
    ensures Ratcheted(p, r)
  {
  }

  // Positions arrive with stops and targets on their symbol's price grid.
  ghost predicate OpensGridded(w: World, e: Event) { e.Open? ==> Gridded(w, e.position) }

  ghost predicate RatchetInvariant(w: World, m: Machine)
  {
    KeysConsistent(m.session) && KeysConsistent(m.committed) && BrokerGridded(w, m) && ListingCurrent(m)
  }

  lemma StepRatchets(w: World, m: Machine, e: Event, n: Machine)
    requires Steps(w, m, e, n) && RatchetInvariant(w, m) && OpensGridded(w, e)
    ensures RatchetInvariant(w, n)
    ensures forall pid :: pid in n.broker && pid in m.broker ==> Ratcheted(m.broker[pid], n.broker[pid])
  {
    KeysStayConsistent(w, m, e, n);
    StepKeepsListing(w, m, e, n);
    if e.Handle? { VisitRatchets(w, m, e.visit); }
  }

  // Over any run in which a position stays open, its stop never moves against it and its take profit never moves.
  lemma {:induction false} StopsNeverRetreat(w: World, ms: seq<Machine>, es: seq<Event>, pid: Pid)
    requires IsRun(w, ms, es) && RatchetInvariant(w, ms[0]) && forall i :: 0 <= i < |es| ==> OpensGridded(w, es[i])
    requires forall i :: 0 <= i < |ms| ==> pid in ms[i].broker
    ensures RatchetInvariant(w, ms[|es|]) && Ratcheted(ms[0].broker[pid], ms[|es|].broker[pid])
  {
    if |es| > 0 {
      StopsNeverRetreat(w, ms[..|es|], es[..|es| - 1], pid);
      StepRatchets(w, ms[|es| - 1], es[|es| - 1], ms[|es|]);
      RatchetTransitive(ms[0].broker[pid], ms[|es| - 1].broker[pid], ms[|es|].broker[pid]);
    }
  }

  // ----- Cooldown between stop moves -----

  // The stored row of the move's position carries a management time no earlier than the move.
  ghost predicate Remembered(db: Db, move: StopMove)
  {
    move.known ==> move.pid in db.positions && db.positions[move.pid].lastManagementAt.Some?
                   && db.positions[move.pid].lastManagementAt.value >= move.at
  }

  ghost predicate AllRemembered(db: Db, moves: seq<StopMove>)
  {
    forall i :: 0 <= i < |moves| ==> Remembered(db, moves[i])
  }

  ghost predicate Apart(moves: seq<StopMove>, cooldown: nat)
  {
    forall i, j :: 0 <= i < j < |moves| && moves[i].known && moves[i].pid == moves[j].pid ==>
      moves[j].at >= moves[i].at + cooldown
  }

  ghost predicate MovesSpaced(m: Machine, cooldown: nat)
  {
    AllRemembered(m.session, m.log.moves) && Apart(m.log.moves, cooldown)
  }

  // Every management time of an accepted move has reached the store.
  ghost predicate MovesStored(m: Machine) { AllRemembered(m.committed, m.log.moves) }

  // The exact condition for one rollback.
  lemma RollbackKeepsMovesIffStored(w: World, m: Machine)
    requires MovesSpaced(m, w.cfg.cooldown)
    ensures MovesSpaced(Apply(w, m, Abort), w.cfg.cooldown) <==> MovesStored(m)
  {
  }

  lemma NotedKeepsMoves(m: Machine, pid: Pid, d: Decision, cooldown: nat)
    requires MovesSpaced(m, cooldown)
    requires d.row.lastManagementAt ==
      (if pid in m.session.positions then m.session.positions[pid].lastManagementAt else None)
    ensures MovesSpaced(Noted(m, pid, d), cooldown)
  {
    var n := Noted(m, pid, d);
    forall i | 0 <= i < |n.log.moves|
      ensures Remembered(n.session, n.log.moves[i])
    {
      assert Remembered(m.session, m.log.moves[i]);
    }
  }

  // Carrying out an action changes management times and the list of moves only by an accepted stop move.
  lemma CarryMoves(w: World, m: Machine, v: Visit, d: Decision)
    requires v.pid in m.session.positions
    ensures var t := Carry(w, m, v, d); var known, row := v.pid in m.committed.positions, m.session.positions[v.pid];
      || (t.log.moves == m.log.moves && t.session.positions == m.session.positions)
      || (IsStopMove(d.action.key.action) && t.log.moves == m.log.moves + [StopMove(v.pid, v.recordedAt, known)]
          && t.session.positions ==
             if known then m.session.positions[v.pid := row.(lastManagementAt := Some(v.recordedAt))]
               else m.session.positions)
  {
  }

  lemma CarrySpaced(w: World, m: Machine, v: Visit, d: Decision, cooldown: nat)
    requires v.pid in m.session.positions && m.session.positions[v.pid] == d.row && MovesSpaced(m, cooldown)
    requires v.now <= v.recordedAt
    requires IsStopMove(d.action.key.action) ==> CooldownElapsed(d.row.lastManagementAt, cooldown, v.now)
    ensures MovesSpaced(Carry(w, m, v, d), cooldown)
  {
    var t := Carry(w, m, v, d);
    CarryMoves(w, m, v, d);
    forall i | 0 <= i < |m.log.moves|
      ensures Remembered(t.session, m.log.moves[i])
    {
      assert Remembered(m.session, m.log.moves[i]);
    }
  }

  lemma VisitSpaced(w: World, m: Machine, v: Visit)
    requires Enabled(w, m, Handle(v)) && KeysConsistent(m.session) && MovesSpaced(m, w.cfg.cooldown)
    ensures MovesSpaced(HandleVisit(w, m, v), w.cfg.cooldown)
  {
    var d := Decide(w, m, v);
    DecisionFacts(w, m, v, false);
    ActSpaced(w, m, v, d, w.cfg.cooldown);
  }

  lemma ActSpaced(w: World, m: Machine, v: Visit, d: Decision, cooldown: nat)
    requires MovesSpaced(m, cooldown) && v.now <= v.recordedAt
    requires d.row.lastManagementAt ==
      (if v.pid in m.session.positions then m.session.positions[v.pid].lastManagementAt else None)
    requires IsStopMove(d.action.key.action) ==> CooldownElapsed(d.row.lastManagementAt, cooldown, v.now)
    ensures MovesSpaced(Act(w, m, v, d), cooldown)
  {
    NotedKeepsMoves(m, v.pid, d, cooldown);
    CarrySpaced(w, Noted(m, v.pid, d), v, d, cooldown);
  }

  lemma StepSpaced(w: World, m: Machine, e: Event, n: Machine)
    requires Steps(w, m, e, n) && KeysConsistent(m.session) && MovesSpaced(m, w.cfg.cooldown)
    requires e.Abort? ==> MovesStored(m)
    ensures MovesSpaced(n, w.cfg.cooldown)
  {
    if e.Handle? { VisitSpaced(w, m, e.visit); }
  }

  ghost predicate RollbacksKeepMoves(ms: seq<Machine>, es: seq<Event>)
    requires |ms| == |es| + 1
  {
    forall i :: 0 <= i < |es| && es[i].Abort? ==> MovesStored(ms[i])
  }

  lemma {:induction false} MovesSpacedAt(w: World, ms: seq<Machine>, es: seq<Event>, i: nat)
    requires IsRun(w, ms, es) && i <= |es| && RollbacksKeepMoves(ms, es)
    requires KeysConsistent(ms[0].session) && KeysConsistent(ms[0].committed) && MovesSpaced(ms[0], w.cfg.cooldown)
    ensures MovesSpaced(ms[i], w.cfg.cooldown)
  {
    if i > 0 {
      MovesSpacedAt(w, ms, es, i - 1);
      KeysConsistentAt(w, ms, es, i - 1);
      StepAt(w, ms, es, i - 1);
      StepSpaced(w, ms[i - 1], es[i - 1], ms[i]);
    }
  }

  // Over every run: after an accepted stop move of a position already stored when its cycle began, the next accepted
  // stop move of that position is at least the cooldown later, and the session remembers the last one, exactly when no
  // rollback came while the management time of such a move was not yet stored.
  lemma StopMovesAreSpaced(w: World, ms: seq<Machine>, es: seq<Event>)
    requires IsRun(w, ms, es) && KeysConsistent(ms[0].session) && KeysConsistent(ms[0].committed)
    requires MovesSpaced(ms[0], w.cfg.cooldown)
    ensures (forall i :: 0 <= i <= |es| ==> MovesSpaced(ms[i], w.cfg.cooldown)) <==> RollbacksKeepMoves(ms, es)
  {
    if RollbacksKeepMoves(ms, es) {
      forall i | 0 <= i <= |es| ensures MovesSpaced(ms[i], w.cfg.cooldown) { MovesSpacedAt(w, ms, es, i); }
    }
    if forall i :: 0 <= i <= |es| ==> MovesSpaced(ms[i], w.cfg.cooldown) {
      forall i | 0 <= i < |es| && es[i].Abort? ensures MovesStored(ms[i]) {
        RolledBack(w, ms[i], es[i], ms[i + 1]);
        RollbackKeepsMovesIffStored(w, ms[i]);
      }
    }
  }

  // ----- The first cycle of a position -----

  // Rows not yet stored carry no management time, and only stored positions have stage rows.
  ghost predicate NewRowsBare(m: Machine)
  {
    && m.committed.positions.Keys <= m.session.positions.Keys
    && (forall pid :: pid in m.session.positions && pid !in m.committed.positions ==>
      m.session.positions[pid].lastManagementAt == None)
    && (forall x :: x in m.session.stages || x in m.committed.stages ==> x.0 in m.committed.positions)
  }

  lemma CarryKeepsNewRowsBare(w: World, m: Machine, v: Visit, d: Decision)
    requires NewRowsBare(m) && v.pid in m.session.positions
    ensures NewRowsBare(Carry(w, m, v, d))
  {
    CarryMoves(w, m, v, d);
    CarryProtections(w, m, v, d);
    assert Carry(w, m, v, d).committed == m.committed;
  }

  lemma StepKeepsNewRowsBare(w: World, m: Machine, e: Event, n: Machine)
    requires Steps(w, m, e, n) && NewRowsBare(m)
    ensures NewRowsBare(n)
  {
    if e.Handle? {
      RowFacts(w, m, e.visit);
      CarryKeepsNewRowsBare(w, Noted(m, e.visit.pid, Decide(w, m, e.visit)), e.visit, Decide(w, m, e.visit));
    }
  }

  lemma {:induction false} NewRowsStayBare(w: World, ms: seq<Machine>, es: seq<Event>, i: nat)
    requires IsRun(w, ms, es) && i <= |es| && NewRowsBare(ms[0])
    ensures NewRowsBare(ms[i])
  {
    if i > 0 {
      NewRowsStayBare(w, ms, es, i - 1);
      StepKeepsNewRowsBare(w, ms[i - 1], es[i - 1], ms[i]);
    }
  }

  // A visit that moved a stop starts the position's cooldown exactly when the position was stored before its cycle.
  lemma MoveStartsCooldownIffStored(w: World, m: Machine, v: Visit)
    requires Enabled(w, m, Handle(v)) && NewRowsBare(m) && w.cfg.cooldown > 0
    requires HandleVisit(w, m, v).log.moves != m.log.moves
    ensures var t := HandleVisit(w, m, v); v.pid in t.session.positions
    ensures var last := HandleVisit(w, m, v).session.positions[v.pid].lastManagementAt;
      CooldownElapsed(last, w.cfg.cooldown, v.recordedAt) <==> v.pid !in m.committed.positions
  {
    RowFacts(w, m, v);
    CarryMoves(w, Noted(m, v.pid, Decide(w, m, v)), v, Decide(w, m, v));
  }

  // A visit whose staged close was accepted marks the stage exactly when the position was stored before its cycle.
  lemma CloseMarksStageIffStored(w: World, m: Machine, v: Visit)
    requires Enabled(w, m, Handle(v)) && NewRowsBare(m)
    requires HandleVisit(w, m, v).log.protections != m.log.protections
    ensures var t, n := HandleVisit(w, m, v), |m.log.protections|;
      && |t.log.protections| == n + 1 && t.log.protections[n].pid == v.pid
      && ((v.pid, t.log.protections[n].stage) in t.session.stages <==> v.pid in m.committed.positions)
  {
    CarryProtections(w, Noted(m, v.pid, Decide(w, m, v)), v, Decide(w, m, v));
  }

  lemma ActKeepsCommitted(w: World, m: Machine, v: Visit, d: Decision)
    ensures Act(w, m, v, d).committed == m.committed
  {
  }

  // A rolled-back cycle forgets that it submitted, so the submit routine can be called again with the same key; what
  // stops a second order is the order table, which was committed separately.
  lemma RollbackForgetsSubmission(w: World, m: Machine, v: Visit, key: Key, s: Submission)
    requires Enabled(w, m, Handle(v)) && key !in m.committed.actions && SendsOnce(m)
    requires key in HandleVisit(w, m, v).log.sends
    ensures var t := Apply(w, HandleVisit(w, m, v), Abort);
      key !in t.session.actions && !Submit(t.orders, key, s).sent
  {
    ActSendsOnce(w, m, v, Decide(w, m, v));
    ActKeepsCommitted(w, m, v, Decide(w, m, v));
  }

  // ----- Staged protection -----

  function KnownProtections(ps: seq<Protection>): set<(Pid, Stage)>
  {
    set i | 0 <= i < |ps| && ps[i].known :: (ps[i].pid, ps[i].stage)
  }

  ghost predicate OncePerStage(ps: seq<Protection>, stages: set<(Pid, Stage)>)
  {
    && stages == KnownProtections(ps)
    && forall i, j :: 0 <= i < j < |ps| && ps[i].known && ps[j].known ==>
      ps[i].pid != ps[j].pid || ps[i].stage != ps[j].stage
  }

  ghost predicate ProtectedOnce(m: Machine) { OncePerStage(m.log.protections, m.session.stages) }

  lemma KnownSnoc(ps: seq<Protection>, p: Protection)
    ensures KnownProtections(ps + [p]) == KnownProtections(ps) + (if p.known then {(p.pid, p.stage)} else {})
  {
    var all := ps + [p];
    forall x
      ensures x in KnownProtections(all) <==> x in KnownProtections(ps) + (if p.known then {(p.pid, p.stage)} else {})
    {
      if x in KnownProtections(ps) {
        var i :| 0 <= i < |ps| && ps[i].known && x == (ps[i].pid, ps[i].stage);
        assert all[i] == ps[i];
      }
      if p.known { assert all[|ps|] == p; }
    }
  }

  // Carrying out an action changes stages and staged closes only by an accepted staged close of its own stage.
  lemma CarryProtections(w: World, m: Machine, v: Visit, d: Decision)
    ensures var t := Carry(w, m, v, d); var known := v.pid in m.committed.positions;
      || (t.log.protections == m.log.protections && t.session.stages == m.session.stages)
      || (d.action.stage.Some?
          && t.log.protections == m.log.protections + [Protection(v.pid, d.action.stage.value, known)]
          && t.session.stages == m.session.stages + (if known then {(v.pid, d.action.stage.value)} else {}))
  {
  }

  lemma FreshProtection(ps: seq<Protection>, stages: set<(Pid, Stage)>, p: Protection)
    requires OncePerStage(ps, stages) && (p.pid, p.stage) !in stages
    ensures OncePerStage(ps + [p], stages + (if p.known then {(p.pid, p.stage)} else {}))
  {
    KnownSnoc(ps, p);
    forall i | 0 <= i < |ps| && ps[i].known ensures (ps[i].pid, ps[i].stage) in stages {}
  }

  // The exact condition for one visit: a staged close accepted for a stored position repeats its stage just when that
  // stage was already marked.
  lemma StageRepeatsIffMarked(w: World, m: Machine, v: Visit, d: Decision)
    requires ProtectedOnce(m) && v.pid in m.committed.positions
    requires Act(w, m, v, d).log.protections != m.log.protections
    ensures d.action.stage.Some?
    ensures ProtectedOnce(Act(w, m, v, d)) <==> (v.pid, d.action.stage.value) !in m.session.stages
  {
    CarryProtections(w, Noted(m, v.pid, d), v, d);
    var ps, p := m.log.protections, Protection(v.pid, d.action.stage.value, true);
    if (v.pid, d.action.stage.value) !in m.session.stages {
      FreshProtection(ps, m.session.stages, p);
    } else {
      var i :| 0 <= i < |ps| && ps[i].known && (ps[i].pid, ps[i].stage) == (v.pid, d.action.stage.value);
      assert (ps + [p])[i] == ps[i] && (ps + [p])[|ps|] == p;
    }
  }

  // The stage rows of every accepted close have reached the store.
  ghost predicate StagesStored(m: Machine) { m.committed.stages == m.session.stages }

  // The exact condition for one rollback.
  lemma RollbackKeepsStagesIffStored(w: World, m: Machine)
    requires ProtectedOnce(m)
    ensures ProtectedOnce(Apply(w, m, Abort)) <==> StagesStored(m)
  {
  }

  // A visit with an accepted staged close of a stored position whose stage is marked already. The code asks for the
  // mark of the stage it newly chose; the action it executes is the one its key finds.
  ghost predicate Repeats(w: World, m: Machine, e: Event)
  {
    && e.Handle? && Enabled(w, m, e) && HandleVisit(w, m, e.visit).log.protections != m.log.protections
    && e.visit.pid in m.committed.positions
    && var a := Decide(w, m, e.visit).action; a.stage.Some? && (e.visit.pid, a.stage.value) in m.session.stages
  }

  lemma UnstoredCloseKeepsOnce(w: World, m: Machine, v: Visit, d: Decision)
    requires ProtectedOnce(m) && v.pid !in m.committed.positions
    ensures ProtectedOnce(Act(w, m, v, d))
  {
    CarryProtections(w, Noted(m, v.pid, d), v, d);
    if d.action.stage.Some? { KnownSnoc(m.log.protections, Protection(v.pid, d.action.stage.value, false)); }
  }

  lemma NoCloseKeepsOnce(w: World, m: Machine, v: Visit, d: Decision)
    requires ProtectedOnce(m) && Act(w, m, v, d).log.protections == m.log.protections
    ensures ProtectedOnce(Act(w, m, v, d))
  {
    CarryProtections(w, Noted(m, v.pid, d), v, d);
  }

  // The exact condition for one event of any kind.
  lemma StepProtectsOnceIff(w: World, m: Machine, e: Event, n: Machine)
    requires Steps(w, m, e, n) && ProtectedOnce(m)
    ensures ProtectedOnce(n) <==> (e.Abort? ==> StagesStored(m)) && !Repeats(w, m, e)
  {
    if e.Handle? {
      VisitProtectsOnceIff(w, m, e.visit);
    } else if e.Abort? {
      RollbackKeepsStagesIffStored(w, m);
    }
  }

  lemma VisitProtectsOnceIff(w: World, m: Machine, v: Visit)
    requires Enabled(w, m, Handle(v)) && ProtectedOnce(m)
    ensures ProtectedOnce(HandleVisit(w, m, v)) <==> !Repeats(w, m, Handle(v))
  {
    var d := Decide(w, m, v);
    if HandleVisit(w, m, v).log.protections == m.log.protections {
      NoCloseKeepsOnce(w, m, v, d);
    } else if v.pid in m.committed.positions {
      StageRepeatsIffMarked(w, m, v, d);
    } else {
      UnstoredCloseKeepsOnce(w, m, v, d);
    }
  }

  ghost predicate RollbacksKeepStages(ms: seq<Machine>, es: seq<Event>)
    requires |ms| == |es| + 1
  {
    forall i :: 0 <= i < |es| && es[i].Abort? ==> StagesStored(ms[i])
  }

  ghost predicate NoneRepeats(w: World, ms: seq<Machine>, es: seq<Event>)
    requires |ms| == |es| + 1
  {
    forall i :: 0 <= i < |es| ==> !Repeats(w, ms[i], es[i])
  }

  lemma {:induction false} ProtectedOnceAt(w: World, ms: seq<Machine>, es: seq<Event>, i: nat)
    requires IsRun(w, ms, es) && i <= |es| && RollbacksKeepStages(ms, es) && NoneRepeats(w, ms, es)
    requires ProtectedOnce(ms[0])
    ensures ProtectedOnce(ms[i])
  {
    if i > 0 {
      ProtectedOnceAt(w, ms, es, i - 1);
      StepProtectsOnceIff(w, ms[i - 1], es[i - 1], ms[i]);
    }
  }

  // Over every run: a stored position has at most one accepted staged close per stage, and a stage is marked exactly
  // when such a close was accepted, exactly when no rollback came while a stage row was not yet stored and no visit had
  // a close accepted whose stage, that of the stored action, was marked already.
  lemma StagesExecutedAtMostOnce(w: World, ms: seq<Machine>, es: seq<Event>)
    requires IsRun(w, ms, es) && ProtectedOnce(ms[0])
    ensures (forall i :: 0 <= i <= |es| ==> ProtectedOnce(ms[i])) <==>
      RollbacksKeepStages(ms, es) && NoneRepeats(w, ms, es)
  {
    if RollbacksKeepStages(ms, es) && NoneRepeats(w, ms, es) {
      forall i | 0 <= i <= |es| ensures ProtectedOnce(ms[i]) { ProtectedOnceAt(w, ms, es, i); }
    }
    if forall i :: 0 <= i <= |es| ==> ProtectedOnce(ms[i]) {
      forall i | 0 <= i < |es| ensures (es[i].Abort? ==> StagesStored(ms[i])) && !Repeats(w, ms[i], es[i]) {
        StepAt(w, ms, es, i);
        StepProtectsOnceIff(w, ms[i], es[i], ms[i + 1]);
      }
    }
  }

  // ----- Cycles a minute apart never find an action of another stage -----

  // Visits of a position are at least a minute apart, as when the monitor interval is set to its maximum and no cycle
  // is asked for in between.
  ghost predicate AMinuteApart(es: seq<Event>)
  {
    forall i, j :: 0 <= i < j < |es| && es[i].Handle? && es[j].Handle? && es[i].visit.pid == es[j].visit.pid ==>
      es[j].visit.keyedAt >= es[i].visit.keyedAt + 60
  }

  // The key was made by one of the first n events.
  ghost predicate Made(es: seq<Event>, n: nat, k: Key)
    requires n <= |es|
  {
    exists i :: 0 <= i < n && es[i].Handle? && es[i].visit.pid == k.pid && es[i].visit.keyedAt / 60 == k.minute
  }

  ghost predicate AllMade(db: Db, es: seq<Event>, n: nat)
    requires n <= |es|
  {
    forall k :: k in db.actions ==> Made(es, n, k)
  }

  lemma MadeLater(es: seq<Event>, n: nat, k: Key)
    requires n < |es| && Made(es, n, k)
    ensures Made(es, n + 1, k)
  {
  }

  lemma DecisionKey(w: World, m: Machine, v: Visit)
    requires v.pid in m.listed && SyncedRow(w, m, v).Some? && KeysConsistent(m.session)
    ensures var d := Decide(w, m, v);
      && d.action.key.pid == v.pid && d.action.key.minute == v.keyedAt / 60
      && (d.action.key !in m.session.actions ==> d.action.stage == d.choice.stage)
  {
  }

  lemma VisitMakesKey(w: World, m: Machine, v: Visit, d: Decision, es: seq<Event>, n: nat)
    requires n < |es| && es[n] == Handle(v) && d.action.key.pid == v.pid && d.action.key.minute == v.keyedAt / 60
    requires AllMade(m.session, es, n)
    ensures AllMade(Act(w, m, v, d).session, es, n + 1)
  {
    var a := CarryActions(w, Noted(m, v.pid, d), v, d);
    assert es[n].Handle?;
    forall k | k in Act(w, m, v, d).session.actions ensures Made(es, n + 1, k) {
      if k != d.action.key { MadeLater(es, n, k); }
    }
  }

  lemma {:induction false} ActionsMadeAt(w: World, ms: seq<Machine>, es: seq<Event>, n: nat)
    requires IsRun(w, ms, es) && n <= |es| && ms[0].session.actions == map[] == ms[0].committed.actions
    ensures KeysConsistent(ms[n].session) && AllMade(ms[n].session, es, n) && AllMade(ms[n].committed, es, n)
  {
    KeysConsistentAt(w, ms, es, n);
    if n > 0 {
      ActionsMadeAt(w, ms, es, n - 1);
      StepMakes(w, ms[n - 1], es, n - 1, ms[n]);
    }
  }

  lemma StepMakes(w: World, m: Machine, es: seq<Event>, i: nat, n: Machine)
    requires i < |es| && Steps(w, m, es[i], n) && KeysConsistent(m.session)
    requires AllMade(m.session, es, i) && AllMade(m.committed, es, i)
    ensures AllMade(n.session, es, i + 1) && AllMade(n.committed, es, i + 1)
  {
    if es[i].Handle? {
      var v := es[i].visit;
      DecisionKey(w, m, v);
      VisitMakesKey(w, m, v, Decide(w, m, v), es, i);
      ActKeepsCommitted(w, m, v, Decide(w, m, v));
    }
    forall k | k in m.session.actions || k in m.committed.actions ensures Made(es, i + 1, k) { MadeLater(es, i, k); }
  }

  lemma StageIsFresh(m: Machine, pid: Pid, d: Decision, cfg: Config, now: int)
    requires CandidateOk(d.row, d.choice, cfg, now, DoneStages(m.session, pid), false)
    requires d.action.stage == d.choice.stage
    ensures d.action.stage.Some? ==> (pid, d.action.stage.value) !in m.session.stages
  {
    if d.action.stage.Some? {
      assert d.action.stage.value in {Stage1, Stage2, Runner} by {
        match d.action.stage.value case Stage1 => case Stage2 => case Runner =>
      }
      assert d.action.stage.value !in DoneStages(m.session, pid);
    }
  }

  lemma NewKeyRepeatsNothing(w: World, m: Machine, es: seq<Event>, i: nat)
    requires i < |es| && es[i].Handle? && Enabled(w, m, es[i]) && AMinuteApart(es)
    requires KeysConsistent(m.session) && AllMade(m.session, es, i)
    ensures !Repeats(w, m, es[i])
  {
    var v := es[i].visit;
    DecisionKey(w, m, v);
    DecisionFacts(w, m, v, false);
    assert Decide(w, m, v).action.key !in m.session.actions;
    StageIsFresh(m, v.pid, Decide(w, m, v), w.cfg, v.now);
  }

  // With visits a minute apart, over every run from a store without actions, rollbacks alone decide.
  lemma CyclesAMinuteApartRepeatNothing(w: World, ms: seq<Machine>, es: seq<Event>)
    requires IsRun(w, ms, es) && ms[0].session.actions == map[] == ms[0].committed.actions && AMinuteApart(es)
    ensures NoneRepeats(w, ms, es)
    ensures ProtectedOnce(ms[0]) ==>
      ((forall i :: 0 <= i <= |es| ==> ProtectedOnce(ms[i])) <==> RollbacksKeepStages(ms, es))
  {
    forall i | 0 <= i < |es| ensures !Repeats(w, ms[i], es[i]) {
      if es[i].Handle? {
        StepAt(w, ms, es, i);
        ActionsMadeAt(w, ms, es, i);
        NewKeyRepeatsNothing(w, ms[i], es, i);
      }
    }
    if ProtectedOnce(ms[0]) { StagesExecutedAtMostOnce(w, ms, es); }
  }

  // ----- Volume conservation -----

  function Filled(fills: seq<Fill>, pid: Pid): real
  {
    if |fills| == 0 then 0.0
    else
      Filled(fills[..|fills| - 1], pid)
      + (if fills[|fills| - 1].pid == pid then fills[|fills| - 1].filled else 0.0)
  }

  function FillsOfAtLeast(fills: seq<Fill>, pid: Pid, least: real): nat
  {
    if |fills| == 0 then 0
    else
      FillsOfAtLeast(fills[..|fills| - 1], pid, least)
      + (if fills[|fills| - 1].pid == pid && fills[|fills| - 1].filled >= least then 1 else 0)
  }

  lemma FilledSnoc(fills: seq<Fill>, f: Fill, pid: Pid)
    ensures Filled(fills + [f], pid) == Filled(fills, pid) + (if f.pid == pid then f.filled else 0.0)
  {
    assert (fills + [f])[..|fills|] == fills;
  }

  ghost predicate FillOk(f: Fill) { 0.0 <= f.filled <= f.requested && 0.0 < f.least <= f.requested }

  ghost predicate Conserved(m: Machine)
  {
    && (forall i :: 0 <= i < |m.log.fills| ==> FillOk(m.log.fills[i]))
    && (forall pid :: pid in m.broker ==> m.broker[pid].volume > 0.0 && pid in m.log.volumes
                                          && m.log.volumes[pid] == Filled(m.log.fills, pid) + m.broker[pid].volume)
    && (forall pid :: pid in m.log.volumes ==> Filled(m.log.fills, pid) <= m.log.volumes[pid])
    && (forall pid :: pid !in m.log.volumes ==> Filled(m.log.fills, pid) == 0.0)
  }

  // What carrying out an action does to broker and fills together.
  ghost predicate FillsAs(w: World, m: Machine, t: Machine, v: Visit, q: Option<Request>)
  {
    && t.log.volumes == m.log.volumes
    && ((t.broker == m.broker && t.log.fills == m.log.fills)
        || (v.pid in m.broker && q.Some? && t.broker == AfterRequest(m.broker, v.pid, q.value, FilledBy(v.submission))
            && t.log.fills == m.log.fills +
              (if q.value.CloseRequest? then [FillOf(w, m.broker[v.pid].symbol, v, q.value)] else [])))
  }

  lemma CarryFills(w: World, m: Machine, v: Visit, d: Decision)
    ensures FillsAs(w, m, Carry(w, m, v, d), v, RequestOf(w, d))
  {
  }

  lemma CloseConserves(m: Machine, t: Machine, pid: Pid, volume: real, f: Fill)
    requires Conserved(m) && pid in m.broker && f.pid == pid && FillOk(f)
    requires f.requested == volume <= m.broker[pid].volume
    requires t.log.volumes == m.log.volumes && t.log.fills == m.log.fills + [f]
    requires t.broker == AfterRequest(m.broker, pid, CloseRequest(volume), f.filled)
    ensures Conserved(t)
  {
    forall p ensures Filled(t.log.fills, p) == Filled(m.log.fills, p) + (if p == pid then f.filled else 0.0) {
      FilledSnoc(m.log.fills, f, p);
    }
  }

  lemma FillsConserve(w: World, m: Machine, t: Machine, v: Visit, q: Option<Request>)
    requires Conserved(m) && FillWithin(q, FilledBy(v.submission)) && FillsAs(w, m, t, v, q)
    requires v.pid in m.broker && q.Some? && q.value.CloseRequest? ==>
      var f := FillOf(w, m.broker[v.pid].symbol, v, q.value); 0.0 < f.least <= f.requested <= m.broker[v.pid].volume
    ensures Conserved(t)
  {
    if t.log.fills != m.log.fills {
      CloseConserves(m, t, v.pid, q.value.volume, FillOf(w, m.broker[v.pid].symbol, v, q.value));
    }
  }

  lemma ActConserves(w: World, m: Machine, v: Visit, d: Decision)
    requires Conserved(m) && FillWithin(RequestOf(w, d), FilledBy(v.submission))
    requires v.pid in m.broker && RequestOf(w, d).Some? && RequestOf(w, d).value.CloseRequest? ==>
      var f := FillOf(w, m.broker[v.pid].symbol, v, RequestOf(w, d).value);
        0.0 < f.least <= f.requested <= m.broker[v.pid].volume
    ensures Conserved(Act(w, m, v, d))
  {
    var n := Noted(m, v.pid, d);
    CarryFills(w, n, v, d);
    FillsConserve(w, n, Carry(w, n, v, d), v, RequestOf(w, d));
  }

  lemma VisitConserves(w: World, m: Machine, v: Visit)
    requires Enabled(w, m, Handle(v)) && KeysConsistent(m.session) && Conserved(m) && ListingCurrent(m)
    requires UnitConfig(w.cfg) && UnitMarket(v.market) && forall s :: Tradable(w.specs(s))
    ensures Conserved(HandleVisit(w, m, v))
  {
    var d := Decide(w, m, v);
    if v.pid in m.broker {
      DecisionFacts(w, m, v, true);
      if RequestOf(w, d).Some? && RequestOf(w, d).value.CloseRequest? {
        CloseRequestBounds(d.action.key.action, d.action.key.volume, d.row.currentVolume, w.specs(d.row.symbol));
      }
    }
    ActConserves(w, m, v, d);
  }

  ghost predicate UnitVisits(es: seq<Event>)
  {
    forall i :: 0 <= i < |es| && es[i].Handle? ==> UnitMarket(es[i].visit.market)
  }

  lemma StepConserves(w: World, m: Machine, e: Event, n: Machine)
    requires Steps(w, m, e, n) && KeysConsistent(m.session) && Conserved(m) && ListingCurrent(m)
    requires UnitConfig(w.cfg) && (e.Handle? ==> UnitMarket(e.visit.market)) && forall s :: Tradable(w.specs(s))
    ensures Conserved(n)
  {
    if e.Handle? { VisitConserves(w, m, e.visit); }
  }

  ghost predicate Settled(m: Machine)
  {
    KeysConsistent(m.session) && KeysConsistent(m.committed) && ListingCurrent(m) && Conserved(m)
  }

  // Over every run: what was closed of a position and what is left of it add up to what was opened; nothing goes
  // negative; every close submitted reaches the broker minimum.
  lemma {:induction false} VolumeIsConserved(w: World, ms: seq<Machine>, es: seq<Event>)
    requires IsRun(w, ms, es) && Settled(ms[0]) && UnitConfig(w.cfg) && UnitVisits(es)
    requires forall s :: Tradable(w.specs(s))
    ensures Settled(ms[|es|])
  {
    if |es| > 0 {
      VolumeIsConserved(w, ms[..|es|], es[..|es| - 1]);
      KeysStayConsistent(w, ms[|es| - 1], es[|es| - 1], ms[|es|]);
      StepKeepsListing(w, ms[|es| - 1], es[|es| - 1], ms[|es|]);
      StepConserves(w, ms[|es| - 1], es[|es| - 1], ms[|es|]);
    }
  }

  lemma {:induction false} LargeFillsAddUp(fills: seq<Fill>, pid: Pid, least: real)
    requires least >= 0.0 && forall i :: 0 <= i < |fills| ==> FillOk(fills[i])
    ensures Times(FillsOfAtLeast(fills, pid, least) as real, least) <= Filled(fills, pid)
  {
    if |fills| > 0 {
      var init := fills[..|fills| - 1];
      LargeFillsAddUp(init, pid, least);
      OneMore(FillsOfAtLeast(init, pid, least) as real, least);
    }
  }

  lemma OneMore(n: real, x: real)
    ensures Times(n + 1.0, x) == Times(n, x) + x
  {
  }

  // Hence a run has at most opened/least closes of a position that fill at least `least`.
  lemma ClosesAreBounded(w: World, ms: seq<Machine>, es: seq<Event>, pid: Pid, least: real)
    requires IsRun(w, ms, es) && Settled(ms[0]) && UnitConfig(w.cfg) && UnitVisits(es)
    requires forall s :: Tradable(w.specs(s))
    requires least >= 0.0 && pid in ms[|es|].log.volumes
    ensures Times(FillsOfAtLeast(ms[|es|].log.fills, pid, least) as real, least) <= ms[|es|].log.volumes[pid]
  {
    VolumeIsConserved(w, ms, es);
    LargeFillsAddUp(ms[|es|].log.fills, pid, least);
  }

  function Minimum(w: World, symbol: string): real { Defaulted(w.specs(symbol)).minVolume }

  // The position was opened under this symbol, whose minimum every fill of it was held to.
  ghost predicate OpenedAs(w: World, m: Machine, pid: Pid, symbol: string)
  {
    && pid in m.log.volumes && (pid in m.broker ==> m.broker[pid].symbol == symbol)
    && forall i :: 0 <= i < |m.log.fills| && m.log.fills[i].pid == pid ==> m.log.fills[i].least == Minimum(w, symbol)
  }

  lemma StepKeepsSymbol(w: World, m: Machine, e: Event, n: Machine, pid: Pid, symbol: string)
    requires Steps(w, m, e, n) && OpenedAs(w, m, pid, symbol)
    ensures OpenedAs(w, n, pid, symbol)
  {
    if e.Handle? { CarryFills(w, Noted(m, e.visit.pid, Decide(w, m, e.visit)), e.visit, Decide(w, m, e.visit)); }
  }

  lemma {:induction false} SymbolIsKept(w: World, ms: seq<Machine>, es: seq<Event>, pid: Pid, symbol: string, i: nat)
    requires IsRun(w, ms, es) && i <= |es| && OpenedAs(w, ms[0], pid, symbol)
    ensures OpenedAs(w, ms[i], pid, symbol)
  {
    if i > 0 {
      SymbolIsKept(w, ms, es, pid, symbol, i - 1);
      StepKeepsSymbol(w, ms[i - 1], es[i - 1], ms[i], pid, symbol);
    }
  }

  function FillCount(fills: seq<Fill>, pid: Pid): nat
  {
    if |fills| == 0 then 0 else FillCount(fills[..|fills| - 1], pid) + (if fills[|fills| - 1].pid == pid then 1 else 0)
  }

  lemma {:induction false} FullFillsAreLarge(fills: seq<Fill>, pid: Pid, least: real)
    requires forall i :: 0 <= i < |fills| && fills[i].pid == pid ==>
      FillOk(fills[i]) && fills[i].filled == fills[i].requested
    requires forall i :: 0 <= i < |fills| && fills[i].pid == pid ==> fills[i].least == least
    ensures FillsOfAtLeast(fills, pid, least) == FillCount(fills, pid)
  {
    if |fills| > 0 { FullFillsAreLarge(fills[..|fills| - 1], pid, least); }
  }

  // When every close of a position fills in full, their number times the symbol's minimum volume is at most the volume
  // opened, over every run: management of the position terminates.
  lemma FullClosesAreBounded(w: World, ms: seq<Machine>, es: seq<Event>, pid: Pid, symbol: string)
    requires IsRun(w, ms, es) && Settled(ms[0]) && UnitConfig(w.cfg) && UnitVisits(es)
    requires forall s :: Tradable(w.specs(s))
    requires OpenedAs(w, ms[0], pid, symbol)
    requires var fills := ms[|es|].log.fills; forall i :: 0 <= i < |fills| && fills[i].pid == pid ==>
      fills[i].filled == fills[i].requested
    ensures pid in ms[|es|].log.volumes
    ensures Times(FillCount(ms[|es|].log.fills, pid) as real, Minimum(w, symbol)) <= ms[|es|].log.volumes[pid]
  {
    VolumeIsConserved(w, ms, es);
    SymbolIsKept(w, ms, es, pid, symbol, |es|);
    FullFillsAreLarge(ms[|es|].log.fills, pid, Minimum(w, symbol));
    LargeFillsAddUp(ms[|es|].log.fills, pid, Minimum(w, symbol));
  }

  // ----- The circuit breaker -----

  // A cycle that began with the breaker open submits nothing.
  lemma OpenBreakerBlocks(w: World, m: Machine, v: Visit)
    requires Enabled(w, m, Handle(v)) && m.view.open
    ensures HandleVisit(w, m, v).log == m.log && HandleVisit(w, m, v).broker == m.broker
  {
  }

  lemma ActBreaker(w: World, m: Machine, v: Visit, d: Decision)
    ensures var b := Act(w, m, v, d).breaker; b == m.breaker || b == CountFailure(m.breaker, w.cfg.failureLimit)
  {
  }

  // What closes an open breaker: a reset, an activation, or a cycle that starts while its latest reason is an outage.
  ghost predicate Closing(m: Machine, e: Event)
  {
    e.Reset? || e.Activate? || (e.Begin? && m.breaker.reason == BrokerNotReady)
  }

  lemma StepBreaker(w: World, m: Machine, e: Event, n: Machine)
    requires Steps(w, m, e, n) && m.breaker.open
    ensures n.breaker.open <==> !Closing(m, e)
  {
    if e.Handle? { ActBreaker(w, m, e.visit, Decide(w, m, e.visit)); }
  }

  lemma {:induction false} BreakerOpenAt(w: World, ms: seq<Machine>, es: seq<Event>, i: nat)
    requires IsRun(w, ms, es) && i <= |es| && ms[0].breaker.open && forall k :: 0 <= k < i ==> !Closing(ms[k], es[k])
    ensures ms[i].breaker.open
  {
    if i > 0 {
      BreakerOpenAt(w, ms, es, i - 1);
      StepAt(w, ms, es, i - 1);
      StepBreaker(w, ms[i - 1], es[i - 1], ms[i]);
    }
  }

  // Over every run an open breaker stays open exactly when nothing closes it. In particular an outage is harmless when
  // a failed action overwrites its reason before the next cycle starts, or when no cycle starts.
  lemma OpenBreakerStaysOpenIff(w: World, ms: seq<Machine>, es: seq<Event>)
    requires IsRun(w, ms, es) && ms[0].breaker.open
    ensures (forall i :: 0 <= i <= |es| ==> ms[i].breaker.open) <==>
      forall k :: 0 <= k < |es| ==> !Closing(ms[k], es[k])
  {
    if forall k :: 0 <= k < |es| ==> !Closing(ms[k], es[k]) {
      forall i | 0 <= i <= |es| ensures ms[i].breaker.open { BreakerOpenAt(w, ms, es, i); }
    }
    if forall i :: 0 <= i <= |es| ==> ms[i].breaker.open {
      forall k | 0 <= k < |es| ensures !Closing(ms[k], es[k]) {
        StepAt(w, ms, es, k);
        StepBreaker(w, ms[k], es[k], ms[k + 1]);
      }
    }
  }

  // The next cycle closes an open breaker exactly when its latest reason is an outage; and an outage is enough to make
  // a breaker that failures had tripped close itself, with its failure count wiped.
  lemma OutageClearsFailures(w: World, m: Machine)
    ensures m.breaker.open ==> (!Apply(w, m, Begin).breaker.open <==> m.breaker.reason == BrokerNotReady)
    ensures Apply(w, Apply(w, m, Outage), Begin).breaker == Breaker(false, AutoRecovered, 0)
  {
  }

  // ----- Running extremes and the profit-lock floor -----

  ghost predicate Grew(r: PositionRow, s: PositionRow)
  {
    r.maxR <= s.maxR && r.maxTpProgress <= s.maxTpProgress && s.minR <= r.minR
  }

  ghost predicate AllGrew(before: map<Pid, PositionRow>, after: map<Pid, PositionRow>)
  {
    forall pid :: pid in before ==> pid in after && Grew(before[pid], after[pid])
  }

  lemma ActRow(w: World, m: Machine, v: Visit, d: Decision) returns (row: PositionRow)
    ensures Act(w, m, v, d).session.positions == m.session.positions[v.pid := row] && Grew(d.row, row)
    ensures Act(w, m, v, d).committed == m.committed
  {
    row := Act(w, m, v, d).session.positions[v.pid];
    CarryMoves(w, Noted(m, v.pid, d), v, d);
    ActKeepsCommitted(w, m, v, d);
  }

  lemma VisitGrows(w: World, m: Machine, v: Visit)
    requires Enabled(w, m, Handle(v)) && AllGrew(m.committed.positions, m.session.positions)
    ensures var t := HandleVisit(w, m, v);
      t.committed == m.committed && AllGrew(t.committed.positions, t.session.positions)
  {
    RowFacts(w, m, v);
    var row := ActRow(w, m, v, Decide(w, m, v));
  }

  lemma StepGrows(w: World, m: Machine, e: Event, n: Machine)
    requires Steps(w, m, e, n) && AllGrew(m.committed.positions, m.session.positions)
    ensures AllGrew(n.committed.positions, n.session.positions)
    ensures AllGrew(m.committed.positions, n.committed.positions)
  {
    if e.Handle? { VisitGrows(w, m, e.visit); }
  }

  lemma GrewTransitive(a: map<Pid, PositionRow>, b: map<Pid, PositionRow>, c: map<Pid, PositionRow>)
    requires AllGrew(a, b) && AllGrew(b, c)
    ensures AllGrew(a, c)
  {
    forall pid | pid in a
      ensures pid in c && Grew(a[pid], c[pid])
    {
      assert Grew(a[pid], b[pid]) && Grew(b[pid], c[pid]);
    }
  }

  // Committed extremes never shrink, through commits, rollbacks and changes of the stop.
  lemma {:induction false} ExtremesOnlyGrow(w: World, ms: seq<Machine>, es: seq<Event>)
    requires IsRun(w, ms, es) && AllGrew(ms[0].committed.positions, ms[0].session.positions)
    ensures AllGrew(ms[|es|].committed.positions, ms[|es|].session.positions)
    ensures AllGrew(ms[0].committed.positions, ms[|es|].committed.positions)
  {
    if |es| > 0 {
      ExtremesOnlyGrow(w, ms[..|es|], es[..|es| - 1]);
      StepGrows(w, ms[|es| - 1], es[|es| - 1], ms[|es|]);
      GrewTransitive(ms[0].committed.positions, ms[|es| - 1].committed.positions, ms[|es|].committed.positions);
    }
  }

  // The profit-lock ratchet over every run: once a position's floor is triggered it stays triggered; for a fixed
  // regime and volatility it never falls; whatever they become, at most a tenth of the earlier best R is given up.
  lemma ProfitLockRatchets(w: World, ms: seq<Machine>, es: seq<Event>, pid: Pid,
      regime: Regime, atrR: real, later: Regime, laterAtrR: real)
    requires IsRun(w, ms, es) && AllGrew(ms[0].committed.positions, ms[0].session.positions)
    requires pid in ms[0].committed.positions
    requires LockTriggered(ms[0].committed.positions[pid].maxTpProgress, ms[0].committed.positions[pid].maxR)
    ensures pid in ms[|es|].committed.positions
    ensures var r, s := ms[0].committed.positions[pid], ms[|es|].committed.positions[pid];
      var before, after := ProfitLock(r.maxTpProgress, r.maxR, regime, atrR).floor,
        ProfitLock(s.maxTpProgress, s.maxR, regime, atrR).floor;
      var changed := ProfitLock(s.maxTpProgress, s.maxR, later, laterAtrR).floor;
      before.Some? && after.Some? && changed.Some? && before.value <= after.value
      && changed.value >= before.value - Times(r.maxR, 0.10)
  {
    ExtremesOnlyGrow(w, ms, es);
    var r, s := ms[0].committed.positions[pid], ms[|es|].committed.positions[pid];
    FloorMonotone(r.maxTpProgress, r.maxR, s.maxTpProgress, s.maxR, regime, atrR);
    FloorAfterRegimeChange(r.maxTpProgress, r.maxR, regime, atrR, s.maxTpProgress, s.maxR, later, laterAtrR);
  }

  // The machine starts in every invariant used above.
  lemma StartIsSafe(w: World)
    ensures SendsOnce(START) && SubmitsOnce(START) && RatchetInvariant(w, START) && MovesSpaced(START, w.cfg.cooldown)
    ensures ProtectedOnce(START) && Settled(START) && NewRowsBare(START)
    ensures AllGrew(START.committed.positions, START.session.positions)
  {
  }
}
