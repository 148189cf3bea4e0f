/**
 The adaptive manager as a state machine: cycles over the open positions, with the session store that commits or rolls
 back as a whole, the separately committed order book and breaker, and the broker. Every result here is about all runs.
 */
module ManagerRun {
  import opened Common
  import opened TpProtection
  import opened ManagerRules

  // The idempotency key, standing for its hash: position, action, requested values and minute.
  datatype Key = Key(
    pid: Pid, action: ActionType, volume: Option<real>, sl: Option<real>, tp: Option<real>, minute: int)

  datatype Status =
    | Chosen | Held | ShadowSelected | ShadowNoActivation | BlockedCircuitOpen | BlockedNotAdopted
    | Submitted | Rejected | Errored | Noop

  // The stored action; its requested volume, stop and target are those of its key.
  datatype ActionRow = ActionRow(key: Key, stage: Option<Stage>, status: Status, attempted: bool)

  datatype Db = Db(positions: map<Pid, PositionRow>, actions: map<Key, ActionRow>, stages: set<(Pid, Stage)>)

  datatype Reason = NoReason | BrokerNotReady | ActionFailed | ManualReset | AutoRecovered

  datatype Breaker = Breaker(open: bool, reason: Reason, failed: nat)

  // The execution manager's own order table, committed at every transition.
  datatype OrderState = PendingOrder | SentOrder | AcceptedOrder | RejectedOrder
  datatype OrderRow = OrderRow(state: OrderState, ok: bool)

  datatype StopMove = StopMove(pid: Pid, at: int, known: bool)
  datatype Protection = Protection(pid: Pid, stage: Stage, known: bool)
  datatype Fill = Fill(pid: Pid, requested: real, filled: real, least: real)  // least: the symbol's minimum volume

  // History, for stating results: calls of the submit routine, orders sent to the broker, accepted stop moves and
  // staged closes (`known`: the position was stored before the cycle began), closes filled, and volumes opened.
  datatype Log = Log(
    submits: seq<Key>, sends: seq<Key>, moves: seq<StopMove>, protections: seq<Protection>, fills: seq<Fill>,
    volumes: map<Pid, real>)

  // `listed` holds what the broker reported when the cycle began of the positions still to be visited.
  datatype Machine = Machine(
    committed: Db, session: Db, view: Breaker, breaker: Breaker, orders: map<Key, OrderRow>,
    broker: map<Pid, Position>, listed: map<Pid, Position>, log: Log)

  datatype World = World(cfg: Config, specs: string -> SymbolSpec)

  // An activation with no symbols listed covers all of them.
  datatype Gate = Gate(demoActive: bool, activation: Option<set<string>>, live: bool, demoAccount: bool)

  // What happens to one submission; `took` and `filled` say what the broker did with a request whose call raised.
  datatype Submission =
    | LiveBlocked
    | PreflightRejected
    | ClientNotReady
    | SendRaised(took: bool, filled: real)
    | Answered(ok: bool, filled: real)

  datatype Visit = Visit(
    pid: Pid, price: real, market: Market, gate: Gate, allowed: bool, adopted: bool, now: int, keyedAt: int,
    recordedAt: int, ready: bool, submission: Submission)

  datatype Event =
    | Open(pid: Pid, position: Position)
    | Drop(pid: Pid)
    | Outage
    | Begin
    | Handle(visit: Visit)
    | Commit
    | Abort
    | Reset
    | Activate

  // ----- One visit -----

  // The synced row, the selected candidate, and the stored or newly created action.
  datatype Decision = Decision(row: PositionRow, choice: Candidate, action: ActionRow)

  function Reported(m: Machine, v: Visit): Position
    requires v.pid in m.listed
  {
    m.listed[v.pid].(priceCurrent := v.price)
  }

  function SyncedRow(w: World, m: Machine, v: Visit): Option<PositionRow>
    requires v.pid in m.listed
  {
    var stored := if v.pid in m.session.positions then Some(m.session.positions[v.pid]) else None;
    Sync(stored, Reported(m, v), v.market, w.cfg, v.allowed, v.adopted)
  }

  function DoneStages(db: Db, pid: Pid): set<Stage>
  {
    set s | s in {Stage1, Stage2, Runner} && (pid, s) in db.stages
  }

  function InitialStatus(choice: Candidate, gate: Gate, view: Breaker, managed: bool): Status
  {
    if !gate.demoActive then ShadowSelected
    else if gate.activation == None then ShadowNoActivation
    else if view.open then BlockedCircuitOpen
    else if !managed then BlockedNotAdopted
    else if choice.action == Hold then Held else Chosen
  }

  function KeyOf(pid: Pid, c: Candidate, at: int): Key
  {
    Key(pid, c.action, c.volume, c.sl, c.tp, at / 60)
  }

  function PersistedAction(db: Db, key: Key, choice: Candidate, status: Status): ActionRow
  {
    if key in db.actions then db.actions[key] else ActionRow(key, choice.stage, status, false)
  }

  function Decide(w: World, m: Machine, v: Visit): Decision
    requires v.pid in m.listed && SyncedRow(w, m, v).Some?
  {
    var row := SyncedRow(w, m, v).value;
    var choice := Select(Evaluate(row, PriceOf(Reported(m, v)), v.market, w.cfg, DoneStages(m.session, v.pid), v.now));
    var status := InitialStatus(choice, v.gate, m.view, row.managed);
    Decision(row, choice, PersistedAction(m.session, KeyOf(v.pid, choice, v.keyedAt), choice, status))
  }

  predicate CanExecute(a: ActionRow, row: PositionRow, gate: Gate, view: Breaker)
  {
    && a.key.action != Hold && gate.demoActive && gate.activation.Some? && !view.open
    && !a.attempted && a.status != Submitted && a.status != Rejected && a.status != Errored
    && !gate.live && gate.demoAccount && row.managed
    && (gate.activation.value == {} || row.symbol in gate.activation.value)
  }

  function WithAction(db: Db, a: ActionRow): Db { db.(actions := db.actions[a.key := a]) }

  // The position's turn has come: its row and action are in the session.
  function Noted(m: Machine, pid: Pid, d: Decision): Machine
  {
    m.(session := WithAction(m.session.(positions := m.session.positions[pid := d.row]), d.action),
      listed := m.listed - {pid})
  }

  // The reply of the submit routine (None when it raised), and whether an order went out.
  datatype Reply = Reply(orders: map<Key, OrderRow>, ok: Option<bool>, sent: bool)

  function OkOf(orders: map<Key, OrderRow>, key: Key): bool { key in orders && orders[key].ok }

  function Submit(orders: map<Key, OrderRow>, key: Key, s: Submission): Reply
  {
    if s.LiveBlocked? then Reply(orders[key := OrderRow(RejectedOrder, OkOf(orders, key))], Some(false), false)
    else if key in orders && orders[key].state != PendingOrder then Reply(orders, Some(orders[key].ok), false)
    else match s
      case SendRaised(_, _) => Reply(orders[key := OrderRow(SentOrder, false)], None, true)
      case Answered(ok, _) =>
        Reply(orders[key := OrderRow(if ok then AcceptedOrder else RejectedOrder, ok)], Some(ok), true)
      case ClientNotReady => Reply(orders[key := OrderRow(PendingOrder, false)], None, false)
      case _ => Reply(orders[key := OrderRow(RejectedOrder, false)], Some(false), false)
  }

  // The broker acts on a sent request when it accepts it, or when the call raised after it took effect.
  predicate TakesEffect(s: Submission, reply: Reply)
  {
    reply.sent && ((s.Answered? && s.ok) || (s.SendRaised? && s.took))
  }

  function FilledBy(s: Submission): real
  {
    match s case Answered(_, filled) => filled case SendRaised(_, filled) => filled case _ => 0.0
  }

  function AfterRequest(broker: map<Pid, Position>, pid: Pid, q: Request, filled: real): map<Pid, Position>
    requires pid in broker
  {
    match q
    case StopRequest(sl, tp) => broker[pid := broker[pid].(sl := Some(sl), tp := Some(tp))]
    case CloseRequest(_) =>
      if broker[pid].volume - filled == 0.0 then broker - {pid}
        else broker[pid := broker[pid].(volume := broker[pid].volume - filled)]
  }

  function CountFailure(b: Breaker, limit: nat): Breaker
  {
    if b.failed + 1 >= limit then Breaker(true, ActionFailed, b.failed + 1)
      else Breaker(b.open, ActionFailed, b.failed + 1)
  }

  function FillOf(w: World, symbol: string, v: Visit, q: Request): Fill
    requires q.CloseRequest?
  {
    Fill(v.pid, q.volume, FilledBy(v.submission), Defaulted(w.specs(symbol)).minVolume)
  }

  // What a submission does outside the session: the order table, the broker, the breaker, the history. A request for a
  // position that was closed elsewhere since it was listed has no effect at the broker, whatever the answer.
  function Effects(w: World, m: Machine, v: Visit, key: Key, q: Request): Machine
  {
    var reply := Submit(m.orders, key, v.submission);
    var took := TakesEffect(v.submission, reply) && v.pid in m.broker;
    m.(orders := reply.orders,
       broker := if took then AfterRequest(m.broker, v.pid, q, FilledBy(v.submission)) else m.broker,
       breaker := if reply.ok == Some(true) then m.breaker else CountFailure(m.breaker, w.cfg.failureLimit),
       log := m.log.(submits := m.log.submits + [key], sends := m.log.sends + (if reply.sent then [key] else []),
                     fills := m.log.fills + (if took && q.CloseRequest? then [FillOf(w, m.broker[v.pid].symbol, v, q)]
                       else [])))
  }

  function OutcomeStatus(ok: Option<bool>): Status
  {
    if ok == None then Errored else if ok.value then Submitted else Rejected
  }

  // Recording an accepted action. The position row is looked up in what the session has stored; a row first seen in
  // this cycle is still unflushed, and the lookup does not find it.
  function RecordAccepted(m: Machine, v: Visit, a: ActionRow, known: bool): Machine
  {
    var moved := IsStopMove(a.key.action);
    var staged := a.key.action == TpProgressPartialProtect && a.stage.Some?;
    var db := m.session;
    var timed := if known && moved && v.pid in db.positions
      then db.(positions := db.positions[v.pid := db.positions[v.pid].(lastManagementAt := Some(v.recordedAt))])
      else db;
    m.(session := if known && staged then timed.(stages := timed.stages + {(v.pid, a.stage.value)}) else timed,
       log := m.log.(moves := m.log.moves + (if moved then [StopMove(v.pid, v.recordedAt, known)] else []),
                     protections := m.log.protections
                     + (if staged then [Protection(v.pid, a.stage.value, known)] else [])))
  }

  function RequestOf(w: World, d: Decision): Option<Request>
  {
    var k := d.action.key;
    BuildRequest(k.action, k.volume, k.sl, k.tp, d.row.currentVolume, w.specs(d.row.symbol))
  }

  function Carry(w: World, m: Machine, v: Visit, d: Decision): Machine
  {
    var q := RequestOf(w, d);
    if !v.ready then
      m.(session := WithAction(m.session, d.action.(status := Errored)),
        breaker := CountFailure(m.breaker, w.cfg.failureLimit))
    else if q == None then m.(session := WithAction(m.session, d.action.(status := Noop)))
    else
      var acted := Effects(w, m, v, d.action.key, q.value);
      var ok := Submit(m.orders, d.action.key, v.submission).ok;
      var done := d.action.(status := OutcomeStatus(ok), attempted := true);
      var settled := acted.(session := WithAction(acted.session, done));
      if ok == Some(true) then RecordAccepted(settled, v, d.action, v.pid in m.committed.positions) else settled
  }

  function HandleVisit(w: World, m: Machine, v: Visit): Machine
    requires v.pid in m.listed && SyncedRow(w, m, v).Some?
  {
    Act(w, m, v, Decide(w, m, v))
  }

  function Act(w: World, m: Machine, v: Visit, d: Decision): Machine
  {
    if CanExecute(d.action, d.row, v.gate, m.view) then Carry(w, Noted(m, v.pid, d), v, d) else Noted(m, v.pid, d)
  }

  // ----- Runs -----

  function AutoRecovery(b: Breaker): Breaker
  {
    if b.open && b.reason == BrokerNotReady then Breaker(false, AutoRecovered, 0) else b
  }

  // The broker never fills more than was asked.
  predicate FillWithin(q: Option<Request>, filled: real)
  {
    0.0 <= filled && (q.Some? && q.value.CloseRequest? ==> filled <= q.value.volume)
  }

  ghost predicate Enabled(w: World, m: Machine, e: Event)
  {
    match e
    case Open(pid, p) => pid !in m.log.volumes && pid !in m.broker && pid !in m.listed && p.volume > 0.0
    case Handle(v) =>
      v.pid in m.listed && SyncedRow(w, m, v).Some? && v.now <= v.keyedAt <= v.recordedAt
      && FillWithin(RequestOf(w, Decide(w, m, v)), FilledBy(v.submission))
    case _ => true
  }

  // An abort is an exception anywhere in a cycle: the session rolls back, everything else stays. An activation, by
  // hand or by a cycle that finds none, closes the breaker like a reset.
  function Apply(w: World, m: Machine, e: Event): Machine
    requires e.Handle? ==> e.visit.pid in m.listed && SyncedRow(w, m, e.visit).Some?
  {
    match e
    case Open(pid, p) => m.(broker := m.broker[pid := p], log := m.log.(volumes := m.log.volumes[pid := p.volume]))
    case Drop(pid) => m.(broker := m.broker - {pid})
    case Outage => m.(breaker := m.breaker.(open := true, reason := BrokerNotReady))
    case Begin => m.(breaker := AutoRecovery(m.breaker), view := AutoRecovery(m.breaker), listed := m.broker)
    case Handle(v) => HandleVisit(w, m, v)
    case Commit => m.(committed := m.session, listed := map[])
    case Abort => m.(session := m.committed, listed := map[])
    case Reset => m.(breaker := Breaker(false, ManualReset, 0))
    case Activate => m.(breaker := Breaker(false, NoReason, 0))
  }

  ghost predicate Steps(w: World, m: Machine, e: Event, n: Machine) { Enabled(w, m, e) && n == Apply(w, m, e) }

  const EMPTY_DB := Db(map[], map[], {})

  const START := Machine(EMPTY_DB, EMPTY_DB, Breaker(false, NoReason, 0), Breaker(false, NoReason, 0), map[], map[],
    map[], Log([], [], [], [], [], map[]))

  ghost predicate IsRun(w: World, ms: seq<Machine>, es: seq<Event>)
  {
    |ms| == |es| + 1 && forall i :: 0 <= i < |es| ==> Steps(w, ms[i], es[i], ms[i + 1])
  }

  // ----- Each key reaches the broker at most once -----

  ghost predicate Distinct(ks: seq<Key>) { forall i, j :: 0 <= i < j < |ks| ==> ks[i] != ks[j] }

  ghost predicate SendsOnce(m: Machine)
  {
    Distinct(m.log.sends) && forall k :: k in m.log.sends ==> k in m.orders && m.orders[k].state != PendingOrder
  }

  lemma SubmitSendsOnce(orders: map<Key, OrderRow>, key: Key, s: Submission, sends: seq<Key>)
    requires Distinct(sends) && forall k :: k in sends ==> k in orders && orders[k].state != PendingOrder
    ensures var r := Submit(orders, key, s); var after := sends + (if r.sent then [key] else []);
      Distinct(after) && forall k :: k in after ==> k in r.orders && r.orders[k].state != PendingOrder
  {
  }

  lemma CarrySendsOnce(w: World, m: Machine, v: Visit, d: Decision)
    requires SendsOnce(m)
    ensures SendsOnce(Carry(w, m, v, d))
  {
    SubmitSendsOnce(m.orders, d.action.key, v.submission, m.log.sends);
  }

  lemma ActSendsOnce(w: World, m: Machine, v: Visit, d: Decision)
    requires SendsOnce(m)
    ensures SendsOnce(Act(w, m, v, d))
  {
    CarrySendsOnce(w, Noted(m, v.pid, d), v, d);
  }

  lemma StepSendsOnce(w: World, m: Machine, e: Event, n: Machine)
    requires Steps(w, m, e, n) && SendsOnce(m)
    ensures SendsOnce(n)
  {
    if e.Handle? { ActSendsOnce(w, m, e.visit, Decide(w, m, e.visit)); }
  }

  lemma {:induction false} SendsOnceSoFar(w: World, ms: seq<Machine>, es: seq<Event>, i: nat)
    requires IsRun(w, ms, es) && SendsOnce(ms[0]) && i <= |es|
    ensures SendsOnce(ms[i])
  {
    if i > 0 {
      SendsOnceSoFar(w, ms, es, i - 1);
      StepSendsOnce(w, ms[i - 1], es[i - 1], ms[i]);
    }
  }

  // Over every run at all (rejections, raised calls, retries, rolled-back cycles) each key is sent at most once.
  lemma EachKeySentAtMostOnce(w: World, ms: seq<Machine>, es: seq<Event>)
    requires IsRun(w, ms, es) && SendsOnce(ms[0])
    ensures SendsOnce(ms[|es|])
  {
    SendsOnceSoFar(w, ms, es, |es|);
  }
}
