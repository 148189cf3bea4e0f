/**
 The alert evaluator's lifecycle: expiry, trigger caps and cooldown over any interleaving of market ticks with the
 PATCH and DELETE requests of users, and the bounded price cache the conditions read.
 */
module Alerts {
  import opened Common

  datatype Status = Active | Triggered | Expired | Paused | Deleted

  datatype Alert = Alert(
    symbol: string, user: string, status: Status, cooldownMinutes: int, cooldownSeconds: int,
    expiry: Option<int>, maxTriggers: int, triggerCount: int, triggeredAt: Option<int>,
    lastTriggeredAt: Option<int>, lastValue: Option<real>)

  datatype TriggerRow = TriggerRow(alert: nat, value: Option<real>, at: int)

  // What one alert's turn reads: the clock at its start, the clock of its cooldown check, and its condition's outcome.
  datatype Reading = Reading(now: int, checkedAt: int, ok: bool, value: Option<real>)

  predicate ShouldExpire(a: Alert, now: int) { a.expiry.Some? && a.expiry.value <= now }

  predicate MaxTriggersReached(a: Alert) { a.maxTriggers > 0 && a.triggerCount >= a.maxTriggers }

  // In seconds; minutes win when positive.
  function Cooldown(a: Alert): nat
  {
    if a.cooldownMinutes > 0 then a.cooldownMinutes * 60 else if a.cooldownSeconds > 0 then a.cooldownSeconds else 0
  }

  function LastTriggered(a: Alert): Option<int>
  {
    if a.lastTriggeredAt.Some? then a.lastTriggeredAt else a.triggeredAt
  }

  predicate CooldownReady(a: Alert, at: int)
  {
    LastTriggered(a) == None || Cooldown(a) == 0 || at >= LastTriggered(a).value + Cooldown(a)
  }

  predicate Fires(a: Alert, r: Reading)
  {
    !ShouldExpire(a, r.now) && !MaxTriggersReached(a) && CooldownReady(a, r.checkedAt) && r.ok
  }

  function Fired(a: Alert, r: Reading): Alert
  {
    var counted := a.(triggeredAt := Some(r.now), lastTriggeredAt := Some(r.now), lastValue := r.value,
      triggerCount := a.triggerCount + 1);
    if MaxTriggersReached(counted) then counted.(status := Expired) else counted
  }

  // The effect of a tick of the alert's symbol on an active alert.
  function Turn(a: Alert, r: Reading): Alert
  {
    if ShouldExpire(a, r.now) || MaxTriggersReached(a) then a.(status := Expired)
    else if Fires(a, r) then Fired(a, r) else a
  }

  datatype Patch = Patch(
    cooldownSeconds: Option<int>, cooldownMinutes: Option<int>, expiry: Option<int>, maxTriggers: Option<int>,
    status: Option<Status>)

  function AtLeastZero(x: int): nat { if x < 0 then 0 else x }

  function Patched(a: Alert, p: Patch): Alert
  {
    a.(cooldownSeconds := if p.cooldownSeconds.Some? then AtLeastZero(p.cooldownSeconds.value) else a.cooldownSeconds,
       cooldownMinutes := if p.cooldownMinutes.Some? then AtLeastZero(p.cooldownMinutes.value) else a.cooldownMinutes,
       expiry := if p.expiry.Some? then p.expiry else a.expiry,
       maxTriggers := if p.maxTriggers.Some? then AtLeastZero(p.maxTriggers.value) else a.maxTriggers,
       status := if p.status.Some? then p.status.value else a.status)
  }

  // ----- The stored rows -----

  datatype Store = Store(alerts: map<nat, Alert>, triggers: seq<TriggerRow>)

  predicate Selected(s: Store, symbol: string, id: nat)
  {
    id in s.alerts && s.alerts[id].symbol == symbol && s.alerts[id].status == Active
  }

  function TurnOf(s: Store, id: nat, r: Reading): Store
    requires id in s.alerts
  {
    Store(s.alerts[id := Turn(s.alerts[id], r)],
          s.triggers + (if Fires(s.alerts[id], r) then [TriggerRow(id, r.value, r.now)] else []))
  }

  // The alerts a tick's query returned, each handled once, in query order.
  function Tick(s: Store, ids: seq<nat>, readings: nat -> Reading): Store
    requires forall i :: 0 <= i < |ids| ==> ids[i] in s.alerts
    ensures Tick(s, ids, readings).alerts.Keys == s.alerts.Keys
  {
    if |ids| == 0 then s
    else
      var t := Tick(s, ids[..|ids| - 1], readings);
      TurnOf(t, ids[|ids| - 1], readings(ids[|ids| - 1]))
  }

  // A request is answered 404 unless the row exists and belongs to the user; a PATCH that fails validation is rolled
  // back.
  function Patching(s: Store, id: nat, user: string, p: Patch, valid: bool): Store
  {
    if id in s.alerts && s.alerts[id].user == user && valid then s.(alerts := s.alerts[id := Patched(s.alerts[id], p)])
      else s
  }

  function Deleting(s: Store, id: nat, user: string): Store
  {
    if id in s.alerts && s.alerts[id].user == user then s.(alerts := s.alerts[id := s.alerts[id].(status := Deleted)])
      else s
  }

  const CACHE_SIZE := 256

  function Cached(cache: seq<real>, x: real): seq<real>
  {
    var grown := cache + [x];
    if |grown| > CACHE_SIZE then grown[1..] else grown
  }

  class AlertEvaluator {
    var alerts: map<nat, Alert>
    var triggers: seq<TriggerRow>
    var prices: map<string, seq<real>>
    var volumes: map<string, seq<real>>

    function View(): Store
      reads this
    {
      Store(alerts, triggers)
    }

    constructor (alerts: map<nat, Alert>)
      ensures View() == Store(alerts, []) && prices == map[] && volumes == map[]
    {
      this.alerts, triggers, prices, volumes := alerts, [], map[], map[];
    }

    // `ids` is the answer of the query for active alerts of the symbol; a tick without symbol or price is dropped.
    method ProcessTick(symbol: string, ltp: Option<real>, volume: Option<real>, ids: seq<nat>, readings: nat -> Reading)
      requires forall i :: 0 <= i < |ids| ==> ids[i] in alerts && Selected(View(), symbol, ids[i])
      modifies this
      ensures var dropped := symbol == "" || ltp == None;
        && View() == (if dropped then old(View()) else Tick(old(View()), ids, readings))
        && prices == (if dropped then old(prices)
          else old(prices)[symbol := Cached(old(History(prices, symbol)), ltp.value)])
        && volumes == (if dropped || volume == None then old(volumes)
          else old(volumes)[symbol := Cached(old(History(volumes, symbol)), volume.value)])
    {
      if symbol == "" || ltp == None {
        return;
      }
      if volume.Some? {
        volumes := volumes[symbol := Cached(History(volumes, symbol), volume.value)];
      }
      prices := prices[symbol := Cached(History(prices, symbol), ltp.value)];
      for i := 0 to |ids|
        invariant alerts.Keys == old(alerts).Keys
        invariant View() == Tick(old(View()), ids[..i], readings)
        invariant prices == old(prices)[symbol := Cached(old(History(prices, symbol)), ltp.value)]
        invariant volumes == if volume == None then old(volumes)
          else old(volumes)[symbol := Cached(old(History(volumes, symbol)), volume.value)]
      {
        assert ids[..i + 1][..i] == ids[..i];
        HandleAlert(ids[i], readings(ids[i]));
      }
      assert ids[..|ids|] == ids;
    }

    method HandleAlert(id: nat, r: Reading)
      requires id in alerts
      modifies this`alerts, this`triggers
      ensures View() == TurnOf(old(View()), id, r)
    {
      var a := alerts[id];
      if ShouldExpire(a, r.now) {
        alerts := alerts[id := a.(status := Expired)];
        return;
      }
      if MaxTriggersReached(a) {
        alerts := alerts[id := a.(status := Expired)];
        return;
      }
      if !CooldownReady(a, r.checkedAt) || !r.ok {
        assert alerts[id := a] == alerts;
        return;
      }
      a := a.(triggeredAt := Some(r.now), lastTriggeredAt := Some(r.now), lastValue := r.value,
        triggerCount := a.triggerCount + 1);
      if MaxTriggersReached(a) {
        a := a.(status := Expired);
      }
      alerts := alerts[id := a];
      triggers := triggers + [TriggerRow(id, r.value, r.now)];
    }

    method UpdateAlert(id: nat, user: string, p: Patch, valid: bool) returns (found: bool)
      modifies this`alerts
      ensures View() == Patching(old(View()), id, user, p, valid)
      ensures found <==> id in old(alerts) && old(alerts)[id].user == user
    {
      if id !in alerts || alerts[id].user != user {
        return false;
      }
      var row := alerts[id];
      if p.cooldownSeconds.Some? { row := row.(cooldownSeconds := AtLeastZero(p.cooldownSeconds.value)); }
      if p.cooldownMinutes.Some? { row := row.(cooldownMinutes := AtLeastZero(p.cooldownMinutes.value)); }
      if p.expiry.Some? { row := row.(expiry := p.expiry); }
      if p.maxTriggers.Some? { row := row.(maxTriggers := AtLeastZero(p.maxTriggers.value)); }
      if p.status.Some? { row := row.(status := p.status.value); }
      if valid {
        alerts := alerts[id := row];
      }
      return true;
    }

    method DeleteAlert(id: nat, user: string) returns (found: bool)
      modifies this`alerts
      ensures View() == Deleting(old(View()), id, user)
      ensures found <==> id in old(alerts) && old(alerts)[id].user == user
    {
      if id !in alerts || alerts[id].user != user {
        return false;
      }
      alerts := alerts[id := alerts[id].(status := Deleted)];
      return true;
    }
  }

  function History(cache: map<string, seq<real>>, symbol: string): seq<real>
  {
    if symbol in cache then cache[symbol] else []
  }

  // The cache after any number of ticks is the last 256 prices.
  function CacheOf(prices: seq<real>): seq<real>
  {
    if |prices| == 0 then [] else Cached(CacheOf(prices[..|prices| - 1]), prices[|prices| - 1])
  }

  lemma {:induction false} CacheIsRecentSuffix(prices: seq<real>)
    ensures CacheOf(prices) == if |prices| <= CACHE_SIZE then prices else prices[|prices| - CACHE_SIZE..]
  {
    if |prices| > 0 {
      CacheIsRecentSuffix(prices[..|prices| - 1]);
    }
  }

  // ----- Whole runs -----

  datatype Event =
    | TickEvent(symbol: string, ids: seq<nat>, readings: nat -> Reading)
    | PatchEvent(id: nat, user: string, patch: Patch, valid: bool)
    | DeleteEvent(id: nat, user: string)
    | LateTurn(id: nat, reading: Reading)

  // A tick event carries what its query can return: distinct active alerts of the symbol. A tick waits for the
  // delivery of each trigger, and requests may be served meanwhile; a late turn is one taken after such a wait, when
  // the alert its query returned need no longer be active.
  ghost predicate Possible(s: Store, e: Event)
  {
    && (e.TickEvent? ==>
          && (forall i :: 0 <= i < |e.ids| ==> Selected(s, e.symbol, e.ids[i]))
          && (forall i, j :: 0 <= i < j < |e.ids| ==> e.ids[i] != e.ids[j]))
    && (e.LateTurn? ==> e.id in s.alerts)
  }

  function Apply(s: Store, e: Event): Store
    requires e.TickEvent? ==> forall i :: 0 <= i < |e.ids| ==> e.ids[i] in s.alerts
    requires e.LateTurn? ==> e.id in s.alerts
  {
    match e
    case LateTurn(id, reading) => TurnOf(s, id, reading)
    case TickEvent(symbol, ids, readings) => Tick(s, ids, readings)
    case PatchEvent(id, user, patch, valid) => Patching(s, id, user, patch, valid)
    case DeleteEvent(id, user) => Deleting(s, id, user)
  }

  // states[0] is the initial store and each event leads from one state to the next.
  ghost predicate IsRun(states: seq<Store>, es: seq<Event>)
  {
    |states| == |es| + 1 && forall i :: 0 <= i < |es| ==>
      Possible(states[i], es[i]) && states[i + 1] == Apply(states[i], es[i])
  }

  function RowsFor(triggers: seq<TriggerRow>, id: nat): seq<TriggerRow>
  {
    if |triggers| == 0 then []
    else
      RowsFor(triggers[..|triggers| - 1], id)
      + (if triggers[|triggers| - 1].alert == id then [triggers[|triggers| - 1]] else [])
  }

  lemma RowsSnoc(triggers: seq<TriggerRow>, row: TriggerRow, id: nat)
    ensures RowsFor(triggers + [row], id) == RowsFor(triggers, id) + (if row.alert == id then [row] else [])
  {
    assert (triggers + [row])[..|triggers|] == triggers;
  }

  // A tick changes one alert by at most one turn of its own.
  lemma {:induction false} TickIsOneTurn(s: Store, ids: seq<nat>, readings: nat -> Reading, id: nat)
    requires forall i :: 0 <= i < |ids| ==> ids[i] in s.alerts
    requires forall i, j :: 0 <= i < j < |ids| ==> ids[i] != ids[j]
    requires id in s.alerts
    ensures var t := Tick(s, ids, readings);
      if id in ids then t.alerts[id] == Turn(s.alerts[id], readings(id))
        && RowsFor(t.triggers, id) == RowsFor(s.triggers, id) +
          (if Fires(s.alerts[id], readings(id)) then [TriggerRow(id, readings(id).value, readings(id).now)] else [])
      else t.alerts[id] == s.alerts[id] && RowsFor(t.triggers, id) == RowsFor(s.triggers, id)
  {
    if |ids| > 0 {
      var init, last := ids[..|ids| - 1], ids[|ids| - 1];
      TickIsOneTurn(s, init, readings, id);
      var t := Tick(s, init, readings);
      assert last !in init;
      RowsSnoc(t.triggers, TriggerRow(last, readings(last).value, readings(last).now), id);
      assert t.triggers + [] == t.triggers;
      assert RowsFor(s.triggers, id) + [] == RowsFor(s.triggers, id);
    }
  }

  // From s to t the alert took the turn that r describes, or none.
  ghost predicate TookTurn(s: Store, t: Store, id: nat, r: Option<Reading>)
    requires id in s.alerts
  {
    && id in t.alerts
    && t.alerts[id] == (if r == None then s.alerts[id] else Turn(s.alerts[id], r.value))
    && RowsFor(t.triggers, id) == RowsFor(s.triggers, id)
       + (if r.Some? && Fires(s.alerts[id], r.value) then [TriggerRow(id, r.value.value, r.value.now)] else [])
  }

  // Any event but a request changes one alert by at most one turn of its own.
  lemma TakesOneTurn(s: Store, e: Event, id: nat)
    requires Possible(s, e) && id in s.alerts && (e.TickEvent? || e.LateTurn?)
    ensures TookTurn(s, Apply(s, e), id, ReadingOf(e, id))
  {
    match e
    case TickEvent(_, ids, readings) => TickIsOneTurn(s, ids, readings, id);
    case LateTurn(at, r) =>
      RowsSnoc(s.triggers, TriggerRow(at, r.value, r.now), id);
      assert s.triggers + [] == s.triggers;
      assert RowsFor(s.triggers, id) + [] == RowsFor(s.triggers, id);
  }

  lemma RequestTakesNoTurn(s: Store, e: Event, id: nat)
    requires id in s.alerts && (e.PatchEvent? || e.DeleteEvent?)
    ensures var t := Apply(s, e); t.triggers == s.triggers && id in t.alerts
    ensures var a, b := s.alerts[id], Apply(s, e).alerts[id];
      b.triggerCount == a.triggerCount && b.lastTriggeredAt == a.lastTriggeredAt && b.triggeredAt == a.triggeredAt
  {
  }

  // What the alert's turn in this event reads, if it has one.
  function ReadingOf(e: Event, id: nat): Option<Reading>
  {
    match e
    case TickEvent(_, ids, readings) => if id in ids then Some(readings(id)) else None
    case LateTurn(at, reading) => if id == at then Some(reading) else None
    case _ => None
  }

  // ----- What a turn and a request do, read off the rows -----

  // The seconds an alert waits between triggers; not positive means no wait.
  ghost predicate Waits(a: Alert, seconds: int)
  {
    if a.cooldownMinutes >= 1 then seconds == 60 * a.cooldownMinutes else seconds == a.cooldownSeconds
  }

  ghost predicate Rested(a: Alert, elapsed: int)
  {
    && (a.cooldownMinutes > 0 ==> elapsed >= 60 * a.cooldownMinutes)
    && (a.cooldownMinutes <= 0 && a.cooldownSeconds > 0 ==> elapsed >= a.cooldownSeconds)
  }

  // The condition holds, the expiry is still to come, triggers are left, and the wait since the last one is over.
  ghost predicate MayFire(a: Alert, r: Reading)
  {
    && r.ok && (a.expiry.Some? ==> r.now < a.expiry.value) && (a.maxTriggers > 0 ==> a.triggerCount < a.maxTriggers)
    && (a.lastTriggeredAt.Some? ==> Rested(a, r.checkedAt - a.lastTriggeredAt.value))
    && (a.lastTriggeredAt == None && a.triggeredAt.Some? ==> Rested(a, r.checkedAt - a.triggeredAt.value))
  }

  // The alert is over: its expiry has come, or its triggers are used up.
  ghost predicate IsOver(a: Alert, triggers: int, now: int)
  {
    (a.expiry.Some? && now >= a.expiry.value) || 0 < a.maxTriggers <= triggers
  }

  // A turn records a trigger exactly when the row and the reading allow it, and expires the alert exactly when it is
  // over by then; nothing else of the row changes.
  lemma TurnOutcome(s: Store, e: Event, id: nat, r: Reading)
    requires Possible(s, e) && id in s.alerts && ReadingOf(e, id) == Some(r)
    ensures var a, t, n := s.alerts[id], Apply(s, e), if MayFire(s.alerts[id], r) then 1 else 0;
      && id in t.alerts
      && RowsFor(t.triggers, id) == RowsFor(s.triggers, id) + (if n == 1 then [TriggerRow(id, r.value, r.now)] else [])
      && t.alerts[id] == a.(
        triggerCount := a.triggerCount + n,
        triggeredAt := if n == 1 then Some(r.now) else a.triggeredAt,
        lastTriggeredAt := if n == 1 then Some(r.now) else a.lastTriggeredAt,
        lastValue := if n == 1 then r.value else a.lastValue,
        status := if IsOver(a, a.triggerCount + n, r.now) then Expired else a.status)
  {
    TakesOneTurn(s, e, id);
    assert Fires(s.alerts[id], r) <==> MayFire(s.alerts[id], r);
  }

  // A tick leaves alone every alert of another symbol and every alert that is not active.
  lemma TickLeavesOthers(s: Store, e: Event, id: nat)
    requires Possible(s, e) && e.TickEvent? && id in s.alerts
    requires s.alerts[id].symbol != e.symbol || s.alerts[id].status != Active
    ensures Apply(s, e).alerts[id] == s.alerts[id]
    ensures RowsFor(Apply(s, e).triggers, id) == RowsFor(s.triggers, id)
  {
    TakesOneTurn(s, e, id);
  }

  // What a PATCH makes of a limit: an absent value keeps it, a negative one counts as 0.
  ghost predicate Set(before: int, asked: Option<int>, after: int)
  {
    && (asked == None ==> after == before)
    && (asked.Some? ==> after >= 0 && after >= asked.value && (after == 0 || after == asked.value))
  }

  // A request changes only the caller's own alert, keeps its history, and asked twice does what it does once.
  lemma RequestOutcome(s: Store, e: Event, id: nat)
    requires id in s.alerts && (e.PatchEvent? || e.DeleteEvent?)
    ensures Apply(Apply(s, e), e) == Apply(s, e) && id in Apply(s, e).alerts
    ensures var a, b, own := s.alerts[id], Apply(s, e).alerts[id], e.id == id && e.user == s.alerts[id].user;
      && (!own || (e.PatchEvent? && !e.valid) ==> b == a)
      && (own && e.DeleteEvent? ==> b == a.(status := Deleted))
      && (own && e.PatchEvent? && e.valid ==>
            && Set(a.cooldownSeconds, e.patch.cooldownSeconds, b.cooldownSeconds)
            && Set(a.cooldownMinutes, e.patch.cooldownMinutes, b.cooldownMinutes)
            && Set(a.maxTriggers, e.patch.maxTriggers, b.maxTriggers)
            && (if e.patch.expiry.Some? then b.expiry == e.patch.expiry else b.expiry == a.expiry)
            && (if e.patch.status.Some? then b.status == e.patch.status.value else b.status == a.status)
            && b == a.(cooldownSeconds := b.cooldownSeconds, cooldownMinutes := b.cooldownMinutes,
              maxTriggers := b.maxTriggers, expiry := b.expiry, status := b.status))
  {
    assert Apply(Apply(s, e), e).alerts == Apply(s, e).alerts;
  }

  // The trigger counter and the trigger table never disagree.
  ghost predicate Counted(s: Store, id: nat)
  {
    id in s.alerts ==> s.alerts[id].triggerCount == |RowsFor(s.triggers, id)|
  }

  lemma {:induction false} CounterMatchesRows(states: seq<Store>, es: seq<Event>, id: nat)
    requires IsRun(states, es) && id in states[0].alerts && Counted(states[0], id)
    ensures id in states[|es|].alerts && Counted(states[|es|], id)
  {
    if |es| > 0 {
      CounterMatchesRows(states[..|es|], es[..|es| - 1], id);
      var s, e := states[|es| - 1], es[|es| - 1];
      if e.TickEvent? || e.LateTurn? { TakesOneTurn(s, e, id); } else { RequestTakesNoTurn(s, e, id); }
    }
  }

  lemma TurnRespectsCap(s: Store, t: Store, id: nat, r: Option<Reading>)
    requires id in s.alerts && TookTurn(s, t, id, r) && RowsFor(t.triggers, id) != RowsFor(s.triggers, id)
    ensures var a, b := s.alerts[id], t.alerts[id];
      && b.triggerCount == a.triggerCount + 1 && b.maxTriggers == a.maxTriggers
      && (b.maxTriggers > 0 ==>
            && b.triggerCount <= b.maxTriggers
            && (b.status == Expired <==> b.triggerCount == b.maxTriggers || a.status == Expired))
  {
  }

  // A step that records a trigger of the alert leaves its count within the cap then in force, and only a late turn can
  // fire an alert that is not active.
  lemma TriggerRespectsCap(s: Store, e: Event, id: nat)
    requires Possible(s, e) && id in s.alerts
    requires RowsFor(Apply(s, e).triggers, id) != RowsFor(s.triggers, id)
    ensures var a, b := s.alerts[id], Apply(s, e).alerts[id];
      && (a.status == Active || e.LateTurn?) && b.triggerCount == a.triggerCount + 1 && b.maxTriggers == a.maxTriggers
      && (b.maxTriggers > 0 ==>
            && b.triggerCount <= b.maxTriggers
            && (b.status == Expired <==> b.triggerCount == b.maxTriggers || a.status == Expired))
  {
    if e.TickEvent? || e.LateTurn? {
      TakesOneTurn(s, e, id);
      TurnRespectsCap(s, Apply(s, e), id, ReadingOf(e, id));
    } else {
      RequestTakesNoTurn(s, e, id);
    }
  }

  // Every trigger row of the alert carries the time its counter was last moved, so spacing can be read off the table.
  ghost predicate LastRowIsLastTrigger(s: Store, id: nat)
  {
    var rows := RowsFor(s.triggers, id);
    id in s.alerts && (|rows| > 0 ==> s.alerts[id].lastTriggeredAt == Some(rows[|rows| - 1].at))
  }

  // Two successive trigger times: at least `cooldown` apart, up to the time between the two clock readings of a turn.
  ghost predicate Spaced(s: Store, id: nat, cooldown: nat, skew: nat)
  {
    var rows := RowsFor(s.triggers, id);
    forall k :: 0 <= k < |rows| - 1 ==> rows[k + 1].at >= rows[k].at + cooldown - skew
  }

  ghost predicate SkewAtMost(e: Event, skew: nat)
  {
    && (e.TickEvent? ==> forall id: nat :: e.readings(id).now <= e.readings(id).checkedAt <= e.readings(id).now + skew)
    && (e.LateTurn? ==> e.reading.now <= e.reading.checkedAt <= e.reading.now + skew)
  }

  lemma TurnKeepsSpacing(s: Store, t: Store, id: nat, r: Option<Reading>, cooldown: nat, skew: nat)
    requires id in s.alerts && TookTurn(s, t, id, r)
    requires (r.Some? ==> r.value.now <= r.value.checkedAt <= r.value.now + skew)
    requires cooldown > 0 && Waits(s.alerts[id], cooldown)
    requires LastRowIsLastTrigger(s, id) && Spaced(s, id, cooldown, skew)
    ensures LastRowIsLastTrigger(t, id) && Spaced(t, id, cooldown, skew)
  {
  }

  lemma StepKeepsSpacing(s: Store, e: Event, id: nat, cooldown: nat, skew: nat)
    requires Possible(s, e) && id in s.alerts && SkewAtMost(e, skew)
    requires cooldown > 0 && Waits(s.alerts[id], cooldown)
    requires LastRowIsLastTrigger(s, id) && Spaced(s, id, cooldown, skew)
    ensures LastRowIsLastTrigger(Apply(s, e), id) && Spaced(Apply(s, e), id, cooldown, skew)
  {
    if e.TickEvent? || e.LateTurn? {
      TakesOneTurn(s, e, id);
      TurnKeepsSpacing(s, Apply(s, e), id, ReadingOf(e, id), cooldown, skew);
    } else {
      RequestTakesNoTurn(s, e, id);
    }
  }

  // With a wait that no PATCH changes (60 seconds per minute of a positive number of minutes, whatever the seconds
  // say, and the seconds otherwise), consecutive triggers of an alert are that wait apart. With one clock reading per
  // turn (skew 0) the bound is the wait itself.
  lemma {:induction false} TriggersAreSpaced(states: seq<Store>, es: seq<Event>, id: nat, cooldown: nat, skew: nat)
    requires IsRun(states, es) && id in states[0].alerts && RowsFor(states[0].triggers, id) == []
    requires cooldown > 0 && forall i :: 0 <= i < |states| && id in states[i].alerts ==>
      Waits(states[i].alerts[id], cooldown)
    requires forall i :: 0 <= i < |es| ==> SkewAtMost(es[i], skew)
    ensures LastRowIsLastTrigger(states[|es|], id) && Spaced(states[|es|], id, cooldown, skew)
  {
    if |es| > 0 {
      TriggersAreSpaced(states[..|es|], es[..|es| - 1], id, cooldown, skew);
      StepKeepsSpacing(states[|es| - 1], es[|es| - 1], id, cooldown, skew);
    }
  }

  // A late turn does not look at the status: an alert deleted while its tick waited fires just as if it had not been.
  lemma LateTurnFiresDeleted(s: Store, id: nat, user: string, r: Reading)
    requires id in s.alerts && s.alerts[id].user == user && Fires(s.alerts[id], r)
    ensures var t := Apply(Apply(s, DeleteEvent(id, user)), LateTurn(id, r));
      t.triggers == s.triggers + [TriggerRow(id, r.value, r.now)]
      && t.alerts[id].triggerCount == s.alerts[id].triggerCount + 1
  {
  }

  // A valid PATCH of the alert's own user that sets its status to active.
  ghost predicate Activates(s: Store, e: Event, id: nat)
  {
    && e.PatchEvent? && e.id == id && e.valid && e.patch.status == Some(Active)
    && id in s.alerts && s.alerts[id].user == e.user
  }

  lemma StepActivatesIff(s: Store, e: Event, id: nat)
    requires Possible(s, e) && id in s.alerts && s.alerts[id].status != Active
    ensures id in Apply(s, e).alerts
    ensures Apply(s, e).alerts[id].status == Active <==> Activates(s, e, id)
  {
    if e.TickEvent? || e.LateTurn? { TakesOneTurn(s, e, id); }
  }

  ghost predicate NeverActivated(states: seq<Store>, es: seq<Event>, id: nat, n: nat)
    requires |states| == |es| + 1 && n <= |es|
  {
    forall i :: 0 <= i < n ==> !Activates(states[i], es[i], id)
  }

  lemma {:induction false} InactiveAt(states: seq<Store>, es: seq<Event>, id: nat, n: nat)
    requires IsRun(states, es) && n <= |es| && id in states[0].alerts && states[0].alerts[id].status != Active
    requires NeverActivated(states, es, id, n)
    ensures id in states[n].alerts && states[n].alerts[id].status != Active
  {
    if n > 0 {
      InactiveAt(states, es, id, n - 1);
      StepActivatesIff(states[n - 1], es[n - 1], id);
    }
  }

  // Over every run an alert that is not active stays so exactly when no PATCH activates it.
  lemma StaysInactiveIff(states: seq<Store>, es: seq<Event>, id: nat)
    requires IsRun(states, es) && id in states[0].alerts && states[0].alerts[id].status != Active
    ensures (forall i :: 0 <= i <= |es| ==> id in states[i].alerts && states[i].alerts[id].status != Active) <==>
      NeverActivated(states, es, id, |es|)
  {
    if NeverActivated(states, es, id, |es|) {
      forall i | 0 <= i <= |es| ensures id in states[i].alerts && states[i].alerts[id].status != Active {
        InactiveAt(states, es, id, i);
      }
    }
    if forall i :: 0 <= i <= |es| ==> id in states[i].alerts && states[i].alerts[id].status != Active {
      forall i | 0 <= i < |es| ensures !Activates(states[i], es[i], id) {
        StepActivatesIff(states[i], es[i], id);
        assert states[i + 1].alerts[id].status != Active;
      }
    }
  }

  // The event is a late turn in which the alert fires.
  ghost predicate FiresLate(s: Store, e: Event, id: nat)
  {
    e.LateTurn? && e.id == id && id in s.alerts && Fires(s.alerts[id], e.reading)
  }

  // While the alert is inactive only such a turn adds a trigger row, one that goes behind the earlier ones.
  lemma InactiveStep(s: Store, e: Event, id: nat)
    requires Possible(s, e) && id in s.alerts && s.alerts[id].status != Active
    ensures RowsFor(s.triggers, id) <= RowsFor(Apply(s, e).triggers, id)
    ensures RowsFor(Apply(s, e).triggers, id) == RowsFor(s.triggers, id) <==> !FiresLate(s, e, id)
  {
    if e.TickEvent? || e.LateTurn? { TakesOneTurn(s, e, id); } else { RequestTakesNoTurn(s, e, id); }
  }

  ghost predicate NeverFiresLate(states: seq<Store>, es: seq<Event>, id: nat, n: nat)
    requires |states| == |es| + 1 && n <= |es|
  {
    forall i :: 0 <= i < n ==> !FiresLate(states[i], es[i], id)
  }

  lemma {:induction false} SilentUpTo(states: seq<Store>, es: seq<Event>, id: nat, n: nat)
    requires IsRun(states, es) && n <= |es| && id in states[0].alerts && states[0].alerts[id].status != Active
    requires NeverActivated(states, es, id, n)
    ensures RowsFor(states[0].triggers, id) <= RowsFor(states[n].triggers, id)
    ensures RowsFor(states[n].triggers, id) == RowsFor(states[0].triggers, id) <==> NeverFiresLate(states, es, id, n)
  {
    if n > 0 {
      SilentUpTo(states, es, id, n - 1);
      InactiveAt(states, es, id, n - 1);
      InactiveStep(states[n - 1], es[n - 1], id);
    }
  }

  // Over every run in which no PATCH activates an inactive alert, it records no trigger exactly when none of its late
  // turns fires.
  lemma InactiveStaysSilentIff(states: seq<Store>, es: seq<Event>, id: nat)
    requires IsRun(states, es) && id in states[0].alerts && states[0].alerts[id].status != Active
    requires NeverActivated(states, es, id, |es|)
    ensures id in states[|es|].alerts && states[|es|].alerts[id].status != Active
    ensures RowsFor(states[|es|].triggers, id) == RowsFor(states[0].triggers, id) <==>
      NeverFiresLate(states, es, id, |es|)
  {
    InactiveAt(states, es, id, |es|);
    SilentUpTo(states, es, id, |es|);
  }
}
