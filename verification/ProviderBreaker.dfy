/**
 The AI provider circuit breaker. Its mutable rows are shown to compute a closed form over the event history:
 the consecutive failures since the last success, and the time of the last failure, decide every admission.
 */
module ProviderBreaker {

  datatype CircuitState = Closed | Open | HalfOpen | Disabled

  datatype Health = Health(
    configured: bool, enabled: bool, healthy: bool, state: CircuitState, failureCount: int, openedUntil: real)

  datatype Policy = Policy(threshold: int, openSeconds: real)

  // `later` is the second clock reading a failure takes after its own status check.
  datatype Event = Status(now: real) | Request(now: real) | Succeeded(now: real) | Failed(now: real, later: real)

  function Fresh(configured: bool, enabled: bool): Health
  {
    Health(configured, enabled, true, Closed, 0, 0.0)
  }

  function Refresh(row: Health, now: real): Health
  {
    if row.state == Open && row.openedUntil <= now then row.(state := HalfOpen) else row
  }

  // The row after a request asks for admission, and whether it gets it.
  function Ask(row: Health, now: real): (Health, bool)
  {
    var r := Refresh(row, now);
    if !r.enabled then (r.(state := Disabled), false) else (r, r.state != Open)
  }

  function Succeed(row: Health, now: real): Health
  {
    Refresh(row, now).(healthy := true, state := Closed, failureCount := 0)
  }

  function Fail(p: Policy, row: Health, now: real, later: real): Health
  {
    var r := Refresh(row, now);
    var counted := r.(healthy := false, failureCount := r.failureCount + 1);
    if counted.failureCount >= p.threshold then counted.(state := Open, openedUntil := later + p.openSeconds)
      else counted
  }

  class ProviderCircuitBreaker {
    const policy: Policy
    var health: map<string, Health>

    constructor (failureThreshold: int, openSeconds: real)
      ensures policy == Policy(failureThreshold, openSeconds) && health == map[]
    {
      policy := Policy(failureThreshold, openSeconds);
      health := map[];
    }

    function RowOf(provider: string, configured: bool): Health
      reads this
    {
      if provider in health then health[provider].(configured := configured) else Fresh(configured, true)
    }

    method GetStatus(provider: string, configured: bool, now: real) returns (row: Health)
      modifies this
      ensures row == Refresh(old(RowOf(provider, configured)), now)
      ensures health == old(health)[provider := row]
    {
      row := if provider in health then health[provider] else Fresh(configured, true);
      row := row.(configured := configured);
      if row.state == Open && row.openedUntil <= now {
        row := row.(state := HalfOpen);
      }
      health := health[provider := row];
    }

    // `admitted == false` stands for the raised "provider disabled" or "provider circuit open".
    method BeforeRequest(provider: string, configured: bool, now: real) returns (admitted: bool)
      modifies this
      ensures health == old(health)[provider := Ask(old(RowOf(provider, configured)), now).0]
      ensures admitted == Ask(old(RowOf(provider, configured)), now).1
    {
      var row := GetStatus(provider, configured, now);
      if !row.enabled {
        health := health[provider := row.(state := Disabled)];
        return false;
      }
      return row.state != Open;
    }

    method Success(provider: string, now: real)
      modifies this
      ensures health == old(health)[provider := Succeed(old(RowOf(provider, false)), now)]
    {
      var row := GetStatus(provider, false, now);
      health := health[provider := row.(healthy := true, state := Closed, failureCount := 0)];
    }

    method Failure(provider: string, now: real, later: real)
      modifies this
      ensures health == old(health)[provider := Fail(policy, old(RowOf(provider, false)), now, later)]
    {
      var row := GetStatus(provider, false, now);
      row := row.(healthy := false, failureCount := row.failureCount + 1);
      if row.failureCount >= policy.threshold {
        row := row.(state := Open, openedUntil := later + policy.openSeconds);
      }
      health := health[provider := row];
    }
  }

  // ----- Whole runs of one provider -----

  function Apply(p: Policy, row: Health, e: Event): Health
  {
    match e
    case Status(now) => Refresh(row, now)
    case Request(now) => Ask(row, now).0
    case Succeeded(now) => Succeed(row, now)
    case Failed(now, later) => Fail(p, row, now, later)
  }

  function Run(p: Policy, start: Health, es: seq<Event>): Health
  {
    if |es| == 0 then start else Apply(p, Run(p, start, es[..|es| - 1]), es[|es| - 1])
  }

  function EndOf(e: Event): real { if e.Failed? then e.later else e.now }

  ghost predicate MonotoneClock(es: seq<Event>)
  {
    && (forall i :: 0 <= i < |es| ==> es[i].now <= EndOf(es[i]))
    && (forall i, j :: 0 <= i < j < |es| ==> EndOf(es[i]) <= es[j].now)
  }

  function FailuresSinceSuccess(es: seq<Event>): nat
  {
    if |es| == 0 || es[|es| - 1].Succeeded? then 0
    else FailuresSinceSuccess(es[..|es| - 1]) + (if es[|es| - 1].Failed? then 1 else 0)
  }

  function LastFailureAt(es: seq<Event>): real
    requires exists i :: 0 <= i < |es| && es[i].Failed?
  {
    if es[|es| - 1].Failed? then es[|es| - 1].later else LastFailureAt(es[..|es| - 1])
  }

  lemma {:induction false} CountedFailuresExist(es: seq<Event>)
    requires FailuresSinceSuccess(es) > 0
    ensures exists i :: 0 <= i < |es| && es[i].Failed?
  {
    if !es[|es| - 1].Failed? {
      CountedFailuresExist(es[..|es| - 1]);
    }
  }

  // The circuit is tripped once the failures since the last success reach the threshold.
  ghost predicate Tripped(p: Policy, es: seq<Event>) { FailuresSinceSuccess(es) >= p.threshold }

  function ReopensAt(p: Policy, es: seq<Event>): real
    requires p.threshold >= 1 && Tripped(p, es)
  {
    CountedFailuresExist(es);
    LastFailureAt(es) + p.openSeconds
  }

  // Every reachable row of an enabled provider, in terms of the history alone.
  lemma {:induction false} RowClosedForm(p: Policy, start: Health, es: seq<Event>)
    requires p.threshold >= 1 && MonotoneClock(es)
    requires start == Fresh(start.configured, true)
    ensures var row := Run(p, start, es);
      && row.enabled && row.failureCount == FailuresSinceSuccess(es)
      && (!Tripped(p, es) ==> row.state == Closed)
      && (Tripped(p, es) ==> row.openedUntil == ReopensAt(p, es))
      && (Tripped(p, es) ==>
            || row.state == Open
            || (row.state == HalfOpen && |es| > 0 && row.openedUntil <= EndOf(es[|es| - 1])))
  {
    if |es| > 0 {
      RowClosedForm(p, start, es[..|es| - 1]);
    }
  }

  // Admission at any later time, decided by the history alone.
  lemma AdmissionClosedForm(p: Policy, start: Health, es: seq<Event>, now: real)
    requires p.threshold >= 1 && MonotoneClock(es + [Request(now)])
    requires start == Fresh(start.configured, true)
    ensures Ask(Run(p, start, es), now).1 <==> !Tripped(p, es) || ReopensAt(p, es) <= now
  {
    var all := es + [Request(now)];
    assert forall i :: 0 <= i < |es| ==> all[i] == es[i];
    assert all[|es|] == Request(now);
    if |es| > 0 { assert EndOf(all[|es| - 1]) <= all[|es|].now; }
    RowClosedForm(p, start, es);
  }

  // A failure that leaves the circuit tripped opens it, whatever state it was in (HALF_OPEN included).
  lemma TrippingFailureOpens(p: Policy, start: Health, es: seq<Event>, now: real, later: real)
    requires p.threshold >= 1 && MonotoneClock(es + [Failed(now, later)])
    requires start == Fresh(start.configured, true)
    requires Run(p, start, es).state in {Open, HalfOpen}
    ensures var row := Run(p, start, es + [Failed(now, later)]);
      row.state == Open && row.openedUntil == later + p.openSeconds
  {
    var all := es + [Failed(now, later)];
    assert all[..|es|] == es;
    assert forall i :: 0 <= i < |es| ==> all[i] == es[i];
    RowClosedForm(p, start, es);
  }

  lemma {:induction false} TrippedWhileNoSuccess(p: Policy, es: seq<Event>, more: seq<Event>)
    requires p.threshold >= 1 && Tripped(p, es) && MonotoneClock(es + more)
    requires forall i :: 0 <= i < |more| ==> !more[i].Succeeded?
    ensures Tripped(p, es + more) && ReopensAt(p, es) <= ReopensAt(p, es + more)
  {
    if |more| == 0 {
      assert es + more == es;
    } else {
      var init, last := more[..|more| - 1], more[|more| - 1];
      var all := es + more;
      assert all[..|all| - 1] == es + init && all[|all| - 1] == last;
      assert forall i :: 0 <= i < |es + init| ==> (es + init)[i] == all[i];
      TrippedWhileNoSuccess(p, es, init);
      CountedFailuresExist(es + init);
      if last.Failed? {
        LastFailureInPast(es + init);
      }
    }
  }

  lemma {:induction false} LastFailureInPast(es: seq<Event>)
    requires exists i :: 0 <= i < |es| && es[i].Failed?
    ensures exists i :: 0 <= i < |es| && es[i].Failed? && es[i].later == LastFailureAt(es)
  {
    if !es[|es| - 1].Failed? {
      LastFailureInPast(es[..|es| - 1]);
    }
  }

  // Safety: from the moment a circuit trips until it may reopen, only a success can let a request through.
  lemma NoAdmissionWhileOpen(p: Policy, start: Health, es: seq<Event>, more: seq<Event>, now: real)
    requires p.threshold >= 1 && MonotoneClock(es + more + [Request(now)])
    requires start == Fresh(start.configured, true)
    requires Tripped(p, es) && now < ReopensAt(p, es)
    requires forall i :: 0 <= i < |more| ==> !more[i].Succeeded?
    ensures !Ask(Run(p, start, es + more), now).1
  {
    var all := es + more + [Request(now)];
    assert forall i :: 0 <= i < |es + more| ==> (es + more)[i] == all[i];
    TrippedWhileNoSuccess(p, es, more);
    AdmissionClosedForm(p, start, es + more, now);
  }

  // A disabled provider never gets a request through.
  lemma {:induction false} DisabledNeverAdmits(p: Policy, start: Health, es: seq<Event>, now: real)
    requires start == Fresh(start.configured, false)
    ensures !Run(p, start, es).enabled && !Ask(Run(p, start, es), now).1
  {
    if |es| > 0 {
      DisabledNeverAdmits(p, start, es[..|es| - 1], now);
    }
  }

  // The latest outcome reported is not a failure.
  predicate NoFailureLast(es: seq<Event>)
  {
    |es| == 0 || es[|es| - 1].Succeeded? || (!es[|es| - 1].Failed? && NoFailureLast(es[..|es| - 1]))
  }

  // A provider counts as healthy exactly until a failure is reported, and again after a success.
  lemma {:induction false} HealthFollowsLastOutcome(p: Policy, start: Health, es: seq<Event>)
    requires start.healthy
    ensures Run(p, start, es).healthy <==> NoFailureLast(es)
  {
    if |es| > 0 { HealthFollowsLastOutcome(p, start, es[..|es| - 1]); }
  }
}
