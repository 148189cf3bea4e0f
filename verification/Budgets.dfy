/**
 Token budget reservations. A reservation is checked against recorded usage only, so concurrent reservations can
 overshoot the limit; the bound on that overshoot is exact.
 */
module Budgets {
  import opened Common
  import opened UsageLedger

  datatype Limits = Limits(perRequest: int, daily: int, concurrent: int, softRatio: real)

  // Rows of the reservation table in insertion order; ids are drawn fresh.
  datatype Reservation = Reservation(id: nat, user: string, estimate: int, warned: bool, active: bool, actual: int)

  datatype Outcome = Granted(id: nat) | InvalidUsage | ConcurrencyExceeded | BudgetExceeded | InvalidIdentifier

  function ActiveCount(rs: seq<Reservation>): nat
  {
    if |rs| == 0 then 0 else ActiveCount(rs[..|rs| - 1]) + (if rs[|rs| - 1].active then 1 else 0)
  }

  predicate Known(rs: seq<Reservation>, id: nat) { exists i :: 0 <= i < |rs| && rs[i].id == id }

  // Identifiers are checked last, while the row is put together; `valid` is the outcome.
  function Decide(limits: Limits, rs: seq<Reservation>, recorded: int,
      estimate: int, cost: real, valid: bool, id: nat): Outcome
  {
    if estimate < 0 || cost < 0.0 then InvalidUsage
    else if ActiveCount(rs) >= limits.concurrent then ConcurrencyExceeded
    else if estimate > limits.perRequest || recorded + estimate > limits.daily then BudgetExceeded
    else if !valid then InvalidIdentifier
    else Granted(id)
  }

  // int() truncates toward zero.
  function Truncated(x: real): int { if x >= 0.0 then x.Floor else -(-x).Floor }

  predicate Warns(limits: Limits, recorded: int, estimate: int)
  {
    recorded + estimate >= Truncated(Times(limits.daily as real, limits.softRatio))
  }

  // A grant that fills the daily budget carries the soft warning, whatever share of it the warning is set at.
  lemma FullBudgetIsWarned(limits: Limits, recorded: int, estimate: int)
    requires limits.daily >= 0 && limits.softRatio <= 1.0 && recorded + estimate >= limits.daily
    ensures Warns(limits, recorded, estimate)
  {
    TimesAtMost(limits.daily as real, limits.softRatio);
  }

  function NewRow(limits: Limits, id: nat, user: string, recorded: int, estimate: int): Reservation
  {
    Reservation(id, user, estimate, Warns(limits, recorded, estimate), true, 0)
  }

  function Settle(rs: seq<Reservation>, id: nat, actual: int): seq<Reservation>
  {
    if |rs| == 0 then []
    else
      var last := rs[|rs| - 1];
      Settle(rs[..|rs| - 1], id, actual) + [if last.id == id then last.(active := false, actual := actual) else last]
  }

  class BudgetManager {
    const limits: Limits
    const ledger: Ledger
    var reservations: seq<Reservation>

    constructor (limits: Limits, ledger: Ledger)
      ensures this.limits == limits && this.ledger == ledger && reservations == []
    {
      this.limits := limits;
      this.ledger := ledger;
      reservations := [];
    }

    method CountActive() returns (active: nat)
      ensures active == ActiveCount(reservations)
    {
      active := 0;
      for i := 0 to |reservations|
        invariant active == ActiveCount(reservations[..i])
      {
        assert reservations[..i + 1][..i] == reservations[..i];
        if reservations[i].active {
          active := active + 1;
        }
      }
      assert reservations[..|reservations|] == reservations;
    }

    // The user's group of the aggregated ledger, 0 when there is none.
    method RecordedTokens(user: string) returns (tokens: int)
      ensures tokens == TokensFor(ledger.rows, ByUser(user))
    {
      var groups := ledger.Aggregate(user);
      tokens := Group(groups, ByUser(user)).tokens;
    }

    method Reserve(user: string, estimate: int, cost: real, valid: bool, freshId: nat) returns (r: Outcome)
      modifies this
      ensures r == Decide(limits, old(reservations), TokensFor(ledger.rows, ByUser(user)),
        estimate, cost, valid, freshId)
      ensures reservations == old(reservations) + (if r.Granted?
        then [NewRow(limits, freshId, user, TokensFor(ledger.rows, ByUser(user)), estimate)] else [])
    {
      if estimate < 0 || cost < 0.0 {
        return InvalidUsage;
      }
      var active := CountActive();
      if active >= limits.concurrent {
        return ConcurrencyExceeded;
      }
      var recorded := RecordedTokens(user);
      if estimate > limits.perRequest || recorded + estimate > limits.daily {
        return BudgetExceeded;
      }
      if !valid {
        return InvalidIdentifier;
      }
      var row := Reservation(freshId, user, estimate, false, true, 0);
      if Warns(limits, recorded, estimate) {
        row := row.(warned := true);
      }
      reservations := reservations + [row];
      return Granted(freshId);
    }

    // Reconciliation with a final status (consumed, released, failed, ...): the row stops being active.
    method Reconcile(id: nat, actual: int)
      modifies this
      ensures reservations == Settle(old(reservations), id, actual)
    {
      var out := [];
      for i := 0 to |reservations|
        invariant out == Settle(reservations[..i], id, actual)
        invariant reservations == old(reservations)
      {
        assert reservations[..i + 1][..i] == reservations[..i];
        var r := reservations[i];
        out := out + [if r.id == id then r.(active := false, actual := actual) else r];
      }
      assert reservations[..|reservations|] == reservations;
      reservations := out;
    }
  }

  // ----- Whole runs -----

  datatype State = State(reservations: seq<Reservation>, rows: seq<UsageRow>)

  datatype Event =
    | Reserve(id: nat, user: string, estimate: int, cost: real, valid: bool)
    | Use(row: UsageRow)
    | Reconcile(id: nat, actual: int)

  function Apply(limits: Limits, s: State, e: Event): State
  {
    match e
    case Reserve(id, user, estimate, cost, valid) =>
      if Decide(limits, s.reservations, TokensFor(s.rows, ByUser(user)), estimate, cost, valid, id).Granted?
      then s.(reservations := s.reservations + [NewRow(limits, id, user, TokensFor(s.rows, ByUser(user)), estimate)])
        else s
    case Use(row) => s.(rows := s.rows + [row])
    case Reconcile(id, actual) => s.(reservations := Settle(s.reservations, id, actual))
  }

  function Run(limits: Limits, start: State, es: seq<Event>): State
  {
    if |es| == 0 then start else Apply(limits, Run(limits, start, es[..|es| - 1]), es[|es| - 1])
  }

  function Spent(rows: seq<UsageRow>, id: nat): nat
  {
    if |rows| == 0 then 0
    else
      Spent(rows[..|rows| - 1], id)
      + (if rows[|rows| - 1].reservation == Some(id) then rows[|rows| - 1].tokens else 0)
  }

  // What the user's active reservations may still record.
  function Outstanding(rs: seq<Reservation>, rows: seq<UsageRow>, user: string): int
  {
    if |rs| == 0 then 0
    else
      var last := rs[|rs| - 1];
      Outstanding(rs[..|rs| - 1], rows, user)
      + (if last.active && last.user == user then last.estimate - Spent(rows, last.id) else 0)
  }

  function Exposure(s: State, user: string): int
  {
    TokensFor(s.rows, ByUser(user)) + Outstanding(s.reservations, s.rows, user)
  }

  // Discipline of the callers: ids never seen before (not even in the ledger), and usage recorded only under an active
  // reservation of the same user, within its estimate.
  ghost predicate Disciplined(s: State, e: Event)
  {
    match e
    case Reserve(id, _, _, _, _) => !Known(s.reservations, id) && forall k :: 0 <= k < |s.rows| ==>
      s.rows[k].reservation != Some(id)
    case Use(row) => exists i :: 0 <= i < |s.reservations| && Covers(s, i, row)
    case Reconcile(_, _) => true
  }

  ghost predicate Covers(s: State, i: int, row: UsageRow)
    requires 0 <= i < |s.reservations|
  {
    var r := s.reservations[i];
    r.active && row.reservation == Some(r.id) && row.user == r.user && Spent(s.rows, r.id) + row.tokens <= r.estimate
  }

  ghost predicate DisciplinedRun(limits: Limits, start: State, es: seq<Event>)
  {
    |es| == 0 || (DisciplinedRun(limits, start, es[..|es| - 1]) &&
      Disciplined(Run(limits, start, es[..|es| - 1]), es[|es| - 1]))
  }

  // The overshoot bound; nothing is ever granted under nonsensical limits.
  function Bound(limits: Limits): int
  {
    if limits.daily < 0 || limits.concurrent < 1 || limits.perRequest < 0 then 0
    else limits.daily + (limits.concurrent - 1) * limits.perRequest
  }

  ghost predicate DistinctIds(rs: seq<Reservation>)
  {
    forall i, j :: 0 <= i < j < |rs| ==> rs[i].id != rs[j].id
  }

  ghost predicate Consistent(limits: Limits, s: State)
  {
    && DistinctIds(s.reservations)
    && (forall i :: 0 <= i < |s.reservations| ==> 0 <= s.reservations[i].estimate <= limits.perRequest)
    && (forall i :: 0 <= i < |s.reservations| ==> s.reservations[i].active ==>
      Spent(s.rows, s.reservations[i].id) <= s.reservations[i].estimate)
  }

  ghost predicate Safe(limits: Limits, s: State, user: string)
  {
    && Exposure(s, user) <= Bound(limits)
    && ActiveCount(s.reservations) <= RoundUp(limits.concurrent)
    && (limits.concurrent < 1 || limits.daily < 0 ==> ActiveCount(s.reservations) == 0)
  }

  function RoundUp(k: int): nat { if k < 0 then 0 else k }

  lemma SpentSnoc(rows: seq<UsageRow>, row: UsageRow, id: nat)
    ensures Spent(rows + [row], id) == Spent(rows, id) + (if row.reservation == Some(id) then row.tokens else 0)
  {
    assert (rows + [row])[..|rows|] == rows;
  }

  lemma {:induction false} UnknownSpendsNothing(rows: seq<UsageRow>, id: nat)
    requires forall k :: 0 <= k < |rows| ==> rows[k].reservation != Some(id)
    ensures Spent(rows, id) == 0
  {
    if |rows| > 0 {
      UnknownSpendsNothing(rows[..|rows| - 1], id);
    }
  }

  // The row was recorded against an active reservation of the user.
  predicate CoveredBy(rs: seq<Reservation>, row: UsageRow, user: string)
  {
    exists i :: 0 <= i < |rs| && row.reservation == Some(rs[i].id) && rs[i].active && rs[i].user == user
  }

  // Recording under one of several reservations moves its tokens from outstanding to recorded.
  lemma {:induction false} UseMovesTokens(rs: seq<Reservation>, rows: seq<UsageRow>, row: UsageRow, user: string)
    requires DistinctIds(rs)
    ensures Outstanding(rs, rows + [row], user) ==
            Outstanding(rs, rows, user) - (if CoveredBy(rs, row, user) then row.tokens else 0)
  {
    if |rs| > 0 {
      var init, last := rs[..|rs| - 1], rs[|rs| - 1];
      UseMovesTokens(init, rows, row, user);
      SpentSnoc(rows, row, last.id);
      if row.reservation == Some(last.id) {
        assert forall i :: 0 <= i < |init| ==> init[i].id != last.id;
      }
      forall i | 0 <= i < |rs| ensures rs[i] == last || (i < |init| && rs[i] == init[i]) {}
    }
  }

  // k requests' worth of tokens, as a sum.
  function Multiple(k: nat, p: int): int
  {
    if k == 0 then 0 else Multiple(k - 1, p) + p
  }

  lemma {:induction false} MultipleIsProduct(k: nat, p: int)
    ensures Multiple(k, p) == k * p
  {
    if k > 0 {
      MultipleIsProduct(k - 1, p);
    }
  }

  // An active reservation never leaves more than one request's worth outstanding.
  lemma {:induction false} OutstandingAtMost(rs: seq<Reservation>, rows: seq<UsageRow>, user: string, perRequest: int)
    requires perRequest >= 0
    requires forall i :: 0 <= i < |rs| ==> rs[i].estimate <= perRequest
    ensures Outstanding(rs, rows, user) <= Multiple(ActiveCount(rs), perRequest)
  {
    if |rs| > 0 {
      OutstandingAtMost(rs[..|rs| - 1], rows, user, perRequest);
    }
  }

  lemma {:induction false} SettledAt(rs: seq<Reservation>, id: nat, actual: int)
    ensures |Settle(rs, id, actual)| == |rs|
    ensures forall i :: 0 <= i < |rs| ==>
      Settle(rs, id, actual)[i] == if rs[i].id == id then rs[i].(active := false, actual := actual) else rs[i]
  {
    if |rs| > 0 {
      SettledAt(rs[..|rs| - 1], id, actual);
    }
  }

  // Settling only releases: neither the outstanding tokens nor the active count grows.
  lemma {:induction false} SettleReleases(rs: seq<Reservation>, rows: seq<UsageRow>, id: nat, actual: int, user: string)
    requires forall i :: 0 <= i < |rs| && rs[i].active ==> Spent(rows, rs[i].id) <= rs[i].estimate
    ensures Outstanding(Settle(rs, id, actual), rows, user) <= Outstanding(rs, rows, user)
    ensures ActiveCount(Settle(rs, id, actual)) <= ActiveCount(rs)
  {
    if |rs| > 0 {
      var init := rs[..|rs| - 1];
      SettleReleases(init, rows, id, actual, user);
      var t := Settle(rs, id, actual);
      assert t[..|t| - 1] == Settle(init, id, actual);
    }
  }

  lemma ReservationSnoc(rs: seq<Reservation>, rows: seq<UsageRow>, r: Reservation, user: string)
    requires r.active
    ensures ActiveCount(rs + [r]) == ActiveCount(rs) + 1
    ensures Outstanding(rs + [r], rows, user) == Outstanding(rs, rows, user) +
      (if r.user == user then r.estimate - Spent(rows, r.id) else 0)
  {
    assert (rs + [r])[..|rs|] == rs;
  }

  // Granting: the state gains one active reservation with nothing spent, within the daily limit as recorded now.
  lemma GrantKeepsSafe(limits: Limits, s: State, r: Reservation, user: string)
    requires Consistent(limits, s) && Safe(limits, s, user) && r.active && 0 <= r.estimate <= limits.perRequest
    requires ActiveCount(s.reservations) < limits.concurrent
    requires TokensFor(s.rows, ByUser(r.user)) + r.estimate <= limits.daily
    requires Spent(s.rows, r.id) == 0
    ensures Safe(limits, s.(reservations := s.reservations + [r]), user)
  {
    ReservationSnoc(s.reservations, s.rows, r, user);
    if r.user == user {
      OutstandingAtMost(s.reservations, s.rows, user, limits.perRequest);
      MultipleIsProduct(ActiveCount(s.reservations), limits.perRequest);
      MulLe(ActiveCount(s.reservations), limits.concurrent - 1, limits.perRequest);
    }
  }

  lemma GrantKeepsConsistent(limits: Limits, s: State, r: Reservation)
    requires Consistent(limits, s) && !Known(s.reservations, r.id) && 0 <= r.estimate <= limits.perRequest
    requires Spent(s.rows, r.id) == 0
    ensures Consistent(limits, s.(reservations := s.reservations + [r]))
  {
  }

  lemma ReserveKeepsSafe(limits: Limits, s: State, e: Event, user: string)
    requires e.Reserve? && Disciplined(s, e) && Consistent(limits, s) && Safe(limits, s, user)
    ensures Consistent(limits, Apply(limits, s, e)) && Safe(limits, Apply(limits, s, e), user)
  {
    if Apply(limits, s, e) != s {
      var r := NewRow(limits, e.id, e.user, TokensFor(s.rows, ByUser(e.user)), e.estimate);
      UnknownSpendsNothing(s.rows, e.id);
      GrantKeepsConsistent(limits, s, r);
      GrantKeepsSafe(limits, s, r, user);
    }
  }

  lemma MulLe(a: int, b: int, k: int)
    requires a <= b && k >= 0
    ensures a * k <= b * k
  {
  }

  lemma UseKeepsSafe(limits: Limits, s: State, e: Event, user: string)
    requires e.Use? && Disciplined(s, e) && Consistent(limits, s) && Safe(limits, s, user)
    ensures Consistent(limits, Apply(limits, s, e)) && Safe(limits, Apply(limits, s, e), user)
  {
    var t := Apply(limits, s, e);
    var i :| 0 <= i < |s.reservations| && Covers(s, i, e.row);
    UseMovesTokens(s.reservations, s.rows, e.row, user);
    TokensSnoc(s.rows, e.row, ByUser(user));
    forall j | 0 <= j < |s.reservations| && s.reservations[j].active
      ensures Spent(t.rows, s.reservations[j].id) <= s.reservations[j].estimate
    {
      SpentSnoc(s.rows, e.row, s.reservations[j].id);
    }
  }

  lemma SettleKeepsConsistent(limits: Limits, s: State, id: nat, actual: int)
    requires Consistent(limits, s)
    ensures Consistent(limits, s.(reservations := Settle(s.reservations, id, actual)))
  {
    SettledAt(s.reservations, id, actual);
  }

  lemma ReconcileKeepsSafe(limits: Limits, s: State, e: Event, user: string)
    requires e.Reconcile? && Consistent(limits, s) && Safe(limits, s, user)
    ensures Consistent(limits, Apply(limits, s, e)) && Safe(limits, Apply(limits, s, e), user)
  {
    SettleKeepsConsistent(limits, s, e.id, e.actual);
    SettleReleases(s.reservations, s.rows, e.id, e.actual, user);
  }

  // Over every disciplined run: recorded plus outstanding tokens of a user stay within the bound, and at most
  // `concurrent` reservations are active. A run starts after a restart, with any ledger within the bound.
  lemma {:induction false} OvershootBound(limits: Limits, rows: seq<UsageRow>, es: seq<Event>, user: string)
    requires TokensFor(rows, ByUser(user)) <= Bound(limits)
    requires DisciplinedRun(limits, State([], rows), es)
    ensures var s := Run(limits, State([], rows), es); Consistent(limits, s) && Safe(limits, s, user)
  {
    if |es| > 0 {
      var before, e := Run(limits, State([], rows), es[..|es| - 1]), es[|es| - 1];
      OvershootBound(limits, rows, es[..|es| - 1], user);
      match e
      case Reserve(_, _, _, _, _) => ReserveKeepsSafe(limits, before, e, user);
      case Use(_) => UseKeepsSafe(limits, before, e, user);
      case Reconcile(_, _) => ReconcileKeepsSafe(limits, before, e, user);
    }
  }

  // ----- Who is granted a reservation -----

  ghost function ActiveRows(rs: seq<Reservation>): set<int> { set i | 0 <= i < |rs| && rs[i].active }

  lemma {:induction false} CountedRows(rs: seq<Reservation>)
    ensures ActiveCount(rs) == |ActiveRows(rs)|
  {
    if |rs| > 0 {
      var n, init := |rs| - 1, rs[..|rs| - 1];
      CountedRows(init);
      assert ActiveRows(rs) == ActiveRows(init) + (if rs[n].active then {n} else {});
    }
  }

  // The soft threshold, cut to whole tokens, is reached.
  ghost predicate AtThreshold(tokens: int, threshold: real)
  {
    if threshold >= 0.0 then tokens as real + 1.0 > threshold else tokens as real >= threshold
  }

  lemma WarnsIffAtThreshold(limits: Limits, recorded: int, estimate: int)
    ensures Warns(limits, recorded, estimate) <==>
      AtThreshold(recorded + estimate, Times(limits.daily as real, limits.softRatio))
  {
  }

  // A request is granted exactly when it is well formed, a slot is free, and neither the limit of one request nor what
  // the user has left is exceeded; the row it adds holds the slot, and nothing else changes.
  lemma ReserveOutcome(limits: Limits, s: State, e: Event)
    requires e.Reserve?
    ensures var used := TokensFor(s.rows, ByUser(e.user));
      var granted := 0 <= e.estimate <= limits.perRequest && e.cost >= 0.0 && e.valid
        && |ActiveRows(s.reservations)| < limits.concurrent && e.estimate <= limits.daily - used;
      Apply(limits, s, e) == if !granted then s else s.(reservations := s.reservations + [Reservation(e.id, e.user,
        e.estimate, AtThreshold(used + e.estimate, Times(limits.daily as real, limits.softRatio)), true, 0)])
  {
    CountedRows(s.reservations);
    WarnsIffAtThreshold(limits, TokensFor(s.rows, ByUser(e.user)), e.estimate);
  }

  // What is granted is granted to a smaller request as well.
  lemma SmallerIsGranted(limits: Limits, s: State, e: Event, estimate: int, cost: real)
    requires e.Reserve? && Apply(limits, s, e) != s && 0 <= estimate <= e.estimate && cost >= 0.0
    ensures Apply(limits, s, e.(estimate := estimate, cost := cost)) != s
  {
    ReserveOutcome(limits, s, e);
    ReserveOutcome(limits, s, e.(estimate := estimate, cost := cost));
  }

  // Reconciling frees the slots of its id, keeps the actual usage there, and leaves every other row alone.
  lemma ReconcileOutcome(limits: Limits, s: State, id: nat, actual: int)
    ensures var t := Apply(limits, s, Reconcile(id, actual));
      && t.rows == s.rows && |t.reservations| == |s.reservations|
      && (forall i :: 0 <= i < |t.reservations| ==>
            var a, b := s.reservations[i], t.reservations[i];
            && b.id == a.id && b.user == a.user && b.estimate == a.estimate && b.warned == a.warned
            && (a.id == id ==> !b.active && b.actual == actual) && (a.id != id ==> b == a))
  {
    SettledAt(s.reservations, id, actual);
  }

  // ----- The bound is reached -----

  function WitnessRows(limits: Limits, user: string): seq<UsageRow>
    requires 0 <= limits.perRequest <= limits.daily
  {
    [UsageRow(user, None, "", "", 0, 0, limits.daily - limits.perRequest, 0.0, None)]
  }

  function WitnessRun(limits: Limits, user: string, k: nat): seq<Event>
  {
    if k == 0 then [] else WitnessRun(limits, user, k - 1) + [Reserve(k, user, limits.perRequest, 0.0, true)]
  }

  function WitnessReservations(limits: Limits, user: string, k: nat): seq<Reservation>
  {
    if k == 0 then []
    else
      WitnessReservations(limits, user, k - 1)
      + [NewRow(limits, k, user, limits.daily - limits.perRequest, limits.perRequest)]
  }

  lemma {:induction false} WitnessTotals(limits: Limits, user: string, k: nat)
    requires 0 <= limits.perRequest <= limits.daily
    ensures var rs := WitnessReservations(limits, user, k);
      && |rs| == k && (forall i :: 0 <= i < |rs| ==> rs[i].id <= k)
      && ActiveCount(rs) == k
      && Outstanding(rs, WitnessRows(limits, user), user) == Multiple(k, limits.perRequest)
  {
    if k > 0 {
      WitnessTotals(limits, user, k - 1);
      UnknownSpendsNothing(WitnessRows(limits, user), k);
      ReservationSnoc(WitnessReservations(limits, user, k - 1), WitnessRows(limits, user),
        NewRow(limits, k, user, limits.daily - limits.perRequest, limits.perRequest), user);
    }
  }

  lemma WitnessStep(limits: Limits, user: string, k: nat)
    requires 0 <= limits.perRequest <= limits.daily && 0 < k <= limits.concurrent
    ensures var s := State(WitnessReservations(limits, user, k - 1), WitnessRows(limits, user));
      var e := Reserve(k, user, limits.perRequest, 0.0, true);
      && Disciplined(s, e)
      && Apply(limits, s, e) == s.(reservations := WitnessReservations(limits, user, k))
  {
    WitnessTotals(limits, user, k - 1);
    WitnessRecorded(limits, user);
    UnknownToWitness(limits, user, k);
  }

  lemma UnknownToWitness(limits: Limits, user: string, k: nat)
    requires 0 <= limits.perRequest <= limits.daily && k > 0
    ensures var s := State(WitnessReservations(limits, user, k - 1), WitnessRows(limits, user));
      Disciplined(s, Reserve(k, user, limits.perRequest, 0.0, true))
  {
    WitnessTotals(limits, user, k - 1);
  }

  lemma RunSnoc(limits: Limits, start: State, es: seq<Event>, e: Event)
    requires DisciplinedRun(limits, start, es) && Disciplined(Run(limits, start, es), e)
    ensures DisciplinedRun(limits, start, es + [e])
    ensures Run(limits, start, es + [e]) == Apply(limits, Run(limits, start, es), e)
  {
    assert (es + [e])[..|es|] == es;
  }

  lemma {:induction false} WitnessReaches(limits: Limits, user: string, k: nat)
    requires 0 <= limits.perRequest <= limits.daily && k <= limits.concurrent
    ensures var start := State([], WitnessRows(limits, user)); var es := WitnessRun(limits, user, k);
      && DisciplinedRun(limits, start, es)
      && Run(limits, start, es) == State(WitnessReservations(limits, user, k), WitnessRows(limits, user))
  {
    if k > 0 {
      WitnessReaches(limits, user, k - 1);
      WitnessStep(limits, user, k);
      RunSnoc(limits, State([], WitnessRows(limits, user)), WitnessRun(limits, user, k - 1),
        Reserve(k, user, limits.perRequest, 0.0, true));
    }
  }

  // For all sensible limits some disciplined run ends exactly on the bound, so it cannot be lowered.
  lemma BoundIsTight(limits: Limits, user: string)
    requires 0 <= limits.perRequest <= limits.daily && limits.concurrent >= 1
    ensures var start := State([], WitnessRows(limits, user)); var es := WitnessRun(limits, user, limits.concurrent);
      DisciplinedRun(limits, start, es) && Exposure(Run(limits, start, es), user) == Bound(limits)
  {
    var start := State([], WitnessRows(limits, user));
    WitnessReaches(limits, user, limits.concurrent);
    WitnessTotals(limits, user, limits.concurrent);
    WitnessRecorded(limits, user);
    MultipleIsProduct(limits.concurrent - 1, limits.perRequest);
  }

  lemma WitnessRecorded(limits: Limits, user: string)
    requires 0 <= limits.perRequest <= limits.daily
    ensures TokensFor(WitnessRows(limits, user), ByUser(user)) == limits.daily - limits.perRequest
  {
    TokensSnoc([], WitnessRows(limits, user)[0], ByUser(user));
    assert [] + WitnessRows(limits, user) == WitnessRows(limits, user);
  }

  // The "daily" limit reads the all-time total: a user who has used it up is refused on every later day.
  lemma {:induction false} DailyLimitNeverResets(limits: Limits, start: State, es: seq<Event>, user: string,
      estimate: int, cost: real, valid: bool, id: nat)
    requires TokensFor(start.rows, ByUser(user)) >= limits.daily && estimate > 0
    ensures var s := Run(limits, start, es); TokensFor(s.rows, ByUser(user)) >= limits.daily
    ensures var s := Run(limits, start, es);
      !Decide(limits, s.reservations, TokensFor(s.rows, ByUser(user)), estimate, cost, valid, id).Granted?
  {
    if |es| > 0 {
      DailyLimitNeverResets(limits, start, es[..|es| - 1], user, estimate, cost, valid, id);
      if es[|es| - 1].Use? {
        TokensSnoc(Run(limits, start, es[..|es| - 1]).rows, es[|es| - 1].row, ByUser(user));
      }
    }
  }
}
