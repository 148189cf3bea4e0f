/** The append-only provider usage ledger and the six-way grouping the budget reads from it. */
module UsageLedger {
  import opened Common

  // `reservation` names the budget reservation the usage was recorded against, when there is one.
  // `cost` is the confirmed cost, or else the estimated one, or else 0.
  datatype UsageRow = UsageRow(
    user: string, conversation: Option<string>, provider: string, model: string, day: int, month: int,
    tokens: nat, cost: real, reservation: Option<nat>)

  datatype Response = Response(prompt: int, completion: int, cached: int, reasoning: int, total: nat)

  datatype GroupKey =
    | ByUser(user: string)
    | ByConversation(conversation: Option<string>)
    | ByProvider(provider: string)
    | ByModel(model: string)
    | ByDay(day: int)
    | ByMonth(month: int)

  datatype Totals = Totals(tokens: int, cost: real, requests: int)

  function Least(a: int, b: int): int { if b < a then b else a }

  // total_tokens when reported, otherwise the sum of the parts; None for the negative-usage error.
  function Billed(r: Response): (tokens: Option<nat>)
    ensures tokens == None <==> r.prompt < 0 || r.completion < 0 || r.cached < 0 || r.reasoning < 0
    ensures tokens == Some(0) ==> r.total == 0 && r.prompt == 0 && r.completion == 0 && r.reasoning == 0
  {
    if Least(Least(r.prompt, r.completion), Least(r.cached, r.reasoning)) < 0 then None
    else if r.total != 0 then Some(r.total)
    else Some(r.prompt + r.completion + r.reasoning)
  }

  function KeysOf(row: UsageRow): seq<GroupKey>
  {
    [ByUser(row.user), ByConversation(row.conversation), ByProvider(row.provider),
      ByModel(row.model), ByDay(row.day), ByMonth(row.month)]
  }

  function TokensFor(rows: seq<UsageRow>, key: GroupKey): nat
  {
    if |rows| == 0 then 0
    else TokensFor(rows[..|rows| - 1], key) + (if key in KeysOf(rows[|rows| - 1]) then rows[|rows| - 1].tokens else 0)
  }

  function CostFor(rows: seq<UsageRow>, key: GroupKey): real
  {
    if |rows| == 0 then 0.0
    else CostFor(rows[..|rows| - 1], key) + (if key in KeysOf(rows[|rows| - 1]) then rows[|rows| - 1].cost else 0.0)
  }

  function RequestsFor(rows: seq<UsageRow>, key: GroupKey): nat
  {
    if |rows| == 0 then 0
    else RequestsFor(rows[..|rows| - 1], key) + (if key in KeysOf(rows[|rows| - 1]) then 1 else 0)
  }

  function TotalsFor(rows: seq<UsageRow>, key: GroupKey): Totals
  {
    Totals(TokensFor(rows, key), CostFor(rows, key), RequestsFor(rows, key))
  }

  const NOTHING := Totals(0, 0.0, 0)

  function Group(groups: map<GroupKey, Totals>, key: GroupKey): Totals
  {
    if key in groups then groups[key] else NOTHING
  }

  function Plus(t: Totals, row: UsageRow): Totals { Totals(t.tokens + row.tokens, t.cost + row.cost, t.requests + 1) }

  // The rows `list(user_id=...)` returns; an empty user id filters nothing.
  function Listed(rows: seq<UsageRow>, user: string): seq<UsageRow>
  {
    if user == "" || |rows| == 0 then rows
    else Listed(rows[..|rows| - 1], user) + (if rows[|rows| - 1].user == user then [rows[|rows| - 1]] else [])
  }

  lemma TokensSnoc(rows: seq<UsageRow>, row: UsageRow, key: GroupKey)
    ensures TokensFor(rows + [row], key) == TokensFor(rows, key) + (if key in KeysOf(row) then row.tokens else 0)
  {
    assert (rows + [row])[..|rows|] == rows;
  }

  lemma TotalsSnoc(rows: seq<UsageRow>, row: UsageRow, key: GroupKey)
    ensures TotalsFor(rows + [row], key) == if key in KeysOf(row) then Plus(TotalsFor(rows, key), row)
      else TotalsFor(rows, key)
  {
    assert (rows + [row])[..|rows|] == rows;
  }

  // The group is one that the row belongs to.
  predicate InGroup(row: UsageRow, key: GroupKey)
  {
    match key
    case ByUser(user) => row.user == user
    case ByConversation(conversation) => row.conversation == conversation
    case ByProvider(provider) => row.provider == provider
    case ByModel(model) => row.model == model
    case ByDay(day) => row.day == day
    case ByMonth(month) => row.month == month
  }

  // Recording a response and reading the groups back: every group of the row gains the reported total, or the tokens
  // sent, received and spent on reasoning when none is reported, and no other group changes.
  lemma RecordedUsageIsAggregated(rows: seq<UsageRow>, template: UsageRow, r: Response, key: GroupKey)
    requires Billed(r).Some?
    ensures var row := template.(tokens := Billed(r).value);
      var gained := if !InGroup(template, key) then 0 else if r.total > 0 then r.total
        else r.prompt + r.completion + r.reasoning;
      TokensFor(rows + [row], key) == TokensFor(rows, key) + gained
  {
    TokensSnoc(rows, template.(tokens := Billed(r).value), key);
  }

  // A listing keeps exactly the user's rows, each as often as it was recorded; without a user, all rows.
  lemma {:induction false} ListingIsFilter(rows: seq<UsageRow>, user: string, row: UsageRow)
    ensures multiset(Listed(rows, user))[row] == if user == "" || row.user == user then multiset(rows)[row] else 0
  {
    if user != "" && |rows| > 0 {
      var init, last := rows[..|rows| - 1], rows[|rows| - 1];
      ListingIsFilter(init, user, row);
      assert rows == init + [last];
    }
  }

  // Listing one user's rows first does not change that user's total.
  lemma {:induction false} ListingKeepsUserTotal(rows: seq<UsageRow>, user: string)
    ensures TokensFor(Listed(rows, user), ByUser(user)) == TokensFor(rows, ByUser(user))
  {
    if user != "" && |rows| > 0 {
      var init, last := rows[..|rows| - 1], rows[|rows| - 1];
      ListingKeepsUserTotal(init, user);
      TokensSnoc(Listed(init, user), last, ByUser(user));
      assert Listed(init, user) + [] == Listed(init, user);
    }
  }

  class Ledger {
    var rows: seq<UsageRow>

    constructor ()
      ensures rows == []
    {
      rows := [];
    }

    method Record(template: UsageRow, response: Response) returns (ok: bool)
      modifies this
      ensures ok == Billed(response).Some?
      ensures rows == if ok then old(rows) + [template.(tokens := Billed(response).value)] else old(rows)
    {
      var billed := Billed(response);
      if billed == None {
        return false;
      }
      rows := rows + [template.(tokens := billed.value)];
      return true;
    }

    method Aggregate(user: string) returns (groups: map<GroupKey, Totals>)
      ensures forall key :: Group(groups, key) == TotalsFor(Listed(rows, user), key)
      ensures Group(groups, ByUser(user)).tokens == TokensFor(rows, ByUser(user))
    {
      groups := map[];
      var listed := Listed(rows, user);
      for i := 0 to |listed|
        invariant forall key :: Group(groups, key) == TotalsFor(listed[..i], key)
      {
        groups := AddRow(groups, listed[i], listed[..i]);
        assert listed[..i + 1] == listed[..i] + [listed[i]];
      }
      assert listed[..|listed|] == listed;
      ListingKeepsUserTotal(rows, user);
    }

    // One row counts once for each of its six keys.
    method AddRow(before: map<GroupKey, Totals>, row: UsageRow, ghost rows: seq<UsageRow>)
        returns (groups: map<GroupKey, Totals>)
      requires forall key :: Group(before, key) == TotalsFor(rows, key)
      ensures forall key :: Group(groups, key) == TotalsFor(rows + [row], key)
    {
      groups := before;
      var keys := KeysOf(row);
      for k := 0 to |keys|
        invariant forall key :: Group(groups, key) == if key in keys[..k] then Plus(Group(before, key), row)
          else Group(before, key)
      {
        groups := groups[keys[k] := Plus(Group(groups, keys[k]), row)];
        assert keys[..k + 1] == keys[..k] + [keys[k]];
        assert keys[k] !in keys[..k];
      }
      assert keys[..|keys|] == keys;
      forall key ensures Group(groups, key) == TotalsFor(rows + [row], key) { TotalsSnoc(rows, row, key); }
    }
  }
}
