/**
 The bounded lineage trace. Additions are silently dropped once a limit is hit; the graph returned is nevertheless
 always closed (no dangling edge), and complete whenever no limit warning was issued.
 */
module Lineage {
  import opened Common

  const MAX_NODES := 64
  const MAX_EDGES := 96
  const MAX_DURATION_MS := 250.0

  datatype Node = Node(id: string, kind: string, version: Option<string>, timestamp: Option<string>)
  datatype Edge = Edge(source: string, target: string, relation: string)
  datatype Warning = LimitReached | CycleOrDuplicate(id: string) | ScopeMismatch

  // Noting a missing kind of record takes no reading of the clock and knows no limit.
  datatype Op = AddNode(node: Node) | AddEdge(edge: Edge) | Miss(kind: string)

  // `ticks` counts the readings of the clock; reading number n is clock(n) milliseconds after the start.
  datatype Graph = Graph(
    nodes: seq<Node>, edges: seq<Edge>, missing: seq<string>, warnings: seq<Warning>, seen: set<string>,
    ticks: nat)

  const EMPTY := Graph([], [], [], [], {}, 0)

  type Clock = nat -> real

  predicate Limited(g: Graph, clock: Clock)
  {
    |g.nodes| >= MAX_NODES || |g.edges| >= MAX_EDGES || clock(g.ticks) > MAX_DURATION_MS
  }

  function Perform(g: Graph, op: Op, clock: Clock): Graph
  {
    var read := g.(ticks := g.ticks + 1);
    match op
    case Miss(kind) => g.(missing := g.missing + [kind])
    case AddNode(n) =>
      if Limited(g, clock) then read.(warnings := g.warnings + [LimitReached])
      else if n.id in g.seen then read.(warnings := g.warnings + [CycleOrDuplicate(n.id)])
      else read.(seen := g.seen + {n.id}, nodes := g.nodes + [n])
    case AddEdge(e) =>
      if Limited(g, clock) then read.(warnings := g.warnings + [LimitReached]) else read.(edges := g.edges + [e])
  }

  function PerformAll(start: Graph, ops: seq<Op>, clock: Clock): Graph
  {
    if |ops| == 0 then start else Perform(PerformAll(start, ops[..|ops| - 1], clock), ops[|ops| - 1], clock)
  }

  // ----- What the stored records ask for -----

  // `readable` is the outcome of the caller's authorization check for the row.
  datatype Candidate = Candidate(
    readable: bool, scorecard: Option<string>, version: Option<string>, created: Option<string>)
  datatype Deployment = Deployment(
    id: string, candidate: string, readable: bool, version: string, created: Option<string>)
  datatype Risk = Risk(
    id: string, deployment: Option<string>, readable: bool, policy: Option<string>, created: Option<string>)
  datatype Order = Order(id: string, deployment: string, readable: bool, version: string, created: Option<string>)
  datatype Fill = Fill(
    id: string, order: string, instrument: Option<string>, account: string, readable: bool, sequence: string,
    created: Option<string>)
  datatype Reconciliation = Reconciliation(id: string, account: string, readable: bool, created: Option<string>)

  datatype Records = Records(
    candidates: map<string, Candidate>, deployments: seq<Deployment>, risks: seq<Risk>, orders: seq<Order>,
    fills: seq<Fill>, reconciliations: seq<Reconciliation>)

  datatype Reference = Reference(kind: string, id: string, version: Option<string>)

  datatype Result = Traced(
    nodes: seq<Node>, edges: seq<Edge>, missing: seq<string>, warnings: seq<Warning>) | MissingInstrument

  // Which part of the built graph is handed back; Raise is the KeyError of a reconciled fill without instrument.
  datatype Finish = Everything | FirstNodeOnly | Nothing | Raise

  datatype Plan = Plan(ops: seq<Op>, finish: Finish)

  // ----- The nodes the records become -----

  function RootNode(r: Reference): Node { Node(r.id, r.kind, r.version, None) }

  function ScorecardNode(id: string, c: Candidate): Node { Node(id, "scorecard", c.version, c.created) }

  function DeploymentNode(d: Deployment): Node { Node(d.id, "deployment", Some(d.version), d.created) }

  function BareDeploymentNode(id: string): Node { Node(id, "deployment", None, None) }

  function RiskNode(r: Risk): Node { Node(r.id, "risk_evaluation", r.policy, r.created) }

  function OrderNode(o: Order): Node { Node(o.id, "paper_order", Some(o.version), o.created) }

  function FillNode(f: Fill): Node { Node(f.id, "paper_fill", Some(f.sequence), f.created) }

  function PositionNode(f: Fill): Node { Node(InstrumentOr(f), "position", None, None) }

  function ReconciliationNode(r: Reconciliation): Node { Node(r.id, "reconciliation", Some(r.id), r.created) }

  function Link(node: Node, edge: Edge): seq<Op> { [AddNode(node), AddEdge(edge)] }

  function DeploymentOf(ds: seq<Deployment>, candidate: string): Option<Deployment>
  {
    if |ds| == 0 then None else if ds[0].candidate == candidate then Some(ds[0]) else DeploymentOf(ds[1..], candidate)
  }

  function DeploymentById(ds: seq<Deployment>, id: string): Option<Deployment>
  {
    if |ds| == 0 then None else if ds[0].id == id then Some(ds[0]) else DeploymentById(ds[1..], id)
  }

  function OrderById(os: seq<Order>, id: string): Option<Order>
  {
    if |os| == 0 then None else if os[0].id == id then Some(os[0]) else OrderById(os[1..], id)
  }

  function RiskById(rs: seq<Risk>, id: string): Option<Risk>
  {
    if |rs| == 0 then None else if rs[0].id == id then Some(rs[0]) else RiskById(rs[1..], id)
  }

  function FillsOf(fills: seq<Fill>, order: string): seq<Fill>
  {
    if |fills| == 0 then []
    else
      FillsOf(fills[..|fills| - 1], order)
      + (if fills[|fills| - 1].order == order && fills[|fills| - 1].readable then [fills[|fills| - 1]] else [])
  }

  function InstrumentOr(fill: Fill): string { if fill.instrument.Some? then fill.instrument.value else "position" }

  function FillOps(fills: seq<Fill>, order: string): seq<Op>
  {
    if |fills| == 0 then []
    else
      var f := fills[|fills| - 1];
      FillOps(fills[..|fills| - 1], order) + Link(FillNode(f), Edge(order, f.id, "filled_by"))
      + Link(PositionNode(f), Edge(f.id, InstrumentOr(f), "updates_position"))
  }

  predicate Touches(fills: seq<Fill>, account: string) { exists i :: 0 <= i < |fills| && fills[i].account == account }

  function LastReconciliation(rs: seq<Reconciliation>, fills: seq<Fill>): Option<Reconciliation>
  {
    if |rs| == 0 then None
    else if Touches(fills, rs[|rs| - 1].account) && rs[|rs| - 1].readable then Some(rs[|rs| - 1])
    else LastReconciliation(rs[..|rs| - 1], fills)
  }

  // None when reading the last fill's instrument raises.
  function ReconciliationOps(order: string, fills: seq<Fill>, recon: Option<Reconciliation>): Option<seq<Op>>
  {
    if recon == None then Some([])
    else if |fills| == 0 then Some(Link(ReconciliationNode(recon.value), Edge(order, recon.value.id, "reconciled_by")))
    else if fills[|fills| - 1].instrument == None then None
    else Some(Link(ReconciliationNode(recon.value),
      Edge(fills[|fills| - 1].instrument.value, recon.value.id, "reconciled_by")))
  }

  function OwnFillOps(fills: seq<Fill>, order: string): seq<Op>
  {
    if |fills| == 0 then [Miss("fill")] else FillOps(fills, order)
  }

  function ChildOps(order: string, data: Records): Option<seq<Op>>
  {
    var fills := FillsOf(data.fills, order);
    var recon := ReconciliationOps(order, fills, LastReconciliation(data.reconciliations, fills));
    if recon == None then None else Some(OwnFillOps(fills, order) + recon.value)
  }

  function RiskOps(risks: seq<Risk>, deployment: string): seq<Op>
  {
    if |risks| == 0 then []
    else
      var r := risks[|risks| - 1];
      RiskOps(risks[..|risks| - 1], deployment)
      + (if r.deployment == Some(deployment) && r.readable
        then Link(RiskNode(r), Edge(deployment, r.id, "risk_checked")) else [])
  }

  function OneOrderOps(o: Order, deployment: string, data: Records): Option<seq<Op>>
  {
    if o.deployment != deployment || !o.readable then Some([])
    else
      var children := ChildOps(o.id, data);
      if children == None then None
      else Some(Link(OrderNode(o), Edge(deployment, o.id, "created_order")) + children.value)
  }

  function OrderOps(orders: seq<Order>, deployment: string, data: Records): Option<seq<Op>>
  {
    if |orders| == 0 then Some([])
    else
      var before := OrderOps(orders[..|orders| - 1], deployment, data);
      var one := OneOrderOps(orders[|orders| - 1], deployment, data);
      if before == None || one == None then None else Some(before.value + one.value)
  }

  predicate IsDeploymentId(id: string) { "deploy_" <= id }

  // The readable deployment of a candidate.
  function DeployedAs(reference: Reference, data: Records): Option<Deployment>
  {
    if reference.kind != "candidate" then None
    else
      var d := DeploymentOf(data.deployments, reference.id);
      if d.Some? && d.value.readable then d else None
  }

  function ScorecardOps(reference: Reference, c: Candidate): seq<Op>
  {
    if c.scorecard.Some? && c.scorecard.value != ""
    then Link(ScorecardNode(c.scorecard.value, c), Edge(c.scorecard.value, reference.id, "promotes_candidate"))
      else [Miss("scorecard")]
  }

  function DeployedOps(reference: Reference, deployed: Option<Deployment>): seq<Op>
  {
    if deployed.Some? then Link(DeploymentNode(deployed.value), Edge(reference.id, deployed.value.id, "deployed_as"))
      else [Miss("deployment")]
  }

  function CandidateOps(reference: Reference, data: Records, c: Candidate): seq<Op>
  {
    ScorecardOps(reference, c) + DeployedOps(reference, DeployedAs(reference, data))
  }

  function DeploymentOps(reference: Reference, current: string, data: Records): Option<seq<Op>>
  {
    var d := DeploymentById(data.deployments, current);
    if !(reference.kind == "deployment" || IsDeploymentId(current)) then Some([])
    else if d == None || !d.value.readable then Some([Miss("deployment")])
    else
      var orders := OrderOps(data.orders, current, data);
      if orders == None then None else Some(RiskOps(data.risks, current) + orders.value)
  }

  function RiskReferenceOps(reference: Reference, current: string, data: Records): seq<Op>
  {
    var r := RiskById(data.risks, current);
    if reference.kind != "risk_evaluation" then []
    else if r == None || !r.value.readable then [Miss("risk_evaluation")]
    else if r.value.deployment.Some? && r.value.deployment.value != "" then
      Link(BareDeploymentNode(r.value.deployment.value), Edge(r.value.deployment.value, current, "risk_checked"))
    else []
  }

  function PlanOf(reference: Reference, data: Records): Plan
  {
    var root := [AddNode(RootNode(reference))];
    if reference.kind == "candidate" && reference.id !in data.candidates
      then Plan(root + [Miss("candidate")], Everything)
    else if reference.kind == "candidate" && !data.candidates[reference.id].readable then Plan(root, Nothing)
    else if reference.kind == "candidate" then
      PlanFrom(reference, CurrentOf(reference, data), data,
        root + CandidateOps(reference, data, data.candidates[reference.id]))
    else PlanFrom(reference, reference.id, data, root)
  }

  function CurrentOf(reference: Reference, data: Records): string
  {
    if DeployedAs(reference, data).Some? then DeployedAs(reference, data).value.id else reference.id
  }

  // The rest of the plan once `current` is known and `soFar` has been asked for.
  function PlanFrom(reference: Reference, current: string, data: Records, soFar: seq<Op>): Plan
  {
    var deployed := DeploymentOps(reference, current, data);
    if deployed == None then Plan([], Raise)
    else
      var order := OrderById(data.orders, current);
      var children := if reference.kind == "paper_order" then ChildOps(current, data) else Some([]);
      if reference.kind == "paper_order" && order.Some? && !order.value.readable
        then Plan(soFar + deployed.value, FirstNodeOnly)
      else if children == None then Plan([], Raise)
      else Plan(soFar + deployed.value + children.value + RiskReferenceOps(reference, current, data), Everything)
  }

  function Expected(reference: Reference, data: Records, clock: Clock): Result
  {
    Deliver(PlanOf(reference, data), clock)
  }

  function Deliver(plan: Plan, clock: Clock): Result
  {
    var g := PerformAll(EMPTY, plan.ops, clock);
    match plan.finish
    case Everything => Traced(g.nodes, g.edges, g.missing, g.warnings)
    case FirstNodeOnly => Traced(if |g.nodes| > 0 then g.nodes[..1] else [], [], ["paper_order"], [ScopeMismatch])
    case Nothing => Traced([], [], ["candidate"], [ScopeMismatch])
    case Raise => MissingInstrument
  }

  // ----- Closure -----

  predicate Attempted(ops: seq<Op>, id: string)
  {
    exists i :: 0 <= i < |ops| && ops[i].AddNode? && ops[i].node.id == id
  }

  // Every edge names only ids for which a node was asked for earlier.
  ghost predicate WellFormed(ops: seq<Op>)
  {
    forall i :: 0 <= i < |ops| && ops[i].AddEdge? ==>
      Attempted(ops[..i], ops[i].edge.source) && Attempted(ops[..i], ops[i].edge.target)
  }

  ghost predicate Monotone(clock: Clock)
  {
    forall i: nat, j: nat :: i <= j ==> clock(i) <= clock(j)
  }

  // Some limit has been hit at a reading already taken.
  ghost predicate Exhausted(g: Graph, clock: Clock)
  {
    |g.nodes| >= MAX_NODES || |g.edges| >= MAX_EDGES || (g.ticks > 0 && clock(g.ticks - 1) > MAX_DURATION_MS)
  }

  predicate HasNode(nodes: seq<Node>, id: string) { exists i :: 0 <= i < |nodes| && nodes[i].id == id }

  ghost predicate Closed(nodes: seq<Node>, edges: seq<Edge>)
  {
    && |nodes| <= MAX_NODES && |edges| <= MAX_EDGES
    && (forall i, j :: 0 <= i < j < |nodes| ==> nodes[i].id != nodes[j].id)
    && (forall k :: 0 <= k < |edges| ==> HasNode(nodes, edges[k].source) && HasNode(nodes, edges[k].target))
  }

  ghost predicate SeenIsNodes(g: Graph) { forall id :: id in g.seen <==> HasNode(g.nodes, id) }

  lemma AttemptedSnoc(ops: seq<Op>, op: Op)
    ensures forall id :: Attempted(ops + [op], id) <==> Attempted(ops, id) || (op.AddNode? && op.node.id == id)
  {
    var all := ops + [op];
    forall id ensures Attempted(all, id) <==> Attempted(ops, id) || (op.AddNode? && op.node.id == id) {
      if Attempted(ops, id) {
        var i :| 0 <= i < |ops| && ops[i].AddNode? && ops[i].node.id == id;
        assert all[i] == ops[i];
      }
      if op.AddNode? && op.node.id == id { assert all[|ops|] == op; }
    }
  }

  lemma HasNodeSnoc(nodes: seq<Node>, n: Node)
    ensures forall id :: HasNode(nodes + [n], id) <==> HasNode(nodes, id) || n.id == id
  {
    var all := nodes + [n];
    forall id ensures HasNode(all, id) <==> HasNode(nodes, id) || n.id == id {
      if HasNode(nodes, id) {
        var i :| 0 <= i < |nodes| && nodes[i].id == id;
        assert all[i] == nodes[i];
      }
      if n.id == id { assert all[|nodes|] == n; }
    }
  }

  // Once exhausted, a later check is limited too; so an edge gets in only while every node asked for is in.
  lemma {:induction false} BuiltGraphIsClosed(ops: seq<Op>, clock: Clock)
    requires WellFormed(ops) && Monotone(clock)
    ensures var g := PerformAll(EMPTY, ops, clock);
      && Closed(g.nodes, g.edges) && SeenIsNodes(g)
      && (Exhausted(g, clock) || forall id :: Attempted(ops, id) ==> id in g.seen)
  {
    if |ops| > 0 {
      var before, op := ops[..|ops| - 1], ops[|ops| - 1];
      assert WellFormed(before) by {
        forall i | 0 <= i < |before| && before[i].AddEdge?
          ensures Attempted(before[..i], before[i].edge.source) && Attempted(before[..i], before[i].edge.target)
        {
          assert before[..i] == ops[..i];
        }
      }
      BuiltGraphIsClosed(before, clock);
      var g := PerformAll(EMPTY, before, clock);
      assert Exhausted(g, clock) ==> Limited(g, clock);
      assert before + [op] == ops;
      AttemptedSnoc(before, op);
      if op.AddNode? { HasNodeSnoc(g.nodes, op.node); }
      if op.AddEdge? { assert ops[..|before|] == before; }
    }
  }

  // Without a limit warning nothing was dropped: all edges asked for, in order, and every node asked for.
  lemma {:induction false} NoLimitWarningMeansComplete(ops: seq<Op>, clock: Clock)
    requires LimitReached !in PerformAll(EMPTY, ops, clock).warnings
    ensures PerformAll(EMPTY, ops, clock).edges == EdgesOf(ops)
    ensures forall id :: Attempted(ops, id) <==> id in PerformAll(EMPTY, ops, clock).seen
  {
    if |ops| > 0 {
      var before, op := ops[..|ops| - 1], ops[|ops| - 1];
      var g := PerformAll(EMPTY, before, clock);
      assert forall w :: w in g.warnings ==> w in PerformAll(EMPTY, ops, clock).warnings;
      assert Limited(g, clock) && !op.Miss? ==> LimitReached in PerformAll(EMPTY, ops, clock).warnings;
      NoLimitWarningMeansComplete(before, clock);
      assert before + [op] == ops;
      AttemptedSnoc(before, op);
    }
  }

  function MissesOf(ops: seq<Op>): seq<string>
  {
    if |ops| == 0 then []
    else MissesOf(ops[..|ops| - 1]) + (if ops[|ops| - 1].Miss? then [ops[|ops| - 1].kind] else [])
  }

  // No limit ever hides a missing kind of record.
  lemma {:induction false} MissesAreNeverDropped(ops: seq<Op>, clock: Clock)
    ensures PerformAll(EMPTY, ops, clock).missing == MissesOf(ops)
  {
    if |ops| > 0 { MissesAreNeverDropped(ops[..|ops| - 1], clock); }
  }

  function EdgesOf(ops: seq<Op>): seq<Edge>
  {
    if |ops| == 0 then []
    else EdgesOf(ops[..|ops| - 1]) + (if ops[|ops| - 1].AddEdge? then [ops[|ops| - 1].edge] else [])
  }

  // ----- The plan is well formed -----

  // ops may follow any list that has asked for all of `ids`.
  ghost predicate WellFormedAfter(ids: set<string>, ops: seq<Op>)
  {
    forall i :: 0 <= i < |ops| && ops[i].AddEdge? ==>
      (ops[i].edge.source in ids || Attempted(ops[..i], ops[i].edge.source))
      && (ops[i].edge.target in ids || Attempted(ops[..i], ops[i].edge.target))
  }

  lemma AttemptedConcat(xs: seq<Op>, ys: seq<Op>)
    ensures forall id :: Attempted(xs + ys, id) <==> Attempted(xs, id) || Attempted(ys, id)
  {
    var all := xs + ys;
    forall id ensures Attempted(all, id) <==> Attempted(xs, id) || Attempted(ys, id) {
      if Attempted(xs, id) {
        var i :| 0 <= i < |xs| && xs[i].AddNode? && xs[i].node.id == id;
        assert all[i] == xs[i];
      }
      if Attempted(ys, id) {
        var i :| 0 <= i < |ys| && ys[i].AddNode? && ys[i].node.id == id;
        assert all[|xs| + i] == ys[i];
      }
    }
  }

  lemma WellFormedConcat(ids: set<string>, more: set<string>, xs: seq<Op>, ys: seq<Op>)
    requires WellFormedAfter(ids, xs) && WellFormedAfter(ids + more, ys)
    requires forall id :: id in more ==> Attempted(xs, id)
    ensures WellFormedAfter(ids, xs + ys)
  {
    var all := xs + ys;
    forall i | 0 <= i < |all| && all[i].AddEdge?
      ensures (all[i].edge.source in ids || Attempted(all[..i], all[i].edge.source))
      ensures (all[i].edge.target in ids || Attempted(all[..i], all[i].edge.target))
    {
      if i < |xs| {
        assert all[..i] == xs[..i];
      } else {
        assert all[..i] == xs + ys[..i - |xs|];
        AttemptedConcat(xs, ys[..i - |xs|]);
      }
    }
  }

  lemma LinkWellFormed(ids: set<string>, n: Node, e: Edge)
    requires e.source in ids + {n.id} && e.target in ids + {n.id}
    ensures WellFormedAfter(ids, Link(n, e))
    ensures Attempted(Link(n, e), n.id)
  {
    var ops := Link(n, e);
    assert ops[..1][0] == ops[0];
    assert ops[0].AddNode? && ops[0].node.id == n.id;
    assert Attempted(ops[..1], n.id);
  }

  lemma {:induction false} FillOpsWellFormed(fills: seq<Fill>, order: string)
    ensures WellFormedAfter({order}, FillOps(fills, order))
    ensures |fills| > 0 ==> Attempted(FillOps(fills, order), InstrumentOr(fills[|fills| - 1]))
  {
    if |fills| > 0 {
      var init, f := fills[..|fills| - 1], fills[|fills| - 1];
      FillOpsWellFormed(init, order);
      var first := Link(FillNode(f), Edge(order, f.id, "filled_by"));
      var second := Link(PositionNode(f), Edge(f.id, InstrumentOr(f), "updates_position"));
      LinkWellFormed({order}, first[0].node, first[1].edge);
      LinkWellFormed({order} + {f.id}, second[0].node, second[1].edge);
      WellFormedConcat({order}, {}, FillOps(init, order), first);
      AttemptedConcat(FillOps(init, order), first);
      WellFormedConcat({order}, {f.id}, FillOps(init, order) + first, second);
      AttemptedConcat(FillOps(init, order) + first, second);
    }
  }

  lemma ChildOpsWellFormed(order: string, data: Records)
    requires ChildOps(order, data).Some?
    ensures WellFormedAfter({order}, ChildOps(order, data).value)
  {
    var fills := FillsOf(data.fills, order);
    var recon := LastReconciliation(data.reconciliations, fills);
    var own := OwnFillOps(fills, order);
    FillOpsWellFormed(fills, order);
    if recon == None {
      assert own + [] == own;
    } else {
      var n := ReconciliationNode(recon.value);
      var source := if |fills| == 0 then order else fills[|fills| - 1].instrument.value;
      LinkWellFormed({order} + {source}, n, Edge(source, n.id, "reconciled_by"));
      var more := if |fills| == 0 then {} else {source};
      WellFormedConcat({order}, more, own, Link(n, Edge(source, n.id, "reconciled_by")));
    }
  }

  lemma {:induction false} RiskOpsWellFormed(risks: seq<Risk>, deployment: string)
    ensures WellFormedAfter({deployment}, RiskOps(risks, deployment))
  {
    if |risks| > 0 {
      var init, r := risks[..|risks| - 1], risks[|risks| - 1];
      RiskOpsWellFormed(init, deployment);
      var link := Link(RiskNode(r), Edge(deployment, r.id, "risk_checked"));
      LinkWellFormed({deployment}, link[0].node, link[1].edge);
      WellFormedConcat({deployment}, {}, RiskOps(init, deployment), link);
      assert RiskOps(init, deployment) + [] == RiskOps(init, deployment);
    }
  }

  lemma {:induction false} OrderOpsWellFormed(orders: seq<Order>, deployment: string, data: Records)
    requires OrderOps(orders, deployment, data).Some?
    ensures WellFormedAfter({deployment}, OrderOps(orders, deployment, data).value)
  {
    if |orders| > 0 {
      var init, o := orders[..|orders| - 1], orders[|orders| - 1];
      OrderOpsWellFormed(init, deployment, data);
      OneOrderOpsWellFormed(o, deployment, data);
      WellFormedConcat({deployment}, {}, OrderOps(init, deployment, data).value,
        OneOrderOps(o, deployment, data).value);
    }
  }

  lemma OneOrderOpsWellFormed(o: Order, deployment: string, data: Records)
    requires OneOrderOps(o, deployment, data).Some?
    ensures WellFormedAfter({deployment}, OneOrderOps(o, deployment, data).value)
  {
    if o.deployment == deployment && o.readable {
      var link := Link(OrderNode(o), Edge(deployment, o.id, "created_order"));
      LinkWellFormed({deployment}, link[0].node, link[1].edge);
      ChildOpsWellFormed(o.id, data);
      var children := ChildOps(o.id, data).value;
      assert WellFormedAfter({deployment} + {o.id}, children);
      WellFormedConcat({deployment}, {o.id}, link, children);
    }
  }

  lemma CandidateOpsWellFormed(reference: Reference, data: Records, c: Candidate)
    ensures WellFormedAfter({reference.id}, CandidateOps(reference, data, c))
    ensures DeployedAs(reference, data).Some? ==>
      Attempted(CandidateOps(reference, data, c), DeployedAs(reference, data).value.id)
  {
    var scorecard, deployed := ScorecardOps(reference, c), DeployedAs(reference, data);
    if c.scorecard.Some? && c.scorecard.value != "" {
      LinkWellFormed({reference.id}, scorecard[0].node, scorecard[1].edge);
    }
    var second := DeployedOps(reference, deployed);
    if deployed.Some? { LinkWellFormed({reference.id}, second[0].node, second[1].edge); }
    WellFormedConcat({reference.id}, {}, scorecard, second);
    AttemptedConcat(scorecard, second);
  }

  lemma DeploymentOpsWellFormed(reference: Reference, current: string, data: Records)
    requires DeploymentOps(reference, current, data).Some?
    ensures WellFormedAfter({current}, DeploymentOps(reference, current, data).value)
  {
    var orders := OrderOps(data.orders, current, data);
    RiskOpsWellFormed(data.risks, current);
    if orders.Some? {
      OrderOpsWellFormed(data.orders, current, data);
      WellFormedConcat({current}, {}, RiskOps(data.risks, current), orders.value);
    }
  }

  lemma RiskReferenceOpsWellFormed(reference: Reference, current: string, data: Records)
    ensures WellFormedAfter({current}, RiskReferenceOps(reference, current, data))
  {
    var r := RiskById(data.risks, current);
    if r.Some? && r.value.deployment.Some? {
      var d := r.value.deployment.value;
      LinkWellFormed({current}, BareDeploymentNode(d), Edge(d, current, "risk_checked"));
    }
  }

  // ids asked for by xs stay available to anything appended later.
  lemma Extend(ids: set<string>, xs: seq<Op>, ys: seq<Op>)
    requires WellFormed(xs) && (forall id :: id in ids ==> Attempted(xs, id)) && WellFormedAfter(ids, ys)
    ensures WellFormed(xs + ys) && forall id :: Attempted(xs, id) || Attempted(ys, id) ==> Attempted(xs + ys, id)
  {
    assert {} + ids == ids;
    WellFormedConcat({}, ids, xs, ys);
    AttemptedConcat(xs, ys);
  }

  lemma PlanIsWellFormed(reference: Reference, data: Records)
    ensures WellFormed(PlanOf(reference, data).ops)
  {
    var root := [AddNode(RootNode(reference))];
    assert root[0].AddNode? && root[0].node.id == reference.id;
    assert Attempted(root, reference.id);
    if reference.kind == "candidate" && reference.id in data.candidates && data.candidates[reference.id].readable {
      var own := CandidateOps(reference, data, data.candidates[reference.id]);
      CandidateOpsWellFormed(reference, data, data.candidates[reference.id]);
      Extend({reference.id}, root, own);
      PlanFromWellFormed(reference, CurrentOf(reference, data), data, root + own);
    } else if reference.kind != "candidate" {
      PlanFromWellFormed(reference, reference.id, data, root);
    } else {
      Extend({}, root, [Miss("candidate")]);
    }
  }

  lemma PlanFromWellFormed(reference: Reference, current: string, data: Records, soFar: seq<Op>)
    requires WellFormed(soFar) && Attempted(soFar, current)
    ensures WellFormed(PlanFrom(reference, current, data, soFar).ops)
  {
    var deployed := DeploymentOps(reference, current, data);
    var children := if reference.kind == "paper_order" then ChildOps(current, data) else Some([]);
    if deployed.Some? {
      DeploymentOpsWellFormed(reference, current, data);
      Extend({current}, soFar, deployed.value);
      if children.Some? {
        if reference.kind == "paper_order" { ChildOpsWellFormed(current, data); }
        Extend({current}, soFar + deployed.value, children.value);
        RiskReferenceOpsWellFormed(reference, current, data);
        Extend({current}, soFar + deployed.value + children.value, RiskReferenceOps(reference, current, data));
      }
    }
  }

  // For any stored records, reference and monotone clock, the graph handed back is closed.
  lemma TracedGraphIsClosed(reference: Reference, data: Records, clock: Clock)
    requires Monotone(clock) && Expected(reference, data, clock).Traced?
    ensures Closed(Expected(reference, data, clock).nodes, Expected(reference, data, clock).edges)
  {
    PlanIsWellFormed(reference, data);
    BuiltGraphIsClosed(PlanOf(reference, data).ops, clock);
  }

  // Without a limit warning the graph handed back holds every edge the records ask for.
  lemma TracedGraphIsComplete(reference: Reference, data: Records, clock: Clock)
    requires PlanOf(reference, data).finish == Everything
    requires LimitReached !in Expected(reference, data, clock).warnings
    ensures Expected(reference, data, clock).edges == EdgesOf(PlanOf(reference, data).ops)
    ensures Expected(reference, data, clock).missing == MissesOf(PlanOf(reference, data).ops)
  {
    MissesAreNeverDropped(PlanOf(reference, data).ops, clock);
    NoLimitWarningMeansComplete(PlanOf(reference, data).ops, clock);
  }

  // ----- The tracer itself -----

  lemma PerformSnoc(ops: seq<Op>, op: Op, clock: Clock)
    ensures PerformAll(EMPTY, ops + [op], clock) == Perform(PerformAll(EMPTY, ops, clock), op, clock)
  {
    assert (ops + [op])[..|ops|] == ops;
  }

  lemma OrderOpsSnoc(orders: seq<Order>, i: nat, deployment: string, data: Records, asked: seq<Op>)
    requires i < |orders| && OrderOps(orders[..i], deployment, data).Some?
    ensures var before, one := OrderOps(orders[..i], deployment, data).value, OneOrderOps(orders[i], deployment, data);
      && (one == None ==> OrderOps(orders, deployment, data) == None)
      && (one.Some? ==> OrderOps(orders[..i + 1], deployment, data) == Some(before + one.value))
      && (one.Some? ==> (asked + before) + one.value == asked + (before + one.value))
  {
    assert orders[..i + 1][..i] == orders[..i];
    if OneOrderOps(orders[i], deployment, data) == None {
      RaisesForGood(orders, i, deployment, data);
    }
  }

  class Tracer {
    const clock: Clock
    var nodes: seq<Node>
    var edges: seq<Edge>
    var missing: seq<string>
    var warnings: seq<Warning>
    var seen: set<string>
    var ticks: nat
    ghost var asked: seq<Op>  // every addition asked for so far

    function View(): Graph
      reads this
    {
      Graph(nodes, edges, missing, warnings, seen, ticks)
    }

    ghost predicate Valid()
      reads this
    {
      View() == PerformAll(EMPTY, asked, clock)
    }

    constructor (clock: Clock)
      ensures Valid() && asked == [] && this.clock == clock
    {
      this.clock := clock;
      nodes, edges, missing, warnings, seen, ticks, asked := [], [], [], [], {}, 0, [];
    }

    method CheckLimit() returns (limited: bool)
      modifies this`ticks
      ensures limited == Limited(old(View()), clock) && ticks == old(ticks) + 1
    {
      limited := |nodes| >= MAX_NODES || |edges| >= MAX_EDGES || clock(ticks) > MAX_DURATION_MS;
      ticks := ticks + 1;
    }

    method Add(n: Node)
      modifies this
      ensures View() == Perform(old(View()), AddNode(n), clock) && asked == old(asked) + [AddNode(n)]
      ensures old(Valid()) ==> Valid()
    {
      PerformSnoc(asked, AddNode(n), clock);
      asked := asked + [AddNode(n)];
      var limited := CheckLimit();
      if limited {
        warnings := warnings + [LimitReached];
      } else if n.id in seen {
        warnings := warnings + [CycleOrDuplicate(n.id)];
      } else {
        seen := seen + {n.id};
        nodes := nodes + [n];
      }
    }

    method Connect(e: Edge)
      modifies this
      ensures View() == Perform(old(View()), AddEdge(e), clock) && asked == old(asked) + [AddEdge(e)]
      ensures old(Valid()) ==> Valid()
    {
      PerformSnoc(asked, AddEdge(e), clock);
      asked := asked + [AddEdge(e)];
      var limited := CheckLimit();
      if limited {
        warnings := warnings + [LimitReached];
      } else {
        edges := edges + [e];
      }
    }

    method NoteMissing(kind: string)
      modifies this`missing, this`asked
      ensures View() == Perform(old(View()), Miss(kind), clock) && asked == old(asked) + [Miss(kind)]
      ensures old(Valid()) ==> Valid()
    {
      PerformSnoc(asked, Miss(kind), clock);
      asked := asked + [Miss(kind)];
      missing := missing + [kind];
    }

    method AddLinked(n: Node, e: Edge)
      requires Valid()
      modifies this
      ensures Valid() && asked == old(asked) + Link(n, e)
    {
      Add(n);
      Connect(e);
    }

    method FillLinks(fills: seq<Fill>, order: string)
      requires Valid()
      modifies this
      ensures Valid() && asked == old(asked) + FillOps(fills, order)
    {
      for i := 0 to |fills|
        invariant Valid() && asked == old(asked) + FillOps(fills[..i], order)
      {
        var f := fills[i];
        assert fills[..i + 1][..i] == fills[..i];
        AddLinked(FillNode(f), Edge(order, f.id, "filled_by"));
        AddLinked(PositionNode(f), Edge(f.id, InstrumentOr(f), "updates_position"));
      }
      assert fills[..|fills|] == fills;
    }

    // ok == false stands for the raised KeyError.
    method OrderChildren(order: string, data: Records) returns (ok: bool)
      requires Valid()
      modifies this
      ensures Valid() && ok == ChildOps(order, data).Some?
      ensures ok ==> asked == old(asked) + ChildOps(order, data).value
    {
      var fills := FillsOf(data.fills, order);
      if |fills| == 0 { NoteMissing("fill"); }
      FillLinks(fills, order);
      assert asked == old(asked) + OwnFillOps(fills, order);
      var recon := LastReconciliation(data.reconciliations, fills);
      if recon == None {
        assert OwnFillOps(fills, order) + [] == OwnFillOps(fills, order);
        return true;
      }
      var source := order;
      if |fills| > 0 {
        if fills[|fills| - 1].instrument == None {
          return false;
        }
        source := fills[|fills| - 1].instrument.value;
      }
      AddLinked(ReconciliationNode(recon.value), Edge(source, recon.value.id, "reconciled_by"));
      Associate(old(asked), OwnFillOps(fills, order),
        Link(ReconciliationNode(recon.value), Edge(source, recon.value.id, "reconciled_by")));
      return true;
    }

    method TraceRisks(current: string, data: Records)
      requires Valid()
      modifies this
      ensures Valid() && asked == old(asked) + RiskOps(data.risks, current)
    {
      for i := 0 to |data.risks|
        invariant Valid() && asked == old(asked) + RiskOps(data.risks[..i], current)
      {
        var r := data.risks[i];
        assert data.risks[..i + 1][..i] == data.risks[..i];
        if r.deployment == Some(current) && r.readable {
          AddLinked(RiskNode(r), Edge(current, r.id, "risk_checked"));
        }
      }
      assert data.risks[..|data.risks|] == data.risks;
    }

    method TraceOrder(o: Order, current: string, data: Records) returns (ok: bool)
      requires Valid()
      modifies this
      ensures Valid() && ok == OneOrderOps(o, current, data).Some?
      ensures ok ==> asked == old(asked) + OneOrderOps(o, current, data).value
    {
      if o.deployment != current || !o.readable {
        return true;
      }
      AddLinked(OrderNode(o), Edge(current, o.id, "created_order"));
      ok := OrderChildren(o.id, data);
    }

    method TraceOrders(current: string, data: Records) returns (ok: bool)
      requires Valid()
      modifies this
      ensures Valid() && ok == OrderOps(data.orders, current, data).Some?
      ensures ok ==> asked == old(asked) + OrderOps(data.orders, current, data).value
    {
      for i := 0 to |data.orders|
        invariant Valid() && OrderOps(data.orders[..i], current, data).Some?
        invariant asked == old(asked) + OrderOps(data.orders[..i], current, data).value
      {
        OrderOpsSnoc(data.orders, i, current, data, old(asked));
        ok := TraceOrder(data.orders[i], current, data);
        if !ok {
          return;
        }
      }
      assert data.orders[..|data.orders|] == data.orders;
      return true;
    }

    method TraceDeployment(reference: Reference, current: string, data: Records) returns (ok: bool)
      requires Valid()
      modifies this
      ensures Valid() && ok == DeploymentOps(reference, current, data).Some?
      ensures ok ==> asked == old(asked) + DeploymentOps(reference, current, data).value
    {
      var deployment := DeploymentById(data.deployments, current);
      if !(reference.kind == "deployment" || IsDeploymentId(current)) {
        return true;
      }
      if deployment == None || !deployment.value.readable {
        NoteMissing("deployment");
        return true;
      }
      TraceRisks(current, data);
      ok := TraceOrders(current, data);
      if ok {
        Associate(old(asked), RiskOps(data.risks, current), OrderOps(data.orders, current, data).value);
      }
    }

    method TraceCandidate(reference: Reference, data: Records, c: Candidate) returns (current: string)
      requires Valid() && reference.kind == "candidate"
      modifies this
      ensures Valid() && asked == old(asked) + CandidateOps(reference, data, c)
      ensures current == CurrentOf(reference, data)
    {
      current := reference.id;
      if c.scorecard.Some? && c.scorecard.value != "" {
        AddLinked(ScorecardNode(c.scorecard.value, c), Edge(c.scorecard.value, current, "promotes_candidate"));
      } else {
        NoteMissing("scorecard");
      }
      var deployment := DeploymentOf(data.deployments, current);
      if deployment.Some? && deployment.value.readable {
        AddLinked(DeploymentNode(deployment.value), Edge(current, deployment.value.id, "deployed_as"));
        current := deployment.value.id;
      } else {
        NoteMissing("deployment");
      }
    }
  }

  lemma Associate(xs: seq<Op>, ys: seq<Op>, zs: seq<Op>)
    ensures (xs + ys) + zs == xs + (ys + zs)
  {
  }

  lemma {:induction false} RaisesForGood(orders: seq<Order>, i: nat, deployment: string, data: Records)
    requires i < |orders| && OrderOps(orders[..i + 1], deployment, data) == None
    ensures OrderOps(orders, deployment, data) == None
    decreases |orders|
  {
    if i + 1 < |orders| {
      var init := orders[..|orders| - 1];
      assert init[..i + 1] == orders[..i + 1];
      RaisesForGood(init, i, deployment, data);
    } else {
      assert orders[..i + 1] == orders;
    }
  }

  method Trace(reference: Reference, data: Records, clock: Clock) returns (result: Result)
    ensures result == Expected(reference, data, clock)
  {
    var t := new Tracer(clock);
    var root := RootNode(reference);
    t.Add(root);
    assert t.asked == [AddNode(root)];
    if reference.kind == "candidate" {
      result := TraceFromCandidate(t, reference, data);
    } else {
      result := TraceFrom(t, reference, reference.id, data);
    }
  }

  method TraceFromCandidate(t: Tracer, reference: Reference, data: Records) returns (result: Result)
    requires reference.kind == "candidate"
    requires t.Valid() && t.asked == [AddNode(RootNode(reference))]
    modifies t
    ensures result == Deliver(PlanOf(reference, data), t.clock)
  {
    if reference.id !in data.candidates {
      t.NoteMissing("candidate");
      return Traced(t.nodes, t.edges, t.missing, t.warnings);
    }
    if !data.candidates[reference.id].readable {
      return Traced([], [], ["candidate"], [ScopeMismatch]);
    }
    var current := t.TraceCandidate(reference, data, data.candidates[reference.id]);
    result := TraceFrom(t, reference, current, data);
  }

  method TraceFrom(t: Tracer, reference: Reference, current: string, data: Records) returns (result: Result)
    requires t.Valid()
    modifies t
    ensures result == Deliver(PlanFrom(reference, current, data, old(t.asked)), t.clock)
  {
    var ok := t.TraceDeployment(reference, current, data);
    if !ok {
      return MissingInstrument;
    }
    if reference.kind == "paper_order" {
      var order := OrderById(data.orders, current);
      if order.Some? && !order.value.readable {
        return Traced(if |t.nodes| > 0 then t.nodes[..1] else [], [], ["paper_order"], [ScopeMismatch]);
      }
      ok := t.OrderChildren(current, data);
      if !ok {
        return MissingInstrument;
      }
    }
    if reference.kind == "risk_evaluation" {
      var risk := RiskById(data.risks, current);
      if risk == None || !risk.value.readable {
        t.NoteMissing("risk_evaluation");
      } else if risk.value.deployment.Some? && risk.value.deployment.value != "" {
        var id := risk.value.deployment.value;
        t.AddLinked(BareDeploymentNode(id), Edge(id, current, "risk_checked"));
      }
    }
    assert t.asked == PlanFrom(reference, current, data, old(t.asked)).ops;
    result := Traced(t.nodes, t.edges, t.missing, t.warnings);
  }
}
