/**
 What a lineage trace may show and what it must show, said of the stored records: nothing but readable records linked
 to the reference, and all of those as long as no limit was hit.
 */
module LineageRecords {
  import opened Common
  import opened Lineage

  // ----- Which records a reference leads to -----

  // x is the first of xs that p holds of.
  ghost predicate First<T>(xs: seq<T>, p: T -> bool, x: T)
  {
    exists i :: 0 <= i < |xs| && xs[i] == x && p(x) && (forall j :: 0 <= j < i ==> !p(xs[j]))
  }

  function Deploys(candidate: string): Deployment -> bool { (d: Deployment) => d.candidate == candidate }

  function DeploymentNamed(id: string): Deployment -> bool { (d: Deployment) => d.id == id }

  function OrderNamed(id: string): Order -> bool { (o: Order) => o.id == id }

  // The candidate's deployment: its first one, if the caller may read it.
  ghost predicate StandsFor(reference: Reference, data: Records, d: Deployment)
  {
    reference.kind == "candidate" && d.readable && First(data.deployments, Deploys(reference.id), d)
  }

  // Where the trace goes on from: the deployment that stands for a candidate, and the reference itself without one.
  ghost predicate Origin(reference: Reference, data: Records, id: string)
  {
    if exists d :: StandsFor(reference, data, d) then exists d :: StandsFor(reference, data, d) && d.id == id
    else id == reference.id
  }

  // The first deployment stored under the id is readable.
  ghost predicate Open(data: Records, id: string)
  {
    exists d :: First(data.deployments, DeploymentNamed(id), d) && d.readable
  }

  // A deployment whose risks and orders belong to the lineage.
  ghost predicate Listed(reference: Reference, data: Records, id: string)
  {
    && Origin(reference, data, id) && (reference.kind == "deployment" || "deploy_" <= id) && Open(data, id)
    && (reference.kind == "candidate" ==> reference.id in data.candidates && data.candidates[reference.id].readable)
  }

  ghost predicate RiskIn(reference: Reference, data: Records, r: Risk)
  {
    r in data.risks && r.readable && r.deployment.Some? && Listed(reference, data, r.deployment.value)
  }

  ghost predicate OrderIn(reference: Reference, data: Records, o: Order)
  {
    o in data.orders && o.readable && Listed(reference, data, o.deployment)
  }

  // The reference is an order, and not one that the caller may not read.
  ghost predicate OwnOrder(reference: Reference, data: Records)
  {
    reference.kind == "paper_order" && forall o :: First(data.orders, OrderNamed(reference.id), o) ==> o.readable
  }

  // An order whose fills belong to the lineage: a listed one, or the reference itself.
  ghost predicate Fillable(reference: Reference, data: Records, order: string)
  {
    (OwnOrder(reference, data) && order == reference.id) || exists o :: OrderIn(reference, data, o) && o.id == order
  }

  ghost predicate FillIn(reference: Reference, data: Records, f: Fill)
  {
    f in data.fills && f.readable && Fillable(reference, data, f.order)
  }

  // A readable reconciliation of an account that such a fill was booked on.
  ghost predicate ReconciliationIn(reference: Reference, data: Records, r: Reconciliation)
  {
    r in data.reconciliations && r.readable && exists f :: FillIn(reference, data, f) && f.account == r.account
  }

  ghost predicate ScorecardIn(reference: Reference, data: Records, id: string)
  {
    reference.kind == "candidate" && reference.id in data.candidates && data.candidates[reference.id].readable
    && data.candidates[reference.id].scorecard == Some(id) && id != ""
  }

  // The readable risk evaluation that is the reference, and the deployment it names.
  ghost predicate ParentIn(reference: Reference, data: Records, id: string)
  {
    reference.kind == "risk_evaluation" && id != ""
    && exists r :: r in data.risks && r.readable && r.id == reference.id && r.deployment == Some(id)
  }

  // The position a fill is booked on.
  function Booked(f: Fill): string
  {
    match f.instrument case Some(instrument) => instrument case None => "position"
  }

  // ----- What a node and an edge of those records look like -----

  ghost predicate NodeKnown(reference: Reference, data: Records, n: Node)
  {
    || n == Node(reference.id, reference.kind, reference.version, None)
    || (ScorecardIn(reference, data, n.id) && n.kind == "scorecard"
        && n.version == data.candidates[reference.id].version && n.timestamp == data.candidates[reference.id].created)
    || (exists d :: StandsFor(reference, data, d) && n == Node(d.id, "deployment", Some(d.version), d.created))
    || (exists r :: RiskIn(reference, data, r) && n == Node(r.id, "risk_evaluation", r.policy, r.created))
    || (exists o :: OrderIn(reference, data, o) && n == Node(o.id, "paper_order", Some(o.version), o.created))
    || (exists f :: FillIn(reference, data, f) && n == Node(f.id, "paper_fill", Some(f.sequence), f.created))
    || (exists f :: FillIn(reference, data, f) && n == Node(Booked(f), "position", None, None))
    || (exists r :: ReconciliationIn(reference, data, r) && n == Node(r.id, "reconciliation", Some(r.id), r.created))
    || (ParentIn(reference, data, n.id) && n == Node(n.id, "deployment", None, None))
  }

  ghost predicate EdgeKnown(reference: Reference, data: Records, e: Edge)
  {
    || (e.relation == "promotes_candidate" && ScorecardIn(reference, data, e.source) && e.target == reference.id)
    || (exists d :: StandsFor(reference, data, d) && e == Edge(reference.id, d.id, "deployed_as"))
    || (exists r :: RiskIn(reference, data, r) && e == Edge(r.deployment.value, r.id, "risk_checked"))
    || (exists o :: OrderIn(reference, data, o) && e == Edge(o.deployment, o.id, "created_order"))
    || (exists f :: FillIn(reference, data, f) && e == Edge(f.order, f.id, "filled_by"))
    || (exists f :: FillIn(reference, data, f) && e == Edge(f.id, Booked(f), "updates_position"))
    || (exists f, r :: FillIn(reference, data, f) && f.instrument.Some? && ReconciliationIn(reference, data, r)
          && e == Edge(f.instrument.value, r.id, "reconciled_by"))
    || (ParentIn(reference, data, e.source) && e == Edge(e.source, reference.id, "risk_checked"))
  }

  ghost predicate OpKnown(reference: Reference, data: Records, op: Op)
  {
    match op
    case AddNode(n) => NodeKnown(reference, data, n)
    case AddEdge(e) => EdgeKnown(reference, data, e)
    case Miss(_) => true
  }

  ghost predicate AllKnown(reference: Reference, data: Records, ops: seq<Op>)
  {
    forall i :: 0 <= i < |ops| ==> OpKnown(reference, data, ops[i])
  }

  // ----- Searching the records -----

  lemma FirstInTail<T>(xs: seq<T>, p: T -> bool, x: T)
    requires |xs| > 0 && !p(xs[0]) && First(xs[1..], p, x)
    ensures First(xs, p, x)
  {
    var i :| 0 <= i < |xs[1..]| && xs[1..][i] == x && p(x) && (forall j :: 0 <= j < i ==> !p(xs[1..][j]));
    forall j | 0 <= j < i + 1 ensures !p(xs[j]) { if j > 0 { assert xs[1..][j - 1] == xs[j]; } }
    assert xs[i + 1] == x;
  }

  lemma {:induction false} FindsDeployed(ds: seq<Deployment>, candidate: string)
    ensures forall d :: First(ds, Deploys(candidate), d) <==> DeploymentOf(ds, candidate) == Some(d)
  {
    if |ds| > 0 {
      FindsDeployed(ds[1..], candidate);
      SearchStep(ds, Deploys(candidate), DeploymentOf(ds, candidate), DeploymentOf(ds[1..], candidate));
    }
  }

  lemma {:induction false} FindsDeployment(ds: seq<Deployment>, id: string)
    ensures forall d :: First(ds, DeploymentNamed(id), d) <==> DeploymentById(ds, id) == Some(d)
  {
    if |ds| > 0 {
      FindsDeployment(ds[1..], id);
      SearchStep(ds, DeploymentNamed(id), DeploymentById(ds, id), DeploymentById(ds[1..], id));
    }
  }

  lemma {:induction false} FindsOrder(os: seq<Order>, id: string)
    ensures forall o :: First(os, OrderNamed(id), o) <==> OrderById(os, id) == Some(o)
  {
    if |os| > 0 {
      FindsOrder(os[1..], id);
      SearchStep(os, OrderNamed(id), OrderById(os, id), OrderById(os[1..], id));
    }
  }

  // One step of a search from the front.
  lemma SearchStep<T>(xs: seq<T>, p: T -> bool, found: Option<T>, later: Option<T>)
    requires |xs| > 0 && found == if p(xs[0]) then Some(xs[0]) else later
    requires forall x :: First(xs[1..], p, x) <==> later == Some(x)
    ensures forall x :: First(xs, p, x) <==> found == Some(x)
  {
    if found.Some? {
      if p(xs[0]) { assert First(xs, p, xs[0]); } else { FirstInTail(xs, p, found.value); }
    }
    forall x | First(xs, p, x) ensures found == Some(x) {
      var i :| 0 <= i < |xs| && xs[i] == x && p(x) && (forall j :: 0 <= j < i ==> !p(xs[j]));
      if i > 0 {
        assert xs[1..][i - 1] == x;
        forall j | 0 <= j < i - 1 ensures !p(xs[1..][j]) { assert xs[1..][j] == xs[j + 1]; }
        assert First(xs[1..], p, x);
      }
    }
  }

  lemma {:induction false} FindsRisk(rs: seq<Risk>, id: string)
    ensures RiskById(rs, id).Some? ==> RiskById(rs, id).value in rs && RiskById(rs, id).value.id == id
  {
    if |rs| > 0 && rs[0].id != id { FindsRisk(rs[1..], id); }
  }

  lemma OriginIff(reference: Reference, data: Records, id: string)
    ensures forall d :: StandsFor(reference, data, d) <==> DeployedAs(reference, data) == Some(d)
    ensures Origin(reference, data, id) <==> id == CurrentOf(reference, data)
  {
    FindsDeployed(data.deployments, reference.id);
    if DeployedAs(reference, data).Some? { assert StandsFor(reference, data, DeployedAs(reference, data).value); }
  }

  lemma OpenIff(data: Records, id: string)
    ensures Open(data, id) <==>
      DeploymentById(data.deployments, id).Some? && DeploymentById(data.deployments, id).value.readable
  {
    FindsDeployment(data.deployments, id);
    var found := DeploymentById(data.deployments, id);
    if found.Some? { assert First(data.deployments, DeploymentNamed(id), found.value); }
  }

  // ----- Every addition asked for is one of those -----

  lemma JoinKnown(reference: Reference, data: Records, xs: seq<Op>, ys: seq<Op>)
    requires AllKnown(reference, data, xs) && AllKnown(reference, data, ys)
    ensures AllKnown(reference, data, xs + ys)
  {
  }

  lemma {:induction false} RisksKnown(reference: Reference, data: Records, risks: seq<Risk>, id: string)
    requires Listed(reference, data, id) && forall r :: r in risks ==> r in data.risks
    ensures AllKnown(reference, data, RiskOps(risks, id))
  {
    if |risks| > 0 {
      var r := risks[|risks| - 1];
      RisksKnown(reference, data, risks[..|risks| - 1], id);
      if r.deployment == Some(id) && r.readable {
        assert r in risks;
        assert RiskIn(reference, data, r);
        assert NodeKnown(reference, data, RiskNode(r)) && EdgeKnown(reference, data, Edge(id, r.id, "risk_checked"));
        JoinKnown(reference, data, RiskOps(risks[..|risks| - 1], id),
          Link(RiskNode(r), Edge(id, r.id, "risk_checked")));
      }
    }
  }

  lemma {:induction false} FillsKnown(reference: Reference, data: Records, fills: seq<Fill>, order: string)
    requires forall f :: f in fills ==> FillIn(reference, data, f) && f.order == order
    ensures AllKnown(reference, data, FillOps(fills, order))
  {
    if |fills| > 0 {
      var init, f := fills[..|fills| - 1], fills[|fills| - 1];
      FillsKnown(reference, data, init, order);
      assert f in fills;
      var first := Link(FillNode(f), Edge(order, f.id, "filled_by"));
      var second := Link(PositionNode(f), Edge(f.id, InstrumentOr(f), "updates_position"));
      assert AllKnown(reference, data, first) && AllKnown(reference, data, second);
      JoinKnown(reference, data, FillOps(init, order), first);
      JoinKnown(reference, data, FillOps(init, order) + first, second);
    }
  }

  lemma {:induction false} OwnFills(fills: seq<Fill>, order: string)
    ensures forall f :: f in FillsOf(fills, order) <==> f in fills && f.order == order && f.readable
  {
    if |fills| > 0 {
      OwnFills(fills[..|fills| - 1], order);
      assert forall f :: f in fills <==> f in fills[..|fills| - 1] || f == fills[|fills| - 1];
    }
  }

  lemma {:induction false} LastIsStored(rs: seq<Reconciliation>, fills: seq<Fill>)
    ensures LastReconciliation(rs, fills).Some? ==>
      var r := LastReconciliation(rs, fills).value;
      r in rs && r.readable && exists f :: f in fills && f.account == r.account
  {
    if |rs| > 0 {
      LastIsStored(rs[..|rs| - 1], fills);
      var last := rs[|rs| - 1];
      if Touches(fills, last.account) {
        var i :| 0 <= i < |fills| && fills[i].account == last.account;
        assert fills[i] in fills;
      }
    }
  }

  lemma ReconciliationKnown(reference: Reference, data: Records, r: Reconciliation, f: Fill)
    requires ReconciliationIn(reference, data, r) && FillIn(reference, data, f) && f.instrument.Some?
    ensures AllKnown(reference, data, Link(ReconciliationNode(r), Edge(f.instrument.value, r.id, "reconciled_by")))
  {
    assert NodeKnown(reference, data, ReconciliationNode(r));
  }

  lemma ChildrenKnown(reference: Reference, data: Records, order: string)
    requires Fillable(reference, data, order) && ChildOps(order, data).Some?
    ensures AllKnown(reference, data, ChildOps(order, data).value)
  {
    var fills := FillsOf(data.fills, order);
    var recon := LastReconciliation(data.reconciliations, fills);
    OwnFills(data.fills, order);
    LastIsStored(data.reconciliations, fills);
    assert forall f :: f in fills ==> FillIn(reference, data, f);
    FillsKnown(reference, data, fills, order);
    if recon.Some? {
      var f := fills[|fills| - 1];
      assert f in fills;
      ReconciliationKnown(reference, data, recon.value, f);
      JoinKnown(reference, data, OwnFillOps(fills, order),
        Link(ReconciliationNode(recon.value), Edge(f.instrument.value, recon.value.id, "reconciled_by")));
    }
  }

  lemma {:induction false} OrdersKnown(reference: Reference, data: Records, orders: seq<Order>, id: string)
    requires Listed(reference, data, id) && (forall o :: o in orders ==> o in data.orders)
    requires OrderOps(orders, id, data).Some?
    ensures AllKnown(reference, data, OrderOps(orders, id, data).value)
  {
    if |orders| > 0 {
      var init, o := orders[..|orders| - 1], orders[|orders| - 1];
      OrdersKnown(reference, data, init, id);
      if o.deployment == id && o.readable {
        assert o in orders;
        assert OrderIn(reference, data, o);
        var link := Link(OrderNode(o), Edge(id, o.id, "created_order"));
        assert AllKnown(reference, data, link);
        ChildrenKnown(reference, data, o.id);
        JoinKnown(reference, data, link, ChildOps(o.id, data).value);
      }
      JoinKnown(reference, data, OrderOps(init, id, data).value, OneOrderOps(o, id, data).value);
    }
  }

  lemma DeploymentKnown(reference: Reference, data: Records)
    requires reference.kind == "candidate" ==>
      reference.id in data.candidates && data.candidates[reference.id].readable
    requires DeploymentOps(reference, CurrentOf(reference, data), data).Some?
    ensures AllKnown(reference, data, DeploymentOps(reference, CurrentOf(reference, data), data).value)
  {
    var current := CurrentOf(reference, data);
    OriginIff(reference, data, current);
    OpenIff(data, current);
    if (reference.kind == "deployment" || IsDeploymentId(current)) && Open(data, current) {
      RisksKnown(reference, data, data.risks, current);
      OrdersKnown(reference, data, data.orders, current);
      JoinKnown(reference, data, RiskOps(data.risks, current), OrderOps(data.orders, current, data).value);
    }
  }

  lemma CandidateKnown(reference: Reference, data: Records)
    requires reference.kind == "candidate" && reference.id in data.candidates && data.candidates[reference.id].readable
    ensures AllKnown(reference, data, CandidateOps(reference, data, data.candidates[reference.id]))
  {
    var c, deployed := data.candidates[reference.id], DeployedAs(reference, data);
    OriginIff(reference, data, reference.id);
    assert AllKnown(reference, data, ScorecardOps(reference, c));
    if deployed.Some? { assert StandsFor(reference, data, deployed.value); }
    assert AllKnown(reference, data, DeployedOps(reference, deployed));
    JoinKnown(reference, data, ScorecardOps(reference, c), DeployedOps(reference, deployed));
  }

  lemma ParentKnown(reference: Reference, data: Records)
    ensures AllKnown(reference, data, RiskReferenceOps(reference, reference.id, data))
  {
    FindsRisk(data.risks, reference.id);
  }

  // For references of every kind: what the plan asks for is known.
  lemma PlanKnown(reference: Reference, data: Records)
    ensures AllKnown(reference, data, PlanOf(reference, data).ops)
  {
    var root := [AddNode(RootNode(reference))];
    if reference.kind == "candidate" && reference.id in data.candidates && data.candidates[reference.id].readable {
      var own := CandidateOps(reference, data, data.candidates[reference.id]);
      CandidateKnown(reference, data);
      JoinKnown(reference, data, root, own);
      PlanFromKnown(reference, data, root + own);
    } else if reference.kind != "candidate" {
      PlanFromKnown(reference, data, root);
    }
  }

  lemma PlanFromKnown(reference: Reference, data: Records, soFar: seq<Op>)
    requires reference.kind == "candidate" ==>
      reference.id in data.candidates && data.candidates[reference.id].readable
    requires AllKnown(reference, data, soFar)
    ensures AllKnown(reference, data, PlanFrom(reference, CurrentOf(reference, data), data, soFar).ops)
  {
    var current := CurrentOf(reference, data);
    var deployed, order := DeploymentOps(reference, current, data), OrderById(data.orders, current);
    if deployed.Some? {
      DeploymentKnown(reference, data);
      JoinKnown(reference, data, soFar, deployed.value);
      FindsOrder(data.orders, reference.id);
      var children := if reference.kind == "paper_order" then ChildOps(current, data) else Some([]);
      if children.Some? && (reference.kind == "paper_order" ==> OwnOrder(reference, data)) {
        if reference.kind == "paper_order" { ChildrenKnown(reference, data, current); }
        JoinKnown(reference, data, soFar + deployed.value, children.value);
        ParentKnown(reference, data);
        JoinKnown(reference, data, soFar + deployed.value + children.value, RiskReferenceOps(reference, current, data));
      }
    }
  }

  // ----- Nothing else is shown -----

  ghost predicate NodesKnown(reference: Reference, data: Records, nodes: seq<Node>)
  {
    forall i :: 0 <= i < |nodes| ==> NodeKnown(reference, data, nodes[i])
  }

  ghost predicate EdgesKnown(reference: Reference, data: Records, edges: seq<Edge>)
  {
    forall i :: 0 <= i < |edges| ==> EdgeKnown(reference, data, edges[i])
  }

  lemma {:induction false} BuiltFromKnown(reference: Reference, data: Records, ops: seq<Op>, clock: Clock)
    requires AllKnown(reference, data, ops)
    ensures var g := PerformAll(EMPTY, ops, clock);
      NodesKnown(reference, data, g.nodes) && EdgesKnown(reference, data, g.edges)
  {
    if |ops| > 0 {
      var before, op := PerformAll(EMPTY, ops[..|ops| - 1], clock), ops[|ops| - 1];
      BuiltFromKnown(reference, data, ops[..|ops| - 1], clock);
      assert OpKnown(reference, data, op);
      match op
      case AddNode(n) => assert NodesKnown(reference, data, before.nodes + [n]);
      case AddEdge(e) => assert EdgesKnown(reference, data, before.edges + [e]);
      case Miss(_) =>
    }
  }

  // For any stored data, reference and clock: every node but the root is made from a readable record that is linked to
  // the reference (or is the position or the deployment such a record names), and every edge is one of its links.
  lemma OnlyReadableRecordsAreTraced(reference: Reference, data: Records, clock: Clock)
    requires Expected(reference, data, clock).Traced?
    ensures NodesKnown(reference, data, Expected(reference, data, clock).nodes)
    ensures EdgesKnown(reference, data, Expected(reference, data, clock).edges)
  {
    PlanKnown(reference, data);
    BuiltFromKnown(reference, data, PlanOf(reference, data).ops, clock);
    DeliveredKnown(reference, data, PlanOf(reference, data), clock);
  }

  lemma DeliveredKnown(reference: Reference, data: Records, plan: Plan, clock: Clock)
    requires NodesKnown(reference, data, PerformAll(EMPTY, plan.ops, clock).nodes)
    requires EdgesKnown(reference, data, PerformAll(EMPTY, plan.ops, clock).edges) && Deliver(plan, clock).Traced?
    ensures NodesKnown(reference, data, Deliver(plan, clock).nodes)
    ensures EdgesKnown(reference, data, Deliver(plan, clock).edges)
  {
    var nodes := PerformAll(EMPTY, plan.ops, clock).nodes;
    if |nodes| > 0 { assert nodes[..1][0] == nodes[0]; }
  }

  // ----- The last of an order's records -----

  // A readable fill of the order.
  predicate FillFor(f: Fill, order: string) { f.order == order && f.readable }

  // f is the order's last readable fill.
  ghost predicate LastFor(fills: seq<Fill>, order: string, f: Fill)
  {
    exists i :: 0 <= i < |fills| && fills[i] == f && FillFor(f, order)
      && (forall j :: i < j < |fills| ==> !FillFor(fills[j], order))
  }

  // A readable reconciliation of an account of the order's readable fills.
  ghost predicate Reconciles(data: Records, order: string, r: Reconciliation)
  {
    r.readable && exists f :: f in data.fills && FillFor(f, order) && f.account == r.account
  }

  ghost predicate Reconciled(data: Records, order: string)
  {
    exists r :: r in data.reconciliations && Reconciles(data, order, r)
  }

  // r is the last of them.
  ghost predicate LastIn(rs: seq<Reconciliation>, data: Records, order: string, r: Reconciliation)
  {
    exists i :: 0 <= i < |rs| && rs[i] == r && Reconciles(data, order, r)
      && (forall j :: i < j < |rs| ==> !Reconciles(data, order, rs[j]))
  }

  ghost predicate LastReconciling(data: Records, order: string, r: Reconciliation)
  {
    LastIn(data.reconciliations, data, order, r)
  }

  lemma {:induction false} LastFill(fills: seq<Fill>, order: string)
    ensures var own := FillsOf(fills, order);
      forall f :: LastFor(fills, order, f) <==> |own| > 0 && f == own[|own| - 1]
  {
    if |fills| > 0 {
      var n, init := |fills| - 1, fills[..|fills| - 1];
      LastFill(init, order);
      assert forall j :: 0 <= j < n ==> fills[j] == init[j];
      forall f ensures LastFor(fills, order, f) <==>
        if FillFor(fills[n], order) then f == fills[n] else LastFor(init, order, f)
      {
        LastForSnoc(init, fills[n], order, f);
        assert init + [fills[n]] == fills;
      }
    }
  }

  lemma LastForSnoc(fills: seq<Fill>, last: Fill, order: string, f: Fill)
    ensures LastFor(fills + [last], order, f) <==>
      if FillFor(last, order) then f == last else LastFor(fills, order, f)
  {
    var all, n := fills + [last], |fills|;
    assert all[n] == last && forall j :: 0 <= j < n ==> all[j] == fills[j];
    if FillFor(last, order) {
    } else if LastFor(fills, order, f) {
      var i :| 0 <= i < |fills| && fills[i] == f && FillFor(f, order)
        && (forall j :: i < j < |fills| ==> !FillFor(fills[j], order));
      assert all[i] == f;
    }
  }

  lemma {:induction false} FindsReconciliation(rs: seq<Reconciliation>, data: Records, order: string)
    ensures var found := LastReconciliation(rs, FillsOf(data.fills, order));
      && (found == None ==> forall i :: 0 <= i < |rs| ==> !Reconciles(data, order, rs[i]))
      && (found.Some? ==> LastIn(rs, data, order, found.value))
  {
    if |rs| > 0 {
      var n, init, fills := |rs| - 1, rs[..|rs| - 1], FillsOf(data.fills, order);
      FindsReconciliation(init, data, order);
      TouchesIff(data, order, rs[n]);
      assert forall j :: 0 <= j < n ==> rs[j] == init[j];
      if !Reconciles(data, order, rs[n]) && LastReconciliation(init, fills).Some? {
        var i :| 0 <= i < |init| && init[i] == LastReconciliation(init, fills).value && Reconciles(data, order, init[i])
          && (forall j :: i < j < |init| ==> !Reconciles(data, order, init[j]));
        assert rs[i] == init[i];
      }
    }
  }

  lemma TouchesIff(data: Records, order: string, r: Reconciliation)
    ensures Touches(FillsOf(data.fills, order), r.account) && r.readable <==> Reconciles(data, order, r)
  {
    var fills := FillsOf(data.fills, order);
    OwnFills(data.fills, order);
    if Touches(fills, r.account) {
      var i :| 0 <= i < |fills| && fills[i].account == r.account;
      assert fills[i] in fills;
    }
    if Reconciles(data, order, r) {
      var f :| f in data.fills && FillFor(f, order) && f.account == r.account;
      var i :| 0 <= i < |fills| && fills[i] == f;
    }
  }

  lemma ReconciledIff(data: Records, order: string)
    ensures var found := LastReconciliation(data.reconciliations, FillsOf(data.fills, order));
      && (Reconciled(data, order) <==> found.Some?)
      && (forall r :: LastReconciling(data, order, r) <==> found == Some(r))
  {
    var rs, found := data.reconciliations, LastReconciliation(data.reconciliations, FillsOf(data.fills, order));
    FindsReconciliation(rs, data, order);
    if found.Some? {
      var i :| 0 <= i < |rs| && rs[i] == found.value && Reconciles(data, order, rs[i])
        && (forall j :: i < j < |rs| ==> !Reconciles(data, order, rs[j]));
      assert LastReconciling(data, order, found.value) && rs[i] in rs;
      forall r | LastReconciling(data, order, r) ensures r == found.value {
        var k :| 0 <= k < |rs| && rs[k] == r && Reconciles(data, order, r)
          && (forall j :: k < j < |rs| ==> !Reconciles(data, order, rs[j]));
        assert k == i;
      }
    }
  }

  // ----- All of it is shown -----

  // Both ends and the link of a record were asked for.
  ghost predicate Linked(ops: seq<Op>, id: string, e: Edge)
  {
    Attempted(ops, id) && AddEdge(e) in ops
  }

  lemma LinkedIn(xs: seq<Op>, ys: seq<Op>, id: string, e: Edge)
    requires Linked(xs, id, e) || Linked(ys, id, e)
    ensures Linked(xs + ys, id, e)
  {
    AttemptedConcat(xs, ys);
  }

  lemma LinkIsLinked(n: Node, e: Edge)
    ensures Linked(Link(n, e), n.id, e)
  {
    assert Link(n, e)[0].AddNode? && Link(n, e)[0].node.id == n.id;
    assert Link(n, e)[1] == AddEdge(e);
  }

  lemma {:induction false} RiskIsLinked(risks: seq<Risk>, id: string, r: Risk)
    requires r in risks && r.readable && r.deployment == Some(id)
    ensures Linked(RiskOps(risks, id), r.id, Edge(id, r.id, "risk_checked"))
  {
    var init, last := risks[..|risks| - 1], risks[|risks| - 1];
    var own := Link(RiskNode(last), Edge(id, last.id, "risk_checked"));
    if last == r {
      LinkIsLinked(RiskNode(r), Edge(id, r.id, "risk_checked"));
      LinkedIn(RiskOps(init, id), own, r.id, Edge(id, r.id, "risk_checked"));
    } else {
      RiskIsLinked(init, id, r);
      LinkedIn(RiskOps(init, id), if last.deployment == Some(id) && last.readable then own else [],
        r.id, Edge(id, r.id, "risk_checked"));
    }
  }

  lemma {:induction false} FillIsLinked(fills: seq<Fill>, order: string, f: Fill)
    requires f in fills
    ensures Linked(FillOps(fills, order), f.id, Edge(order, f.id, "filled_by"))
  {
    var init, last := fills[..|fills| - 1], fills[|fills| - 1];
    var own := Link(FillNode(last), Edge(order, last.id, "filled_by"));
    var second := Link(PositionNode(last), Edge(last.id, InstrumentOr(last), "updates_position"));
    if last == f { LinkIsLinked(FillNode(f), Edge(order, f.id, "filled_by")); } else { FillIsLinked(init, order, f); }
    LinkedIn(FillOps(init, order), own, f.id, Edge(order, f.id, "filled_by"));
    LinkedIn(FillOps(init, order) + own, second, f.id, Edge(order, f.id, "filled_by"));
  }

  // The fills of an order and the last reconciliation of their accounts.
  lemma ChildrenAreLinked(order: string, data: Records)
    requires ChildOps(order, data).Some?
    ensures forall f :: f in data.fills && FillFor(f, order) ==>
      Linked(ChildOps(order, data).value, f.id, Edge(order, f.id, "filled_by"))
    ensures forall f, r :: LastFor(data.fills, order, f) && f.instrument.Some? && LastReconciling(data, order, r) ==>
      Linked(ChildOps(order, data).value, r.id, Edge(f.instrument.value, r.id, "reconciled_by"))
  {
    var fills := FillsOf(data.fills, order);
    var recon := ReconciliationOps(order, fills, LastReconciliation(data.reconciliations, fills)).value;
    OwnFills(data.fills, order);
    forall f | f in data.fills && FillFor(f, order)
      ensures Linked(OwnFillOps(fills, order) + recon, f.id, Edge(order, f.id, "filled_by"))
    {
      FillIsLinked(fills, order, f);
      LinkedIn(OwnFillOps(fills, order), recon, f.id, Edge(order, f.id, "filled_by"));
    }
    LastFill(data.fills, order);
    ReconciledIff(data, order);
    forall f, r | LastFor(data.fills, order, f) && f.instrument.Some? && LastReconciling(data, order, r)
      ensures Linked(OwnFillOps(fills, order) + recon, r.id, Edge(f.instrument.value, r.id, "reconciled_by"))
    {
      LinkIsLinked(ReconciliationNode(r), Edge(f.instrument.value, r.id, "reconciled_by"));
      LinkedIn(OwnFillOps(fills, order), recon, r.id, Edge(f.instrument.value, r.id, "reconciled_by"));
    }
  }

  // An order, and whatever its children are linked by.
  lemma {:induction false} OrderIsLinked(orders: seq<Order>, id: string, data: Records, o: Order)
    requires OrderOps(orders, id, data).Some? && o in orders && o.readable && o.deployment == id
    ensures Linked(OrderOps(orders, id, data).value, o.id, Edge(id, o.id, "created_order"))
    ensures ChildOps(o.id, data).Some? && forall x, e :: Linked(ChildOps(o.id, data).value, x, e) ==>
      Linked(OrderOps(orders, id, data).value, x, e)
  {
    var init, last := orders[..|orders| - 1], orders[|orders| - 1];
    var before, one := OrderOps(init, id, data).value, OneOrderOps(last, id, data).value;
    if last == o {
      var own := Link(OrderNode(o), Edge(id, o.id, "created_order"));
      LinkIsLinked(OrderNode(o), Edge(id, o.id, "created_order"));
      forall x, e | Linked(own, x, e) || Linked(ChildOps(o.id, data).value, x, e) ensures Linked(one, x, e) {
        LinkedIn(own, ChildOps(o.id, data).value, x, e);
      }
    } else {
      OrderIsLinked(init, id, data, o);
    }
    forall x, e | Linked(before, x, e) || Linked(one, x, e) ensures Linked(before + one, x, e) {
      LinkedIn(before, one, x, e);
    }
  }

  // The risks and orders of a listed deployment, and whatever the children of those orders are linked by.
  lemma DeploymentIsLinked(reference: Reference, data: Records, id: string)
    requires Listed(reference, data, id) && DeploymentOps(reference, id, data).Some?
    ensures var ops := DeploymentOps(reference, id, data).value;
      && (forall r :: RiskIn(reference, data, r) ==> Linked(ops, r.id, Edge(id, r.id, "risk_checked")))
      && (forall o :: OrderIn(reference, data, o) ==>
            Linked(ops, o.id, Edge(id, o.id, "created_order")) && ChildOps(o.id, data).Some?)
      && (forall o, x, e :: OrderIn(reference, data, o) && Linked(ChildOps(o.id, data).value, x, e) ==>
            Linked(ops, x, e))
  {
    OriginIff(reference, data, id);
    OpenIff(data, id);
    var risks, orders := RiskOps(data.risks, id), OrderOps(data.orders, id, data).value;
    forall x, e | Linked(risks, x, e) || Linked(orders, x, e) ensures Linked(risks + orders, x, e) {
      LinkedIn(risks, orders, x, e);
    }
    forall r | RiskIn(reference, data, r) ensures Linked(risks, r.id, Edge(id, r.id, "risk_checked")) {
      OriginIff(reference, data, r.deployment.value);
      RiskIsLinked(data.risks, id, r);
    }
    forall o | OrderIn(reference, data, o)
      ensures Linked(orders, o.id, Edge(id, o.id, "created_order")) && ChildOps(o.id, data).Some?
      ensures forall x, e :: Linked(ChildOps(o.id, data).value, x, e) ==> Linked(orders, x, e)
    {
      OriginIff(reference, data, o.deployment);
      OrderIsLinked(data.orders, id, data, o);
    }
  }

  // Every record of the lineage is there with its link.
  ghost predicate AllLinked(reference: Reference, data: Records, ops: seq<Op>)
  {
    && (forall id :: ScorecardIn(reference, data, id) ==>
          Linked(ops, id, Edge(id, reference.id, "promotes_candidate")))
    && (forall d :: StandsFor(reference, data, d) ==> Linked(ops, d.id, Edge(reference.id, d.id, "deployed_as")))
    && (forall r :: RiskIn(reference, data, r) ==> Linked(ops, r.id, Edge(r.deployment.value, r.id, "risk_checked")))
    && (forall o :: OrderIn(reference, data, o) ==> Linked(ops, o.id, Edge(o.deployment, o.id, "created_order")))
    && BelowLinked(reference, data, ops)
  }

  // The fills and the last reconciliation of every order of the lineage.
  ghost predicate BelowLinked(reference: Reference, data: Records, ops: seq<Op>)
  {
    && (forall f :: FillIn(reference, data, f) ==> Linked(ops, f.id, Edge(f.order, f.id, "filled_by")))
    && (forall order, f, r :: ReconciledBy(reference, data, order, f, r) ==>
          Linked(ops, r.id, Edge(f.instrument.value, r.id, "reconciled_by")))
  }

  // The last reconciliation of an order of the lineage, and the last fill, which names the position it is linked from.
  ghost predicate ReconciledBy(reference: Reference, data: Records, order: string, f: Fill, r: Reconciliation)
  {
    Fillable(reference, data, order) && LastFor(data.fills, order, f) && f.instrument.Some?
    && LastReconciling(data, order, r)
  }

  lemma CandidateIsLinked(reference: Reference, data: Records)
    requires reference.kind == "candidate" && reference.id in data.candidates && data.candidates[reference.id].readable
    ensures var ops := CandidateOps(reference, data, data.candidates[reference.id]);
      && (forall id :: ScorecardIn(reference, data, id) ==>
            Linked(ops, id, Edge(id, reference.id, "promotes_candidate")))
      && (forall d :: StandsFor(reference, data, d) ==> Linked(ops, d.id, Edge(reference.id, d.id, "deployed_as")))
  {
    var c, deployed := data.candidates[reference.id], DeployedAs(reference, data);
    var first, second := ScorecardOps(reference, c), DeployedOps(reference, deployed);
    OriginIff(reference, data, reference.id);
    if c.scorecard.Some? && c.scorecard.value != "" {
      var e := Edge(c.scorecard.value, reference.id, "promotes_candidate");
      LinkIsLinked(ScorecardNode(c.scorecard.value, c), e);
      LinkedIn(first, second, c.scorecard.value, e);
    }
    if deployed.Some? {
      var e := Edge(reference.id, deployed.value.id, "deployed_as");
      LinkIsLinked(DeploymentNode(deployed.value), e);
      LinkedIn(first, second, deployed.value.id, e);
    }
  }

  lemma ListedIsCurrent(reference: Reference, data: Records, id: string)
    requires Listed(reference, data, id)
    ensures id == CurrentOf(reference, data)
  {
    OriginIff(reference, data, id);
  }

  // The records below the origin, in the part of the plan that follows `soFar`.
  lemma PlanFromIsLinked(reference: Reference, data: Records, soFar: seq<Op>)
    requires PlanFrom(reference, CurrentOf(reference, data), data, soFar).finish == Everything
    ensures var ops := PlanFrom(reference, CurrentOf(reference, data), data, soFar).ops;
      && (forall id, e :: Linked(soFar, id, e) ==> Linked(ops, id, e))
      && (forall r :: RiskIn(reference, data, r) ==> Linked(ops, r.id, Edge(r.deployment.value, r.id, "risk_checked")))
      && (forall o :: OrderIn(reference, data, o) ==> Linked(ops, o.id, Edge(o.deployment, o.id, "created_order")))
      && BelowLinked(reference, data, ops)
  {
    var current := CurrentOf(reference, data);
    var deployed := DeploymentOps(reference, current, data).value;
    var children := if reference.kind == "paper_order" then ChildOps(current, data).value else [];
    var parent := RiskReferenceOps(reference, current, data);
    forall id, e | Linked(soFar, id, e) || Linked(deployed, id, e) || Linked(children, id, e)
      ensures Linked(soFar + deployed + children + parent, id, e)
    {
      if !Linked(children, id, e) { LinkedIn(soFar, deployed, id, e); }
      LinkedIn(soFar + deployed, children, id, e);
      LinkedIn(soFar + deployed + children, parent, id, e);
    }
    if Listed(reference, data, current) { DeploymentIsLinked(reference, data, current); }
    forall r | RiskIn(reference, data, r)
      ensures Linked(deployed, r.id, Edge(r.deployment.value, r.id, "risk_checked"))
    {
      ListedIsCurrent(reference, data, r.deployment.value);
    }
    forall o | OrderIn(reference, data, o) ensures Linked(deployed, o.id, Edge(o.deployment, o.id, "created_order")) {
      ListedIsCurrent(reference, data, o.deployment);
    }
    forall order | Fillable(reference, data, order)
      ensures ChildOps(order, data).Some? && forall x, e :: Linked(ChildOps(order, data).value, x, e) ==>
        Linked(deployed, x, e) || Linked(children, x, e)
    {
      ChildrenAreBelow(reference, data, order);
    }
    BelowIsLinked(reference, data, soFar + deployed + children + parent);
  }

  lemma BelowIsLinked(reference: Reference, data: Records, ops: seq<Op>)
    requires forall order :: Fillable(reference, data, order) ==> ChildOps(order, data).Some?
    requires forall order, x, e :: Fillable(reference, data, order) && Linked(ChildOps(order, data).value, x, e) ==>
      Linked(ops, x, e)
    ensures BelowLinked(reference, data, ops)
  {
    forall order | Fillable(reference, data, order)
      ensures forall f :: f in data.fills && FillFor(f, order) ==> Linked(ops, f.id, Edge(order, f.id, "filled_by"))
      ensures forall f, r :: LastFor(data.fills, order, f) && f.instrument.Some? && LastReconciling(data, order, r) ==>
        Linked(ops, r.id, Edge(f.instrument.value, r.id, "reconciled_by"))
    {
      ChildrenAreLinked(order, data);
    }
  }

  lemma ChildrenAreBelow(reference: Reference, data: Records, order: string)
    requires PlanFrom(reference, CurrentOf(reference, data), data, []).finish == Everything
    requires Fillable(reference, data, order)
    ensures var current := CurrentOf(reference, data);
      && ChildOps(order, data).Some?
      && forall x, e :: Linked(ChildOps(order, data).value, x, e) ==>
          || Linked(DeploymentOps(reference, current, data).value, x, e)
          || (reference.kind == "paper_order" && Linked(ChildOps(current, data).value, x, e))
  {
    if !(OwnOrder(reference, data) && order == reference.id) {
      var o :| OrderIn(reference, data, o) && o.id == order;
      ListedIsCurrent(reference, data, o.deployment);
      DeploymentIsLinked(reference, data, o.deployment);
    }
  }

  lemma PlanIsLinked(reference: Reference, data: Records)
    requires PlanOf(reference, data).finish == Everything
    requires reference.kind == "candidate" ==> reference.id in data.candidates
    ensures AllLinked(reference, data, PlanOf(reference, data).ops)
  {
    var root := [AddNode(RootNode(reference))];
    if reference.kind == "candidate" {
      var own := CandidateOps(reference, data, data.candidates[reference.id]);
      CandidateIsLinked(reference, data);
      PlanFromIsLinked(reference, data, root + own);
      forall id, e | Linked(own, id, e) ensures Linked(root + own, id, e) { LinkedIn(root, own, id, e); }
    } else {
      PlanFromIsLinked(reference, data, root);
    }
  }

  lemma {:induction false} SeenAreNodes(ops: seq<Op>, clock: Clock)
    ensures SeenIsNodes(PerformAll(EMPTY, ops, clock))
    ensures ScopeMismatch !in PerformAll(EMPTY, ops, clock).warnings
  {
    if |ops| > 0 {
      SeenAreNodes(ops[..|ops| - 1], clock);
      var before, op := PerformAll(EMPTY, ops[..|ops| - 1], clock), ops[|ops| - 1];
      if op.AddNode? { HasNodeSnoc(before.nodes, op.node); }
    }
  }

  lemma {:induction false} EdgesAsked(ops: seq<Op>, e: Edge)
    requires AddEdge(e) in ops
    ensures e in EdgesOf(ops)
  {
    if ops[|ops| - 1] != AddEdge(e) { EdgesAsked(ops[..|ops| - 1], e); }
  }

  // A record's node and link are in the result.
  ghost predicate Shown(r: Result, id: string, e: Edge)
    requires r.Traced?
  {
    HasNode(r.nodes, id) && e in r.edges
  }

  // For any stored data, reference and clock: unless a warning says that a limit was hit or the scope did not match,
  // every readable record linked to the reference is in the graph handed back, with its link.
  lemma AllReadableRecordsAreTraced(reference: Reference, data: Records, clock: Clock)
    requires Expected(reference, data, clock).Traced?
    requires reference.kind == "candidate" ==> reference.id in data.candidates
    requires LimitReached !in Expected(reference, data, clock).warnings
    requires ScopeMismatch !in Expected(reference, data, clock).warnings
    ensures var g := Expected(reference, data, clock);
      && (forall id :: ScorecardIn(reference, data, id) ==> Shown(g, id, Edge(id, reference.id, "promotes_candidate")))
      && (forall d :: StandsFor(reference, data, d) ==> Shown(g, d.id, Edge(reference.id, d.id, "deployed_as")))
      && (forall r :: RiskIn(reference, data, r) ==> Shown(g, r.id, Edge(r.deployment.value, r.id, "risk_checked")))
      && (forall o :: OrderIn(reference, data, o) ==> Shown(g, o.id, Edge(o.deployment, o.id, "created_order")))
      && (forall f :: FillIn(reference, data, f) ==> Shown(g, f.id, Edge(f.order, f.id, "filled_by")))
      && (forall order, f, r :: ReconciledBy(reference, data, order, f, r) ==>
            Shown(g, r.id, Edge(f.instrument.value, r.id, "reconciled_by")))
  {
    var ops, g := PlanOf(reference, data).ops, Expected(reference, data, clock);
    assert PlanOf(reference, data).finish == Everything;
    PlanIsLinked(reference, data);
    forall id, e | Linked(ops, id, e) ensures Shown(g, id, e) {
      NoLimitWarningMeansComplete(ops, clock);
      SeenAreNodes(ops, clock);
      EdgesAsked(ops, e);
    }
  }

  // ----- When there is no graph -----

  // The order's last readable fill names no instrument, though its reconciliation needs one.
  ghost predicate Lacks(data: Records, order: string)
  {
    Reconciled(data, order) && exists f :: LastFor(data.fills, order, f) && f.instrument == None
  }

  lemma ChildrenRaiseWhen(data: Records, order: string)
    ensures var own := FillsOf(data.fills, order);
      ChildOps(order, data) == None <==>
      LastReconciliation(data.reconciliations, own).Some? && |own| > 0 && own[|own| - 1].instrument == None
  {
  }

  lemma ChildrenRaiseIff(data: Records, order: string)
    ensures ChildOps(order, data) == None <==> Lacks(data, order)
  {
    ChildrenRaiseWhen(data, order);
    LastFill(data.fills, order);
    ReconciledIff(data, order);
    var own := FillsOf(data.fills, order);
    if |own| > 0 { assert LastFor(data.fills, order, own[|own| - 1]); }
  }

  lemma {:induction false} OrdersRaiseIff(orders: seq<Order>, id: string, data: Records)
    ensures OrderOps(orders, id, data) == None <==>
      exists o :: o in orders && o.readable && o.deployment == id && Lacks(data, o.id)
  {
    if |orders| > 0 {
      var init, last := orders[..|orders| - 1], orders[|orders| - 1];
      OrdersRaiseIff(init, id, data);
      ChildrenRaiseIff(data, last.id);
      assert forall o :: o in orders <==> o in init || o == last;
    }
  }

  // The caller may not read what the reference names.
  ghost predicate OutOfScope(reference: Reference, data: Records)
  {
    || (reference.kind == "candidate" && reference.id in data.candidates && !data.candidates[reference.id].readable)
    || (reference.kind == "paper_order" && !OwnOrder(reference, data))
  }

  // The records of the deployment that the trace goes on from are listed.
  predicate ListsCurrent(reference: Reference, data: Records)
  {
    var current := CurrentOf(reference, data);
    (reference.kind == "deployment" || IsDeploymentId(current))
    && DeploymentById(data.deployments, current).Some? && DeploymentById(data.deployments, current).value.readable
  }

  lemma ListedIff(reference: Reference, data: Records, id: string)
    requires reference.kind == "candidate" ==> reference.id in data.candidates && data.candidates[reference.id].readable
    ensures Listed(reference, data, id) <==> id == CurrentOf(reference, data) && ListsCurrent(reference, data)
  {
    OriginIff(reference, data, id);
    OpenIff(data, id);
  }

  lemma DeploymentRaisesIff(reference: Reference, data: Records)
    requires reference.kind == "candidate" ==> reference.id in data.candidates && data.candidates[reference.id].readable
    ensures DeploymentOps(reference, CurrentOf(reference, data), data) == None <==>
      exists o :: OrderIn(reference, data, o) && Lacks(data, o.id)
  {
    OrdersRaiseIff(data.orders, CurrentOf(reference, data), data);
    forall o: Order
      ensures Listed(reference, data, o.deployment) <==>
        (o.deployment == CurrentOf(reference, data) && ListsCurrent(reference, data))
    {
      ListedIff(reference, data, o.deployment);
    }
  }

  lemma RaisesIff(reference: Reference, data: Records)
    ensures PlanOf(reference, data).finish == Raise <==>
      exists order :: Fillable(reference, data, order) && Lacks(data, order)
  {
    FindsOrder(data.orders, reference.id);
    if reference.kind == "candidate" && (reference.id !in data.candidates || !data.candidates[reference.id].readable) {
      assert forall order :: !Fillable(reference, data, order);
    } else {
      DeploymentRaisesIff(reference, data);
      ChildrenRaiseIff(data, reference.id);
      forall o | OrderIn(reference, data, o) ensures Fillable(reference, data, o.id) {}
    }
  }

  lemma CutShortIff(reference: Reference, data: Records)
    requires PlanOf(reference, data).finish != Raise
    ensures PlanOf(reference, data).finish == Nothing <==> reference.kind == "candidate" && OutOfScope(reference, data)
    ensures PlanOf(reference, data).finish == FirstNodeOnly <==>
      reference.kind == "paper_order" && OutOfScope(reference, data)
  {
    FindsOrder(data.orders, reference.id);
  }

  // The trace fails exactly when an order whose fills belong to the lineage lacks the instrument that its
  // reconciliation needs; and it is cut short, with nothing or with the root alone, exactly when the caller may not
  // read what the reference names.
  lemma NoGraphIff(reference: Reference, data: Records, clock: Clock)
    ensures Expected(reference, data, clock) == MissingInstrument <==>
      exists order :: Fillable(reference, data, order) && Lacks(data, order)
    ensures Expected(reference, data, clock).Traced? ==>
      (ScopeMismatch in Expected(reference, data, clock).warnings <==> OutOfScope(reference, data))
    ensures Expected(reference, data, clock).Traced? && OutOfScope(reference, data) ==>
      && |Expected(reference, data, clock).nodes| <= (if reference.kind == "candidate" then 0 else 1)
      && Expected(reference, data, clock).edges == [] && Expected(reference, data, clock).missing == [reference.kind]
  {
    RaisesIff(reference, data);
    if PlanOf(reference, data).finish != Raise {
      CutShortIff(reference, data);
      SeenAreNodes(PlanOf(reference, data).ops, clock);
    }
  }

  // ----- What is reported missing -----

  ghost predicate Unfilled(data: Records, order: string) { forall f :: f in data.fills ==> !FillFor(f, order) }

  // The trace goes on from a deployment that is not stored or may not be read.
  ghost predicate Shut(reference: Reference, data: Records)
  {
    exists id :: Origin(reference, data, id) && !Open(data, id) && (reference.kind == "deployment" || "deploy_" <= id)
  }

  function RiskNamed(id: string): Risk -> bool { (r: Risk) => r.id == id }

  // The reference is a risk evaluation that is not stored or may not be read.
  ghost predicate RiskAbsent(reference: Reference, data: Records)
  {
    reference.kind == "risk_evaluation" && !exists r :: First(data.risks, RiskNamed(reference.id), r) && r.readable
  }

  // Some order of the lineage has no readable fill.
  ghost predicate FillsAbsent(reference: Reference, data: Records)
  {
    exists order :: Fillable(reference, data, order) && Unfilled(data, order)
  }

  // The kinds of records that a lineage ought to have and does not, or not for this caller.
  ghost predicate Misses(reference: Reference, data: Records, kind: string)
  {
    var stored := reference.kind == "candidate" ==> reference.id in data.candidates;
    || (kind == "candidate" && !stored)
    || (kind == "scorecard" && stored && reference.kind == "candidate"
        && forall id :: !ScorecardIn(reference, data, id))
    || (kind == "deployment" && stored && reference.kind == "candidate" && forall d :: !StandsFor(reference, data, d))
    || (kind == "deployment" && stored && Shut(reference, data))
    || (kind == "risk_evaluation" && RiskAbsent(reference, data))
    || (kind == "fill" && FillsAbsent(reference, data))
  }

  lemma {:induction false} MissesAreAsked(ops: seq<Op>, kind: string)
    ensures kind in MissesOf(ops) <==> Miss(kind) in ops
  {
    if |ops| > 0 {
      MissesAreAsked(ops[..|ops| - 1], kind);
      assert Miss(kind) in ops <==> Miss(kind) in ops[..|ops| - 1] || ops[|ops| - 1] == Miss(kind);
    }
  }

  lemma {:induction false} RisksMissNothing(risks: seq<Risk>, id: string, kind: string)
    ensures Miss(kind) !in RiskOps(risks, id)
  {
    if |risks| > 0 { RisksMissNothing(risks[..|risks| - 1], id, kind); }
  }

  lemma {:induction false} FillsMissNothing(fills: seq<Fill>, order: string, kind: string)
    ensures Miss(kind) !in FillOps(fills, order)
  {
    if |fills| > 0 { FillsMissNothing(fills[..|fills| - 1], order, kind); }
  }

  lemma ChildrenMiss(order: string, data: Records, kind: string)
    requires ChildOps(order, data).Some?
    ensures Miss(kind) in ChildOps(order, data).value <==> kind == "fill" && Unfilled(data, order)
  {
    var fills := FillsOf(data.fills, order);
    var recon := ReconciliationOps(order, fills, LastReconciliation(data.reconciliations, fills));
    OwnMisses(data, order, kind);
    assert Miss(kind) !in recon.value;
    assert ChildOps(order, data).value == OwnFillOps(fills, order) + recon.value;
  }

  lemma OwnMisses(data: Records, order: string, kind: string)
    ensures Miss(kind) in OwnFillOps(FillsOf(data.fills, order), order) <==> kind == "fill" && Unfilled(data, order)
  {
    var fills := FillsOf(data.fills, order);
    OwnFills(data.fills, order);
    FillsMissNothing(fills, order, kind);
    if |fills| > 0 { assert fills[0] in fills; }
  }

  lemma {:induction false} OrdersMiss(orders: seq<Order>, id: string, data: Records, kind: string)
    requires OrderOps(orders, id, data).Some?
    ensures Miss(kind) in OrderOps(orders, id, data).value <==>
      kind == "fill" && exists o :: o in orders && o.readable && o.deployment == id && Unfilled(data, o.id)
  {
    if |orders| > 0 {
      var init, last := orders[..|orders| - 1], orders[|orders| - 1];
      OrdersMiss(init, id, data, kind);
      if last.readable && last.deployment == id { ChildrenMiss(last.id, data, kind); }
      assert forall o :: o in orders <==> o in init || o == last;
    }
  }

  lemma DeploymentMisses(reference: Reference, data: Records, kind: string)
    requires reference.kind == "candidate" ==> reference.id in data.candidates && data.candidates[reference.id].readable
    requires DeploymentOps(reference, CurrentOf(reference, data), data).Some?
    ensures Miss(kind) in DeploymentOps(reference, CurrentOf(reference, data), data).value <==>
      || (kind == "deployment" && (reference.kind == "deployment" || IsDeploymentId(CurrentOf(reference, data)))
          && !Open(data, CurrentOf(reference, data)))
      || (kind == "fill" && exists o :: OrderIn(reference, data, o) && Unfilled(data, o.id))
  {
    var current := CurrentOf(reference, data);
    OpenIff(data, current);
    forall o: Order
      ensures Listed(reference, data, o.deployment) <==> (o.deployment == current && ListsCurrent(reference, data))
    {
      ListedIff(reference, data, o.deployment);
    }
    if ListsCurrent(reference, data) {
      RisksMissNothing(data.risks, current, kind);
      OrdersMiss(data.orders, current, data, kind);
    }
  }

  lemma {:induction false} FindsFirstRisk(rs: seq<Risk>, id: string)
    ensures forall r :: First(rs, RiskNamed(id), r) <==> RiskById(rs, id) == Some(r)
  {
    if |rs| > 0 {
      FindsFirstRisk(rs[1..], id);
      SearchStep(rs, RiskNamed(id), RiskById(rs, id), RiskById(rs[1..], id));
    }
  }

  lemma ParentMisses(reference: Reference, data: Records, kind: string)
    ensures Miss(kind) in RiskReferenceOps(reference, reference.id, data) <==>
      kind == "risk_evaluation" && RiskAbsent(reference, data)
  {
    FindsFirstRisk(data.risks, reference.id);
    var found := RiskById(data.risks, reference.id);
    if found.Some? { assert First(data.risks, RiskNamed(reference.id), found.value); }
  }

  lemma CandidateMisses(reference: Reference, data: Records, kind: string)
    requires reference.kind == "candidate" && reference.id in data.candidates && data.candidates[reference.id].readable
    ensures Miss(kind) in CandidateOps(reference, data, data.candidates[reference.id]) <==>
      || (kind == "scorecard" && forall id :: !ScorecardIn(reference, data, id))
      || (kind == "deployment" && forall d :: !StandsFor(reference, data, d))
  {
    var c := data.candidates[reference.id];
    OriginIff(reference, data, reference.id);
    if c.scorecard.Some? && c.scorecard.value != "" { assert ScorecardIn(reference, data, c.scorecard.value); }
    if DeployedAs(reference, data).Some? { assert StandsFor(reference, data, DeployedAs(reference, data).value); }
  }

  // The part of a plan that follows `soFar`.
  lemma PlanFromMisses(reference: Reference, data: Records, soFar: seq<Op>, kind: string)
    requires reference.kind == "candidate" ==> reference.id in data.candidates && data.candidates[reference.id].readable
    requires PlanFrom(reference, CurrentOf(reference, data), data, soFar).finish == Everything
    requires !OutOfScope(reference, data)
    ensures Miss(kind) in PlanFrom(reference, CurrentOf(reference, data), data, soFar).ops <==>
      || Miss(kind) in soFar
      || (kind == "deployment" && Shut(reference, data))
      || (kind == "risk_evaluation" && RiskAbsent(reference, data))
      || (kind == "fill" && FillsAbsent(reference, data))
  {
    var current := CurrentOf(reference, data);
    DeploymentMisses(reference, data, kind);
    ParentMisses(reference, data, kind);
    if reference.kind == "paper_order" { ChildrenMiss(current, data, kind); }
    forall id ensures Origin(reference, data, id) <==> id == current { OriginIff(reference, data, id); }
    FillableParts(reference, data);
  }

  lemma FillableParts(reference: Reference, data: Records)
    ensures FillsAbsent(reference, data) <==>
      || (OwnOrder(reference, data) && Unfilled(data, reference.id))
      || exists o :: OrderIn(reference, data, o) && Unfilled(data, o.id)
  {
    forall o | OrderIn(reference, data, o) ensures Fillable(reference, data, o.id) {}
    if OwnOrder(reference, data) { assert Fillable(reference, data, reference.id); }
  }

  lemma PlanMisses(reference: Reference, data: Records, kind: string)
    requires PlanOf(reference, data).finish == Everything && !OutOfScope(reference, data)
    ensures Miss(kind) in PlanOf(reference, data).ops <==> Misses(reference, data, kind)
  {
    var root := [AddNode(RootNode(reference))];
    if reference.kind != "candidate" {
      PlanFromMisses(reference, data, root, kind);
    } else if reference.id in data.candidates {
      CandidateMisses(reference, data, kind);
      PlanFromMisses(reference, data, root + CandidateOps(reference, data, data.candidates[reference.id]), kind);
    } else {
      assert forall order :: !Fillable(reference, data, order);
    }
  }

  // Within its scope a trace reports exactly the kinds that are missing, whatever limits it hits.
  lemma ReportsWhatIsMissing(reference: Reference, data: Records, clock: Clock, kind: string)
    requires Expected(reference, data, clock).Traced? && !OutOfScope(reference, data)
    ensures kind in Expected(reference, data, clock).missing <==> Misses(reference, data, kind)
  {
    var ops := PlanOf(reference, data).ops;
    CutShortIff(reference, data);
    MissesAreNeverDropped(ops, clock);
    MissesAreAsked(ops, kind);
    PlanMisses(reference, data, kind);
  }
}
