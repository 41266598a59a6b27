/**
 * What the peeling of `FlowDecomposition` guarantees: no edge is overdrawn on any graph, and a
 * conserving acyclic flow is delivered unit by unit, up to what passes through demand nodes.
 */
module FlowLaws {
  import opened FlowDecomposition

  // ----- Weighted sums of a flow ----------------------------------------------------------

  datatype Measure = Leaving(node: Node) | Entering(node: Node) | Cost

  function Weight(m: Measure, e: Edge): int {
    match m
    case Leaving(v) => if e.from == v then 1 else 0
    case Entering(v) => if e.to == v then 1 else 0
    case Cost => e.cost
  }

  function Total(m: Measure, edges: seq<Edge>, flow: Flow): int {
    if edges == [] then 0 else Weight(m, edges[0]) * Left(flow, edges[0].id) + Total(m, edges[1..], flow)
  }

  function PathTotal(m: Measure, path: seq<Edge>): int {
    if path == [] then 0 else Weight(m, path[0]) + PathTotal(m, path[1..])
  }

  function Balance(edges: seq<Edge>, flow: Flow, v: Node): int {
    Total(Leaving(v), edges, flow) - Total(Entering(v), edges, flow)
  }

  function NodeSupply(supplies: seq<Supply>, v: Node): int {
    if supplies == [] then 0
    else (if supplies[0].nodeId == v then supplies[0].amount else 0) + NodeSupply(supplies[1..], v)
  }

  /** What the blocks still to be peeled will take out of `v`. */
  function Due(supplies: seq<Supply>, v: Node): nat {
    if supplies == [] then 0
    else
      var s := supplies[0];
      (if s.nodeId == v && s.amount > 0 then s.amount else 0) + Due(supplies[1..], v)
  }

  ghost predicate NonNegative(edges: seq<Edge>, flow: Flow) {
    forall e :: e in edges ==> 0 <= Left(flow, e.id)
  }

  /** The solver's contract: a non-negative flow whose balance at each node is the node's supply. */
  ghost predicate Feasible(edges: seq<Edge>, supplies: seq<Supply>, flow: Flow) {
    && NonNegative(edges, flow)
    && forall v :: Balance(edges, flow, v) == NodeSupply(supplies, v)
  }

  /** Every edge that carries flow goes up in rank: there is no cycle of flow. */
  ghost predicate Acyclic(edges: seq<Edge>, flow: Flow, rank: Node -> nat) {
    forall e :: e in edges && Left(flow, e.id) > 0 ==> rank(e.from) < rank(e.to)
  }

  // ----- Lowering one edge -----------------------------------------------------------------

  lemma {:induction false} TotalIgnoresOthers(m: Measure, edges: seq<Edge>, flow: Flow, e: Edge)
    requires forall x :: x in edges ==> x.id != e.id
    ensures Total(m, edges, Lowered(flow, e)) == Total(m, edges, flow)
  {
    if edges != [] {
      assert edges[0] in edges;
      TotalIgnoresOthers(m, edges[1..], flow, e);
    }
  }

  lemma {:induction false} LoweringOneEdge(m: Measure, edges: seq<Edge>, flow: Flow, e: Edge)
    requires DistinctIds(edges) && e in edges
    ensures Total(m, edges, Lowered(flow, e)) == Total(m, edges, flow) - Weight(m, e)
  {
    assert DistinctIds(edges[1..]);
    if edges[0] == e {
      TotalIgnoresOthers(m, edges[1..], flow, e);
      assert Weight(m, e) * (Left(flow, e.id) - 1) == Weight(m, e) * Left(flow, e.id) - Weight(m, e);
    } else {
      assert e in edges[1..];
      LoweringOneEdge(m, edges[1..], flow, e);
      assert edges[0].id != e.id;
    }
  }

  lemma {:induction false} ConsumingAPath(m: Measure, edges: seq<Edge>, flow: Flow, path: seq<Edge>)
    requires DistinctIds(edges) && forall e :: e in path ==> e in edges
    ensures Total(m, edges, Consumed(flow, path)) == Total(m, edges, flow) - PathTotal(m, path)
    decreases path
  {
    hide Total, Weight;
    if path != [] {
      LoweringOneEdge(m, edges, flow, path[0]);
      ConsumingAPath(m, edges, Lowered(flow, path[0]), path[1..]);
    }
  }

  function Uses(path: seq<Edge>, id: string): nat {
    if path == [] then 0 else (if path[0].id == id then 1 else 0) + Uses(path[1..], id)
  }

  lemma {:induction false} ConsumedLeaves(flow: Flow, path: seq<Edge>, id: string)
    ensures Left(Consumed(flow, path), id) == Left(flow, id) - Uses(path, id)
    decreases path
  {
    if path != [] { ConsumedLeaves(Lowered(flow, path[0]), path[1..], id); }
  }

  // ----- What one unit path is --------------------------------------------------------------

  function End(start: Node, path: seq<Edge>): Node {
    if path == [] then start else path[|path| - 1].to
  }

  /** A walk along `path` from `start`: each edge leaves where the one before it arrived. */
  predicate Chain(start: Node, path: seq<Edge>)
    decreases path
  {
    path == [] || (path[0].from == start && Chain(path[0].to, path[1..]))
  }

  ghost predicate NewHeads(path: seq<Edge>, visited: set<Node>) {
    && (forall e :: e in path ==> e.to !in visited)
    && (forall i, j :: 0 <= i < j < |path| ==> path[i].to != path[j].to)
  }

  lemma {:induction false} PathShape(edges: seq<Edge>, flow: Flow, sinks: set<Node>, node: Node, visited: set<Node>)
    ensures var path := UnitPath(edges, flow, sinks, node, visited);
      && Chain(node, path) && NewHeads(path, visited)
      && (forall e :: e in path ==> e in edges && Left(flow, e.id) > 0 && e.from !in sinks)
    decreases |Heads(edges) - visited|
  {
    hide FirstEligible;
    var path := UnitPath(edges, flow, sinks, node, visited);
    if path != [] {
      var e := path[0];
      FewerHeads(edges, e, visited);
      PathShape(edges, flow, sinks, e.to, visited + {e.to});
      var rest := UnitPath(edges, flow, sinks, e.to, visited + {e.to});
      assert path == [e] + rest;
      assert path[1..] == rest;
    }
  }

  lemma {:induction false} UsedOnce(edges: seq<Edge>, path: seq<Edge>, visited: set<Node>, id: string)
    requires DistinctIds(edges) && NewHeads(path, visited) && forall e :: e in path ==> e in edges
    ensures Uses(path, id) <= 1
    ensures Uses(path, id) == 1 ==> exists e :: e in path && e.id == id
  {
    if path != [] {
      UsedOnce(edges, path[1..], visited, id);
      if path[0].id == id {
        assert path[0] in path;
        forall e | e in path[1..] ensures e.id != id {
          var i :| 0 <= i < |path[1..]| && path[1..][i] == e;
          assert path[i + 1] == e && path[0].to != path[i + 1].to;
          SameIdSameEdge(edges, path[0], e);
        }
      }
    }
  }

  lemma SameIdSameEdge(edges: seq<Edge>, a: Edge, b: Edge)
    requires DistinctIds(edges) && a in edges && b in edges
    ensures a.id == b.id ==> a == b
  {
    var i :| 0 <= i < |edges| && edges[i] == a;
    var j :| 0 <= j < |edges| && edges[j] == b;
    assert i < j ==> edges[i].id != edges[j].id;
    assert j < i ==> edges[j].id != edges[i].id;
  }

  /** A path takes one unit from its start and leaves one at its end. */
  lemma {:induction false} ChainMovesOneUnit(start: Node, path: seq<Edge>, v: Node)
    requires Chain(start, path)
    ensures PathTotal(Leaving(v), path) - PathTotal(Entering(v), path)
         == (if v == start then 1 else 0) - (if v == End(start, path) then 1 else 0)
    decreases path
  {
    if path != [] { ChainMovesOneUnit(path[0].to, path[1..], v); }
  }

  lemma PathKeepsNonNegative(edges: seq<Edge>, flow: Flow, sinks: set<Node>, start: Node)
    requires DistinctIds(edges) && NonNegative(edges, flow)
    ensures NonNegative(edges, Consumed(flow, UnitPath(edges, flow, sinks, start, {start})))
  {
    hide UnitPath, Consumed, Left, Uses;
    var path := UnitPath(edges, flow, sinks, start, {start});
    PathShape(edges, flow, sinks, start, {start});
    forall e | e in edges ensures 0 <= Left(Consumed(flow, path), e.id) {
      ConsumedLeaves(flow, path, e.id);
      UsedOnce(edges, path, {start}, e.id);
      if Uses(path, e.id) == 1 {
        var x :| x in path && x.id == e.id;
        SameIdSameEdge(edges, x, e);
      }
    }
  }

  // ----- Every unit arrives -----------------------------------------------------------------

  lemma {:induction false} SomeEdgeCarries(m: Measure, edges: seq<Edge>, flow: Flow) returns (e: Edge)
    requires !m.Cost? && NonNegative(edges, flow) && Total(m, edges, flow) > 0
    ensures e in edges && Weight(m, e) == 1 && Left(flow, e.id) > 0
  {
    if Weight(m, edges[0]) == 1 && Left(flow, edges[0].id) > 0 {
      e := edges[0];
    } else {
      assert edges[0] in edges;
      assert NonNegative(edges[1..], flow);
      e := SomeEdgeCarries(m, edges[1..], flow);
    }
  }

  lemma {:induction false} CarryingCounts(m: Measure, edges: seq<Edge>, flow: Flow, e: Edge)
    requires !m.Cost? && NonNegative(edges, flow)
    ensures Total(m, edges, flow) >= 0
    ensures e in edges && Weight(m, e) == 1 && Left(flow, e.id) > 0 ==> Total(m, edges, flow) > 0
  {
    if edges != [] {
      assert edges[0] in edges;
      assert NonNegative(edges[1..], flow);
      CarryingCounts(m, edges[1..], flow, e);
    }
  }

  /** No node but a sink takes in more than it sends out. */
  ghost predicate PassesOn(edges: seq<Edge>, flow: Flow, sinks: set<Node>) {
    forall v :: v !in sinks ==> Balance(edges, flow, v) >= 0
  }

  lemma {:induction false} PathReachesASink(edges: seq<Edge>, flow: Flow, sinks: set<Node>, node: Node,
                                            visited: set<Node>, rank: Node -> nat)
    requires NonNegative(edges, flow) && PassesOn(edges, flow, sinks) && Acyclic(edges, flow, rank)
    requires node in sinks || Total(Leaving(node), edges, flow) > 0
    requires forall v :: v in visited ==> rank(v) <= rank(node)
    ensures End(node, UnitPath(edges, flow, sinks, node, visited)) in sinks
    decreases |Heads(edges) - visited|
  {
    hide FirstEligible, Total;
    if node !in sinks {
      var carrying := SomeEdgeCarries(Leaving(node), edges, flow);
      assert Eligible(carrying, flow, visited);
      var e := FirstEligible(edges, flow, node, visited).value;
      FewerHeads(edges, e, visited);
      CarryingCounts(Entering(e.to), edges, flow, e);
      PathReachesASink(edges, flow, sinks, e.to, visited + {e.to}, rank);
      assert UnitPath(edges, flow, sinks, node, visited)
          == [e] + UnitPath(edges, flow, sinks, e.to, visited + {e.to});
    }
  }

  /** The flow in hand is exactly what the blocks still to be peeled will draw, node by node. */
  ghost predicate Covers(edges: seq<Edge>, flow: Flow, sinks: set<Node>, supplies: seq<Supply>) {
    && NonNegative(edges, flow)
    && forall v :: v !in sinks ==> Balance(edges, flow, v) == Due(supplies, v)
  }

  lemma {:induction false} DueIsSupply(supplies: seq<Supply>, v: Node)
    requires forall s :: s in supplies && s.amount < 0 ==> s.nodeId != v
    ensures NodeSupply(supplies, v) == Due(supplies, v)
  {
    if supplies != [] {
      assert supplies[0] in supplies;
      DueIsSupply(supplies[1..], v);
    }
  }

  lemma FeasibleCovers(edges: seq<Edge>, supplies: seq<Supply>, flow: Flow)
    requires Feasible(edges, supplies, flow)
    ensures Covers(edges, flow, SinkNodes(supplies), supplies)
  {
    forall v | v !in SinkNodes(supplies) ensures Balance(edges, flow, v) == Due(supplies, v) {
      forall s | s in supplies && s.amount < 0 ensures s.nodeId != v {
        assert s.nodeId in SinkNodes(supplies);
      }
      DueIsSupply(supplies, v);
    }
  }

  ghost predicate Delivers(edges: seq<Edge>, sinks: set<Node>, start: Node, path: seq<Edge>) {
    && Chain(start, path) && NewHeads(path, {start}) && End(start, path) in sinks
    && forall e :: e in path ==> e in edges
  }

  lemma OneUnit(edges: seq<Edge>, flow: Flow, sinks: set<Node>, start: Node, units: nat, rest: seq<Supply>, rank: Node -> nat)
    requires DistinctIds(edges) && units > 0
    requires Covers(edges, flow, sinks, [Supply(start, units)] + rest) && Acyclic(edges, flow, rank)
    ensures var path := UnitPath(edges, flow, sinks, start, {start});
      && Delivers(edges, sinks, start, path)
      && Covers(edges, Consumed(flow, path), sinks, [Supply(start, units - 1)] + rest)
      && Acyclic(edges, Consumed(flow, path), rank)
  {
    hide UnitPath, Consumed, Total, PathTotal, Left, Chain, NewHeads;
    var path := UnitPath(edges, flow, sinks, start, {start});
    PathShape(edges, flow, sinks, start, {start});
    PathKeepsNonNegative(edges, flow, sinks, start);
    forall v ensures Due([Supply(start, units)] + rest, v) == Due([Supply(start, units - 1)] + rest, v)
                  + if v == start then 1 else 0 {
      assert ([Supply(start, units)] + rest)[1..] == rest == ([Supply(start, units - 1)] + rest)[1..];
    }
    CarryingCounts(Entering(start), edges, flow, Edge("", "", "", 0));
    PathReachesASink(edges, flow, sinks, start, {start}, rank);
    forall v | v !in sinks
      ensures Balance(edges, Consumed(flow, path), v) == Due([Supply(start, units - 1)] + rest, v) {
      ConsumingAPath(Leaving(v), edges, flow, path);
      ConsumingAPath(Entering(v), edges, flow, path);
      ChainMovesOneUnit(start, path, v);
    }
    forall e | e in edges && Left(Consumed(flow, path), e.id) > 0 ensures rank(e.from) < rank(e.to) {
      ConsumedLeaves(flow, path, e.id);
    }
  }

  lemma {:induction false} UnitsDelivered(edges: seq<Edge>, flow: Flow, sinks: set<Node>, start: Node, units: nat,
                                          rest: seq<Supply>, rank: Node -> nat)
    requires DistinctIds(edges)
    requires Covers(edges, flow, sinks, [Supply(start, units)] + rest) && Acyclic(edges, flow, rank)
    ensures var peeled := PeelUnits(edges, flow, sinks, start, units);
      && |peeled.paths| == units
      && (forall path :: path in peeled.paths ==> Delivers(edges, sinks, start, path))
      && Covers(edges, peeled.left, sinks, rest) && Acyclic(edges, peeled.left, rank)
    decreases units
  {
    hide UnitPath, Consumed, Delivers, Acyclic, Balance;
    if units == 0 {
      forall v ensures Due([Supply(start, units)] + rest, v) == Due(rest, v) {
        assert ([Supply(start, units)] + rest)[1..] == rest;
      }
    } else {
      OneUnit(edges, flow, sinks, start, units, rest, rank);
      UnitsDelivered(edges, Consumed(flow, UnitPath(edges, flow, sinks, start, {start})), sinks, start, units - 1, rest, rank);
    }
  }

  ghost predicate BlockDelivered(edges: seq<Edge>, sinks: set<Node>, b: Routed) {
    |b.paths| == b.block.amount && forall path :: path in b.paths ==> Delivers(edges, sinks, b.block.nodeId, path)
  }

  lemma {:induction false} BlocksDelivered(edges: seq<Edge>, flow: Flow, sinks: set<Node>, supplies: seq<Supply>, rank: Node -> nat)
    requires DistinctIds(edges) && Covers(edges, flow, sinks, supplies) && Acyclic(edges, flow, rank)
    ensures var d := PeelBlocks(edges, flow, sinks, supplies);
      && (forall b :: b in d.blocks ==> BlockDelivered(edges, sinks, b))
      && Covers(edges, d.left, sinks, []) && Acyclic(edges, d.left, rank)
    decreases supplies
  {
    hide PeelUnits, Delivers, Acyclic, Balance;
    if supplies != [] {
      var s, rest := supplies[0], supplies[1..];
      if s.amount <= 0 {
        BlocksDelivered(edges, flow, sinks, rest, rank);
      } else {
        assert [Supply(s.nodeId, s.amount)] + rest == supplies;
        UnitsDelivered(edges, flow, sinks, s.nodeId, s.amount, rest, rank);
        BlocksDelivered(edges, PeelUnits(edges, flow, sinks, s.nodeId, s.amount).left, sinks, rest, rank);
      }
    }
  }

  /** One assignment per positive supply, in the order the supplies came. */
  function PositiveSupplies(supplies: seq<Supply>): seq<Supply> {
    if supplies == [] then []
    else (if supplies[0].amount > 0 then [supplies[0]] else []) + PositiveSupplies(supplies[1..])
  }

  lemma {:induction false} BlocksAreThePositiveSupplies(edges: seq<Edge>, flow: Flow, sinks: set<Node>, supplies: seq<Supply>)
    ensures var d, blocks := PeelBlocks(edges, flow, sinks, supplies), PositiveSupplies(supplies);
      |d.blocks| == |blocks| && forall i :: 0 <= i < |blocks| ==> d.blocks[i].block == blocks[i]
    decreases supplies
  {
    hide PeelUnits;
    if supplies != [] {
      var s := supplies[0];
      BlocksAreThePositiveSupplies(edges,
        if s.amount <= 0 then flow else PeelUnits(edges, flow, sinks, s.nodeId, s.amount).left, sinks, supplies[1..]);
    }
  }

  /** Every unit of every block is traced along a simple path to a demand node. */
  lemma EveryUnitReachesASink(edges: seq<Edge>, supplies: seq<Supply>, flow: Flow, rank: Node -> nat)
    requires DistinctIds(edges) && Feasible(edges, supplies, flow) && Acyclic(edges, flow, rank)
    ensures var blocks := Decomposed(edges, supplies, flow).blocks;
      && |blocks| == |PositiveSupplies(supplies)|
      && forall i :: 0 <= i < |blocks| ==>
           blocks[i].block == PositiveSupplies(supplies)[i] && BlockDelivered(edges, SinkNodes(supplies), blocks[i])
  {
    hide PeelBlocks, Feasible, Covers, BlockDelivered, SinkNodes;
    FeasibleCovers(edges, supplies, flow);
    BlocksDelivered(edges, flow, SinkNodes(supplies), supplies, rank);
    BlocksAreThePositiveSupplies(edges, flow, SinkNodes(supplies), supplies);
  }

  // ----- Accounts: what is used plus what is left is what there was ----------------------------

  function AllLegs(blocks: seq<Routed>): seq<Edge> {
    if blocks == [] then [] else Flat(blocks[0].paths) + AllLegs(blocks[1..])
  }

  lemma {:induction false} UsesOfSum(a: seq<Edge>, b: seq<Edge>, id: string)
    ensures Uses(a + b, id) == Uses(a, id) + Uses(b, id)
  {
    if a == [] { assert a + b == b; } else {
      UsesOfSum(a[1..], b, id);
      assert (a + b)[1..] == a[1..] + b;
    }
  }

  lemma {:induction false} CostOfSum(a: seq<Edge>, b: seq<Edge>)
    ensures CostOf(a + b) == CostOf(a) + CostOf(b)
  {
    if a == [] { assert a + b == b; } else {
      CostOfSum(a[1..], b);
      assert (a + b)[1..] == a[1..] + b;
    }
  }

  lemma {:induction false} PathCost(path: seq<Edge>)
    ensures PathTotal(Cost, path) == CostOf(path)
  {
    if path != [] { PathCost(path[1..]); }
  }

  /** The books of a stretch of peeling from `before` to `left` over `legs`. */
  ghost predicate Accounts(edges: seq<Edge>, sinks: set<Node>, before: Flow, legs: seq<Edge>, left: Flow) {
    && (forall id :: Left(left, id) == Left(before, id) - Uses(legs, id))
    && Total(Cost, edges, left) == Total(Cost, edges, before) - CostOf(legs)
    && (forall e :: e in legs ==> e in edges && e.from !in sinks)
  }

  lemma AccountsJoin(edges: seq<Edge>, sinks: set<Node>, a: Flow, p: seq<Edge>, b: Flow, q: seq<Edge>, c: Flow)
    requires Accounts(edges, sinks, a, p, b) && Accounts(edges, sinks, b, q, c)
    ensures Accounts(edges, sinks, a, p + q, c)
  {
    hide Left, Uses, CostOf, Total;
    forall id ensures Left(c, id) == Left(a, id) - Uses(p + q, id) { UsesOfSum(p, q, id); }
    CostOfSum(p, q);
  }

  lemma UnitAccounts(edges: seq<Edge>, flow: Flow, sinks: set<Node>, start: Node)
    requires DistinctIds(edges)
    ensures var path := UnitPath(edges, flow, sinks, start, {start});
      Accounts(edges, sinks, flow, path, Consumed(flow, path))
  {
    hide UnitPath, Consumed, Left, Uses, CostOf, Total, PathTotal;
    var path := UnitPath(edges, flow, sinks, start, {start});
    PathShape(edges, flow, sinks, start, {start});
    forall id ensures Left(Consumed(flow, path), id) == Left(flow, id) - Uses(path, id) {
      ConsumedLeaves(flow, path, id);
    }
    ConsumingAPath(Cost, edges, flow, path);
    PathCost(path);
  }

  lemma {:induction false} UnitsAccounts(edges: seq<Edge>, flow: Flow, sinks: set<Node>, start: Node, units: nat)
    requires DistinctIds(edges)
    ensures var peeled := PeelUnits(edges, flow, sinks, start, units);
      && Accounts(edges, sinks, flow, Flat(peeled.paths), peeled.left)
      && (NonNegative(edges, flow) ==> NonNegative(edges, peeled.left))
    decreases units
  {
    hide UnitPath, Consumed, Left, Total, NonNegative;
    if units == 0 {
      assert forall id :: Uses([], id) == 0;
    } else {
      hide Accounts, Uses, CostOf;
      var path := UnitPath(edges, flow, sinks, start, {start});
      var next := Consumed(flow, path);
      var rest := PeelUnits(edges, next, sinks, start, units - 1);
      UnitAccounts(edges, flow, sinks, start);
      if NonNegative(edges, flow) { PathKeepsNonNegative(edges, flow, sinks, start); }
      UnitsAccounts(edges, next, sinks, start, units - 1);
      AccountsJoin(edges, sinks, flow, path, next, Flat(rest.paths), rest.left);
      assert ([path] + rest.paths)[1..] == rest.paths;
    }
  }

  lemma {:induction false} BlocksAccounts(edges: seq<Edge>, flow: Flow, sinks: set<Node>, supplies: seq<Supply>)
    requires DistinctIds(edges)
    ensures var d := PeelBlocks(edges, flow, sinks, supplies);
      && Accounts(edges, sinks, flow, AllLegs(d.blocks), d.left)
      && (NonNegative(edges, flow) ==> NonNegative(edges, d.left))
    decreases supplies
  {
    hide PeelUnits, Left, Total, NonNegative, Flat;
    if supplies == [] {
      assert forall id :: Uses([], id) == 0;
    } else {
      hide Accounts, Uses, CostOf;
      var s, rest := supplies[0], supplies[1..];
      if s.amount <= 0 {
        BlocksAccounts(edges, flow, sinks, rest);
      } else {
        var peeled := PeelUnits(edges, flow, sinks, s.nodeId, s.amount);
        UnitsAccounts(edges, flow, sinks, s.nodeId, s.amount);
        BlocksAccounts(edges, peeled.left, sinks, rest);
        var d := PeelBlocks(edges, peeled.left, sinks, rest);
        AccountsJoin(edges, sinks, flow, Flat(peeled.paths), peeled.left, AllLegs(d.blocks), d.left);
        assert ([Routed(s, peeled.paths)] + d.blocks)[1..] == d.blocks;
      }
    }
  }

  /** On any graph and any non-negative flow: no edge is used more often than it carries flow. */
  lemma NoEdgeIsOverdrawn(edges: seq<Edge>, supplies: seq<Supply>, flow: Flow, e: Edge)
    requires DistinctIds(edges) && NonNegative(edges, flow) && e in edges
    ensures var d := Decomposed(edges, supplies, flow);
      && Uses(AllLegs(d.blocks), e.id) + Left(d.left, e.id) == Left(flow, e.id)
      && Uses(AllLegs(d.blocks), e.id) <= Left(flow, e.id)
  {
    hide PeelBlocks, Left, Total, Uses, AllLegs, SinkNodes;
    BlocksAccounts(edges, flow, SinkNodes(supplies), supplies);
  }

  // ----- Nothing is left over, exactly when nothing passes through a demand node ----------------

  ghost predicate NothingLeft(edges: seq<Edge>, left: Flow) {
    forall e :: e in edges ==> Left(left, e.id) == 0
  }

  /** The condition a caller can read off the solver's answer. */
  ghost predicate DemandAbsorbs(edges: seq<Edge>, supplies: seq<Supply>, flow: Flow) {
    forall e :: e in edges && e.from in SinkNodes(supplies) ==> Left(flow, e.id) == 0
  }

  lemma {:induction false} LeftoverDescends(edges: seq<Edge>, left: Flow, sinks: set<Node>, rank: Node -> nat, e: Edge)
    requires Covers(edges, left, sinks, []) && Acyclic(edges, left, rank)
    requires forall x :: x in edges && x.from in sinks ==> Left(left, x.id) == 0
    requires e in edges
    ensures Left(left, e.id) == 0
    decreases rank(e.from)
  {
    hide Total;
    if Left(left, e.id) > 0 {
      CarryingCounts(Leaving(e.from), edges, left, e);
      assert Due([], e.from) == 0 && Balance(edges, left, e.from) == 0;
      var feeding := SomeEdgeCarries(Entering(e.from), edges, left);
      LeftoverDescends(edges, left, sinks, rank, feeding);
    }
  }

  lemma {:induction false} NotUsed(legs: seq<Edge>, e: Edge, edges: seq<Edge>, sinks: set<Node>)
    requires DistinctIds(edges) && e in edges && e.from in sinks
    requires forall x :: x in legs ==> x in edges && x.from !in sinks
    ensures Uses(legs, e.id) == 0
  {
    if legs != [] {
      assert legs[0] in legs;
      if legs[0].id == e.id { SameIdSameEdge(edges, legs[0], e); }
      NotUsed(legs[1..], e, edges, sinks);
    }
  }

  /** Every walk stops at the first demand node, so what leaves one is never used. */
  lemma WhatLeavesADemandStays(edges: seq<Edge>, supplies: seq<Supply>, flow: Flow, rank: Node -> nat, e: Edge)
    requires DistinctIds(edges) && Feasible(edges, supplies, flow) && Acyclic(edges, flow, rank)
    requires e in edges && e.from in SinkNodes(supplies)
    ensures Left(Decomposed(edges, supplies, flow).left, e.id) == Left(flow, e.id)
  {
    hide PeelBlocks, Left, Total, Uses, AllLegs, SinkNodes, Balance;
    var sinks := SinkNodes(supplies);
    FeasibleCovers(edges, supplies, flow);
    BlocksDelivered(edges, flow, sinks, supplies, rank);
    BlocksAccounts(edges, flow, sinks, supplies);
    NotUsed(AllLegs(PeelBlocks(edges, flow, sinks, supplies).blocks), e, edges, sinks);
  }

  /** The whole flow is turned into paths if and only if none of it leaves a demand node. */
  lemma FlowIsConsumedIff(edges: seq<Edge>, supplies: seq<Supply>, flow: Flow, rank: Node -> nat)
    requires DistinctIds(edges) && Feasible(edges, supplies, flow) && Acyclic(edges, flow, rank)
    ensures NothingLeft(edges, Decomposed(edges, supplies, flow).left) <==> DemandAbsorbs(edges, supplies, flow)
  {
    hide PeelBlocks, Left, Total, Uses, AllLegs, SinkNodes, Balance;
    var sinks := SinkNodes(supplies);
    var d := PeelBlocks(edges, flow, sinks, supplies);
    FeasibleCovers(edges, supplies, flow);
    BlocksDelivered(edges, flow, sinks, supplies, rank);
    BlocksAccounts(edges, flow, sinks, supplies);
    forall e | e in edges && e.from in sinks ensures Left(d.left, e.id) == Left(flow, e.id) {
      WhatLeavesADemandStays(edges, supplies, flow, rank, e);
    }
    if DemandAbsorbs(edges, supplies, flow) {
      forall e | e in edges ensures Left(d.left, e.id) == 0 {
        LeftoverDescends(edges, d.left, sinks, rank, e);
      }
    }
  }

  function BlockCosts(assignments: seq<FreightAssignment>): int {
    if assignments == [] then 0 else assignments[0].cost + BlockCosts(assignments[1..])
  }

  lemma {:induction false} BlockCostsAreLegCosts(blocks: seq<Routed>)
    ensures BlockCosts(Assigned(blocks)) == CostOf(AllLegs(blocks))
  {
    if blocks != [] {
      BlockCostsAreLegCosts(blocks[1..]);
      CostOfSum(Flat(blocks[0].paths), AllLegs(blocks[1..]));
      assert Assigned(blocks)[1..] == Assigned(blocks[1..]);
    }
  }

  lemma {:induction false} NothingCosts(edges: seq<Edge>, left: Flow)
    requires NothingLeft(edges, left)
    ensures Total(Cost, edges, left) == 0
  {
    if edges != [] {
      assert edges[0] in edges;
      NothingCosts(edges[1..], left);
    }
  }

  /** The assignments cost the solver's optimum less the cost of what was left unassigned. */
  lemma CostsAddUp(edges: seq<Edge>, supplies: seq<Supply>, flow: Flow, rank: Node -> nat)
    requires DistinctIds(edges)
    ensures var d := Decomposed(edges, supplies, flow);
      BlockCosts(Assigned(d.blocks)) + Total(Cost, edges, d.left) == Total(Cost, edges, flow)
    ensures Feasible(edges, supplies, flow) && Acyclic(edges, flow, rank) && DemandAbsorbs(edges, supplies, flow) ==>
      BlockCosts(Assigned(Decomposed(edges, supplies, flow).blocks)) == Total(Cost, edges, flow)
  {
    hide PeelBlocks, Total, AllLegs, SinkNodes, BlockCosts, Assigned, CostOf, Feasible, Acyclic, DemandAbsorbs, NothingLeft, Left, Uses;
    var d := PeelBlocks(edges, flow, SinkNodes(supplies), supplies);
    BlocksAccounts(edges, flow, SinkNodes(supplies), supplies);
    BlockCostsAreLegCosts(d.blocks);
    if Feasible(edges, supplies, flow) && Acyclic(edges, flow, rank) && DemandAbsorbs(edges, supplies, flow) {
      FlowIsConsumedIff(edges, supplies, flow, rank);
      NothingCosts(edges, d.left);
    }
  }

  // ----- A flow that passes through a demand node --------------------------------------------------

  const SD := Edge("sd", "s", "d", 0)
  const DE := Edge("de", "d", "e", 0)
  const THROUGH: seq<Edge> := [SD, DE]
  const TWO_THEN_ONE: Flow := map["sd" := 2, "de" := 1]
  const TWO_DEMANDS: seq<Supply> := [Supply("s", 2), Supply("d", -1), Supply("e", -1)]

  /** Two units go to d, one of them on to e: both paths end at d, and the unit for e stays on its edge. */
  lemma AThroughFlowIsLeftOver(rank: Node -> nat)
    requires rank("s") < rank("d") < rank("e")
    ensures DistinctIds(THROUGH) && Feasible(THROUGH, TWO_DEMANDS, TWO_THEN_ONE) && Acyclic(THROUGH, TWO_THEN_ONE, rank)
    ensures Left(Decomposed(THROUGH, TWO_DEMANDS, TWO_THEN_ONE).left, "de") == 1
    ensures !NothingLeft(THROUGH, Decomposed(THROUGH, TWO_DEMANDS, TWO_THEN_ONE).left)
  {
    ThroughIsFeasible();
    assert TWO_DEMANDS[1].amount < 0 && DE.from in SinkNodes(TWO_DEMANDS);
    hide Decomposed, Feasible, SinkNodes;
    assert DE == THROUGH[1];
    WhatLeavesADemandStays(THROUGH, TWO_DEMANDS, TWO_THEN_ONE, rank, DE);
  }

  lemma ThroughIsFeasible()
    ensures DistinctIds(THROUGH) && Feasible(THROUGH, TWO_DEMANDS, TWO_THEN_ONE)
  {
    assert THROUGH[1..] == [DE];
    assert TWO_DEMANDS[1..] == [Supply("d", -1), Supply("e", -1)] && TWO_DEMANDS[1..][1..] == [Supply("e", -1)];
    forall v ensures Balance(THROUGH, TWO_THEN_ONE, v) == NodeSupply(TWO_DEMANDS, v) {
      ThroughTotal(Leaving(v));
      ThroughTotal(Entering(v));
      assert NodeSupply([Supply("e", -1)], v) == (if v == "e" then -1 else 0) + NodeSupply([Supply("e", -1)][1..], v);
    }
  }

  lemma ThroughTotal(m: Measure)
    ensures Total(m, THROUGH, TWO_THEN_ONE) == 2 * Weight(m, SD) + Weight(m, DE)
  {
    assert THROUGH[1..] == [DE];
    assert Total(m, [DE], TWO_THEN_ONE) == Weight(m, DE) * 1 + Total(m, [DE][1..], TWO_THEN_ONE);
  }

  // ----- Why the flow must be acyclic ------------------------------------------------------------

  const AB := Edge("ab", "a", "b", 0)
  const AT := Edge("at", "a", "t", 0)
  const BA := Edge("ba", "b", "a", 0)
  const SA := Edge("sa", "s", "a", 0)
  const LOOPED: seq<Edge> := [AB, AT, BA, SA]
  const ONE_EACH: Flow := map["ab" := 1, "at" := 1, "ba" := 1, "sa" := 1]
  const ONE_UNIT: seq<Supply> := [Supply("s", 1), Supply("t", -1)]

  /** A conserving flow with a cycle in it can strand a unit: s, a, b, and back to a is barred. */
  lemma ACycleCanStrandAUnit()
    ensures DistinctIds(LOOPED) && Feasible(LOOPED, ONE_UNIT, ONE_EACH)
    ensures End("s", UnitPath(LOOPED, ONE_EACH, SinkNodes(ONE_UNIT), "s", {"s"})) !in SinkNodes(ONE_UNIT)
  {
    LoopedIsFeasible();
    var sinks := SinkNodes(ONE_UNIT);
    assert ONE_UNIT[0].amount > 0 && ONE_UNIT[1] == Supply("t", -1);
    assert sinks == {"t"};
    LoopedChoice("s", {"s"}, SA);
    LoopedChoice("a", {"s", "a"}, AB);
    assert FirstEligible(LOOPED, ONE_EACH, "b", {"s", "a", "b"}) == None by {
      assert forall e :: e in LOOPED && e.from == "b" ==> e == BA;
    }
    LoopedWalk(sinks);
  }

  lemma LoopedIsFeasible()
    ensures DistinctIds(LOOPED) && Feasible(LOOPED, ONE_UNIT, ONE_EACH)
  {
    assert LOOPED[1..] == [AT, BA, SA] && LOOPED[1..][1..] == [BA, SA] && LOOPED[1..][1..][1..] == [SA];
    assert ONE_UNIT[1..] == [Supply("t", -1)];
    forall v ensures Balance(LOOPED, ONE_EACH, v) == NodeSupply(ONE_UNIT, v) {
      LoopedTotal(Leaving(v));
      LoopedTotal(Entering(v));
      assert NodeSupply(ONE_UNIT[1..], v) == (if v == "t" then -1 else 0) + NodeSupply(ONE_UNIT[1..][1..], v);
    }
  }

  lemma LoopedTotal(m: Measure)
    ensures Total(m, LOOPED, ONE_EACH) == Weight(m, AB) + Weight(m, AT) + Weight(m, BA) + Weight(m, SA)
  {
    assert LOOPED[1..] == [AT, BA, SA] && [AT, BA, SA][1..] == [BA, SA] && [BA, SA][1..] == [SA];
    assert Total(m, [SA], ONE_EACH) == Weight(m, SA) * 1 + Total(m, [SA][1..], ONE_EACH);
    assert Total(m, [BA, SA], ONE_EACH) == Weight(m, BA) * 1 + Total(m, [SA], ONE_EACH);
    assert Total(m, [AT, BA, SA], ONE_EACH) == Weight(m, AT) * 1 + Total(m, [BA, SA], ONE_EACH);
  }

  lemma LoopedChoice(node: Node, visited: set<Node>, e: Edge)
    requires (node == "s" && visited == {"s"} && e == SA) || (node == "a" && visited == {"s", "a"} && e == AB)
    ensures FirstEligible(LOOPED, ONE_EACH, node, visited) == Some(e)
  {
    assert LOOPED[1..] == [AT, BA, SA] && [AT, BA, SA][1..] == [BA, SA] && [BA, SA][1..] == [SA];
    if e == SA {
      assert FirstEligible([SA], ONE_EACH, node, visited) == Some(SA);
      assert FirstEligible([BA, SA], ONE_EACH, node, visited) == Some(SA);
      assert FirstEligible([AT, BA, SA], ONE_EACH, node, visited) == Some(SA);
    }
  }

  lemma LoopedWalk(sinks: set<Node>)
    requires sinks == {"t"}
    requires FirstEligible(LOOPED, ONE_EACH, "s", {"s"}) == Some(SA)
    requires FirstEligible(LOOPED, ONE_EACH, "a", {"s", "a"}) == Some(AB)
    requires FirstEligible(LOOPED, ONE_EACH, "b", {"s", "a", "b"}) == None
    ensures UnitPath(LOOPED, ONE_EACH, sinks, "s", {"s"}) == [SA, AB]
  {
    hide FirstEligible;
    assert {"s"} + {"a"} == {"s", "a"} && {"s", "a"} + {"b"} == {"s", "a", "b"};
    assert UnitPath(LOOPED, ONE_EACH, sinks, "b", {"s", "a", "b"}) == [];
    assert UnitPath(LOOPED, ONE_EACH, sinks, "a", {"s", "a"}) == [AB] + [];
  }
}
