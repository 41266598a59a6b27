/**
 * `packages/optimizer/src/flow/assign-freight.ts`: an optimal integer flow peeled into unit
 * paths, block by block. The min-cost-flow solver is represented by the contract of its result.
 */
module FlowDecomposition {
  type Node = string

  datatype Edge = Edge(id: string, from: Node, to: Node, cost: int)

  datatype Supply = Supply(nodeId: Node, amount: int)

  type Flow = map<string, int>

  datatype FlowResult = FlowResult(totalCost: int, flowByEdgeId: Flow, feasible: bool)

  datatype FreightAssignment = FreightAssignment(blockId: Node, legEdgeIds: seq<string>, cost: int)

  datatype Option<T> = None | Some(value: T)

  // ----- The peeling, step by step ------------------------------------------------------

  /** An edge the map does not name carries nothing. */
  function Left(flow: Flow, id: string): int {
    if id in flow then flow[id] else 0
  }

  predicate Eligible(e: Edge, flow: Flow, visited: set<Node>) {
    Left(flow, e.id) > 0 && e.to !in visited
  }

  /** The first edge out of `node`, in graph order, that still carries flow to a new node. */
  function FirstEligible(edges: seq<Edge>, flow: Flow, node: Node, visited: set<Node>): (r: Option<Edge>)
    ensures r.Some? ==> r.value in edges && r.value.from == node && Eligible(r.value, flow, visited)
    ensures r.None? ==> forall e :: e in edges && e.from == node ==> !Eligible(e, flow, visited)
  {
    if edges == [] then None
    else if edges[0].from == node && Eligible(edges[0], flow, visited) then Some(edges[0])
    else FirstEligible(edges[1..], flow, node, visited)
  }

  function Heads(edges: seq<Edge>): set<Node> {
    set e | e in edges :: e.to
  }

  function UnitPath(edges: seq<Edge>, flow: Flow, sinks: set<Node>, node: Node, visited: set<Node>): seq<Edge>
    decreases |Heads(edges) - visited|
  {
    if node in sinks then []
    else
      match FirstEligible(edges, flow, node, visited)
      case None => []
      case Some(e) =>
        FewerHeads(edges, e, visited);
        [e] + UnitPath(edges, flow, sinks, e.to, visited + {e.to})
  }

  lemma FewerHeads(edges: seq<Edge>, e: Edge, visited: set<Node>)
    requires e in edges && e.to !in visited
    ensures |Heads(edges) - (visited + {e.to})| < |Heads(edges) - visited|
  {
    var before, after := Heads(edges) - visited, Heads(edges) - (visited + {e.to});
    assert before == after + {e.to};
  }

  function Lowered(flow: Flow, e: Edge): Flow {
    flow[e.id := Left(flow, e.id) - 1]
  }

  function Consumed(flow: Flow, path: seq<Edge>): Flow
    decreases path
  {
    if path == [] then flow else Consumed(Lowered(flow, path[0]), path[1..])
  }

  datatype Peeling = Peeling(paths: seq<seq<Edge>>, left: Flow)

  /** `units` unit paths out of `start`, each taken from what the earlier ones left. */
  function PeelUnits(edges: seq<Edge>, flow: Flow, sinks: set<Node>, start: Node, units: nat): Peeling
    decreases units
  {
    if units == 0 then Peeling([], flow)
    else
      var path := UnitPath(edges, flow, sinks, start, {start});
      var rest := PeelUnits(edges, Consumed(flow, path), sinks, start, units - 1);
      Peeling([path] + rest.paths, rest.left)
  }

  datatype Routed = Routed(block: Supply, paths: seq<seq<Edge>>)

  datatype Decomposition = Decomposition(blocks: seq<Routed>, left: Flow)

  function PeelBlocks(edges: seq<Edge>, flow: Flow, sinks: set<Node>, supplies: seq<Supply>): Decomposition
    decreases supplies
  {
    if supplies == [] then Decomposition([], flow)
    else if supplies[0].amount <= 0 then PeelBlocks(edges, flow, sinks, supplies[1..])
    else
      var peeled := PeelUnits(edges, flow, sinks, supplies[0].nodeId, supplies[0].amount);
      var rest := PeelBlocks(edges, peeled.left, sinks, supplies[1..]);
      Decomposition([Routed(supplies[0], peeled.paths)] + rest.blocks, rest.left)
  }

  function SinkNodes(supplies: seq<Supply>): set<Node> {
    set s | s in supplies && s.amount < 0 :: s.nodeId
  }

  function Decomposed(edges: seq<Edge>, supplies: seq<Supply>, flow: Flow): Decomposition {
    PeelBlocks(edges, flow, SinkNodes(supplies), supplies)
  }

  function Flat(paths: seq<seq<Edge>>): seq<Edge> {
    if paths == [] then [] else paths[0] + Flat(paths[1..])
  }

  function Ids(path: seq<Edge>): seq<string> {
    seq(|path|, i requires 0 <= i < |path| => path[i].id)
  }

  function CostOf(path: seq<Edge>): int {
    if path == [] then 0 else path[0].cost + CostOf(path[1..])
  }

  function Assigned(blocks: seq<Routed>): seq<FreightAssignment> {
    seq(|blocks|, i requires 0 <= i < |blocks| => AssignmentOf(blocks[i]))
  }

  function AssignmentOf(b: Routed): FreightAssignment {
    FreightAssignment(b.block.nodeId, Ids(Flat(b.paths)), CostOf(Flat(b.paths)))
  }

  // ----- The loops as the code runs them --------------------------------------------------

  ghost predicate DistinctIds(edges: seq<Edge>) {
    forall i, j :: 0 <= i < j < |edges| ==> edges[i].id != edges[j].id
  }

  /** The adjacency lists: every node's edges in graph order. */
  function EdgesFrom(edges: seq<Edge>, node: Node): seq<Edge> {
    if edges == [] then []
    else
      var before := EdgesFrom(edges[..|edges| - 1], node);
      if edges[|edges| - 1].from == node then before + [edges[|edges| - 1]] else before
  }

  ghost predicate Adjacency(out: map<Node, seq<Edge>>, edges: seq<Edge>) {
    forall v :: (if v in out then out[v] else []) == EdgesFrom(edges, v)
  }

  lemma {:induction false} FirstOfLonger(edges: seq<Edge>, last: Edge, flow: Flow, node: Node, visited: set<Node>)
    ensures FirstEligible(edges + [last], flow, node, visited)
         == if FirstEligible(edges, flow, node, visited).Some? then FirstEligible(edges, flow, node, visited)
            else if last.from == node && Eligible(last, flow, visited) then Some(last) else None
  {
    if edges == [] {
      assert ([] + [last])[1..] == [];
    } else {
      FirstOfLonger(edges[1..], last, flow, node, visited);
      assert (edges + [last])[1..] == edges[1..] + [last];
    }
  }

  /** Searching a node's own list finds the edge a search of the whole graph would find. */
  lemma {:induction false} OwnListSuffices(edges: seq<Edge>, flow: Flow, node: Node, visited: set<Node>)
    ensures FirstEligible(EdgesFrom(edges, node), flow, node, visited) == FirstEligible(edges, flow, node, visited)
  {
    if edges != [] {
      var front, last := edges[..|edges| - 1], edges[|edges| - 1];
      OwnListSuffices(front, flow, node, visited);
      FirstOfLonger(front, last, flow, node, visited);
      assert front + [last] == edges;
      if last.from == node {
        FirstOfLonger(EdgesFrom(front, node), last, flow, node, visited);
      }
    }
  }

  lemma {:induction false} AllFrom(edges: seq<Edge>, node: Node)
    ensures forall e :: e in EdgesFrom(edges, node) ==> e in edges && e.from == node
  {
    if edges != [] { AllFrom(edges[..|edges| - 1], node); }
  }

  method FindEligible(list: seq<Edge>, flow: Flow, node: Node, visited: set<Node>) returns (found: Option<Edge>)
    requires forall e :: e in list ==> e.from == node
    ensures found == FirstEligible(list, flow, node, visited)
  {
    for i := 0 to |list|
      invariant FirstEligible(list, flow, node, visited) == FirstEligible(list[i..], flow, node, visited)
    {
      assert list[i] in list;
      assert list[i..][1..] == list[i + 1..];
      if Left(flow, list[i].id) > 0 && list[i].to !in visited {
        return Some(list[i]);
      }
    }
    found := None;
  }

  /** The walk from a node: one eligible edge and the walk from its head, or nothing. */
  lemma PathContinues(edges: seq<Edge>, flow: Flow, sinks: set<Node>, node: Node, visited: set<Node>, next: Option<Edge>)
    requires node !in sinks && next == FirstEligible(edges, flow, node, visited)
    ensures UnitPath(edges, flow, sinks, node, visited)
         == if next.None? then [] else [next.value] + UnitPath(edges, flow, sinks, next.value.to, visited + {next.value.to})
    ensures next.Some? ==> |Heads(edges) - (visited + {next.value.to})| < |Heads(edges) - visited|
  {
    hide FirstEligible, Heads;
    if next.Some? { FewerHeads(edges, next.value, visited); }
  }

  lemma PathEnds(edges: seq<Edge>, flow: Flow, sinks: set<Node>, node: Node, visited: set<Node>)
    requires node in sinks
    ensures UnitPath(edges, flow, sinks, node, visited) == []
  {
  }

  method TraceUnitPath(start: Node, remaining: Flow, out: map<Node, seq<Edge>>, sinkNodes: set<Node>,
                       ghost edges: seq<Edge>)
    returns (path: seq<Edge>)
    requires Adjacency(out, edges)
    ensures path == UnitPath(edges, remaining, sinkNodes, start, {start})
  {
    hide UnitPath, FirstEligible, Heads, EdgesFrom;
    path := [];
    var visited := {start};
    var node := start;
    while node !in sinkNodes
      invariant UnitPath(edges, remaining, sinkNodes, start, {start})
             == path + UnitPath(edges, remaining, sinkNodes, node, visited)
      decreases |Heads(edges) - visited|
    {
      var list := if node in out then out[node] else [];
      assert list == EdgesFrom(edges, node);
      AllFrom(edges, node);
      OwnListSuffices(edges, remaining, node, visited);
      var next := FindEligible(list, remaining, node, visited);
      PathContinues(edges, remaining, sinkNodes, node, visited, next);
      if next.None? { return; }
      path := path + [next.value];
      visited := visited + {next.value.to};
      node := next.value.to;
    }
    PathEnds(edges, remaining, sinkNodes, node, visited);
  }

  lemma FlatOfNone()
    ensures Flat([]) == []
  {
  }

  lemma {:induction false} FlatOfLonger(paths: seq<seq<Edge>>, last: seq<Edge>)
    ensures Flat(paths + [last]) == Flat(paths) + last
  {
    if paths == [] {
      assert [] + [last] == [last];
      assert Flat([last]) == last + Flat([last][1..]);
    } else {
      FlatOfLonger(paths[1..], last);
      assert (paths + [last])[1..] == paths[1..] + [last];
    }
  }

  lemma {:induction false} CostOfLonger(path: seq<Edge>, last: Edge)
    ensures CostOf(path + [last]) == CostOf(path) + last.cost
  {
    if path == [] {
      assert [] + [last] == [last];
      assert CostOf([last]) == last.cost + CostOf([last][1..]);
    } else {
      CostOfLonger(path[1..], last);
      assert (path + [last])[1..] == path[1..] + [last];
    }
  }

  lemma OneMoreUnit(edges: seq<Edge>, left: Flow, sinks: set<Node>, start: Node, units: nat, path: seq<Edge>, done: seq<seq<Edge>>)
    requires units > 0 && path == UnitPath(edges, left, sinks, start, {start})
    ensures var peeled, rest := PeelUnits(edges, left, sinks, start, units), PeelUnits(edges, Consumed(left, path), sinks, start, units - 1);
      Peeling(done + peeled.paths, peeled.left) == Peeling((done + [path]) + rest.paths, rest.left)
  {
    hide UnitPath, Consumed;
    var rest := PeelUnits(edges, Consumed(left, path), sinks, start, units - 1);
    assert done + ([path] + rest.paths) == (done + [path]) + rest.paths;
  }

  lemma NoMoreUnits(edges: seq<Edge>, left: Flow, sinks: set<Node>, start: Node, done: seq<seq<Edge>>)
    ensures var peeled := PeelUnits(edges, left, sinks, start, 0); Peeling(done + peeled.paths, peeled.left) == Peeling(done, left)
  {
    assert done + [] == done;
  }

  method DecomposeBlock(block: Supply, remaining: Flow, out: map<Node, seq<Edge>>, sinkNodes: set<Node>,
                        ghost edges: seq<Edge>)
    returns (assignment: FreightAssignment, left: Flow)
    requires block.amount > 0 && Adjacency(out, edges)
    ensures var peeled := PeelUnits(edges, remaining, sinkNodes, block.nodeId, block.amount);
      left == peeled.left && assignment == AssignmentOf(Routed(block, peeled.paths))
  {
    hide UnitPath, FirstEligible, Flat, EdgesFrom, PeelUnits, Adjacency;
    FlatOfNone();
    var legEdgeIds: seq<string>, cost := [], 0;
    ghost var legs, done := [], [];
    left := remaining;
    ghost var whole := PeelUnits(edges, remaining, sinkNodes, block.nodeId, block.amount);
    assert [] + whole.paths == whole.paths;
    for unit := 0 to block.amount
      invariant Flat(done) == legs && legEdgeIds == Ids(legs) && cost == CostOf(legs)
      invariant whole == Peeling(done + PeelUnits(edges, left, sinkNodes, block.nodeId, block.amount - unit).paths,
                                 PeelUnits(edges, left, sinkNodes, block.nodeId, block.amount - unit).left)
    {
      var path := TraceUnitPath(block.nodeId, left, out, sinkNodes, edges);
      ghost var before, legsBefore := left, legs;
      OneMoreUnit(edges, left, sinkNodes, block.nodeId, block.amount - unit, path, done);
      for i := 0 to |path|
        invariant legs == legsBefore + path[..i] && legEdgeIds == Ids(legs) && cost == CostOf(legs)
        invariant Consumed(left, path[i..]) == Consumed(before, path)
      {
        assert path[i..][1..] == path[i + 1..] && path[i..][0] == path[i];
        assert Consumed(left, path[i..]) == Consumed(Lowered(left, path[i]), path[i + 1..]);
        left := left[path[i].id := Left(left, path[i].id) - 1];
        legEdgeIds := legEdgeIds + [path[i].id];
        cost := cost + path[i].cost;
        CostOfLonger(legs, path[i]);
        assert path[..i + 1] == path[..i] + [path[i]];
        legs := legs + [path[i]];
      }
      assert path[|path|..] == [] && path[..|path|] == path;
      FlatOfLonger(done, path);
      done := done + [path];
    }
    NoMoreUnits(edges, left, sinkNodes, block.nodeId, done);
    assignment := FreightAssignment(block.nodeId, legEdgeIds, cost);
  }

  method AssignFreight(edges: seq<Edge>, supplies: seq<Supply>, flow: FlowResult)
    returns (assignments: seq<FreightAssignment>)
    ensures !flow.feasible ==> assignments == []
    ensures flow.feasible ==> assignments == Assigned(Decomposed(edges, supplies, flow.flowByEdgeId).blocks)
  {
    hide PeelUnits, UnitPath, FirstEligible, AssignmentOf;
    assignments := [];
    if !flow.feasible { return; }

    var out: map<Node, seq<Edge>> := map[];
    for i := 0 to |edges|
      invariant Adjacency(out, edges[..i])
    {
      var e := edges[i];
      assert edges[..i + 1][..i] == edges[..i];
      out := out[e.from := (if e.from in out then out[e.from] else []) + [e]];
    }
    assert edges[..|edges|] == edges;

    var sinkNodes: set<Node> := {};
    for i := 0 to |supplies|
      invariant sinkNodes == SinkNodes(supplies[..i])
    {
      if supplies[i].amount < 0 { sinkNodes := sinkNodes + {supplies[i].nodeId}; }
      SinksOfLonger(supplies, i);
    }
    assert supplies[..|supplies|] == supplies;

    var remaining := flow.flowByEdgeId;
    ghost var done: seq<Routed> := [];
    for i := 0 to |supplies|
      invariant assignments == Assigned(done)
      invariant PeelBlocks(edges, flow.flowByEdgeId, sinkNodes, supplies).blocks
             == done + PeelBlocks(edges, remaining, sinkNodes, supplies[i..]).blocks
    {
      assert supplies[i..][1..] == supplies[i + 1..];
      if supplies[i].amount <= 0 { continue; }
      ghost var peeled := PeelUnits(edges, remaining, sinkNodes, supplies[i].nodeId, supplies[i].amount);
      var assignment, left := DecomposeBlock(supplies[i], remaining, out, sinkNodes, edges);
      assignments := assignments + [assignment];
      ghost var rest := PeelBlocks(edges, left, sinkNodes, supplies[i + 1..]).blocks;
      assert done + ([Routed(supplies[i], peeled.paths)] + rest) == (done + [Routed(supplies[i], peeled.paths)]) + rest;
      done := done + [Routed(supplies[i], peeled.paths)];
      remaining := left;
    }
    assert done + [] == done;
  }

  lemma SinksOfLonger(supplies: seq<Supply>, i: nat)
    requires i < |supplies|
    ensures SinkNodes(supplies[..i + 1])
         == SinkNodes(supplies[..i]) + if supplies[i].amount < 0 then {supplies[i].nodeId} else {}
  {
    assert supplies[..i + 1] == supplies[..i] + [supplies[i]];
  }
}
