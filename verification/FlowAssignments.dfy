/**
 * What the assignments handed back by `AssignFreight` say, read from their edge ids alone: one per block,
 * its legs the runs of its units from source to sink, and all of them together the flow less what is left.
 */
module FlowAssignments {
  import opened FlowDecomposition
  import opened FlowLaws

  // ----- Reading an assignment ------------------------------------------------------------------

  /** From `node` the ids lead, edge by edge, over nodes not yet visited, to a demand node. */
  ghost predicate Walks(edges: seq<Edge>, sinks: set<Node>, node: Node, visited: set<Node>, ids: seq<string>)
    decreases |ids|
  {
    if ids == [] then node in sinks
    else exists e :: e in edges && e.id == ids[0] && e.from == node && e.to !in visited
                     && Walks(edges, sinks, e.to, visited + {e.to}, ids[1..])
  }

  function Joined(runs: seq<seq<string>>): seq<string> {
    if runs == [] then [] else runs[0] + Joined(runs[1..])
  }

  /** What the edges of the graph with these ids cost. */
  function CostOfIds(edges: seq<Edge>, ids: seq<string>): int {
    if ids == [] then 0 else CostOfId(edges, ids[0]) + CostOfIds(edges, ids[1..])
  }

  function CostOfId(edges: seq<Edge>, id: string): int {
    if edges == [] then 0 else if edges[0].id == id then edges[0].cost else CostOfId(edges[1..], id)
  }

  /** The legs are cut into one run per unit, and each run leads from the block to a demand node. */
  ghost predicate CutsInto(edges: seq<Edge>, sinks: set<Node>, a: FreightAssignment, units: int, runs: seq<seq<string>>) {
    && |runs| == units && Joined(runs) == a.legEdgeIds
    && forall run :: run in runs ==> Walks(edges, sinks, a.blockId, {a.blockId}, run)
  }

  ghost predicate Carries(edges: seq<Edge>, sinks: set<Node>, s: Supply, a: FreightAssignment) {
    && a.blockId == s.nodeId && a.cost == CostOfIds(edges, a.legEdgeIds)
    && exists runs :: CutsInto(edges, sinks, a, s.amount, runs)
  }

  function Times(ids: seq<string>, id: string): nat {
    if ids == [] then 0 else (if ids[0] == id then 1 else 0) + Times(ids[1..], id)
  }

  function TimesInAll(assignments: seq<FreightAssignment>, id: string): nat {
    if assignments == [] then 0 else Times(assignments[0].legEdgeIds, id) + TimesInAll(assignments[1..], id)
  }

  // ----- From paths to ids --------------------------------------------------------------------------

  lemma {:induction false} PathWalks(edges: seq<Edge>, sinks: set<Node>, node: Node, visited: set<Node>, path: seq<Edge>)
    requires Chain(node, path) && NewHeads(path, visited) && End(node, path) in sinks
    requires forall e :: e in path ==> e in edges
    ensures Walks(edges, sinks, node, visited, Ids(path))
    decreases |path|
  {
    if path != [] {
      var e, rest := path[0], path[1..];
      assert Ids(path)[1..] == Ids(rest) && Ids(path)[0] == e.id;
      assert NewHeads(rest, visited + {e.to}) by {
        assert forall i :: 0 <= i < |rest| ==> rest[i] == path[i + 1];
      }
      assert End(e.to, rest) == End(node, path);
      PathWalks(edges, sinks, e.to, visited + {e.to}, rest);
      assert e in edges;
    }
  }

  lemma IdsOfSum(a: seq<Edge>, b: seq<Edge>)
    ensures Ids(a + b) == Ids(a) + Ids(b)
  {
  }

  function RunsOf(paths: seq<seq<Edge>>): seq<seq<string>> {
    if paths == [] then [] else [Ids(paths[0])] + RunsOf(paths[1..])
  }

  lemma {:induction false} RunsAreTheLegs(paths: seq<seq<Edge>>)
    ensures |RunsOf(paths)| == |paths| && Joined(RunsOf(paths)) == Ids(Flat(paths))
    ensures forall run :: run in RunsOf(paths) ==> exists path :: path in paths && run == Ids(path)
  {
    hide Ids;
    if paths == [] {
      NoIds();
    } else {
      RunsAreTheLegs(paths[1..]);
      IdsOfSum(paths[0], Flat(paths[1..]));
      assert RunsOf(paths)[1..] == RunsOf(paths[1..]) && RunsOf(paths)[0] == Ids(paths[0]);
      forall run | run in RunsOf(paths) ensures exists path :: path in paths && run == Ids(path) {
        if run == Ids(paths[0]) {
          assert paths[0] in paths;
        } else {
          assert run in RunsOf(paths[1..]);
          var path :| path in paths[1..] && run == Ids(path);
          assert path in paths;
        }
      }
    }
  }

  lemma NoIds()
    ensures Ids([]) == []
  {
  }

  lemma {:induction false} CostIsFound(edges: seq<Edge>, e: Edge)
    requires DistinctIds(edges) && e in edges
    ensures CostOfId(edges, e.id) == e.cost
  {
    if edges[0] != e {
      assert e in edges[1..];
      CostIsFound(edges[1..], e);
    }
  }

  lemma {:induction false} CostReadsOff(edges: seq<Edge>, path: seq<Edge>)
    requires DistinctIds(edges) && forall e :: e in path ==> e in edges
    ensures CostOf(path) == CostOfIds(edges, Ids(path))
  {
    if path != [] {
      assert path[0] in path;
      CostIsFound(edges, path[0]);
      CostReadsOff(edges, path[1..]);
      assert Ids(path)[1..] == Ids(path[1..]);
    }
  }

  lemma {:induction false} FlatInGraph(edges: seq<Edge>, paths: seq<seq<Edge>>)
    requires forall path, e :: path in paths && e in path ==> e in edges
    ensures forall e :: e in Flat(paths) ==> e in edges
  {
    if paths != [] {
      assert paths[0] in paths;
      FlatInGraph(edges, paths[1..]);
    }
  }

  lemma BlockCarries(edges: seq<Edge>, sinks: set<Node>, b: Routed)
    requires DistinctIds(edges) && BlockDelivered(edges, sinks, b)
    ensures Carries(edges, sinks, b.block, AssignmentOf(b))
  {
    hide Ids, Flat, Walks, DistinctIds, Chain, NewHeads, End, CostOf, CostOfIds;
    var a, runs := AssignmentOf(b), RunsOf(b.paths);
    RunsAreTheLegs(b.paths);
    FlatInGraph(edges, b.paths);
    CostReadsOff(edges, Flat(b.paths));
    forall run | run in runs ensures Walks(edges, sinks, a.blockId, {a.blockId}, run) {
      var path :| path in b.paths && run == Ids(path);
      assert Delivers(edges, sinks, b.block.nodeId, path);
      PathWalks(edges, sinks, a.blockId, {a.blockId}, path);
    }
    assert CutsInto(edges, sinks, a, b.block.amount, runs);
  }

  /**
   * On a feasible acyclic flow the assignments are, in order, one per positive supply: its legs are cut
   * into one run per unit, each leading edge by edge from the block's node to a demand node, and its cost
   * is what those legs cost.
   */
  lemma AssignmentsCarryTheBlocks(edges: seq<Edge>, supplies: seq<Supply>, flow: Flow, rank: Node -> nat)
    requires DistinctIds(edges) && Feasible(edges, supplies, flow) && Acyclic(edges, flow, rank)
    ensures var assignments := Assigned(Decomposed(edges, supplies, flow).blocks);
      && |assignments| == |PositiveSupplies(supplies)|
      && forall i :: 0 <= i < |assignments| ==> Carries(edges, SinkNodes(supplies), PositiveSupplies(supplies)[i], assignments[i])
  {
    hide Decomposed, Feasible, Acyclic, BlockDelivered, Carries, AssignmentOf;
    EveryUnitReachesASink(edges, supplies, flow, rank);
    var blocks := Decomposed(edges, supplies, flow).blocks;
    forall i | 0 <= i < |blocks| ensures Carries(edges, SinkNodes(supplies), PositiveSupplies(supplies)[i], Assigned(blocks)[i]) {
      BlockCarries(edges, SinkNodes(supplies), blocks[i]);
    }
  }

  // ----- Edge by edge ------------------------------------------------------------------------------------

  lemma {:induction false} TimesAreUses(path: seq<Edge>, id: string)
    ensures Times(Ids(path), id) == Uses(path, id)
  {
    if path != [] {
      TimesAreUses(path[1..], id);
      assert Ids(path)[1..] == Ids(path[1..]);
    }
  }

  lemma {:induction false} AllTimesAreUses(blocks: seq<Routed>, id: string)
    ensures TimesInAll(Assigned(blocks), id) == Uses(AllLegs(blocks), id)
  {
    hide Ids, Flat, Times;
    if blocks != [] {
      AllTimesAreUses(blocks[1..], id);
      TimesAreUses(Flat(blocks[0].paths), id);
      UsesOfSum(Flat(blocks[0].paths), AllLegs(blocks[1..]), id);
      assert Assigned(blocks)[1..] == Assigned(blocks[1..]) && Assigned(blocks)[0] == AssignmentOf(blocks[0]);
    }
  }

  /** On any graph: the times an edge is named, over all assignments, and what is left on it make up its flow. */
  lemma NamedAndLeftMakeTheFlow(edges: seq<Edge>, supplies: seq<Supply>, flow: Flow, e: Edge)
    requires DistinctIds(edges) && NonNegative(edges, flow) && e in edges
    ensures var d := Decomposed(edges, supplies, flow);
      TimesInAll(Assigned(d.blocks), e.id) + Left(d.left, e.id) == Left(flow, e.id)
  {
    hide Decomposed, Assigned, AllLegs;
    NoEdgeIsOverdrawn(edges, supplies, flow, e);
    AllTimesAreUses(Decomposed(edges, supplies, flow).blocks, e.id);
  }

  /** The nodes the legs lead to are those with a negative supply. */
  lemma SinksAreTheDemands(supplies: seq<Supply>, v: Node)
    ensures v in SinkNodes(supplies) <==> exists s :: s in supplies && s.nodeId == v && s.amount < 0
  {
  }
}
