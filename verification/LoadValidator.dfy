/**
 * `packages/load-planner/src/lifo-invariant.ts`, `validator.ts` and `scoring.ts`: the blocker
 * predicate, the independent validator that trusts only the slices, and the rehandle score.
 */
module LoadValidator {
  import opened PlanningTypes
  import opened LoadPlanner
  import S = Sorting

  datatype Severity = HARD | SOFT

  datatype Violation = Violation(loadBlockId: string, blockerCount: nat, severity: Severity)

  datatype Feasibility = Feasibility(hardViolations: seq<Violation>, softViolations: seq<Violation>)

  // ----- The blocker predicate ---------------------------------------------------------

  /** `other` stands between `target` and the door and leaves the trailer later. */
  predicate IsBlocker(target: Placement, other: Placement) {
    other.depth < target.depth && other.unloadOrder > target.unloadOrder
  }

  function Blockers(target: Placement, placements: seq<Placement>): nat {
    if placements == [] then 0
    else
      var last := placements[|placements| - 1];
      Blockers(target, placements[..|placements| - 1]) + if IsBlocker(target, last) then 1 else 0
  }

  method CountBlockers(target: Placement, placements: seq<Placement>) returns (count: nat)
    ensures count == Blockers(target, placements)
  {
    count := 0;
    for i := 0 to |placements|
      invariant count == Blockers(target, placements[..i])
    {
      assert placements[..i + 1][..i] == placements[..i];
      if IsBlocker(target, placements[i]) { count := count + 1; }
    }
    assert placements[..|placements|] == placements;
  }

  /** If `a` unloads earlier it stands at least as close to the door. */
  predicate InOrder(a: Placement, b: Placement) {
    a.unloadOrder < b.unloadOrder ==> a.depth <= b.depth
  }

  ghost predicate CanonicalInvariant(placements: seq<Placement>) {
    forall i, j :: 0 <= i < |placements| && 0 <= j < |placements| ==> InOrder(placements[i], placements[j])
  }

  method CanonicalInvariantHolds(placements: seq<Placement>) returns (holds: bool)
    ensures holds <==> CanonicalInvariant(placements)
  {
    for i := 0 to |placements|
      invariant forall a, b :: 0 <= a < i && 0 <= b < |placements| ==> InOrder(placements[a], placements[b])
    {
      for j := 0 to |placements|
        invariant forall b :: 0 <= b < j ==> InOrder(placements[i], placements[b])
      {
        if i != j && placements[i].unloadOrder < placements[j].unloadOrder && placements[i].depth > placements[j].depth {
          assert !InOrder(placements[i], placements[j]);
          return false;
        }
      }
    }
    holds := true;
  }

  // ----- The validator's own view of the layout --------------------------------------------

  /** The hub of every id; a repeated id has the hub of its last block. */
  function HubById(blocks: seq<LoadBlock>): map<string, string> {
    if blocks == [] then map[]
    else
      var last := blocks[|blocks| - 1];
      HubById(blocks[..|blocks| - 1])[last.loadBlockId := last.key.nextUnloadHubId]
  }

  function OrderOfHub(hub: string, orders: map<string, nat>): nat {
    if hub in orders then orders[hub] else |orders|
  }

  function InSlice(depth: int, ids: seq<string>, hubs: map<string, string>, orders: map<string, nat>): seq<Placement> {
    if ids == [] then []
    else
      var before, id := InSlice(depth, ids[..|ids| - 1], hubs, orders), ids[|ids| - 1];
      if id in hubs then before + [Placement(id, depth, OrderOfHub(hubs[id], orders))] else before
  }

  /** Every known block of every slice, slice by slice. */
  function SlicePlacements(slices: seq<TrailerSlice>, hubs: map<string, string>, orders: map<string, nat>): seq<Placement> {
    if slices == [] then []
    else
      var last := slices[|slices| - 1];
      SlicePlacements(slices[..|slices| - 1], hubs, orders) + InSlice(last.depth, last.loadBlockIds, hubs, orders)
  }

  method PlacementsFromSlices(slices: seq<TrailerSlice>, blocks: seq<LoadBlock>, orders: map<string, nat>)
    returns (placements: seq<Placement>)
    ensures placements == SlicePlacements(slices, HubById(blocks), orders)
  {
    var hubs: map<string, string> := map[];
    for i := 0 to |blocks|
      invariant hubs == HubById(blocks[..i])
    {
      assert blocks[..i + 1][..i] == blocks[..i];
      hubs := hubs[blocks[i].loadBlockId := blocks[i].key.nextUnloadHubId];
    }
    assert blocks[..|blocks|] == blocks;
    placements := [];
    for i := 0 to |slices|
      invariant placements == SlicePlacements(slices[..i], hubs, orders)
    {
      assert slices[..i + 1][..i] == slices[..i];
      var ids := slices[i].loadBlockIds;
      ghost var before := placements;
      for j := 0 to |ids|
        invariant placements == before + InSlice(slices[i].depth, ids[..j], hubs, orders)
      {
        assert ids[..j + 1][..j] == ids[..j];
        if ids[j] in hubs {
          placements := placements + [Placement(ids[j], slices[i].depth, OrderOfHub(hubs[ids[j]], orders))];
        }
      }
      assert ids[..|ids|] == ids;
    }
    assert slices[..|slices|] == slices;
  }

  function ViolationOf(target: Placement, placements: seq<Placement>, maxAllowedBlockers: nat): Violation {
    var n := Blockers(target, placements);
    Violation(target.loadBlockId, n, if n > maxAllowedBlockers then HARD else SOFT)
  }

  /** The violations of one severity, in layout order. */
  function Violations(targets: seq<Placement>, placements: seq<Placement>, max: nat, severity: Severity): seq<Violation> {
    if targets == [] then []
    else
      var before, last := Violations(targets[..|targets| - 1], placements, max, severity), targets[|targets| - 1];
      if Blockers(last, placements) > 0 && ViolationOf(last, placements, max).severity == severity
      then before + [ViolationOf(last, placements, max)] else before
  }

  /** Any slice layout, whoever made it, against the route; a malformed stop throws. */
  method ValidatePlan(slices: seq<TrailerSlice>, blocks: seq<LoadBlock>, route: seq<RouteStop>, config: PlannerConfig)
    returns (r: Option<Feasibility>)
    ensures r.Some? <==> forall s :: s in route ==> WellFormed(s)
    ensures r.Some? ==>
      var placements := SlicePlacements(slices, HubById(blocks), UnloadOrders(route));
      r.value == Feasibility(Violations(placements, placements, config.maxAllowedBlockers, HARD),
                             Violations(placements, placements, config.maxAllowedBlockers, SOFT))
  {
    hide SlicePlacements, HubById, UnloadOrders, Blockers;
    var orders := BuildUnloadOrderMap(route);
    if orders.None? { return None; }
    var placements := PlacementsFromSlices(slices, blocks, orders.value);
    var hard, soft: seq<Violation> := [], [];
    for i := 0 to |placements|
      invariant hard == Violations(placements[..i], placements, config.maxAllowedBlockers, HARD)
      invariant soft == Violations(placements[..i], placements, config.maxAllowedBlockers, SOFT)
    {
      assert placements[..i + 1][..i] == placements[..i];
      var blockerCount := CountBlockers(placements[i], placements);
      if blockerCount == 0 { continue; }
      if blockerCount > config.maxAllowedBlockers {
        hard := hard + [Violation(placements[i].loadBlockId, blockerCount, HARD)];
      } else {
        soft := soft + [Violation(placements[i].loadBlockId, blockerCount, SOFT)];
      }
    }
    assert placements[..|placements|] == placements;
    r := Some(Feasibility(hard, soft));
  }

  predicate IsFeasible(r: Feasibility) {
    |r.hardViolations| == 0
  }

  // ----- The rehandle score --------------------------------------------------------------------

  function BlockById(blocks: seq<LoadBlock>): map<string, LoadBlock> {
    if blocks == [] then map[]
    else
      var last := blocks[|blocks| - 1];
      BlockById(blocks[..|blocks| - 1])[last.loadBlockId := last]
  }

  function BlockersVolume(target: Placement, placements: seq<Placement>, byId: map<string, LoadBlock>): real {
    if placements == [] then 0.0
    else
      var last := placements[|placements| - 1];
      BlockersVolume(target, placements[..|placements| - 1], byId)
      + if IsBlocker(target, last) && last.loadBlockId in byId then byId[last.loadBlockId].totalVolume else 0.0
  }

  datatype BlockRehandle = BlockRehandle(loadBlockId: string, blockerCount: nat, blockersVolume: real, fragile: bool, cost: real)

  function RehandleOf(target: Placement, placements: seq<Placement>, byId: map<string, LoadBlock>, config: PlannerConfig): BlockRehandle {
    var n, volume := Blockers(target, placements), BlockersVolume(target, placements, byId);
    var fragile := target.loadBlockId in byId && byId[target.loadBlockId].key.handlingClass == Fragile;
    BlockRehandle(target.loadBlockId, n, volume, fragile,
      n as real * config.unloadReloadMin + volume * config.volCost
      + (if fragile then config.fragilePenalty else 0.0) + config.dockDelayPenalty + config.slaImpactPenalty)
  }

  function Rehandles(targets: seq<Placement>, placements: seq<Placement>, byId: map<string, LoadBlock>, config: PlannerConfig)
    : seq<S.Keyed<BlockRehandle>>
  {
    if targets == [] then []
    else
      var before, last := Rehandles(targets[..|targets| - 1], placements, byId, config), targets[|targets| - 1];
      if Blockers(last, placements) == 0 then before
      else before + [S.Keyed(0, 0, last.loadBlockId, RehandleOf(last, placements, byId, config))]
  }

  function TotalCost(breakdown: seq<BlockRehandle>): real {
    if breakdown == [] then 0.0 else TotalCost(breakdown[..|breakdown| - 1]) + breakdown[|breakdown| - 1].cost
  }

  method RehandleScore(slices: seq<TrailerSlice>, blocks: seq<LoadBlock>, route: seq<RouteStop>, config: PlannerConfig)
    returns (r: Option<real>)
    ensures r.Some? <==> forall s :: s in route ==> WellFormed(s)
    ensures r.Some? ==>
      var placements := SlicePlacements(slices, HubById(blocks), UnloadOrders(route));
      r.value == TotalCost(S.Items(S.Sort(Rehandles(placements, placements, BlockById(blocks), config))))
  {
    hide SlicePlacements, HubById, BlockById, UnloadOrders, RehandleOf, S.Sort, Blockers;
    var orders := BuildUnloadOrderMap(route);
    if orders.None? { return None; }
    var placements := PlacementsFromSlices(slices, blocks, orders.value);
    var byId := BlockById(blocks);
    var rehandles: seq<S.Keyed<BlockRehandle>> := [];
    for i := 0 to |placements|
      invariant rehandles == Rehandles(placements[..i], placements, byId, config)
    {
      assert placements[..i + 1][..i] == placements[..i];
      var blockers := CountBlockers(placements[i], placements);
      if blockers == 0 { continue; }
      rehandles := rehandles + [S.Keyed(0, 0, placements[i].loadBlockId, RehandleOf(placements[i], placements, byId, config))];
    }
    assert placements[..|placements|] == placements;
    var breakdown := S.Items(S.Sort(rehandles));
    var total := 0.0;
    for i := 0 to |breakdown|
      invariant total == TotalCost(breakdown[..i])
    {
      assert breakdown[..i + 1][..i] == breakdown[..i];
      total := total + breakdown[i].cost;
    }
    assert breakdown[..|breakdown|] == breakdown;
    r := Some(total);
  }
}
