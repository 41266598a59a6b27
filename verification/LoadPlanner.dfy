/**
 * `packages/load-planner/src`: the unload-order map, the greedy planner and the FIFO baseline.
 * Slices are filled from the nose; depth 0 is the rear door.
 */
module LoadPlanner {
  import opened PlanningTypes
  import opened NextFit
  import S = Sorting

  datatype Option<T> = None | Some(value: T)

  datatype Placement = Placement(loadBlockId: string, depth: int, unloadOrder: nat)

  datatype TrailerSlice = TrailerSlice(
    depth: int, capacity: Capacity, usedVolume: real, usedWeight: real, loadBlockIds: seq<string>)

  datatype LoadPlan = LoadPlan(trailerId: string, slices: seq<TrailerSlice>, placements: seq<Placement>)

  // ----- The unload order of a route -------------------------------------------------------

  predicate WellFormed(stop: RouteStop) {
    stop.hubId != "" && stop.stopIndex >= 0
  }

  function KeyedStops(route: seq<RouteStop>): seq<S.Keyed<RouteStop>> {
    seq(|route|, i requires 0 <= i < |route| => S.Keyed(route[i].stopIndex, i, "", route[i]))
  }

  function Ranked(route: seq<RouteStop>): seq<RouteStop> {
    S.Items(S.Sort(KeyedStops(route)))
  }

  /** The next unseen hub gets the next number. */
  function Number(stops: seq<RouteStop>): map<string, nat> {
    if stops == [] then map[]
    else
      var before := Number(stops[..|stops| - 1]);
      var hub := stops[|stops| - 1].hubId;
      if hub in before then before else before[hub := |before|]
  }

  function UnloadOrders(route: seq<RouteStop>): map<string, nat> {
    Number(Ranked(route))
  }

  method BuildUnloadOrderMap(route: seq<RouteStop>) returns (r: Option<map<string, nat>>)
    ensures r == if forall s :: s in route ==> WellFormed(s) then Some(UnloadOrders(route)) else None
  {
    for i := 0 to |route|
      invariant forall j :: 0 <= j < i ==> WellFormed(route[j])
    {
      if !WellFormed(route[i]) { return None; }
    }
    var ranked := Ranked(route);
    var orderMap: map<string, nat> := map[];
    var nextOrder := 0;
    for i := 0 to |ranked|
      invariant orderMap == Number(ranked[..i]) && nextOrder == |orderMap|
    {
      assert ranked[..i + 1][..i] == ranked[..i];
      if ranked[i].hubId !in orderMap {
        orderMap := orderMap[ranked[i].hubId := nextOrder];
        nextOrder := nextOrder + 1;
      }
    }
    assert ranked[..|ranked|] == ranked;
    r := Some(orderMap);
  }

  /** A hub off the route unloads last. */
  function OrderOf(block: LoadBlock, orders: map<string, nat>): nat {
    if block.key.nextUnloadHubId in orders then orders[block.key.nextUnloadHubId] else |orders|
  }

  // ----- Filling slices ----------------------------------------------------------------------

  function SliceCapacities(config: PlannerConfig): Capacity {
    Capacity(config.maxBlockVolume, config.maxBlockVolume * 100.0)
  }

  datatype SliceBuilder = SliceBuilder(usedVolume: real, usedWeight: real, loadBlockIds: seq<string>)

  predicate FitsIn(slice: SliceBuilder, block: LoadBlock, cap: Capacity) {
    slice.usedVolume + block.totalVolume <= cap.volume && slice.usedWeight + block.totalWeight <= cap.weight
  }

  function With(slice: SliceBuilder, block: LoadBlock): SliceBuilder {
    SliceBuilder(slice.usedVolume + block.totalVolume, slice.usedWeight + block.totalWeight,
                 slice.loadBlockIds + [block.loadBlockId])
  }

  const EMPTY_SLICE := SliceBuilder(0.0, 0.0, [])

  function Place(built: seq<SliceBuilder>, block: LoadBlock, cap: Capacity): seq<SliceBuilder> {
    if built == [] || !FitsIn(built[|built| - 1], block, cap) then built + [With(EMPTY_SLICE, block)]
    else built[..|built| - 1] + [With(built[|built| - 1], block)]
  }

  datatype Entry = Entry(loadBlockId: string, sliceIndex: nat, unloadOrder: nat)

  /** An insertion-ordered map from ids: a repeated id keeps its place and takes the new value. */
  function Put(entries: seq<Entry>, e: Entry): seq<Entry> {
    if entries == [] then [e]
    else if entries[0].loadBlockId == e.loadBlockId then [e] + entries[1..]
    else [entries[0]] + Put(entries[1..], e)
  }

  datatype Filling = Filling(built: seq<SliceBuilder>, entries: seq<Entry>)

  function Filled(blocks: seq<LoadBlock>, orders: map<string, nat>, cap: Capacity): (f: Filling)
    ensures blocks == [] <==> f.built == []
  {
    if blocks == [] then Filling([], [])
    else
      var before, block := Filled(blocks[..|blocks| - 1], orders, cap), blocks[|blocks| - 1];
      var built := Place(before.built, block, cap);
      Filling(built, Put(before.entries, Entry(block.loadBlockId, |built| - 1, OrderOf(block, orders))))
  }

  /** The deepest slice was built first; slices come out rear first. */
  function Slices(built: seq<SliceBuilder>, cap: Capacity): seq<TrailerSlice> {
    seq(|built|, d requires 0 <= d < |built| =>
      var b := built[|built| - 1 - d]; TrailerSlice(d, cap, b.usedVolume, b.usedWeight, b.loadBlockIds))
  }

  function PlacementOf(e: Entry, sliceCount: nat): Placement {
    Placement(e.loadBlockId, sliceCount - 1 - e.sliceIndex, e.unloadOrder)
  }

  function KeyedPlacements(f: Filling): seq<S.Keyed<Placement>> {
    seq(|f.entries|, i requires 0 <= i < |f.entries| =>
      S.Keyed(0, 0, f.entries[i].loadBlockId, PlacementOf(f.entries[i], |f.built|)))
  }

  /** One placement per id, in the order of the ids. */
  function Placements(f: Filling): seq<Placement> {
    S.Items(S.Sort(KeyedPlacements(f)))
  }

  lemma NothingFilled(orders: map<string, nat>, cap: Capacity)
    ensures Filled([], orders, cap) == Filling([], [])
  {
  }

  lemma FilledOneMore(blocks: seq<LoadBlock>, i: nat, orders: map<string, nat>, cap: Capacity)
    requires i < |blocks|
    ensures var before, built := Filled(blocks[..i], orders, cap), Place(Filled(blocks[..i], orders, cap).built, blocks[i], cap);
      built != [] && Filled(blocks[..i + 1], orders, cap)
        == Filling(built, Put(before.entries, Entry(blocks[i].loadBlockId, |built| - 1, OrderOf(blocks[i], orders))))
  {
    hide Put, FitsIn, With, OrderOf;
    assert blocks[..i + 1][..i] == blocks[..i];
  }

  /** Placing is opening a slice when needed and then adding to the last. */
  lemma PlacedInPlace(built: seq<SliceBuilder>, block: LoadBlock, cap: Capacity)
    ensures var ready := if built == [] || !FitsIn(built[|built| - 1], block, cap) then built + [EMPTY_SLICE] else built;
      ready != [] && Place(built, block, cap) == ready[|ready| - 1 := With(ready[|ready| - 1], block)]
  {
    hide FitsIn, With;
  }

  method FillSlices(blocks: seq<LoadBlock>, orders: map<string, nat>, cap: Capacity)
    returns (slices: seq<TrailerSlice>, placements: seq<Placement>)
    ensures var f := Filled(blocks, orders, cap); slices == Slices(f.built, cap) && placements == Placements(f)
  {
    hide Put, FitsIn, With, S.Sort, OrderOf, Place, Filled;
    var built: seq<SliceBuilder> := [];
    var entries: seq<Entry> := [];
    NothingFilled(orders, cap);
    for i := 0 to |blocks|
      invariant Filling(built, entries) == Filled(blocks[..i], orders, cap)
    {
      var block := blocks[i];
      FilledOneMore(blocks, i, orders, cap);
      PlacedInPlace(built, block, cap);
      ghost var placed := Place(built, block, cap);
      if |built| == 0 || !FitsIn(built[|built| - 1], block, cap) {
        built := built + [EMPTY_SLICE];
      }
      built := built[|built| - 1 := With(built[|built| - 1], block)];
      assert built == placed;
      entries := Put(entries, Entry(block.loadBlockId, |built| - 1, OrderOf(block, orders)));
    }
    assert blocks[..|blocks|] == blocks;
    slices := Slices(built, cap);
    placements := Placements(Filling(built, entries));
  }

  // ----- The two planners -----------------------------------------------------------------------

  function KeyedByOrder(blocks: seq<LoadBlock>, orders: map<string, nat>): seq<S.Keyed<LoadBlock>> {
    seq(|blocks|, i requires 0 <= i < |blocks| => S.Keyed(0 - OrderOf(blocks[i], orders) as int, 0, blocks[i].loadBlockId, blocks[i]))
  }

  /** Latest unload first, ids ascending within one stop. */
  function Ordered(blocks: seq<LoadBlock>, orders: map<string, nat>): seq<LoadBlock> {
    S.Items(S.Sort(KeyedByOrder(blocks, orders)))
  }

  function KeyedById(blocks: seq<LoadBlock>): seq<S.Keyed<LoadBlock>> {
    seq(|blocks|, i requires 0 <= i < |blocks| => S.Keyed(0, 0, blocks[i].loadBlockId, blocks[i]))
  }

  /** Arrival order, blind to the route. */
  function Fifo(blocks: seq<LoadBlock>): seq<LoadBlock> {
    S.Items(S.Sort(KeyedById(blocks)))
  }

  ghost predicate PlanOf(plan: LoadPlan, ordered: seq<LoadBlock>, route: seq<RouteStop>, config: PlannerConfig) {
    var f := Filled(ordered, UnloadOrders(route), SliceCapacities(config));
    plan.slices == Slices(f.built, SliceCapacities(config)) && plan.placements == Placements(f)
  }

  /** A malformed stop makes both planners throw. */
  method PlanLoad(blocks: seq<LoadBlock>, route: seq<RouteStop>, config: PlannerConfig) returns (r: Option<LoadPlan>)
    ensures r.Some? <==> forall s :: s in route ==> WellFormed(s)
    ensures r.Some? ==> PlanOf(r.value, Ordered(blocks, UnloadOrders(route)), route, config)
  {
    var orders := BuildUnloadOrderMap(route);
    if orders.None? { return None; }
    var slices, placements := FillSlices(Ordered(blocks, orders.value), orders.value, SliceCapacities(config));
    r := Some(LoadPlan("TRAILER-1", slices, placements));
  }

  method BaselinePlan(blocks: seq<LoadBlock>, route: seq<RouteStop>, config: PlannerConfig) returns (r: Option<LoadPlan>)
    ensures r.Some? <==> forall s :: s in route ==> WellFormed(s)
    ensures r.Some? ==> PlanOf(r.value, Fifo(blocks), route, config)
  {
    var orders := BuildUnloadOrderMap(route);
    if orders.None? { return None; }
    var slices, placements := FillSlices(Fifo(blocks), orders.value, SliceCapacities(config));
    r := Some(LoadPlan("TRAILER-BASELINE-1", slices, placements));
  }
}
