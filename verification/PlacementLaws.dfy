/**
 * The placements a load plan lists beside its slices: one per id, in the order of the ids, at the slice
 * nearest the door that holds the id, with the unload order of the last block that carried it; so the
 * planner's own list keeps the LIFO rule that the validator checks on the slices.
 */
module PlacementLaws {
  import opened PlanningTypes
  import opened LoadPlanner
  import opened LoadValidator
  import opened LoadLaws
  import N = NextFit
  import S = Sorting
  import U = UnloadLaws

  // ----- The order in which blocks are placed -----------------------------------------------------

  /** The planner places the freight of later stops first, by id within a stop; the baseline by id alone. */
  lemma PlacedInOrder(blocks: seq<LoadBlock>, orders: map<string, nat>)
    ensures var o := Ordered(blocks, orders);
      forall p, q :: 0 <= p < q < |o| ==>
        || OrderOf(o[p], orders) > OrderOf(o[q], orders)
        || (OrderOf(o[p], orders) == OrderOf(o[q], orders) && !S.Less(o[q].loadBlockId, o[p].loadBlockId))
    ensures var o := Fifo(blocks); forall p, q :: 0 <= p < q < |o| ==> !S.Less(o[q].loadBlockId, o[p].loadBlockId)
  {
    hide S.Sort, S.Less;
    var keyed, byId := KeyedByOrder(blocks, orders), KeyedById(blocks);
    var sorted, plain := S.Sort(keyed), S.Sort(byId);
    S.SortSorted(keyed);
    S.SortSorted(byId);
    forall k | 0 <= k < |sorted|
      ensures sorted[k].rank == 0 - OrderOf(sorted[k].item, orders) as int && sorted[k].tie == 0 && sorted[k].name == sorted[k].item.loadBlockId {
      S.SortHasSame(keyed, sorted[k]);
    }
    forall k | 0 <= k < |plain| ensures plain[k].rank == 0 && plain[k].tie == 0 && plain[k].name == plain[k].item.loadBlockId {
      S.SortHasSame(byId, plain[k]);
    }
    forall p, q | 0 <= p < q < |sorted|
      ensures || OrderOf(sorted[p].item, orders) > OrderOf(sorted[q].item, orders)
              || (OrderOf(sorted[p].item, orders) == OrderOf(sorted[q].item, orders)
                  && !S.Less(sorted[q].item.loadBlockId, sorted[p].item.loadBlockId)) {
      assert !S.Before(sorted[q], sorted[p]);
    }
    forall p, q | 0 <= p < q < |plain| ensures !S.Less(plain[q].item.loadBlockId, plain[p].item.loadBlockId) {
      assert !S.Before(plain[q], plain[p]);
    }
  }

  // ----- The map from ids to slices -------------------------------------------------------------

  ghost predicate OncePerId(entries: seq<Entry>) {
    forall i, j :: 0 <= i < j < |entries| ==> entries[i].loadBlockId != entries[j].loadBlockId
  }

  lemma {:induction false} PutReplaces(entries: seq<Entry>, e: Entry)
    requires OncePerId(entries)
    ensures OncePerId(Put(entries, e))
    ensures forall x :: x in Put(entries, e) <==> x == e || (x in entries && x.loadBlockId != e.loadBlockId)
  {
    if entries != [] {
      var first, rest := entries[0], entries[1..];
      assert entries == [first] + rest;
      assert forall x :: x in rest ==> x.loadBlockId != first.loadBlockId;
      if first.loadBlockId != e.loadBlockId {
        PutReplaces(rest, e);
        var put := Put(rest, e);
        forall j | 0 <= j < |put| ensures put[j].loadBlockId != first.loadBlockId { assert put[j] in put; }
      }
    }
  }

  predicate NearestDoor(built: seq<SliceBuilder>, id: string, k: nat) {
    && k < |built| && id in built[k].loadBlockIds
    && forall j :: k < j < |built| ==> id !in built[j].loadBlockIds
  }

  /** The last of the blocks that carry the id stands at `i`. */
  ghost predicate LastCarrier(blocks: seq<LoadBlock>, id: string, i: int) {
    0 <= i < |blocks| && blocks[i].loadBlockId == id && forall j :: i < j < |blocks| ==> blocks[j].loadBlockId != id
  }

  ghost predicate Tracked(f: Filling, e: Entry, blocks: seq<LoadBlock>, orders: map<string, nat>) {
    && NearestDoor(f.built, e.loadBlockId, e.sliceIndex)
    && exists i :: LastCarrier(blocks, e.loadBlockId, i) && e.unloadOrder == OrderOf(blocks[i], orders)
  }

  ghost predicate Listed(entries: seq<Entry>, id: string) {
    exists e :: e in entries && e.loadBlockId == id
  }

  lemma PlaceKeepsNearest(built: seq<SliceBuilder>, block: LoadBlock, cap: N.Capacity, id: string, k: nat)
    ensures NearestDoor(Place(built, block, cap), block.loadBlockId, |Place(built, block, cap)| - 1)
    ensures id != block.loadBlockId && NearestDoor(built, id, k) ==> NearestDoor(Place(built, block, cap), id, k)
  {
    hide FitsIn;
  }

  lemma CarrierStays(front: seq<LoadBlock>, last: LoadBlock, id: string, i: int)
    requires LastCarrier(front, id, i) && last.loadBlockId != id
    ensures LastCarrier(front + [last], id, i)
  {
  }

  ghost predicate Follows(f: Filling, blocks: seq<LoadBlock>, orders: map<string, nat>) {
    && OncePerId(f.entries)
    && (forall e :: e in f.entries ==> Tracked(f, e, blocks, orders))
    && (forall b :: b in blocks ==> Listed(f.entries, b.loadBlockId))
  }

  lemma TrackedStays(before: Filling, f: Filling, e: Entry, front: seq<LoadBlock>, last: LoadBlock, orders: map<string, nat>, cap: N.Capacity)
    requires f.built == Place(before.built, last, cap)
    requires Tracked(before, e, front, orders) && e.loadBlockId != last.loadBlockId
    ensures Tracked(f, e, front + [last], orders)
  {
    PlaceKeepsNearest(before.built, last, cap, e.loadBlockId, e.sliceIndex);
    hide Place, OrderOf, NearestDoor;
    var i :| LastCarrier(front, e.loadBlockId, i) && e.unloadOrder == OrderOf(front[i], orders);
    CarrierStays(front, last, e.loadBlockId, i);
  }

  lemma NewestTracked(before: Filling, f: Filling, front: seq<LoadBlock>, last: LoadBlock, orders: map<string, nat>, cap: N.Capacity)
    requires f.built == Place(before.built, last, cap)
    ensures f.built != [] && Tracked(f, Entry(last.loadBlockId, |f.built| - 1, OrderOf(last, orders)), front + [last], orders)
  {
    PlaceKeepsNearest(before.built, last, cap, last.loadBlockId, 0);
    assert LastCarrier(front + [last], last.loadBlockId, |front|);
  }

  lemma FollowsOneMore(before: Filling, f: Filling, front: seq<LoadBlock>, last: LoadBlock, orders: map<string, nat>, cap: N.Capacity)
    requires Follows(before, front, orders) && f.built == Place(before.built, last, cap) && f.built != []
    requires f.entries == Put(before.entries, Entry(last.loadBlockId, |f.built| - 1, OrderOf(last, orders)))
    ensures Follows(f, front + [last], orders)
  {
    hide Place, Put, OrderOf, Tracked;
    var mine := Entry(last.loadBlockId, |f.built| - 1, OrderOf(last, orders));
    PutReplaces(before.entries, mine);
    NewestTracked(before, f, front, last, orders, cap);
    forall e | e in f.entries ensures Tracked(f, e, front + [last], orders) {
      if e != mine { TrackedStays(before, f, e, front, last, orders, cap); }
    }
    forall b | b in front + [last] ensures Listed(f.entries, b.loadBlockId) {
      if b.loadBlockId == last.loadBlockId {
        assert mine in f.entries;
      } else {
        var e :| e in before.entries && e.loadBlockId == b.loadBlockId;
        assert e in f.entries;
      }
    }
  }

  lemma {:induction false} EntriesFollow(blocks: seq<LoadBlock>, orders: map<string, nat>, cap: N.Capacity)
    ensures Follows(Filled(blocks, orders, cap), blocks, orders)
  {
    if blocks != [] {
      var front, last := blocks[..|blocks| - 1], blocks[|blocks| - 1];
      assert front + [last] == blocks;
      EntriesFollow(front, orders, cap);
      hide Place, Put, OrderOf, Follows;
      FollowsOneMore(Filled(front, orders, cap), Filled(blocks, orders, cap), front, last, orders, cap);
    }
  }

  // ----- The list of placements -----------------------------------------------------------------

  /** The placement of the id: the slice nearest the door that holds it and the order of its last carrier. */
  ghost predicate Stands(p: Placement, slices: seq<TrailerSlice>, ordered: seq<LoadBlock>, orders: map<string, nat>) {
    && 0 <= p.depth < |slices| && slices[p.depth].depth == p.depth && p.loadBlockId in slices[p.depth].loadBlockIds
    && (forall d :: 0 <= d < p.depth ==> p.loadBlockId !in slices[d].loadBlockIds)
    && exists i :: LastCarrier(ordered, p.loadBlockId, i) && p.unloadOrder == OrderOf(ordered[i], orders)
  }

  lemma TrackedStands(f: Filling, e: Entry, ordered: seq<LoadBlock>, orders: map<string, nat>, cap: N.Capacity)
    requires Tracked(f, e, ordered, orders)
    ensures Stands(PlacementOf(e, |f.built|), Slices(f.built, cap), ordered, orders)
  {
    var slices, p := Slices(f.built, cap), PlacementOf(e, |f.built|);
    forall d | 0 <= d < p.depth ensures p.loadBlockId !in slices[d].loadBlockIds {
      assert slices[d].loadBlockIds == f.built[|f.built| - 1 - d].loadBlockIds;
    }
    assert slices[p.depth].loadBlockIds == f.built[e.sliceIndex].loadBlockIds;
  }

  lemma NamesAreIds(f: Filling)
    requires OncePerId(f.entries)
    ensures S.DistinctNames(KeyedPlacements(f))
    ensures forall p :: p in Placements(f) ==> exists e :: e in f.entries && p == PlacementOf(e, |f.built|)
    ensures forall e :: e in f.entries ==> PlacementOf(e, |f.built|) in Placements(f)
    ensures forall i, j :: 0 <= i < j < |Placements(f)| ==> S.Less(Placements(f)[i].loadBlockId, Placements(f)[j].loadBlockId)
  {
    hide S.Sort, S.Less;
    var keyed := KeyedPlacements(f);
    var sorted := S.Sort(keyed);
    S.SortDistinct(keyed);
    forall i | 0 <= i < |sorted|
      ensures sorted[i].rank == 0 && sorted[i].tie == 0 && sorted[i].name == sorted[i].item.loadBlockId
      ensures exists e :: e in f.entries && sorted[i].item == PlacementOf(e, |f.built|) {
      S.SortHasSame(keyed, sorted[i]);
      var k :| 0 <= k < |keyed| && keyed[k] == sorted[i];
      assert f.entries[k] in f.entries;
    }
    forall p | p in Placements(f) ensures exists e :: e in f.entries && p == PlacementOf(e, |f.built|) {
      var i :| 0 <= i < |sorted| && sorted[i].item == p;
    }
    forall e | e in f.entries ensures PlacementOf(e, |f.built|) in Placements(f) {
      var k :| 0 <= k < |f.entries| && f.entries[k] == e;
      S.SortHasSame(keyed, keyed[k]);
      var i :| 0 <= i < |sorted| && sorted[i] == keyed[k];
      assert Placements(f)[i] == PlacementOf(e, |f.built|);
    }
    forall i, j | 0 <= i < j < |sorted| ensures S.Less(sorted[i].item.loadBlockId, sorted[j].item.loadBlockId) {
      assert S.Before(sorted[i], sorted[j]);
    }
  }

  /**
   * Either planner lists one placement for every id, in the order of the ids: at the slice nearest the door
   * that holds the id, with the unload order of the last block that carries it.
   */
  lemma OnePlacementPerId(plan: LoadPlan, ordered: seq<LoadBlock>, route: seq<RouteStop>, config: PlannerConfig)
    requires PlanOf(plan, ordered, route, config)
    ensures forall i, j :: 0 <= i < j < |plan.placements| ==>
      S.Less(plan.placements[i].loadBlockId, plan.placements[j].loadBlockId)
    ensures forall p :: p in plan.placements ==> Stands(p, plan.slices, ordered, UnloadOrders(route))
    ensures forall b :: b in ordered ==> exists p :: p in plan.placements && p.loadBlockId == b.loadBlockId
  {
    var orders, cap := UnloadOrders(route), SliceCapacities(config);
    hide UnloadOrders, Filled, Placements, Slices, OrderOf, S.Less;
    var f := Filled(ordered, orders, cap);
    EntriesFollow(ordered, orders, cap);
    NamesAreIds(f);
    forall p | p in plan.placements ensures Stands(p, plan.slices, ordered, orders) {
      var e :| e in f.entries && p == PlacementOf(e, |f.built|);
      TrackedStands(f, e, ordered, orders, cap);
    }
    forall b | b in ordered ensures exists p :: p in plan.placements && p.loadBlockId == b.loadBlockId {
      assert Listed(f.entries, b.loadBlockId);
      var e :| e in f.entries && e.loadBlockId == b.loadBlockId;
      assert PlacementOf(e, |f.built|) in plan.placements;
    }
  }

  // ----- The planner's own list keeps the rule -------------------------------------------------

  lemma {:induction false} SliceListsItsIds(slices: seq<TrailerSlice>, d: nat, id: string, hubs: map<string, string>, orders: map<string, nat>)
    requires d < |slices| && id in slices[d].loadBlockIds && id in hubs
    ensures Placement(id, slices[d].depth, OrderOfHub(hubs[id], orders)) in SlicePlacements(slices, hubs, orders)
  {
    var front, last := slices[..|slices| - 1], slices[|slices| - 1];
    InSliceMembers(last.depth, last.loadBlockIds, hubs, orders);
    if d < |front| { SliceListsItsIds(front, d, id, hubs, orders); }
  }

  /** What the plan lists is among what the validator derives from its slices. */
  lemma ListedIsDerived(plan: LoadPlan, blocks: seq<LoadBlock>, route: seq<RouteStop>, config: PlannerConfig, p: Placement)
    requires PlanOf(plan, Ordered(blocks, UnloadOrders(route)), route, config) && OneHubPerId(blocks)
    requires p in plan.placements
    ensures p in SlicePlacements(plan.slices, HubById(blocks), UnloadOrders(route))
  {
    hide UnloadOrders, Ordered, PlanOf, SlicePlacements, HubById, OneHubPerId, OrderOf, OrderOfHub;
    var orders := UnloadOrders(route);
    var ordered := Ordered(blocks, orders);
    OnePlacementPerId(plan, ordered, route, config);
    var i :| LastCarrier(ordered, p.loadBlockId, i) && p.unloadOrder == OrderOf(ordered[i], orders);
    HubOfPlaced(blocks, orders, ordered[i]);
    SliceListsItsIds(plan.slices, p.depth, p.loadBlockId, HubById(blocks), orders);
  }

  /** The list the planner returns keeps the LIFO rule, as the slices do. */
  lemma ListedPlanIsLifo(plan: LoadPlan, blocks: seq<LoadBlock>, route: seq<RouteStop>, config: PlannerConfig)
    requires PlanOf(plan, Ordered(blocks, UnloadOrders(route)), route, config) && OneHubPerId(blocks)
    ensures CanonicalInvariant(plan.placements)
  {
    var derived := SlicePlacements(plan.slices, HubById(blocks), UnloadOrders(route));
    PlanIsLifo(plan, blocks, route, config);
    forall p | p in plan.placements ensures p in derived { ListedIsDerived(plan, blocks, route, config, p); }
    hide UnloadOrders, Ordered, PlanOf, SlicePlacements, HubById, OneHubPerId;
    forall i, j | 0 <= i < |plan.placements| && 0 <= j < |plan.placements| ensures InOrder(plan.placements[i], plan.placements[j]) {
      assert plan.placements[i] in derived && plan.placements[j] in derived;
      var a :| 0 <= a < |derived| && derived[a] == plan.placements[i];
      var b :| 0 <= b < |derived| && derived[b] == plan.placements[j];
      assert InOrder(derived[a], derived[b]);
    }
  }

  // ----- Read off the route ---------------------------------------------------------------------

  /** A stop reached first has the lower order, against a stop reached later and against no stop at all. */
  lemma ReachedFirstIsLower(route: seq<RouteStop>, a: LoadBlock, b: LoadBlock)
    requires U.ReachedFirst(route, a.key.nextUnloadHubId, b.key.nextUnloadHubId)
    ensures OrderOf(a, UnloadOrders(route)) < OrderOf(b, UnloadOrders(route))
  {
    var g, h := a.key.nextUnloadHubId, b.key.nextUnloadHubId;
    var orders := UnloadOrders(route);
    OnRoute(route, g);
    U.NumberIsDense(Ranked(route));
    if h in orders { U.LowerOrderMeansReachedFirst(route, g, h); }
  }

  lemma OnRoute(route: seq<RouteStop>, g: string)
    requires exists i :: 0 <= i < |route| && route[i].hubId == g
    ensures g in UnloadOrders(route)
  {
    hide S.Sort, Number;
    var i :| 0 <= i < |route| && route[i].hubId == g;
    U.NumberIsDense(Ranked(route));
    var keyed := KeyedStops(route);
    S.SortHasSame(keyed, keyed[i]);
    var k :| 0 <= k < |S.Sort(keyed)| && S.Sort(keyed)[k] == keyed[i];
    assert Ranked(route)[k] == route[i] && Ranked(route)[k] in Ranked(route);
  }

  /** The block of the list behind an id in a slice. */
  lemma SlicedBlock(plan: LoadPlan, ordered: seq<LoadBlock>, route: seq<RouteStop>, config: PlannerConfig, d: nat, id: string) returns (x: LoadBlock)
    requires PlanOf(plan, ordered, route, config) && d < |plan.slices| && id in plan.slices[d].loadBlockIds
    ensures var chunks := GreedyChunks(ordered, SliceCapacities(config));
      |chunks| == |plan.slices| && x in chunks[|chunks| - 1 - d] && x in ordered && x.loadBlockId == id
  {
    hide PlanOf, GreedyChunks, N.Volume, N.Weight, SliceCapacities;
    EveryBlockInOneSlice(plan, ordered, route, config);
    var chunks := GreedyChunks(ordered, SliceCapacities(config));
    var run := chunks[|chunks| - 1 - d];
    assert Holds(plan.slices[d], d, run);
    var k :| 0 <= k < |run| && IdsOf(run)[k] == id;
    x := run[k];
    InFlat(chunks, |chunks| - 1 - d, x);
  }

  /**
   * In the planner's layout freight for a hub the trailer reaches first stands no further from the door
   * than freight for a hub it reaches later, or never.
   */
  lemma FirstReachedNearestDoor(plan: LoadPlan, blocks: seq<LoadBlock>, route: seq<RouteStop>, config: PlannerConfig,
                                a: LoadBlock, b: LoadBlock, d: nat, e: nat)
    requires PlanOf(plan, Ordered(blocks, UnloadOrders(route)), route, config) && OneHubPerId(blocks)
    requires a in blocks && b in blocks && U.ReachedFirst(route, a.key.nextUnloadHubId, b.key.nextUnloadHubId)
    requires d < |plan.slices| && a.loadBlockId in plan.slices[d].loadBlockIds
    requires e < |plan.slices| && b.loadBlockId in plan.slices[e].loadBlockIds
    ensures d <= e && plan.slices[d].depth == d && plan.slices[e].depth == e
  {
    hide UnloadOrders, Ordered, PlanOf, GreedyChunks, U.ReachedFirst, SliceCapacities;
    var orders := UnloadOrders(route);
    var ordered := Ordered(blocks, orders);
    var chunks := GreedyChunks(ordered, SliceCapacities(config));
    ReachedFirstIsLower(route, a, b);
    EveryBlockInOneSlice(plan, ordered, route, config);
    var x := SlicedBlock(plan, ordered, route, config, d, a.loadBlockId);
    var y := SlicedBlock(plan, ordered, route, config, e, b.loadBlockId);
    SameHubSameOrder(blocks, orders, x, a);
    SameHubSameOrder(blocks, orders, y, b);
    OrderedDescends(blocks, orders);
    assert Holds(plan.slices[d], d, chunks[|chunks| - 1 - d]) && Holds(plan.slices[e], e, chunks[|chunks| - 1 - e]);
    if d > e { ChunkAt(chunks, |chunks| - 1 - d, x, |chunks| - 1 - e, y, orders); }
  }

  lemma SameHubSameOrder(blocks: seq<LoadBlock>, orders: map<string, nat>, x: LoadBlock, a: LoadBlock)
    requires OneHubPerId(blocks) && x in Ordered(blocks, orders) && a in blocks && x.loadBlockId == a.loadBlockId
    ensures OrderOf(x, orders) == OrderOf(a, orders)
  {
    hide Ordered;
    PlannersPermute(blocks, orders);
    assert x in multiset(Ordered(blocks, orders));
    assert x in blocks;
  }
}
