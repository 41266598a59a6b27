/**
 * Laws of the load pipeline: what the unload-order map ranks, why the greedy fill is optimal and
 * conserves freight, and why the validator, the simulated unload and the LIFO rule agree.
 */
module LoadLaws {
  import opened PlanningTypes
  import opened LoadPlanner
  import opened LoadValidator
  import N = NextFit
  import S = Sorting

  // ----- Filling is the greedy cut ------------------------------------------------------------

  function LoadsOf(blocks: seq<LoadBlock>): seq<N.Load> {
    seq(|blocks|, i requires 0 <= i < |blocks| => N.Load(blocks[i].totalVolume, blocks[i].totalWeight))
  }

  function IdsOf(blocks: seq<LoadBlock>): seq<string> {
    seq(|blocks|, i requires 0 <= i < |blocks| => blocks[i].loadBlockId)
  }

  function BuilderOf(run: seq<LoadBlock>): SliceBuilder {
    SliceBuilder(N.Volume(LoadsOf(run)), N.Weight(LoadsOf(run)), IdsOf(run))
  }

  /** The list cut at the given lengths. */
  function Chunks(blocks: seq<LoadBlock>, lengths: seq<nat>): seq<seq<LoadBlock>> {
    if lengths == [] || lengths[0] > |blocks| then []
    else [blocks[..lengths[0]]] + Chunks(blocks[lengths[0]..], lengths[1..])
  }

  function GreedyChunks(blocks: seq<LoadBlock>, cap: N.Capacity): seq<seq<LoadBlock>> {
    Chunks(blocks, N.Runs(LoadsOf(blocks), cap))
  }

  function BuildersOf(chunks: seq<seq<LoadBlock>>): seq<SliceBuilder> {
    seq(|chunks|, i requires 0 <= i < |chunks| => BuilderOf(chunks[i]))
  }

  function Flat(chunks: seq<seq<LoadBlock>>): seq<LoadBlock> {
    if chunks == [] then [] else chunks[0] + Flat(chunks[1..])
  }

  /** `Filled` run forwards from a state of the loop. */
  function FillOn(built: seq<SliceBuilder>, blocks: seq<LoadBlock>, cap: N.Capacity): seq<SliceBuilder>
    decreases blocks
  {
    if blocks == [] then built else FillOn(Place(built, blocks[0], cap), blocks[1..], cap)
  }

  lemma {:induction false} FillOnLast(built: seq<SliceBuilder>, blocks: seq<LoadBlock>, last: LoadBlock, cap: N.Capacity)
    ensures FillOn(built, blocks + [last], cap) == Place(FillOn(built, blocks, cap), last, cap)
    decreases blocks
  {
    hide Place;
    if blocks == [] {
      assert [] + [last] == [last] && [last][1..] == [];
    } else {
      FillOnLast(Place(built, blocks[0], cap), blocks[1..], last, cap);
      assert (blocks + [last])[1..] == blocks[1..] + [last];
    }
  }

  lemma {:induction false} FilledForwards(blocks: seq<LoadBlock>, orders: map<string, nat>, cap: N.Capacity)
    ensures Filled(blocks, orders, cap).built == FillOn([], blocks, cap)
  {
    hide Place, Put;
    if blocks != [] {
      FilledForwards(blocks[..|blocks| - 1], orders, cap);
      FillOnLast([], blocks[..|blocks| - 1], blocks[|blocks| - 1], cap);
      assert blocks[..|blocks| - 1] + [blocks[|blocks| - 1]] == blocks;
    }
  }

  lemma SumsOfOneMore(run: seq<LoadBlock>, block: LoadBlock)
    ensures BuilderOf(run + [block]) == With(BuilderOf(run), block)
  {
    assert LoadsOf(run + [block]) == LoadsOf(run) + [N.Load(block.totalVolume, block.totalWeight)];
    N.SumsOfJoined(LoadsOf(run), [N.Load(block.totalVolume, block.totalWeight)]);
    N.SingletonSums(N.Load(block.totalVolume, block.totalWeight));
    assert IdsOf(run + [block]) == IdsOf(run) + [block.loadBlockId];
  }

  lemma SumsOfOne(block: LoadBlock)
    ensures BuilderOf([block]) == With(EMPTY_SLICE, block)
  {
    SumsOfOneMore([], block);
    assert [] + [block] == [block];
  }

  function UsedBy(b: SliceBuilder): N.Load {
    N.Load(b.usedVolume, b.usedWeight)
  }

  lemma JoiningStep(b: SliceBuilder, blocks: seq<LoadBlock>, cap: N.Capacity)
    requires blocks != []
    ensures N.Joining(LoadsOf(blocks), cap, UsedBy(b))
         == if FitsIn(b, blocks[0], cap) then 1 + N.Joining(LoadsOf(blocks[1..]), cap, UsedBy(With(b, blocks[0]))) else 0
  {
    assert LoadsOf(blocks)[1..] == LoadsOf(blocks[1..]);
  }

  lemma PlaceOnLast(done: seq<SliceBuilder>, b: SliceBuilder, block: LoadBlock, cap: N.Capacity)
    ensures Place(done + [b], block, cap)
         == if FitsIn(b, block, cap) then done + [With(b, block)] else done + [b] + [With(EMPTY_SLICE, block)]
  {
    assert (done + [b])[..|done|] == done;
  }

  /** With the slice `run` open, the loop extends it by what joins and then starts afresh. */
  lemma {:induction false} FillContinues(done: seq<SliceBuilder>, run: seq<LoadBlock>, blocks: seq<LoadBlock>, cap: N.Capacity)
    requires run != []
    ensures var n := N.Joining(LoadsOf(blocks), cap, UsedBy(BuilderOf(run)));
      n <= |blocks|
      && FillOn(done + [BuilderOf(run)], blocks, cap)
         == done + [BuilderOf(run + blocks[..n])] + BuildersOf(GreedyChunks(blocks[n..], cap))
    decreases |blocks|
  {
    hide BuilderOf, GreedyChunks, N.Joining, Place, With, FitsIn, UsedBy, BuildersOf;
    var b := BuilderOf(run);
    var n := N.Joining(LoadsOf(blocks), cap, UsedBy(b));
    if blocks == [] {
      assert run + blocks[..0] == run;
      NoChunks(cap);
    } else {
      var first, rest := blocks[0], blocks[1..];
      JoiningStep(b, blocks, cap);
      PlaceOnLast(done, b, first, cap);
      if n > 0 {
        SumsOfOneMore(run, first);
        FillContinues(done, run + [first], rest, cap);
        assert run + [first] + rest[..n - 1] == run + blocks[..n];
        assert rest[n - 1..] == blocks[n..];
      } else {
        SumsOfOne(first);
        FillContinues(done + [b], [first], rest, cap);
        FreshRun(blocks, cap);
        FirstLoad(first);
        assert LoadsOf([first])[0] == LoadsOf(blocks)[0];
        assert run + blocks[..0] == run && blocks[0..] == blocks;
        JoinedAssociate(done, b, BuildersOf(GreedyChunks(blocks, cap)));
      }
    }
  }

  lemma JoinedAssociate(done: seq<SliceBuilder>, b: SliceBuilder, more: seq<SliceBuilder>)
    requires more != []
    ensures done + [b] + [more[0]] + more[1..] == done + [b] + more
  {
  }

  lemma FreshRun(blocks: seq<LoadBlock>, cap: N.Capacity)
    requires blocks != []
    ensures var m := N.Joining(LoadsOf(blocks[1..]), cap, LoadsOf(blocks)[0]);
      m < |blocks|
      && BuildersOf(GreedyChunks(blocks, cap))
         == [BuilderOf([blocks[0]] + blocks[1..][..m])] + BuildersOf(GreedyChunks(blocks[1..][m..], cap))
  {
    hide BuilderOf;
    var loads := LoadsOf(blocks);
    assert loads[1..] == LoadsOf(blocks[1..]);
    var m := N.Joining(loads[1..], cap, loads[0]);
    assert N.FirstRun(loads, cap) == m + 1;
    assert blocks[..m + 1] == [blocks[0]] + blocks[1..][..m];
    assert blocks[1..][m..] == blocks[m + 1..];
    assert LoadsOf(blocks[m + 1..]) == loads[m + 1..];
    assert GreedyChunks(blocks, cap) == [blocks[..m + 1]] + GreedyChunks(blocks[m + 1..], cap);
  }

  /** The slices the loop builds are exactly the greedy runs of the list. */
  lemma FillIsGreedy(blocks: seq<LoadBlock>, orders: map<string, nat>, cap: N.Capacity)
    ensures Filled(blocks, orders, cap).built == BuildersOf(GreedyChunks(blocks, cap))
  {
    FilledForwards(blocks, orders, cap);
    hide Filled, BuilderOf, GreedyChunks, N.Joining, UsedBy, With;
    if blocks != [] {
      var first, rest := blocks[0], blocks[1..];
      SumsOfOne(first);
      assert [] + [With(EMPTY_SLICE, first)] == [BuilderOf([first])] == [] + [BuilderOf([first])];
      assert FillOn([], blocks, cap) == FillOn([] + [BuilderOf([first])], rest, cap);
      FillContinues([], [first], rest, cap);
      FreshRun(blocks, cap);
      FirstLoad(first);
      assert LoadsOf([first])[0] == LoadsOf(blocks)[0];
      var m := N.Joining(LoadsOf(rest), cap, LoadsOf(blocks)[0]);
      assert [] + [BuilderOf([first] + rest[..m])] == [BuilderOf([first] + rest[..m])];
    } else {
      NoChunks(cap);
    }
  }

  lemma NoChunks(cap: N.Capacity)
    ensures BuildersOf(GreedyChunks([], cap)) == []
  {
  }

  lemma FirstLoad(block: LoadBlock)
    ensures UsedBy(BuilderOf([block])) == LoadsOf([block])[0]
  {
    SumsOfOne(block);
  }

  // ----- Every block in one slice, totals are sums, slices are fewest ---------------------------

  lemma {:induction false} ChunksCover(blocks: seq<LoadBlock>, cap: N.Capacity)
    ensures Flat(GreedyChunks(blocks, cap)) == blocks
    ensures |GreedyChunks(blocks, cap)| == |N.Runs(LoadsOf(blocks), cap)|
    ensures forall c :: c in GreedyChunks(blocks, cap) ==> c != []
    decreases |blocks|
  {
    if blocks != [] {
      var loads := LoadsOf(blocks);
      var n := N.FirstRun(loads, cap);
      var rest := blocks[n..];
      assert LoadsOf(rest) == loads[n..];
      ChunksCover(rest, cap);
      assert GreedyChunks(blocks, cap) == [blocks[..n]] + GreedyChunks(rest, cap);
      assert blocks[..n] + rest == blocks;
    }
  }

  /** The slice at depth `d` holds exactly `run`, with its totals. */
  ghost predicate Holds(slice: TrailerSlice, d: int, run: seq<LoadBlock>) {
    && slice.depth == d && run != []
    && slice.loadBlockIds == IdsOf(run)
    && slice.usedVolume == N.Volume(LoadsOf(run))
    && slice.usedWeight == N.Weight(LoadsOf(run))
  }

  /**
   * Both planners put every block in exactly one slice, with the slice's used volume and weight
   * the sums over its blocks; read from the nose the slices are the greedy runs.
   */
  lemma EveryBlockInOneSlice(plan: LoadPlan, ordered: seq<LoadBlock>, route: seq<RouteStop>, config: PlannerConfig)
    requires PlanOf(plan, ordered, route, config)
    ensures var chunks := GreedyChunks(ordered, SliceCapacities(config));
      && |plan.slices| == |chunks| && Flat(chunks) == ordered
      && forall d :: 0 <= d < |plan.slices| ==> Holds(plan.slices[d], d, chunks[|chunks| - 1 - d])
    ensures forall slice :: slice in plan.slices ==>
      slice.capacity.volume == config.maxBlockVolume && slice.capacity.weight == 100.0 * config.maxBlockVolume
  {
    hide GreedyChunks, Filled, UnloadOrders;
    FillIsGreedy(ordered, UnloadOrders(route), SliceCapacities(config));
    ChunksCover(ordered, SliceCapacities(config));
    var chunks := GreedyChunks(ordered, SliceCapacities(config));
    forall d | 0 <= d < |plan.slices| ensures Holds(plan.slices[d], d, chunks[|chunks| - 1 - d]) {
      assert chunks[|chunks| - 1 - d] in chunks;
    }
  }

  lemma PlannersPermute(blocks: seq<LoadBlock>, orders: map<string, nat>)
    ensures multiset(Ordered(blocks, orders)) == multiset(blocks) && multiset(Fifo(blocks)) == multiset(blocks)
  {
    S.SortItems(KeyedByOrder(blocks, orders));
    S.SortItems(KeyedById(blocks));
    assert S.Items(KeyedByOrder(blocks, orders)) == blocks && S.Items(KeyedById(blocks)) == blocks;
  }

  /** No way of cutting the planner's own sequence into runs that fit uses fewer slices. */
  lemma SlicesAreFewest(plan: LoadPlan, ordered: seq<LoadBlock>, route: seq<RouteStop>, config: PlannerConfig, lengths: seq<nat>)
    requires PlanOf(plan, ordered, route, config)
    requires N.NonNegative(LoadsOf(ordered)) && N.Cuts(LoadsOf(ordered), lengths, SliceCapacities(config))
    ensures |plan.slices| <= |lengths|
  {
    hide GreedyChunks, Filled, UnloadOrders, N.Cuts, N.Runs;
    EveryBlockInOneSlice(plan, ordered, route, config);
    ChunksCover(ordered, SliceCapacities(config));
    N.GreedyIsOptimal(LoadsOf(ordered), SliceCapacities(config), lengths);
  }

  /** An empty slice takes any block within the volume of one block and a hundred times that in weight, and no other. */
  lemma SliceTakesABlock(block: LoadBlock, config: PlannerConfig)
    ensures FitsIn(EMPTY_SLICE, block, SliceCapacities(config))
       <==> block.totalVolume <= config.maxBlockVolume && block.totalWeight <= config.maxBlockVolume * 100.0
  {
  }

  /** Half the slices, rounded down, is at most the freight measured in whole slices. */
  lemma SlicesAreHalfFull(plan: LoadPlan, ordered: seq<LoadBlock>, route: seq<RouteStop>, config: PlannerConfig)
    requires PlanOf(plan, ordered, route, config) && N.NonNegative(LoadsOf(ordered))
    ensures (|plan.slices| / 2) as real
         <= N.Shares(N.Volume(LoadsOf(ordered)), N.Weight(LoadsOf(ordered)), SliceCapacities(config))
  {
    hide GreedyChunks, Filled, UnloadOrders, N.Runs;
    EveryBlockInOneSlice(plan, ordered, route, config);
    ChunksCover(ordered, SliceCapacities(config));
    N.RunsAreHalfFull(LoadsOf(ordered), SliceCapacities(config));
  }

  // ----- The planner's layout is LIFO ----------------------------------------------------------------

  /** Later in the list means no later in the unload order. */
  ghost predicate Descending(blocks: seq<LoadBlock>, orders: map<string, nat>) {
    forall p, q :: 0 <= p < q < |blocks| ==> OrderOf(blocks[p], orders) >= OrderOf(blocks[q], orders)
  }

  lemma OrderedDescends(blocks: seq<LoadBlock>, orders: map<string, nat>)
    ensures Descending(Ordered(blocks, orders), orders)
  {
    hide S.Sort, S.Less;
    var keyed := KeyedByOrder(blocks, orders);
    var sorted := S.Sort(keyed);
    S.SortSorted(keyed);
    forall k | 0 <= k < |sorted| ensures sorted[k].rank == 0 - OrderOf(sorted[k].item, orders) as int {
      S.SortHasSame(keyed, sorted[k]);
    }
    forall p, q | 0 <= p < q < |sorted|
      ensures OrderOf(S.Items(sorted)[p], orders) >= OrderOf(S.Items(sorted)[q], orders) {
      assert !S.Before(sorted[q], sorted[p]);
    }
  }

  lemma {:induction false} ChunkAt(chunks: seq<seq<LoadBlock>>, i: nat, a: LoadBlock, j: nat, b: LoadBlock, orders: map<string, nat>)
    requires Descending(Flat(chunks), orders) && i < j < |chunks| && a in chunks[i] && b in chunks[j]
    ensures OrderOf(a, orders) >= OrderOf(b, orders)
  {
    hide OrderOf;
    var flat, rest := Flat(chunks), Flat(chunks[1..]);
    assert flat == chunks[0] + rest;
    if i == 0 {
      var p :| 0 <= p < |chunks[0]| && chunks[0][p] == a;
      InFlat(chunks[1..], j - 1, b);
      var q :| 0 <= q < |rest| && rest[q] == b;
      assert flat[p] == a && flat[|chunks[0]| + q] == b;
    } else {
      forall p, q | 0 <= p < q < |rest| ensures OrderOf(rest[p], orders) >= OrderOf(rest[q], orders) {
        assert flat[|chunks[0]| + p] == rest[p] && flat[|chunks[0]| + q] == rest[q];
      }
      ChunkAt(chunks[1..], i - 1, a, j - 1, b, orders);
    }
  }

  lemma {:induction false} InFlat(chunks: seq<seq<LoadBlock>>, i: nat, a: LoadBlock)
    requires i < |chunks| && a in chunks[i]
    ensures a in Flat(chunks)
  {
    if i > 0 { InFlat(chunks[1..], i - 1, a); }
  }

  /** Ids that repeat name blocks bound for the same hub, so that an id has one unload order. */
  ghost predicate OneHubPerId(blocks: seq<LoadBlock>) {
    forall a, b :: a in blocks && b in blocks && a.loadBlockId == b.loadBlockId ==>
      a.key.nextUnloadHubId == b.key.nextUnloadHubId
  }

  /** The block an id's hub is read from. */
  lemma {:induction false} HubByIdHas(blocks: seq<LoadBlock>, id: string) returns (b: LoadBlock)
    requires exists x :: x in blocks && x.loadBlockId == id
    ensures id in HubById(blocks) && b in blocks && b.loadBlockId == id && HubById(blocks)[id] == b.key.nextUnloadHubId
  {
    var front, last := blocks[..|blocks| - 1], blocks[|blocks| - 1];
    assert blocks == front + [last] && last in blocks;
    if last.loadBlockId == id {
      b := last;
    } else {
      var x :| x in blocks && x.loadBlockId == id;
      assert x in front;
      b := HubByIdHas(front, id);
    }
  }

  lemma {:induction false} InSliceMembers(depth: int, ids: seq<string>, hubs: map<string, string>, orders: map<string, nat>)
    ensures forall p :: p in InSlice(depth, ids, hubs, orders) ==>
      p.loadBlockId in ids && p.loadBlockId in hubs && p == Placement(p.loadBlockId, depth, OrderOfHub(hubs[p.loadBlockId], orders))
    ensures forall id :: id in ids && id in hubs ==> Placement(id, depth, OrderOfHub(hubs[id], orders)) in InSlice(depth, ids, hubs, orders)
  {
    if ids != [] {
      InSliceMembers(depth, ids[..|ids| - 1], hubs, orders);
      assert ids == ids[..|ids| - 1] + [ids[|ids| - 1]];
    }
  }

  lemma {:induction false} SlicePlacementsMembers(slices: seq<TrailerSlice>, hubs: map<string, string>, orders: map<string, nat>)
    ensures forall p :: p in SlicePlacements(slices, hubs, orders) ==> exists d ::
      0 <= d < |slices| && p.loadBlockId in slices[d].loadBlockIds && p.loadBlockId in hubs
      && p == Placement(p.loadBlockId, slices[d].depth, OrderOfHub(hubs[p.loadBlockId], orders))
  {
    if slices != [] {
      var front, last := slices[..|slices| - 1], slices[|slices| - 1];
      SlicePlacementsMembers(front, hubs, orders);
      InSliceMembers(last.depth, last.loadBlockIds, hubs, orders);
      forall p | p in SlicePlacements(slices, hubs, orders) ensures exists d ::
        0 <= d < |slices| && p.loadBlockId in slices[d].loadBlockIds && p.loadBlockId in hubs
        && p == Placement(p.loadBlockId, slices[d].depth, OrderOfHub(hubs[p.loadBlockId], orders)) {
        if p in SlicePlacements(front, hubs, orders) {
          var d :| 0 <= d < |front| && p.loadBlockId in front[d].loadBlockIds && p.loadBlockId in hubs
            && p == Placement(p.loadBlockId, front[d].depth, OrderOfHub(hubs[p.loadBlockId], orders));
          assert slices[d] == front[d];
        } else {
          assert slices[|slices| - 1] == last;
        }
      }
    }
  }

  /** In the planner's layout whatever unloads earlier stands at least as close to the door. */
  lemma PlanIsLifo(plan: LoadPlan, blocks: seq<LoadBlock>, route: seq<RouteStop>, config: PlannerConfig)
    requires PlanOf(plan, Ordered(blocks, UnloadOrders(route)), route, config) && OneHubPerId(blocks)
    ensures CanonicalInvariant(SlicePlacements(plan.slices, HubById(blocks), UnloadOrders(route)))
  {
    hide UnloadOrders, Ordered, GreedyChunks, SlicePlacements, HubById, Filled, OneHubPerId;
    var orders, hubs := UnloadOrders(route), HubById(blocks);
    var placements := SlicePlacements(plan.slices, hubs, orders);
    var ordered := Ordered(blocks, orders);
    EveryBlockInOneSlice(plan, ordered, route, config);
    OrderedDescends(blocks, orders);
    SlicePlacementsMembers(plan.slices, hubs, orders);
    var chunks := GreedyChunks(ordered, SliceCapacities(config));
    forall i, j | 0 <= i < |placements| && 0 <= j < |placements| ensures InOrder(placements[i], placements[j]) {
      var p, q := placements[i], placements[j];
      var d, a := PlacedBlock(plan, blocks, route, config, p);
      var e, b := PlacedBlock(plan, blocks, route, config, q);
      if p.depth > q.depth {
        ChunkAt(chunks, |chunks| - 1 - d, a, |chunks| - 1 - e, b, orders);
      }
    }
  }

  /** The slice and the block behind a placement the validator derives. */
  lemma PlacedBlock(plan: LoadPlan, blocks: seq<LoadBlock>, route: seq<RouteStop>, config: PlannerConfig, p: Placement)
    returns (d: nat, a: LoadBlock)
    requires PlanOf(plan, Ordered(blocks, UnloadOrders(route)), route, config) && OneHubPerId(blocks)
    requires p in SlicePlacements(plan.slices, HubById(blocks), UnloadOrders(route))
    ensures var orders := UnloadOrders(route);
      var chunks := GreedyChunks(Ordered(blocks, orders), SliceCapacities(config));
      && d < |plan.slices| == |chunks| && p.depth == d
      && a in chunks[|chunks| - 1 - d] && p.unloadOrder == OrderOf(a, orders)
  {
    hide UnloadOrders, Ordered, GreedyChunks, SlicePlacements, HubById, Filled, OneHubPerId, OrderOfHub, OrderOf, N.Volume, N.Weight, SliceCapacities;
    var orders, hubs := UnloadOrders(route), HubById(blocks);
    var ordered := Ordered(blocks, orders);
    var chunks := GreedyChunks(ordered, SliceCapacities(config));
    EveryBlockInOneSlice(plan, ordered, route, config);
    SlicePlacementsMembers(plan.slices, hubs, orders);
    d :| 0 <= d < |plan.slices| && p.loadBlockId in plan.slices[d].loadBlockIds && p.loadBlockId in hubs
      && p == Placement(p.loadBlockId, plan.slices[d].depth, OrderOfHub(hubs[p.loadBlockId], orders));
    var run := chunks[|chunks| - 1 - d];
    assert Holds(plan.slices[d], d, run);
    var k :| 0 <= k < |run| && IdsOf(run)[k] == p.loadBlockId;
    a := run[k];
    InFlat(chunks, |chunks| - 1 - d, a);
    HubOfPlaced(blocks, orders, a);
  }

  /** The validator's order of an id is the order of any block that carries it. */
  lemma HubOfPlaced(blocks: seq<LoadBlock>, orders: map<string, nat>, a: LoadBlock)
    requires a in Ordered(blocks, orders) && OneHubPerId(blocks)
    ensures a.loadBlockId in HubById(blocks)
    ensures OrderOfHub(HubById(blocks)[a.loadBlockId], orders) == OrderOf(a, orders)
  {
    hide Ordered, HubById;
    PlannersPermute(blocks, orders);
    assert a in multiset(Ordered(blocks, orders));
    assert a in blocks;
    var b := HubByIdHas(blocks, a.loadBlockId);
    assert a.key.nextUnloadHubId == b.key.nextUnloadHubId;
  }
}
