/**
 * Conservation through splitting and aggregation: every package id comes out as often as it went in, and
 * volume and weight are unchanged, whichever split applies. Then the shape of the blocks: every member
 * shares the key of its block, no block exceeds the cap unless it is a single package, and the volume
 * bins are the fewest any cut could open.
 */
module AggregationTotals {
  import opened PlanningTypes
  import opened BlockIds
  import opened Aggregation
  import opened AggregationLaws
  import L = LoadLaws
  import N = NextFit
  import P = LoadPlanner
  import S = Sorting

  function AllIds(blocks: seq<LoadBlock>): seq<string> {
    if blocks == [] then [] else AllIds(blocks[..|blocks| - 1]) + blocks[|blocks| - 1].packageIds
  }

  function SumVolume(blocks: seq<LoadBlock>): real {
    if blocks == [] then 0.0 else SumVolume(blocks[..|blocks| - 1]) + blocks[|blocks| - 1].totalVolume
  }

  function SumWeight(blocks: seq<LoadBlock>): real {
    if blocks == [] then 0.0 else SumWeight(blocks[..|blocks| - 1]) + blocks[|blocks| - 1].totalWeight
  }

  /** The blocks hold exactly these packages, each once, and carry their volume and weight. */
  ghost predicate Accounts(blocks: seq<LoadBlock>, ps: Packages) {
    && multiset(AllIds(blocks)) == multiset(IdsOf(ps))
    && SumVolume(blocks) == VolumeOf(ps) && SumWeight(blocks) == WeightOf(ps)
  }

  ghost predicate SameTotals(a: Packages, b: Packages) {
    multiset(IdsOf(a)) == multiset(IdsOf(b)) && VolumeOf(a) == VolumeOf(b) && WeightOf(a) == WeightOf(b)
  }

  // ----- Sums over joined lists -------------------------------------------------------------

  lemma {:induction false} TotalsOfJoined(a: Packages, b: Packages)
    ensures VolumeOf(a + b) == VolumeOf(a) + VolumeOf(b) && WeightOf(a + b) == WeightOf(a) + WeightOf(b)
    ensures IdsOf(a + b) == IdsOf(a) + IdsOf(b)
  {
    if b == [] {
      assert a + b == a;
    } else {
      TotalsOfJoined(a, b[..|b| - 1]);
      assert (a + b)[..|a + b| - 1] == a + b[..|b| - 1];
    }
  }

  lemma OneMoreBlock(blocks: seq<LoadBlock>, b: LoadBlock)
    ensures SumVolume(blocks + [b]) == SumVolume(blocks) + b.totalVolume && SumWeight(blocks + [b]) == SumWeight(blocks) + b.totalWeight
    ensures AllIds(blocks + [b]) == AllIds(blocks) + b.packageIds
  {
    assert (blocks + [b])[..|blocks|] == blocks;
  }

  lemma {:induction false} SumsOfJoined(a: seq<LoadBlock>, b: seq<LoadBlock>)
    ensures SumVolume(a + b) == SumVolume(a) + SumVolume(b) && SumWeight(a + b) == SumWeight(a) + SumWeight(b)
    ensures AllIds(a + b) == AllIds(a) + AllIds(b)
  {
    hide AllIds, SumVolume, SumWeight;
    if b == [] {
      assert a + b == a;
      NoBlocks();
      assert AllIds(a) + [] == AllIds(a);
    } else {
      var front, last := b[..|b| - 1], b[|b| - 1];
      SumsOfJoined(a, front);
      OneMoreBlock(a + front, last);
      OneMoreBlock(front, last);
      assert front + [last] == b && (a + front) + [last] == a + b;
      assert (AllIds(a) + AllIds(front)) + last.packageIds == AllIds(a) + (AllIds(front) + last.packageIds);
    }
  }

  lemma NoBlocks()
    ensures SumVolume([]) == 0.0 && SumWeight([]) == 0.0 && AllIds([]) == []
  {
  }

  lemma AccountsJoin(a: seq<LoadBlock>, p: Packages, b: seq<LoadBlock>, q: Packages)
    requires Accounts(a, p) && Accounts(b, q)
    ensures Accounts(a + b, p + q)
  {
    hide AllIds, SumVolume, SumWeight, VolumeOf, WeightOf;
    TotalsOfJoined(p, q);
    SumsOfJoined(a, b);
  }

  lemma AccountsSame(blocks: seq<LoadBlock>, a: Packages, b: Packages)
    requires Accounts(blocks, a) && SameTotals(a, b)
    ensures Accounts(blocks, b)
  {
  }

  lemma SameTotalsChain(a: Packages, b: Packages, c: Packages)
    requires SameTotals(a, b) && SameTotals(b, c)
    ensures SameTotals(a, c)
  {
  }

  lemma SameTotalsJoin(a: Packages, b: Packages, x: Packages)
    requires SameTotals(a, b)
    ensures SameTotals(a + x, b + x)
  {
    hide VolumeOf, WeightOf, IdsOf;
    TotalsOfJoined(a, x);
    TotalsOfJoined(b, x);
  }

  lemma SameTotalsSwap(a: Packages, x: Packages, y: Packages)
    ensures SameTotals(a + x + y, a + y + x)
  {
    hide VolumeOf, WeightOf, IdsOf;
    TotalsOfJoined(a, x);
    TotalsOfJoined(a, y);
    TotalsOfJoined(a + x, y);
    TotalsOfJoined(a + y, x);
  }

  lemma NothingAccounts()
    ensures Accounts([], [])
  {
  }

  // ----- Building and sorting keep the totals --------------------------------------------------

  lemma {:induction false} InsertIds(sorted: seq<S.Keyed<PlanningPackage>>, x: S.Keyed<PlanningPackage>)
    ensures multiset(IdsOf(S.Items(S.Insert(sorted, x)))) == multiset(IdsOf(S.Items(sorted))) + multiset{x.item.packageId}
  {
    hide S.Before;
    if sorted == [] || !S.Before(x, sorted[|sorted| - 1]) {
      assert IdsOf(S.Items(sorted + [x])) == IdsOf(S.Items(sorted)) + [x.item.packageId];
    } else {
      var front, last := sorted[..|sorted| - 1], sorted[|sorted| - 1];
      InsertIds(front, x);
      assert IdsOf(S.Items(S.Insert(front, x) + [last])) == IdsOf(S.Items(S.Insert(front, x))) + [last.item.packageId];
      assert IdsOf(S.Items(sorted)) == IdsOf(S.Items(front)) + [last.item.packageId];
    }
  }

  lemma {:induction false} SortIds(keyed: seq<S.Keyed<PlanningPackage>>)
    ensures multiset(IdsOf(S.Items(S.Sort(keyed)))) == multiset(IdsOf(S.Items(keyed)))
  {
    hide S.Insert;
    if keyed != [] {
      var front, last := keyed[..|keyed| - 1], keyed[|keyed| - 1];
      SortIds(front);
      InsertIds(S.Sort(front), last);
      assert IdsOf(S.Items(keyed)) == IdsOf(S.Items(front)) + [last.item.packageId];
    }
  }

  lemma SortedSameTotals(ps: Packages)
    ensures SameTotals(SortedMembers(ps), ps)
  {
    hide VolumeOf, WeightOf;
    SortedTotals(ps);
    SortIds(KeyedById(ps));
    assert S.Items(KeyedById(ps)) == ps;
  }

  lemma BuiltAccounts(key: BlockKey, ps: Packages, suffix: string)
    requires ps != []
    ensures Accounts([BuildLoadBlock(key, ps, suffix)], ps)
  {
    hide SortedMembers, VolumeOf, WeightOf, Earliest, BlockId;
    SortedSameTotals(ps);
    var b := BuildLoadBlock(key, ps, suffix);
    assert [b][..0] == [];
    assert AllIds([b]) == AllIds([]) + b.packageIds == b.packageIds;
    assert SumVolume([b]) == SumVolume([]) + b.totalVolume && SumWeight([b]) == SumWeight([]) + b.totalWeight;
  }

  // ----- Splitting keeps the totals -----------------------------------------------------------------

  function FlatBins(bins: seq<Packages>): Packages {
    if bins == [] then [] else FlatBins(bins[..|bins| - 1]) + bins[|bins| - 1]
  }

  lemma FlatOneMore(bins: seq<Packages>, b: Packages)
    ensures FlatBins(bins + [b]) == FlatBins(bins) + b
  {
    assert (bins + [b])[..|bins|] == bins;
  }

  lemma PlacedAtTheEnd(bins: seq<Packages>, p: PlanningPackage, cap: real)
    requires forall b :: b in bins ==> |b| > 0
    ensures FlatBins(PlaceInBin(bins, p, cap)) == FlatBins(bins) + [p]
  {
    hide VolumeOf, FlatBins;
    if bins == [] || VolumeOf(bins[|bins| - 1]) + p.volume > cap {
      FlatOneMore(bins, [p]);
    } else {
      var front, last := bins[..|bins| - 1], bins[|bins| - 1];
      FlatOneMore(front, last);
      FlatOneMore(front, last + [p]);
      assert front + [last] == bins;
    }
  }

  /** The bins read in order are the list they were cut from. */
  lemma {:induction false} BinsCover(ps: Packages, cap: real)
    ensures FlatBins(VolumeBins(ps, cap)) == ps
  {
    hide PlaceInBin;
    if ps != [] {
      BinsCover(ps[..|ps| - 1], cap);
      PlacedAtTheEnd(VolumeBins(ps[..|ps| - 1], cap), ps[|ps| - 1], cap);
      assert ps[..|ps| - 1] + [ps[|ps| - 1]] == ps;
    }
  }

  lemma {:induction false} BinsAccount(key: BlockKey, bins: seq<Packages>, parent: string)
    requires forall b :: b in bins ==> |b| > 0
    ensures Accounts(BuildBins(key, bins, parent), FlatBins(bins))
  {
    hide BuildLoadBlock, Accounts;
    if bins == [] {
      NothingAccounts();
    } else {
      var front, last := bins[..|bins| - 1], bins[|bins| - 1];
      assert last in bins && forall b :: b in front ==> b in bins;
      BinsAccount(key, front, parent);
      BuiltAccounts(key, last, VolumeSuffix(parent, |front|));
      assert BuildBins(key, bins, parent) == BuildBins(key, front, parent) + [BuildBin(key, bins, parent, |front|)];
      AccountsJoin(BuildBins(key, front, parent), FlatBins(front), [BuildBin(key, bins, parent, |front|)], last);
    }
  }

  lemma FeasibleSplitAccounts(key: BlockKey, ps: Packages, config: PlannerConfig, parent: string)
    requires ps != []
    ensures Accounts(SplitFeasible(key, ps, config, parent), ps)
  {
    hide BuildLoadBlock, Accounts, VolumeBins, VolumeOf;
    if VolumeOf(ps) > config.maxBlockVolume {
      BinsCover(ps, config.maxBlockVolume);
      BinsAccount(key, VolumeBins(ps, config.maxBlockVolume), parent);
    } else {
      BuiltAccounts(key, ps, parent);
    }
  }

  lemma {:induction false} GroupsAccount(key: BlockKey, groups: seq<Packages>, config: PlannerConfig)
    requires forall g :: g in groups ==> g != []
    ensures Accounts(SplitGroups(key, groups, config), FlatBins(groups))
  {
    hide SplitFeasible, Accounts;
    if groups == [] {
      NothingAccounts();
    } else {
      var i := |groups| - 1;
      assert groups[i] in groups && forall g :: g in groups[..i] ==> g in groups;
      GroupsAccount(key, groups[..i], config);
      var last := key.(handlingClass := groups[i][0].handlingClass);
      FeasibleSplitAccounts(last, groups[i], config, HandlingSuffix(i));
      AccountsJoin(SplitGroups(key, groups[..i], config), FlatBins(groups[..i]),
                   SplitFeasible(last, groups[i], config, HandlingSuffix(i)), groups[i]);
    }
  }

  /** The three classes of a list, one after the other. */
  function ByClass(ps: Packages): Packages {
    OfClass(ps, Standard) + OfClass(ps, Fragile) + OfClass(ps, Heavy)
  }

  lemma ClassOneMore(ps: Packages, p: PlanningPackage, c: HandlingClass)
    ensures OfClass(ps + [p], c) == if p.handlingClass == c then OfClass(ps, c) + [p] else OfClass(ps, c)
  {
    assert (ps + [p])[..|ps|] == ps;
  }

  lemma ByClassOneMore(ps: Packages, p: PlanningPackage)
    requires SameTotals(ByClass(ps), ps)
    ensures SameTotals(ByClass(ps + [p]), ps + [p])
  {
    hide SameTotals, OfClass;
    var s, f, h := OfClass(ps, Standard), OfClass(ps, Fragile), OfClass(ps, Heavy);
    ClassOneMore(ps, p, Standard);
    ClassOneMore(ps, p, Fragile);
    ClassOneMore(ps, p, Heavy);
    SameTotalsJoin(ByClass(ps), ps, [p]);
    match p.handlingClass
    case Standard =>
      SameTotalsSwap(s, [p], f + h);
      assert s + [p] + (f + h) == ByClass(ps + [p]) && s + (f + h) == ByClass(ps);
      SameTotalsChain(ByClass(ps + [p]), ByClass(ps) + [p], ps + [p]);
    case Fragile =>
      SameTotalsSwap(s + f, [p], h);
      assert s + f + [p] + h == ByClass(ps + [p]);
      SameTotalsChain(ByClass(ps + [p]), ByClass(ps) + [p], ps + [p]);
    case Heavy =>
      assert s + f + (h + [p]) == ByClass(ps) + [p];
  }

  lemma {:induction false} ClassesPartition(ps: Packages)
    ensures SameTotals(ByClass(ps), ps)
  {
    hide SameTotals, ByClass;
    if ps == [] {
      NoClasses();
    } else {
      ClassesPartition(ps[..|ps| - 1]);
      ByClassOneMore(ps[..|ps| - 1], ps[|ps| - 1]);
      assert ps[..|ps| - 1] + [ps[|ps| - 1]] == ps;
    }
  }

  lemma NoClasses()
    ensures SameTotals(ByClass([]), [])
  {
  }

  lemma HandlingKeepsTotals(ps: Packages)
    ensures SameTotals(FlatBins(HandlingGroups(ps)), ps)
  {
    hide VolumeOf, WeightOf, OfClass;
    var groups := HandlingGroups(ps);
    if !(Has(ps, Fragile) && Has(ps, Heavy)) {
      assert [ps][..0] == [];
      assert FlatBins([ps]) == [] + ps == ps;
    } else {
      var s, f, h := OfClass(ps, Standard), OfClass(ps, Fragile), OfClass(ps, Heavy);
      ClassesPartition(ps);
      FlatOfTwo(if s == [] then [] else [s], f, h);
      assert s == [] ==> FlatBins([]) == s;
      assert s != [] ==> [s][..0] == [] && FlatBins([s]) == [] + s == s;
      assert FlatBins(groups) == s + f + h == ByClass(ps);
    }
  }

  lemma FlatOfTwo(front: seq<Packages>, f: Packages, h: Packages)
    ensures FlatBins(front + [f, h]) == FlatBins(front) + f + h
  {
    assert (front + [f, h])[..|front| + 1] == front + [f];
    assert (front + [f])[..|front|] == front;
  }

  /** Splitting a block built from its packages loses and doubles nothing. */
  lemma SplitAccounts(key: BlockKey, ps: Packages, config: PlannerConfig)
    requires ps != []
    ensures Accounts(SplitBlock(BuildLoadBlock(key, ps, ""), ps, config), ps)
  {
    var block, members := BuildLoadBlock(key, ps, ""), SortedMembers(ps);
    BuiltIdsListAll(key, ps, "");
    hide SortedMembers, VolumeOf, HandlingGroups, VolumeBins, Accounts, SameTotals, Listed, BuildLoadBlock, SplitGroups;
    BuiltKey(key, ps);
    SortedSameTotals(ps);
    HandlingKeepsTotals(members);
    var groups := HandlingGroups(members);
    if |groups| > 1 {
      GroupsAccount(key, groups, config);
      AccountsSame(SplitGroups(key, groups, config), FlatBins(groups), members);
      AccountsSame(SplitGroups(key, groups, config), members, ps);
    } else if block.totalVolume > config.maxBlockVolume {
      BinsCover(members, config.maxBlockVolume);
      BinsAccount(key, VolumeBins(members, config.maxBlockVolume), "");
      AccountsSame(SplitByVolume(key, members, config, ""), members, ps);
    } else {
      BuiltAccounts(key, ps, "");
    }
  }

  lemma BuiltKey(key: BlockKey, ps: Packages)
    requires ps != []
    ensures BuildLoadBlock(key, ps, "").key == key
  {
  }

  // ----- Aggregation keeps the totals ------------------------------------------------------------------

  function FlatGroups(groups: seq<Group>): Packages {
    if groups == [] then [] else FlatGroups(groups[..|groups| - 1]) + groups[|groups| - 1].members
  }

  lemma {:induction false} FeasibleAccounts(groups: seq<Group>, config: PlannerConfig)
    requires forall g :: g in groups ==> g.members != []
    ensures Accounts(Feasible(groups, config), FlatGroups(groups))
  {
    hide SplitBlock, BuildLoadBlock, Accounts;
    if groups == [] {
      NothingAccounts();
    } else {
      var front, last := groups[..|groups| - 1], groups[|groups| - 1];
      assert last in groups && forall g :: g in front ==> g in groups;
      FeasibleAccounts(front, config);
      SplitAccounts(last.key, last.members, config);
      AccountsJoin(Feasible(front, config), FlatGroups(front),
                   SplitBlock(BuildLoadBlock(last.key, last.members, ""), last.members, config), last.members);
    }
  }

  lemma {:induction false} FlatOfChanged(groups: seq<Group>, i: nat, p: PlanningPackage)
    requires i < |groups|
    ensures SameTotals(FlatGroups(groups[i := groups[i].(members := groups[i].members + [p])]), FlatGroups(groups) + [p])
  {
    hide SameTotals;
    var front, last := groups[..|groups| - 1], groups[|groups| - 1];
    var changed := groups[i := groups[i].(members := groups[i].members + [p])];
    assert FlatGroups(groups) == FlatGroups(front) + last.members;
    if i == |front| {
      assert changed[..|front|] == front;
      assert FlatGroups(changed) == FlatGroups(front) + (last.members + [p]) == FlatGroups(groups) + [p];
      SameTotalsSwap(FlatGroups(groups) + [p], [], []);
      assert FlatGroups(groups) + [p] + [] + [] == FlatGroups(groups) + [p];
    } else {
      var inner := front[i := front[i].(members := front[i].members + [p])];
      FlatOfChanged(front, i, p);
      assert changed[..|front|] == inner && changed[|front|] == last;
      SameTotalsJoin(FlatGroups(inner), FlatGroups(front) + [p], last.members);
      SameTotalsSwap(FlatGroups(front), [p], last.members);
      SameTotalsChain(FlatGroups(changed), FlatGroups(front) + [p] + last.members, FlatGroups(groups) + [p]);
    }
  }

  lemma JoinTotals(groups: seq<Group>, p: PlanningPackage)
    requires forall g :: g in groups ==> g.members != []
    ensures SameTotals(FlatGroups(Join(groups, p)), FlatGroups(groups) + [p])
  {
    hide VolumeOf, WeightOf, Join, KeyId, DeriveKey, IdsOf;
    var i := JoinAt(groups, p);
    if i < |groups| {
      FlatOfChanged(groups, i, p);
    } else {
      var added := Group(KeyId(DeriveKey(p)), DeriveKey(p), [p]);
      assert (groups + [added])[..|groups|] == groups;
    }
  }

  lemma NoGroupTotals()
    ensures SameTotals(FlatGroups([]), [])
  {
  }

  lemma {:induction false} GroupedKeepsTotals(ps: Packages)
    ensures SameTotals(FlatGroups(Grouped(ps)), ps)
  {
    hide SameTotals, FlatGroups, Join;
    if ps == [] {
      NoGroupTotals();
    } else {
      var front, last := ps[..|ps| - 1], ps[|ps| - 1];
      GroupedKeepsTotals(front);
      JoinTotals(Grouped(front), last);
      SameTotalsJoin(FlatGroups(Grouped(front)), front, [last]);
      SameTotalsChain(FlatGroups(Grouped(ps)), FlatGroups(Grouped(front)) + [last], front + [last]);
      assert front + [last] == ps;
    }
  }

  lemma {:induction false} InsertedBlocks(sorted: seq<S.Keyed<LoadBlock>>, x: S.Keyed<LoadBlock>)
    ensures multiset(AllIds(S.Items(S.Insert(sorted, x)))) == multiset(AllIds(S.Items(sorted))) + multiset(x.item.packageIds)
    ensures SumVolume(S.Items(S.Insert(sorted, x))) == SumVolume(S.Items(sorted)) + x.item.totalVolume
    ensures SumWeight(S.Items(S.Insert(sorted, x))) == SumWeight(S.Items(sorted)) + x.item.totalWeight
  {
    hide S.Before, AllIds, SumVolume, SumWeight, S.Items;
    if sorted == [] || !S.Before(x, sorted[|sorted| - 1]) {
      BlocksOneMore(sorted, x);
    } else {
      var front, last := sorted[..|sorted| - 1], sorted[|sorted| - 1];
      InsertedBlocks(front, x);
      BlocksOneMore(S.Insert(front, x), last);
      BlocksOneMore(front, last);
      assert front + [last] == sorted;
    }
  }

  lemma BlocksOneMore(sorted: seq<S.Keyed<LoadBlock>>, x: S.Keyed<LoadBlock>)
    ensures AllIds(S.Items(sorted + [x])) == AllIds(S.Items(sorted)) + x.item.packageIds
    ensures SumVolume(S.Items(sorted + [x])) == SumVolume(S.Items(sorted)) + x.item.totalVolume
    ensures SumWeight(S.Items(sorted + [x])) == SumWeight(S.Items(sorted)) + x.item.totalWeight
  {
    assert S.Items(sorted + [x]) == S.Items(sorted) + [x.item];
    assert (S.Items(sorted) + [x.item])[..|sorted|] == S.Items(sorted);
  }

  lemma {:induction false} SortedBlocks(keyed: seq<S.Keyed<LoadBlock>>)
    ensures multiset(AllIds(S.Items(S.Sort(keyed)))) == multiset(AllIds(S.Items(keyed)))
    ensures SumVolume(S.Items(S.Sort(keyed))) == SumVolume(S.Items(keyed))
    ensures SumWeight(S.Items(S.Sort(keyed))) == SumWeight(S.Items(keyed))
  {
    hide S.Insert;
    if keyed != [] {
      var front, last := keyed[..|keyed| - 1], keyed[|keyed| - 1];
      SortedBlocks(front);
      InsertedBlocks(S.Sort(front), last);
      BlocksOneMore(front, last);
      assert front + [last] == keyed;
    }
  }

  /** Every package is in exactly one block, and total volume and weight come through unchanged. */
  lemma EveryPackageOnce(ps: Packages, config: PlannerConfig)
    ensures Accounts(Aggregated(ps, config), ps)
  {
    hide Feasible, Grouped, AllIds, SumVolume, SumWeight, VolumeOf, WeightOf, S.Sort, FlatGroups;
    var feasible := Feasible(Grouped(ps), config);
    FeasibleAccounts(Grouped(ps), config);
    GroupedKeepsTotals(ps);
    SortedBlocks(KeyedBlocks(feasible));
    assert S.Items(KeyedBlocks(feasible)) == feasible;
  }

  // ----- Capacity and key of every block -------------------------------------------------------------------

  lemma {:induction false} BinsFit(ps: Packages, cap: real)
    ensures forall b :: b in VolumeBins(ps, cap) ==> VolumeOf(b) <= cap || |b| == 1
  {
    if ps != [] {
      var front, last := ps[..|ps| - 1], ps[|ps| - 1];
      BinsFit(front, cap);
      var bins := VolumeBins(front, cap);
      if bins != [] {
        VolumeOfOneMore(bins[|bins| - 1], last);
        assert bins == bins[..|bins| - 1] + [bins[|bins| - 1]];
      }
    }
  }

  lemma {:induction false} BinsHold(bins: seq<Packages>, b: Packages)
    requires b in bins
    ensures forall p :: p in b ==> p in FlatBins(bins)
  {
    var front := bins[..|bins| - 1];
    assert bins == front + [bins[|bins| - 1]];
    if b in front { BinsHold(front, b); }
  }

  /** The block is built from some of these packages, and is within the cap or a single package. */
  ghost predicate WellBuilt(b: LoadBlock, ps: Packages, config: PlannerConfig) {
    && b.packageIds != [] && b.packageCount == |b.packageIds|
    && (b.totalVolume <= config.maxBlockVolume || b.packageCount == 1)
    && forall id :: id in b.packageIds ==> exists p :: p in ps && p.packageId == id
  }

  lemma BuiltIsWellBuilt(key: BlockKey, members: Packages, suffix: string, ps: Packages, config: PlannerConfig)
    requires members != [] && forall p :: p in members ==> p in ps
    requires VolumeOf(members) <= config.maxBlockVolume || |members| == 1
    ensures WellBuilt(BuildLoadBlock(key, members, suffix), ps, config)
  {
    hide SortedMembers, VolumeOf, WeightOf, Earliest, BlockId;
    var b, sorted := BuildLoadBlock(key, members, suffix), SortedMembers(members);
    SortedHas(members);
    forall id | id in b.packageIds ensures exists p :: p in ps && p.packageId == id {
      var i :| 0 <= i < |sorted| && IdsOf(sorted)[i] == id;
      assert sorted[i] in members;
    }
    assert |b.packageIds| == |members|;
  }

  lemma FeasibleBlocksAreWellBuilt(key: BlockKey, ps: Packages, config: PlannerConfig, parent: string)
    requires ps != []
    ensures forall b :: b in SplitFeasible(key, ps, config, parent) ==> WellBuilt(b, ps, config)
  {
    hide BuildLoadBlock, WellBuilt, VolumeOf, VolumeBins;
    var blocks := SplitFeasible(key, ps, config, parent);
    var bins := VolumeBins(ps, config.maxBlockVolume);
    forall b | b in blocks ensures WellBuilt(b, ps, config) {
      if VolumeOf(ps) > config.maxBlockVolume {
        var j :| 0 <= j < |blocks| && blocks[j] == b;
        assert bins[j] in bins;
        BinsFit(ps, config.maxBlockVolume);
        BinsCover(ps, config.maxBlockVolume);
        BinsHold(bins, bins[j]);
        BuiltIsWellBuilt(key, bins[j], VolumeSuffix(parent, j), ps, config);
      } else {
        BuiltIsWellBuilt(key, ps, parent, ps, config);
      }
    }
  }

  /** Every block holds packages of its own key only, within the cap unless it is one oversized package. */
  lemma BlocksShareOneKey(ps: Packages, config: PlannerConfig, b: LoadBlock)
    requires DistinctPackages(ps) && b in Aggregated(ps, config)
    ensures b.packageIds != [] && (b.totalVolume <= config.maxBlockVolume || b.packageCount == 1)
    ensures forall id :: id in b.packageIds ==> exists p :: p in ps && p.packageId == id && DeriveKey(p) == b.key
  {
    hide Feasible, Grouped, S.Sort, WithKey, SortedMembers, SplitFeasible, BlockId, DeriveKey;
    var feasible := Feasible(Grouped(ps), config);
    var sorted := S.Sort(KeyedBlocks(feasible));
    var i :| 0 <= i < |sorted| && S.Items(sorted)[i] == b;
    S.SortHasSame(KeyedBlocks(feasible), sorted[i]);
    KeyedBlocksHas(feasible, sorted[i]);
    FeasibleByKey(ps, config, b);
    var p :| FromKey(b, ps, config, p);
    var key := DeriveKey(p);
    var members := SortedMembers(WithKey(ps, key));
    FeasibleBlocksAreWellBuilt(key, members, config, "");
    GroupIdsDistinct(key, members, config, "");
    SortedHas(WithKey(ps, key));
    WithKeyHas(ps, key);
    forall id | id in b.packageIds ensures exists q :: q in ps && q.packageId == id && DeriveKey(q) == b.key {
      var q :| q in members && q.packageId == id;
      assert q in WithKey(ps, key);
    }
  }

  // ----- The volume bins are the fewest ---------------------------------------------------------------------

  /** A package as a load of volume only. */
  function VolumeLoads(ps: Packages): seq<N.Load> {
    seq(|ps|, i requires 0 <= i < |ps| => N.Load(ps[i].volume, 0.0))
  }

  /** The same package travelling as a block of its own, for the planners' packing loop. */
  function AsBlock(p: PlanningPackage): LoadBlock {
    LoadBlock(p.packageId, DeriveKey(p), [p.packageId], 1, p.volume, 0.0, 0.0)
  }

  function AsBlocks(ps: Packages): seq<LoadBlock> {
    seq(|ps|, i requires 0 <= i < |ps| => AsBlock(ps[i]))
  }

  ghost predicate Follows(built: seq<P.SliceBuilder>, bins: seq<Packages>) {
    |built| == |bins| &&
    forall i :: 0 <= i < |built| ==> built[i].usedVolume == VolumeOf(bins[i]) && built[i].usedWeight == 0.0
  }

  lemma PlaceFollows(built: seq<P.SliceBuilder>, bins: seq<Packages>, p: PlanningPackage, cap: real)
    requires Follows(built, bins) && forall b :: b in bins ==> |b| > 0
    ensures Follows(P.Place(built, AsBlock(p), N.Capacity(cap, 0.0)), PlaceInBin(bins, p, cap))
  {
    if bins != [] { VolumeOfOneMore(bins[|bins| - 1], p); }
    VolumeOfOneMore([], p);
    NoVolume();
    assert [] + [p] == [p];
  }

  lemma {:induction false} BinsFollowFilling(ps: Packages, cap: real)
    ensures Follows(P.Filled(AsBlocks(ps), map[], N.Capacity(cap, 0.0)).built, VolumeBins(ps, cap))
  {
    hide VolumeOf, DeriveKey, P.Put, P.OrderOf, P.Place, PlaceInBin, AsBlock, Follows;
    if ps == [] {
      NothingFollows();
    } else {
      var front, last := ps[..|ps| - 1], ps[|ps| - 1];
      BinsFollowFilling(front, cap);
      assert AsBlocks(ps)[..|front|] == AsBlocks(front);
      PlaceFollows(P.Filled(AsBlocks(front), map[], N.Capacity(cap, 0.0)).built, VolumeBins(front, cap), last, cap);
    }
  }

  lemma NothingFollows()
    ensures Follows([], [])
  {
  }

  /** The volume splitter opens the fewest bins of any cut of the id-ordered packages that fits. */
  lemma BinsAreFewest(ps: Packages, cap: real, lengths: seq<nat>)
    requires N.Cuts(VolumeLoads(ps), lengths, N.Capacity(cap, 0.0))
    ensures |VolumeBins(ps, cap)| <= |lengths|
  {
    hide VolumeBins, N.Cuts, N.Runs, P.Filled, DeriveKey;
    var capacity := N.Capacity(cap, 0.0);
    assert L.LoadsOf(AsBlocks(ps)) == VolumeLoads(ps);
    BinsFollowFilling(ps, cap);
    L.FillIsGreedy(AsBlocks(ps), map[], capacity);
    L.ChunksCover(AsBlocks(ps), capacity);
    N.GreedyIsOptimal(VolumeLoads(ps), capacity, lengths);
  }
}
