/**
 * What splitting leaves behind: blocks that respect the cap and never put a fragile package with a heavy
 * one, and the exact condition under which splitting the result again changes nothing. A part within
 * the cap is stable; a single package over it comes back under another suffix, unless it was the first
 * bin of a split that had no suffix yet.
 */
module AggregationSplits {
  import opened PlanningTypes
  import opened BlockIds
  import opened Aggregation
  import opened AggregationLaws
  import opened AggregationTotals
  import S = Sorting

  predicate Mixed(ps: Packages) {
    Has(ps, Fragile) && Has(ps, Heavy)
  }

  // ----- Recovering a block's members from its ids -------------------------------------------

  lemma {:induction false} ListedHas(ps: Packages, ids: seq<string>)
    ensures forall p :: p in Listed(ps, ids) <==> p in ps && p.packageId in ids
  {
    if ps != [] {
      ListedHas(ps[..|ps| - 1], ids);
      assert ps == ps[..|ps| - 1] + [ps[|ps| - 1]];
    }
  }

  lemma {:induction false} ListedDistinct(ps: Packages, ids: seq<string>)
    requires DistinctPackages(ps)
    ensures DistinctPackages(Listed(ps, ids))
  {
    if ps != [] {
      var front, last := ps[..|ps| - 1], ps[|ps| - 1];
      ListedDistinct(front, ids);
      ListedHas(front, ids);
      var before := Listed(front, ids);
      forall i | 0 <= i < |before| ensures before[i].packageId != last.packageId {
        assert before[i] in front;
        var j :| 0 <= j < |front| && front[j] == before[i];
        assert ps[j] == front[j];
      }
    }
  }

  lemma SameIdSamePackage(ps: Packages, p: PlanningPackage, q: PlanningPackage)
    requires DistinctPackages(ps) && p in ps && q in ps
    ensures p.packageId == q.packageId ==> p == q
  {
    var i :| 0 <= i < |ps| && ps[i] == p;
    var j :| 0 <= j < |ps| && ps[j] == q;
    assert i < j ==> ps[i].packageId != ps[j].packageId;
    assert j < i ==> ps[j].packageId != ps[i].packageId;
  }

  lemma MembersRecovered(key: BlockKey, ms: Packages, suffix: string, ps: Packages)
    requires DistinctPackages(ps) && DistinctPackages(ms) && ms != [] && forall p :: p in ms ==> p in ps
    ensures SortedMembers(Listed(ps, BuildLoadBlock(key, ms, suffix).packageIds)) == SortedMembers(ms)
  {
    hide SortedMembers, VolumeOf, WeightOf, Earliest, BlockId, Listed;
    var sorted := SortedMembers(ms);
    var ids := IdsOf(sorted);
    SortedHas(ms);
    ListedHas(ps, ids);
    ListedDistinct(ps, ids);
    forall p ensures p in Listed(ps, ids) <==> p in ms {
      if p in ms {
        var i :| 0 <= i < |sorted| && sorted[i] == p;
        assert ids[i] == p.packageId;
      }
      if p in Listed(ps, ids) {
        var i :| 0 <= i < |ids| && ids[i] == p.packageId;
        assert sorted[i] in ms;
        SameIdSamePackage(ps, p, sorted[i]);
      }
    }
    SortedIsCanonical(Listed(ps, ids), ms);
  }

  lemma SortedUnmixed(ms: Packages)
    ensures Mixed(SortedMembers(ms)) <==> Mixed(ms)
  {
    hide SortedMembers;
    SortedHas(ms);
  }

  /** Splitting a block of compatible packages again: by volume when over the cap, else untouched. */
  lemma SplitAgain(key: BlockKey, ms: Packages, suffix: string, ps: Packages, config: PlannerConfig)
    requires DistinctPackages(ps) && DistinctPackages(ms) && ms != [] && forall p :: p in ms ==> p in ps
    requires !Mixed(ms)
    ensures SplitBlock(BuildLoadBlock(key, ms, suffix), ps, config)
         == if VolumeOf(ms) > config.maxBlockVolume then SplitByVolume(key, SortedMembers(ms), config, "")
            else [BuildLoadBlock(key, ms, suffix)]
  {
    MembersRecovered(key, ms, suffix, ps);
    SortedUnmixed(ms);
    hide SortedMembers, VolumeOf, WeightOf, Earliest, BlockId, Listed, SplitByVolume, Has, IdsOf;
  }

  ghost predicate Stable(b: LoadBlock, ps: Packages, config: PlannerConfig) {
    SplitBlock(b, ps, config) == [b]
  }

  lemma OneAlone(p: PlanningPackage, cap: real)
    ensures SortedMembers([p]) == [p] && VolumeBins([p], cap) == [[p]] && VolumeOf([p]) == p.volume
  {
    assert [p][..0] == [];
    NoVolume();
    VolumeOfOneMore([], p);
    assert [] + [p] == [p];
    hide S.Sort;
    SortedHas([p]);
    assert SortedMembers([p])[0] in SortedMembers([p]);
  }

  /** A part within the cap is stable; an oversized single package only under the suffix of bin zero. */
  lemma PartIsStable(key: BlockKey, ms: Packages, suffix: string, ps: Packages, config: PlannerConfig)
    requires DistinctPackages(ps) && DistinctPackages(ms) && ms != [] && forall p :: p in ms ==> p in ps
    requires !Mixed(ms) && (VolumeOf(ms) <= config.maxBlockVolume || |ms| == 1)
    ensures Stable(BuildLoadBlock(key, ms, suffix), ps, config)
       <==> VolumeOf(ms) <= config.maxBlockVolume || suffix == VolumeSuffix("", 0)
  {
    hide SplitBlock, VolumeBins, BlockId, SortedMembers, Has, VolumeSuffix, Earliest, VolumeOf, WeightOf;
    SplitAgain(key, ms, suffix, ps, config);
    if VolumeOf(ms) > config.maxBlockVolume {
      var p := ms[0];
      assert ms == [p];
      OneAlone(p, config.maxBlockVolume);
      assert BuildBins(key, [[p]], "") == [BuildBin(key, [[p]], "", 0)];
      BlockIdIsInjective(key, suffix, key, VolumeSuffix("", 0));
    }
  }

  // ----- Oversized packages ride alone --------------------------------------------------------------

  lemma {:induction false} PartVolume(ps: Packages, p: PlanningPackage)
    requires p in ps
    ensures p.volume <= VolumeOf(ps) && (|ps| > 1 ==> p.volume < VolumeOf(ps))
  {
    var front, last := ps[..|ps| - 1], ps[|ps| - 1];
    assert ps == front + [last];
    VolumeIsPositive(front);
    if p in front { PartVolume(front, p); }
  }

  lemma {:induction false} VolumeIsPositive(ps: Packages)
    ensures VolumeOf(ps) >= 0.0 && (ps != [] ==> VolumeOf(ps) > 0.0)
  {
    if ps != [] { VolumeIsPositive(ps[..|ps| - 1]); }
  }

  /** A bin over the cap is one oversized package, and every oversized package is such a bin. */
  lemma OversizedBins(ps: Packages, cap: real, b: Packages)
    requires b in VolumeBins(ps, cap)
    ensures VolumeOf(b) > cap ==> |b| == 1 && b[0].volume > cap
    ensures forall p :: p in b && p.volume > cap ==> b == [p] && VolumeOf(b) > cap
  {
    hide VolumeOf, VolumeBins;
    BinsFit(ps, cap);
    if VolumeOf(b) > cap {
      assert b == [b[0]];
      OneAlone(b[0], cap);
    }
    forall p | p in b && p.volume > cap ensures b == [p] && VolumeOf(b) > cap {
      PartVolume(b, p);
      assert |b| == 1;
    }
  }

  lemma {:induction false} InSomeBin(bins: seq<Packages>, p: PlanningPackage) returns (j: nat)
    requires p in FlatBins(bins)
    ensures j < |bins| && p in bins[j]
  {
    var front, last := bins[..|bins| - 1], bins[|bins| - 1];
    if p in last { j := |front|; } else { j := InSomeBin(front, p); }
  }

  lemma {:induction false} BinsDistinct(bins: seq<Packages>)
    requires DistinctPackages(FlatBins(bins))
    ensures forall b :: b in bins ==> DistinctPackages(b)
    ensures forall i, j, p :: 0 <= i < |bins| && 0 <= j < |bins| && p in bins[i] && p in bins[j] ==> i == j
  {
    if bins != [] {
      var front, last := bins[..|bins| - 1], bins[|bins| - 1];
      var before := FlatBins(front);
      assert FlatBins(bins)[..|before|] == before && FlatBins(bins)[|before|..] == last;
      BinsDistinct(front);
      assert bins == front + [last];
      forall i, p | 0 <= i < |front| && p in front[i] ensures p !in last {
        BinsHold(front, front[i]);
        assert p in before;
        var x :| 0 <= x < |before| && before[x] == p;
        assert FlatBins(bins)[x] == p;
        assert forall y :: 0 <= y < |last| ==> FlatBins(bins)[|before| + y] == last[y];
      }
    }
  }

  lemma {:induction false} FirstOfFirst(bins: seq<Packages>)
    requires bins != [] && forall b :: b in bins ==> |b| > 0
    ensures FlatBins(bins) != [] && FlatBins(bins)[0] == bins[0][0]
  {
    var front, last := bins[..|bins| - 1], bins[|bins| - 1];
    assert last in bins && forall b :: b in front ==> b in bins;
    if front != [] {
      FirstOfFirst(front);
    } else {
      assert FlatBins(front) == [] && FlatBins(bins) == [] + last == last;
    }
  }

  // ----- All the bins of one group ---------------------------------------------------------------------

  ghost predicate AllStable(blocks: seq<LoadBlock>, ps: Packages, config: PlannerConfig) {
    forall b :: b in blocks ==> Stable(b, ps, config)
  }

  lemma BinIsStable(key: BlockKey, g: Packages, parent: string, j: nat, ps: Packages, config: PlannerConfig)
    requires DistinctPackages(ps) && DistinctPackages(g) && !Mixed(g) && forall p :: p in g ==> p in ps
    requires j < |VolumeBins(g, config.maxBlockVolume)|
    ensures var bins := VolumeBins(g, config.maxBlockVolume);
      Stable(BuildBin(key, bins, parent, j), ps, config)
      <==> VolumeOf(bins[j]) <= config.maxBlockVolume || VolumeSuffix(parent, j) == VolumeSuffix("", 0)
  {
    hide VolumeBins, VolumeOf, BuildLoadBlock, Stable;
    var bins := VolumeBins(g, config.maxBlockVolume);
    var b := bins[j];
    assert b in bins;
    BinsCover(g, config.maxBlockVolume);
    BinsHold(bins, b);
    BinsDistinct(bins);
    BinsFit(g, config.maxBlockVolume);
    assert forall c :: Has(b, c) ==> Has(g, c);
    PartIsStable(key, b, VolumeSuffix(parent, j), ps, config);
  }

  /** A handling group's parts are all stable exactly when it holds no oversized package. */
  lemma HandledPartIsStable(key: BlockKey, g: Packages, i: nat, ps: Packages, config: PlannerConfig)
    requires g != [] && DistinctPackages(ps) && DistinctPackages(g) && !Mixed(g) && forall p :: p in g ==> p in ps
    ensures AllStable(SplitFeasible(key, g, config, HandlingSuffix(i)), ps, config)
       <==> forall p :: p in g ==> p.volume <= config.maxBlockVolume
  {
    hide VolumeBins, VolumeOf, BuildLoadBlock, Stable, Has, HandlingSuffix, VolumeSuffix;
    var cap := config.maxBlockVolume;
    forall p | p in g ensures p.volume <= VolumeOf(g) { PartVolume(g, p); }
    if VolumeOf(g) <= cap {
      PartIsStable(key, g, HandlingSuffix(i), ps, config);
    } else {
      var bins := VolumeBins(g, cap);
      var blocks := BuildBins(key, bins, HandlingSuffix(i));
      BinsCover(g, cap);
      forall j | 0 <= j < |bins|
        ensures blocks[j] in blocks && (Stable(blocks[j], ps, config) <==> VolumeOf(bins[j]) <= cap) {
        BinIsStable(key, g, HandlingSuffix(i), j, ps, config);
        HandledSuffixDiffers(i, j);
      }
      NoneOversized(g, cap);
    }
  }

  lemma HandledSuffixDiffers(i: nat, j: nat)
    ensures VolumeSuffix(HandlingSuffix(i), j) != VolumeSuffix("", 0)
  {
    hide Decimal;
    var a, b := VolumeSuffix(HandlingSuffix(i), j), VolumeSuffix("", 0);
    assert a[1] == HandlingSuffix(i)[1] == 'h' && b[1] == ("#v" + Decimal(0))[1] == 'v';
  }

  lemma NoneOversized(g: Packages, cap: real)
    ensures (forall j :: 0 <= j < |VolumeBins(g, cap)| ==> VolumeOf(VolumeBins(g, cap)[j]) <= cap)
       <==> forall p :: p in g ==> p.volume <= cap
  {
    hide VolumeBins, VolumeOf;
    var bins := VolumeBins(g, cap);
    BinsCover(g, cap);
    forall p | p in g ensures exists j :: 0 <= j < |bins| && p in bins[j] {
      var j := InSomeBin(bins, p);
    }
    forall j | 0 <= j < |bins| ensures bins[j] in bins && VolumeOf(bins[j]) > cap ==> bins[j][0] in g && bins[j][0].volume > cap {
      assert bins[j] in bins;
      OversizedBins(g, cap, bins[j]);
      BinsHold(bins, bins[j]);
    }
    forall j, p: PlanningPackage | 0 <= j < |bins| && p in bins[j] && p.volume > cap ensures VolumeOf(bins[j]) > cap {
      assert bins[j] in bins;
      OversizedBins(g, cap, bins[j]);
    }
  }

  // ----- Splitting twice ----------------------------------------------------------------------------------

  /**
   * The condition: an oversized package may only be the first in id order, and only when fragile
   * and heavy packages do not meet in the block.
   */
  ghost predicate OversizedOnlyFirst(ps: Packages, config: PlannerConfig)
    requires ps != []
  {
    forall p :: p in ps && p.volume > config.maxBlockVolume ==>
      !Mixed(ps) && forall q :: q in ps && q != p ==> S.Less(p.packageId, q.packageId)
  }

  lemma FirstById(ps: Packages, p: PlanningPackage)
    requires DistinctPackages(ps) && p in ps
    ensures SortedMembers(ps) != []
    ensures SortedMembers(ps)[0] == p <==> forall q :: q in ps && q != p ==> S.Less(p.packageId, q.packageId)
  {
    hide S.Sort, S.Less;
    var sorted := S.Sort(KeyedById(ps));
    SortedHas(ps);
    S.SortDistinct(KeyedById(ps));
    forall k | 0 <= k < |sorted| ensures sorted[k].name == sorted[k].item.packageId && sorted[k].rank == 0 && sorted[k].tie == 0 {
      S.SortHasSame(KeyedById(ps), sorted[k]);
      KeyedHas(ps, sorted[k]);
    }
    var items := SortedMembers(ps);
    assert items[0] in items;
    forall k | 0 < k < |items| ensures S.Less(items[0].packageId, items[k].packageId) {
      assert S.Before(sorted[0], sorted[k]);
    }
    forall q | q in ps && q != items[0] ensures S.Less(items[0].packageId, q.packageId) {
      assert q in items;
      var k :| 0 <= k < |items| && items[k] == q;
    }
    S.LessIsAsymmetric(items[0].packageId, p.packageId);
  }

  lemma VolumeSplitStable(key: BlockKey, ps: Packages, config: PlannerConfig)
    requires ps != [] && DistinctPackages(ps) && !Mixed(ps)
    ensures AllStable(SplitByVolume(key, SortedMembers(ps), config, ""), ps, config) <==> OversizedOnlyFirst(ps, config)
  {
    hide VolumeBins, VolumeOf, BuildLoadBlock, Stable, Has, VolumeSuffix, SortedMembers, S.Less;
    var cap, sorted := config.maxBlockVolume, SortedMembers(ps);
    SortedHas(ps);
    SortedUnmixed(ps);
    SortedStaysDistinct(ps);
    var bins := VolumeBins(sorted, cap);
    var blocks := BuildBins(key, bins, "");
    BinsCover(sorted, cap);
    BinsDistinct(bins);
    FirstOfFirst(bins);
    forall j | 0 <= j < |bins|
      ensures blocks[j] in blocks && (Stable(blocks[j], ps, config) <==> VolumeOf(bins[j]) <= cap || j == 0) {
      BinIsStable(key, sorted, "", j, ps, config);
      if j != 0 { SuffixesDiffer("", j, 0); }
    }
    FirstBinOnly(ps, bins, cap);
    forall p | p in ps ensures sorted[0] == p <==> forall q :: q in ps && q != p ==> S.Less(p.packageId, q.packageId) {
      FirstById(ps, p);
    }
  }

  lemma FirstBinOnly(ps: Packages, bins: seq<Packages>, cap: real)
    requires DistinctPackages(ps) && ps != [] && SameElements(SortedMembers(ps), ps)
    requires bins == VolumeBins(SortedMembers(ps), cap) && FlatBins(bins) == SortedMembers(ps)
    requires forall i, j, p :: 0 <= i < |bins| && 0 <= j < |bins| && p in bins[i] && p in bins[j] ==> i == j
    requires bins != [] && SortedMembers(ps) != [] && SortedMembers(ps)[0] == bins[0][0]
    ensures (forall j :: 0 < j < |bins| ==> VolumeOf(bins[j]) <= cap)
       <==> forall p :: p in ps && p.volume > cap ==> p == SortedMembers(ps)[0]
  {
    hide VolumeBins, VolumeOf, SortedMembers, FlatBins;
    forall j | 0 <= j < |bins| ensures bins[j] in bins && |bins[j]| > 0
      && (VolumeOf(bins[j]) > cap ==> bins[j][0] in ps && bins[j][0].volume > cap) {
      assert bins[j] in bins;
      OversizedBins(SortedMembers(ps), cap, bins[j]);
      BinsHold(bins, bins[j]);
    }
    assert bins[0][0] in bins[0];
    forall p | p in ps && p.volume > cap
      ensures exists j :: 0 <= j < |bins| && bins[j] == [p] && VolumeOf(bins[j]) > cap {
      var j := InSomeBin(bins, p);
      assert bins[j] in bins;
      OversizedBins(SortedMembers(ps), cap, bins[j]);
    }
    if forall p :: p in ps && p.volume > cap ==> p == SortedMembers(ps)[0] {
      forall j | 0 < j < |bins| ensures VolumeOf(bins[j]) <= cap {
        assert bins[j][0] in bins[j];
      }
    }
  }

  lemma {:induction false} GroupsStable(key: BlockKey, groups: seq<Packages>, ps: Packages, config: PlannerConfig)
    requires DistinctPackages(ps) && forall g :: g in groups ==>
      g != [] && DistinctPackages(g) && !Mixed(g) && forall p :: p in g ==> p in ps
    ensures AllStable(SplitGroups(key, groups, config), ps, config)
       <==> forall g, p :: g in groups && p in g ==> p.volume <= config.maxBlockVolume
  {
    hide SplitFeasible, Stable, Has, DistinctPackages;
    if groups != [] {
      var i := |groups| - 1;
      var front, last := groups[..i], groups[i];
      assert groups == front + [last] && last in groups && forall g :: g in front ==> g in groups;
      GroupsStable(key, front, ps, config);
      HandledPartIsStable(key.(handlingClass := last[0].handlingClass), last, i, ps, config);
    }
  }

  lemma {:induction false} ClassDistinct(ps: Packages, c: HandlingClass)
    requires DistinctPackages(ps)
    ensures DistinctPackages(OfClass(ps, c))
  {
    if ps != [] {
      var front, last := ps[..|ps| - 1], ps[|ps| - 1];
      ClassDistinct(front, c);
      ClassIsPresent(front, c);
      var before := OfClass(front, c);
      forall i | 0 <= i < |before| ensures before[i].packageId != last.packageId {
        assert before[i] in front;
        var j :| 0 <= j < |front| && front[j] == before[i];
        assert ps[j] == front[j];
      }
    }
  }

  lemma HandlingGroupsAreParts(ms: Packages)
    requires DistinctPackages(ms) && Mixed(ms)
    ensures forall g :: g in HandlingGroups(ms) ==> g != [] && DistinctPackages(g) && !Mixed(g) && forall p :: p in g ==> p in ms
    ensures forall p :: p in ms ==> exists g :: g in HandlingGroups(ms) && p in g
  {
    hide OfClass, DistinctPackages;
    forall c: HandlingClass ensures DistinctPackages(OfClass(ms, c)) && !Mixed(OfClass(ms, c))
      && (OfClass(ms, c) != [] <==> Has(ms, c)) && (forall p :: p in OfClass(ms, c) <==> p in ms && p.handlingClass == c) {
      ClassDistinct(ms, c);
      ClassIsPresent(ms, c);
    }
    forall p | p in ms ensures exists g :: g in HandlingGroups(ms) && p in g {
      assert p in OfClass(ms, p.handlingClass);
      assert OfClass(ms, p.handlingClass) in HandlingGroups(ms);
    }
  }

  /**
   * Splitting every block of a split again changes nothing if and only if no package exceeds the
   * cap, save possibly the first in id order of a block without a fragile-heavy mix.
   */
  lemma SplitIsIdempotentIff(key: BlockKey, ps: Packages, config: PlannerConfig)
    requires ps != [] && DistinctPackages(ps)
    ensures AllStable(SplitBlock(BuildLoadBlock(key, ps, ""), ps, config), ps, config) <==> OversizedOnlyFirst(ps, config)
  {
    hide VolumeOf, VolumeBins, Has, Listed, SortedMembers, HandlingGroups, SplitByVolume, SplitGroups, DistinctPackages, S.Less;
    var block, sorted, cap := BuildLoadBlock(key, ps, ""), SortedMembers(ps), config.maxBlockVolume;
    BuiltIdsListAll(key, ps, "");
    BuiltKey(key, ps);
    SortedHas(ps);
    SortedUnmixed(ps);
    SortedStaysDistinct(ps);
    HandlingGroupCount(sorted);
    if Mixed(ps) {
      HandlingGroupsAreParts(sorted);
      GroupsStable(key, HandlingGroups(sorted), ps, config);
    } else if VolumeOf(ps) > cap {
      VolumeSplitStable(key, ps, config);
    } else {
      assert SplitBlock(block, ps, config) == [block];
      forall p | p in ps ensures p.volume <= cap { PartVolume(ps, p); }
    }
  }

  /** Two packages, the second in id order over the cap: its part is split off anew every time. */
  lemma AnOversizedSecondKeepsSplitting(key: BlockKey, first: PlanningPackage, second: PlanningPackage, config: PlannerConfig)
    requires S.Less(first.packageId, second.packageId) && second.volume > config.maxBlockVolume
    ensures var ps := [first, second];
      !AllStable(SplitBlock(BuildLoadBlock(key, ps, ""), ps, config), ps, config)
  {
    var ps := [first, second];
    S.LessIsAsymmetric(first.packageId, second.packageId);
    hide AllStable, SplitBlock, BuildLoadBlock, S.Less;
    assert first.packageId != second.packageId;
    assert ps[0] in ps && ps[1] in ps && first != second && !S.Less(second.packageId, first.packageId);
    SplitIsIdempotentIff(key, ps, config);
  }

  lemma HandlingGroupCount(ms: Packages)
    ensures |HandlingGroups(ms)| > 1 <==> Mixed(ms)
  {
  }

  /** No block of a split puts a fragile package with a heavy one, or exceeds the cap but for a single. */
  lemma SplitBlocksAreSafe(key: BlockKey, ps: Packages, config: PlannerConfig, b: LoadBlock)
    requires ps != [] && DistinctPackages(ps) && b in SplitBlock(BuildLoadBlock(key, ps, ""), ps, config)
    ensures WellBuilt(b, ps, config)
    ensures !Mixed(Listed(ps, b.packageIds))
  {
    hide VolumeOf, VolumeBins, Has, Listed, SortedMembers, HandlingGroups, SplitFeasible, SplitGroups, DistinctPackages, WellBuilt, BuildLoadBlock;
    var block, sorted, cap := BuildLoadBlock(key, ps, ""), SortedMembers(ps), config.maxBlockVolume;
    BuiltIdsListAll(key, ps, "");
    BuiltKey(key, ps);
    SortedHas(ps);
    SortedTotals(ps);
    SortedUnmixed(ps);
    SortedStaysDistinct(ps);
    HandlingGroupCount(sorted);
    if Mixed(ps) {
      HandlingGroupsAreParts(sorted);
      var g, k, suffix := GroupOf(key, HandlingGroups(sorted), config, b);
      PartIsSafe(k, g, suffix, ps, config, b);
    } else {
      BuiltVolume(key, ps);
      if VolumeOf(ps) > cap { SplitFeasibleWhenOver(key, sorted, config, ""); } else { BuiltFromSorted(key, ps, ""); SplitFeasibleWhenUnder(key, sorted, config, ""); }
      PartIsSafe(key, sorted, "", ps, config, b);
    }
  }

  lemma BuiltVolume(key: BlockKey, ps: Packages)
    requires ps != []
    ensures BuildLoadBlock(key, ps, "").totalVolume == VolumeOf(ps)
  {
  }

  lemma SplitFeasibleWhenOver(key: BlockKey, ps: Packages, config: PlannerConfig, parent: string)
    requires ps != [] && VolumeOf(ps) > config.maxBlockVolume
    ensures SplitFeasible(key, ps, config, parent) == SplitByVolume(key, ps, config, parent)
  {
  }

  lemma SplitFeasibleWhenUnder(key: BlockKey, ps: Packages, config: PlannerConfig, parent: string)
    requires ps != [] && VolumeOf(ps) <= config.maxBlockVolume
    ensures SplitFeasible(key, ps, config, parent) == [BuildLoadBlock(key, ps, parent)]
  {
  }

  lemma {:induction false} GroupOf(key: BlockKey, groups: seq<Packages>, config: PlannerConfig, b: LoadBlock)
    returns (g: Packages, k: BlockKey, suffix: string)
    requires forall g :: g in groups ==> g != []
    requires b in SplitGroups(key, groups, config)
    ensures g in groups && b in SplitFeasible(k, g, config, suffix)
  {
    hide SplitFeasible;
    var i := |groups| - 1;
    assert groups[i] in groups && forall g :: g in groups[..i] ==> g in groups;
    g, k, suffix := groups[i], key.(handlingClass := groups[i][0].handlingClass), HandlingSuffix(i);
    if b !in SplitFeasible(k, g, config, suffix) {
      g, k, suffix := GroupOf(key, groups[..i], config, b);
    }
  }

  lemma PartIsSafe(key: BlockKey, g: Packages, suffix: string, ps: Packages, config: PlannerConfig, b: LoadBlock)
    requires g != [] && DistinctPackages(ps) && DistinctPackages(g) && !Mixed(g) && forall p :: p in g ==> p in ps
    requires b in SplitFeasible(key, g, config, suffix)
    ensures WellBuilt(b, ps, config) && !Mixed(Listed(ps, b.packageIds))
  {
    hide SplitFeasible, Listed, DistinctPackages;
    FeasibleBlocksAreWellBuilt(key, g, config, suffix);
    ListedHas(ps, b.packageIds);
    forall p | p in Listed(ps, b.packageIds) ensures p in g {
      var q :| q in g && q.packageId == p.packageId;
      SameIdSamePackage(ps, p, q);
    }
    assert forall c :: Has(Listed(ps, b.packageIds), c) ==> Has(g, c);
  }
}
