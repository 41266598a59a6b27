/**
 * `packages/aggregation/src`: packages grouped by their seven-part key, each group built into a load
 * block, oversized or incompatible blocks split, and the result put in id order.
 */
module Aggregation {
  import opened PlanningTypes
  import opened BlockIds
  import S = Sorting

  // ----- Deadlines and priority ------------------------------------------------------------

  const HOUR_MS := 3_600_000

  function BucketWidth(sla: SlaClass): (w: nat)
    ensures w > 0
  {
    match sla
    case EXPRESS => HOUR_MS
    case PRIORITY => 4 * HOUR_MS
    case STANDARD => 12 * HOUR_MS
    case ECONOMY => 24 * HOUR_MS
  }

  function DeadlineBucket(deadline: nat, sla: SlaClass): nat {
    deadline / BucketWidth(sla)
  }

  function SlaWeight(sla: SlaClass): real {
    match sla case EXPRESS => 4.0 case PRIORITY => 3.0 case STANDARD => 2.0 case ECONOMY => 1.0
  }

  /** The first instant of the year 3000, and one less the machine epsilon. */
  const DEADLINE_HORIZON_MS := 32503680000000.0
  const MAX_FRACTION := 1.0 - 1.0 / 4503599627370496.0

  function BlockPriority(sla: SlaClass, deadline: nat): real {
    var fraction := deadline as real / DEADLINE_HORIZON_MS;
    SlaWeight(sla) - (if fraction < 1.0 then fraction else 1.0) * MAX_FRACTION
  }

  // ----- Building a block --------------------------------------------------------------------

  type Packages = seq<PlanningPackage>

  function VolumeOf(ps: Packages): real {
    if ps == [] then 0.0 else VolumeOf(ps[..|ps| - 1]) + ps[|ps| - 1].volume
  }

  function WeightOf(ps: Packages): real {
    if ps == [] then 0.0 else WeightOf(ps[..|ps| - 1]) + ps[|ps| - 1].weight
  }

  function Earliest(ps: Packages): nat
    requires ps != []
  {
    var last := ps[|ps| - 1].deadline;
    if |ps| == 1 then last
    else
      var before := Earliest(ps[..|ps| - 1]);
      if last < before then last else before
  }

  function KeyedById(ps: Packages): seq<S.Keyed<PlanningPackage>> {
    seq(|ps|, i requires 0 <= i < |ps| => S.Keyed(0, 0, ps[i].packageId, ps[i]))
  }

  function SortedMembers(ps: Packages): Packages {
    S.Items(S.Sort(KeyedById(ps)))
  }

  function IdsOf(ps: Packages): seq<string> {
    seq(|ps|, i requires 0 <= i < |ps| => ps[i].packageId)
  }

  function BuildLoadBlock(key: BlockKey, ps: Packages, suffix: string): LoadBlock
    requires ps != []
  {
    LoadBlock(BlockId(key, suffix), key, IdsOf(SortedMembers(ps)), |ps|, VolumeOf(ps), WeightOf(ps),
              BlockPriority(key.slaClass, Earliest(ps)))
  }

  // ----- Splitting ------------------------------------------------------------------------------

  function Listed(ps: Packages, ids: seq<string>): Packages {
    if ps == [] then []
    else
      var before, last := Listed(ps[..|ps| - 1], ids), ps[|ps| - 1];
      if last.packageId in ids then before + [last] else before
  }

  function OfClass(ps: Packages, c: HandlingClass): Packages {
    if ps == [] then []
    else
      var before, last := OfClass(ps[..|ps| - 1], c), ps[|ps| - 1];
      if last.handlingClass == c then before + [last] else before
  }

  predicate Has(ps: Packages, c: HandlingClass) {
    exists p :: p in ps && p.handlingClass == c
  }

  lemma {:induction false} ClassIsPresent(ps: Packages, c: HandlingClass)
    ensures OfClass(ps, c) != [] <==> Has(ps, c)
    ensures forall p :: p in OfClass(ps, c) <==> p in ps && p.handlingClass == c
  {
    if ps != [] {
      ClassIsPresent(ps[..|ps| - 1], c);
      assert ps == ps[..|ps| - 1] + [ps[|ps| - 1]];
    }
  }

  /** Only when fragile and heavy meet: standard, fragile and heavy apart. */
  function HandlingGroups(ps: Packages): (groups: seq<Packages>)
    ensures |groups| > 1 ==> forall g :: g in groups ==> g != []
  {
    if !(Has(ps, Fragile) && Has(ps, Heavy)) then [ps]
    else
      ClassIsPresent(ps, Fragile);
      ClassIsPresent(ps, Heavy);
      (if OfClass(ps, Standard) == [] then [] else [OfClass(ps, Standard)]) + [OfClass(ps, Fragile), OfClass(ps, Heavy)]
  }

  function PlaceInBin(bins: seq<Packages>, p: PlanningPackage, cap: real): (r: seq<Packages>)
    requires forall b :: b in bins ==> |b| > 0
    ensures r != [] && forall b :: b in r ==> |b| > 0
  {
    if bins == [] || VolumeOf(bins[|bins| - 1]) + p.volume > cap then bins + [[p]]
    else
      var grown := bins[|bins| - 1] + [p];
      assert grown[|grown| - 1] == p && forall b :: b in bins[..|bins| - 1] ==> b in bins;
      bins[..|bins| - 1] + [grown]
  }

  function VolumeBins(ps: Packages, cap: real): (bins: seq<Packages>)
    ensures forall b :: b in bins ==> |b| > 0
    ensures ps == [] <==> bins == []
  {
    if ps == [] then [] else PlaceInBin(VolumeBins(ps[..|ps| - 1], cap), ps[|ps| - 1], cap)
  }

  lemma BinStep(bins: seq<Packages>, current: Packages, p: PlanningPackage, cap: real)
    requires forall b :: b in bins ==> |b| > 0
    requires current == [] ==> bins == []
    ensures PlaceInBin(if current == [] then [] else bins + [current], p, cap)
         == if |current| > 0 && VolumeOf(current) + p.volume > cap then bins + [current] + [[p]] else bins + [current + [p]]
  {
    if current == [] {
      assert [] + [p] == [p];
    } else {
      assert (bins + [current])[..|bins|] == bins;
    }
  }

  lemma VolumeOfOneMore(ps: Packages, p: PlanningPackage)
    ensures VolumeOf(ps + [p]) == VolumeOf(ps) + p.volume
  {
    assert (ps + [p])[..|ps|] == ps;
  }

  method GreedyVolumeBins(members: Packages, maxBlockVolume: real) returns (bins: seq<Packages>)
    ensures bins == VolumeBins(members, maxBlockVolume)
  {
    bins := [];
    var current: Packages, currentVolume := [], 0.0;
    for i := 0 to |members|
      invariant currentVolume == VolumeOf(current)
      invariant forall b :: b in bins ==> |b| > 0
      invariant current == [] ==> bins == []
      invariant VolumeBins(members[..i], maxBlockVolume) == if current == [] then [] else bins + [current]
    {
      hide PlaceInBin, VolumeOf;
      assert members[..i + 1][..i] == members[..i];
      var p := members[i];
      BinStep(bins, current, p, maxBlockVolume);
      VolumeOfOneMore(current, p);
      VolumeOfOneMore([], p);
      NoVolume();
      assert [] + [p] == [p];
      if |current| > 0 && currentVolume + p.volume > maxBlockVolume {
        bins := bins + [current];
        current := [];
        currentVolume := 0.0;
      }
      current := current + [p];
      currentVolume := currentVolume + p.volume;
    }
    assert members[..|members|] == members;
    if |current| > 0 { bins := bins + [current]; }
  }

  lemma NoVolume()
    ensures VolumeOf([]) == 0.0
  {
  }

  function VolumeSuffix(parent: string, j: nat): string { parent + ("#v" + Decimal(j)) }

  function HandlingSuffix(i: nat): string { "#h" + Decimal(i) }

  function BuildBins(key: BlockKey, bins: seq<Packages>, parent: string): seq<LoadBlock>
    requires forall b :: b in bins ==> |b| > 0
  {
    seq(|bins|, j requires 0 <= j < |bins| => BuildBin(key, bins, parent, j))
  }

  function BuildBin(key: BlockKey, bins: seq<Packages>, parent: string, j: nat): LoadBlock
    requires forall b :: b in bins ==> |b| > 0
    requires j < |bins|
  {
    assert bins[j] in bins;
    BuildLoadBlock(key, bins[j], VolumeSuffix(parent, j))
  }

  function SplitByVolume(key: BlockKey, ps: Packages, config: PlannerConfig, parent: string): seq<LoadBlock> {
    BuildBins(key, VolumeBins(ps, config.maxBlockVolume), parent)
  }

  function SplitFeasible(key: BlockKey, ps: Packages, config: PlannerConfig, parent: string): seq<LoadBlock>
    requires ps != []
  {
    if VolumeOf(ps) > config.maxBlockVolume then SplitByVolume(key, ps, config, parent)
    else [BuildLoadBlock(key, ps, parent)]
  }

  function SplitGroups(key: BlockKey, groups: seq<Packages>, config: PlannerConfig): seq<LoadBlock>
    requires forall g :: g in groups ==> g != []
  {
    if groups == [] then []
    else
      var i := |groups| - 1;
      assert groups[i] in groups && forall g :: g in groups[..i] ==> g in groups;
      SplitGroups(key, groups[..i], config)
      + SplitFeasible(key.(handlingClass := groups[i][0].handlingClass), groups[i], config, HandlingSuffix(i))
  }

  /** A feasible block comes back untouched. */
  function SplitBlock(block: LoadBlock, packages: Packages, config: PlannerConfig): seq<LoadBlock> {
    var members := SortedMembers(Listed(packages, block.packageIds));
    var groups := HandlingGroups(members);
    if |groups| > 1 then SplitGroups(block.key, groups, config)
    else if block.totalVolume > config.maxBlockVolume then SplitByVolume(block.key, members, config, "")
    else [block]
  }

  // ----- Grouping ---------------------------------------------------------------------------------

  function DeriveKey(p: PlanningPackage): BlockKey {
    BlockKey(p.currentHubId, p.nextUnloadHubId, p.finalDestHubId, p.slaClass,
             DeadlineBucket(p.deadline, p.slaClass), p.handlingClass, p.sizeWeightClass)
  }

  datatype Group = Group(id: string, key: BlockKey, members: Packages)

  /** An insertion-ordered map from key texts to groups. */
  function Join(groups: seq<Group>, p: PlanningPackage): (r: seq<Group>)
    requires forall g :: g in groups ==> g.members != []
    ensures forall g :: g in r ==> g.members != []
  {
    if groups == [] then [Group(KeyId(DeriveKey(p)), DeriveKey(p), [p])]
    else if groups[0].id == KeyId(DeriveKey(p)) then [groups[0].(members := groups[0].members + [p])] + groups[1..]
    else [groups[0]] + Join(groups[1..], p)
  }

  function Grouped(ps: Packages): (groups: seq<Group>)
    ensures forall g :: g in groups ==> g.members != []
  {
    if ps == [] then [] else Join(Grouped(ps[..|ps| - 1]), ps[|ps| - 1])
  }

  function Feasible(groups: seq<Group>, config: PlannerConfig): seq<LoadBlock>
    requires forall g :: g in groups ==> g.members != []
  {
    if groups == [] then []
    else
      var last := groups[|groups| - 1];
      assert forall g :: g in groups[..|groups| - 1] ==> g in groups;
      Feasible(groups[..|groups| - 1], config) + SplitBlock(BuildLoadBlock(last.key, last.members, ""), last.members, config)
  }

  function KeyedBlocks(blocks: seq<LoadBlock>): seq<S.Keyed<LoadBlock>> {
    seq(|blocks|, i requires 0 <= i < |blocks| => S.Keyed(0, 0, blocks[i].loadBlockId, blocks[i]))
  }

  function Aggregated(packages: Packages, config: PlannerConfig): seq<LoadBlock> {
    S.Items(S.Sort(KeyedBlocks(Feasible(Grouped(packages), config))))
  }

  method Aggregate(packages: Packages, config: PlannerConfig) returns (blocks: seq<LoadBlock>)
    ensures blocks == Aggregated(packages, config)
  {
    hide SplitBlock, BuildLoadBlock, Join, S.Sort;
    var groups: seq<Group> := [];
    for i := 0 to |packages|
      invariant groups == Grouped(packages[..i])
    {
      assert packages[..i + 1][..i] == packages[..i];
      groups := Join(groups, packages[i]);
    }
    assert packages[..|packages|] == packages;
    var feasible: seq<LoadBlock> := [];
    for i := 0 to |groups|
      invariant forall g :: g in groups[..i] ==> g.members != []
      invariant feasible == Feasible(groups[..i], config)
    {
      assert groups[..i + 1][..i] == groups[..i] && groups[i] in groups;
      var block := BuildLoadBlock(groups[i].key, groups[i].members, "");
      feasible := feasible + SplitBlock(block, groups[i].members, config);
    }
    assert groups[..|groups|] == groups;
    blocks := S.Items(S.Sort(KeyedBlocks(feasible)));
  }
}
