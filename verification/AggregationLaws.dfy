/**
 * Aggregation does not depend on the order of its input. The groups of the insertion-ordered map hold
 * exactly the packages of their key; a block is the same built from its members in any order; splitting
 * depends on the members alone; and the ids of the resulting blocks are distinct, so sorting by id
 * leaves one possible list.
 */
module AggregationLaws {
  import opened PlanningTypes
  import opened BlockIds
  import opened Aggregation
  import S = Sorting

  ghost predicate DistinctPackages(ps: Packages) {
    forall i, j :: 0 <= i < j < |ps| ==> ps[i].packageId != ps[j].packageId
  }

  ghost predicate SameElements(a: Packages, b: Packages) {
    forall p :: p in a <==> p in b
  }

  // ----- Sorting the members changes no total -----------------------------------------------

  lemma KeyedHas(ps: Packages, x: S.Keyed<PlanningPackage>)
    ensures x in KeyedById(ps) <==> x.item in ps && x == S.Keyed(0, 0, x.item.packageId, x.item)
  {
    if x.item in ps && x == S.Keyed(0, 0, x.item.packageId, x.item) {
      var i :| 0 <= i < |ps| && ps[i] == x.item;
      assert KeyedById(ps)[i] == x;
    }
  }

  lemma SortedHas(ps: Packages)
    ensures SameElements(SortedMembers(ps), ps) && |SortedMembers(ps)| == |ps|
  {
    hide S.Sort;
    var sorted := S.Sort(KeyedById(ps));
    S.SortMembers(KeyedById(ps));
    forall p ensures p in SortedMembers(ps) <==> p in ps {
      var x := S.Keyed(0, 0, p.packageId, p);
      KeyedHas(ps, x);
      S.SortHasSame(KeyedById(ps), x);
      if p in ps {
        var i :| 0 <= i < |sorted| && sorted[i] == x;
        assert S.Items(sorted)[i] == p;
      }
      if p in SortedMembers(ps) {
        var i :| 0 <= i < |sorted| && S.Items(sorted)[i] == p;
        S.SortHasSame(KeyedById(ps), sorted[i]);
        KeyedHas(ps, sorted[i]);
      }
    }
  }

  /** Repeat-free lists with the same packages have the same sorted form. */
  lemma SortedIsCanonical(a: Packages, b: Packages)
    requires DistinctPackages(a) && DistinctPackages(b) && SameElements(a, b)
    ensures SortedMembers(a) == SortedMembers(b)
  {
    hide S.Sort;
    forall x ensures x in KeyedById(a) <==> x in KeyedById(b) { KeyedHas(a, x); KeyedHas(b, x); }
    S.SortOfSameElements(KeyedById(a), KeyedById(b));
  }

  lemma SortedStaysDistinct(ps: Packages)
    requires DistinctPackages(ps)
    ensures DistinctPackages(SortedMembers(ps))
  {
    hide S.Sort, S.Strict;
    var sorted := S.Sort(KeyedById(ps));
    S.SortDistinct(KeyedById(ps));
    forall k | 0 <= k < |sorted| ensures sorted[k].name == sorted[k].item.packageId {
      S.SortHasSame(KeyedById(ps), sorted[k]);
      KeyedHas(ps, sorted[k]);
    }
  }

  lemma {:induction false} InsertTotals(sorted: seq<S.Keyed<PlanningPackage>>, x: S.Keyed<PlanningPackage>)
    ensures VolumeOf(S.Items(S.Insert(sorted, x))) == VolumeOf(S.Items(sorted)) + x.item.volume
    ensures WeightOf(S.Items(S.Insert(sorted, x))) == WeightOf(S.Items(sorted)) + x.item.weight
  {
    hide S.Before;
    if sorted == [] || !S.Before(x, sorted[|sorted| - 1]) {
      assert S.Items(sorted + [x]) == S.Items(sorted) + [x.item];
      OneMore(S.Items(sorted), x.item);
    } else {
      var front, last := sorted[..|sorted| - 1], sorted[|sorted| - 1];
      InsertTotals(front, x);
      assert S.Items(S.Insert(front, x) + [last]) == S.Items(S.Insert(front, x)) + [last.item];
      assert S.Items(sorted) == S.Items(front) + [last.item];
      OneMore(S.Items(S.Insert(front, x)), last.item);
      OneMore(S.Items(front), last.item);
    }
  }

  lemma OneMore(ps: Packages, p: PlanningPackage)
    ensures VolumeOf(ps + [p]) == VolumeOf(ps) + p.volume && WeightOf(ps + [p]) == WeightOf(ps) + p.weight
  {
    assert (ps + [p])[..|ps|] == ps;
  }

  lemma {:induction false} SortTotals(keyed: seq<S.Keyed<PlanningPackage>>)
    ensures VolumeOf(S.Items(S.Sort(keyed))) == VolumeOf(S.Items(keyed))
    ensures WeightOf(S.Items(S.Sort(keyed))) == WeightOf(S.Items(keyed))
  {
    hide S.Insert;
    if keyed != [] {
      var front, last := keyed[..|keyed| - 1], keyed[|keyed| - 1];
      SortTotals(front);
      InsertTotals(S.Sort(front), last);
      assert S.Items(keyed) == S.Items(front) + [last.item];
      OneMore(S.Items(front), last.item);
    }
  }

  lemma SortedTotals(ps: Packages)
    ensures VolumeOf(SortedMembers(ps)) == VolumeOf(ps) && WeightOf(SortedMembers(ps)) == WeightOf(ps)
  {
    SortTotals(KeyedById(ps));
    assert S.Items(KeyedById(ps)) == ps;
  }

  lemma {:induction false} EarliestIsLeast(ps: Packages)
    requires ps != []
    ensures forall p :: p in ps ==> Earliest(ps) <= p.deadline
    ensures exists p :: p in ps && Earliest(ps) == p.deadline
  {
    var front, last := ps[..|ps| - 1], ps[|ps| - 1];
    assert ps == front + [last] && last in ps;
    if |ps| > 1 {
      EarliestIsLeast(front);
      var p :| p in front && Earliest(front) == p.deadline;
      assert p in ps;
    }
  }

  lemma SameEarliest(a: Packages, b: Packages)
    requires a != [] && b != [] && SameElements(a, b)
    ensures Earliest(a) == Earliest(b)
  {
    hide Earliest;
    EarliestIsLeast(a);
    EarliestIsLeast(b);
    var p :| p in a && Earliest(a) == p.deadline;
    var q :| q in b && Earliest(b) == q.deadline;
  }

  /** A block is the same built from its members in any order. */
  lemma BuiltFromSorted(key: BlockKey, ps: Packages, suffix: string)
    requires ps != [] && DistinctPackages(ps)
    ensures SortedMembers(ps) != []
    ensures BuildLoadBlock(key, ps, suffix) == BuildLoadBlock(key, SortedMembers(ps), suffix)
  {
    hide SortedMembers, VolumeOf, WeightOf, Earliest, BlockId;
    var sorted := SortedMembers(ps);
    SortedHas(ps);
    SortedTotals(ps);
    SameEarliest(ps, sorted);
    SortedStaysDistinct(ps);
    SortedIsCanonical(sorted, ps);
  }

  // ----- Groups are the packages of one key ----------------------------------------------------

  function WithKey(ps: Packages, key: BlockKey): Packages {
    if ps == [] then []
    else
      var before, last := WithKey(ps[..|ps| - 1], key), ps[|ps| - 1];
      if DeriveKey(last) == key then before + [last] else before
  }

  lemma {:induction false} WithKeyHas(ps: Packages, key: BlockKey)
    ensures forall p :: p in WithKey(ps, key) <==> p in ps && DeriveKey(p) == key
  {
    hide DeriveKey;
    if ps != [] {
      WithKeyHas(ps[..|ps| - 1], key);
      assert ps == ps[..|ps| - 1] + [ps[|ps| - 1]];
    }
  }

  lemma {:induction false} WithKeyDistinct(ps: Packages, key: BlockKey)
    requires DistinctPackages(ps)
    ensures DistinctPackages(WithKey(ps, key))
  {
    hide DeriveKey;
    if ps != [] {
      var front, last := ps[..|ps| - 1], ps[|ps| - 1];
      WithKeyDistinct(front, key);
      WithKeyHas(front, key);
      var before := WithKey(front, key);
      forall i | 0 <= i < |before| ensures before[i].packageId != last.packageId {
        assert before[i] in front;
        var j :| 0 <= j < |front| && front[j] == before[i];
        assert ps[j] == front[j];
      }
    }
  }

  ghost predicate GroupsOf(groups: seq<Group>, ps: Packages) {
    && (forall g :: g in groups ==> g.id == KeyId(g.key) && g.members == WithKey(ps, g.key))
    && (forall i, j :: 0 <= i < j < |groups| ==> groups[i].key != groups[j].key)
    && (forall p :: p in ps ==> exists g :: g in groups && g.key == DeriveKey(p))
  }

  lemma SameKeyText(k: BlockKey, l: BlockKey)
    ensures KeyId(k) == KeyId(l) <==> k == l
  {
    hide KeyId;
    if KeyId(k) == KeyId(l) { KeyIdsApart(k, "", l, ""); }
  }

  /** Joining touches the one group of the key, or opens it at the end. */
  lemma {:induction false} JoinAt(groups: seq<Group>, p: PlanningPackage) returns (i: nat)
    requires forall g :: g in groups ==> g.members != []
    ensures i <= |groups|
    ensures forall j :: 0 <= j < i ==> groups[j].id != KeyId(DeriveKey(p))
    ensures i < |groups| ==> groups[i].id == KeyId(DeriveKey(p))
    ensures Join(groups, p)
         == if i < |groups| then groups[i := groups[i].(members := groups[i].members + [p])]
            else groups + [Group(KeyId(DeriveKey(p)), DeriveKey(p), [p])]
  {
    hide KeyId, DeriveKey;
    if groups == [] || groups[0].id == KeyId(DeriveKey(p)) {
      i := 0;
    } else {
      var k := JoinAt(groups[1..], p);
      i := k + 1;
    }
  }

  lemma WithKeyOneMore(ps: Packages, p: PlanningPackage, key: BlockKey)
    ensures WithKey(ps + [p], key) == if DeriveKey(p) == key then WithKey(ps, key) + [p] else WithKey(ps, key)
  {
    assert (ps + [p])[..|ps|] == ps;
  }

  lemma {:induction false} NoneWithKey(ps: Packages, key: BlockKey)
    requires forall p :: p in ps ==> DeriveKey(p) != key
    ensures WithKey(ps, key) == []
  {
    hide DeriveKey;
    if ps != [] {
      assert ps == ps[..|ps| - 1] + [ps[|ps| - 1]] && ps[|ps| - 1] in ps;
      NoneWithKey(ps[..|ps| - 1], key);
    }
  }

  lemma JoinKeepsGroups(groups: seq<Group>, ps: Packages, p: PlanningPackage)
    requires GroupsOf(groups, ps) && forall g :: g in groups ==> g.members != []
    ensures GroupsOf(Join(groups, p), ps + [p])
  {
    hide KeyId, DeriveKey, Join, WithKey;
    var key, r := DeriveKey(p), Join(groups, p);
    var i := JoinAt(groups, p);
    forall j | 0 <= j < |groups| ensures groups[j].id == KeyId(groups[j].key) && (groups[j].key == key <==> j == i) {
      assert groups[j] in groups;
      SameKeyText(groups[j].key, key);
      if i < |groups| { assert groups[i] in groups; SameKeyText(groups[i].key, key); }
    }
    if i == |groups| {
      forall q | q in ps ensures DeriveKey(q) != key {
        var g :| g in groups && g.key == DeriveKey(q);
        var j :| 0 <= j < |groups| && groups[j] == g;
      }
      NoneWithKey(ps, key);
      assert [] + [p] == [p];
    }
    forall g | g in r ensures g.id == KeyId(g.key) && g.members == WithKey(ps + [p], g.key) {
      WithKeyOneMore(ps, p, g.key);
      var j :| 0 <= j < |r| && r[j] == g;
    }
    forall q | q in ps + [p] ensures exists g :: g in r && g.key == DeriveKey(q) {
      if q == p {
        assert r[i] in r;
      } else {
        assert q in ps;
        var g :| g in groups && g.key == DeriveKey(q);
        var j :| 0 <= j < |groups| && groups[j] == g;
        assert r[j] in r && r[j].key == g.key;
      }
    }
  }

  lemma {:induction false} GroupedByKey(ps: Packages)
    ensures GroupsOf(Grouped(ps), ps)
  {
    hide Join, GroupsOf;
    if ps == [] {
      NoGroups();
    } else {
      GroupedByKey(ps[..|ps| - 1]);
      JoinKeepsGroups(Grouped(ps[..|ps| - 1]), ps[..|ps| - 1], ps[|ps| - 1]);
      assert ps[..|ps| - 1] + [ps[|ps| - 1]] == ps;
    }
  }

  lemma NoGroups()
    ensures GroupsOf([], [])
  {
  }

  // ----- What one group contributes ---------------------------------------------------------------

  lemma {:induction false} ListedAll(ps: Packages, ids: seq<string>)
    requires forall p :: p in ps ==> p.packageId in ids
    ensures Listed(ps, ids) == ps
  {
    if ps != [] {
      assert ps == ps[..|ps| - 1] + [ps[|ps| - 1]] && ps[|ps| - 1] in ps;
      ListedAll(ps[..|ps| - 1], ids);
    }
  }

  lemma BuiltIdsListAll(key: BlockKey, ps: Packages, suffix: string)
    requires ps != []
    ensures Listed(ps, BuildLoadBlock(key, ps, suffix).packageIds) == ps
  {
    hide SortedMembers, VolumeOf, WeightOf, Earliest, BlockId;
    var sorted := SortedMembers(ps);
    SortedHas(ps);
    forall p | p in ps ensures p.packageId in IdsOf(sorted) {
      var i :| 0 <= i < |sorted| && sorted[i] == p;
      assert IdsOf(sorted)[i] == p.packageId;
    }
    ListedAll(ps, IdsOf(sorted));
  }

  lemma OneClassOneGroup(ps: Packages, c: HandlingClass)
    requires forall p :: p in ps ==> p.handlingClass == c
    ensures HandlingGroups(ps) == [ps]
  {
  }

  /** A group of one key is only ever cut by volume. */
  lemma GroupSplitsByVolume(key: BlockKey, ps: Packages, config: PlannerConfig)
    requires ps != [] && DistinctPackages(ps) && forall p :: p in ps ==> p.handlingClass == key.handlingClass
    ensures SortedMembers(ps) != []
    ensures SplitBlock(BuildLoadBlock(key, ps, ""), ps, config) == SplitFeasible(key, SortedMembers(ps), config, "")
  {
    hide SortedMembers, VolumeOf, WeightOf, Earliest, BlockId, Listed, HandlingGroups, SplitByVolume;
    SortedHas(ps);
    BuiltIdsListAll(key, ps, "");
    OneClassOneGroup(SortedMembers(ps), key.handlingClass);
    SortedTotals(ps);
    BuiltFromSorted(key, ps, "");
  }

  /** The blocks of one key, from its packages in id order. */
  function BlocksOfKey(ps: Packages, key: BlockKey, config: PlannerConfig): seq<LoadBlock>
    requires SortedMembers(WithKey(ps, key)) != []
  {
    SplitFeasible(key, SortedMembers(WithKey(ps, key)), config, "")
  }

  lemma GroupContribution(ps: Packages, g: Group, config: PlannerConfig)
    requires DistinctPackages(ps) && g.members == WithKey(ps, g.key) && g.members != []
    ensures SortedMembers(WithKey(ps, g.key)) != []
    ensures SplitBlock(BuildLoadBlock(g.key, g.members, ""), g.members, config) == BlocksOfKey(ps, g.key, config)
  {
    hide SplitBlock, BuildLoadBlock, SplitFeasible, SortedMembers, WithKey;
    WithKeyHas(ps, g.key);
    WithKeyDistinct(ps, g.key);
    GroupSplitsByVolume(g.key, g.members, config);
  }

  predicate InKey(b: LoadBlock, ps: Packages, key: BlockKey, config: PlannerConfig) {
    SortedMembers(WithKey(ps, key)) != [] && b in BlocksOfKey(ps, key, config)
  }

  ghost predicate FromKey(b: LoadBlock, ps: Packages, config: PlannerConfig, p: PlanningPackage) {
    p in ps && InKey(b, ps, DeriveKey(p), config)
  }

  lemma {:induction false} FeasibleHas(ps: Packages, groups: seq<Group>, config: PlannerConfig, b: LoadBlock)
    requires DistinctPackages(ps)
    requires forall g :: g in groups ==> g.members != [] && g.members == WithKey(ps, g.key)
    ensures b in Feasible(groups, config) <==> exists g :: g in groups && InKey(b, ps, g.key, config)
  {
    hide SplitBlock, BuildLoadBlock, SplitFeasible, SortedMembers, WithKey, BlocksOfKey;
    if groups != [] {
      var front, last := groups[..|groups| - 1], groups[|groups| - 1];
      assert groups == front + [last] && last in groups;
      FeasibleHas(ps, front, config, b);
      GroupContribution(ps, last, config);
    }
  }

  lemma FeasibleByKey(ps: Packages, config: PlannerConfig, b: LoadBlock)
    requires DistinctPackages(ps)
    ensures b in Feasible(Grouped(ps), config) <==> exists p :: FromKey(b, ps, config, p)
  {
    var groups := Grouped(ps);
    GroupedByKey(ps);
    hide SplitBlock, BuildLoadBlock, SplitFeasible, SortedMembers, WithKey, BlocksOfKey, Grouped, Feasible, DeriveKey, KeyId;
    FeasibleHas(ps, groups, config, b);
    if exists p :: FromKey(b, ps, config, p) {
      var p :| FromKey(b, ps, config, p);
      var g :| g in groups && g.key == DeriveKey(p);
    }
    if b in Feasible(groups, config) {
      var g :| g in groups && InKey(b, ps, g.key, config);
      WithKeyHas(ps, g.key);
      assert g.members[0] in g.members;
      assert FromKey(b, ps, config, g.members[0]);
    }
  }

  // ----- Ids are distinct -----------------------------------------------------------------------------

  ghost predicate DistinctIds(blocks: seq<LoadBlock>) {
    forall i, j :: 0 <= i < j < |blocks| ==> blocks[i].loadBlockId != blocks[j].loadBlockId
  }

  /** All named after the same key. */
  ghost predicate NamedAfter(blocks: seq<LoadBlock>, key: BlockKey) {
    forall b :: b in blocks ==> b.key == key && exists suffix :: b.loadBlockId == BlockId(key, suffix)
  }

  lemma GroupIdsDistinct(key: BlockKey, ps: Packages, config: PlannerConfig, parent: string)
    requires ps != []
    ensures DistinctIds(SplitFeasible(key, ps, config, parent)) && NamedAfter(SplitFeasible(key, ps, config, parent), key)
  {
    hide BlockId, SortedMembers, VolumeOf, WeightOf, Earliest, VolumeBins, Decimal;
    var blocks := SplitFeasible(key, ps, config, parent);
    forall b | b in blocks ensures b.key == key && exists suffix :: b.loadBlockId == BlockId(key, suffix) {
      var i :| 0 <= i < |blocks| && blocks[i] == b;
      assert b.loadBlockId == BlockId(key, parent) || b.loadBlockId == BlockId(key, VolumeSuffix(parent, i));
    }
    forall i, j | 0 <= i < j < |blocks| ensures blocks[i].loadBlockId != blocks[j].loadBlockId {
      BlockIdIsInjective(key, VolumeSuffix(parent, i), key, VolumeSuffix(parent, j));
      SuffixesDiffer(parent, i, j);
    }
  }

  lemma SuffixesDiffer(parent: string, i: nat, j: nat)
    requires i != j
    ensures VolumeSuffix(parent, i) != VolumeSuffix(parent, j)
  {
    hide Decimal;
    if VolumeSuffix(parent, i) == VolumeSuffix(parent, j) {
      SplitEqual(parent, "#v" + Decimal(i), parent, "#v" + Decimal(j));
      SplitEqual("#v", Decimal(i), "#v", Decimal(j));
      DecimalIsInjective(i, j);
    }
  }

  lemma DistinctTogether(a: seq<LoadBlock>, b: seq<LoadBlock>, key: BlockKey)
    requires DistinctIds(a) && DistinctIds(b) && NamedAfter(b, key)
    requires forall x :: x in a ==> x.key != key && exists suffix :: x.loadBlockId == BlockId(x.key, suffix)
    ensures DistinctIds(a + b)
  {
    hide BlockId;
    forall i, j | 0 <= i < j < |a + b| ensures (a + b)[i].loadBlockId != (a + b)[j].loadBlockId {
      if i < |a| <= j {
        var x, y := a[i], b[j - |a|];
        assert x in a && y in b;
        var s :| x.loadBlockId == BlockId(x.key, s);
        var t :| y.loadBlockId == BlockId(key, t);
        BlockIdIsInjective(x.key, s, key, t);
      }
    }
  }

  lemma {:induction false} FeasibleIdsDistinct(ps: Packages, groups: seq<Group>, config: PlannerConfig)
    requires DistinctPackages(ps)
    requires forall g :: g in groups ==> g.members != [] && g.members == WithKey(ps, g.key)
    requires forall i, j :: 0 <= i < j < |groups| ==> groups[i].key != groups[j].key
    ensures DistinctIds(Feasible(groups, config))
    ensures forall b :: b in Feasible(groups, config) ==>
      (exists g :: g in groups && g.key == b.key) && exists suffix :: b.loadBlockId == BlockId(b.key, suffix)
  {
    hide BlockId, SplitBlock, BuildLoadBlock, SplitFeasible, SortedMembers, WithKey;
    if groups != [] {
      var front, last := groups[..|groups| - 1], groups[|groups| - 1];
      assert groups == front + [last] && last in groups;
      FeasibleIdsDistinct(ps, front, config);
      GroupContribution(ps, last, config);
      GroupIdsDistinct(last.key, SortedMembers(last.members), config, "");
      var before := Feasible(front, config);
      forall x | x in before ensures x.key != last.key {
        var g :| g in front && g.key == x.key;
        var i :| 0 <= i < |front| && front[i] == g;
        assert groups[i].key == g.key;
      }
      DistinctTogether(before, BlocksOfKey(ps, last.key, config), last.key);
    }
  }

  lemma KeyedBlocksHas(blocks: seq<LoadBlock>, x: S.Keyed<LoadBlock>)
    ensures x in KeyedBlocks(blocks) <==> x.item in blocks && x == S.Keyed(0, 0, x.item.loadBlockId, x.item)
  {
    if x.item in blocks && x == S.Keyed(0, 0, x.item.loadBlockId, x.item) {
      var i :| 0 <= i < |blocks| && blocks[i] == x.item;
      assert KeyedBlocks(blocks)[i] == x;
    }
  }

  lemma GroupedFacts(ps: Packages)
    ensures forall g :: g in Grouped(ps) ==> g.members != [] && g.members == WithKey(ps, g.key)
    ensures forall i, j :: 0 <= i < j < |Grouped(ps)| ==> Grouped(ps)[i].key != Grouped(ps)[j].key
  {
    GroupedByKey(ps);
  }

  /** Block ids are distinct and come out in ascending order. */
  lemma BlockIdsAscend(ps: Packages, config: PlannerConfig)
    requires DistinctPackages(ps)
    ensures var blocks := Aggregated(ps, config);
      forall i, j :: 0 <= i < j < |blocks| ==> S.Less(blocks[i].loadBlockId, blocks[j].loadBlockId)
  {
    hide S.Sort, S.Less, Feasible, Grouped, WithKey, BlockId;
    GroupedFacts(ps);
    FeasibleIdsDistinct(ps, Grouped(ps), config);
    var feasible := Feasible(Grouped(ps), config);
    var sorted := S.Sort(KeyedBlocks(feasible));
    S.SortDistinct(KeyedBlocks(feasible));
    forall k | 0 <= k < |sorted| ensures sorted[k] == S.Keyed(0, 0, sorted[k].item.loadBlockId, sorted[k].item) {
      S.SortHasSame(KeyedBlocks(feasible), sorted[k]);
      KeyedBlocksHas(feasible, sorted[k]);
    }
    forall i, j | 0 <= i < j < |sorted|
      ensures S.Less(S.Items(sorted)[i].loadBlockId, S.Items(sorted)[j].loadBlockId) {
      assert S.Before(sorted[i], sorted[j]);
    }
  }

  // ----- The order of the packages does not matter -------------------------------------------------------

  lemma SameKeySameBlocks(a: Packages, b: Packages, config: PlannerConfig, x: LoadBlock, p: PlanningPackage)
    requires DistinctPackages(a) && DistinctPackages(b) && SameElements(a, b)
    ensures FromKey(x, a, config, p) <==> FromKey(x, b, config, p)
  {
    hide SortedMembers, WithKey, SplitFeasible, DeriveKey;
    var key := DeriveKey(p);
    WithKeyHas(a, key);
    WithKeyHas(b, key);
    WithKeyDistinct(a, key);
    WithKeyDistinct(b, key);
    SortedIsCanonical(WithKey(a, key), WithKey(b, key));
  }

  /** Any reordering of repeat-free input aggregates to the same list of blocks. */
  lemma AggregateIgnoresOrder(a: Packages, b: Packages, config: PlannerConfig)
    requires DistinctPackages(a) && DistinctPackages(b) && SameElements(a, b)
    ensures Aggregated(a, config) == Aggregated(b, config)
  {
    hide S.Sort, Feasible, Grouped, WithKey, FromKey, BlockId;
    GroupedFacts(a);
    GroupedFacts(b);
    FeasibleIdsDistinct(a, Grouped(a), config);
    FeasibleIdsDistinct(b, Grouped(b), config);
    var fa, fb := Feasible(Grouped(a), config), Feasible(Grouped(b), config);
    forall x ensures x in KeyedBlocks(fa) <==> x in KeyedBlocks(fb) {
      KeyedBlocksHas(fa, x);
      KeyedBlocksHas(fb, x);
      FeasibleByKey(a, config, x.item);
      FeasibleByKey(b, config, x.item);
      forall p ensures FromKey(x.item, a, config, p) <==> FromKey(x.item, b, config, p) {
        SameKeySameBlocks(a, b, config, x.item, p);
      }
    }
    S.SortOfSameElements(KeyedBlocks(fa), KeyedBlocks(fb));
  }
}
