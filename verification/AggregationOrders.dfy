/**
 * Deadlines in aggregation: what sharing a bucket means, and that the one number a block is ranked by puts
 * the class of service first and the earliest deadline second.
 */
module AggregationOrders {
  import opened PlanningTypes
  import opened Aggregation
  import L = AggregationLaws
  import T = AggregationTotals
  import S = Sorting

  // ----- Buckets ----------------------------------------------------------------------------------

  function Hours(sla: SlaClass): nat {
    match sla case EXPRESS => 1 case PRIORITY => 4 case STANDARD => 12 case ECONOMY => 24
  }

  /** The window of a bucket, in milliseconds from the epoch. */
  predicate InWindow(deadline: nat, bucket: nat, sla: SlaClass) {
    Hours(sla) * bucket * 3_600_000 <= deadline < Hours(sla) * (bucket + 1) * 3_600_000
  }

  lemma WidthIsHours(sla: SlaClass)
    ensures BucketWidth(sla) == Hours(sla) * 3_600_000
  {
  }

  lemma QuotientIs(x: nat, w: nat, q: nat)
    requires w > 0
    ensures x / w == q <==> w * q <= x < w * (q + 1)
  {
    var a, r := x / w, x % w;
    assert x == a * w + r;
    if a < q { assert w * (a + 1) <= w * q by { Product(w, q - a - 1); assert w * (q - a - 1) == w * q - w * (a + 1); } }
    if q < a { assert w * (q + 1) <= w * a by { Product(w, a - q - 1); assert w * (a - q - 1) == w * a - w * (q + 1); } }
  }

  lemma Product(a: nat, b: nat)
    ensures a * b >= 0
  {
  }

  /** A bucket is one window of one, four, twelve or twenty-four hours, by class. */
  lemma BucketIsAWindow(deadline: nat, sla: SlaClass, bucket: nat)
    ensures DeadlineBucket(deadline, sla) == bucket <==> InWindow(deadline, bucket, sla)
  {
    WidthIsHours(sla);
    QuotientIs(deadline, BucketWidth(sla), bucket);
    assert BucketWidth(sla) * bucket == Hours(sla) * bucket * 3_600_000;
    assert BucketWidth(sla) * (bucket + 1) == Hours(sla) * (bucket + 1) * 3_600_000;
  }

  /** The package stands where the block stands, leaves it where the block is unloaded, and is due in its window. */
  predicate Belongs(p: PlanningPackage, key: BlockKey) {
    && p.currentHubId == key.currentHubId && p.nextUnloadHubId == key.nextUnloadHubId && p.finalDestHubId == key.finalDestHubId
    && p.slaClass == key.slaClass && p.handlingClass == key.handlingClass && p.sizeWeightClass == key.sizeWeightClass
    && InWindow(p.deadline, key.deadlineBucket, p.slaClass)
  }

  lemma DerivedMeansBelongs(p: PlanningPackage, key: BlockKey)
    ensures DeriveKey(p) == key <==> Belongs(p, key)
  {
    BucketIsAWindow(p.deadline, p.slaClass, key.deadlineBucket);
    hide InWindow, DeadlineBucket;
  }

  /** Every package a block lists is bound, classed and due as the block is. */
  lemma MembersBelong(ps: Packages, config: PlannerConfig, b: LoadBlock, id: string) returns (p: PlanningPackage)
    requires L.DistinctPackages(ps) && b in Aggregated(ps, config) && id in b.packageIds
    ensures p in ps && p.packageId == id && Belongs(p, b.key)
  {
    hide Aggregated, DeriveKey, Belongs;
    T.BlocksShareOneKey(ps, config, b);
    p :| p in ps && p.packageId == id && DeriveKey(p) == b.key;
    DerivedMeansBelongs(p, b.key);
  }

  /** Packages that can share a block have the same hubs and class, and deadlines less than a window apart. */
  lemma SharedKeyMeansCloseDeadlines(p: PlanningPackage, q: PlanningPackage)
    requires DeriveKey(p) == DeriveKey(q)
    ensures p.slaClass == q.slaClass && p.handlingClass == q.handlingClass && p.sizeWeightClass == q.sizeWeightClass
    ensures p.currentHubId == q.currentHubId && p.nextUnloadHubId == q.nextUnloadHubId && p.finalDestHubId == q.finalDestHubId
    ensures -(Hours(p.slaClass) * 3_600_000) < p.deadline - q.deadline < Hours(p.slaClass) * 3_600_000
  {
    var bucket := DeadlineBucket(p.deadline, p.slaClass);
    BucketIsAWindow(p.deadline, p.slaClass, bucket);
    BucketIsAWindow(q.deadline, p.slaClass, bucket);
    assert Hours(p.slaClass) * (bucket + 1) * 3_600_000 == Hours(p.slaClass) * bucket * 3_600_000 + Hours(p.slaClass) * 3_600_000;
  }

  // ----- Priority -----------------------------------------------------------------------------------

  predicate MoreUrgent(a: SlaClass, b: SlaClass) { Hours(a) < Hours(b) }

  /** How far into the time up to the year 3000 a deadline lies. */
  function Lateness(deadline: nat): real {
    var fraction := deadline as real / DEADLINE_HORIZON_MS;
    (if fraction < 1.0 then fraction else 1.0) * MAX_FRACTION
  }

  lemma LatenessInRange(deadline: nat)
    ensures 0.0 <= Lateness(deadline) < 1.0
  {
    var x := deadline as real / DEADLINE_HORIZON_MS;
    assert x >= 0.0;
    var y := if x < 1.0 then x else 1.0;
    assert y * MAX_FRACTION <= MAX_FRACTION;
  }

  lemma LatenessGrowsIff(a: nat, b: nat)
    ensures Lateness(a) < Lateness(b) <==> a < b && a as real < DEADLINE_HORIZON_MS
  {
    var x, y := a as real / DEADLINE_HORIZON_MS, b as real / DEADLINE_HORIZON_MS;
    assert x < y <==> a < b;
    assert x < 1.0 <==> a as real < DEADLINE_HORIZON_MS;
    var u, v := if x < 1.0 then x else 1.0, if y < 1.0 then y else 1.0;
    assert u * MAX_FRACTION < v * MAX_FRACTION <==> u < v;
  }

  /**
   * One block outranks another if and only if its class is more urgent, or the classes are equal and its
   * deadline is earlier; deadlines past the horizon all rank equal-latest.
   */
  lemma PriorityIsLexicographic(a: SlaClass, d: nat, b: SlaClass, e: nat)
    ensures BlockPriority(a, d) > BlockPriority(b, e)
       <==> MoreUrgent(a, b) || (a == b && d < e && d as real < DEADLINE_HORIZON_MS)
  {
    LatenessInRange(d);
    LatenessInRange(e);
    LatenessGrowsIff(d, e);
    assert BlockPriority(a, d) == SlaWeight(a) - Lateness(d) && BlockPriority(b, e) == SlaWeight(b) - Lateness(e);
    hide Lateness;
  }

  /** A block is ranked by its most pressing member and lists as many packages as it counts. */
  lemma BlockRanksByItsEarliest(key: BlockKey, ps: Packages, suffix: string) returns (p: PlanningPackage)
    requires ps != []
    ensures var block := BuildLoadBlock(key, ps, suffix);
      && block.packageCount == |ps| == |block.packageIds|
      && p in ps && block.priority == BlockPriority(key.slaClass, p.deadline) && forall q :: q in ps ==> p.deadline <= q.deadline
  {
    hide BlockPriority, Earliest, VolumeOf, WeightOf, S.Sort;
    L.EarliestIsLeast(ps);
    p :| p in ps && p.deadline == Earliest(ps);
    S.SortMembers(KeyedById(ps));
  }
}
