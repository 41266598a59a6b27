/**
 * What an observation does to the belief: the zone its reader stands for gains exactly when the matched
 * likelihood is above a third, the other two keep their ratio, and a reader that stands for no zone moves
 * nothing. From the uniform prior one strong enough read decides the zone.
 */
module FusionEvidence {
  import opened Fusion
  import opened FusionLaws

  /** The belief after the observation, before the entropy floor is blended in. */
  function Weighed(predicted: Distribution, o: Observation, config: FusionConfig): Distribution {
    Normalize(Product(predicted, ZoneLikelihood(o, config)))
  }

  predicate Maps(config: FusionConfig, o: Observation, z: Zone) {
    o.readerId in config.readerZoneEvidence && config.readerZoneEvidence[o.readerId] == z
  }

  // ----- One observation ---------------------------------------------------------------------

  lemma SignOfProduct(a: real, b: real)
    requires a >= 0.0
    ensures b >= 0.0 ==> a * b >= 0.0
    ensures a > 0.0 && b > 0.0 ==> a * b > 0.0
    ensures a > 0.0 && b < 0.0 ==> a * b < 0.0
  {
  }

  lemma QuotientAgainst(a: real, t: real, p: real)
    requires t > 0.0
    ensures a / t >= p <==> a - p * t >= 0.0
    ensures a / t > p <==> a - p * t > 0.0
  {
    QuotientTimes(a, t);
    ProductAgainst(a / t, a, t, p);
  }

  lemma ProductAgainst(q: real, a: real, t: real, p: real)
    requires t > 0.0 && q * t == a
    ensures q >= p <==> a - p * t >= 0.0
    ensures q > p <==> a - p * t > 0.0
  {
    var x, y := q * t, p * t;
    if q > p {
      Larger(q, p, t);
      assert x > y;
    } else if q < p {
      Larger(p, q, t);
      assert x < y;
    }
  }

  lemma Larger(a: real, b: real, t: real)
    requires a > b && t > 0.0
    ensures a * t > b * t
  {
    var d := a - b;
    SignOfProduct(d, t);
    assert (b + d) * t == b * t + d * t;
  }

  /** The weight gained: `p` of a zone against `1 - p` elsewhere, weighed `m` against `others`. */
  lemma Gain(p: real, m: real, others: real, t: real)
    requires t == m * p + others * (1.0 - p)
    ensures m * p - p * t == p * (1.0 - p) * (m - others)
  {
    assert p * t == p * (m * p) + p * (others * (1.0 - p));
    assert p * (others * (1.0 - p)) == p * (1.0 - p) * others;
    assert m * p - p * (m * p) == p * (1.0 - p) * m;
    assert p * (1.0 - p) * (m - others) == p * (1.0 - p) * m - p * (1.0 - p) * others;
  }

  lemma TotalWeight(predicted: Distribution, o: Observation, config: FusionConfig, z: Zone)
    requires Sane(config) && IsDistribution(predicted) && Maps(config, o, z)
    ensures var m, p, w := Matched(o, config), At(predicted, z), Product(predicted, ZoneLikelihood(o, config));
      && At(w, z) == m * p && Total(w) == m * p + ((1.0 - m) / 2.0) * (1.0 - p) && Total(w) > 0.0
      && 0.0 < m < 1.0
  {
    hide Matched;
    MatchedInRange(o, config);
    var m := Matched(o, config);
    var others := (1.0 - m) / 2.0;
    var w := Product(predicted, ZoneLikelihood(o, config));
    SumTimes(others, predicted.rear, predicted.middle);
    SumTimes(others, predicted.rear, predicted.nose);
    SumTimes(others, predicted.middle, predicted.nose);
    WeightIsPositive(m, others, At(predicted, z));
  }

  lemma SumTimes(k: real, a: real, b: real)
    ensures k * (a + b) == a * k + b * k
  {
  }

  lemma WeightIsPositive(m: real, others: real, p: real)
    requires m > 0.0 && others > 0.0 && 0.0 <= p <= 1.0
    ensures m * p + others * (1.0 - p) > 0.0
  {
    SignOfProduct(m, p);
    SignOfProduct(others, 1.0 - p);
  }

  /**
   * Evidence for a zone: it ends up no less likely than predicted if and only if the matched likelihood
   * is at least a third (or the prediction was settled about it), and likelier under the strict version.
   */
  lemma EvidenceFavoursItsZone(predicted: Distribution, o: Observation, config: FusionConfig, z: Zone)
    requires Sane(config) && IsDistribution(predicted) && Maps(config, o, z)
    ensures var m, p, u := Matched(o, config), At(predicted, z), At(Weighed(predicted, o, config), z);
      && (u >= p <==> m >= 1.0 / 3.0 || p == 0.0 || p == 1.0)
      && (u > p <==> m > 1.0 / 3.0 && 0.0 < p < 1.0)
  {
    hide Matched, ZoneLikelihood, Product, Total, Normalize;
    TotalWeight(predicted, o, config, z);
    var w := Product(predicted, ZoneLikelihood(o, config));
    NormalizedAt(w, z);
    AtMostOne(predicted, z);
    hide IsDistribution, Sane, At;
    GainDecides(At(predicted, z), Matched(o, config), Total(w), At(Normalize(w), z));
  }

  lemma NormalizedAt(w: Distribution, z: Zone)
    requires Total(w) > 0.0
    ensures At(Normalize(w), z) * Total(w) == At(w, z)
  {
    QuotientTimes(At(w, z), Total(w));
  }

  lemma GainDecides(p: real, m: real, t: real, u: real)
    requires 0.0 <= p <= 1.0 && t == m * p + ((1.0 - m) / 2.0) * (1.0 - p) && t > 0.0 && u * t == m * p
    ensures u >= p <==> m >= 1.0 / 3.0 || p == 0.0 || p == 1.0
    ensures u > p <==> m > 1.0 / 3.0 && 0.0 < p < 1.0
  {
    var others := (1.0 - m) / 2.0;
    Gain(p, m, others, t);
    ProductAgainst(u, m * p, t, p);
    SignOfGain(p, m, others);
  }

  lemma AtMostOne(p: Distribution, z: Zone)
    requires IsDistribution(p)
    ensures 0.0 <= At(p, z) <= 1.0
  {
  }

  lemma SignOfGain(p: real, m: real, others: real)
    requires 0.0 <= p <= 1.0
    ensures p * (1.0 - p) * (m - others) >= 0.0 <==> m >= others || p == 0.0 || p == 1.0
    ensures p * (1.0 - p) * (m - others) > 0.0 <==> m > others && 0.0 < p < 1.0
  {
    if p == 0.0 || p == 1.0 {
      assert p * (1.0 - p) == 0.0;
    } else {
      SignOfProduct(p, 1.0 - p);
      SignOfProduct(p * (1.0 - p), m - others);
    }
  }

  /** The two zones the reader says nothing about keep their ratio. */
  lemma OthersKeepTheirRatio(predicted: Distribution, o: Observation, config: FusionConfig, z: Zone, x: Zone, y: Zone)
    requires Sane(config) && IsDistribution(predicted) && Maps(config, o, z) && x != z && y != z
    ensures var u := Weighed(predicted, o, config); At(u, x) * At(predicted, y) == At(u, y) * At(predicted, x)
  {
    hide Matched, Product, ZoneLikelihood, Total, Normalize;
    TotalWeight(predicted, o, config, z);
    OtherWeight(predicted, o, config, z, x);
    OtherWeight(predicted, o, config, z, y);
    var others := (1.0 - Matched(o, config)) / 2.0;
    var w := Product(predicted, ZoneLikelihood(o, config));
    NormalizedAt(w, x);
    NormalizedAt(w, y);
    hide IsDistribution, Sane, At;
    CrossRatio(At(predicted, x), At(predicted, y), others, Total(w), At(Normalize(w), x), At(Normalize(w), y));
  }

  lemma OtherWeight(predicted: Distribution, o: Observation, config: FusionConfig, z: Zone, x: Zone)
    requires Maps(config, o, z) && x != z
    ensures At(Product(predicted, ZoneLikelihood(o, config)), x) == At(predicted, x) * ((1.0 - Matched(o, config)) / 2.0)
  {
    hide Matched;
  }

  lemma CrossRatio(a: real, b: real, k: real, t: real, x: real, y: real)
    requires t > 0.0 && x * t == a * k && y * t == b * k
    ensures x * b == y * a
  {
    assert (x * b) * t == (x * t) * b == (a * k) * b;
    assert (y * a) * t == (y * t) * a == (b * k) * a;
    assert (a * k) * b == (b * k) * a;
    SameWhenScaled(x * b, y * a, t);
  }

  lemma SameWhenScaled(u: real, v: real, t: real)
    requires t > 0.0 && u * t == v * t
    ensures u == v
  {
    SignOfProduct(t, u - v);
    SignOfProduct(t, v - u);
    assert t * (u - v) == u * t - v * t && t * (v - u) == v * t - u * t;
  }

  /** A reader that stands for no zone leaves the prediction as it was. */
  lemma UnmappedReaderMovesNothing(predicted: Distribution, o: Observation, config: FusionConfig)
    requires IsDistribution(predicted) && o.readerId !in config.readerZoneEvidence
    ensures Weighed(predicted, o, config) == predicted
  {
    Halved(predicted.rear);
    Halved(predicted.middle);
    Halved(predicted.nose);
  }

  lemma Halved(x: real)
    ensures (x * 0.5) / 0.5 == x
  {
  }

  /** What was certainly in a zone is next where the row of that zone puts it. */
  lemma CertaintyFollowsItsRow(m: Matrix, z: Zone)
    requires Total(m.rear) == 1.0 && Total(m.middle) == 1.0 && Total(m.nose) == 1.0
    ensures ApplyTransition(Distribution(if z == Rear then 1.0 else 0.0, if z == Middle then 1.0 else 0.0, if z == Nose then 1.0 else 0.0), m)
            == match z case Rear => m.rear case Middle => m.middle case Nose => m.nose
  {
    var row := match z case Rear => m.rear case Middle => m.middle case Nose => m.nose;
    NormalizedWhole(row);
  }

  // ----- How strong the evidence is --------------------------------------------------------------

  lemma DensityIsMonotone(a: int, b: int, saturation: int)
    requires a <= b
    ensures 0.0 <= DensityWeight(a, saturation) <= DensityWeight(b, saturation) <= 1.0
  {
    if saturation > 0 { QuotientMonotone(a as real, b as real, saturation as real); }
  }

  /** The pull of the read count from `base` towards the cap. */
  lemma PullIsMonotone(base: real, more: real, cap: real, d: real, denser: real)
    requires base <= more <= cap && 0.0 <= d <= denser <= 1.0
    ensures Pulled(base, d, cap) <= Pulled(more, denser, cap)
  {
    TimesMonotone(d, denser, cap - more);
    TimesNonNegative(more - base, 1.0 - d * 0.5);
    assert (more - base) * (1.0 - d * 0.5) == (more - base) - (more - base) * (d * 0.5);
    assert (cap - base) * d == (cap - more) * d + (more - base) * d;
  }

  /** More reads and a stronger signal of the same kind of reader are never weaker evidence. */
  lemma MatchedIsMonotone(o: Observation, more: Observation, config: FusionConfig)
    requires Sane(config) && o.readerType == more.readerType
    requires o.aggregatedRssi <= more.aggregatedRssi && o.readCount <= more.readCount
    ensures Matched(o, config) <= Matched(more, config)
  {
    hide RssiToLikelihood, DensityWeight, Clamp, Pulled;
    LikelihoodIsMonotone(o.aggregatedRssi, more.aggregatedRssi, o.readerType, config);
    DensityIsMonotone(o.readCount, more.readCount, config.readCountSaturation);
    hide Sane;
    var a, b := RssiToLikelihood(o.aggregatedRssi, o.readerType, config), RssiToLikelihood(more.aggregatedRssi, o.readerType, config);
    var d, e := DensityWeight(o.readCount, config.readCountSaturation), DensityWeight(more.readCount, config.readCountSaturation);
    PullIsMonotone(a, b, config.maxLikelihood, d, e);
    ClampIsMonotone(Pulled(a, d, config.maxLikelihood), Pulled(b, e, config.maxLikelihood), config.minLikelihood, config.maxLikelihood);
  }

  /**
   * The default scale: a dock portal at the ceiling counts in full, one at the floor with no reads not at
   * all, and a saturated reader closes half the gap that its signal leaves.
   */
  lemma DefaultScale(o: Observation, evidence: map<string, Zone>)
    ensures o.readerType == DockPortal && o.aggregatedRssi >= -45.0 && o.readCount >= 0 ==> Matched(o, DefaultConfig(evidence)) == 0.85
    ensures o.aggregatedRssi <= -90.0 && o.readCount <= 0 ==> Matched(o, DefaultConfig(evidence)) == 0.05
    ensures o.aggregatedRssi <= -90.0 && o.readCount >= 40 ==> Matched(o, DefaultConfig(evidence)) == 0.45
    ensures o.readerType == TrailerAntenna && o.aggregatedRssi >= -45.0 && o.readCount <= 0 ==> Matched(o, DefaultConfig(evidence)) == 0.61
  {
    var config := DefaultConfig(evidence);
    assert o.aggregatedRssi >= -45.0 ==> Fraction(o.aggregatedRssi, config) == 1.0 by {
      if o.aggregatedRssi >= -45.0 { QuotientMonotone(45.0, o.aggregatedRssi + 90.0, 45.0); }
    }
    assert o.aggregatedRssi <= -90.0 ==> Fraction(o.aggregatedRssi, config) == 0.0 by {
      if o.aggregatedRssi <= -90.0 { QuotientMonotone(o.aggregatedRssi + 90.0, 0.0, 45.0); }
    }
    hide Fraction;
    assert o.readCount >= 40 ==> DensityWeight(o.readCount, 40) == 1.0 by {
      if o.readCount >= 40 { QuotientMonotone(40.0, o.readCount as real, 40.0); }
    }
    assert o.readCount <= 0 ==> DensityWeight(o.readCount, 40) == 0.0 by {
      if o.readCount <= 0 { QuotientMonotone(o.readCount as real, 0.0, 40.0); }
    }
    DensityIsMonotone(0, if o.readCount >= 0 then o.readCount else 0, 40);
    hide DensityWeight;
  }

  lemma WholeOfItself(x: real)
    requires x > 0.0
    ensures x / x == 1.0
  {
  }

  lemma SameSignal(rssi: real, readerType: ReaderType, config: FusionConfig, other: FusionConfig)
    requires other == config.(readCountSaturation := other.readCountSaturation)
    ensures RssiToLikelihood(rssi, readerType, config) == RssiToLikelihood(rssi, readerType, other)
  {
    assert Fraction(rssi, config) == Fraction(rssi, other) && ReaderWeight(readerType, config) == ReaderWeight(readerType, other);
    hide Fraction, ReaderWeight, Clamp;
  }

  lemma NoSpanIsTheTop(rssi: real, high: real, readerType: ReaderType, config: FusionConfig, other: FusionConfig)
    requires config.rssiCeilingDbm <= config.rssiFloorDbm
    requires other == config.(rssiFloorDbm := other.rssiFloorDbm, rssiCeilingDbm := high) && other.rssiFloorDbm < high
    ensures RssiToLikelihood(rssi, readerType, config) == RssiToLikelihood(high, readerType, other)
  {
    WholeOfItself(high - other.rssiFloorDbm);
    assert Fraction(rssi, config) == Fraction(high, other) && ReaderWeight(readerType, config) == ReaderWeight(readerType, other);
    hide Fraction, ReaderWeight, Clamp;
  }

  /**
   * Where a scale has no width every read is at its top: with the ceiling not above the floor any signal
   * weighs what the ceiling weighs elsewhere, and with no positive saturation any count is saturated.
   */
  lemma NoScaleMeansTheTop(o: Observation, config: FusionConfig, low: real, high: real, count: int)
    requires low < high && 0 < count
    ensures config.rssiCeilingDbm <= config.rssiFloorDbm ==>
      Matched(o, config) == Matched(o.(aggregatedRssi := high), config.(rssiFloorDbm := low, rssiCeilingDbm := high))
    ensures config.readCountSaturation <= 0 ==>
      Matched(o, config) == Matched(o.(readCount := count), config.(readCountSaturation := count))
  {
    var signal, counts := config.(rssiFloorDbm := low, rssiCeilingDbm := high), config.(readCountSaturation := count);
    if config.rssiCeilingDbm <= config.rssiFloorDbm { NoSpanIsTheTop(o.aggregatedRssi, high, o.readerType, config, signal); }
    SameSignal(o.aggregatedRssi, o.readerType, config, counts);
    if config.readCountSaturation <= 0 { WholeOfItself(count as real); }
    assert config.readCountSaturation <= 0 ==> DensityWeight(o.readCount, config.readCountSaturation) == DensityWeight(count, count);
    hide RssiToLikelihood, DensityWeight, Pulled, Clamp;
  }

  // ----- The first read ---------------------------------------------------------------------------

  /** Where a package is after one step, when nothing was known of it. */
  const AFTER_UNIFORM := Distribution(0.317, 0.366, 0.317)

  lemma UniformMoves()
    ensures ApplyTransition(Normalize(UNIFORM), DEFAULT_TRANSITION) == AFTER_UNIFORM
  {
    NormalizedWhole(UNIFORM);
    assert Column(UNIFORM, DEFAULT_TRANSITION, Rear) == 0.317;
    assert Column(UNIFORM, DEFAULT_TRANSITION, Middle) == 0.366;
    assert Column(UNIFORM, DEFAULT_TRANSITION, Nose) == 0.317;
    NormalizedWhole(AFTER_UNIFORM);
  }

  lemma BlendKeepsOrder(x: real, y: real, floor: real)
    requires floor < 1.0
    ensures Blend(x, floor) < Blend(y, floor) <==> x < y
  {
    ProductAgainst(y, (1.0 - floor) * y, 1.0 - floor, x);
  }

  lemma ScaleKeepsOrder(a: real, b: real, t: real)
    requires t > 0.0
    ensures a / t < b / t <==> a < b
  {
    QuotientAgainst(b, t, a / t);
    QuotientTimes(a, t);
  }

  /** Normalizing and blending keep the order of the zones. */
  lemma OrderIsKept(w: Distribution, floor: real, y: Zone, z: Zone)
    requires Total(w) > 0.0 && floor < 1.0
    ensures At(BlendEntropyFloor(Normalize(w), floor), y) < At(BlendEntropyFloor(Normalize(w), floor), z) <==> At(w, y) < At(w, z)
  {
    hide Blend;
    ScaleKeepsOrder(At(w, y), At(w, z), Total(w));
    BlendKeepsOrder(At(w, y) / Total(w), At(w, z) / Total(w), floor);
  }

  lemma LikeliestIsKept(w: Distribution, floor: real, z: Zone)
    requires Total(w) > 0.0 && floor < 1.0
    ensures IsArgmax(BlendEntropyFloor(Normalize(w), floor), z) <==> IsArgmax(w, z)
  {
    var p := BlendEntropyFloor(Normalize(w), floor);
    forall y: Zone, x: Zone ensures At(p, y) < At(p, x) <==> At(w, y) < At(w, x) { OrderIsKept(w, floor, y, x); }
    hide BlendEntropyFloor, Normalize;
    assert p.rear == At(p, Rear) && p.middle == At(p, Middle) && p.nose == At(p, Nose);
    assert w.rear == At(w, Rear) && w.middle == At(w, Middle) && w.nose == At(w, Nose);
    forall y: Zone, x: Zone ensures At(p, y) <= At(p, x) <==> At(w, y) <= At(w, x) { assert !(At(p, x) < At(p, y)) <==> !(At(w, x) < At(w, y)); }
  }

  /** How strong a first read has to be to decide for its zone: the rear wins a tie, the nose loses it. */
  predicate StrongEnough(matched: real, z: Zone) {
    match z
    case Rear => matched >= 0.366
    case Middle => 1.5735 * matched > 0.4755
    case Nose => matched > 0.366
  }

  lemma FirstWeights(o: Observation, evidence: map<string, Zone>, z: Zone)
    requires Maps(DefaultConfig(evidence), o, z)
    ensures var w := Product(AFTER_UNIFORM, ZoneLikelihood(o, DefaultConfig(evidence)));
      Total(w) > 0.0 && (IsArgmax(w, z) <==> StrongEnough(Matched(o, DefaultConfig(evidence)), z))
  {
    hide Matched;
    DefaultIsSane(evidence);
    MatchedInRange(o, DefaultConfig(evidence));
    var m := Matched(o, DefaultConfig(evidence));
    var w := Product(AFTER_UNIFORM, ZoneLikelihood(o, DefaultConfig(evidence)));
    assert At(w, Rear) == w.rear && At(w, Middle) == w.middle && At(w, Nose) == w.nose;
  }

  /** From the uniform prior a single read decides for its zone if and only if it is strong enough, whichever the zone. */
  lemma FirstReadDecidesIff(o: Observation, evidence: map<string, Zone>, z: Zone)
    requires Maps(DefaultConfig(evidence), o, z)
    ensures IsArgmax(Posterior(UNIFORM, [o], DefaultConfig(evidence)), z) <==> StrongEnough(Matched(o, DefaultConfig(evidence)), z)
  {
    var config := DefaultConfig(evidence);
    UniformMoves();
    FirstWeights(o, evidence, z);
    var w := Product(AFTER_UNIFORM, ZoneLikelihood(o, config));
    assert Posterior(UNIFORM, [o], config) == BlendEntropyFloor(Normalize(w), config.entropyFloor) by {
      hide ApplyTransition, Product, ZoneLikelihood, BlendEntropyFloor;
      assert [o][..0] == [];
      assert Belief(UNIFORM, [], config) == Normalize(UNIFORM);
      assert Belief(UNIFORM, [o], config) == Updated(Normalize(UNIFORM), o, config);
    }
    hide Posterior, IsArgmax, Product, Normalize, BlendEntropyFloor;
    LikeliestIsKept(w, config.entropyFloor, z);
  }

  /** A dock portal read at the ceiling is strong enough for any zone. */
  lemma AFullReadDecides(o: Observation, evidence: map<string, Zone>, z: Zone)
    requires Maps(DefaultConfig(evidence), o, z)
    requires o.readerType == DockPortal && o.aggregatedRssi >= -45.0 && o.readCount >= 0
    ensures IsArgmax(Posterior(UNIFORM, [o], DefaultConfig(evidence)), z)
  {
    hide Posterior, IsArgmax, Matched;
    DefaultScale(o, evidence);
    FirstReadDecidesIff(o, evidence, z);
  }
}
