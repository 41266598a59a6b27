/**
 * Bounds on the fused belief that hold however many observations are fused. One update turns any belief
 * into a distribution in which each zone keeps a third of the entropy floor; under the default
 * configuration no update leaves a zone above 0.966, whatever the belief before it, so neither does any
 * number of updates.
 */
module FusionLaws {
  import opened Fusion

  ghost predicate NonNegative(p: Distribution) {
    p.rear >= 0.0 && p.middle >= 0.0 && p.nose >= 0.0
  }

  ghost predicate IsDistribution(p: Distribution) {
    NonNegative(p) && Total(p) == 1.0
  }

  /** A configuration whose likelihoods leave room on both sides and whose matrix has no negative entry. */
  ghost predicate Sane(config: FusionConfig) {
    && 0.0 < config.minLikelihood <= config.maxLikelihood < 1.0
    && 0.0 <= config.entropyFloor <= 1.0
    && NonNegative(config.zoneTransition.rear) && NonNegative(config.zoneTransition.middle) && NonNegative(config.zoneTransition.nose)
  }

  // ----- Arithmetic ------------------------------------------------------------------------

  lemma TimesNonNegative(a: real, b: real)
    requires a >= 0.0 && b >= 0.0
    ensures a * b >= 0.0
  {
  }

  lemma TimesMonotone(a: real, b: real, c: real)
    requires a <= b && c >= 0.0
    ensures a * c <= b * c && c * a <= c * b
  {
    TimesNonNegative(b - a, c);
    assert (b - a) * c == b * c - a * c;
  }

  lemma QuotientNonNegative(a: real, t: real)
    requires a >= 0.0 && t > 0.0
    ensures a / t >= 0.0
  {
  }

  lemma QuotientTimes(a: real, t: real)
    requires t > 0.0
    ensures (a / t) * t == a
  {
  }

  lemma QuotientSum(a: real, b: real, c: real, t: real)
    requires t > 0.0
    ensures a / t + b / t + c / t == (a + b + c) / t
  {
    var x, y, z, q := a / t, b / t, c / t, (a + b + c) / t;
    QuotientTimes(a, t);
    QuotientTimes(b, t);
    QuotientTimes(c, t);
    QuotientTimes(a + b + c, t);
    assert (x + y + z) * t == x * t + y * t + z * t;
    assert (q - (x + y + z)) * t == q * t - (x + y + z) * t;
    assert (q - (x + y + z)) * t == 0.0;
  }

  lemma QuotientSelf(t: real)
    requires t > 0.0
    ensures t / t == 1.0
  {
  }

  /** `a` is at most `k` of the total if what is left of the total is at least the rest of `a / k`. */
  lemma QuotientAtMost(a: real, t: real, k: real)
    requires t > 0.0 && a <= k * t
    ensures a / t <= k
  {
    var q := a / t;
    QuotientTimes(a, t);
    assert (k - q) * t == k * t - q * t;
    NegativeProduct(k - q, t);
  }

  lemma NegativeProduct(d: real, t: real)
    requires t > 0.0
    ensures d < 0.0 ==> d * t < 0.0
  {
  }

  // ----- Every step yields a distribution -----------------------------------------------------

  lemma NormalizedIsDistribution(p: Distribution)
    requires NonNegative(p)
    ensures IsDistribution(Normalize(p))
  {
    var t := Total(p);
    if t > 0.0 {
      QuotientNonNegative(p.rear, t);
      QuotientNonNegative(p.middle, t);
      QuotientNonNegative(p.nose, t);
      QuotientSum(p.rear, p.middle, p.nose, t);
      QuotientSelf(t);
    }
  }

  lemma ColumnNonNegative(p: Distribution, m: Matrix, z: Zone)
    requires NonNegative(p) && NonNegative(m.rear) && NonNegative(m.middle) && NonNegative(m.nose)
    ensures Column(p, m, z) >= 0.0
  {
    TimesNonNegative(p.rear, At(m.rear, z));
    TimesNonNegative(p.middle, At(m.middle, z));
    TimesNonNegative(p.nose, At(m.nose, z));
  }

  lemma PredictedIsDistribution(p: Distribution, m: Matrix)
    requires NonNegative(p) && NonNegative(m.rear) && NonNegative(m.middle) && NonNegative(m.nose)
    ensures IsDistribution(ApplyTransition(p, m))
  {
    hide Column, Normalize;
    ColumnNonNegative(p, m, Rear);
    ColumnNonNegative(p, m, Middle);
    ColumnNonNegative(p, m, Nose);
    NormalizedIsDistribution(Distribution(Column(p, m, Rear), Column(p, m, Middle), Column(p, m, Nose)));
  }

  lemma MatchedInRange(o: Observation, config: FusionConfig)
    requires Sane(config)
    ensures config.minLikelihood <= Matched(o, config) <= config.maxLikelihood
  {
    hide RssiToLikelihood, DensityWeight;
  }

  lemma LikelihoodPositive(o: Observation, config: FusionConfig)
    requires Sane(config)
    ensures var l := ZoneLikelihood(o, config); l.rear > 0.0 && l.middle > 0.0 && l.nose > 0.0
  {
    hide Matched;
    MatchedInRange(o, config);
  }

  lemma BlendedZone(x: real, floor: real)
    requires 0.0 <= x <= 1.0 && 0.0 <= floor <= 1.0
    ensures 0.0 <= floor / 3.0 <= Blend(x, floor) <= 1.0 - 2.0 * floor / 3.0
  {
    TimesNonNegative(1.0 - floor, x);
    TimesMonotone(x, 1.0, 1.0 - floor);
  }

  lemma BlendedTotal(x: real, y: real, z: real, floor: real)
    requires x + y + z == 1.0
    ensures Blend(x, floor) + Blend(y, floor) + Blend(z, floor) == 1.0
  {
    assert (1.0 - floor) * x + (1.0 - floor) * y + (1.0 - floor) * z == (1.0 - floor) * (x + y + z);
  }

  /** Each zone keeps at least a third of the floor, none gets within two thirds of it of certainty. */
  ghost predicate Tempered(p: Distribution, floor: real) {
    IsDistribution(p) && forall z: Zone :: floor / 3.0 <= At(p, z) <= 1.0 - 2.0 * floor / 3.0
  }

  lemma BlendedIsTempered(p: Distribution, floor: real)
    requires IsDistribution(p) && 0.0 <= floor <= 1.0
    ensures Tempered(BlendEntropyFloor(p, floor), floor)
  {
    hide Blend;
    BlendedZone(p.rear, floor);
    BlendedZone(p.middle, floor);
    BlendedZone(p.nose, floor);
    BlendedTotal(p.rear, p.middle, p.nose, floor);
  }

  lemma ProductNonNegative(p: Distribution, l: Distribution)
    requires NonNegative(p) && NonNegative(l)
    ensures NonNegative(Product(p, l))
  {
    TimesNonNegative(p.rear, l.rear);
    TimesNonNegative(p.middle, l.middle);
    TimesNonNegative(p.nose, l.nose);
  }

  lemma UpdatedIsTempered(p: Distribution, o: Observation, config: FusionConfig)
    requires Sane(config) && NonNegative(p)
    ensures Tempered(Updated(p, o, config), config.entropyFloor)
  {
    hide ApplyTransition, ZoneLikelihood, Normalize, Product, BlendEntropyFloor, Tempered;
    var predicted := ApplyTransition(p, config.zoneTransition);
    var likelihood := ZoneLikelihood(o, config);
    PredictedIsDistribution(p, config.zoneTransition);
    LikelihoodPositive(o, config);
    ProductNonNegative(predicted, likelihood);
    NormalizedIsDistribution(Product(predicted, likelihood));
    BlendedIsTempered(Normalize(Product(predicted, likelihood)), config.entropyFloor);
  }

  lemma {:induction false} BeliefIsDistribution(prior: Distribution, observations: seq<Observation>, config: FusionConfig)
    requires Sane(config) && NonNegative(prior)
    ensures IsDistribution(Belief(prior, observations, config))
    ensures observations != [] ==> Tempered(Belief(prior, observations, config), config.entropyFloor)
  {
    hide Updated, Normalize;
    if observations == [] {
      NormalizedIsDistribution(prior);
    } else {
      var front, last := observations[..|observations| - 1], observations[|observations| - 1];
      BeliefIsDistribution(prior, front, config);
      UpdatedIsTempered(Belief(prior, front, config), last, config);
    }
  }

  /** A belief that sums to one puts at least a third on its likeliest zone. */
  lemma ArgmaxIsAThird(p: Distribution, z: Zone)
    requires Total(p) == 1.0 && IsArgmax(p, z)
    ensures At(p, z) >= 1.0 / 3.0
  {
    assert At(p, Rear) <= At(p, z) && At(p, Middle) <= At(p, z) && At(p, Nose) <= At(p, z);
  }

  /**
   * However many observations are fused: the posterior sums to one, every zone stays between a third
   * of the entropy floor and one less two thirds of it, and the confidence is at least a third.
   */
  lemma FusedBeliefIsTempered(prior: Distribution, observations: seq<Observation>, config: FusionConfig, z: Zone)
    requires Sane(config) && NonNegative(prior) && observations != []
    requires IsArgmax(Posterior(prior, observations, config), z)
    ensures Tempered(Posterior(prior, observations, config), config.entropyFloor)
    ensures 1.0 / 3.0 <= At(Posterior(prior, observations, config), z) <= 1.0 - 2.0 * config.entropyFloor / 3.0
  {
    hide Belief, IsArgmax;
    BeliefIsDistribution(prior, observations, config);
    ArgmaxIsAThird(Posterior(prior, observations, config), z);
  }

  /**
   * The confidence stays below one unless nothing was observed and the prior was already certain: then
   * it is handed back as it is.
   */
  lemma ConfidenceBelowOneIff(prior: Distribution, observations: seq<Observation>, config: FusionConfig, z: Zone)
    requires Sane(config) && config.entropyFloor > 0.0
    requires NonNegative(prior) && IsArgmax(Posterior(prior, observations, config), z)
    ensures At(Posterior(prior, observations, config), z) < 1.0 <==> observations != [] || At(prior, z) < 1.0
  {
    hide Belief, IsArgmax;
    if observations != [] { FusedBeliefIsTempered(prior, observations, config, z); }
  }

  /** Such a prior: certain of the rear, with nothing observed since. */
  lemma ACertainPriorStaysCertain(config: FusionConfig)
    ensures IsArgmax(Posterior(Distribution(1.0, 0.0, 0.0), [], config), Rear)
    ensures At(Posterior(Distribution(1.0, 0.0, 0.0), [], config), Rear) == 1.0
  {
  }

  // ----- The default configuration ---------------------------------------------------------------

  const DEFAULT_TRANSITION := Matrix(
    Distribution(0.8, 0.198, 0.002), Distribution(0.149, 0.702, 0.149), Distribution(0.002, 0.198, 0.8))

  function DefaultConfig(evidence: map<string, Zone>): FusionConfig {
    FusionConfig(0.85, 0.05, -90.0, -45.0, 0.02, 1.0, 0.7, 40, DEFAULT_TRANSITION, evidence)
  }

  lemma DefaultIsSane(evidence: map<string, Zone>)
    ensures Sane(DefaultConfig(evidence))
  {
  }

  lemma NormalizedWhole(p: Distribution)
    requires Total(p) == 1.0
    ensures Normalize(p) == p
  {
  }

  /** One step of the default chain leaves no zone with more than four fifths. */
  lemma PredictedAtMostFourFifths(p: Distribution, z: Zone)
    requires IsDistribution(p)
    ensures At(ApplyTransition(p, DEFAULT_TRANSITION), z) <= 0.8
    ensures IsDistribution(ApplyTransition(p, DEFAULT_TRANSITION))
  {
    hide Normalize;
    var raw := Distribution(Column(p, DEFAULT_TRANSITION, Rear), Column(p, DEFAULT_TRANSITION, Middle), Column(p, DEFAULT_TRANSITION, Nose));
    DefaultColumns(p);
    hide Column;
    NormalizedWhole(raw);
  }

  lemma DefaultColumns(p: Distribution)
    requires IsDistribution(p)
    ensures forall z: Zone :: 0.0 <= Column(p, DEFAULT_TRANSITION, z) <= 0.8
    ensures Column(p, DEFAULT_TRANSITION, Rear) + Column(p, DEFAULT_TRANSITION, Middle) + Column(p, DEFAULT_TRANSITION, Nose) == 1.0
  {
    assert Column(p, DEFAULT_TRANSITION, Rear) == p.rear * 0.8 + p.middle * 0.149 + p.nose * 0.002;
    assert Column(p, DEFAULT_TRANSITION, Middle) == p.rear * 0.198 + p.middle * 0.702 + p.nose * 0.198;
    assert Column(p, DEFAULT_TRANSITION, Nose) == p.rear * 0.002 + p.middle * 0.149 + p.nose * 0.8;
  }

  /** No zone is ever more than 0.85 / 0.075 times as likely as another. */
  lemma LikelihoodRatio(o: Observation, evidence: map<string, Zone>, y: Zone, z: Zone)
    ensures var l := ZoneLikelihood(o, DefaultConfig(evidence));
      At(l, z) > 0.0 && At(l, z) * 0.075 <= At(l, y) * 0.85
  {
    hide Matched;
    DefaultIsSane(evidence);
    MatchedInRange(o, DefaultConfig(evidence));
    var m := Matched(o, DefaultConfig(evidence));
    assert 0.05 <= m <= 0.85;
  }

  lemma WeightedSum(q1: real, q2: real, a: real, b1: real, b2: real)
    requires q1 >= 0.0 && q2 >= 0.0 && q1 + q2 >= 0.2 && 0.0 <= a <= b1 && a <= b2
    ensures 0.2 * a <= q1 * b1 + q2 * b2
  {
    TimesMonotone(a, b1, q1);
    TimesMonotone(a, b2, q2);
    TimesMonotone(0.2, q1 + q2, a);
    Distributed(q1, q2, a);
    Summed(0.2 * a, q1 * a, q2 * a, q1 * b1, q2 * b2);
  }

  lemma Distributed(q1: real, q2: real, a: real)
    ensures (q1 + q2) * a == q1 * a + q2 * a
  {
  }

  lemma Summed(least: real, x1: real, x2: real, y1: real, y2: real)
    requires least <= x1 + x2 && x1 <= y1 && x2 <= y2
    ensures least <= y1 + y2
  {
  }

  lemma Scaled(q: real, l: real, k: real)
    ensures q * (l * k) == (q * l) * k
  {
  }

  /** The zone's share of the update: at most 0.68 / 0.695 of the whole. */
  lemma ShareIsBounded(p: real, l: real, q1: real, l1: real, q2: real, l2: real)
    requires 0.0 <= p <= 0.8 && q1 >= 0.0 && q2 >= 0.0 && p + q1 + q2 == 1.0
    requires l > 0.0 && l * 0.075 <= l1 * 0.85 && l * 0.075 <= l2 * 0.85
    ensures var t := p * l + q1 * l1 + q2 * l2; t > 0.0 && p * l * 0.695 <= 0.68 * t
  {
    WeightedSum(q1, q2, l * 0.075, l1 * 0.85, l2 * 0.85);
    Scaled(q1, l1, 0.85);
    Scaled(q2, l2, 0.85);
    TimesMonotone(p, 0.8, l);
    TimesNonNegative(p, l);
    ShareOfTotal(p * l, l, q1 * l1, q2 * l2);
  }

  lemma ShareOfTotal(mine: real, l: real, other1: real, other2: real)
    requires 0.0 <= mine <= 0.8 * l && l > 0.0 && 0.2 * (l * 0.075) <= other1 * 0.85 + other2 * 0.85
    ensures mine + other1 + other2 > 0.0 && mine * 0.695 <= 0.68 * (mine + other1 + other2)
  {
  }

  lemma SharedQuotient(a: real, t: real)
    requires t > 0.0 && a * 0.695 <= 0.68 * t
    ensures a / t <= 0.97842
  {
    QuotientAtMost(a, t, 0.97842);
  }

  lemma NormalizedShare(product: Distribution, z: Zone)
    requires Total(product) > 0.0 && At(product, z) * 0.695 <= 0.68 * Total(product)
    ensures At(Normalize(product), z) <= 0.97842
  {
    SharedQuotient(At(product, z), Total(product));
  }

  lemma BlendedShare(x: real)
    requires x <= 0.97842
    ensures Blend(x, 0.02) <= 0.966
  {
  }

  /** What one default observation leaves of a zone before the floor is blended in. */
  lemma ProductShare(predicted: Distribution, l: Distribution, z: Zone)
    requires IsDistribution(predicted) && At(predicted, z) <= 0.8 && At(l, z) > 0.0
    requires forall y: Zone :: At(l, z) * 0.075 <= At(l, y) * 0.85
    ensures Total(Product(predicted, l)) > 0.0
    ensures At(Product(predicted, l), z) * 0.695 <= 0.68 * Total(Product(predicted, l))
  {
    assert At(l, Rear) == l.rear && At(l, Middle) == l.middle && At(l, Nose) == l.nose;
    match z
    case Rear => ShareIsBounded(predicted.rear, l.rear, predicted.middle, l.middle, predicted.nose, l.nose);
    case Middle => ShareIsBounded(predicted.middle, l.middle, predicted.rear, l.rear, predicted.nose, l.nose);
    case Nose => ShareIsBounded(predicted.nose, l.nose, predicted.rear, l.rear, predicted.middle, l.middle);
  }

  /** One default update never leaves any zone above 0.966. */
  lemma DefaultUpdateIsBounded(p: Distribution, o: Observation, evidence: map<string, Zone>, z: Zone)
    requires IsDistribution(p)
    ensures At(Updated(p, o, DefaultConfig(evidence)), z) <= 0.966
  {
    hide ApplyTransition, ZoneLikelihood, Product, Normalize, Blend, Total, IsDistribution;
    var config := DefaultConfig(evidence);
    var predicted, l := ApplyTransition(p, config.zoneTransition), ZoneLikelihood(o, config);
    PredictedAtMostFourFifths(p, z);
    forall y: Zone ensures At(l, z) > 0.0 && At(l, z) * 0.075 <= At(l, y) * 0.85 { LikelihoodRatio(o, evidence, y, z); }
    ProductShare(predicted, l, z);
    NormalizedShare(Product(predicted, l), z);
    BlendedShare(At(Normalize(Product(predicted, l)), z));
  }

  /**
   * Under the default configuration the confidence never exceeds 0.966, however many reads are fused
   * and whichever readers are taken as evidence for whichever zones.
   */
  lemma DefaultConfidenceIsBounded(prior: Distribution, observations: seq<Observation>, evidence: map<string, Zone>, z: Zone)
    requires NonNegative(prior) && observations != []
    ensures At(Posterior(prior, observations, DefaultConfig(evidence)), z) <= 0.966
  {
    hide Updated;
    DefaultIsSane(evidence);
    var front, last := observations[..|observations| - 1], observations[|observations| - 1];
    BeliefIsDistribution(prior, front, DefaultConfig(evidence));
    DefaultUpdateIsBounded(Belief(prior, front, DefaultConfig(evidence)), last, evidence, z);
  }

  // ----- Stronger signals are never weaker evidence --------------------------------------------------

  lemma QuotientMonotone(a: real, b: real, t: real)
    requires a <= b && t > 0.0
    ensures a / t <= b / t
  {
    QuotientTimes(a, t);
    QuotientTimes(b, t);
    assert (b / t - a / t) * t == b - a;
    NegativeProduct(b / t - a / t, t);
  }

  lemma FractionIsMonotone(a: real, b: real, config: FusionConfig)
    requires a <= b
    ensures 0.0 <= Fraction(a, config) <= Fraction(b, config) <= 1.0
  {
    var span := config.rssiCeilingDbm - config.rssiFloorDbm;
    if span > 0.0 { QuotientMonotone(a - config.rssiFloorDbm, b - config.rssiFloorDbm, span); }
  }

  lemma ClampIsMonotone(a: real, b: real, lo: real, hi: real)
    requires a <= b && lo <= hi
    ensures lo <= Clamp(a, lo, hi) <= Clamp(b, lo, hi) <= hi
  {
  }

  /** The ramp as headroom times fraction. */
  function Ramp(rssi: real, headroom: real, config: FusionConfig): real {
    config.minLikelihood + headroom * Fraction(rssi, config)
  }

  lemma SameProduct(floor: real, headroom: real, fraction: real)
    ensures ((floor + headroom) - floor) * fraction == headroom * fraction
  {
  }

  lemma LikelihoodIsRamp(rssi: real, readerType: ReaderType, config: FusionConfig)
    ensures RssiToLikelihood(rssi, readerType, config)
         == Clamp(Ramp(rssi, (config.maxLikelihood - config.minLikelihood) * ReaderWeight(readerType, config), config),
                  config.minLikelihood, config.maxLikelihood)
  {
    hide Fraction, ReaderWeight;
    SameProduct(config.minLikelihood, (config.maxLikelihood - config.minLikelihood) * ReaderWeight(readerType, config),
                Fraction(rssi, config));
  }

  lemma RampIsMonotone(a: real, b: real, headroom: real, config: FusionConfig)
    requires a <= b && headroom >= 0.0
    ensures Ramp(a, headroom, config) <= Ramp(b, headroom, config)
  {
    hide Fraction;
    FractionIsMonotone(a, b, config);
    TimesMonotone(Fraction(a, config), Fraction(b, config), headroom);
  }

  lemma WeightInRange(readerType: ReaderType, config: FusionConfig)
    ensures 0.0 <= ReaderWeight(readerType, config) <= 1.0
  {
  }

  /** The likelihood stays within its cap and never falls as the signal gets stronger. */
  lemma LikelihoodIsMonotone(a: real, b: real, readerType: ReaderType, config: FusionConfig)
    requires a <= b && config.minLikelihood <= config.maxLikelihood
    ensures config.minLikelihood <= RssiToLikelihood(a, readerType, config) <= RssiToLikelihood(b, readerType, config)
         <= config.maxLikelihood
  {
    hide RssiToLikelihood, Clamp, Ramp, ReaderWeight;
    WeightInRange(readerType, config);
    var headroom := (config.maxLikelihood - config.minLikelihood) * ReaderWeight(readerType, config);
    TimesNonNegative(config.maxLikelihood - config.minLikelihood, ReaderWeight(readerType, config));
    LikelihoodIsRamp(a, readerType, config);
    LikelihoodIsRamp(b, readerType, config);
    RampIsMonotone(a, b, headroom, config);
    ClampIsMonotone(Ramp(a, headroom, config), Ramp(b, headroom, config), config.minLikelihood, config.maxLikelihood);
  }
}
