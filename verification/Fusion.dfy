/**
 * `packages/sensor-fusion/src/likelihood.ts` and `fuse.ts`: RFID evidence fused into a belief over
 * the three trailer zones, one windowed observation at a time. Arithmetic is over the reals.
 */
module Fusion {
  datatype Option<T> = None | Some(value: T)

  datatype Zone = Rear | Middle | Nose

  datatype Distribution = Distribution(rear: real, middle: real, nose: real)

  datatype ReaderType = DockPortal | TrailerAntenna

  datatype Observation = Observation(readerId: string, readerType: ReaderType, aggregatedRssi: real, readCount: int,
                                     trailerId: string, lastObservedAt: int)

  /** Row `from` of the transition matrix: where an asset in `from` is one step later. */
  datatype Matrix = Matrix(rear: Distribution, middle: Distribution, nose: Distribution)

  datatype FusionConfig = FusionConfig(
    maxLikelihood: real,
    minLikelihood: real,
    rssiFloorDbm: real,
    rssiCeilingDbm: real,
    entropyFloor: real,
    dockPortalWeight: real,
    trailerAntennaWeight: real,
    readCountSaturation: int,
    zoneTransition: Matrix,
    readerZoneEvidence: map<string, Zone>)

  function At(p: Distribution, z: Zone): real {
    match z case Rear => p.rear case Middle => p.middle case Nose => p.nose
  }

  function Clamp(value: real, lo: real, hi: real): real {
    if value < lo then lo else if value > hi then hi else value
  }

  // ----- One observation's likelihood ---------------------------------------------------

  function Fraction(rssi: real, config: FusionConfig): real {
    var span := config.rssiCeilingDbm - config.rssiFloorDbm;
    Clamp(if span <= 0.0 then 1.0 else (rssi - config.rssiFloorDbm) / span, 0.0, 1.0)
  }

  function ReaderWeight(readerType: ReaderType, config: FusionConfig): real {
    Clamp(match readerType case DockPortal => config.dockPortalWeight case TrailerAntenna => config.trailerAntennaWeight, 0.0, 1.0)
  }

  function RssiToLikelihood(rssi: real, readerType: ReaderType, config: FusionConfig): real {
    var effectiveCap := config.minLikelihood + (config.maxLikelihood - config.minLikelihood) * ReaderWeight(readerType, config);
    Clamp(config.minLikelihood + (effectiveCap - config.minLikelihood) * Fraction(rssi, config),
          config.minLikelihood, config.maxLikelihood)
  }

  function DensityWeight(readCount: int, saturation: int): real {
    if saturation <= 0 then 1.0 else Clamp(readCount as real / saturation as real, 0.0, 1.0)
  }

  /** The likelihood of the zone the reader is evidence for. */
  function Matched(o: Observation, config: FusionConfig): real {
    var base := RssiToLikelihood(o.aggregatedRssi, o.readerType, config);
    Clamp(Pulled(base, DensityWeight(o.readCount, config.readCountSaturation), config.maxLikelihood),
          config.minLikelihood, config.maxLikelihood)
  }

  /** Read density pulls the likelihood up to half way towards the cap. */
  function Pulled(base: real, density: real, cap: real): real {
    base + (cap - base) * density * 0.5
  }

  function ZoneLikelihood(o: Observation, config: FusionConfig): Distribution {
    if o.readerId !in config.readerZoneEvidence then Distribution(0.5, 0.5, 0.5)
    else
      var matched := Matched(o, config);
      var others := (1.0 - matched) / 2.0;
      match config.readerZoneEvidence[o.readerId]
      case Rear => Distribution(matched, others, others)
      case Middle => Distribution(others, matched, others)
      case Nose => Distribution(others, others, matched)
  }

  // ----- The update -------------------------------------------------------------------------

  const UNIFORM := Distribution(1.0 / 3.0, 1.0 / 3.0, 1.0 / 3.0)

  function Total(p: Distribution): real { p.rear + p.middle + p.nose }

  function Normalize(p: Distribution): Distribution {
    var total := Total(p);
    if total <= 0.0 then UNIFORM else Distribution(p.rear / total, p.middle / total, p.nose / total)
  }

  function Column(p: Distribution, m: Matrix, z: Zone): real {
    p.rear * At(m.rear, z) + p.middle * At(m.middle, z) + p.nose * At(m.nose, z)
  }

  function ApplyTransition(p: Distribution, m: Matrix): Distribution {
    Normalize(Distribution(Column(p, m, Rear), Column(p, m, Middle), Column(p, m, Nose)))
  }

  function Product(p: Distribution, l: Distribution): Distribution {
    Distribution(p.rear * l.rear, p.middle * l.middle, p.nose * l.nose)
  }

  function Blend(x: real, floor: real): real {
    (1.0 - floor) * x + floor * (1.0 / 3.0)
  }

  function BlendEntropyFloor(p: Distribution, floor: real): Distribution {
    Distribution(Blend(p.rear, floor), Blend(p.middle, floor), Blend(p.nose, floor))
  }

  function Updated(p: Distribution, o: Observation, config: FusionConfig): Distribution {
    BlendEntropyFloor(Normalize(Product(ApplyTransition(p, config.zoneTransition), ZoneLikelihood(o, config))), config.entropyFloor)
  }

  /** With no observations the prior stands as it is; otherwise it is normalized and updated. */
  function Posterior(prior: Distribution, observations: seq<Observation>, config: FusionConfig): Distribution {
    if observations == [] then prior else Belief(prior, observations, config)
  }

  function Belief(prior: Distribution, observations: seq<Observation>, config: FusionConfig): Distribution {
    if observations == [] then Normalize(prior)
    else Updated(Belief(prior, observations[..|observations| - 1], config), observations[|observations| - 1], config)
  }

  /** The likeliest zone, the rearmost of equals. */
  ghost predicate IsArgmax(p: Distribution, z: Zone) {
    && (forall y: Zone :: At(p, y) <= At(p, z))
    && (z == Middle ==> p.rear < p.middle)
    && (z == Nose ==> p.rear < p.nose && p.middle < p.nose)
  }

  method ArgmaxZone(p: Distribution) returns (best: Zone)
    ensures IsArgmax(p, best)
  {
    best := Rear;
    var zones := [Rear, Middle, Nose];
    for i := 0 to 3
      invariant forall j :: 0 <= j < i ==> At(p, zones[j]) <= At(p, best)
      invariant best == Rear || (best == Middle && i >= 2 && p.rear < p.middle)
             || (best == Nose && i >= 3 && p.rear < p.nose && p.middle < p.nose)
    {
      assert i > 0 ==> At(p, zones[0]) <= At(p, best);
      assert i > 1 ==> At(p, zones[1]) <= At(p, best);
      if At(p, zones[i]) > At(p, best) { best := zones[i]; }
    }
    assert At(p, zones[0]) == p.rear && At(p, zones[1]) == p.middle && At(p, zones[2]) == p.nose;
  }

  datatype ZoneEstimate = ZoneEstimate(packageId: string, trailerId: string, estimatedZone: Zone, confidence: real,
                                       posterior: Distribution, lastObservedAt: int)

  ghost predicate IsLatest(t: int, lastObservedAt: int, observations: seq<Observation>) {
    && lastObservedAt <= t
    && (forall o :: o in observations ==> o.lastObservedAt <= t)
    && (t == lastObservedAt || exists o :: o in observations && o.lastObservedAt == t)
  }

  lemma LatestOneMore(t: int, lastObservedAt: int, observations: seq<Observation>, last: Observation)
    requires IsLatest(t, lastObservedAt, observations)
    ensures IsLatest(if last.lastObservedAt > t then last.lastObservedAt else t, lastObservedAt, observations + [last])
  {
    assert last in observations + [last];
    assert forall o :: o in observations ==> o in observations + [last];
  }

  method FuseZone(packageId: string, trailerId: string, prior: Distribution, lastObservedAt: int,
                  windowedObs: seq<Observation>, config: FusionConfig)
    returns (estimate: ZoneEstimate)
    ensures estimate.packageId == packageId
    ensures estimate.posterior == Posterior(prior, windowedObs, config)
    ensures IsArgmax(estimate.posterior, estimate.estimatedZone)
    ensures estimate.confidence == At(estimate.posterior, estimate.estimatedZone)
    ensures estimate.trailerId == if windowedObs == [] then trailerId else windowedObs[|windowedObs| - 1].trailerId
    ensures IsLatest(estimate.lastObservedAt, lastObservedAt, windowedObs)
  {
    hide Updated;
    if |windowedObs| == 0 {
      var zone := ArgmaxZone(prior);
      return ZoneEstimate(packageId, trailerId, zone, At(prior, zone), prior, lastObservedAt);
    }
    var posterior, trailer, freshest := Normalize(prior), trailerId, lastObservedAt;
    for i := 0 to |windowedObs|
      invariant posterior == Belief(prior, windowedObs[..i], config)
      invariant trailer == if i == 0 then trailerId else windowedObs[i - 1].trailerId
      invariant IsLatest(freshest, lastObservedAt, windowedObs[..i])
    {
      assert windowedObs[..i + 1][..i] == windowedObs[..i];
      assert windowedObs[..i + 1] == windowedObs[..i] + [windowedObs[i]];
      LatestOneMore(freshest, lastObservedAt, windowedObs[..i], windowedObs[i]);
      posterior := Updated(posterior, windowedObs[i], config);
      trailer := windowedObs[i].trailerId;
      if windowedObs[i].lastObservedAt > freshest { freshest := windowedObs[i].lastObservedAt; }
    }
    assert windowedObs[..|windowedObs|] == windowedObs;
    var zone := ArgmaxZone(posterior);
    estimate := ZoneEstimate(packageId, trailer, zone, At(posterior, zone), posterior, freshest);
  }
}
