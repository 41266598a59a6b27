/**
 * The data of the resumable simulator: `packages/simulation/src/continuation.ts` and the
 * declarations at the head of `engine.ts`.
 *
 * Instants are whole ticks since the simulation epoch (one tick is one minute), so an ISO
 * stamp of the source is its tick here. Hubs, trailers, drivers and trips are numbered in the
 * order the source generates their ids.
 */
module SimTypes {
  import opened Hos
  import opened Generators

  datatype Option<+T> = None | Some(value: T)

  /** `hubs[0]` is the center; the others are the spokes. */
  datatype Hub = Center | Spoke(index: nat)

  type TrailerId = nat
  type DriverId = nat
  type TripId = nat

  /** `P00001`... are created at the center, `EXT-P00001`... are inducted from outside. */
  datatype PackageId = Created(number: nat) | External(number: nat)

  datatype RestReason = Rest10h | Break30min

  datatype Pause = Pause(reason: RestReason, minutes: int)

  /** The scheduled actions: data, never closures. */
  datatype SimTask =
    | CreatePackageBatch(tick: int)
    | InductPackage(tick: int)
    | DepartTrailer(trailer: TrailerId, spoke: Hub, departTick: int)
    | ArriveTrailer(trailer: TrailerId, spoke: Hub, trip: TripId, carried: seq<PackageId>, arriveTick: int)
    | MidLegStops(trailer: TrailerId, trip: TripId, legRests: seq<Pause>, didRefuel: bool, refuelOdometer: real)
    | ArriveOverCarriedAtCenter(trailer: TrailerId, package: PackageId, trip: TripId)
    | ArriveConsolidationAtCenter(trailer: TrailerId, packages: seq<PackageId>, trip: TripId)
    | DeliverPackage(package: PackageId, hub: Hub, slaDeadline: Option<int>, deliverTick: int)

  datatype Scheduled = Scheduled(fireTick: int, order: nat, task: SimTask)

  /** The captured world: every map, manifest and counter the tasks read or write. */
  datatype World = World(
    pendingBySpoke: map<Hub, seq<PackageId>>,
    pendingAtSpoke: map<Hub, seq<PackageId>>,
    consolidationDest: map<PackageId, Hub>,
    odometer: map<TrailerId, real>,
    driverByTrailer: map<TrailerId, DriverId>,
    clockByDriver: map<DriverId, HosClock>,
    availableAt: map<DriverId, int>,
    sparePool: seq<DriverId>,
    packageCounter: nat,
    tripCounter: nat,
    inductionCounter: nat,
    deliveredCounter: nat,
    slaDeadline: map<PackageId, int>)

  /** The raw word of every seeded sub-stream; the last three exist only with their flag on. */
  datatype RngStates = RngStates(
    base: Word,
    rfid: Word,
    overCarry: Word,
    timing: Word,
    hos: Word,
    fuel: Option<Word>,
    induction: Option<Word>,
    outbound: Option<Word>)

  datatype Continuation = Continuation(
    seed: Word,
    nextTick: int,
    rng: RngStates,
    queue: seq<Scheduled>,
    nextSeq: nat,
    world: World,
    nextSequenceId: nat)

  datatype SimStart = FreshStart(seed: Word) | Resume(continuation: Continuation)

  // ----- Events ------------------------------------------------------------

  datatype ScanType = Inbound | Load | Unload
  datatype PhaseKind = LoadStarted | UnloadStarted | UnloadCompleted
  datatype ReaderType = Portal | Antenna
  datatype DutyStatus = Driving | OnBreak | Resting
  datatype DutyReason = TripDispatched | BreakDue | Reset10h | RestComplete | RelayHandoff

  /** One RFID read; its payload plays no part in the simulator's own state. */
  datatype RfidRead = RfidRead(trailer: TrailerId, hub: Hub, package: PackageId, rssi: real)

  datatype Stream = HubStream(hub: Hub) | RouteStream(from: Hub, to: Hub) | PackageStream(package: PackageId)
                  | TrailerStream(trailer: TrailerId) | DriverStream(driver: DriverId)

  datatype DomainEvent =
    | HubRegistered(hub: Hub)
    | RouteRegistered(from: Hub, to: Hub)
    | DriverRegistered(driver: DriverId)
    | PackageCreated(package: PackageId, dest: Hub, sizeClass: nat, weight: nat, tagged: bool)
    | PackageInducted(package: PackageId, inductionHub: Hub, dest: Hub, slaClass: nat, slaDeadline: int)
    | PackageScanned(package: PackageId, hub: Hub, scan: ScanType)
    | PackageArrivedAtHub(package: PackageId, hub: Hub)
    | PackageDelivered(package: PackageId, hub: Hub, deliveredAt: int, onTime: bool)
    | TrailerDeparted(trailer: TrailerId, from: Hub, to: Hub, trip: TripId, packages: seq<PackageId>)
    | TrailerArrivedAtHub(trailer: TrailerId, hub: Hub, trip: TripId)
    | TrailerDocked(trailer: TrailerId, hub: Hub)
    | TrailerPhase(kind: PhaseKind, trailer: TrailerId, hub: Hub, trip: TripId)
    | RfidObserved(read: RfidRead)
    | DriverAssignedToTrip(driver: DriverId, trip: TripId, trailer: TrailerId)
    | DriverSwappedAtHub(outgoing: DriverId, incoming: DriverId, hub: Hub, trip: TripId, trailer: TrailerId)
    | DriverDutyStateChanged(driver: DriverId, status: DutyStatus, cause: DutyReason, clock: HosClock)
    | TruckRested(trailer: TrailerId, trip: TripId, reason: RestReason, minutes: int)
    | TruckRefueled(trailer: TrailerId, trip: TripId, gallons: int, odometerMiles: int, minutes: int)

  datatype SimEvent = SimEvent(stream: Stream, event: DomainEvent, at: int)

  // ----- Options -------------------------------------------------------------

  datatype SortWave = SortWave(burstWindowTicks: int, quietWindowTicks: int, burstPackagesPerBatch: int)

  datatype FuelConfig = FuelConfig(
    tankCapacityGallons: real, milesPerGallon: real, refuelThresholdMiles: real, refuelTimeMinutes: real)

  /**
   * The run's options together with the code it calls but does not contain: the generator,
   * the log-normal samplers, the travel estimator, the leg distances and the RFID emitter.
   * All of them are arbitrary functions, so every result holds whatever they compute.
   */
  datatype Env = Env(
    spokeCount: nat,
    routes: seq<(Hub, Hub)>,
    fleetPerSpoke: nat,
    generator: Generator,
    sampleTransit: (Word, Hub, Hub) -> (Word, int),
    sampleDwell: (Word, Hub) -> (Word, int),
    expectedTravel: (Hub, Hub) -> int,
    legMiles: (Hub, Hub) -> real,
    rfidReads: (Word, ReaderType, TrailerId, Hub, seq<PackageId>) -> (Word, seq<RfidRead>),
    idBefore: (PackageId, PackageId) -> bool,
    rfidOn: bool,
    overCarryRate: real,
    hosOn: bool,
    hosConfig: HosConfig,
    fuelOn: bool,
    fuelConfig: FuelConfig,
    inductionOn: bool,
    consolidationOn: bool,
    outboundOn: bool,
    sortWave: Option<SortWave>)
  {
    /** What the engine takes for granted: a network with two spokes, a fleet, positive limits. */
    predicate Ok() {
      && 2 <= spokeCount
      && 1 <= fleetPerSpoke
      && hosConfig.Positive()
      && fuelConfig.milesPerGallon > 0.0
    }

    predicate IsSpoke(h: Hub) { h.Spoke? && h.index < spokeCount }

    function TrailerCount(): nat { spokeCount * fleetPerSpoke }
  }
}
