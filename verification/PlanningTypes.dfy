/** The planning entities of `packages/domain/src/planning/index.ts`. */
module PlanningTypes {
  datatype SlaClass = EXPRESS | PRIORITY | STANDARD | ECONOMY

  datatype HandlingClass = Standard | Fragile | Heavy

  datatype SizeWeightClass = Small | Medium | Large

  datatype BlockKey = BlockKey(
    currentHubId: string,
    nextUnloadHubId: string,
    finalDestHubId: string,
    slaClass: SlaClass,
    deadlineBucket: nat,
    handlingClass: HandlingClass,
    sizeWeightClass: SizeWeightClass)

  type Positive = r: real | 0.0 < r witness 1.0

  datatype PlanningPackage = PlanningPackage(
    packageId: string,
    currentHubId: string,
    nextUnloadHubId: string,
    finalDestHubId: string,
    slaClass: SlaClass,
    handlingClass: HandlingClass,
    sizeWeightClass: SizeWeightClass,
    deadline: nat,
    volume: Positive,
    weight: Positive)

  datatype LoadBlock = LoadBlock(
    loadBlockId: string,
    key: BlockKey,
    packageIds: seq<string>,
    packageCount: nat,
    totalVolume: real,
    totalWeight: real,
    priority: real)

  datatype RouteStop = RouteStop(hubId: string, stopIndex: int)

  datatype PlannerConfig = PlannerConfig(
    maxAllowedBlockers: nat,
    maxBlockVolume: Positive,
    unloadReloadMin: Positive,
    volCost: Positive,
    fragilePenalty: Positive,
    dockDelayPenalty: Positive,
    slaImpactPenalty: Positive)
}
