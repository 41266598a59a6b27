/**
 * `packages/api/src/optimizer/rolling-service.ts`: the one stateful part of the rolling optimizer.
 * The database outlives the service; a restart builds a new service over the same tables.
 */
module RollingService {
  type Stream = string
  type PackageIds = seq<string>

  datatype Option<T> = None | Some(value: T)

  /** The durable claim key: the horizon and the scope, never the epoch's own id. */
  datatype Key = Key(horizonStart: int, horizonEnd: int, scopeHash: string)

  datatype Status = PROCESSING | COMPLETED | FAILED

  datatype Accepted = Accepted(planId: string, trailerId: string, epochId: string, scopeHash: string, occurredAt: int)

  datatype Generated = Generated(planId: string, rationale: string)

  datatype EpochResult = EpochResult(
    accepted: Option<Accepted>, generated: Option<Generated>, recommendations: seq<string>, key: Key)

  datatype PlanEvent =
    | PlanGenerated(generated: Generated)
    | PlanAccepted(accepted: Accepted)
    | PlanSuperseded(epochId: string, scopeHash: string, priorPlanId: string, trailerId: string,
                     supersededPackageIds: PackageIds, reason: string, occurredAt: int)

  /** One atomic append; `staged` and `era` record the trailer's set and the service at that moment. */
  datatype Batch = Batch(events: seq<PlanEvent>, key: Key, staged: PackageIds, era: nat)

  /** What the world does to a call: the append or the closing status update may throw. */
  datatype Fate = AllWell | AppendThrows | CompletingThrows

  datatype Outcome = Committed | NotCommitted | Threw

  function StreamOf(trailerId: string): Stream { "optimizer-" + trailerId }

  // ----- What one call does to the tables and to the service's memory ---------------------

  datatype Memory = Memory(priorStaged: map<Stream, PackageIds>, priorPlanId: map<Stream, string>,
                           latest: Option<EpochResult>, latestNonEmpty: Option<EpochResult>)

  datatype Tables = Tables(claims: map<Key, Status>, log: map<Stream, seq<Batch>>)

  datatype Service = Service(tables: Tables, memory: Memory, era: nat)

  const BLANK := Memory(map[], map[], None, None)

  function Batches(t: Tables, stream: Stream): seq<Batch> {
    if stream in t.log then t.log[stream] else []
  }

  function PlanBatch(m: Memory, g: Generated, a: Accepted): seq<PlanEvent> {
    var stream := StreamOf(a.trailerId);
    var events := [PlanGenerated(g), PlanAccepted(a)];
    if stream !in m.priorStaged then events
    else
      var prior := if stream in m.priorPlanId then m.priorPlanId[stream] else a.planId;
      events + [PlanSuperseded(a.epochId, a.scopeHash, prior, a.trailerId, m.priorStaged[stream],
                               "superseded by " + a.planId, a.occurredAt)]
  }

  function Recorded(m: Memory, result: EpochResult): Memory {
    m.(latest := Some(result), latestNonEmpty := if result.recommendations == [] then m.latestNonEmpty else Some(result))
  }

  predicate Commits(s: Service, result: EpochResult) {
    result.accepted.Some? && result.generated.Some? && result.key !in s.tables.claims
  }

  function Appended(s: Service, result: EpochResult, staged: PackageIds): Service
    requires Commits(s, result)
  {
    var a := result.accepted.value;
    var stream := StreamOf(a.trailerId);
    var batch := Batch(PlanBatch(s.memory, result.generated.value, a), result.key, staged, s.era);
    s.(tables := s.tables.(log := s.tables.log[stream := Batches(s.tables, stream) + [batch]]),
       memory := s.memory.(priorStaged := s.memory.priorStaged[stream := staged],
                           priorPlanId := s.memory.priorPlanId[stream := a.planId]))
  }

  function Marked(s: Service, key: Key, status: Status): Service {
    s.(tables := s.tables.(claims := s.tables.claims[key := status]))
  }

  function AfterCall(s: Service, result: EpochResult, staged: PackageIds, fate: Fate): Service {
    if !Commits(s, result) then s.(memory := Recorded(s.memory, result))
    else
      match fate
      case AppendThrows => Marked(s, result.key, FAILED)
      case CompletingThrows => Marked(Appended(s, result, staged), result.key, FAILED)
      case AllWell =>
        var done := Marked(Appended(s, result, staged), result.key, COMPLETED);
        done.(memory := Recorded(done.memory, result))
  }

  // ----- The service as the code has it ----------------------------------------------------------

  class Database {
    var claims: map<Key, Status>
    var log: map<Stream, seq<Batch>>
    var assignedPackageIds: map<string, PackageIds>

    constructor ()
      ensures claims == map[] && log == map[] && assignedPackageIds == map[]
    {
      claims, log, assignedPackageIds := map[], map[], map[];
    }
  }

  class RollingOptimizerService {
    const db: Database
    const era: nat
    var priorStagedByStream: map<Stream, PackageIds>
    var priorPlanIdByStream: map<Stream, string>
    var latest: Option<EpochResult>
    var latestNonEmpty: Option<EpochResult>

    function View(): Service
      reads this, db
    {
      Service(Tables(db.claims, db.log),
              Memory(priorStagedByStream, priorPlanIdByStream, latest, latestNonEmpty), era)
    }

    /** A new process over the surviving tables: nothing of the old memory is carried over. */
    constructor (db: Database, era: nat)
      ensures this.db == db && this.era == era
      ensures View() == Service(Tables(db.claims, db.log), BLANK, era)
    {
      this.db, this.era := db, era;
      priorStagedByStream, priorPlanIdByStream, latest, latestNonEmpty := map[], map[], None, None;
    }

    method RecordLatest(result: EpochResult)
      modifies `latest, `latestNonEmpty
      ensures View() == old(View()).(memory := Recorded(old(View()).memory, result))
    {
      latest := Some(result);
      if |result.recommendations| > 0 { latestNonEmpty := Some(result); }
    }

    /** Inserts the claim unless the key is already there, in whatever status. */
    method ClaimEpoch(key: Key) returns (claimed: bool)
      modifies db`claims
      ensures claimed <==> key !in old(db.claims)
      ensures db.claims == if claimed then old(db.claims)[key := PROCESSING] else old(db.claims)
    {
      claimed := key !in db.claims;
      if claimed { db.claims := db.claims[key := PROCESSING]; }
    }

    method FinishClaim(key: Key, status: Status)
      requires key in db.claims
      modifies db`claims
      ensures db.claims == old(db.claims)[key := status]
    {
      db.claims := db.claims[key := status];
    }

    method AppendPlan(generated: Generated, accepted: Accepted, key: Key)
      modifies db`log, `priorStagedByStream, `priorPlanIdByStream
      ensures var stream := StreamOf(accepted.trailerId);
        var staged := if accepted.trailerId in db.assignedPackageIds then db.assignedPackageIds[accepted.trailerId] else [];
        && db.log == old(db.log)[stream := Batches(old(View()).tables, stream)
             + [Batch(PlanBatch(old(View()).memory, generated, accepted), key, staged, era)]]
        && priorStagedByStream == old(priorStagedByStream)[stream := staged]
        && priorPlanIdByStream == old(priorPlanIdByStream)[stream := accepted.planId]
    {
      var stream := StreamOf(accepted.trailerId);
      var stagedNow := if accepted.trailerId in db.assignedPackageIds then db.assignedPackageIds[accepted.trailerId] else [];
      var events := [PlanGenerated(generated), PlanAccepted(accepted)];
      if stream in priorStagedByStream {
        var priorPlanId := if stream in priorPlanIdByStream then priorPlanIdByStream[stream] else accepted.planId;
        events := events + [PlanSuperseded(accepted.epochId, accepted.scopeHash, priorPlanId, accepted.trailerId,
          priorStagedByStream[stream], "superseded by " + accepted.planId, accepted.occurredAt)];
      }
      var before := if stream in db.log then db.log[stream] else [];
      db.log := db.log[stream := before + [Batch(events, key, stagedNow, era)]];
      priorStagedByStream := priorStagedByStream[stream := stagedNow];
      priorPlanIdByStream := priorPlanIdByStream[stream := accepted.planId];
    }

    /** One rolling epoch, `result` being what the pure evaluation returned. */
    method RunOnce(result: EpochResult, fate: Fate) returns (outcome: Outcome)
      modifies this, db`claims, db`log
      ensures var trailer := if result.accepted.Some? then result.accepted.value.trailerId else "";
        View() == AfterCall(old(View()), result,
          if trailer in db.assignedPackageIds then db.assignedPackageIds[trailer] else [], fate)
      ensures outcome == if !Commits(old(View()), result) then NotCommitted
                         else if fate == AllWell then Committed else Threw
    {
      if result.accepted.None? || result.generated.None? {
        RecordLatest(result);
        return NotCommitted;
      }
      var claimed := ClaimEpoch(result.key);
      if !claimed {
        RecordLatest(result);
        return NotCommitted;
      }
      if fate != AppendThrows {
        AppendPlan(result.generated.value, result.accepted.value, result.key);
        if fate == AllWell {
          FinishClaim(result.key, COMPLETED);
          RecordLatest(result);
          return Committed;
        }
      }
      FinishClaim(result.key, FAILED);
      outcome := Threw;
    }

    method LatestResult() returns (r: Option<EpochResult>)
      ensures r == if latestNonEmpty.Some? then latestNonEmpty else latest
    {
      r := if latestNonEmpty.Some? then latestNonEmpty else latest;
    }
  }
}
