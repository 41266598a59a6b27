/**
 * `packages/api/src/ws/envelope.ts`: the delta between two snapshot payloads, and the patch a client
 * applies to bring its picture up to date.
 */
module Envelope {
  import S = Sorting

  datatype Option<T> = None | Some(value: T)

  datatype Entity<T> = Entity(id: string, data: T)

  datatype TrailerState = OnTime | SlaRisk | Late | Idle

  datatype Direction = Outbound | Consolidation

  datatype Trailer = Trailer(routeId: string, departMs: int, etaMs: int, state: TrailerState,
                             util: Option<real>, direction: Option<Direction>)

  datatype Stop = Stop(trailerId: string, tripId: string, refueling: bool, lon: real, lat: real, startMs: int, durationMinutes: int)

  datatype Hub = Hub(volumeBucket: int, slaRiskBucket: int, congestionBucket: int,
                     driverCount: Option<int>, onBreakCount: Option<int>, restingCount: Option<int>)

  datatype Route = Route(loadBucket: int, slaRiskBucket: int)

  datatype Exception = Exception(kind: string, severity: string, entityId: string, reason: string, recommendedAction: string, simMs: int)

  datatype SnapshotPayload = SnapshotPayload(
    trailers: seq<Entity<Trailer>>,
    trailerStops: Option<seq<Stop>>,
    hubs: seq<Entity<Hub>>,
    routes: seq<Entity<Route>>,
    exceptionsOpen: seq<Entity<Exception>>)

  /** An absent field means that part has not changed. */
  datatype TickPayload = TickPayload(
    trailers: seq<Entity<Trailer>>,
    trailersGone: seq<string>,
    trailerStops: Option<seq<Stop>>,
    hubs: seq<Entity<Hub>>,
    routes: seq<Entity<Route>>,
    exceptionsNew: seq<Entity<Exception>>,
    exceptionsResolved: seq<string>)

  // ----- Lists as maps -----------------------------------------------------------------

  /** What a `Map` built from the list holds: the last entry of each id. */
  function Index<T>(list: seq<Entity<T>>): map<string, T> {
    if list == [] then map[]
    else Index(list[..|list| - 1])[list[|list| - 1].id := list[|list| - 1].data]
  }

  /** The entries of that `Map`, each id at its first place. */
  function Entries<T>(list: seq<Entity<T>>): seq<Entity<T>> {
    if list == [] then [] else Put(Entries(list[..|list| - 1]), list[|list| - 1])
  }

  function Put<T>(entries: seq<Entity<T>>, e: Entity<T>): seq<Entity<T>> {
    if entries == [] then [e]
    else if entries[0].id == e.id then [e] + entries[1..]
    else [entries[0]] + Put(entries[1..], e)
  }

  function Keyed<T>(list: seq<Entity<T>>): seq<S.Keyed<Entity<T>>> {
    seq(|list|, i requires 0 <= i < |list| => S.Keyed(0, 0, list[i].id, list[i]))
  }

  function ById<T>(list: seq<Entity<T>>): seq<Entity<T>> {
    S.Items(S.Sort(Keyed(list)))
  }

  function InOrder(ids: seq<string>): seq<string> {
    S.Items(S.Sort(seq(|ids|, i requires 0 <= i < |ids| => S.Keyed(0, 0, ids[i], ids[i]))))
  }

  // ----- The delta -------------------------------------------------------------------------

  /** New, or different from what the client was last told. */
  predicate Changed<T(==)>(prev: map<string, T>, e: Entity<T>) {
    e.id !in prev || prev[e.id] != e.data
  }

  function ChangedOnly<T(==)>(prev: map<string, T>, list: seq<Entity<T>>): seq<Entity<T>> {
    if list == [] then []
    else
      var before, last := ChangedOnly(prev, list[..|list| - 1]), list[|list| - 1];
      if Changed(prev, last) then before + [last] else before
  }

  function Missing<T, U>(list: seq<Entity<T>>, next: map<string, U>): seq<string> {
    if list == [] then []
    else
      var before, last := Missing(list[..|list| - 1], next), list[|list| - 1];
      if last.id in next then before else before + [last.id]
  }

  /** A hub as it is read: an absent driver count is zero. */
  function OrZero(n: Option<int>): int { if n.Some? then n.value else 0 }

  datatype HubShown = HubShown(volume: int, slaRisk: int, congestion: int, drivers: int, onBreak: int, resting: int)

  function Shown(h: Hub): HubShown {
    HubShown(h.volumeBucket, h.slaRiskBucket, h.congestionBucket, OrZero(h.driverCount), OrZero(h.onBreakCount), OrZero(h.restingCount))
  }

  function ShownAll(hubs: seq<Entity<Hub>>): seq<Entity<HubShown>> {
    seq(|hubs|, i requires 0 <= i < |hubs| => Entity(hubs[i].id, Shown(hubs[i].data)))
  }

  predicate HubChanged(prev: map<string, HubShown>, h: Entity<Hub>) {
    Changed(prev, Entity(h.id, Shown(h.data)))
  }

  function ChangedHubs(prev: map<string, HubShown>, hubs: seq<Entity<Hub>>): seq<Entity<Hub>> {
    if hubs == [] then []
    else
      var before, last := ChangedHubs(prev, hubs[..|hubs| - 1]), hubs[|hubs| - 1];
      if HubChanged(prev, last) then before + [last] else before
  }

  function NewOnly<T, U>(list: seq<Entity<T>>, prev: map<string, U>): seq<Entity<T>> {
    if list == [] then []
    else
      var before, last := NewOnly(list[..|list| - 1], prev), list[|list| - 1];
      if last.id in prev then before else before + [last]
  }

  function StopsOf(p: SnapshotPayload): seq<Stop> {
    if p.trailerStops.Some? then p.trailerStops.value else []
  }

  function Delta(prev: SnapshotPayload, next: SnapshotPayload): TickPayload {
    TickPayload(
      ById(ChangedOnly(Index(prev.trailers), Entries(next.trailers))),
      InOrder(Missing(Entries(prev.trailers), Index(next.trailers))),
      if StopsOf(prev) != StopsOf(next) then Some(StopsOf(next)) else None,
      ById(ChangedHubs(Index(ShownAll(prev.hubs)), next.hubs)),
      ById(ChangedOnly(Index(prev.routes), next.routes)),
      ById(NewOnly(next.exceptionsOpen, Index(prev.exceptionsOpen))),
      InOrder(Missing(Entries(prev.exceptionsOpen), Index(next.exceptionsOpen))))
  }

  // ----- The loops as the code runs them --------------------------------------------------------

  method BuildMap<T>(list: seq<Entity<T>>) returns (m: map<string, T>)
    ensures m == Index(list)
  {
    m := map[];
    for i := 0 to |list|
      invariant m == Index(list[..i])
    {
      assert list[..i + 1][..i] == list[..i];
      m := m[list[i].id := list[i].data];
    }
    assert list[..|list|] == list;
  }

  method CollectChanged<T(==)>(prev: map<string, T>, list: seq<Entity<T>>) returns (out: seq<Entity<T>>)
    ensures out == ChangedOnly(prev, list)
  {
    out := [];
    for i := 0 to |list|
      invariant out == ChangedOnly(prev, list[..i])
    {
      assert list[..i + 1][..i] == list[..i];
      if list[i].id !in prev || prev[list[i].id] != list[i].data { out := out + [list[i]]; }
    }
    assert list[..|list|] == list;
  }

  method CollectChangedHubs(prev: map<string, HubShown>, list: seq<Entity<Hub>>) returns (out: seq<Entity<Hub>>)
    ensures out == ChangedHubs(prev, list)
  {
    out := [];
    for i := 0 to |list|
      invariant out == ChangedHubs(prev, list[..i])
    {
      assert list[..i + 1][..i] == list[..i];
      if HubChanged(prev, list[i]) { out := out + [list[i]]; }
    }
    assert list[..|list|] == list;
  }

  method CollectMissing<T, U>(list: seq<Entity<T>>, next: map<string, U>) returns (out: seq<string>)
    ensures out == Missing(list, next)
  {
    out := [];
    for i := 0 to |list|
      invariant out == Missing(list[..i], next)
    {
      assert list[..i + 1][..i] == list[..i];
      if list[i].id !in next { out := out + [list[i].id]; }
    }
    assert list[..|list|] == list;
  }

  method CollectNew<T, U>(list: seq<Entity<T>>, prev: map<string, U>) returns (out: seq<Entity<T>>)
    ensures out == NewOnly(list, prev)
  {
    out := [];
    for i := 0 to |list|
      invariant out == NewOnly(list[..i], prev)
    {
      assert list[..i + 1][..i] == list[..i];
      if list[i].id !in prev { out := out + [list[i]]; }
    }
    assert list[..|list|] == list;
  }

  method DiffTick(prev: SnapshotPayload, next: SnapshotPayload) returns (result: TickPayload)
    ensures result == Delta(prev, next)
  {
    var prevTrailers := BuildMap(prev.trailers);
    var nextTrailers := BuildMap(next.trailers);
    var upserted := CollectChanged(prevTrailers, Entries(next.trailers));
    var gone := CollectMissing(Entries(prev.trailers), nextTrailers);
    var stops := if StopsOf(prev) != StopsOf(next) then Some(StopsOf(next)) else None;
    var prevHubs := BuildMap(ShownAll(prev.hubs));
    var hubs := CollectChangedHubs(prevHubs, next.hubs);
    var prevRoutes := BuildMap(prev.routes);
    var routes := CollectChanged(prevRoutes, next.routes);
    var prevExceptions := BuildMap(prev.exceptionsOpen);
    var nextExceptions := BuildMap(next.exceptionsOpen);
    var raised := CollectNew(next.exceptionsOpen, prevExceptions);
    var resolved := CollectMissing(Entries(prev.exceptionsOpen), nextExceptions);
    result := TickPayload(ById(upserted), InOrder(gone), stops, ById(hubs), ById(routes), ById(raised), InOrder(resolved));
  }

  // ----- The client's picture ---------------------------------------------------------------------

  datatype View = View(
    trailers: map<string, Trailer>,
    stops: seq<Stop>,
    hubs: map<string, HubShown>,
    routes: map<string, Route>,
    exceptions: map<string, Exception>)

  function Picture(p: SnapshotPayload): View {
    View(Index(p.trailers), StopsOf(p), Index(ShownAll(p.hubs)), Index(p.routes), Index(p.exceptionsOpen))
  }

  function Upsert<T>(m: map<string, T>, list: seq<Entity<T>>): map<string, T> {
    if list == [] then m
    else Upsert(m, list[..|list| - 1])[list[|list| - 1].id := list[|list| - 1].data]
  }

  function Ids(list: seq<string>): set<string> {
    set x | x in list
  }

  /** Upserts replace or add, gone and resolved ids go, stops are replaced wholesale. */
  function Patch(v: View, t: TickPayload): View {
    View(
      Upsert(v.trailers - Ids(t.trailersGone), t.trailers),
      if t.trailerStops.Some? then t.trailerStops.value else v.stops,
      Upsert(v.hubs, ShownAll(t.hubs)),
      Upsert(v.routes, t.routes),
      Upsert(v.exceptions - Ids(t.exceptionsResolved), t.exceptionsNew))
  }
}
