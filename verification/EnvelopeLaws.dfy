/**
 * Patching with a delta rebuilds the newer picture, and a delta carries only what changed.
 */
module EnvelopeLaws {
  import opened Envelope
  import S = Sorting

  // ----- Members of the lists ------------------------------------------------------------

  lemma {:induction false} IndexHas<T>(list: seq<Entity<T>>)
    ensures forall id :: id in Index(list) <==> exists e :: e in list && e.id == id
    ensures forall id :: id in Index(list) ==> Entity(id, Index(list)[id]) in list
  {
    if list != [] {
      IndexHas(list[..|list| - 1]);
      assert list == list[..|list| - 1] + [list[|list| - 1]];
      assert list[|list| - 1] in list;
    }
  }

  lemma {:induction false} PutHas<T>(entries: seq<Entity<T>>, e: Entity<T>, x: Entity<T>)
    requires forall i, j :: 0 <= i < j < |entries| ==> entries[i].id != entries[j].id
    ensures x in Put(entries, e) <==> x == e || (x in entries && x.id != e.id)
    ensures forall i, j :: 0 <= i < j < |Put(entries, e)| ==> Put(entries, e)[i].id != Put(entries, e)[j].id
    ensures forall i :: 0 <= i < |Put(entries, e)| ==> Put(entries, e)[i].id == e.id || exists y :: y in entries && y.id == Put(entries, e)[i].id
  {
    if entries != [] {
      assert entries == [entries[0]] + entries[1..];
      if entries[0].id == e.id {
        forall i | 0 <= i < |entries[1..]| ensures entries[1..][i].id != e.id { assert entries[0].id != entries[i + 1].id; }
      } else {
        PutHas(entries[1..], e, x);
        var rest := Put(entries[1..], e);
        forall i | 0 <= i < |rest| ensures rest[i].id != entries[0].id {
          if rest[i].id != e.id {
            var y :| y in entries[1..] && y.id == rest[i].id;
            var k :| 0 <= k < |entries[1..]| && entries[1..][k] == y;
            assert entries[k + 1] == y;
          }
        }
      }
    }
  }

  ghost predicate DistinctIds<T>(list: seq<Entity<T>>) {
    forall i, j :: 0 <= i < j < |list| ==> list[i].id != list[j].id
  }

  /** The entries of the map, each once. */
  lemma {:induction false} EntriesAreIndex<T>(list: seq<Entity<T>>)
    ensures DistinctIds(Entries(list))
    ensures forall x :: x in Entries(list) <==> x.id in Index(list) && Index(list)[x.id] == x.data
  {
    if list != [] {
      var front, last := list[..|list| - 1], list[|list| - 1];
      EntriesAreIndex(front);
      forall x ensures x in Entries(list) <==> x.id in Index(list) && Index(list)[x.id] == x.data {
        PutHas(Entries(front), last, x);
      }
      PutHas(Entries(front), last, last);
    }
  }

  lemma ByIdHas<T>(list: seq<Entity<T>>, x: Entity<T>)
    ensures x in ById(list) <==> x in list
  {
    hide S.Sort;
    var keyed := Keyed(list);
    var sorted := S.Sort(keyed);
    S.SortHasSame(keyed, S.Keyed(0, 0, x.id, x));
    if x in list {
      var i :| 0 <= i < |list| && list[i] == x;
      assert keyed[i] == S.Keyed(0, 0, x.id, x);
      var k :| 0 <= k < |sorted| && sorted[k] == keyed[i];
      assert ById(list)[k] == x;
    }
    if x in ById(list) {
      var k :| 0 <= k < |sorted| && ById(list)[k] == x;
      S.SortHasSame(keyed, sorted[k]);
      var i :| 0 <= i < |keyed| && keyed[i] == sorted[k];
      assert list[i] == x;
    }
  }

  lemma InOrderHas(ids: seq<string>, x: string)
    ensures x in InOrder(ids) <==> x in ids
  {
    hide S.Sort;
    var keyed := seq(|ids|, i requires 0 <= i < |ids| => S.Keyed(0, 0, ids[i], ids[i]));
    var sorted := S.Sort(keyed);
    S.SortHasSame(keyed, S.Keyed(0, 0, x, x));
    if x in ids {
      var i :| 0 <= i < |ids| && ids[i] == x;
      assert keyed[i] == S.Keyed(0, 0, x, x);
      var k :| 0 <= k < |sorted| && sorted[k] == keyed[i];
      assert InOrder(ids)[k] == x;
    }
    if x in InOrder(ids) {
      var k :| 0 <= k < |sorted| && InOrder(ids)[k] == x;
      S.SortHasSame(keyed, sorted[k]);
      var i :| 0 <= i < |keyed| && keyed[i] == sorted[k];
      assert ids[i] == x;
    }
  }

  lemma {:induction false} ChangedOnlyHas<T>(prev: map<string, T>, list: seq<Entity<T>>)
    ensures forall x :: x in ChangedOnly(prev, list) <==> x in list && Changed(prev, x)
  {
    if list != [] {
      ChangedOnlyHas(prev, list[..|list| - 1]);
      assert list == list[..|list| - 1] + [list[|list| - 1]];
    }
  }

  lemma {:induction false} ChangedHubsHas(prev: map<string, HubShown>, list: seq<Entity<Hub>>)
    ensures forall x :: x in ChangedHubs(prev, list) <==> x in list && HubChanged(prev, x)
  {
    hide HubChanged;
    if list != [] {
      ChangedHubsHas(prev, list[..|list| - 1]);
      assert list == list[..|list| - 1] + [list[|list| - 1]];
    }
  }

  lemma {:induction false} MissingHas<T, U>(list: seq<Entity<T>>, next: map<string, U>)
    ensures forall id :: id in Missing(list, next) <==> id !in next && exists e :: e in list && e.id == id
  {
    if list != [] {
      MissingHas(list[..|list| - 1], next);
      assert list == list[..|list| - 1] + [list[|list| - 1]];
      assert list[|list| - 1] in list;
    }
  }

  lemma {:induction false} NewOnlyHas<T, U>(list: seq<Entity<T>>, prev: map<string, U>)
    ensures forall x :: x in NewOnly(list, prev) <==> x in list && x.id !in prev
  {
    if list != [] {
      NewOnlyHas(list[..|list| - 1], prev);
      assert list == list[..|list| - 1] + [list[|list| - 1]];
    }
  }

  // ----- Upserting ---------------------------------------------------------------------------

  /** Entries that agree with one map leave exactly that map's values at their ids. */
  lemma {:induction false} UpsertTo<T>(m: map<string, T>, list: seq<Entity<T>>, target: map<string, T>)
    requires forall x :: x in list ==> x.id in target && target[x.id] == x.data
    ensures forall id :: id in Upsert(m, list) <==> id in m || exists x :: x in list && x.id == id
    ensures forall id :: id in Upsert(m, list) ==>
      Upsert(m, list)[id] == if exists x :: x in list && x.id == id then target[id] else m[id]
  {
    if list != [] {
      var front, last := list[..|list| - 1], list[|list| - 1];
      assert list == front + [last] && last in list;
      UpsertTo(m, front, target);
    }
  }

  /** An entry of `next` that `prev` does not show. */
  ghost predicate IsNews<T>(x: Entity<T>, prev: map<string, T>, next: map<string, T>) {
    x.id in next && next[x.id] == x.data && Changed(prev, x)
  }

  /**
   * A picture that shows at least `prev` shows at least `next` after the changed entries are
   * upserted, and keeps whatever else it showed.
   */
  lemma UpsertChanged<T>(m: map<string, T>, prev: map<string, T>, sent: seq<Entity<T>>, next: map<string, T>)
    requires forall id :: id in prev ==> id in m && m[id] == prev[id]
    requires forall x :: x in sent <==> IsNews(x, prev, next)
    ensures forall id :: id in next ==> id in Upsert(m, sent) && Upsert(m, sent)[id] == next[id]
    ensures Upsert(m, sent).Keys == m.Keys + next.Keys
  {
    UpsertTo(m, sent, next);
    forall id | id in next ensures id in Upsert(m, sent) && Upsert(m, sent)[id] == next[id] {
      var x := Entity(id, next[id]);
      if Changed(prev, x) { assert x in sent; }
    }
  }

  lemma TrailersRebuilt(m: map<string, Trailer>, prev: SnapshotPayload, next: SnapshotPayload)
    requires m == Index(prev.trailers)
    ensures var t := Delta(prev, next); Upsert(m - Ids(t.trailersGone), t.trailers) == Index(next.trailers)
  {
    hide Index, Entries, ChangedOnly, Missing, ById, InOrder;
    var t, p, n := Delta(prev, next), Index(prev.trailers), Index(next.trailers);
    var kept := m - Ids(t.trailersGone);
    EntriesAreIndex(next.trailers);
    EntriesAreIndex(prev.trailers);
    ChangedOnlyHas(p, Entries(next.trailers));
    MissingHas(Entries(prev.trailers), n);
    forall x ensures x in t.trailers <==> x.id in n && n[x.id] == x.data && Changed(p, x) {
      ByIdHas(ChangedOnly(p, Entries(next.trailers)), x);
    }
    forall id ensures id in kept <==> id in p && id in n {
      InOrderHas(Missing(Entries(prev.trailers), n), id);
      if id in p { assert Entity(id, p[id]) in Entries(prev.trailers); }
    }
    UpsertTo(kept, t.trailers, n);
    forall id | id in n ensures id in Upsert(kept, t.trailers) && Upsert(kept, t.trailers)[id] == n[id] {
      var x := Entity(id, n[id]);
      if Changed(p, x) { assert x in t.trailers; }
    }
  }

  lemma ExceptionsRebuilt(m: map<string, Exception>, prev: SnapshotPayload, next: SnapshotPayload)
    requires m.Keys == Index(prev.exceptionsOpen).Keys
    ensures var t := Delta(prev, next);
      Upsert(m - Ids(t.exceptionsResolved), t.exceptionsNew).Keys == Index(next.exceptionsOpen).Keys
  {
    hide Index, Entries, NewOnly, Missing, ById, InOrder;
    var t, p, n := Delta(prev, next), Index(prev.exceptionsOpen), Index(next.exceptionsOpen);
    var kept := m - Ids(t.exceptionsResolved);
    EntriesAreIndex(prev.exceptionsOpen);
    IndexHas(next.exceptionsOpen);
    NewOnlyHas(next.exceptionsOpen, p);
    MissingHas(Entries(prev.exceptionsOpen), n);
    forall x ensures x in t.exceptionsNew <==> x in next.exceptionsOpen && x.id !in p {
      ByIdHas(NewOnly(next.exceptionsOpen, p), x);
    }
    forall id ensures id in kept <==> id in p && id in n {
      InOrderHas(Missing(Entries(prev.exceptionsOpen), n), id);
      if id in p { assert Entity(id, p[id]) in Entries(prev.exceptionsOpen); }
    }
    UpsertKeys(kept, t.exceptionsNew);
  }

  lemma {:induction false} UpsertKeys<T>(m: map<string, T>, list: seq<Entity<T>>)
    ensures forall id :: id in Upsert(m, list) <==> id in m || exists x :: x in list && x.id == id
  {
    if list != [] {
      UpsertKeys(m, list[..|list| - 1]);
      assert list == list[..|list| - 1] + [list[|list| - 1]] && list[|list| - 1] in list;
    }
  }

  lemma LastIsNew<T>(list: seq<Entity<T>>)
    requires list != [] && DistinctIds(list)
    ensures DistinctIds(list[..|list| - 1])
    ensures forall x :: x in list[..|list| - 1] ==> x.id != list[|list| - 1].id
  {
    var front, last := list[..|list| - 1], list[|list| - 1];
    forall x | x in front ensures x.id != last.id {
      var i :| 0 <= i < |front| && front[i] == x;
      assert list[i] == x;
    }
  }

  lemma {:induction false} DistinctIndex<T>(list: seq<Entity<T>>)
    requires DistinctIds(list)
    ensures forall x :: x in list <==> x.id in Index(list) && Index(list)[x.id] == x.data
  {
    hide DistinctIds;
    if list != [] {
      var front, last := list[..|list| - 1], list[|list| - 1];
      LastIsNew(list);
      DistinctIndex(front);
      forall x ensures x in list <==> x.id in Index(list) && Index(list)[x.id] == x.data {
        assert x in list <==> x in front || x == last by { assert list == front + [last]; }
      }
    }
  }

  /** Hub and route ids are keys of their tables. */
  ghost predicate WellKeyed(p: SnapshotPayload) {
    DistinctIds(p.hubs) && DistinctIds(p.routes)
  }

  lemma ShownHas(hubs: seq<Entity<Hub>>, x: Entity<HubShown>)
    ensures x in ShownAll(hubs) <==> exists h :: h in hubs && x == Entity(h.id, Shown(h.data))
  {
    if x in ShownAll(hubs) {
      var i :| 0 <= i < |hubs| && ShownAll(hubs)[i] == x;
      assert hubs[i] in hubs;
    }
    if h :| h in hubs && x == Entity(h.id, Shown(h.data)) {
      var i :| 0 <= i < |hubs| && hubs[i] == h;
      assert ShownAll(hubs)[i] == x;
    }
  }

  lemma HubsSent(prev: SnapshotPayload, next: SnapshotPayload, x: Entity<HubShown>)
    requires WellKeyed(next)
    ensures var n, p := Index(ShownAll(next.hubs)), Index(ShownAll(prev.hubs));
      x in ShownAll(Delta(prev, next).hubs) <==> IsNews(x, p, n)
  {
    hide Index, ById, ChangedHubs, ShownAll, Shown;
    var p := Index(ShownAll(prev.hubs));
    var sent := ById(ChangedHubs(p, next.hubs));
    ChangedHubsHas(p, next.hubs);
    ShownDistinct(next.hubs);
    DistinctIndex(ShownAll(next.hubs));
    ShownHas(next.hubs, x);
    ShownHas(sent, x);
    forall h ensures h in sent <==> h in next.hubs && HubChanged(p, h) { ByIdHas(ChangedHubs(p, next.hubs), h); }
  }

  lemma ShownDistinct(hubs: seq<Entity<Hub>>)
    requires DistinctIds(hubs)
    ensures DistinctIds(ShownAll(hubs))
  {
  }

  lemma RoutesSent(prev: SnapshotPayload, next: SnapshotPayload, x: Entity<Route>)
    requires WellKeyed(next)
    ensures var n, p := Index(next.routes), Index(prev.routes);
      x in Delta(prev, next).routes <==> IsNews(x, p, n)
  {
    hide Index, ById, ChangedOnly;
    ChangedOnlyHas(Index(prev.routes), next.routes);
    DistinctIndex(next.routes);
    ByIdHas(ChangedOnly(Index(prev.routes), next.routes), x);
  }

  // ----- Patching -----------------------------------------------------------------------------------

  /**
   * The picture agrees with the payload: trailers, stops and open-exception ids exactly, and every
   * hub and route of the payload as it is. A hub or route that has left the payload may linger.
   */
  ghost predicate Agrees(v: View, p: SnapshotPayload) {
    && v.trailers == Index(p.trailers) && v.stops == StopsOf(p)
    && v.exceptions.Keys == Index(p.exceptionsOpen).Keys
    && (forall id :: id in Index(ShownAll(p.hubs)) ==> id in v.hubs && v.hubs[id] == Index(ShownAll(p.hubs))[id])
    && (forall id :: id in Index(p.routes) ==> id in v.routes && v.routes[id] == Index(p.routes)[id])
  }

  lemma PictureAgrees(p: SnapshotPayload)
    ensures Agrees(Picture(p), p)
  {
  }

  /** A picture that agrees with `prev` agrees with `next` once patched, whoever else it has met. */
  lemma PatchRebuilds(v: View, prev: SnapshotPayload, next: SnapshotPayload)
    requires Agrees(v, prev) && WellKeyed(next)
    ensures Agrees(Patch(v, Delta(prev, next)), next)
    ensures Patch(v, Delta(prev, next)).hubs.Keys == v.hubs.Keys + Index(ShownAll(next.hubs)).Keys
    ensures Patch(v, Delta(prev, next)).routes.Keys == v.routes.Keys + Index(next.routes).Keys
  {
    hide Index, Upsert, ById, ShownAll, WellKeyed, InOrder, Missing, ChangedOnly, ChangedHubs, NewOnly, Entries, Changed;
    var t := Delta(prev, next);
    TrailersRebuilt(v.trailers, prev, next);
    ExceptionsRebuilt(v.exceptions, prev, next);
    forall x ensures x in ShownAll(t.hubs) <==> IsNews(x, Index(ShownAll(prev.hubs)), Index(ShownAll(next.hubs))) {
      HubsSent(prev, next, x);
    }
    UpsertChanged(v.hubs, Index(ShownAll(prev.hubs)), ShownAll(t.hubs), Index(ShownAll(next.hubs)));
    forall x ensures x in t.routes <==> IsNews(x, Index(prev.routes), Index(next.routes)) { RoutesSent(prev, next, x); }
    UpsertChanged(v.routes, Index(prev.routes), t.routes, Index(next.routes));
  }

  /**
   * Patching the picture of `prev` gives the picture of `next` in trailers, stops and exception ids
   * always, and in hubs and routes if and only if no hub or route id of `prev` has disappeared.
   */
  lemma PatchIsExactIff(prev: SnapshotPayload, next: SnapshotPayload)
    requires WellKeyed(next)
    ensures var patched := Patch(Picture(prev), Delta(prev, next));
      && patched.trailers == Picture(next).trailers && patched.stops == Picture(next).stops
      && patched.exceptions.Keys == Picture(next).exceptions.Keys
      && (patched.hubs == Picture(next).hubs <==> Picture(prev).hubs.Keys <= Picture(next).hubs.Keys)
      && (patched.routes == Picture(next).routes <==> Picture(prev).routes.Keys <= Picture(next).routes.Keys)
  {
    hide Index, ShownAll, WellKeyed, Patch, Delta;
    PictureAgrees(prev);
    PatchRebuilds(Picture(prev), prev, next);
    var patched := Patch(Picture(prev), Delta(prev, next));
    SameWhenCovered(patched.hubs, Picture(prev).hubs, Picture(next).hubs);
    SameWhenCovered(patched.routes, Picture(prev).routes, Picture(next).routes);
  }

  lemma IndexOfOne<T>(e: Entity<T>)
    ensures Index([e]) == map[e.id := e.data]
  {
    assert [e][..0] == [];
  }

  /** One hub and one route, both gone in the next payload: the delta cannot say so, and both linger. */
  lemma VanishedHubsAndRoutesLinger(hub: Entity<Hub>, route: Entity<Route>)
    ensures var prev := SnapshotPayload([], None, [hub], [route], []);
            var next := SnapshotPayload([], None, [], [], []);
            var patched := Patch(Picture(prev), Delta(prev, next));
      && WellKeyed(next) && Picture(next).hubs == map[] && Picture(next).routes == map[]
      && patched.hubs.Keys == {hub.id} && patched.routes.Keys == {route.id}
  {
    var prev := SnapshotPayload([], None, [hub], [route], []);
    var next := SnapshotPayload([], None, [], [], []);
    assert ShownAll([hub]) == [Entity(hub.id, Shown(hub.data))];
    IndexOfOne(Entity(hub.id, Shown(hub.data)));
    IndexOfOne(route);
    PictureAgrees(prev);
    PatchRebuilds(Picture(prev), prev, next);
  }

  lemma SameWhenCovered<T>(patched: map<string, T>, prev: map<string, T>, next: map<string, T>)
    requires forall id :: id in next ==> id in patched && patched[id] == next[id]
    requires patched.Keys == prev.Keys + next.Keys
    ensures patched == next <==> prev.Keys <= next.Keys
  {
    if prev.Keys <= next.Keys {
      assert patched.Keys == next.Keys;
      assert forall id :: id in patched <==> id in next;
    } else {
      assert patched.Keys != next.Keys;
    }
  }

  /** An absent count and a count of zero look the same; any other difference shows. */
  predicate SameCount(a: Option<int>, b: Option<int>) {
    a == b || (a.None? && b == Some(0)) || (a == Some(0) && b.None?)
  }

  /** Two states of a hub are shown alike if and only if their buckets agree and so do their counts, where absent is zero. */
  lemma ShownAlikeIff(h: Hub, k: Hub)
    ensures Shown(h) == Shown(k) <==>
      && h.volumeBucket == k.volumeBucket && h.slaRiskBucket == k.slaRiskBucket && h.congestionBucket == k.congestionBucket
      && SameCount(h.driverCount, k.driverCount) && SameCount(h.onBreakCount, k.onBreakCount)
      && SameCount(h.restingCount, k.restingCount)
    ensures h.driverCount.Some? ==> Shown(h).drivers == h.driverCount.value
    ensures h.onBreakCount.Some? ==> Shown(h).onBreak == h.onBreakCount.value
    ensures h.restingCount.Some? ==> Shown(h).resting == h.restingCount.value
  {
  }

  /** Nothing is sent that the client already shows, and nothing is withdrawn that is still there. */
  lemma OnlyChangesAreSent(prev: SnapshotPayload, next: SnapshotPayload)
    requires WellKeyed(next)
    ensures var t, before, after := Delta(prev, next), Picture(prev), Picture(next);
      && (forall x :: x in t.trailers ==> Changed(before.trailers, x) && x.id in after.trailers && after.trailers[x.id] == x.data)
      && (forall id :: id in t.trailersGone ==> id in before.trailers && id !in after.trailers)
      && (t.trailerStops.Some? ==> before.stops != after.stops)
      && (forall x :: x in ShownAll(t.hubs) ==> Changed(before.hubs, x))
      && (forall x :: x in t.routes ==> Changed(before.routes, x))
      && (forall x :: x in t.exceptionsNew ==> x.id !in before.exceptions)
      && (forall id :: id in t.exceptionsResolved ==> id in before.exceptions && id !in after.exceptions)
  {
    hide Index, Entries, ChangedOnly, Missing, ById, InOrder, ShownAll, ChangedHubs, NewOnly, Changed;
    var t := Delta(prev, next);
    EntriesAreIndex(next.trailers);
    EntriesAreIndex(prev.trailers);
    EntriesAreIndex(prev.exceptionsOpen);
    ChangedOnlyHas(Index(prev.trailers), Entries(next.trailers));
    MissingHas(Entries(prev.trailers), Index(next.trailers));
    MissingHas(Entries(prev.exceptionsOpen), Index(next.exceptionsOpen));
    NewOnlyHas(next.exceptionsOpen, Index(prev.exceptionsOpen));
    forall x | x in t.trailers ensures x in ChangedOnly(Index(prev.trailers), Entries(next.trailers)) {
      ByIdHas(ChangedOnly(Index(prev.trailers), Entries(next.trailers)), x);
    }
    forall id | id in t.trailersGone ensures id in Missing(Entries(prev.trailers), Index(next.trailers)) {
      InOrderHas(Missing(Entries(prev.trailers), Index(next.trailers)), id);
    }
    forall x | x in ShownAll(t.hubs) ensures Changed(Index(ShownAll(prev.hubs)), x) { HubsSent(prev, next, x); }
    forall x | x in t.routes ensures Changed(Index(prev.routes), x) { RoutesSent(prev, next, x); }
    forall x | x in t.exceptionsNew ensures x.id !in Index(prev.exceptionsOpen) {
      ByIdHas(NewOnly(next.exceptionsOpen, Index(prev.exceptionsOpen)), x);
    }
    forall id | id in t.exceptionsResolved ensures id in Missing(Entries(prev.exceptionsOpen), Index(next.exceptionsOpen)) {
      InOrderHas(Missing(Entries(prev.exceptionsOpen), Index(next.exceptionsOpen)), id);
    }
  }

  // ----- In id order ------------------------------------------------------------------------------

  ghost predicate Ascends(ids: seq<string>) { forall i, j :: 0 <= i < j < |ids| ==> !S.Less(ids[j], ids[i]) }

  function IdsOf<T>(list: seq<Entity<T>>): seq<string> {
    seq(|list|, i requires 0 <= i < |list| => list[i].id)
  }

  lemma ByIdAscends<T>(list: seq<Entity<T>>)
    ensures Ascends(IdsOf(ById(list)))
  {
    hide S.Sort;
    var keyed := Keyed(list);
    var sorted := S.Sort(keyed);
    S.SortSorted(keyed);
    forall k | 0 <= k < |sorted| ensures sorted[k] == S.Keyed(0, 0, sorted[k].item.id, sorted[k].item) {
      S.SortHasSame(keyed, sorted[k]);
      var i :| 0 <= i < |keyed| && keyed[i] == sorted[k];
    }
    forall i, j | 0 <= i < j < |sorted| ensures !S.Less(IdsOf(ById(list))[j], IdsOf(ById(list))[i]) { assert !S.Before(sorted[j], sorted[i]); }
  }

  lemma InOrderAscends(ids: seq<string>)
    ensures Ascends(InOrder(ids))
  {
    hide S.Sort;
    var keyed := seq(|ids|, i requires 0 <= i < |ids| => S.Keyed(0, 0, ids[i], ids[i]));
    var sorted := S.Sort(keyed);
    S.SortSorted(keyed);
    forall k | 0 <= k < |sorted| ensures sorted[k] == S.Keyed(0, 0, sorted[k].item, sorted[k].item) {
      S.SortHasSame(keyed, sorted[k]);
      var i :| 0 <= i < |keyed| && keyed[i] == sorted[k];
    }
    forall i, j | 0 <= i < j < |sorted| ensures !S.Less(InOrder(ids)[j], InOrder(ids)[i]) { assert !S.Before(sorted[j], sorted[i]); }
  }

  /** Every list of a delta comes in id order, so equal changes make equal deltas. */
  lemma DeltaIsInIdOrder(prev: SnapshotPayload, next: SnapshotPayload)
    ensures var t := Delta(prev, next);
      && Ascends(IdsOf(t.trailers)) && Ascends(t.trailersGone) && Ascends(IdsOf(t.hubs)) && Ascends(IdsOf(t.routes))
      && Ascends(IdsOf(t.exceptionsNew)) && Ascends(t.exceptionsResolved)
  {
    hide ById, InOrder, Ascends;
    ByIdAscends(ChangedOnly(Index(prev.trailers), Entries(next.trailers)));
    InOrderAscends(Missing(Entries(prev.trailers), Index(next.trailers)));
    ByIdAscends(ChangedHubs(Index(ShownAll(prev.hubs)), next.hubs));
    ByIdAscends(ChangedOnly(Index(prev.routes), next.routes));
    ByIdAscends(NewOnly(next.exceptionsOpen, Index(prev.exceptionsOpen)));
    InOrderAscends(Missing(Entries(prev.exceptionsOpen), Index(next.exceptionsOpen)));
  }
}
