/**
 * The validator against an unload played out stop by stop, what the absence of violations means,
 * and what the unload order of a hub says about the route.
 */
module UnloadLaws {
  import opened PlanningTypes
  import opened LoadPlanner
  import opened LoadValidator
  import opened LoadLaws
  import S = Sorting

  // ----- A trailer unloaded stop by stop -------------------------------------------------

  datatype Handled = Handled(placement: Placement, found: nat)

  /** What comes off at `stop`, or what stays aboard. */
  function At(aboard: seq<Placement>, stop: nat): seq<Placement> {
    if aboard == [] then []
    else
      var before, last := At(aboard[..|aboard| - 1], stop), aboard[|aboard| - 1];
      if last.unloadOrder == stop then before + [last] else before
  }

  function Staying(aboard: seq<Placement>, stop: nat): seq<Placement> {
    if aboard == [] then []
    else
      var before, last := Staying(aboard[..|aboard| - 1], stop), aboard[|aboard| - 1];
      if last.unloadOrder == stop then before else before + [last]
  }

  /** Freight in front of `target` that is not itself coming off at this stop. */
  function InFront(target: Placement, aboard: seq<Placement>): nat {
    if aboard == [] then 0
    else
      var last := aboard[|aboard| - 1];
      InFront(target, aboard[..|aboard| - 1])
      + if last.depth < target.depth && last.unloadOrder != target.unloadOrder then 1 else 0
  }

  function HandleAll(off: seq<Placement>, aboard: seq<Placement>): seq<Handled> {
    seq(|off|, i requires 0 <= i < |off| => Handled(off[i], InFront(off[i], aboard)))
  }

  function Unload(aboard: seq<Placement>, stop: nat, stops: nat): seq<Handled>
    decreases stops - stop
  {
    if stop >= stops then []
    else HandleAll(At(aboard, stop), aboard) + Unload(Staying(aboard, stop), stop + 1, stops)
  }

  /** What is left aboard before `stop`. */
  function Aboard(placements: seq<Placement>, stop: nat): seq<Placement> {
    if placements == [] then []
    else
      var before, last := Aboard(placements[..|placements| - 1], stop), placements[|placements| - 1];
      if last.unloadOrder >= stop then before + [last] else before
  }

  lemma {:induction false} StayingIsNextAboard(placements: seq<Placement>, stop: nat)
    ensures Staying(Aboard(placements, stop), stop) == Aboard(placements, stop + 1)
  {
    if placements != [] {
      var front, last := placements[..|placements| - 1], placements[|placements| - 1];
      StayingIsNextAboard(front, stop);
      if last.unloadOrder >= stop {
        assert (Aboard(front, stop) + [last])[..|Aboard(front, stop)|] == Aboard(front, stop);
      }
    }
  }

  /** At its stop a block meets exactly the freight the pairwise rule counts against it. */
  lemma {:induction false} FoundIsCounted(target: Placement, placements: seq<Placement>)
    ensures InFront(target, Aboard(placements, target.unloadOrder)) == Blockers(target, placements)
  {
    if placements != [] {
      var front, last := placements[..|placements| - 1], placements[|placements| - 1];
      FoundIsCounted(target, front);
      if last.unloadOrder >= target.unloadOrder {
        var before := Aboard(front, target.unloadOrder);
        assert (before + [last])[..|before|] == before;
      }
    }
  }

  lemma {:induction false} AtOrder(aboard: seq<Placement>, stop: nat)
    ensures forall p :: p in At(aboard, stop) ==> p.unloadOrder == stop
  {
    if aboard != [] { AtOrder(aboard[..|aboard| - 1], stop); }
  }

  lemma {:induction false} UnloadFrom(placements: seq<Placement>, stop: nat, stops: nat)
    ensures forall h :: h in Unload(Aboard(placements, stop), stop, stops) ==> h.found == Blockers(h.placement, placements)
    decreases stops - stop
  {
    hide Blockers, InFront, At, Aboard, Staying;
    if stop < stops {
      var aboard := Aboard(placements, stop);
      StayingIsNextAboard(placements, stop);
      UnloadFrom(placements, stop + 1, stops);
      AtOrder(aboard, stop);
      forall h | h in HandleAll(At(aboard, stop), aboard) ensures h.found == Blockers(h.placement, placements) {
        assert h.placement in At(aboard, stop);
        FoundIsCounted(h.placement, placements);
      }
    }
  }

  function Unloaded(handled: seq<Handled>): seq<Placement> {
    seq(|handled|, i requires 0 <= i < |handled| => handled[i].placement)
  }

  lemma {:induction false} OffOrOn(aboard: seq<Placement>, stop: nat)
    ensures multiset(aboard) == multiset(At(aboard, stop)) + multiset(Staying(aboard, stop))
    ensures forall p :: p in Staying(aboard, stop) ==> p in aboard && p.unloadOrder != stop
  {
    if aboard != [] {
      OffOrOn(aboard[..|aboard| - 1], stop);
      assert aboard == aboard[..|aboard| - 1] + [aboard[|aboard| - 1]];
    }
  }

  lemma SomeMember(aboard: seq<Placement>)
    ensures aboard == [] || exists p :: p in aboard
  {
    if aboard != [] { assert aboard[0] in aboard; }
  }

  lemma {:induction false} EverythingComesOff(aboard: seq<Placement>, stop: nat, stops: nat)
    requires forall p :: p in aboard ==> stop <= p.unloadOrder < stops
    ensures multiset(Unloaded(Unload(aboard, stop, stops))) == multiset(aboard)
    decreases stops - stop
  {
    hide At, Staying, InFront;
    if stop >= stops {
      SomeMember(aboard);
    } else {
      OffOrOn(aboard, stop);
      EverythingComesOff(Staying(aboard, stop), stop + 1, stops);
      var now, later := HandleAll(At(aboard, stop), aboard), Unload(Staying(aboard, stop), stop + 1, stops);
      assert Unloaded(now + later) == Unloaded(now) + Unloaded(later);
      assert Unloaded(now) == At(aboard, stop);
    }
  }

  lemma {:induction false} AllAboardAtFirst(placements: seq<Placement>)
    ensures Aboard(placements, 0) == placements
  {
    if placements != [] {
      AllAboardAtFirst(placements[..|placements| - 1]);
      assert placements == placements[..|placements| - 1] + [placements[|placements| - 1]];
    }
  }

  /**
   * For any layout: play the route out, and every block comes off once, finding in front of it
   * exactly as many blocks to move as the validator's pairwise count says.
   */
  lemma ValidatorCountsTheUnload(placements: seq<Placement>, stops: nat)
    requires forall p :: p in placements ==> p.unloadOrder < stops
    ensures multiset(Unloaded(Unload(placements, 0, stops))) == multiset(placements)
    ensures forall h :: h in Unload(placements, 0, stops) ==> h.found == Blockers(h.placement, placements)
  {
    AllAboardAtFirst(placements);
    UnloadFrom(placements, 0, stops);
    EverythingComesOff(placements, 0, stops);
  }

  // ----- No violations means LIFO ------------------------------------------------------------

  lemma {:induction false} NoBlockersMeansNone(target: Placement, placements: seq<Placement>)
    ensures Blockers(target, placements) == 0 <==> forall o :: o in placements ==> !IsBlocker(target, o)
  {
    if placements != [] {
      NoBlockersMeansNone(target, placements[..|placements| - 1]);
      assert placements == placements[..|placements| - 1] + [placements[|placements| - 1]];
    }
  }

  lemma {:induction false} ViolationsBySeverity(targets: seq<Placement>, placements: seq<Placement>, max: nat)
    ensures Violations(targets, placements, max, HARD) == [] <==> forall t :: t in targets ==> Blockers(t, placements) <= max
    ensures Violations(targets, placements, max, SOFT) == [] <==>
      forall t :: t in targets ==> Blockers(t, placements) == 0 || Blockers(t, placements) > max
  {
    hide Blockers;
    if targets != [] {
      var front, last := targets[..|targets| - 1], targets[|targets| - 1];
      ViolationsBySeverity(front, placements, max);
      assert targets == front + [last] && last in targets;
      assert forall t :: t in front ==> t in targets;
    }
  }

  /** A plan is feasible exactly when no block has more than the allowed blockers in front of it. */
  lemma FeasibleMeansBounded(placements: seq<Placement>, max: nat)
    ensures IsFeasible(Feasibility(Violations(placements, placements, max, HARD), Violations(placements, placements, max, SOFT)))
       <==> forall t :: t in placements ==> Blockers(t, placements) <= max
  {
    ViolationsBySeverity(placements, placements, max);
  }

  /** Both lists are empty exactly when the pairwise LIFO rule holds of the layout. */
  lemma NoViolationsMeansLifo(placements: seq<Placement>, max: nat)
    ensures Violations(placements, placements, max, HARD) == [] && Violations(placements, placements, max, SOFT) == []
       <==> CanonicalInvariant(placements)
  {
    hide Blockers, Violations;
    ViolationsBySeverity(placements, placements, max);
    forall t ensures Blockers(t, placements) == 0 <==> forall o :: o in placements ==> !IsBlocker(t, o) {
      NoBlockersMeansNone(t, placements);
    }
    if CanonicalInvariant(placements) {
      forall t, o | t in placements && o in placements ensures !IsBlocker(t, o) {
        var i :| 0 <= i < |placements| && placements[i] == t;
        var j :| 0 <= j < |placements| && placements[j] == o;
        assert InOrder(placements[i], placements[j]);
      }
    } else {
      var i, j :| 0 <= i < |placements| && 0 <= j < |placements| && !InOrder(placements[i], placements[j]);
      assert placements[i] in placements && placements[j] in placements;
      assert IsBlocker(placements[i], placements[j]);
      assert Blockers(placements[i], placements) != 0;
    }
  }

  lemma {:induction false} NothingToRehandle(targets: seq<Placement>, placements: seq<Placement>, byId: map<string, LoadBlock>, config: PlannerConfig)
    requires forall t :: t in targets ==> Blockers(t, placements) == 0
    ensures Rehandles(targets, placements, byId, config) == []
  {
    hide Blockers;
    if targets != [] { NothingToRehandle(targets[..|targets| - 1], placements, byId, config); }
  }

  /** For every route and block set, the planner's slices pass validation clean and score zero. */
  lemma PlanLoadIsAccessible(plan: LoadPlan, blocks: seq<LoadBlock>, route: seq<RouteStop>, config: PlannerConfig)
    requires PlanOf(plan, Ordered(blocks, UnloadOrders(route)), route, config) && OneHubPerId(blocks)
    ensures var placements := SlicePlacements(plan.slices, HubById(blocks), UnloadOrders(route));
      && Violations(placements, placements, config.maxAllowedBlockers, HARD) == []
      && Violations(placements, placements, config.maxAllowedBlockers, SOFT) == []
      && TotalCost(S.Items(S.Sort(Rehandles(placements, placements, BlockById(blocks), config)))) == 0.0
  {
    hide SlicePlacements, HubById, UnloadOrders, Ordered, Filled, Blockers, Violations, BlockById;
    PlanIsLifo(plan, blocks, route, config);
    var placements := SlicePlacements(plan.slices, HubById(blocks), UnloadOrders(route));
    NoViolationsMeansLifo(placements, config.maxAllowedBlockers);
    ViolationsBySeverity(placements, placements, config.maxAllowedBlockers);
    NothingToRehandle(placements, placements, BlockById(blocks), config);
    NothingSorted();
  }

  lemma NothingSorted()
    ensures TotalCost(S.Items(S.Sort([]))) == 0.0
  {
  }

  // ----- What an unload order says about the route --------------------------------------------

  function FirstVisit(stops: seq<RouteStop>, hub: string): nat {
    if stops == [] then 0
    else
      var front := stops[..|stops| - 1];
      if hub in Number(front) then FirstVisit(front, hub) else |front|
  }

  lemma {:induction false} NumberIsDense(stops: seq<RouteStop>)
    ensures forall h :: h in Number(stops) ==> Number(stops)[h] < |Number(stops)|
    ensures forall h :: h in Number(stops) <==> exists s :: s in stops && s.hubId == h
    ensures forall g, h :: g in Number(stops) && h in Number(stops) && Number(stops)[g] == Number(stops)[h] ==> g == h
  {
    if stops != [] {
      NumberIsDense(stops[..|stops| - 1]);
      assert stops == stops[..|stops| - 1] + [stops[|stops| - 1]];
      assert stops[|stops| - 1] in stops;
    }
  }

  lemma {:induction false} FirstVisitIsFirst(stops: seq<RouteStop>, g: string)
    requires g in Number(stops)
    ensures FirstVisit(stops, g) < |stops| && stops[FirstVisit(stops, g)].hubId == g
    ensures forall k :: 0 <= k < |stops| && stops[k].hubId == g ==> FirstVisit(stops, g) <= k
  {
    var front, last := stops[..|stops| - 1], stops[|stops| - 1];
    if g in Number(front) {
      FirstVisitIsFirst(front, g);
      forall k | 0 <= k < |stops| && stops[k].hubId == g ensures FirstVisit(front, g) <= k {
        if k < |front| { assert front[k].hubId == g; }
      }
    } else {
      NumberIsDense(front);
      hide Number;
      forall k | 0 <= k < |front| ensures stops[k].hubId != g { assert front[k] in front; }
    }
  }

  lemma {:induction false} NumberedByFirstVisit(stops: seq<RouteStop>, g: string, h: string)
    requires g in Number(stops) && h in Number(stops)
    ensures Number(stops)[g] < Number(stops)[h] <==> FirstVisit(stops, g) < FirstVisit(stops, h)
  {
    var front := stops[..|stops| - 1];
    NumberIsDense(front);
    if g in Number(front) && h in Number(front) {
      NumberedByFirstVisit(front, g, h);
    } else if g in Number(front) {
      FirstVisitIsFirst(front, g);
    } else if h in Number(front) {
      FirstVisitIsFirst(front, h);
    }
  }

  /** By stop index, then by position in the route as given. */
  predicate Sooner(route: seq<RouteStop>, i: nat, j: nat)
    requires i < |route| && j < |route|
  {
    route[i].stopIndex < route[j].stopIndex || (route[i].stopIndex == route[j].stopIndex && i < j)
  }

  /** Some stop at `g` comes sooner than every stop at `h`. */
  ghost predicate ReachedFirst(route: seq<RouteStop>, g: string, h: string) {
    exists i :: 0 <= i < |route| && route[i].hubId == g && SoonerThanAll(route, i, h)
  }

  ghost predicate SoonerThanAll(route: seq<RouteStop>, i: nat, h: string)
    requires i < |route|
  {
    forall j :: 0 <= j < |route| && route[j].hubId == h ==> Sooner(route, i, j)
  }

  ghost predicate Standing(sorted: seq<S.Keyed<RouteStop>>, i: int) {
    exists p :: 0 <= p < |sorted| && sorted[p].tie == i
  }

  lemma RankedStops(route: seq<RouteStop>)
    ensures var sorted := S.Sort(KeyedStops(route));
      && |sorted| == |route| && S.Sorted(sorted)
      && (forall p :: 0 <= p < |sorted| ==>
            0 <= sorted[p].tie < |route| && sorted[p] == KeyedStops(route)[sorted[p].tie])
      && (forall i :: 0 <= i < |route| ==> Standing(sorted, i))
  {
    hide S.Sort, S.Sorted;
    var keyed := KeyedStops(route);
    var sorted := S.Sort(keyed);
    S.SortSorted(keyed);
    S.SortMembers(keyed);
    forall p | 0 <= p < |sorted| ensures 0 <= sorted[p].tie < |route| && sorted[p] == keyed[sorted[p].tie] {
      S.SortHasSame(keyed, sorted[p]);
      var i :| 0 <= i < |keyed| && keyed[i] == sorted[p];
    }
    forall i | 0 <= i < |route| ensures Standing(sorted, i) {
      S.SortHasSame(keyed, keyed[i]);
      var p :| 0 <= p < |sorted| && sorted[p] == keyed[i];
    }
  }

  lemma EarlierNumberReachedFirst(route: seq<RouteStop>, g: string, h: string)
    requires g in UnloadOrders(route) && h in UnloadOrders(route)
    requires FirstVisit(Ranked(route), g) < FirstVisit(Ranked(route), h)
    ensures ReachedFirst(route, g, h)
  {
    var sorted, ranked := S.Sort(KeyedStops(route)), Ranked(route);
    RankedStops(route);
    FirstVisitIsFirst(ranked, g);
    FirstVisitIsFirst(ranked, h);
    hide S.Sort, Number, FirstVisit;
    var p, q := FirstVisit(ranked, g), FirstVisit(ranked, h);
    var i := sorted[p].tie;
    forall j | 0 <= j < |route| && route[j].hubId == h ensures Sooner(route, i, j) {
      assert Standing(sorted, j);
      var k :| 0 <= k < |sorted| && sorted[k].tie == j;
      assert ranked[k].hubId == h && q <= k;
      assert !S.Before(sorted[k], sorted[p]);
    }
    assert SoonerThanAll(route, i, h);
  }

  lemma ReachedFirstNumberedFirst(route: seq<RouteStop>, g: string, h: string)
    requires g in UnloadOrders(route) && h in UnloadOrders(route) && ReachedFirst(route, g, h)
    ensures FirstVisit(Ranked(route), g) < FirstVisit(Ranked(route), h)
  {
    hide Number, FirstVisit, Ranked, S.Sort, S.Items;
    var i :| 0 <= i < |route| && route[i].hubId == g && SoonerThanAll(route, i, h);
    SoonestRanksFirst(route, g, h, i);
  }

  /** A stop that comes sooner stands earlier in the sorted stops. */
  lemma SoonerStandsFirst(route: seq<RouteStop>, k: nat, q: nat)
    requires var sorted := S.Sort(KeyedStops(route));
             && |sorted| == |route| && k < |route| && q < |route|
             && 0 <= sorted[k].tie < |route| && 0 <= sorted[q].tie < |route| && Sooner(route, sorted[k].tie, sorted[q].tie)
    ensures k < q
  {
    RankedStops(route);
    hide S.Sort;
    var sorted := S.Sort(KeyedStops(route));
    assert S.Before(sorted[k], sorted[q]);
  }

  lemma SoonestRanksFirst(route: seq<RouteStop>, g: string, h: string, i: nat)
    requires g in UnloadOrders(route) && h in UnloadOrders(route)
    requires i < |route| && route[i].hubId == g && SoonerThanAll(route, i, h)
    ensures FirstVisit(Ranked(route), g) < FirstVisit(Ranked(route), h)
  {
    var sorted, ranked := S.Sort(KeyedStops(route)), Ranked(route);
    RankedStops(route);
    FirstVisitIsFirst(ranked, g);
    FirstVisitIsFirst(ranked, h);
    hide S.Sort, S.Sorted, Number, FirstVisit, UnloadOrders;
    var q := FirstVisit(ranked, h);
    assert Standing(sorted, i);
    var k :| 0 <= k < |sorted| && sorted[k].tie == i;
    assert ranked[k].hubId == g && FirstVisit(ranked, g) <= k;
    assert route[sorted[q].tie].hubId == h;
    assert Sooner(route, i, sorted[q].tie);
    hide SoonerThanAll, Sooner;
    SoonerStandsFirst(route, k, q);
  }

  /** The hub that is reached first has the lower unload order, whatever order the stops came in. */
  lemma LowerOrderMeansReachedFirst(route: seq<RouteStop>, g: string, h: string)
    requires g in UnloadOrders(route) && h in UnloadOrders(route)
    ensures UnloadOrders(route)[g] < UnloadOrders(route)[h] <==> ReachedFirst(route, g, h)
  {
    hide Number, FirstVisit, Ranked;
    NumberedByFirstVisit(Ranked(route), g, h);
    if FirstVisit(Ranked(route), g) < FirstVisit(Ranked(route), h) { EarlierNumberReachedFirst(route, g, h); }
    if ReachedFirst(route, g, h) { ReachedFirstNumberedFirst(route, g, h); }
  }
}
