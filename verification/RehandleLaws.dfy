/**
 * The rehandle score against the unload played out stop by stop: every block that has to be moved out of
 * the way costs its minutes and its volume, every block that was in its way the flat penalties, once.
 */
module RehandleLaws {
  import opened PlanningTypes
  import opened LoadPlanner
  import opened LoadValidator
  import opened UnloadLaws
  import S = Sorting

  // ----- What an unload has to move ----------------------------------------------------------

  /** Blocks moved out of the way, their volume, the blocks they were in the way of, the fragile among those. */
  datatype Tally = Tally(moves: nat, volume: real, blocked: nat, fragile: nat)

  const NO_WORK := Tally(0, 0.0, 0, 0)

  function Plus(a: Tally, b: Tally): Tally {
    Tally(a.moves + b.moves, a.volume + b.volume, a.blocked + b.blocked, a.fragile + b.fragile)
  }

  function VolumeOf(p: Placement, byId: map<string, LoadBlock>): real {
    if p.loadBlockId in byId then byId[p.loadBlockId].totalVolume else 0.0
  }

  predicate IsFragile(p: Placement, byId: map<string, LoadBlock>) {
    p.loadBlockId in byId && byId[p.loadBlockId].key.handlingClass == Fragile
  }

  /** The volume of the freight in front of `target` that is not itself coming off at this stop. */
  function VolumeInFront(target: Placement, aboard: seq<Placement>, byId: map<string, LoadBlock>): real {
    if aboard == [] then 0.0
    else
      var last := aboard[|aboard| - 1];
      VolumeInFront(target, aboard[..|aboard| - 1], byId)
      + if last.depth < target.depth && last.unloadOrder != target.unloadOrder then VolumeOf(last, byId) else 0.0
  }

  function Work(target: Placement, moves: nat, volume: real, byId: map<string, LoadBlock>): Tally {
    Tally(moves, volume, if moves > 0 then 1 else 0, if moves > 0 && IsFragile(target, byId) then 1 else 0)
  }

  function WorkAtStop(off: seq<Placement>, aboard: seq<Placement>, byId: map<string, LoadBlock>): Tally {
    if off == [] then NO_WORK
    else
      var p := off[|off| - 1];
      Plus(WorkAtStop(off[..|off| - 1], aboard, byId), Work(p, InFront(p, aboard), VolumeInFront(p, aboard, byId), byId))
  }

  /** The whole unload, stop by stop, with what is still aboard at each. */
  function UnloadWork(aboard: seq<Placement>, stop: nat, stops: nat, byId: map<string, LoadBlock>): Tally
    decreases stops - stop
  {
    if stop >= stops then NO_WORK
    else Plus(WorkAtStop(UnloadLaws.At(aboard, stop), aboard, byId), UnloadWork(Staying(aboard, stop), stop + 1, stops, byId))
  }

  /** Minutes for every move, cost for the volume moved, flat penalties once for each block delayed. */
  function Price(t: Tally, config: PlannerConfig): real {
    config.unloadReloadMin * t.moves as real + config.volCost * t.volume
    + config.fragilePenalty * t.fragile as real + (config.dockDelayPenalty + config.slaImpactPenalty) * t.blocked as real
  }

  // ----- Pair by pair -----------------------------------------------------------------------------

  function PairWork(targets: seq<Placement>, placements: seq<Placement>, byId: map<string, LoadBlock>): Tally {
    if targets == [] then NO_WORK
    else
      Plus(PairWork(targets[..|targets| - 1], placements, byId), PairsOf(targets[|targets| - 1], placements, byId))
  }

  /** The pairs of one block: its blockers and their volume. */
  function PairsOf(target: Placement, placements: seq<Placement>, byId: map<string, LoadBlock>): Tally {
    Work(target, Blockers(target, placements), BlockersVolume(target, placements, byId), byId)
  }

  lemma PairWorkOfLonger(targets: seq<Placement>, last: Placement, placements: seq<Placement>, byId: map<string, LoadBlock>)
    ensures PairWork(targets + [last], placements, byId) == Plus(PairWork(targets, placements, byId), PairsOf(last, placements, byId))
  {
    hide PairsOf;
    assert (targets + [last])[..|targets|] == targets;
  }

  /** At its stop a block meets exactly the volume the pairwise rule counts against it. */
  lemma {:induction false} VolumeFound(target: Placement, placements: seq<Placement>, byId: map<string, LoadBlock>)
    ensures VolumeInFront(target, Aboard(placements, target.unloadOrder), byId) == BlockersVolume(target, placements, byId)
  {
    if placements != [] {
      var front, last := placements[..|placements| - 1], placements[|placements| - 1];
      VolumeFound(target, front, byId);
      if last.unloadOrder >= target.unloadOrder {
        var before := Aboard(front, target.unloadOrder);
        assert (before + [last])[..|before|] == before;
      }
    }
  }

  lemma {:induction false} StopIsPairWork(off: seq<Placement>, placements: seq<Placement>, stop: nat, byId: map<string, LoadBlock>)
    requires forall p :: p in off ==> p.unloadOrder == stop
    ensures WorkAtStop(off, Aboard(placements, stop), byId) == PairWork(off, placements, byId)
  {
    hide InFront, VolumeInFront, Blockers, BlockersVolume, Work, Plus;
    if off != [] {
      var front, p := off[..|off| - 1], off[|off| - 1];
      assert p in off && forall x :: x in front ==> x in off;
      StopIsPairWork(front, placements, stop, byId);
      FoundIsCounted(p, placements);
      VolumeFound(p, placements, byId);
    }
  }

  /** What comes off now and what stays make up what is aboard. */
  lemma {:induction false} PairWorkParts(aboard: seq<Placement>, stop: nat, placements: seq<Placement>, byId: map<string, LoadBlock>)
    ensures PairWork(aboard, placements, byId)
         == Plus(PairWork(UnloadLaws.At(aboard, stop), placements, byId), PairWork(Staying(aboard, stop), placements, byId))
  {
    if aboard == [] {
      PlusNothing(NO_WORK);
      hide Plus;
    } else {
      hide *;
      var front, last := aboard[..|aboard| - 1], aboard[|aboard| - 1];
      assert aboard == front + [last];
      PairWorkParts(front, stop, placements, byId);
      PairWorkOfLonger(front, last, placements, byId);
      PairWorkOfLonger(UnloadLaws.At(front, stop), last, placements, byId);
      PairWorkOfLonger(Staying(front, stop), last, placements, byId);
      OffOrStaying(front, last, stop);
      PlusTurns(PairWork(UnloadLaws.At(front, stop), placements, byId), PairWork(Staying(front, stop), placements, byId),
                PairsOf(last, placements, byId));
    }
  }

  lemma OffOrStaying(front: seq<Placement>, last: Placement, stop: nat)
    ensures var off, on := UnloadLaws.At(front, stop), Staying(front, stop);
      if last.unloadOrder == stop
      then UnloadLaws.At(front + [last], stop) == off + [last] && Staying(front + [last], stop) == on
      else UnloadLaws.At(front + [last], stop) == off && Staying(front + [last], stop) == on + [last]
  {
    assert (front + [last])[..|front|] == front;
  }

  lemma PlusTurns(a: Tally, b: Tally, x: Tally)
    ensures Plus(Plus(a, b), x) == Plus(Plus(a, x), b) == Plus(a, Plus(b, x))
  {
  }

  lemma {:induction false} NobodyLeft(aboard: seq<Placement>, stop: nat)
    requires forall p :: p in aboard ==> p.unloadOrder < stop
    ensures Aboard(aboard, stop) == []
  {
    if aboard != [] {
      assert aboard[|aboard| - 1] in aboard;
      NobodyLeft(aboard[..|aboard| - 1], stop);
    }
  }

  lemma {:induction false} UnloadIsPairWork(placements: seq<Placement>, stop: nat, stops: nat, byId: map<string, LoadBlock>)
    requires stop <= stops && forall p :: p in placements ==> p.unloadOrder < stops
    ensures UnloadWork(Aboard(placements, stop), stop, stops, byId) == PairWork(Aboard(placements, stop), placements, byId)
    decreases stops - stop
  {
    hide InFront, VolumeInFront, Blockers, BlockersVolume, Plus, WorkAtStop;
    var aboard := Aboard(placements, stop);
    if stop == stops {
      NobodyLeft(placements, stop);
    } else {
      hide PairWork, Aboard;
      StayingIsNextAboard(placements, stop);
      AtOrder(aboard, stop);
      StopIsPairWork(UnloadLaws.At(aboard, stop), placements, stop, byId);
      PairWorkParts(aboard, stop, placements, byId);
      UnloadIsPairWork(placements, stop + 1, stops, byId);
    }
  }

  // ----- The score -----------------------------------------------------------------------------------

  lemma Distribute(k: real, a: real, b: real)
    ensures k * (a + b) == k * a + k * b
  {
  }

  lemma PriceOfMore(a: Tally, b: Tally, config: PlannerConfig)
    ensures Price(Plus(a, b), config) == Price(a, config) + Price(b, config)
  {
    assert (a.moves + b.moves) as real == a.moves as real + b.moves as real;
    assert (a.blocked + b.blocked) as real == a.blocked as real + b.blocked as real;
    assert (a.fragile + b.fragile) as real == a.fragile as real + b.fragile as real;
    Distribute(config.unloadReloadMin, a.moves as real, b.moves as real);
    Distribute(config.volCost, a.volume, b.volume);
    Distribute(config.fragilePenalty, a.fragile as real, b.fragile as real);
    Distribute(config.dockDelayPenalty + config.slaImpactPenalty, a.blocked as real, b.blocked as real);
  }

  lemma {:induction false} NoBlockersNoVolume(target: Placement, placements: seq<Placement>, byId: map<string, LoadBlock>)
    requires Blockers(target, placements) == 0
    ensures BlockersVolume(target, placements, byId) == 0.0
  {
    if placements != [] { NoBlockersNoVolume(target, placements[..|placements| - 1], byId); }
  }

  lemma PriceOfPair(n: nat, volume: real, fragile: bool, unload: real, vol: real, frail: real, flat: real)
    ensures unload * n as real + vol * volume + frail * (if fragile then 1 else 0) as real + flat * 1 as real
         == n as real * unload + volume * vol + (if fragile then frail else 0.0) + flat
  {
    Turned(unload, n as real);
    Turned(vol, volume);
    Unit(frail);
    Unit(flat);
  }

  lemma Turned(a: real, b: real)
    ensures a * b == b * a
  {
  }

  lemma Unit(a: real)
    ensures a * 1.0 == a && a * 0.0 == 0.0
  {
  }

  lemma PriceOfNothing(config: PlannerConfig)
    ensures Price(NO_WORK, config) == 0.0
  {
    Unit(config.unloadReloadMin);
    Unit(config.volCost);
    Unit(config.fragilePenalty);
    Unit(config.dockDelayPenalty + config.slaImpactPenalty);
  }

  lemma PriceOfOne(target: Placement, placements: seq<Placement>, byId: map<string, LoadBlock>, config: PlannerConfig)
    ensures Price(PairsOf(target, placements, byId), config) == if Blockers(target, placements) == 0 then 0.0 else RehandleOf(target, placements, byId, config).cost
  {
    var n, volume := Blockers(target, placements), BlockersVolume(target, placements, byId);
    if n == 0 {
      NoBlockersNoVolume(target, placements, byId);
      hide Blockers, BlockersVolume, Price;
      PriceOfNothing(config);
      assert PairsOf(target, placements, byId) == NO_WORK;
    } else {
      hide Blockers, BlockersVolume;
      PriceOfPair(n, volume, IsFragile(target, byId), config.unloadReloadMin, config.volCost, config.fragilePenalty,
                  config.dockDelayPenalty + config.slaImpactPenalty);
    }
  }

  lemma TotalOfLonger(breakdown: seq<BlockRehandle>, last: BlockRehandle)
    ensures TotalCost(breakdown + [last]) == TotalCost(breakdown) + last.cost
  {
    assert (breakdown + [last])[..|breakdown|] == breakdown;
  }

  lemma {:induction false} InsertedTotal(sorted: seq<S.Keyed<BlockRehandle>>, x: S.Keyed<BlockRehandle>)
    ensures TotalCost(S.Items(S.Insert(sorted, x))) == TotalCost(S.Items(sorted)) + x.item.cost
  {
    hide TotalCost, S.Before;
    TotalOfLonger(S.Items(sorted), x.item);
    if sorted == [] || !S.Before(x, sorted[|sorted| - 1]) {
      assert S.Items(sorted + [x]) == S.Items(sorted) + [x.item];
    } else {
      var front, last := sorted[..|sorted| - 1], sorted[|sorted| - 1];
      InsertedTotal(front, x);
      TotalOfLonger(S.Items(front), last.item);
      TotalOfLonger(S.Items(S.Insert(front, x)), last.item);
      assert S.Items(sorted) == S.Items(front) + [last.item];
      assert S.Items(S.Insert(front, x) + [last]) == S.Items(S.Insert(front, x)) + [last.item];
    }
  }

  lemma {:induction false} SortedTotal(keyed: seq<S.Keyed<BlockRehandle>>)
    ensures TotalCost(S.Items(S.Sort(keyed))) == TotalCost(S.Items(keyed))
  {
    hide TotalCost, S.Insert;
    if keyed == [] {
      assert S.Items(keyed) == [];
    } else {
      var front, last := keyed[..|keyed| - 1], keyed[|keyed| - 1];
      SortedTotal(front);
      InsertedTotal(S.Sort(front), last);
      TotalOfLonger(S.Items(front), last.item);
      assert S.Items(keyed) == S.Items(front) + [last.item];
    }
  }

  lemma {:induction false} RehandlesPrice(targets: seq<Placement>, placements: seq<Placement>, byId: map<string, LoadBlock>, config: PlannerConfig)
    ensures TotalCost(S.Items(Rehandles(targets, placements, byId, config))) == Price(PairWork(targets, placements, byId), config)
  {
    hide Blockers, RehandleOf, TotalCost, Price, PairsOf;
    if targets == [] {
      NothingCosts(config);
    } else {
      var front, last := targets[..|targets| - 1], targets[|targets| - 1];
      RehandlesPrice(front, placements, byId, config);
      PriceOfOne(last, placements, byId, config);
      PriceOfMore(PairWork(front, placements, byId), PairsOf(last, placements, byId), config);
      var before := Rehandles(front, placements, byId, config);
      var x := S.Keyed(0, 0, last.loadBlockId, RehandleOf(last, placements, byId, config));
      TotalOfLonger(S.Items(before), x.item);
      assert S.Items(before + [x]) == S.Items(before) + [x.item];
    }
  }

  lemma NothingCosts(config: PlannerConfig)
    ensures TotalCost(S.Items<BlockRehandle>([])) == 0.0 && Price(NO_WORK, config) == 0.0
  {
  }

  function Score(placements: seq<Placement>, byId: map<string, LoadBlock>, config: PlannerConfig): real {
    TotalCost(S.Items(S.Sort(Rehandles(placements, placements, byId, config))))
  }

  /**
   * For any layout the score is the price of the unload: minutes for every block moved out of another's
   * way, the volume so moved, and the flat penalties once for every block that had something in its way.
   */
  lemma ScoreIsTheUnload(placements: seq<Placement>, stops: nat, byId: map<string, LoadBlock>, config: PlannerConfig)
    requires forall p :: p in placements ==> p.unloadOrder < stops
    ensures Score(placements, byId, config) == Price(UnloadWork(placements, 0, stops, byId), config)
  {
    hide TotalCost, Rehandles, Price, PairWork, UnloadWork;
    SortedTotal(Rehandles(placements, placements, byId, config));
    RehandlesPrice(placements, placements, byId, config);
    AllAboardAtFirst(placements);
    UnloadIsPairWork(placements, 0, stops, byId);
  }

  // ----- When it is zero --------------------------------------------------------------------------------

  lemma {:induction false} VolumeNotNegative(target: Placement, placements: seq<Placement>, byId: map<string, LoadBlock>)
    requires forall id :: id in byId ==> byId[id].totalVolume >= 0.0
    ensures BlockersVolume(target, placements, byId) >= 0.0
  {
    if placements != [] { VolumeNotNegative(target, placements[..|placements| - 1], byId); }
  }

  /** One block: work to do exactly when it is blocked. */
  lemma PairsIffBlocked(target: Placement, placements: seq<Placement>, byId: map<string, LoadBlock>)
    requires forall id :: id in byId ==> byId[id].totalVolume >= 0.0
    ensures var work := PairsOf(target, placements, byId);
      work.volume >= 0.0 && if Blockers(target, placements) == 0 then work == NO_WORK else work.moves > 0
  {
    VolumeNotNegative(target, placements, byId);
    if Blockers(target, placements) == 0 { NoBlockersNoVolume(target, placements, byId); }
    hide Blockers, BlockersVolume, IsFragile;
  }

  lemma PlusWork(a: Tally, b: Tally)
    requires a.volume >= 0.0 && b.volume >= 0.0
    requires (a == NO_WORK || a.moves > 0) && (b == NO_WORK || b.moves > 0)
    ensures var t := Plus(a, b);
      t.volume >= 0.0 && if a == NO_WORK && b == NO_WORK then t == NO_WORK else t.moves > 0
  {
    hide Plus;
    if b == NO_WORK { PlusNothing(a); } else { PlusSomething(a, b); }
  }

  lemma PlusNothing(a: Tally)
    ensures Plus(a, NO_WORK) == a
  {
  }

  lemma PlusSomething(a: Tally, b: Tally)
    ensures Plus(a, b).moves == a.moves + b.moves && Plus(a, b).volume == a.volume + b.volume
  {
  }

  ghost predicate NoneBlocked(targets: seq<Placement>, placements: seq<Placement>) {
    forall t :: t in targets ==> Blockers(t, placements) == 0
  }

  lemma NoneBlockedOfLonger(targets: seq<Placement>, last: Placement, placements: seq<Placement>)
    ensures NoneBlocked(targets + [last], placements) <==> NoneBlocked(targets, placements) && Blockers(last, placements) == 0
  {
    hide Blockers;
    assert last in targets + [last];
    assert forall t :: t in targets ==> t in targets + [last];
  }

  lemma NoTargets(placements: seq<Placement>, byId: map<string, LoadBlock>)
    ensures PairWork([], placements, byId) == NO_WORK && NO_WORK.volume == 0.0 && NoneBlocked([], placements)
  {
  }

  lemma {:induction false} WorkIffBlocked(targets: seq<Placement>, placements: seq<Placement>, byId: map<string, LoadBlock>)
    requires forall id :: id in byId ==> byId[id].totalVolume >= 0.0
    ensures var work := PairWork(targets, placements, byId);
      work.volume >= 0.0 && if NoneBlocked(targets, placements) then work == NO_WORK else work.moves > 0
  {
    hide *;
    if targets == [] {
      NoTargets(placements, byId);
    } else {
      var front, last := targets[..|targets| - 1], targets[|targets| - 1];
      assert targets == front + [last];
      WorkIffBlocked(front, placements, byId);
      PairsIffBlocked(last, placements, byId);
      PlusWork(PairWork(front, placements, byId), PairsOf(last, placements, byId));
      PairWorkOfLonger(front, last, placements, byId);
      NoneBlockedOfLonger(front, last, placements);
    }
  }

  lemma WorkCosts(t: Tally, config: PlannerConfig)
    requires t.moves > 0 && t.volume >= 0.0
    ensures Price(t, config) > 0.0
  {
    Scaled(config.unloadReloadMin, t.moves as real);
    Scaled(config.volCost, t.volume);
    Scaled(config.fragilePenalty, t.fragile as real);
    Scaled(config.dockDelayPenalty + config.slaImpactPenalty, t.blocked as real);
  }

  lemma Scaled(k: real, x: real)
    requires k > 0.0 && x >= 0.0
    ensures k * x >= 0.0 && (x > 0.0 ==> k * x > 0.0)
  {
  }

  /** With volumes that are not negative the score is zero if and only if the validator finds no violation. */
  lemma ZeroScoreIff(placements: seq<Placement>, byId: map<string, LoadBlock>, config: PlannerConfig)
    requires forall id :: id in byId ==> byId[id].totalVolume >= 0.0
    ensures Score(placements, byId, config) == 0.0 <==>
      && Violations(placements, placements, config.maxAllowedBlockers, HARD) == []
      && Violations(placements, placements, config.maxAllowedBlockers, SOFT) == []
  {
    hide TotalCost, Rehandles, Price, PairWork, Blockers, Violations;
    SortedTotal(Rehandles(placements, placements, byId, config));
    RehandlesPrice(placements, placements, byId, config);
    WorkIffBlocked(placements, placements, byId);
    ViolationsBySeverity(placements, placements, config.maxAllowedBlockers);
    var work := PairWork(placements, placements, byId);
    if NoneBlocked(placements, placements) {
      NothingCosts(config);
    } else {
      WorkCosts(work, config);
    }
  }
}
