/**
 * The one packing loop of the load planners and of the volume splitter: walk the list, close the
 * current run when the next element no longer fits, and open a new one with it.
 */
module NextFit {
  datatype Load = Load(volume: real, weight: real)

  datatype Capacity = Capacity(volume: real, weight: real)

  ghost predicate NonNegative(loads: seq<Load>) {
    forall l :: l in loads ==> l.volume >= 0.0 && l.weight >= 0.0
  }

  function Volume(loads: seq<Load>): real {
    if loads == [] then 0.0 else loads[0].volume + Volume(loads[1..])
  }

  function Weight(loads: seq<Load>): real {
    if loads == [] then 0.0 else loads[0].weight + Weight(loads[1..])
  }

  /** How many of `loads` still join a run that already holds `used`. */
  function Joining(loads: seq<Load>, cap: Capacity, used: Load): (n: nat)
    ensures n <= |loads|
  {
    if loads == [] then 0
    else
      var l := loads[0];
      if used.volume + l.volume <= cap.volume && used.weight + l.weight <= cap.weight
      then 1 + Joining(loads[1..], cap, Load(used.volume + l.volume, used.weight + l.weight))
      else 0
  }

  /** The length of the first run: its first element is taken whether or not it fits. */
  function FirstRun(loads: seq<Load>, cap: Capacity): (n: nat)
    requires loads != []
    ensures 1 <= n <= |loads|
  {
    1 + Joining(loads[1..], cap, loads[0])
  }

  function Runs(loads: seq<Load>, cap: Capacity): seq<nat>
    decreases |loads|
  {
    if loads == [] then []
    else
      var n := FirstRun(loads, cap);
      [n] + Runs(loads[n..], cap)
  }

  // ----- Any way of cutting the list ----------------------------------------------------

  ghost predicate Fits(run: seq<Load>, cap: Capacity) {
    Volume(run) <= cap.volume && Weight(run) <= cap.weight
  }

  ghost predicate Cuts(loads: seq<Load>, lengths: seq<nat>, cap: Capacity)
    decreases |lengths|
  {
    if lengths == [] then loads == []
    else lengths[0] <= |loads| && Fits(loads[..lengths[0]], cap) && Cuts(loads[lengths[0]..], lengths[1..], cap)
  }

  // ----- Sums ----------------------------------------------------------------------------

  lemma {:induction false} SumsOfJoined(a: seq<Load>, b: seq<Load>)
    ensures Volume(a + b) == Volume(a) + Volume(b) && Weight(a + b) == Weight(a) + Weight(b)
  {
    if a == [] { assert a + b == b; } else {
      SumsOfJoined(a[1..], b);
      assert (a + b)[1..] == a[1..] + b;
    }
  }

  lemma {:induction false} SumsAreNonNegative(loads: seq<Load>)
    requires NonNegative(loads)
    ensures Volume(loads) >= 0.0 && Weight(loads) >= 0.0
  {
    if loads != [] {
      assert loads[0] in loads;
      SumsAreNonNegative(loads[1..]);
    }
  }

  // ----- The greedy run is the longest that fits ---------------------------------------------

  /** Whatever prefix fits on top of `used`, the loop takes at least that much. */
  lemma {:induction false} JoinsAtLeast(loads: seq<Load>, cap: Capacity, used: Load, k: nat)
    requires NonNegative(loads) && k <= |loads|
    requires used.volume + Volume(loads[..k]) <= cap.volume && used.weight + Weight(loads[..k]) <= cap.weight
    ensures Joining(loads, cap, used) >= k
  {
    if k > 0 {
      var l := loads[0];
      assert loads[..k][1..] == loads[1..][..k - 1];
      assert forall x :: x in loads[1..][..k - 1] ==> x in loads;
      SumsAreNonNegative(loads[1..][..k - 1]);
      JoinsAtLeast(loads[1..], cap, Load(used.volume + l.volume, used.weight + l.weight), k - 1);
    }
  }

  /** Starting with less on board, at least as many join. */
  lemma {:induction false} LighterStartJoinsMore(loads: seq<Load>, cap: Capacity, used: Load, less: Load)
    requires less.volume <= used.volume && less.weight <= used.weight
    ensures Joining(loads, cap, less) >= Joining(loads, cap, used)
  {
    if loads != [] {
      var l := loads[0];
      LighterStartJoinsMore(loads[1..], cap, Load(used.volume + l.volume, used.weight + l.weight),
                            Load(less.volume + l.volume, less.weight + l.weight));
    }
  }

  /** Dropping elements from the front never makes more runs. */
  lemma {:induction false} ShorterNeedsNoMore(loads: seq<Load>, cap: Capacity, k: nat)
    requires NonNegative(loads) && k <= |loads|
    ensures |Runs(loads[k..], cap)| <= |Runs(loads, cap)|
    decreases |loads|, k
  {
    if k == 0 {
      assert loads[0..] == loads;
    } else if k > 1 {
      ShorterNeedsNoMore(loads, cap, k - 1);
      assert loads[k - 1..][1..] == loads[k..];
      ShorterNeedsNoMore(loads[k - 1..], cap, 1);
    } else {
      var n := FirstRun(loads, cap);
      var rest := loads[1..];
      if n > 1 {
        var m := FirstRun(rest, cap);
        assert loads[0] in loads;
        LighterStartJoinsMore(rest[1..], cap, Load(loads[0].volume + rest[0].volume, loads[0].weight + rest[0].weight), rest[0]);
        assert n - 1 <= m;
        assert rest[m..] == loads[n..][m + 1 - n..];
        ShorterNeedsNoMore(loads[n..], cap, m + 1 - n);
      }
    }
  }

  /**
   * The greedy cut opens the fewest runs: no way of cutting the same list into consecutive runs
   * that each fit has fewer.
   */
  lemma {:induction false} GreedyIsOptimal(loads: seq<Load>, cap: Capacity, lengths: seq<nat>)
    requires NonNegative(loads) && Cuts(loads, lengths, cap)
    ensures |Runs(loads, cap)| <= |lengths|
    decreases |lengths|
  {
    hide Joining, Volume, Weight;
    if lengths != [] {
      var c := lengths[0];
      GreedyIsOptimal(loads[c..], cap, lengths[1..]);
      if loads != [] && c > 0 {
        FirstRunReaches(loads, cap, c);
        var n := FirstRun(loads, cap);
        assert loads[c..][n - c..] == loads[n..];
        ShorterNeedsNoMore(loads[c..], cap, n - c);
      } else if c == 0 {
        assert loads[0..] == loads;
      }
    }
  }

  /** The first greedy run reaches at least as far as any first run that fits. */
  lemma FirstRunReaches(loads: seq<Load>, cap: Capacity, c: nat)
    requires NonNegative(loads) && 0 < c <= |loads| && Fits(loads[..c], cap)
    ensures FirstRun(loads, cap) >= c
  {
    assert loads[..c][1..] == loads[1..][..c - 1];
    JoinsAtLeast(loads[1..], cap, loads[0], c - 1);
  }

  // ----- The runs cover the list and fit -------------------------------------------------------

  lemma {:induction false} JoinedFit(loads: seq<Load>, cap: Capacity, used: Load)
    requires used.volume <= cap.volume && used.weight <= cap.weight
    ensures var n := Joining(loads, cap, used);
      used.volume + Volume(loads[..n]) <= cap.volume && used.weight + Weight(loads[..n]) <= cap.weight
  {
    var n := Joining(loads, cap, used);
    if n > 0 {
      var l := loads[0];
      JoinedFit(loads[1..], cap, Load(used.volume + l.volume, used.weight + l.weight));
      assert loads[..n][1..] == loads[1..][..n - 1];
    }
  }

  /** The greedy runs are themselves such a cut, exactly when every element fits alone. */
  lemma {:induction false} RunsAreACut(loads: seq<Load>, cap: Capacity)
    requires NonNegative(loads)
    ensures Cuts(loads, Runs(loads, cap), cap) <==> forall l :: l in loads ==> Fits([l], cap)
    decreases |loads|
  {
    if loads != [] {
      var n := FirstRun(loads, cap);
      var run, rest := loads[..n], loads[n..];
      assert loads == run + rest;
      RunsAreACut(rest, cap);
      assert run[1..] == loads[1..][..n - 1];
      SumsOfJoined([loads[0]], run[1..]);
      assert [loads[0]] + run[1..] == run;
      if Fits([loads[0]], cap) {
        SingletonSums(loads[0]);
        JoinedFit(loads[1..], cap, loads[0]);
      }
      if Fits(run, cap) {
        forall l | l in run ensures Fits([l], cap) { PartFits(run, cap, l); }
      }
    }
  }

  lemma SingletonSums(l: Load)
    ensures Volume([l]) == l.volume && Weight([l]) == l.weight
  {
    assert [l][1..] == [];
  }

  lemma {:induction false} PartFits(run: seq<Load>, cap: Capacity, l: Load)
    requires NonNegative(run) && Fits(run, cap) && l in run
    ensures Fits([l], cap)
  {
    SingletonSums(l);
    var i :| 0 <= i < |run| && run[i] == l;
    assert run == run[..i] + ([l] + run[i + 1..]);
    SumsOfJoined(run[..i], [l] + run[i + 1..]);
    SumsOfJoined([l], run[i + 1..]);
    assert forall x :: x in run[..i] ==> x in run;
    assert forall x :: x in run[i + 1..] ==> x in run;
    SumsAreNonNegative(run[..i]);
    SumsAreNonNegative(run[i + 1..]);
  }

  // ----- Two neighbouring runs hold more than one capacity ---------------------------------------

  lemma {:induction false} JoinStopsOnOverflow(loads: seq<Load>, cap: Capacity, used: Load)
    requires Joining(loads, cap, used) < |loads|
    ensures var n := Joining(loads, cap, used);
      used.volume + Volume(loads[..n + 1]) > cap.volume || used.weight + Weight(loads[..n + 1]) > cap.weight
  {
    var n := Joining(loads, cap, used);
    var l := loads[0];
    assert loads[..n + 1][1..] == loads[1..][..n];
    if n > 0 { JoinStopsOnOverflow(loads[1..], cap, Load(used.volume + l.volume, used.weight + l.weight)); }
  }

  lemma RunPlusNextOverflows(loads: seq<Load>, cap: Capacity, k: nat)
    requires NonNegative(loads) && loads != [] && FirstRun(loads, cap) < k <= |loads|
    ensures Volume(loads[..k]) > cap.volume || Weight(loads[..k]) > cap.weight
  {
    var n := FirstRun(loads, cap);
    JoinStopsOnOverflow(loads[1..], cap, loads[0]);
    assert loads[..n + 1][1..] == loads[1..][..n];
    assert loads[..k] == loads[..n + 1] + loads[n + 1..k];
    SumsOfJoined(loads[..n + 1], loads[n + 1..k]);
    assert forall x :: x in loads[n + 1..k] ==> x in loads;
    SumsAreNonNegative(loads[n + 1..k]);
  }

  /** A total measured in whole capacities, volume and weight each counted. */
  function Shares(volume: real, weight: real, cap: Capacity): real
    requires cap.volume > 0.0 && cap.weight > 0.0
  {
    volume / cap.volume + weight / cap.weight
  }

  /** Half the runs, rounded down, is at most the total measured in whole capacities. */
  lemma {:induction false} RunsAreHalfFull(loads: seq<Load>, cap: Capacity)
    requires NonNegative(loads) && cap.volume > 0.0 && cap.weight > 0.0
    ensures (|Runs(loads, cap)| / 2) as real <= Shares(Volume(loads), Weight(loads), cap)
    decreases |loads|
  {
    hide Volume, Weight, FirstRun, Shares;
    SumsAreNonNegative(loads);
    if |Runs(loads, cap)| >= 2 {
      var n := FirstRun(loads, cap);
      var rest := loads[n..];
      var m := FirstRun(rest, cap);
      var pair, others := loads[..n + m], loads[n + m..];
      assert rest[m..] == others && loads == pair + others;
      SumsOfJoined(pair, others);
      RunsAreHalfFull(others, cap);
      RunPlusNextOverflows(loads, cap, n + m);
      assert forall x :: x in pair ==> x in loads;
      SumsAreNonNegative(pair);
      PairIsAShare(Volume(pair), Weight(pair), Volume(others), Weight(others), cap);
      HalfOfTwoMore(|Runs(others, cap)|);
    } else {
      SharesAreNonNegative(Volume(loads), Weight(loads), cap);
      assert |Runs(loads, cap)| / 2 == 0;
    }
  }

  lemma HalfOfTwoMore(k: nat)
    ensures ((k + 2) / 2) as real == 1.0 + (k / 2) as real
  {
  }

  lemma SharesAreNonNegative(v: real, w: real, cap: Capacity)
    requires v >= 0.0 && w >= 0.0 && cap.volume > 0.0 && cap.weight > 0.0
    ensures Shares(v, w, cap) >= 0.0
  {
  }

  lemma PairIsAShare(v: real, w: real, v2: real, w2: real, cap: Capacity)
    requires v >= 0.0 && w >= 0.0 && cap.volume > 0.0 && cap.weight > 0.0
    requires v > cap.volume || w > cap.weight
    ensures Shares(v + v2, w + w2, cap) >= 1.0 + Shares(v2, w2, cap)
  {
    SplitQuotient(v, v2, cap.volume);
    SplitQuotient(w, w2, cap.weight);
    assert v / cap.volume >= 0.0 && w / cap.weight >= 0.0;
    if v > cap.volume { MoreThanTheCapacity(v, cap.volume); } else { MoreThanTheCapacity(w, cap.weight); }
  }

  lemma MoreThanTheCapacity(total: real, capacity: real)
    requires total > capacity > 0.0
    ensures total / capacity >= 1.0
  {
    var q := total / capacity;
    assert q * capacity == total;
    LessThanOneOf(q, capacity);
  }

  lemma LessThanOneOf(q: real, c: real)
    requires c > 0.0
    ensures q < 1.0 ==> q * c < c
  {
    assert (1.0 - q) * c == c - q * c;
  }

  lemma SplitQuotient(a: real, b: real, c: real)
    requires c > 0.0
    ensures (a + b) / c == a / c + b / c
  {
    var x, y, q := a / c, b / c, (a + b) / c;
    assert x * c == a && y * c == b && q * c == a + b;
    assert (q - (x + y)) * c == 0.0;
  }
}
