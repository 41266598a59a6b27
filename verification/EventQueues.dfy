/**
 * The event queue of `packages/simulation/src/engine.ts`: an array that is sorted only when
 * something is popped after something was pushed, and the ordered queue it stands for.
 */
module EventQueues {
  import opened SimTypes

  /** `(fireTick, seq)` order. */
  predicate Before(a: Scheduled, b: Scheduled) {
    a.fireTick < b.fireTick || (a.fireTick == b.fireTick && a.order < b.order)
  }

  ghost predicate Sorted(q: seq<Scheduled>) {
    forall i, j :: 0 <= i < j < |q| ==> Before(q[i], q[j])
  }

  /** No two items share an insertion number, and all numbers were handed out already. */
  ghost predicate Numbered(q: seq<Scheduled>, nextSeq: nat) {
    && (forall i :: 0 <= i < |q| ==> q[i].order < nextSeq)
    && (forall i, j :: 0 <= i < j < |q| ==> q[i].order != q[j].order)
  }

  function Insert(q: seq<Scheduled>, x: Scheduled): (r: seq<Scheduled>)
    ensures |r| == |q| + 1
    ensures multiset(r) == multiset(q) + multiset{x}
  {
    if q == [] then [x]
    else if Before(x, q[0]) then assert q == [q[0]] + q[1..]; [x] + q
    else assert q == [q[0]] + q[1..]; [q[0]] + Insert(q[1..], x)
  }

  /** What `Array.sort` with the `(fireTick, seq)` comparator leaves. */
  function Sort(items: seq<Scheduled>): (r: seq<Scheduled>)
    ensures |r| == |items|
    ensures multiset(r) == multiset(items)
  {
    if items == [] then []
    else
      assert items == items[..|items| - 1] + [items[|items| - 1]];
      Insert(Sort(items[..|items| - 1]), items[|items| - 1])
  }

  lemma InsertMembers(q: seq<Scheduled>, x: Scheduled)
    ensures forall y :: y in Insert(q, x) <==> y == x || y in q
  {
    forall y ensures y in Insert(q, x) <==> y == x || y in q {
      assert y in multiset(Insert(q, x)) <==> y in multiset(q) + multiset{x};
    }
  }

  lemma {:induction false} InsertSorted(q: seq<Scheduled>, x: Scheduled)
    requires Sorted(q) && forall y :: y in q ==> y.order != x.order
    ensures Sorted(Insert(q, x))
  {
    if q != [] && !Before(x, q[0]) {
      InsertSorted(q[1..], x);
      InsertMembers(q[1..], x);
      assert forall y :: y in Insert(q[1..], x) ==> Before(q[0], y);
    }
  }

  lemma {:induction false} InsertNumbered(q: seq<Scheduled>, x: Scheduled, nextSeq: nat)
    requires Numbered(q, nextSeq) && x.order < nextSeq && forall y :: y in q ==> y.order != x.order
    ensures Numbered(Insert(q, x), nextSeq)
  {
    if q != [] && !Before(x, q[0]) {
      InsertNumbered(q[1..], x, nextSeq);
      InsertMembers(q[1..], x);
      assert forall y :: y in Insert(q[1..], x) ==> y.order != q[0].order;
    }
  }

  lemma {:induction false} SortSorts(items: seq<Scheduled>, nextSeq: nat)
    requires Numbered(items, nextSeq)
    ensures Sorted(Sort(items)) && Numbered(Sort(items), nextSeq)
  {
    if items != [] {
      var init, last := items[..|items| - 1], items[|items| - 1];
      SortSorts(init, nextSeq);
      forall y | y in Sort(init) ensures y.order != last.order {
        assert y in multiset(init);
      }
      InsertSorted(Sort(init), last);
      InsertNumbered(Sort(init), last, nextSeq);
    }
  }

  lemma {:induction false} InsertLast(q: seq<Scheduled>, x: Scheduled)
    requires forall i :: 0 <= i < |q| ==> Before(q[i], x)
    ensures Insert(q, x) == q + [x]
  {
    if q != [] {
      InsertLast(q[1..], x);
      assert q == [q[0]] + q[1..];
    }
  }

  /** A task pushed last waits behind everything due no later than itself, and before everything due later. */
  lemma {:induction false} PushedBehindItsTick(q: seq<Scheduled>, x: Scheduled) returns (k: nat)
    requires Sorted(q) && forall i :: 0 <= i < |q| ==> q[i].order < x.order
    ensures k <= |q| && Insert(q, x) == q[..k] + [x] + q[k..]
    ensures forall i :: 0 <= i < k ==> q[i].fireTick <= x.fireTick
    ensures forall i :: k <= i < |q| ==> x.fireTick < q[i].fireTick
  {
    if q == [] {
      k := 0;
    } else if x.fireTick < q[0].fireTick {
      k := 0;
      forall i | 0 <= i < |q| ensures x.fireTick < q[i].fireTick { assert i == 0 || Before(q[0], q[i]); }
    } else {
      var first, rest := q[0], q[1..];
      var j := PushedBehindItsTick(rest, x);
      k := j + 1;
      InsertBehind(first, rest, x, j);
      assert q == [first] + rest;
    }
  }

  lemma InsertBehind(first: Scheduled, rest: seq<Scheduled>, x: Scheduled, j: nat)
    requires !Before(x, first) && j <= |rest| && Insert(rest, x) == rest[..j] + [x] + rest[j..]
    ensures var q := [first] + rest; Insert(q, x) == q[..j + 1] + [x] + q[j + 1..]
  {
    InsertRecurs(first, rest, x);
    CutBehind(first, rest, j);
    hide Insert, Before;
    Behind(first, rest[..j], x, rest[j..]);
  }

  lemma InsertRecurs(first: Scheduled, rest: seq<Scheduled>, x: Scheduled)
    requires !Before(x, first)
    ensures Insert([first] + rest, x) == [first] + Insert(rest, x)
  {
    assert ([first] + rest)[1..] == rest;
  }

  lemma CutBehind(first: Scheduled, rest: seq<Scheduled>, j: nat)
    requires j <= |rest|
    ensures var q := [first] + rest; q[..j + 1] == [first] + rest[..j] && q[j + 1..] == rest[j..]
  {
  }

  lemma Behind(first: Scheduled, due: seq<Scheduled>, x: Scheduled, later: seq<Scheduled>)
    ensures [first] + (due + [x] + later) == ([first] + due) + [x] + later
  {
  }

  /** Sorting a sorted queue changes nothing: the lazy sort is invisible. */
  lemma {:induction false} SortOfSorted(q: seq<Scheduled>)
    requires Sorted(q)
    ensures Sort(q) == q
  {
    hide Before, Insert;
    if q != [] {
      var init := q[..|q| - 1];
      assert forall i :: 0 <= i < |init| ==> init[i] == q[i];
      SortOfSorted(init);
      InsertLast(init, q[|q| - 1]);
      assert init + [q[|q| - 1]] == q;
    }
  }

  lemma SameHead(q: seq<Scheduled>, r: seq<Scheduled>)
    requires Sorted(q) && Sorted(r) && multiset(q) == multiset(r) && q != [] && r != []
    ensures q[0] == r[0]
  {
    assert q[0] in multiset(r) && r[0] in multiset(q);
    var i :| 0 <= i < |q| && q[i] == r[0];
    var j :| 0 <= j < |r| && r[j] == q[0];
  }

  /** The sorted order is a property of the items alone, whatever order they were pushed in. */
  lemma {:induction false} SortedIsUnique(q: seq<Scheduled>, r: seq<Scheduled>)
    requires Sorted(q) && Sorted(r) && multiset(q) == multiset(r)
    ensures q == r
  {
    if q == [] {
      assert |multiset(r)| == 0;
    } else {
      assert |multiset(q)| == |multiset(r)|;
      SameHead(q, r);
      TailMultiset(q);
      TailMultiset(r);
      SortedIsUnique(q[1..], r[1..]);
      assert q == [q[0]] + q[1..] && r == [r[0]] + r[1..];
    }
  }

  lemma TailMultiset(q: seq<Scheduled>)
    requires q != []
    ensures multiset(q[1..]) == multiset(q) - multiset{q[0]}
  {
    assert q == [q[0]] + q[1..];
  }

  lemma TailStays(q: seq<Scheduled>, nextSeq: nat)
    requires Sorted(q) && Numbered(q, nextSeq) && q != []
    ensures Sorted(q[1..]) && Numbered(q[1..], nextSeq)
    ensures q[0].order < nextSeq && forall i :: 0 <= i < |q[1..]| ==> q[1..][i].order != q[0].order
  {
    hide Before;
    assert forall i :: 0 <= i < |q[1..]| ==> q[1..][i] == q[i + 1];
  }

  /** A sorted queue without its head is the rest of the ordered queue. */
  lemma PoppedStays(q: seq<Scheduled>, nextSeq: nat)
    requires Sorted(q) && Numbered(q, nextSeq) && q != []
    ensures Sorted(q[1..]) && Numbered(q[1..], nextSeq)
    ensures Sort(q) == q == [q[0]] + Sort(q[1..])
    ensures q[0].order < nextSeq && forall i :: 0 <= i < |q[1..]| ==> q[1..][i].order != q[0].order
  {
    hide Sorted, Numbered, Sort;
    TailStays(q, nextSeq);
    SortOfSorted(q);
    SortOfSorted(q[1..]);
  }

  class EventQueue {
    var items: seq<Scheduled>
    var nextSeq: nat
    var dirty: bool

    ghost predicate Valid()
      reads this
    {
      && Numbered(items, nextSeq)
      && (!dirty ==> Sorted(items))
    }

    /** The ordered queue this array stands for. */
    ghost function Contents(): seq<Scheduled>
      reads this
    {
      Sort(items)
    }

    constructor (restored: seq<Scheduled>, restoredSeq: nat)
      requires Numbered(restored, restoredSeq)
      ensures Valid() && Contents() == Sort(restored) && nextSeq == restoredSeq
    {
      items := restored;
      nextSeq := restoredSeq;
      dirty := |restored| > 0;
    }

    method ClaimSeq() returns (order: nat)
      requires Valid()
      modifies this`nextSeq
      ensures order == old(nextSeq) && nextSeq == old(nextSeq) + 1
      ensures Valid()
    {
      order := nextSeq;
      nextSeq := nextSeq + 1;
    }

    method Push(fireTick: int, order: nat, task: SimTask)
      requires Valid()
      requires order < nextSeq && forall i :: 0 <= i < |items| ==> items[i].order != order
      modifies this`items, this`dirty
      ensures Valid()
      ensures items == old(items) + [Scheduled(fireTick, order, task)]
      ensures Contents() == Insert(old(Contents()), Scheduled(fireTick, order, task))
    {
      ghost var was := items;
      items := items + [Scheduled(fireTick, order, task)];
      dirty := true;
      assert items[..|items| - 1] == was;
    }

    /** The earliest item, or none; `sort` runs only when something was pushed since. */
    method Pop() returns (head: Option<Scheduled>)
      requires Valid()
      modifies this`items, this`dirty
      ensures Valid()
      ensures old(Contents()) == [] <==> head == None
      ensures head == None ==> Contents() == []
      ensures head.Some? ==> old(Contents()) == [head.value] + Contents()
      ensures head.Some? ==> head.value.order < nextSeq && forall i :: 0 <= i < |items| ==> items[i].order != head.value.order
    {
      hide Sort, Sorted, Numbered;
      SortSorts(items, nextSeq);
      if |items| == 0 {
        return None;
      }
      if dirty {
        items := Sort(items);
        dirty := false;
      }
      PoppedStays(items, nextSeq);
      head := Some(items[0]);
      items := items[1..];
    }

    /** The captured queue: sorted, whatever the internal bookkeeping. */
    method Snapshot() returns (captured: seq<Scheduled>)
      requires Valid()
      ensures captured == Contents() && Sorted(captured) && multiset(captured) == multiset(items)
    {
      SortSorts(items, nextSeq);
      captured := Sort(items);
    }
  }
}
