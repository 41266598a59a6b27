/**
 * The stable sorts the planners rely on: by an integer rank, then by an integer tie-break, then by a
 * string compared code unit by code unit; what is left of ties stays in input order. Sorting is an
 * insertion sort here, and the lemmas say what every stable sort shares: a rearrangement of the same
 * items, in order, and the same result for the same items where no two keys are equal.
 */
module Sorting {
  datatype Keyed<T> = Keyed(rank: int, tie: int, name: string, item: T)

  // ----- Comparing strings -----------------------------------------------------------

  predicate Less(a: string, b: string)
    decreases a
  {
    if b == [] then false
    else if a == [] then true
    else a[0] < b[0] || (a[0] == b[0] && Less(a[1..], b[1..]))
  }

  lemma {:induction false} LessIsAsymmetric(a: string, b: string)
    ensures !(Less(a, b) && Less(b, a)) && !Less(a, a)
    decreases a
  {
    if a != [] && b != [] { LessIsAsymmetric(a[1..], b[1..]); }
    if a != [] { LessIsAsymmetric(a[1..], a[1..]); }
  }

  lemma {:induction false} LessIsTotal(a: string, b: string)
    ensures a == b || Less(a, b) || Less(b, a)
    decreases a
  {
    if a != [] && b != [] {
      LessIsTotal(a[1..], b[1..]);
      if a[0] == b[0] && a[1..] == b[1..] {
        assert a == [a[0]] + a[1..] && b == [b[0]] + b[1..];
      }
    }
  }

  lemma {:induction false} LessIsTransitive(a: string, b: string, c: string)
    requires Less(a, b) && Less(b, c)
    ensures Less(a, c)
    decreases a
  {
    if a != [] && a[0] == b[0] == c[0] { LessIsTransitive(a[1..], b[1..], c[1..]); }
  }

  // ----- Sorting ----------------------------------------------------------------------

  predicate Before<T>(a: Keyed<T>, b: Keyed<T>) {
    a.rank < b.rank || (a.rank == b.rank && (a.tie < b.tie || (a.tie == b.tie && Less(a.name, b.name))))
  }

  predicate SameKey<T>(a: Keyed<T>, b: Keyed<T>) {
    a.rank == b.rank && a.tie == b.tie && a.name == b.name
  }

  lemma BeforeIsTransitive<T>(a: Keyed<T>, b: Keyed<T>, c: Keyed<T>)
    ensures Before(a, b) && Before(b, c) ==> Before(a, c)
    ensures Before(a, b) ==> !Before(b, a)
    ensures !Before(b, a) && !Before(c, b) ==> !Before(c, a)
    ensures Before(a, b) || Before(b, a) || SameKey(a, b)
  {
    LessIsAsymmetric(a.name, b.name);
    LessIsAsymmetric(b.name, c.name);
    LessIsAsymmetric(a.name, c.name);
    LessIsTotal(a.name, b.name);
    LessIsTotal(b.name, c.name);
    if Less(a.name, b.name) && Less(b.name, c.name) { LessIsTransitive(a.name, b.name, c.name); }
    if Less(c.name, a.name) && Less(a.name, b.name) { LessIsTransitive(c.name, a.name, b.name); }
    if Less(b.name, c.name) && Less(c.name, a.name) { LessIsTransitive(b.name, c.name, a.name); }
  }

  function Insert<T>(sorted: seq<Keyed<T>>, x: Keyed<T>): seq<Keyed<T>> {
    if sorted == [] || !Before(x, sorted[|sorted| - 1]) then sorted + [x]
    else Insert(sorted[..|sorted| - 1], x) + [sorted[|sorted| - 1]]
  }

  function Sort<T>(s: seq<Keyed<T>>): seq<Keyed<T>> {
    if s == [] then [] else Insert(Sort(s[..|s| - 1]), s[|s| - 1])
  }

  ghost predicate Sorted<T>(s: seq<Keyed<T>>) {
    forall i, j :: 0 <= i < j < |s| ==> !Before(s[j], s[i])
  }

  lemma {:induction false} InsertMembers<T>(sorted: seq<Keyed<T>>, x: Keyed<T>)
    ensures |Insert(sorted, x)| == |sorted| + 1
    ensures multiset(Insert(sorted, x)) == multiset(sorted) + multiset{x}
  {
    if sorted != [] {
      var front, last := sorted[..|sorted| - 1], sorted[|sorted| - 1];
      assert sorted == front + [last];
      if Before(x, last) { InsertMembers(front, x); }
    }
  }

  lemma {:induction false} SortMembers<T>(s: seq<Keyed<T>>)
    ensures |Sort(s)| == |s| && multiset(Sort(s)) == multiset(s)
  {
    if s != [] {
      SortMembers(s[..|s| - 1]);
      InsertMembers(Sort(s[..|s| - 1]), s[|s| - 1]);
      assert s == s[..|s| - 1] + [s[|s| - 1]];
    }
  }

  lemma SortHasSame<T>(s: seq<Keyed<T>>, x: Keyed<T>)
    ensures x in Sort(s) <==> x in s
  {
    SortMembers(s);
    assert x in multiset(Sort(s)) <==> x in multiset(s);
  }

  lemma {:induction false} InsertSorted<T>(sorted: seq<Keyed<T>>, x: Keyed<T>)
    requires Sorted(sorted)
    ensures Sorted(Insert(sorted, x))
  {
    if sorted != [] {
      var front, last := sorted[..|sorted| - 1], sorted[|sorted| - 1];
      if Before(x, last) {
        InsertSorted(front, x);
        InsertMembers(front, x);
        var inner := Insert(front, x);
        forall i | 0 <= i < |inner| ensures !Before(last, inner[i]) {
          assert inner[i] in multiset(inner);
          BeforeIsTransitive(x, last, x);
          if inner[i] != x {
            assert inner[i] in multiset(front);
            var k :| 0 <= k < |front| && front[k] == inner[i];
            assert sorted[k] == front[k];
          }
        }
      } else {
        forall i | 0 <= i < |sorted| ensures !Before(x, sorted[i]) {
          if i < |sorted| - 1 {
            assert !Before(last, sorted[i]);
            BeforeIsTransitive(sorted[i], last, x);
          }
        }
      }
    }
  }

  lemma {:induction false} SortSorted<T>(s: seq<Keyed<T>>)
    ensures Sorted(Sort(s))
  {
    if s != [] {
      SortSorted(s[..|s| - 1]);
      InsertSorted(Sort(s[..|s| - 1]), s[|s| - 1]);
    }
  }

  function Items<T>(s: seq<Keyed<T>>): seq<T> {
    seq(|s|, i requires 0 <= i < |s| => s[i].item)
  }

  lemma {:induction false} InsertItems<T>(sorted: seq<Keyed<T>>, x: Keyed<T>)
    ensures multiset(Items(Insert(sorted, x))) == multiset(Items(sorted)) + multiset{x.item}
  {
    if sorted == [] || !Before(x, sorted[|sorted| - 1]) {
      assert Items(sorted + [x]) == Items(sorted) + [x.item];
    } else {
      var front, last := sorted[..|sorted| - 1], sorted[|sorted| - 1];
      InsertItems(front, x);
      assert Items(Insert(front, x) + [last]) == Items(Insert(front, x)) + [last.item];
      assert Items(sorted) == Items(front) + [last.item];
    }
  }

  /** Sorting rearranges the items and nothing else. */
  lemma {:induction false} SortItems<T>(s: seq<Keyed<T>>)
    ensures multiset(Items(Sort(s))) == multiset(Items(s))
  {
    if s != [] {
      var front, last := s[..|s| - 1], s[|s| - 1];
      SortItems(front);
      InsertItems(Sort(front), last);
      assert Items(s) == Items(front) + [last.item];
    }
  }

  // ----- Sorting distinct names -----------------------------------------------------------

  ghost predicate DistinctNames<T>(s: seq<Keyed<T>>) {
    forall i, j :: 0 <= i < j < |s| ==> s[i].name != s[j].name
  }

  ghost predicate Strict<T>(s: seq<Keyed<T>>) {
    forall i, j :: 0 <= i < j < |s| ==> Before(s[i], s[j])
  }

  lemma {:induction false} InsertDistinct<T>(sorted: seq<Keyed<T>>, x: Keyed<T>)
    requires DistinctNames(sorted) && forall y :: y in sorted ==> y.name != x.name
    ensures DistinctNames(Insert(sorted, x))
  {
    hide Before;
    if sorted != [] {
      var front, last := sorted[..|sorted| - 1], sorted[|sorted| - 1];
      assert sorted == front + [last];
      if Before(x, last) {
        InsertDistinct(front, x);
        InsertMembers(front, x);
        var inner := Insert(front, x);
        forall k | 0 <= k < |inner| ensures inner[k].name != last.name {
          assert inner[k] in multiset(inner) && last in sorted;
          if inner[k] != x {
            assert inner[k] in multiset(front);
            var i :| 0 <= i < |front| && front[i] == inner[k];
            assert sorted[i] == front[i];
          }
        }
      }
    }
  }

  lemma {:induction false} SortDistinct<T>(s: seq<Keyed<T>>)
    requires DistinctNames(s)
    ensures DistinctNames(Sort(s)) && Strict(Sort(s))
  {
    if s != [] {
      var front, last := s[..|s| - 1], s[|s| - 1];
      SortDistinct(front);
      forall y | y in Sort(front) ensures y.name != last.name {
        SortHasSame(front, y);
        var i :| 0 <= i < |front| && front[i] == y;
        assert s[i] == y;
      }
      InsertDistinct(Sort(front), last);
    }
    SortSorted(s);
    var t := Sort(s);
    forall i, j | 0 <= i < j < |t| ensures Before(t[i], t[j]) { BeforeIsTransitive(t[i], t[j], t[i]); }
  }

  lemma {:induction false} StrictIsUnique<T>(a: seq<Keyed<T>>, b: seq<Keyed<T>>)
    requires Strict(a) && Strict(b) && forall x :: x in a <==> x in b
    ensures a == b
  {
    if a != [] && b != [] {
      var la, lb := a[|a| - 1], b[|b| - 1];
      var fa, fb := a[..|a| - 1], b[..|b| - 1];
      assert a == fa + [la] && b == fb + [lb] && la in a && lb in b;
      var i :| 0 <= i < |b| && b[i] == la;
      var j :| 0 <= j < |a| && a[j] == lb;
      BeforeIsTransitive(la, lb, la);
      assert la == lb;
      forall x ensures x in fa <==> x in fb { FrontOf(a, x); FrontOf(b, x); }
      StrictIsUnique(fa, fb);
    } else {
      SomeElement(a);
      SomeElement(b);
    }
  }

  lemma SomeElement<T>(a: seq<Keyed<T>>)
    ensures a == [] || exists x :: x in a
  {
    if a != [] { assert a[0] in a; }
  }

  lemma FrontOf<T>(a: seq<Keyed<T>>, x: Keyed<T>)
    requires Strict(a) && a != []
    ensures x in a[..|a| - 1] <==> x in a && x != a[|a| - 1]
  {
    var front := a[..|a| - 1];
    assert a == front + [a[|a| - 1]];
    if x in front {
      var i :| 0 <= i < |front| && front[i] == x;
      assert Before(a[i], a[|a| - 1]);
      BeforeIsTransitive(x, x, x);
    }
  }

  /** Two lists with distinct names and the same elements sort to the same list. */
  lemma SortOfSameElements<T>(a: seq<Keyed<T>>, b: seq<Keyed<T>>)
    requires DistinctNames(a) && DistinctNames(b) && forall x :: x in a <==> x in b
    ensures Sort(a) == Sort(b)
  {
    SortDistinct(a);
    SortDistinct(b);
    forall x ensures x in Sort(a) <==> x in Sort(b) { SortHasSame(a, x); SortHasSame(b, x); }
    StrictIsUnique(Sort(a), Sort(b));
  }
}
