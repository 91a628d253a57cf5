/** Stable sorting by any total preorder: what makes the sorted result canonical. */
module Sorting {

  ghost predicate TotalPreorder<T(!new)>(leq: (T, T) -> bool) {
    && (forall x, y :: leq(x, y) || leq(y, x))
    && (forall x, y, z :: leq(x, y) && leq(y, z) ==> leq(x, z))
  }

  ghost predicate TotalOrder<T(!new)>(leq: (T, T) -> bool) {
    TotalPreorder(leq) && forall x, y :: leq(x, y) && leq(y, x) ==> x == y
  }

  ghost predicate Sorted<T>(s: seq<T>, leq: (T, T) -> bool) {
    forall i, j :: 0 <= i < j < |s| ==> leq(s[i], s[j])
  }

  predicate Tie<T>(x: T, y: T, leq: (T, T) -> bool) {
    leq(x, y) && leq(y, x)
  }

  ghost predicate NoTies<T>(s: seq<T>, leq: (T, T) -> bool) {
    forall i, j :: 0 <= i < |s| && 0 <= j < |s| && Tie(s[i], s[j], leq) ==> s[i] == s[j]
  }

  function Insert<T>(x: T, s: seq<T>, leq: (T, T) -> bool): seq<T> {
    if s == [] || leq(x, s[0]) then [x] + s else [s[0]] + Insert(x, s[1..], leq)
  }

  /** Elements that tie keep the order they came in. */
  function Sort<T>(s: seq<T>, leq: (T, T) -> bool): seq<T> {
    if s == [] then [] else Insert(s[0], Sort(s[1..], leq), leq)
  }

  lemma {:induction false} InsertPermutes<T>(x: T, s: seq<T>, leq: (T, T) -> bool)
    ensures multiset(Insert(x, s, leq)) == multiset(s) + multiset{x}
  {
    if s != [] && !leq(x, s[0]) {
      InsertPermutes(x, s[1..], leq);
      assert s == [s[0]] + s[1..];
    }
  }

  lemma {:induction false} SortPermutes<T>(s: seq<T>, leq: (T, T) -> bool)
    ensures multiset(Sort(s, leq)) == multiset(s)
  {
    if s != [] {
      SortPermutes(s[1..], leq);
      InsertPermutes(s[0], Sort(s[1..], leq), leq);
      assert s == [s[0]] + s[1..];
    }
  }

  lemma {:induction false} InsertSorts<T(!new)>(x: T, s: seq<T>, leq: (T, T) -> bool)
    requires TotalPreorder(leq) && Sorted(s, leq)
    ensures Sorted(Insert(x, s, leq), leq)
  {
    if s != [] && !leq(x, s[0]) {
      InsertSorts(x, s[1..], leq);
      InsertPermutes(x, s[1..], leq);
      var rest := Insert(x, s[1..], leq);
      forall i | 0 <= i < |rest|
        ensures leq(s[0], rest[i])
      {
        assert rest[i] in multiset(rest);
        assert rest[i] == x || rest[i] in s[1..];
      }
    }
  }

  lemma {:induction false} SortSorts<T(!new)>(s: seq<T>, leq: (T, T) -> bool)
    requires TotalPreorder(leq)
    ensures Sorted(Sort(s, leq), leq)
  {
    if s != [] {
      SortSorts(s[1..], leq);
      InsertSorts(s[0], Sort(s[1..], leq), leq);
    }
  }

  lemma SameMultisetSameElements<T>(a: seq<T>, b: seq<T>)
    requires multiset(a) == multiset(b)
    ensures |a| == |b| && forall x :: x in a <==> x in b
  {
    assert |multiset(a)| == |a| && |multiset(b)| == |b|;
    forall x
      ensures x in a <==> x in b
    {
      assert x in a <==> x in multiset(a);
      assert x in b <==> x in multiset(b);
    }
  }

  lemma SameLeast<T>(a: seq<T>, b: seq<T>, leq: (T, T) -> bool)
    requires a != [] && b != [] && a[0] in b && b[0] in a
    requires Sorted(a, leq) && Sorted(b, leq) && NoTies(a, leq) && leq(a[0], a[0]) && leq(b[0], b[0])
    ensures a[0] == b[0]
  {
    var i :| 0 <= i < |b| && b[i] == a[0];
    var j :| 0 <= j < |a| && a[j] == b[0];
    assert leq(a[0], a[j]) && leq(b[0], b[i]);
    assert Tie(a[0], a[j], leq);
  }

  lemma SameTail<T>(a: seq<T>, b: seq<T>)
    requires a != [] && b != [] && a[0] == b[0] && multiset(a) == multiset(b)
    ensures multiset(a[1..]) == multiset(b[1..])
  {
    assert a == [a[0]] + a[1..] && b == [b[0]] + b[1..];
    assert multiset(a[1..]) == multiset(a) - multiset{a[0]};
    assert multiset(b[1..]) == multiset(b) - multiset{b[0]};
  }

  /** Two sorted lists of the same elements agree, if distinct elements never tie. */
  lemma {:induction false} SortedIsUnique<T>(a: seq<T>, b: seq<T>, leq: (T, T) -> bool)
    requires multiset(a) == multiset(b) && Sorted(a, leq) && Sorted(b, leq) && NoTies(a, leq)
    requires forall i :: 0 <= i < |a| ==> leq(a[i], a[i])
    ensures a == b
  {
    SameMultisetSameElements(a, b);
    if a != [] {
      assert b[0] in b && a[0] in a;
      SameLeast(a, b, leq);
      SameTail(a, b);
      SortedIsUnique(a[1..], b[1..], leq);
      assert a == [a[0]] + a[1..] && b == [b[0]] + b[1..];
    }
  }

  /** With a total order, equal sorted lists mean equal multisets, and the other way round. */
  lemma SortedEqualIffSameMultiset<T(!new)>(a: seq<T>, b: seq<T>, leq: (T, T) -> bool)
    requires TotalOrder(leq)
    ensures Sort(a, leq) == Sort(b, leq) <==> multiset(a) == multiset(b)
  {
    SortPermutes(a, leq);
    SortPermutes(b, leq);
    if multiset(a) == multiset(b) {
      SortSorts(a, leq);
      SortSorts(b, leq);
      SortedIsUnique(Sort(a, leq), Sort(b, leq), leq);
    }
  }

  // ----- Stability -----

  /** The elements that tie with `x`, in order. */
  function Ties<T>(s: seq<T>, x: T, leq: (T, T) -> bool): seq<T> {
    if s == [] then []
    else (if Tie(s[0], x, leq) then [s[0]] else []) + Ties(s[1..], x, leq)
  }

  lemma {:induction false} TiesOfConcat<T>(a: seq<T>, b: seq<T>, x: T, leq: (T, T) -> bool)
    ensures Ties(a + b, x, leq) == Ties(a, x, leq) + Ties(b, x, leq)
  {
    if a == [] {
      assert a + b == b;
    } else {
      var first := if Tie(a[0], x, leq) then [a[0]] else [];
      assert (a + b)[0] == a[0] && (a + b)[1..] == a[1..] + b;
      TiesOfConcat(a[1..], b, x, leq);
      assert Ties(a + b, x, leq) == first + (Ties(a[1..], x, leq) + Ties(b, x, leq));
    }
  }

  /** What `y` overtakes does not tie with what `y` ties with. */
  ghost predicate Passes<T>(y: T, s: seq<T>, x: T, leq: (T, T) -> bool) {
    forall i :: 0 <= i < |s| && !leq(y, s[i]) && Tie(y, x, leq) ==> !Tie(s[i], x, leq)
  }

  lemma {:induction false} InsertIsStable<T>(y: T, s: seq<T>, x: T, leq: (T, T) -> bool)
    requires Passes(y, s, x, leq)
    ensures Ties(Insert(y, s, leq), x, leq) == (if Tie(y, x, leq) then [y] else []) + Ties(s, x, leq)
  {
    if s == [] || leq(y, s[0]) {
      TiesOfConcat([y], s, x, leq);
      assert Ties([y], x, leq) == (if Tie(y, x, leq) then [y] else []) + Ties([y][1..], x, leq);
    } else {
      assert Insert(y, s, leq)[1..] == Insert(y, s[1..], leq);
      InsertIsStable(y, s[1..], x, leq);
    }
  }

  lemma PreorderPasses<T(!new)>(y: T, s: seq<T>, x: T, leq: (T, T) -> bool)
    requires TotalPreorder(leq)
    ensures Passes(y, s, x, leq)
  {
  }

  /** Sorting keeps the elements of every tie in the order they came in. */
  lemma {:induction false} SortIsStable<T(!new)>(s: seq<T>, x: T, leq: (T, T) -> bool)
    requires TotalPreorder(leq)
    ensures Ties(Sort(s, leq), x, leq) == Ties(s, x, leq)
  {
    if s != [] {
      SortIsStable(s[1..], x, leq);
      PreorderPasses(s[0], Sort(s[1..], leq), x, leq);
      InsertIsStable(s[0], Sort(s[1..], leq), x, leq);
    }
  }

  function Swapped<T>(s: seq<T>, i: nat, j: nat): seq<T>
    requires i < |s| && j < |s|
  {
    s[i := s[j]][j := s[i]]
  }

  lemma SwapPermutes<T>(s: seq<T>, i: nat, j: nat)
    requires i < |s| && j < |s|
    ensures multiset(Swapped(s, i, j)) == multiset(s)
  {
  }

  lemma SwappedTiesDiffer<T>(s: seq<T>, i: nat, j: nat, leq: (T, T) -> bool)
    requires i < j < |s| && Tie(s[i], s[i], leq) && Tie(s[j], s[i], leq) && s[i] != s[j]
    ensures Ties(Swapped(s, i, j), s[i], leq) != Ties(s, s[i], leq)
  {
    var t, x := Swapped(s, i, j), s[i];
    var head := s[..i];
    assert s == head + s[i..] && t == head + t[i..];
    TiesOfConcat(head, s[i..], x, leq);
    TiesOfConcat(head, t[i..], x, leq);
    var n := |Ties(head, x, leq)|;
    assert Ties(s[i..], x, leq)[0] == s[i];
    assert Ties(t[i..], x, leq)[0] == s[j];
    assert Ties(s, x, leq)[n] == s[i] && Ties(t, x, leq)[n] == s[j];
  }

  /** Swapping two distinct elements that tie changes the sorted result. */
  lemma SwappedTieShows<T(!new)>(s: seq<T>, i: nat, j: nat, leq: (T, T) -> bool)
    requires TotalPreorder(leq) && i < j < |s| && Tie(s[i], s[j], leq) && s[i] != s[j]
    ensures Sort(Swapped(s, i, j), leq) != Sort(s, leq)
  {
    assert Tie(s[i], s[i], leq);
    SwappedTiesDiffer(s, i, j, leq);
    SortIsStable(s, s[i], leq);
    SortIsStable(Swapped(s, i, j), s[i], leq);
  }

  /** Every reordering gives the same sorted result exactly when no two distinct elements tie. */
  lemma CanonicalIffNoTies<T(!new)>(s: seq<T>, leq: (T, T) -> bool)
    requires TotalPreorder(leq)
    ensures (forall t :: multiset(t) == multiset(s) ==> Sort(t, leq) == Sort(s, leq)) <==> NoTies(s, leq)
  {
    if NoTies(s, leq) {
      forall t | multiset(t) == multiset(s)
        ensures Sort(t, leq) == Sort(s, leq)
      {
        PermutationSortsAlike(s, t, leq);
      }
    } else {
      var i, j :| 0 <= i < |s| && 0 <= j < |s| && Tie(s[i], s[j], leq) && s[i] != s[j];
      var a, b := if i < j then i else j, if i < j then j else i;
      SwapPermutes(s, a, b);
      SwappedTieShows(s, a, b, leq);
    }
  }

  lemma PermutationSortsAlike<T(!new)>(s: seq<T>, t: seq<T>, leq: (T, T) -> bool)
    requires TotalPreorder(leq) && multiset(t) == multiset(s) && NoTies(s, leq)
    ensures Sort(t, leq) == Sort(s, leq)
  {
    var a, b := Sort(s, leq), Sort(t, leq);
    SortPermutes(s, leq);
    SortPermutes(t, leq);
    SortSorts(s, leq);
    SortSorts(t, leq);
    SameMultisetSameElements(s, a);
    forall i, j | 0 <= i < |a| && 0 <= j < |a| && Tie(a[i], a[j], leq)
      ensures a[i] == a[j]
    {
      assert a[i] in s && a[j] in s;
    }
    SortedIsUnique(a, b, leq);
  }

  // ----- Projecting -----

  function Map<S, T>(f: S -> T, s: seq<S>): (r: seq<T>)
    ensures |r| == |s| && forall i :: 0 <= i < |s| ==> r[i] == f(s[i])
  {
    if s == [] then [] else [f(s[0])] + Map(f, s[1..])
  }

  function Remove<S>(s: seq<S>, i: nat): seq<S>
    requires i < |s|
  {
    s[..i] + s[i + 1..]
  }

  lemma {:induction false} MapRemove<S, T>(f: S -> T, s: seq<S>, i: nat)
    requires i < |s|
    ensures multiset(Map(f, s)) == multiset(Map(f, Remove(s, i))) + multiset{f(s[i])}
  {
    assert Map(f, Remove(s, i)) == Map(f, s)[..i] + Map(f, s)[i + 1..];
    assert Map(f, s) == Map(f, s)[..i] + [f(s[i])] + Map(f, s)[i + 1..];
  }

  lemma RemoveSame<S>(a: seq<S>, b: seq<S>, i: nat, j: nat)
    requires i < |a| && j < |b| && a[i] == b[j] && multiset(a) == multiset(b)
    ensures multiset(Remove(a, i)) == multiset(Remove(b, j))
  {
    assert a == a[..i] + [a[i]] + a[i + 1..];
    assert b == b[..j] + [b[j]] + b[j + 1..];
    assert multiset(Remove(a, i)) == multiset(a) - multiset{a[i]};
    assert multiset(Remove(b, j)) == multiset(b) - multiset{b[j]};
  }

  /** Reordering before projecting is reordering after it. */
  lemma {:induction false} MapPermutes<S, T>(f: S -> T, a: seq<S>, b: seq<S>)
    requires multiset(a) == multiset(b)
    ensures multiset(Map(f, a)) == multiset(Map(f, b))
    decreases |a|
  {
    SameMultisetSameElements(a, b);
    if a != [] {
      assert a[0] in b;
      var i :| 0 <= i < |b| && b[i] == a[0];
      RemoveSame(a, b, 0, i);
      MapPermutes(f, Remove(a, 0), Remove(b, i));
      MapRemove(f, a, 0);
      MapRemove(f, b, i);
    }
  }

  lemma MapSwaps<S, T>(f: S -> T, s: seq<S>, i: nat, j: nat)
    requires i < j < |s|
    ensures Map(f, Swapped(s, i, j)) == Swapped(Map(f, s), i, j)
  {
    var t := Swapped(s, i, j);
    forall k | 0 <= k < |s|
      ensures Map(f, t)[k] == Swapped(Map(f, s), i, j)[k]
    {
      assert Map(f, t)[k] == f(t[k]);
      assert t[k] == if k == i then s[j] else if k == j then s[i] else s[k];
    }
  }

  lemma ProjectedTieShows<S(!new), T(!new)>(f: S -> T, s: seq<S>, i: nat, j: nat, leq: (T, T) -> bool)
    requires TotalPreorder(leq) && i < j < |s| && Tie(f(s[i]), f(s[j]), leq) && f(s[i]) != f(s[j])
    ensures multiset(Swapped(s, i, j)) == multiset(s)
    ensures Sort(Map(f, Swapped(s, i, j)), leq) != Sort(Map(f, s), leq)
  {
    SwapPermutes(s, i, j);
    MapSwaps(f, s, i, j);
    SwappedTieShows(Map(f, s), i, j, leq);
  }

  lemma ProjectedSortsAlike<S(!new), T(!new)>(f: S -> T, s: seq<S>, t: seq<S>, leq: (T, T) -> bool)
    requires TotalPreorder(leq) && NoTies(Map(f, s), leq) && multiset(t) == multiset(s)
    ensures Sort(Map(f, t), leq) == Sort(Map(f, s), leq)
  {
    MapPermutes(f, t, s);
    PermutationSortsAlike(Map(f, s), Map(f, t), leq);
  }

  /** Blind to the order the entries came in. */
  ghost predicate Canonical<S(!new), T>(f: S -> T, s: seq<S>, leq: (T, T) -> bool) {
    forall t: seq<S> :: multiset(t) == multiset(s) ==> Sort(Map(f, t), leq) == Sort(Map(f, s), leq)
  }

  /** Sorting projected entries is canonical exactly when no two different projections tie. */
  lemma ProjectedCanonicalIffNoTies<S(!new), T(!new)>(f: S -> T, s: seq<S>, leq: (T, T) -> bool)
    requires TotalPreorder(leq)
    ensures Canonical(f, s, leq) <==> NoTies(Map(f, s), leq)
  {
    if NoTies(Map(f, s), leq) {
      forall t: seq<S> | multiset(t) == multiset(s)
        ensures Sort(Map(f, t), leq) == Sort(Map(f, s), leq)
      {
        ProjectedSortsAlike(f, s, t, leq);
      }
    } else {
      var p := Map(f, s);
      var i, j :| 0 <= i < |p| && 0 <= j < |p| && Tie(p[i], p[j], leq) && p[i] != p[j];
      ProjectedTieShows(f, s, if i < j then i else j, if i < j then j else i, leq);
    }
  }
}
