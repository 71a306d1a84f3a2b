/**
 The stable library sort, given by its meaning: insertion keeps the order of
 elements that compare equal, the result is a sorted permutation, and it does
 not depend on the order of the input once distinct elements never tie.
 */
module Sorting {
  ghost predicate TotalPreorder<T(!new)>(leq: (T, T) -> bool) {
    && (forall a, b :: leq(a, b) || leq(b, a))
    && (forall a, b, c :: leq(a, b) && leq(b, c) ==> leq(a, c))
  }

  ghost predicate Sorted<T>(s: seq<T>, leq: (T, T) -> bool) {
    forall i, j | 0 <= i < j < |s| :: leq(s[i], s[j])
  }

  /** Elements of `s` that compare equal are equal. */
  ghost predicate NoTies<T>(s: seq<T>, leq: (T, T) -> bool) {
    forall x, y | x in s && y in s && leq(x, y) && leq(y, x) :: x == y
  }

  function Insert<T>(x: T, s: seq<T>, leq: (T, T) -> bool): seq<T> {
    if s == [] then [x]
    else if leq(x, s[0]) then [x] + s
    else [s[0]] + Insert(x, s[1..], leq)
  }

  function SortBy<T>(s: seq<T>, leq: (T, T) -> bool): seq<T> {
    if s == [] then [] else Insert(s[0], SortBy(s[1..], leq), leq)
  }

  lemma {:induction false} InsertPermutes<T>(x: T, s: seq<T>, leq: (T, T) -> bool)
    ensures multiset(Insert(x, s, leq)) == multiset(s) + multiset{x}
  {
    if s == [] {
    } else if leq(x, s[0]) {
    } else {
      InsertPermutes(x, s[1..], leq);
      assert s == [s[0]] + s[1..];
    }
  }

  lemma {:induction false} InsertSorts<T(!new)>(x: T, s: seq<T>, leq: (T, T) -> bool)
    requires TotalPreorder(leq) && Sorted(s, leq)
    ensures Sorted(Insert(x, s, leq), leq)
  {
    if s == [] {
    } else if leq(x, s[0]) {
      forall j | 0 <= j < |s| ensures leq(x, s[j]) {
        assert j == 0 || leq(s[0], s[j]);
      }
    } else {
      var rest := Insert(x, s[1..], leq);
      InsertSorts(x, s[1..], leq);
      InsertPermutes(x, s[1..], leq);
      forall j | 0 <= j < |rest| ensures leq(s[0], rest[j]) {
        assert rest[j] in multiset(rest);
        assert rest[j] == x || rest[j] in s[1..];
      }
    }
  }

  lemma {:induction false} SortPermutes<T>(s: seq<T>, leq: (T, T) -> bool)
    ensures multiset(SortBy(s, leq)) == multiset(s)
    ensures |SortBy(s, leq)| == |s|
  {
    if s == [] {
    } else {
      SortPermutes(s[1..], leq);
      InsertPermutes(s[0], SortBy(s[1..], leq), leq);
      TailBag(s);
      assert s[0] in multiset(s);
    }
    SameBagSize(SortBy(s, leq), s);
  }

  lemma SameBagSize<T>(a: seq<T>, b: seq<T>)
    requires multiset(a) == multiset(b)
    ensures |a| == |b|
  {
    assert |multiset(a)| == |a| && |multiset(b)| == |b|;
  }

  lemma {:induction false} SortSorts<T(!new)>(s: seq<T>, leq: (T, T) -> bool)
    requires TotalPreorder(leq)
    ensures Sorted(SortBy(s, leq), leq)
  {
    if s == [] {
    } else {
      SortSorts(s[1..], leq);
      InsertSorts(s[0], SortBy(s[1..], leq), leq);
    }
  }

  /** Two sorted arrangements of one tie-free bag start with the same element. */
  lemma SortedFirst<T>(a: seq<T>, b: seq<T>, leq: (T, T) -> bool)
    requires Sorted(a, leq) && Sorted(b, leq) && |a| > 0 && |b| > 0
    requires a[0] in b && b[0] in a
    requires leq(a[0], a[0]) && leq(b[0], b[0])
    requires NoTies(a, leq)
    ensures a[0] == b[0]
  {
    var i :| 0 <= i < |b| && b[i] == a[0];
    var j :| 0 <= j < |a| && a[j] == b[0];
    assert leq(b[0], b[i]);
    assert leq(a[0], a[j]);
  }

  lemma TailKeeps<T>(a: seq<T>, leq: (T, T) -> bool)
    requires |a| > 0 && Sorted(a, leq)
    ensures Sorted(a[1..], leq)
    ensures NoTies(a, leq) ==> NoTies(a[1..], leq)
    ensures forall x | x in a[1..] :: x in a
  {
  }

  lemma TailBag<T>(a: seq<T>)
    requires |a| > 0
    ensures multiset(a[1..]) == multiset(a) - multiset{a[0]}
  {
    assert a == [a[0]] + a[1..];
  }

  /** Two sorted arrangements of one tie-free bag. */
  ghost predicate Arranged<T>(a: seq<T>, b: seq<T>, leq: (T, T) -> bool) {
    && Sorted(a, leq) && Sorted(b, leq) && multiset(a) == multiset(b)
    && NoTies(a, leq) && forall x | x in a :: leq(x, x)
  }

  lemma ArrangedTails<T>(a: seq<T>, b: seq<T>, leq: (T, T) -> bool)
    requires Arranged(a, b, leq) && |a| > 0 && |b| > 0
    ensures a[0] == b[0] && Arranged(a[1..], b[1..], leq)
  {
    assert a[0] in multiset(b) && b[0] in multiset(a);
    SortedFirst(a, b, leq);
    TailBag(a);
    TailBag(b);
    TailKeeps(a, leq);
    TailKeeps(b, leq);
  }

  lemma {:induction false} ArrangedUnique<T>(a: seq<T>, b: seq<T>, leq: (T, T) -> bool)
    requires Arranged(a, b, leq) && |a| == |b|
    ensures a == b
  {
    if |a| > 0 {
      ArrangedTails(a, b, leq);
      ArrangedUnique(a[1..], b[1..], leq);
      assert a == [a[0]] + a[1..] && b == [b[0]] + b[1..];
    }
  }

  /** A sorted arrangement of a tie-free bag is unique. */
  lemma SortedUnique<T>(a: seq<T>, b: seq<T>, leq: (T, T) -> bool)
    requires Sorted(a, leq) && Sorted(b, leq)
    requires multiset(a) == multiset(b)
    requires NoTies(a, leq) && (forall x | x in a :: leq(x, x))
    ensures a == b
  {
    SameBagSize(a, b);
    ArrangedUnique(a, b, leq);
  }

  /** Sorting a tie-free bag gives one result, whatever order it arrives in. */
  lemma SortCanonical<T(!new)>(a: seq<T>, b: seq<T>, leq: (T, T) -> bool)
    requires TotalPreorder(leq)
    requires multiset(a) == multiset(b)
    requires NoTies(a, leq)
    ensures SortBy(a, leq) == SortBy(b, leq)
  {
    SortPermutes(a, leq);
    SortPermutes(b, leq);
    SortSorts(a, leq);
    SortSorts(b, leq);
    forall x | x in SortBy(a, leq) ensures x in a {
      assert x in multiset(SortBy(a, leq));
    }
    SortedUnique(SortBy(a, leq), SortBy(b, leq), leq);
  }
}
