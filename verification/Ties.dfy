/** What a stable sort shows of elements that share a key. */
module Ties {
  import opened Sorting
  import opened Permutations
  import Text

  /** What each element contributes, in order. */
  function Flat<T, V>(f: T -> seq<V>, s: seq<T>): seq<V> {
    if s == [] then [] else f(s[0]) + Flat(f, s[1..])
  }

  lemma {:induction false} FlatConcat<T, V>(f: T -> seq<V>, a: seq<T>, b: seq<T>)
    ensures Flat(f, a + b) == Flat(f, a) + Flat(f, b)
  {
    if a == [] {
      assert a + b == b;
    } else {
      assert (a + b)[1..] == a[1..] + b;
      FlatConcat(f, a[1..], b);
      Append(f(a[0]), Flat(f, a[1..]), Flat(f, b));
    }
  }

  lemma Append<V>(a: seq<V>, b: seq<V>, c: seq<V>)
    ensures a + (b + c) == a + b + c
  {
  }

  // ---- Tied elements keep the order they come in ------------------------------------------

  /** Where an element goes: before the first that is not smaller. */
  lemma {:induction false} InsertSplits<T>(x: T, s: seq<T>, leq: (T, T) -> bool) returns (l: seq<T>, r: seq<T>)
    ensures s == l + r && Insert(x, s, leq) == l + [x] + r
    ensures (forall z | z in l :: !leq(x, z)) && (r == [] || leq(x, r[0]))
  {
    if s == [] || leq(x, s[0]) {
      l, r := [], s;
      assert [] + [x] == [x];
    } else {
      l, r := InsertSplits(x, s[1..], leq);
      assert s == [s[0]] + s[1..];
      Append([s[0]], l, r);
      Append([s[0]], l, [x]);
      Append([s[0]], l + [x], r);
      l := [s[0]] + l;
    }
  }

  lemma {:induction false} InsertAt<T>(x: T, l: seq<T>, r: seq<T>, leq: (T, T) -> bool)
    requires (forall z | z in l :: !leq(x, z)) && r != [] && leq(x, r[0])
    ensures Insert(x, l + r, leq) == l + ([x] + r)
  {
    if l == [] {
      assert l + r == r && l + ([x] + r) == [x] + r;
    } else {
      assert l[0] in l && (l + r)[0] == l[0] && (l + r)[1..] == l[1..] + r;
      InsertAt(x, l[1..], r, leq);
      assert l == [l[0]] + l[1..];
      Append([l[0]], l[1..], [x] + r);
    }
  }

  lemma TiedInsert<T>(x: T, y: T, l: seq<T>, r: seq<T>, leq: (T, T) -> bool)
    requires leq(x, y) && leq(y, x) && (forall a, b, c :: leq(a, b) && leq(b, c) ==> leq(a, c))
    requires forall z | z in l :: !leq(y, z)
    ensures Insert(x, l + [y] + r, leq) == l + ([x, y] + r)
  {
    assert forall z | z in l :: !leq(x, z);
    Append(l, [y], r);
    InsertAt(x, l, [y] + r, leq);
    Append([x], [y], r);
    assert [x] + [y] == [x, y];
  }

  /** Two tied elements in front come out side by side, in the order they came in. */
  lemma TiedTwo<T(!new)>(x: T, y: T, rest: seq<T>, leq: (T, T) -> bool) returns (l: seq<T>, r: seq<T>)
    requires TotalPreorder(leq) && leq(x, y) && leq(y, x)
    ensures SortBy([x, y] + rest, leq) == l + ([x, y] + r)
    ensures SortBy([y, x] + rest, leq) == l + ([y, x] + r)
  {
    var sorted := SortBy(rest, leq);
    l, r := InsertSplits(y, sorted, leq);
    TiedInsert(x, y, l, r, leq);
    SortTwo(x, y, rest, leq);
    SortTwo(y, x, rest, leq);
    SameSplit(x, y, l, r, leq);
    TiedInsert(y, x, l, r, leq);
  }

  lemma SortTwo<T>(x: T, y: T, rest: seq<T>, leq: (T, T) -> bool)
    ensures SortBy([x, y] + rest, leq) == Insert(x, Insert(y, SortBy(rest, leq), leq), leq)
  {
    assert ([x, y] + rest)[1..] == [y] + rest && ([y] + rest)[1..] == rest;
  }

  /** An element tied with `y` goes where `y` goes. */
  lemma SameSplit<T(!new)>(x: T, y: T, l: seq<T>, r: seq<T>, leq: (T, T) -> bool)
    requires TotalPreorder(leq) && leq(x, y) && leq(y, x)
    requires (forall z | z in l :: !leq(y, z)) && (r == [] || leq(y, r[0]))
    ensures Insert(x, l + r, leq) == l + [x] + r && forall z | z in l :: !leq(x, z)
  {
    if r == [] {
      assert l + r == l;
      InsertLast(x, l, leq);
      assert l + [x] + r == l + [x];
    } else {
      InsertAt(x, l, r, leq);
      Append(l, [x], r);
    }
  }

  lemma {:induction false} InsertLast<T>(x: T, l: seq<T>, leq: (T, T) -> bool)
    requires forall z | z in l :: !leq(x, z)
    ensures Insert(x, l, leq) == l + [x]
  {
    if l != [] {
      assert l[0] in l && l == [l[0]] + l[1..];
      InsertLast(x, l[1..], leq);
    }
  }

  /** If their contributions differ, and are of one length, the order they come in shows. */
  lemma {:induction false} SwapShows<T(!new), V>(f: T -> seq<V>, x: T, y: T, rest: seq<T>, leq: (T, T) -> bool)
    requires TotalPreorder(leq) && leq(x, y) && leq(y, x)
    requires |f(x)| == |f(y)| && f(x) != f(y)
    ensures Flat(f, SortBy([x, y] + rest, leq)) != Flat(f, SortBy([y, x] + rest, leq))
  {
    var l, r := TiedTwo(x, y, rest, leq);
    FlatPair(f, l, x, y, r);
    FlatPair(f, l, y, x, r);
    Differ(Flat(f, l), f(x), f(y), f(y) + Flat(f, r), f(x) + Flat(f, r));
  }

  lemma FlatPair<T, V>(f: T -> seq<V>, l: seq<T>, x: T, y: T, r: seq<T>)
    ensures Flat(f, l + ([x, y] + r)) == Flat(f, l) + (f(x) + (f(y) + Flat(f, r)))
  {
    FlatConcat(f, l, [x, y] + r);
    assert ([x, y] + r)[1..] == [y] + r && ([y] + r)[1..] == r;
  }

  lemma Differ<V>(p: seq<V>, a: seq<V>, b: seq<V>, c: seq<V>, d: seq<V>)
    requires |a| == |b| && a != b
    ensures p + (a + c) != p + (b + d)
  {
    var i :| 0 <= i < |a| && a[i] != b[i];
    assert (p + (a + c))[|p| + i] == a[i] && (p + (b + d))[|p| + i] == b[i];
  }

  // ---- Ties that do not show ------------------------------------------------------

  lemma {:induction false} FlatPointwise<T, V>(f: T -> seq<V>, a: seq<T>, b: seq<T>)
    requires |a| == |b| && forall i | 0 <= i < |a| :: f(a[i]) == f(b[i])
    ensures Flat(f, a) == Flat(f, b)
  {
    if a != [] {
      FlatPointwise(f, a[1..], b[1..]);
    }
  }

  /** Sorted by a text key, the same elements have the same keys in the same places. */
  lemma KeysAgree<T(!new)>(key: T -> string, a: seq<T>, b: seq<T>, leq: (T, T) -> bool)
    requires TotalPreorder(leq) && multiset(a) == multiset(b)
    requires forall x, y :: leq(x, y) <==> Text.LexLeq(key(x), key(y))
    ensures Mapped(key, SortBy(a, leq)) == Mapped(key, SortBy(b, leq))
  {
    var s, t := SortBy(a, leq), SortBy(b, leq);
    SortPermutes(a, leq);
    SortPermutes(b, leq);
    SortSorts(a, leq);
    SortSorts(b, leq);
    MappedPermutes(key, s, t);
    var ks := Mapped(key, s);
    forall x, y | Text.LexLeq(x, y) && Text.LexLeq(y, x) ensures x == y {
      Text.LexAntisymmetric(x, y);
    }
    forall x: string ensures Text.LexLeq(x, x) {
      Text.LexTotal(x, x);
    }
    SortedUnique(ks, Mapped(key, t), Text.LexLeq);
  }

  /** If elements of one key contribute the same, the order they come in does not show. */
  lemma {:induction false} TiesHidden<T(!new), V>(
      f: T -> seq<V>, key: T -> string, a: seq<T>, b: seq<T>, leq: (T, T) -> bool)
    requires TotalPreorder(leq) && multiset(a) == multiset(b)
    requires forall x, y :: leq(x, y) <==> Text.LexLeq(key(x), key(y))
    requires forall x, y | x in a && y in a && key(x) == key(y) :: f(x) == f(y)
    ensures Flat(f, SortBy(a, leq)) == Flat(f, SortBy(b, leq))
  {
    var s, t := SortBy(a, leq), SortBy(b, leq);
    KeysAgree(key, a, b, leq);
    SortPermutes(a, leq);
    SortPermutes(b, leq);
    forall i | 0 <= i < |s| ensures f(s[i]) == f(t[i]) {
      assert Mapped(key, s)[i] == Mapped(key, t)[i];
      assert s[i] in multiset(s) && t[i] in multiset(t);
      assert s[i] in a && t[i] in a;
    }
    FlatPointwise(f, s, t);
  }

  lemma PullOne<T>(s: seq<T>, x: T) returns (rest: seq<T>)
    requires x in s
    ensures multiset(s) == multiset(rest) + multiset{x}
  {
    var i :| 0 <= i < |s| && s[i] == x;
    rest := Without(s, i);
    assert s == s[..i] + [x] + s[i + 1..];
  }

  /** Two different elements, brought to the front. */
  lemma PullTwo<T>(s: seq<T>, x: T, y: T) returns (rest: seq<T>)
    requires x in s && y in s && x != y
    ensures multiset([x, y] + rest) == multiset(s) && multiset([y, x] + rest) == multiset(s)
  {
    var t := PullOne(s, x);
    assert y in multiset(s) && y in multiset(t);
    rest := PullOne(t, y);
    assert multiset([x, y]) == multiset{x} + multiset{y} && multiset([y, x]) == multiset{x} + multiset{y};
  }
}
