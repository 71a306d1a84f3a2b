/** Functions of a sequence that do not depend on the order of its elements. */
module Permutations {
  function Without<T>(s: seq<T>, k: nat): seq<T>
    requires k < |s|
  {
    s[..k] + s[k + 1..]
  }

  /** Moving an element to the front changes nothing for `f`. */
  ghost predicate Commutes<T(!new), M(!new)>(f: seq<T> -> M) {
    forall s: seq<T>, k: nat | k < |s| :: f(s) == f([s[k]] + Without(s, k))
  }

  /** What `f` says of a sequence is fixed by its head and what `f` says of its tail. */
  ghost predicate Extends<T(!new), M(!new)>(f: seq<T> -> M) {
    forall t: T, u: seq<T>, v: seq<T> | f(u) == f(v) :: f([t] + u) == f([t] + v)
  }

  lemma MatchHead<T>(a: seq<T>, b: seq<T>) returns (k: nat)
    requires multiset(a) == multiset(b) && |a| > 0
    ensures k < |b| && b[k] == a[0]
    ensures multiset(a[1..]) == multiset(Without(b, k))
  {
    assert a[0] in multiset(b);
    k :| 0 <= k < |b| && b[k] == a[0];
    assert b == b[..k] + [a[0]] + b[k + 1..];
    assert a == [a[0]] + a[1..];
    assert multiset(Without(b, k)) == multiset(b[..k]) + multiset(b[k + 1..]);
    assert multiset(Without(b, k)) == multiset(b) - multiset{a[0]};
    assert multiset(a[1..]) == multiset(a) - multiset{a[0]};
  }

  lemma {:induction false} OrderFree<T(!new), M(!new)>(f: seq<T> -> M, a: seq<T>, b: seq<T>)
    requires Commutes(f) && Extends(f)
    requires multiset(a) == multiset(b)
    ensures f(a) == f(b)
  {
    if a == [] {
      assert |b| == |multiset(b)| == 0;
    } else {
      var k := MatchHead(a, b);
      OrderFree(f, a[1..], Without(b, k));
      assert a == [a[0]] + a[1..];
    }
  }

  lemma SplitAt<T>(s: seq<T>, k: nat)
    requires k < |s|
    ensures s == s[..k] + ([s[k]] + s[k + 1..])
  {
  }

  lemma InConcat<T>(x: T, a: seq<T>, b: seq<T>)
    ensures x in a + b <==> x in a || x in b
  {
  }

  // ---- Counting ------------------------------------------------------------

  function Count<T>(s: seq<T>, p: T -> bool): nat {
    if s == [] then 0 else Count(s[..|s| - 1], p) + if p(s[|s| - 1]) then 1 else 0
  }

  lemma {:induction false} CountConcat<T>(a: seq<T>, b: seq<T>, p: T -> bool)
    ensures Count(a + b, p) == Count(a, p) + Count(b, p)
  {
    if b == [] {
      assert a + b == a;
    } else {
      assert (a + b)[..|a + b| - 1] == a + b[..|b| - 1];
      CountConcat(a, b[..|b| - 1], p);
    }
  }

  lemma {:induction false} CountCommutes<T>(s: seq<T>, k: nat, p: T -> bool)
    requires k < |s|
    ensures Count(s, p) == Count([s[k]] + Without(s, k), p)
  {
    SplitAt(s, k);
    CountConcat(s[..k], [s[k]] + s[k + 1..], p);
    CountConcat([s[k]], s[k + 1..], p);
    CountConcat([s[k]], Without(s, k), p);
    CountConcat(s[..k], s[k + 1..], p);
  }

  /** A count does not depend on order. */
  lemma {:induction false} CountOrderFree<T>(a: seq<T>, b: seq<T>, p: T -> bool)
    requires multiset(a) == multiset(b)
    ensures Count(a, p) == Count(b, p)
  {
    if a == [] {
      assert |b| == |multiset(b)| == 0;
    } else {
      var k := MatchHead(a, b);
      CountOrderFree(a[1..], Without(b, k), p);
      CountCommutes(b, k, p);
      assert a == [a[0]] + a[1..];
      CountConcat([a[0]], a[1..], p);
      CountConcat([a[0]], Without(b, k), p);
    }
  }

  function Mapped<T, U>(f: T -> U, s: seq<T>): seq<U> {
    seq(|s|, i requires 0 <= i < |s| => f(s[i]))
  }

  lemma MappedSplit<T, U>(f: T -> U, s: seq<T>, k: nat)
    requires k < |s|
    ensures Mapped(f, s) == Mapped(f, s[..k]) + [f(s[k])] + Mapped(f, s[k + 1..])
    ensures Mapped(f, Without(s, k)) == Mapped(f, s[..k]) + Mapped(f, s[k + 1..])
  {
  }

  /** Equal bags map to equal bags. */
  lemma {:induction false} MappedPermutes<T, U>(f: T -> U, a: seq<T>, b: seq<T>)
    requires multiset(a) == multiset(b)
    ensures multiset(Mapped(f, a)) == multiset(Mapped(f, b))
  {
    if a == [] {
      assert |b| == |multiset(b)| == 0;
    } else {
      var k := MatchHead(a, b);
      MappedPermutes(f, a[1..], Without(b, k));
      MappedSplit(f, a, 0);
      MappedSplit(f, b, k);
    }
  }

  // ---- Selecting ------------------------------------------------------------

  function Kept<T>(p: T -> bool, s: seq<T>): seq<T> {
    if s == [] then [] else (if p(s[0]) then [s[0]] else []) + Kept(p, s[1..])
  }

  lemma {:induction false} KeptConcat<T>(p: T -> bool, a: seq<T>, b: seq<T>)
    ensures Kept(p, a + b) == Kept(p, a) + Kept(p, b)
  {
    if a == [] {
      assert a + b == b;
    } else {
      assert (a + b)[1..] == a[1..] + b;
      KeptConcat(p, a[1..], b);
      var x := if p(a[0]) then [a[0]] else [];
      assert x + (Kept(p, a[1..]) + Kept(p, b)) == x + Kept(p, a[1..]) + Kept(p, b);
    }
  }

  lemma {:induction false} KeptMeaning<T>(p: T -> bool, s: seq<T>)
    ensures forall x :: x in Kept(p, s) <==> x in s && p(x)
  {
    if s != [] {
      KeptMeaning(p, s[1..]);
      assert s == [s[0]] + s[1..];
    }
  }

  /** Equal bags keep equal bags. */
  lemma {:induction false} KeptPermutes<T>(p: T -> bool, a: seq<T>, b: seq<T>)
    requires multiset(a) == multiset(b)
    ensures multiset(Kept(p, a)) == multiset(Kept(p, b))
  {
    if a == [] {
      assert |b| == |multiset(b)| == 0;
    } else {
      var k := MatchHead(a, b);
      KeptPermutes(p, a[1..], Without(b, k));
      SplitAt(b, k);
      var own := if p(a[0]) then [a[0]] else [];
      KeptConcat(p, b[..k], [b[k]] + b[k + 1..]);
      KeptConcat(p, b[..k], b[k + 1..]);
      assert ([b[k]] + b[k + 1..])[1..] == b[k + 1..];
      BagAround(Kept(p, b[..k]), own, Kept(p, b[k + 1..]));
    }
  }

  lemma BagAround<T>(a: seq<T>, x: seq<T>, b: seq<T>)
    ensures multiset(a + (x + b)) == multiset(x + (a + b))
  {
  }
}
