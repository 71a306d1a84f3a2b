/**
 The 2x2 contingency table of a bound arc and the correlation tuple derived from
 it, over exact rationals. `phi` involves a square root; its rounded value is
 still exact, as the integer nearest to a root is fixed by squares alone.
 */
module Contingency {
  import opened Nodes

  datatype Table = Table(n11: nat, n10: nat, n01: nat, n00: nat) {
    function Total(): nat { n11 + n10 + n01 + n00 }
    function Row1(): nat { n11 + n10 }
    function Row0(): nat { n01 + n00 }
    function Col1(): nat { n11 + n01 }
    function Col0(): nat { n10 + n00 }
    function Marginals(): nat { Row1() * Row0() * Col1() * Col0() }
    function Cross(): int { n11 * n00 - n10 * n01 }
  }

  const SCALE: int := 1_000_000

  /** Round a non-negative value to six decimals, halves away from zero. */
  function Round(x: real): real
    requires x >= 0.0
  {
    (x * SCALE as real + 0.5).Floor as real / SCALE as real
  }

  function Support(t: Table, n: nat): real {
    t.n11 as real / AtLeastOne(n)
  }

  function Confidence(t: Table): real {
    if t.Row1() == 0 then 0.0 else t.n11 as real / t.Row1() as real
  }

  function Lift(t: Table, n: nat): real {
    var consequent := t.Col1() as real / AtLeastOne(n);
    if consequent == 0.0 then 0.0 else Confidence(t) / consequent
  }

  function AtLeastOne(n: nat): (r: real)
    ensures r >= 1.0
  {
    if n == 0 then 1.0 else n as real
  }

  /** phi squared; zero on a degenerate table, as the code defines it. */
  function PhiSquared(t: Table): real {
    Quotient(t.Cross() * t.Cross(), t.Marginals())
  }

  function Quotient(num: int, den: int): real {
    if den == 0 then 0.0 else num as real / den as real
  }

  /** The largest k up to `top` whose rounding interval starts at or below the root of q, in units. */
  function RootUnits(q: real, top: nat): nat {
    if top == 0 || (top as real - 0.5) * (top as real - 0.5) <= q * 1.0e12 then top
    else RootUnits(q, top - 1)
  }

  function Phi(t: Table): real {
    SignedRoot(t.Cross(), PhiSquared(t))
  }

  /** The root of q in rounded units, with the sign of `sign`. */
  function SignedRoot(sign: int, q: real): real {
    var root := RootUnits(q, SCALE) as real / SCALE as real;
    if sign < 0 then -root else root
  }

  /** `contingency_to_correlation`, without the p-value. */
  function ToCorrelation(t: Table, n: nat): Correlation {
    Correlation(Round(Support(t, n)), Round(Confidence(t)), Round(Lift(t, n)), Phi(t))
  }

  // ---- Laws ------------------------------------------------------------

  lemma Foil(p: int, q: int, r: int, s: int)
    ensures (p + q) * (r + s) == p * r + p * s + q * r + q * s
  {
    assert (p + q) * (r + s) == p * (r + s) + q * (r + s);
  }

  lemma Scaled(a: int, b: int, c: int)
    requires a <= b && c >= 0
    ensures a * c <= b * c
  {
  }

  lemma SquareBelowProduct(z: int, x: int, y: int)
    requires -x <= z <= x <= y || -y <= z <= y <= x
    ensures z * z <= x * y
  {
    var a := if z < 0 then -z else z;
    assert z * z == a * a;
    Scaled(a, x, a);
    Scaled(a, y, x);
    assert a * x == x * a && y * x == x * y;
  }

  /** The squared cross product never exceeds the product of the four marginals. */
  lemma {:induction false} CrossBound(t: Table)
    ensures t.Cross() * t.Cross() <= t.Marginals()
  {
    var a, b, c, d := t.n11, t.n10, t.n01, t.n00;
    Foil(a, b, c, d);
    Foil(a, c, b, d);
    var rows, cols := (a + b) * (c + d), (a + c) * (b + d);
    assert rows == a * d + b * c + (a * c + b * d);
    assert cols == a * d + b * c + (a * b + c * d);
    SquareBelowProduct(t.Cross(), rows, cols);
    Regroup(a + b, c + d, a + c, b + d);
  }

  lemma Regroup(p: int, q: int, r: int, s: int)
    ensures p * q * r * s == (p * q) * (r * s)
  {
    assert p * q * r * s == ((p * q) * r) * s;
    Associate(p * q, r, s);
  }

  lemma Associate(x: int, y: int, z: int)
    ensures (x * y) * z == x * (y * z)
  {
  }

  /** phi squared is a proportion, and chi squared is at most the number of arcs. */
  lemma {:induction false} PhiBound(t: Table)
    ensures 0.0 <= PhiSquared(t) <= 1.0
    ensures t.Total() as real * PhiSquared(t) <= t.Total() as real
  {
    CrossBound(t);
    Square(t.Cross());
    QuotientBound(t.Cross() * t.Cross(), t.Marginals());
    ScaleDown(t.Total() as real, PhiSquared(t));
  }

  lemma Square(z: int)
    ensures z * z >= 0
  {
  }

  lemma QuotientBound(num: int, den: int)
    requires 0 <= num <= den
    ensures 0.0 <= Quotient(num, den) <= 1.0
  {
  }

  lemma ScaleDown(n: real, q: real)
    requires n >= 0.0 && 0.0 <= q <= 1.0
    ensures n * q <= n
  {
    assert n * (1.0 - q) >= 0.0;
  }

  /** Rounding errs by at most half a unit of the sixth decimal and keeps proportions proportions. */
  lemma {:induction false} RoundNearest(x: real)
    requires x >= 0.0
    ensures -0.0000005 <= Round(x) - x <= 0.0000005
    ensures x <= 1.0 ==> 0.0 <= Round(x) <= 1.0
  {
    var scaled := x * SCALE as real;
    var f := (scaled + 0.5).Floor;
    assert f as real <= scaled + 0.5 < f as real + 1.0;
    assert Round(x) * SCALE as real == f as real;
  }

  /** The unit count the search returns is the one whose rounding interval holds the root. */
  lemma {:induction false} RootUnitsNearest(q: real, top: nat)
    requires 0.0 <= q && q * 1.0e12 < (top as real + 0.5) * (top as real + 0.5)
    ensures var k := RootUnits(q, top);
      && k <= top
      && q * 1.0e12 < (k as real + 0.5) * (k as real + 0.5)
      && (k == 0 || (k as real - 0.5) * (k as real - 0.5) <= q * 1.0e12)
  {
    if top == 0 || (top as real - 0.5) * (top as real - 0.5) <= q * 1.0e12 {
    } else {
      assert (top - 1) as real + 0.5 == top as real - 0.5;
      RootUnitsNearest(q, top - 1);
    }
  }

  /** Whether `size` is the root of q times a million, up to one half. */
  ghost predicate NearUnits(size: real, q: real) {
    && size >= 0.0
    && q * 1.0e12 < (size + 0.5) * (size + 0.5)
    && (size == 0.0 || (size - 0.5) * (size - 0.5) <= q * 1.0e12)
  }

  /** Whether v is the signed root of q, up to half a unit of the sixth decimal. */
  ghost predicate NearestRoot(v: real, sign: int, q: real) {
    NearUnits((if sign < 0 then -v else v) * SCALE as real, q)
  }

  lemma RootAtScale(q: real)
    requires 0.0 <= q <= 1.0
    ensures RootUnits(q, SCALE) <= SCALE
    ensures NearUnits(RootUnits(q, SCALE) as real, q)
    ensures q == 0.0 ==> RootUnits(q, SCALE) == 0
  {
    ScaleCovers(q);
    RootUnitsNearest(q, SCALE);
    RootOfZero(SCALE);
  }

  lemma {:induction false} RootOfZero(top: nat)
    ensures RootUnits(0.0, top) == 0
  {
    if top > 0 {
      SquarePositive(top as real - 0.5);
      RootOfZero(top - 1);
    }
  }

  /** The search ends above zero exactly when the root is at least half a unit. */
  lemma {:induction false} RootUnitsPositive(q: real, top: nat)
    requires top > 0
    ensures RootUnits(q, top) > 0 <==> q * 1.0e12 >= 0.25
  {
    var h := top as real - 0.5;
    if h * h <= q * 1.0e12 {
      SquareGrows(0.5, h);
    } else if top > 1 {
      RootUnitsPositive(q, top - 1);
    }
  }

  lemma SquareGrows(x: real, y: real)
    requires 0.0 <= x <= y
    ensures x * x <= y * y
  {
    assert x * y >= x * x by { assert x * (y - x) >= 0.0; }
    assert y * y >= x * y by { assert y * (y - x) >= 0.0; }
  }

  lemma ScaleCovers(q: real)
    requires q <= 1.0
    ensures q * 1.0e12 < (SCALE as real + 0.5) * (SCALE as real + 0.5)
  {
  }

  lemma SquarePositive(h: real)
    requires h > 0.0
    ensures h * h > 0.0
  {
  }

  lemma UnitsBack(k: nat)
    requires k <= SCALE
    ensures (k as real / SCALE as real) * SCALE as real == k as real
    ensures 0.0 <= k as real / SCALE as real <= 1.0
    ensures k as real / SCALE as real == 0.0 <==> k == 0
  {
  }

  lemma SignedRootNearest(sign: int, q: real)
    requires 0.0 <= q <= 1.0 && (sign == 0 ==> q == 0.0)
    ensures -1.0 <= SignedRoot(sign, q) <= 1.0
    ensures SignedRoot(sign, q) > 0.0 <==> sign > 0 && q * 1.0e12 >= 0.25
    ensures SignedRoot(sign, q) < 0.0 <==> sign < 0 && q * 1.0e12 >= 0.25
    ensures NearestRoot(SignedRoot(sign, q), sign, q)
  {
    RootAtScale(q);
    RootUnitsPositive(q, SCALE);
    var k := RootUnits(q, SCALE);
    UnitsBack(k);
    var v := SignedRoot(sign, q);
    assert (if sign < 0 then -v else v) == k as real / SCALE as real;
  }

  /**
   The rounded coefficient lies in [-1, 1] and its size is the unit nearest to the
   exact root. It has the sign of the cross product exactly when the root is at
   least half a unit, and is zero otherwise.
   */
  lemma {:induction false} PhiNearest(t: Table)
    ensures -1.0 <= Phi(t) <= 1.0
    ensures Phi(t) > 0.0 <==> t.Cross() > 0 && PhiSquared(t) * 1.0e12 >= 0.25
    ensures Phi(t) < 0.0 <==> t.Cross() < 0 && PhiSquared(t) * 1.0e12 >= 0.25
    ensures NearestRoot(Phi(t), t.Cross(), PhiSquared(t))
  {
    PhiBound(t);
    QuotientOfSquare(t.Cross(), t.Marginals());
    SignedRootNearest(t.Cross(), PhiSquared(t));
  }

  lemma QuotientOfSquare(z: int, den: int)
    ensures z == 0 ==> Quotient(z * z, den) == 0.0
  {
  }

  /** A table with its arc counted in it: neither zero-denominator branch is taken. */
  lemma {:induction false} ProportionsOrdered(t: Table)
    requires t.n11 > 0
    ensures Support(t, t.Total()) == t.n11 as real / t.Total() as real
    ensures Confidence(t) == t.n11 as real / t.Row1() as real
    ensures 0.0 < Support(t, t.Total()) <= Confidence(t) <= 1.0
    ensures Lift(t, t.Total()) == Confidence(t) / (t.Col1() as real / t.Total() as real)
    ensures 0.0 < Lift(t, t.Total())
  {
    DivideBigger(t.n11 as real, t.Row1() as real, t.Total() as real);
    DivideBigger(t.n11 as real, t.n11 as real, t.Row1() as real);
    PositiveQuotient(t.Col1() as real, t.Total() as real);
    PositiveQuotient(Confidence(t), t.Col1() as real / t.Total() as real);
  }

  lemma PositiveQuotient(x: real, y: real)
    requires x > 0.0 && y > 0.0
    ensures x / y > 0.0
  {
  }

  lemma DivideBigger(x: real, y: real, z: real)
    requires 0.0 < x <= y <= z
    ensures 0.0 < x / z <= x / y <= 1.0
  {
    var p, q := x / z, x / y;
    assert p * z == x == q * y;
    assert p > 0.0 by { PositiveQuotient(x, z); }
    assert p * y <= p * z by { assert p * (z - y) >= 0.0; }
    assert q * y >= p * y;
    assert (q - p) * y >= 0.0;
  }

  /**
   With the arc counted, lift above one, a positive cross product and a positive
   numerator of phi are the same thing.
   */
  lemma {:induction false} LiftMeansAssociation(t: Table)
    requires t.n11 > 0
    ensures Lift(t, t.Total()) > 1.0 <==> t.n11 * t.Total() > t.Row1() * t.Col1()
    ensures t.n11 * t.Total() > t.Row1() * t.Col1() <==> t.Cross() > 0
  {
    ProportionsOrdered(t);
    LiftAsRatio(t.n11 as real, t.Row1() as real, t.Col1() as real, t.Total() as real);
    RealProduct(t.n11, t.Total());
    RealProduct(t.Row1(), t.Col1());
    CrossAsProducts(t);
  }

  lemma RealProduct(x: int, y: int)
    ensures (x * y) as real == x as real * y as real
  {
  }

  lemma CrossAsProducts(t: Table)
    ensures t.n11 * t.Total() - t.Row1() * t.Col1() == t.Cross()
  {
    var a, b, c, d := t.n11, t.n10, t.n01, t.n00;
    Foil(a, b, a, c);
    Foil(a, 0, a + b, c + d);
    Foil(a, 0, a, b);
    Foil(a, 0, c, d);
    assert t.Total() == (a + b) + (c + d);
    assert b * a == a * b;
  }

  lemma LiftAsRatio(x: real, row: real, col: real, n: real)
    requires x > 0.0 && row > 0.0 && col > 0.0 && n > 0.0
    ensures (x / row) / (col / n) > 1.0 <==> x * n > row * col
  {
    var c, p := x / row, col / n;
    assert c * row == x && p * n == col;
    PositiveQuotient(col, n);
    var l := c / p;
    assert l * p == c;
    Shuffle(l, p, row, n);
    var m := row * col;
    assert row * (p * n) == m;
    assert x * n == l * m by {
      assert l * p == c && c * row == x;
    }
    OverOne(l, m) by {
      assert m > 0.0;
    }
    assert l > 1.0 <==> l * m > m;
    assert m == row * col;
  }

  lemma OverOne(l: real, m: real)
    requires m > 0.0
    ensures l > 1.0 <==> l * m > m
  {
    assert l * m - m == (l - 1.0) * m;
  }

  lemma Shuffle(l: real, p: real, r: real, n: real)
    ensures ((l * p) * r) * n == l * (r * (p * n))
  {
    assert (l * p) * r == l * (r * p);
    assert (l * (r * p)) * n == l * ((r * p) * n);
    assert (r * p) * n == r * (p * n);
  }

  lemma RoundNonNegative(x: real)
    requires x >= 0.0
    ensures Round(x) >= 0.0
  {
    assert (x * SCALE as real + 0.5).Floor >= 0;
  }

  /**
   A table with its arc counted: no zero-denominator branch is taken, every field is
   in range and within half a unit of the sixth decimal of its exact value.
   */
  lemma {:induction false} CorrelationFields(t: Table)
    requires t.n11 > 0
    ensures var n, c := t.Total(), ToCorrelation(t, t.Total());
      && 0.0 < Support(t, n) <= Confidence(t) <= 1.0
      && 0.0 <= c.support <= 1.0 && 0.0 <= c.confidence <= 1.0 && 0.0 <= c.lift && -1.0 <= c.phi <= 1.0
      && -0.0000005 <= c.support - Support(t, n) <= 0.0000005
      && -0.0000005 <= c.confidence - Confidence(t) <= 0.0000005
      && -0.0000005 <= c.lift - Lift(t, n) <= 0.0000005
      && NearestRoot(c.phi, t.Cross(), PhiSquared(t))
      && (Lift(t, n) > 1.0 <==> t.Cross() > 0)
  {
    var n := t.Total();
    ProportionsOrdered(t);
    LiftMeansAssociation(t);
    PhiNearest(t);
    RoundNearest(Support(t, n));
    RoundNearest(Confidence(t));
    RoundNearest(Lift(t, n));
    RoundNonNegative(Lift(t, n));
  }
}
