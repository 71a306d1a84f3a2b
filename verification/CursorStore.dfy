/** The Cursor store: index ranges over its key-value table, and the order of bubbles. */
module CursorStore {
  import opened Wrappers
  import opened Json
  import opened Events
  import opened Text
  import Permutations
  import Sorting

  /** One row of `cursorDiskKV`. */
  datatype Row = Row(key: string, value: string)

  datatype Composer = Composer(id: string, name: Option<string>, createdAt: Option<int>, headers: seq<string>)

  datatype Bubble = Bubble(id: string, value: Value)

  // ---- A range of the index is a prefix ------------------------------------------------

  /** The half-open key range of the index lookup. */
  predicate InRange(key: string, from: string, to: string) {
    LexLeq(from, key) && LexLess(key, to)
  }

  const COLON: char := ':'
  const SEMICOLON: char := ';'

  /**
   In byte order, the keys from `p:` up to, not including, `p;` are exactly the keys
   that start with `p:`, because no character lies between the two.
   */
  lemma {:induction false} RangeIsPrefix(p: string, key: string)
    ensures InRange(key, p + [COLON], p + [SEMICOLON]) <==> StartsWith(key, p + [COLON])
  {
    if p == "" {
      assert [COLON] == p + [COLON] && [SEMICOLON] == p + [SEMICOLON];
      if key != "" {
        OneCharOrder(key, COLON);
        OneCharOrder(key, SEMICOLON);
        assert COLON as int == 58 && SEMICOLON as int == 59;
        assert StartsWith(key, [COLON]) <==> key[0] == COLON;
      }
    } else if key == "" {
    } else {
      assert (p + [COLON])[1..] == p[1..] + [COLON];
      assert (p + [SEMICOLON])[1..] == p[1..] + [SEMICOLON];
      RangeIsPrefix(p[1..], key[1..]);
      PrefixTail(p + [COLON], key);
    }
  }

  lemma OneCharOrder(key: string, c: char)
    requires key != ""
    ensures LexLeq([c], key) <==> c <= key[0]
  {
    assert [c][1..] == "";
  }

  lemma PrefixTail(p: string, key: string)
    requires p != "" && key != ""
    ensures StartsWith(key, p) <==> p[0] == key[0] && StartsWith(key[1..], p[1..])
  {
    if p[0] == key[0] && StartsWith(key[1..], p[1..]) {
      assert p == [p[0]] + p[1..] && key == [key[0]] + key[1..];
    }
  }

  // ---- Queries ------------------------------------------------------------

  function RowsInRange(rows: seq<Row>, from: string, to: string): seq<Row> {
    if rows == [] then []
    else
      var rest := RowsInRange(rows[1..], from, to);
      if InRange(rows[0].key, from, to) then [rows[0]] + rest else rest
  }

  function RowsWithPrefix(rows: seq<Row>, prefix: string): seq<Row> {
    Permutations.Kept(HasPrefix(prefix), rows)
  }

  function HasPrefix(prefix: string): Row -> bool {
    (r: Row) => StartsWith(r.key, prefix)
  }

  /** The index lookup finds what a scan of the whole table by prefix finds. */
  lemma {:induction false} LookupIsScan(rows: seq<Row>, p: string)
    ensures RowsInRange(rows, p + [COLON], p + [SEMICOLON]) == RowsWithPrefix(rows, p + [COLON])
  {
    if rows != [] {
      RangeIsPrefix(p, rows[0].key);
      LookupIsScan(rows[1..], p);
    }
  }

  // ---- Bubbles ------------------------------------------------------------

  function BubbleStem(composerId: string): string {
    "bubbleId:" + composerId
  }

  function BubblePrefix(composerId: string): string {
    BubbleStem(composerId) + [COLON]
  }

  /** A value that is not JSON is kept as an empty object. */
  function BubbleOf(h: Host, prefix: string, row: Row): Bubble {
    Bubble(if StartsWith(row.key, prefix) then row.key[|prefix|..] else row.key,
           h.fromJson(row.value).GetOr(Obj(map[])))
  }

  function Bubbles(h: Host, prefix: string, rows: seq<Row>): seq<Bubble> {
    seq(|rows|, i requires 0 <= i < |rows| => BubbleOf(h, prefix, rows[i]))
  }

  /** `load_bubbles`: what the range lookup returns is the prefix filter of the table. */
  method LoadBubbles(h: Host, rows: seq<Row>, composerId: string) returns (out: seq<Bubble>)
    ensures out == Bubbles(h, BubblePrefix(composerId), RowsWithPrefix(rows, BubblePrefix(composerId)))
  {
    var prefix := BubblePrefix(composerId);
    var found := RowsInRange(rows, prefix, BubbleStem(composerId) + [SEMICOLON]);
    LookupIsScan(rows, BubbleStem(composerId));
    out := [];
    for i := 0 to |found|
      invariant out == Bubbles(h, prefix, found[..i])
    {
      out := out + [BubbleOf(h, prefix, found[i])];
    }
    assert found[..|found|] == found;
  }

  /** A key can be a bubble of both composers exactly when one id extends the other past a colon. */
  lemma {:induction false} SharedKeyExactly(a: string, b: string)
    ensures (exists key: string :: StartsWith(key, BubblePrefix(a)) && StartsWith(key, BubblePrefix(b)))
      <==> a == b || StartsWith(b, a + [COLON]) || StartsWith(a, b + [COLON])
  {
    forall key: string | StartsWith(key, BubblePrefix(a)) && StartsWith(key, BubblePrefix(b))
      ensures a == b || StartsWith(b, a + [COLON]) || StartsWith(a, b + [COLON])
    {
      if |a| <= |b| {
        ShorterPrefix(a, b, key);
      } else {
        ShorterPrefix(b, a, key);
      }
    }
    LongerHolds(a, b);
    LongerHolds(b, a);
  }

  lemma ShorterPrefix(a: string, b: string, key: string)
    requires |a| <= |b| && StartsWith(key, BubblePrefix(a)) && StartsWith(key, BubblePrefix(b))
    ensures a == b || StartsWith(b, a + [COLON])
  {
    var p, q := BubblePrefix(a), BubblePrefix(b);
    assert p == key[..|p|] && q == key[..|q|];
    assert p == q[..|p|];
    assert q == "bubbleId:" + (b + [COLON]);
    assert p == "bubbleId:" + (a + [COLON]);
    assert a + [COLON] == p[9..] == q[9..|p|] == (b + [COLON])[..|a| + 1];
    if |a| < |b| {
      assert (b + [COLON])[..|a| + 1] == b[..|a| + 1];
    } else {
      assert a == (a + [COLON])[..|a|] == (b + [COLON])[..|a|] == b;
    }
  }

  lemma LongerHolds(a: string, b: string)
    ensures a == b || StartsWith(b, a + [COLON]) ==>
      exists key: string :: StartsWith(key, BubblePrefix(a)) && StartsWith(key, BubblePrefix(b))
  {
    if a == b || StartsWith(b, a + [COLON]) {
      var key := BubblePrefix(b);
      assert StartsWith(key, BubblePrefix(b));
      assert StartsWith(key, BubblePrefix(a)) by {
        if a != b {
          assert b == a + [COLON] + b[|a| + 1..];
          assert key == BubblePrefix(a) + (b[|a| + 1..] + [COLON]);
        }
      }
    }
  }

  /** So no row is a bubble of two composers when no id extends another. */
  lemma {:induction false} BubblesDisjoint(rows: seq<Row>, a: string, b: string)
    requires a != b && !StartsWith(b, a + [COLON]) && !StartsWith(a, b + [COLON])
    ensures forall r | r in RowsWithPrefix(rows, BubblePrefix(a)) :: r !in RowsWithPrefix(rows, BubblePrefix(b))
  {
    SharedKeyExactly(a, b);
    Permutations.KeptMeaning(HasPrefix(BubblePrefix(a)), rows);
    Permutations.KeptMeaning(HasPrefix(BubblePrefix(b)), rows);
  }

  // ---- The order of bubbles ------------------------------------------------------------

  /** The last header that names a bubble. */
  function Rank(headers: seq<string>, id: string): Option<nat> {
    if headers == [] then None
    else
      var n := |headers| - 1;
      if headers[n] == id then Some(n) else Rank(headers[..n], id)
  }

  function CreatedAt(b: Bubble): string {
    StrField(b.value, "createdAt").GetOr("")
  }

  /** Unnamed bubbles rank after all named ones. */
  function RankKey(headers: seq<string>, b: Bubble): nat {
    Rank(headers, b.id).GetOr(|headers|)
  }

  predicate Before(headers: seq<string>, a: Bubble, b: Bubble) {
    var ra, rb := RankKey(headers, a), RankKey(headers, b);
    || ra < rb
    || (ra == rb && CreatedAt(a) != CreatedAt(b) && LexLeq(CreatedAt(a), CreatedAt(b)))
    || (ra == rb && CreatedAt(a) == CreatedAt(b) && LexLeq(a.id, b.id))
  }

  function Comparator(headers: seq<string>): (Bubble, Bubble) -> bool {
    (a: Bubble, b: Bubble) => Before(headers, a, b)
  }

  lemma {:induction false} RankBounded(headers: seq<string>, id: string)
    ensures var r := Rank(headers, id);
      r.Some? ==> r.value < |headers| && headers[r.value] == id && id !in headers[r.value + 1..]
    ensures Rank(headers, id).None? <==> id !in headers
  {
    if headers != [] {
      var n := |headers| - 1;
      RankBounded(headers[..n], id);
      assert headers == headers[..n] + [headers[n]];
      var r := Rank(headers[..n], id);
      if headers[n] != id && r.Some? {
        assert headers[r.value + 1..] == headers[..n][r.value + 1..] + [headers[n]];
      }
    }
  }

  lemma BeforeTotal(headers: seq<string>, a: Bubble, b: Bubble)
    ensures Before(headers, a, b) || Before(headers, b, a)
  {
    LexTotal(CreatedAt(a), CreatedAt(b));
    LexTotal(a.id, b.id);
  }

  lemma BeforeTransitive(headers: seq<string>, a: Bubble, b: Bubble, c: Bubble)
    requires Before(headers, a, b) && Before(headers, b, c)
    ensures Before(headers, a, c)
  {
    if RankKey(headers, a) == RankKey(headers, c) {
      if CreatedAt(a) == CreatedAt(b) == CreatedAt(c) {
        LexTransitive(a.id, b.id, c.id);
      } else {
        if LexLeq(CreatedAt(a), CreatedAt(b)) && LexLeq(CreatedAt(b), CreatedAt(c)) {
          LexTransitive(CreatedAt(a), CreatedAt(b), CreatedAt(c));
        }
        if CreatedAt(a) == CreatedAt(c) {
          LexAntisymmetric(CreatedAt(a), CreatedAt(b));
        }
      }
    }
  }

  lemma BeforeIsOrder(headers: seq<string>)
    ensures Sorting.TotalPreorder(Comparator(headers))
  {
    var leq := Comparator(headers);
    forall a, b ensures leq(a, b) || leq(b, a) {
      BeforeTotal(headers, a, b);
    }
    forall a, b, c | leq(a, b) && leq(b, c) ensures leq(a, c) {
      BeforeTransitive(headers, a, b, c);
    }
  }

  lemma TiedSameId(headers: seq<string>, a: Bubble, b: Bubble)
    requires Before(headers, a, b) && Before(headers, b, a)
    ensures a.id == b.id
  {
    if CreatedAt(a) == CreatedAt(b) {
      LexAntisymmetric(a.id, b.id);
    } else {
      LexAntisymmetric(CreatedAt(a), CreatedAt(b));
    }
  }

  /** The rank table holds the last position of every header. */
  ghost predicate Ranks(table: map<string, nat>, headers: seq<string>) {
    forall id: string ::
      (id in table <==> Rank(headers, id).Some?) && (id in table ==> Rank(headers, id) == Some(table[id]))
  }

  method RankTable(headers: seq<string>) returns (table: map<string, nat>)
    ensures Ranks(table, headers)
  {
    table := map[];
    for i := 0 to |headers|
      invariant Ranks(table, headers[..i])
    {
      assert headers[..i + 1][..i] == headers[..i];
      table := table[headers[i] := i];
    }
    assert headers[..|headers|] == headers;
  }

  function Ordered(bubbles: seq<Bubble>, headers: seq<string>): seq<Bubble> {
    Sorting.SortBy(bubbles, Comparator(headers))
  }

  /** `order_bubbles`: sorts the array in place by rank, creation time and id. */
  method OrderBubbles(a: array<Bubble>, headers: seq<string>)
    modifies a
    ensures a[..] == Ordered(old(a[..]), headers)
  {
    var table := RankTable(headers);
    var leq := (x: Bubble, y: Bubble) =>
      var rx := if x.id in table then table[x.id] else |headers|;
      var ry := if y.id in table then table[y.id] else |headers|;
      rx < ry || (rx == ry &&
        if CreatedAt(x) != CreatedAt(y) then LexLeq(CreatedAt(x), CreatedAt(y)) else LexLeq(x.id, y.id));
    var sorted := Sorting.SortBy(a[..], leq);
    assert forall x, y :: leq(x, y) == Comparator(headers)(x, y);
    SameSort(a[..], leq, Comparator(headers));
    Sorting.SortPermutes(a[..], leq);
    forall i | 0 <= i < a.Length {
      a[i] := sorted[i];
    }
  }

  lemma {:induction false} SameSort<T(!new)>(s: seq<T>, f: (T, T) -> bool, g: (T, T) -> bool)
    requires forall x, y :: f(x, y) == g(x, y)
    ensures Sorting.SortBy(s, f) == Sorting.SortBy(s, g)
  {
    if s != [] {
      SameSort(s[1..], f, g);
      SameInsert(s[0], Sorting.SortBy(s[1..], f), f, g);
    }
  }

  lemma {:induction false} SameInsert<T(!new)>(x: T, s: seq<T>, f: (T, T) -> bool, g: (T, T) -> bool)
    requires forall x, y :: f(x, y) == g(x, y)
    ensures Sorting.Insert(x, s, f) == Sorting.Insert(x, s, g)
  {
    if s != [] {
      SameInsert(x, s[1..], f, g);
    }
  }

  /** The ordered bubbles are the same bubbles, named ones first and in header order. */
  lemma {:induction false} OrderedMeaning(bubbles: seq<Bubble>, headers: seq<string>)
    ensures var r := Ordered(bubbles, headers);
      && multiset(r) == multiset(bubbles)
      && forall i, j | 0 <= i < j < |r| && r[j].id in headers ::
        r[i].id in headers && RankKey(headers, r[i]) <= RankKey(headers, r[j])
  {
    var r := Ordered(bubbles, headers);
    BeforeIsOrder(headers);
    Sorting.SortPermutes(bubbles, Comparator(headers));
    Sorting.SortSorts(bubbles, Comparator(headers));
    forall i, j | 0 <= i < j < |r| && r[j].id in headers
      ensures r[i].id in headers && RankKey(headers, r[i]) <= RankKey(headers, r[j])
    {
      RankBounded(headers, r[i].id);
      RankBounded(headers, r[j].id);
      assert Comparator(headers)(r[i], r[j]);
    }
  }

  // ---- Row order makes no difference ------------------------------------------------------

  /** The key column is unique. */
  ghost predicate KeysUnique(rows: seq<Row>) {
    forall r, q | r in rows && q in rows && r.key == q.key :: r == q
  }

  lemma BubblesPermute(h: Host, prefix: string, a: seq<Row>, b: seq<Row>)
    requires multiset(a) == multiset(b)
    ensures multiset(Bubbles(h, prefix, a)) == multiset(Bubbles(h, prefix, b))
  {
    var f := (r: Row) => BubbleOf(h, prefix, r);
    Permutations.MappedPermutes(f, a, b);
    assert Bubbles(h, prefix, a) == Permutations.Mapped(f, a);
    assert Bubbles(h, prefix, b) == Permutations.Mapped(f, b);
  }

  lemma BubblesDistinct(h: Host, rows: seq<Row>, headers: seq<string>, prefix: string)
    requires KeysUnique(rows)
    ensures Sorting.NoTies(Bubbles(h, prefix, RowsWithPrefix(rows, prefix)), Comparator(headers))
  {
    var found := RowsWithPrefix(rows, prefix);
    var bubbles := Bubbles(h, prefix, found);
    forall x, y | x in bubbles && y in bubbles && Comparator(headers)(x, y) && Comparator(headers)(y, x)
      ensures x == y
    {
      TiedSameId(headers, x, y);
      SameIdSameBubble(h, rows, prefix, x, y);
    }
  }

  lemma SameIdSameBubble(h: Host, rows: seq<Row>, prefix: string, x: Bubble, y: Bubble)
    requires KeysUnique(rows) && x.id == y.id
    requires x in Bubbles(h, prefix, RowsWithPrefix(rows, prefix))
    requires y in Bubbles(h, prefix, RowsWithPrefix(rows, prefix))
    ensures x == y
  {
    var found := RowsWithPrefix(rows, prefix);
    var bubbles := Bubbles(h, prefix, found);
    Permutations.KeptMeaning(HasPrefix(prefix), rows);
    var i :| 0 <= i < |bubbles| && bubbles[i] == x;
    var j :| 0 <= j < |bubbles| && bubbles[j] == y;
    assert found[i] in found && found[j] in found;
    assert found[i].key == prefix + x.id && found[j].key == prefix + y.id;
  }

  /** A composer's bubbles come out in one order, whatever order the table's rows are in. */
  lemma {:induction false} OrderIndependent(h: Host, a: seq<Row>, b: seq<Row>, composerId: string, headers: seq<string>)
    requires multiset(a) == multiset(b) && KeysUnique(a)
    ensures var prefix := BubblePrefix(composerId);
      Ordered(Bubbles(h, prefix, RowsWithPrefix(a, prefix)), headers)
      == Ordered(Bubbles(h, prefix, RowsWithPrefix(b, prefix)), headers)
  {
    var prefix := BubblePrefix(composerId);
    Permutations.KeptPermutes(HasPrefix(prefix), a, b);
    BubblesPermute(h, prefix, RowsWithPrefix(a, prefix), RowsWithPrefix(b, prefix));
    BubblesDistinct(h, a, headers, prefix);
    BeforeIsOrder(headers);
    Sorting.SortCanonical(Bubbles(h, prefix, RowsWithPrefix(a, prefix)), Bubbles(h, prefix, RowsWithPrefix(b, prefix)),
                          Comparator(headers));
  }
}
