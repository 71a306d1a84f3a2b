/** Reading a whole Cursor store: composers in id order, each with its own bubbles. */
module CursorReader {
  import opened Wrappers
  import opened Json
  import opened Events
  import opened Text
  import opened CursorStore
  import Permutations
  import Sorting
  import Ties

  /** What becomes one record: a composer's header, or one of its bubbles. */
  datatype Item =
    | Header(composerId: string, name: Option<string>, startedAt: int)
    | Message(composerId: string, bubble: Bubble)

  const COMPOSER_STEM: string := "composerData"

  // ---- Composers ------------------------------------------------------------

  function HeaderIds(headers: seq<Value>): seq<string> {
    if headers == [] then []
    else
      var n := |headers| - 1;
      var id := StrField(headers[n], "bubbleId");
      if id.Some? then HeaderIds(headers[..n]) + [id.value] else HeaderIds(headers[..n])
  }

  /** A row without a readable, non-empty composer id is passed over. */
  function ComposerOf(h: Host, row: Row): Option<Composer> {
    var v := h.fromJson(row.value).GetOr(Null);
    var id, name := StrField(v, "composerId").GetOr(""), StrField(v, "name").GetOr("");
    if id == "" then None
    else Some(Composer(id, if name in {"", "None"} then None else Some(name), AsI64(Get(v, "createdAt")),
                       HeaderIds(AsArray(Get(v, "fullConversationHeadersOnly")).GetOr([]))))
  }

  function Composers(h: Host, rows: seq<Row>): seq<Composer> {
    if rows == [] then []
    else
      var rest, c := Composers(h, rows[1..]), ComposerOf(h, rows[0]);
      if c.Some? then [c.value] + rest else rest
  }

  function AllComposers(h: Host, rows: seq<Row>): seq<Composer> {
    Composers(h, RowsWithPrefix(rows, COMPOSER_STEM + [COLON]))
  }

  lemma ComposerStep(h: Host, rows: seq<Row>, i: nat, out: seq<Composer>)
    requires i < |rows|
    ensures out + Composers(h, rows[i..])
      == (if ComposerOf(h, rows[i]).Some? then out + [ComposerOf(h, rows[i]).value] else out)
         + Composers(h, rows[i + 1..])
  {
    assert rows[i..][0] == rows[i] && rows[i..][1..] == rows[i + 1..];
  }

  /** `load_composers` */
  method LoadComposers(h: Host, rows: seq<Row>) returns (out: seq<Composer>)
    ensures out == AllComposers(h, rows)
  {
    var found := RowsInRange(rows, COMPOSER_STEM + [COLON], COMPOSER_STEM + [SEMICOLON]);
    LookupIsScan(rows, COMPOSER_STEM);
    out := [];
    ghost var goal := Composers(h, found);
    assert out + goal == goal;
    for i := 0 to |found|
      invariant goal == out + Composers(h, found[i..])
    {
      ComposerStep(h, found, i, out);
      var c := ComposerOf(h, found[i]);
      if c.Some? {
        out := out + [c.value];
      }
    }
    assert found[|found|..] == [];
    assert out + [] == out;
  }

  predicate ById(a: Composer, b: Composer) {
    LexLeq(a.id, b.id)
  }

  // ---- The store ------------------------------------------------------------

  /** A composer's bubbles in their order. */
  function BubblesOf(h: Host, rows: seq<Row>, c: Composer): seq<Bubble> {
    Ordered(Bubbles(h, BubblePrefix(c.id), RowsWithPrefix(rows, BubblePrefix(c.id))), c.headers)
  }

  function Messages(composerId: string, bubbles: seq<Bubble>): seq<Item> {
    seq(|bubbles|, i requires 0 <= i < |bubbles| => Message(composerId, bubbles[i]))
  }

  /** What the header record shows of a composer: the epoch when no start is readable. */
  function HeaderOf(h: Host, c: Composer): Item {
    Header(c.id, c.name, if c.createdAt.Some? then h.parseTs(SignedText(c.createdAt.value)).GetOr(0) else 0)
  }

  function ComposerItems(h: Host, rows: seq<Row>, c: Composer): seq<Item> {
    [HeaderOf(h, c)] + Messages(c.id, BubblesOf(h, rows, c))
  }

  function Items(h: Host, rows: seq<Row>, composers: seq<Composer>): seq<Item> {
    if composers == [] then [] else ComposerItems(h, rows, composers[0]) + Items(h, rows, composers[1..])
  }

  /** All items of a store, composer after composer. */
  function StoreItems(h: Host, rows: seq<Row>): seq<Item> {
    Items(h, rows, Sorting.SortBy(AllComposers(h, rows), ById))
  }

  lemma ItemsStep(h: Host, rows: seq<Row>, composers: seq<Composer>, i: nat, items: seq<Item>)
    requires i < |composers|
    ensures items + Items(h, rows, composers[i..])
      == items + ComposerItems(h, rows, composers[i]) + Items(h, rows, composers[i + 1..])
  {
    assert composers[i..][0] == composers[i] && composers[i..][1..] == composers[i + 1..];
  }

  method ReadComposer(h: Host, rows: seq<Row>, c: Composer) returns (items: seq<Item>)
    ensures items == ComposerItems(h, rows, c)
  {
    var loaded := LoadBubbles(h, rows, c.id);
    var bubbles := new Bubble[|loaded|](i requires 0 <= i < |loaded| => loaded[i]);
    assert bubbles[..] == loaded;
    OrderBubbles(bubbles, c.headers);
    items := [HeaderOf(h, c)];
    for k := 0 to bubbles.Length
      invariant items == [HeaderOf(h, c)] + Messages(c.id, bubbles[..k])
    {
      assert bubbles[..k + 1] == bubbles[..k] + [bubbles[k]];
      items := items + [Message(c.id, bubbles[k])];
    }
    assert bubbles[..bubbles.Length] == bubbles[..];
  }

  /** `read_vscdb`, before records are written out. */
  method ReadStore(h: Host, rows: seq<Row>) returns (items: seq<Item>)
    ensures items == StoreItems(h, rows)
  {
    var loaded := LoadComposers(h, rows);
    var composers := Sorting.SortBy(loaded, ById);
    items := [];
    ghost var goal := Items(h, rows, composers);
    assert items + goal == goal;
    for i := 0 to |composers|
      invariant goal == items + Items(h, rows, composers[i..])
    {
      ItemsStep(h, rows, composers, i, items);
      var more := ReadComposer(h, rows, composers[i]);
      items := items + more;
    }
    assert composers[|composers|..] == [];
    assert items + [] == items;
  }

  // ---- Row order makes no difference ------------------------------------------------------

  lemma {:induction false} ComposersConcat(h: Host, a: seq<Row>, b: seq<Row>)
    ensures Composers(h, a + b) == Composers(h, a) + Composers(h, b)
  {
    if a == [] {
      assert a + b == b;
    } else {
      assert (a + b)[1..] == a[1..] + b;
      ComposersConcat(h, a[1..], b);
    }
  }

  lemma {:induction false} ComposersPermute(h: Host, a: seq<Row>, b: seq<Row>)
    requires multiset(a) == multiset(b)
    ensures multiset(Composers(h, a)) == multiset(Composers(h, b))
  {
    if a == [] {
      assert |b| == |multiset(b)| == 0;
    } else {
      var k := Permutations.MatchHead(a, b);
      ComposersPermute(h, a[1..], Permutations.Without(b, k));
      Permutations.SplitAt(b, k);
      ComposersConcat(h, b[..k], [b[k]] + b[k + 1..]);
      ComposersConcat(h, [b[k]], b[k + 1..]);
      ComposersConcat(h, b[..k], b[k + 1..]);
      ComposersConcat(h, [a[0]], a[1..]);
      assert a == [a[0]] + a[1..];
    }
  }

  /** No two composers carry one id. */
  ghost predicate DistinctIds(composers: seq<Composer>) {
    forall x, y | x in composers && y in composers && x.id == y.id :: x == y
  }

  lemma ByIdIsOrder()
    ensures Sorting.TotalPreorder(ById)
  {
    forall a: Composer, b: Composer ensures ById(a, b) || ById(b, a) {
      LexTotal(a.id, b.id);
    }
    forall a: Composer, b: Composer, c: Composer | ById(a, b) && ById(b, c) ensures ById(a, c) {
      LexTransitive(a.id, b.id, c.id);
    }
  }

  lemma DistinctNoTies(composers: seq<Composer>)
    requires DistinctIds(composers)
    ensures Sorting.NoTies(composers, ById)
  {
    forall x, y | x in composers && y in composers && ById(x, y) && ById(y, x) ensures x == y {
      LexAntisymmetric(x.id, y.id);
    }
  }

  lemma {:induction false} ItemsPermute(h: Host, a: seq<Row>, b: seq<Row>, composers: seq<Composer>)
    requires multiset(a) == multiset(b) && KeysUnique(a)
    ensures Items(h, a, composers) == Items(h, b, composers)
  {
    if composers != [] {
      OrderIndependent(h, a, b, composers[0].id, composers[0].headers);
      ItemsPermute(h, a, b, composers[1..]);
    }
  }

  /** The records of a store depend on its rows, not on the order the table lists them in. */
  lemma {:induction false} StoreOrderFree(h: Host, a: seq<Row>, b: seq<Row>)
    requires multiset(a) == multiset(b) && KeysUnique(a) && DistinctIds(AllComposers(h, a))
    ensures StoreItems(h, a) == StoreItems(h, b)
  {
    Permutations.KeptPermutes(HasPrefix(COMPOSER_STEM + [COLON]), a, b);
    ComposersPermute(h, RowsWithPrefix(a, COMPOSER_STEM + [COLON]), RowsWithPrefix(b, COMPOSER_STEM + [COLON]));
    ByIdIsOrder();
    DistinctNoTies(AllComposers(h, a));
    Sorting.SortCanonical(AllComposers(h, a), AllComposers(h, b), ById);
    ItemsPermute(h, a, b, Sorting.SortBy(AllComposers(h, a), ById));
  }

  // ---- Composers that share an id ------------------------------------------------------------

  /** Composers with one id give the same records. */
  ghost predicate TiesAlike(h: Host, rows: seq<Row>) {
    forall x, y | x in AllComposers(h, rows) && y in AllComposers(h, rows) && x.id == y.id ::
      ComposerItems(h, rows, x) == ComposerItems(h, rows, y)
  }

  function ItemsFor(h: Host, rows: seq<Row>): Composer -> seq<Item> {
    (c: Composer) => ComposerItems(h, rows, c)
  }

  lemma {:induction false} ItemsFlat(h: Host, rows: seq<Row>, composers: seq<Composer>)
    ensures Items(h, rows, composers) == Ties.Flat(ItemsFor(h, rows), composers)
  {
    if composers != [] {
      ItemsFlat(h, rows, composers[1..]);
    }
  }

  /** Composers with one id give equally many records, one for each bubble and the header. */
  lemma SameCount(h: Host, rows: seq<Row>, x: Composer, y: Composer)
    requires x.id == y.id
    ensures |ComposerItems(h, rows, x)| == |ComposerItems(h, rows, y)|
  {
    var bubbles := Bubbles(h, BubblePrefix(x.id), RowsWithPrefix(rows, BubblePrefix(x.id)));
    Sorting.SortPermutes(bubbles, Comparator(x.headers));
    Sorting.SortPermutes(bubbles, Comparator(y.headers));
  }

  lemma ComposerHasRow(h: Host, rows: seq<Row>, c: Composer) returns (r: Row)
    requires c in AllComposers(h, rows)
    ensures r in rows && HasPrefix(COMPOSER_STEM + [COLON])(r) && ComposerOf(h, r) == Some(c)
  {
    Permutations.KeptMeaning(HasPrefix(COMPOSER_STEM + [COLON]), rows);
    r := FoundRow(h, RowsWithPrefix(rows, COMPOSER_STEM + [COLON]), c);
  }

  lemma {:induction false} FoundRow(h: Host, found: seq<Row>, c: Composer) returns (r: Row)
    requires c in Composers(h, found)
    ensures r in found && ComposerOf(h, r) == Some(c)
  {
    if ComposerOf(h, found[0]) == Some(c) {
      r := found[0];
    } else {
      r := FoundRow(h, found[1..], c);
    }
  }

  /** Two composer rows in front give their composers in front. */
  lemma FrontComposers(h: Host, r: Row, q: Row, rest: seq<Row>, x: Composer, y: Composer)
    requires HasPrefix(COMPOSER_STEM + [COLON])(r) && HasPrefix(COMPOSER_STEM + [COLON])(q)
    requires ComposerOf(h, r) == Some(x) && ComposerOf(h, q) == Some(y)
    ensures AllComposers(h, [r, q] + rest) == [x, y] + AllComposers(h, rest)
  {
    var p, found := HasPrefix(COMPOSER_STEM + [COLON]), RowsWithPrefix(rest, COMPOSER_STEM + [COLON]);
    assert ([r, q] + rest)[1..] == [q] + rest && ([q] + rest)[1..] == rest;
    assert Permutations.Kept(p, [q] + rest) == [q] + found;
    assert Permutations.Kept(p, [r, q] + rest) == [r] + ([q] + found);
    assert ([r] + ([q] + found))[1..] == [q] + found && ([q] + found)[1..] == found;
    assert Composers(h, [q] + found) == [y] + Composers(h, found);
  }

  /** Composers whose records differ, under one id: two row orders give two readings. */
  lemma TiesShow(h: Host, a: seq<Row>, x: Composer, y: Composer) returns (b: seq<Row>, c: seq<Row>)
    requires KeysUnique(a) && x in AllComposers(h, a) && y in AllComposers(h, a) && x.id == y.id
    requires ComposerItems(h, a, x) != ComposerItems(h, a, y)
    ensures multiset(b) == multiset(a) == multiset(c) && StoreItems(h, b) != StoreItems(h, c)
  {
    var r := ComposerHasRow(h, a, x);
    var q := ComposerHasRow(h, a, y);
    var rest := Ties.PullTwo(a, r, q);
    b, c := [r, q] + rest, [q, r] + rest;
    FrontComposers(h, r, q, rest, x, y);
    FrontComposers(h, q, r, rest, y, x);
    ByIdIsOrder();
    LexTotal(x.id, x.id);
    SameCount(h, a, x, y);
    Ties.SwapShows(ItemsFor(h, a), x, y, AllComposers(h, rest), ById);
    ReadAs(h, a, b);
    ReadAs(h, a, c);
  }

  lemma ReadAs(h: Host, a: seq<Row>, b: seq<Row>)
    requires multiset(a) == multiset(b) && KeysUnique(a)
    ensures StoreItems(h, b) == Ties.Flat(ItemsFor(h, a), Sorting.SortBy(AllComposers(h, b), ById))
  {
    var composers := Sorting.SortBy(AllComposers(h, b), ById);
    ItemsPermute(h, a, b, composers);
    ItemsFlat(h, a, composers);
  }

  /** The reading is independent of row order exactly when composers that share an id give the same records. */
  lemma {:induction false} RowOrderShowsExactly(h: Host, a: seq<Row>)
    requires KeysUnique(a)
    ensures (forall b | multiset(b) == multiset(a) :: StoreItems(h, b) == StoreItems(h, a)) <==> TiesAlike(h, a)
  {
    if TiesAlike(h, a) {
      forall b | multiset(b) == multiset(a) ensures StoreItems(h, b) == StoreItems(h, a) {
        AlikeHidden(h, a, b);
      }
    } else {
      var x, y :| x in AllComposers(h, a) && y in AllComposers(h, a) && x.id == y.id
        && ComposerItems(h, a, x) != ComposerItems(h, a, y);
      var b, c := TiesShow(h, a, x, y);
    }
  }

  lemma AlikeHidden(h: Host, a: seq<Row>, b: seq<Row>)
    requires KeysUnique(a) && multiset(b) == multiset(a) && TiesAlike(h, a)
    ensures StoreItems(h, b) == StoreItems(h, a)
  {
    Permutations.KeptPermutes(HasPrefix(COMPOSER_STEM + [COLON]), a, b);
    ComposersPermute(h, RowsWithPrefix(a, COMPOSER_STEM + [COLON]), RowsWithPrefix(b, COMPOSER_STEM + [COLON]));
    ByIdIsOrder();
    Ties.TiesHidden(ItemsFor(h, a), (c: Composer) => c.id, AllComposers(h, a), AllComposers(h, b), ById);
    ReadAs(h, a, a);
    ReadAs(h, a, b);
  }
}
