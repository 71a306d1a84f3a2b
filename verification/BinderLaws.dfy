/** What the binder promises: exactness of the choice, order independence, sane correlations. */
module BinderLaws {
  import opened Wrappers
  import opened Nodes
  import opened Contingency
  import opened Binder
  import Text
  import Sorting
  import Permutations

  // ---- The choice ------------------------------------------------------------

  /** The cap of 1800 whole seconds admits every gap below 1801 seconds. */
  lemma {:induction false} GapWindow(d: Decision, e: Episode)
    requires d.sessionId == e.sessionId && d.record.supersededBy.None?
    ensures Governs(d, e) <==> 0 <= e.timestamp - d.timestamp < 1801 * NANOS_PER_SECOND
  {
  }

  /** The scan ends with a latest governing decision, or with none when none governs. */
  lemma {:induction false} BestIsLatest(decs: seq<Decision>, e: Episode)
    ensures IsLatest(decs, e, Best(decs, e))
  {
    if decs == [] {
    } else {
      var init, d := decs[..|decs| - 1], decs[|decs| - 1];
      assert decs == init + [d];
      BestIsLatest(init, e);
    }
  }

  /** Live decisions of one session never tie on (timestamp, turn_seq). */
  ghost predicate DistinctKeys(decs: seq<Decision>) {
    forall a, b | a in decs && b in decs && a.record.supersededBy.None? && b.record.supersededBy.None?
      && a.sessionId == b.sessionId && a.timestamp == b.timestamp && a.turnSeq == b.turnSeq :: a == b
  }

  lemma LatestUnique(decs: seq<Decision>, e: Episode, r: Option<Decision>, s: Option<Decision>)
    requires DistinctKeys(decs)
    requires IsLatest(decs, e, r) && IsLatest(decs, e, s)
    ensures r == s
  {
    if r.Some? && s.Some? {
      assert !Later(r.value, s.value) && !Later(s.value, r.value);
    }
  }

  lemma {:induction false} BestOrderFree(decs: seq<Decision>, decs': seq<Decision>, e: Episode)
    requires multiset(decs) == multiset(decs') && DistinctKeys(decs)
    ensures Best(decs, e) == Best(decs', e)
  {
    BestIsLatest(decs, e);
    BestIsLatest(decs', e);
    forall d ensures d in decs <==> d in decs' {
      assert d in multiset(decs) <==> d in multiset(decs');
    }
    LatestUnique(decs, e, Best(decs, e), Best(decs', e));
  }

  /** No two different decisions are both latest for the episode. */
  ghost predicate UniqueLatest(decs: seq<Decision>, e: Episode) {
    forall a, b | IsLatest(decs, e, Some(a)) && IsLatest(decs, e, Some(b)) :: a == b
  }

  /** Among tied latest decisions the one scanned first is kept. */
  lemma {:induction false} FirstLatestWins(a: Decision, rest: seq<Decision>, e: Episode)
    requires Governs(a, e) && forall d | d in rest && Governs(d, e) :: !Later(d, a)
    ensures Best([a] + rest, e) == Some(a)
  {
    var all := [a] + rest;
    if rest == [] {
      assert all[..0] == [];
      assert Best(all[..0], e) == None;
    } else {
      var n := |rest| - 1;
      FirstLatestWins(a, rest[..n], e);
      assert all[..n + 1] == [a] + rest[..n];
      assert rest[n] in rest;
    }
  }

  lemma LatestToFront(decs: seq<Decision>, e: Episode, a: Decision) returns (front: seq<Decision>)
    requires IsLatest(decs, e, Some(a))
    ensures multiset(front) == multiset(decs) && Best(front, e) == Some(a)
  {
    var k :| 0 <= k < |decs| && decs[k] == a;
    var rest := Permutations.Without(decs, k);
    Permutations.SplitAt(decs, k);
    forall d | d in rest ensures d in decs {
    }
    FirstLatestWins(a, rest, e);
    front := [a] + rest;
  }

  ghost predicate SameChoice(decs: seq<Decision>, decs': seq<Decision>, e: Episode) {
    multiset(decs) == multiset(decs') ==> Best(decs', e) == Best(decs, e)
  }

  /**
   The choice is independent of the scan order exactly when no two different
   decisions tie for latest; on a tie the one scanned first is taken.
   */
  lemma {:induction false} ChoiceOrderFreeExactly(decs: seq<Decision>, e: Episode)
    ensures (forall decs' :: SameChoice(decs, decs', e)) <==> UniqueLatest(decs, e)
  {
    if UniqueLatest(decs, e) {
      forall decs' ensures SameChoice(decs, decs', e) {
        BestIsLatest(decs, e);
        BestIsLatest(decs', e);
        if multiset(decs) == multiset(decs') {
          forall d ensures d in decs <==> d in decs' {
            assert d in multiset(decs) <==> d in multiset(decs');
          }
        }
      }
    }
    if forall decs' :: SameChoice(decs, decs', e) {
      forall a, b | IsLatest(decs, e, Some(a)) && IsLatest(decs, e, Some(b)) ensures a == b {
        var x := LatestToFront(decs, e, a);
        var y := LatestToFront(decs, e, b);
        assert SameChoice(decs, x, e) && SameChoice(decs, y, e);
      }
    }
  }

  // ---- A tie ------------------------------------------------------------

  function TiedDecision(id: string): Decision {
    Decision(DecisionRecord("use it", [], false, None, 0, 1, Observed, 0, None, FromConversation), id, 0, 0, "s")
  }

  const TIED_EPISODE: Episode := Episode(CodeEpisode("a.rs", None, "e"), "episode:e", 1, 1, "s")

  /** Two decisions at one time and turn: whichever is scanned first governs the edit. */
  lemma {:induction false} TieFollowsScanOrder()
    ensures var x, y := TiedDecision("x"), TiedDecision("y");
      && Best([x, y], TIED_EPISODE) == Some(x) && Best([y, x], TIED_EPISODE) == Some(y)
      && multiset([x, y]) == multiset([y, x]) && !UniqueLatest([x, y], TIED_EPISODE)
  {
    var x, y := TiedDecision("x"), TiedDecision("y");
    FirstLatestWins(x, [y], TIED_EPISODE);
    FirstLatestWins(y, [x], TIED_EPISODE);
    assert [x] + [y] == [x, y] && [y] + [x] == [y, x];
    assert SameBag(x, y);
    assert IsLatest([x, y], TIED_EPISODE, Some(x)) && IsLatest([x, y], TIED_EPISODE, Some(y));
    assert x.nodeId != y.nodeId;
  }

  predicate SameBag(x: Decision, y: Decision) {
    multiset([x, y]) == multiset([y, x])
  }

  // ---- Bonds ------------------------------------------------------------

  lemma {:induction false} BondsConcat(decs: seq<Decision>, a: seq<Episode>, b: seq<Episode>)
    ensures Bonds(decs, a + b) == Bonds(decs, a) + Bonds(decs, b)
  {
    if b == [] {
      assert a + b == a;
    } else {
      assert (a + b)[..|a + b| - 1] == a + b[..|b| - 1];
      BondsConcat(decs, a, b[..|b| - 1]);
    }
  }

  lemma {:induction false} BondsSound(decs: seq<Decision>, eps: seq<Episode>)
    ensures forall b | b in Bonds(decs, eps) ::
      b.episode in eps && Best(decs, b.episode) == Some(b.decision)
  {
    if eps != [] {
      BondsSound(decs, eps[..|eps| - 1]);
      assert eps == eps[..|eps| - 1] + [eps[|eps| - 1]];
    }
  }

  lemma {:induction false} BondsSameChoice(decs: seq<Decision>, decs': seq<Decision>, eps: seq<Episode>)
    requires forall e | e in eps :: Best(decs, e) == Best(decs', e)
    ensures Bonds(decs, eps) == Bonds(decs', eps)
  {
    if eps != [] {
      BondsSameChoice(decs, decs', eps[..|eps| - 1]);
    }
  }

  lemma BondsCommute(decs: seq<Decision>, s: seq<Episode>, k: nat)
    requires k < |s|
    ensures multiset(Bonds(decs, s)) == multiset(Bonds(decs, [s[k]] + Permutations.Without(s, k)))
  {
    assert s == s[..k] + ([s[k]] + s[k + 1..]);
    BondsConcat(decs, s[..k], [s[k]] + s[k + 1..]);
    BondsConcat(decs, [s[k]], s[k + 1..]);
    BondsConcat(decs, [s[k]], s[..k] + s[k + 1..]);
    BondsConcat(decs, s[..k], s[k + 1..]);
  }

  lemma BondsPermute(decs: seq<Decision>, a: seq<Episode>, b: seq<Episode>)
    requires multiset(a) == multiset(b)
    ensures multiset(Bonds(decs, a)) == multiset(Bonds(decs, b))
  {
    var f := (s: seq<Episode>) => multiset(Bonds(decs, s));
    forall s: seq<Episode>, k: nat | k < |s| ensures f(s) == f([s[k]] + Permutations.Without(s, k)) {
      BondsCommute(decs, s, k);
    }
    forall t: Episode, u: seq<Episode>, v: seq<Episode> | f(u) == f(v) ensures f([t] + u) == f([t] + v) {
      BondsConcat(decs, [t], u);
      BondsConcat(decs, [t], v);
    }
    Permutations.OrderFree(f, a, b);
  }

  // ---- The table ------------------------------------------------------------

  function BoundOn(arcs: seq<Arc>, path: seq<string>): nat {
    Permutations.Count(arcs, OnPath(path))
  }

  function OnPath(path: seq<string>): Arc -> bool {
    (a: Arc) => a.path == path
  }

  /**
   The four counts partition the batch: the first is the number of arcs equal to
   `own`, the row is what its decision bound, the column what touched its path.
   */
  lemma {:induction false} TallyCounts(arcs: seq<Arc>, own: Arc)
    ensures var t := Tally(arcs, own);
      && t.Total() == |arcs|
      && t.n11 == multiset(arcs)[own]
      && t.Row1() == BoundBy(arcs, own.decision)
      && t.Col1() == BoundOn(arcs, own.path)
  {
    TallyTotal(arcs, own);
    TallyRow(arcs, own);
    TallyColumn(arcs, own);
    TallyOwn(arcs, own);
  }

  lemma {:induction false} TallyTotal(arcs: seq<Arc>, own: Arc)
    ensures Tally(arcs, own).Total() == |arcs|
  {
    if arcs != [] {
      TallyTotal(arcs[..|arcs| - 1], own);
    }
  }

  lemma {:induction false} TallyRow(arcs: seq<Arc>, own: Arc)
    ensures Tally(arcs, own).Row1() == BoundBy(arcs, own.decision)
  {
    if arcs != [] {
      TallyRow(arcs[..|arcs| - 1], own);
    }
  }

  lemma {:induction false} TallyColumn(arcs: seq<Arc>, own: Arc)
    ensures Tally(arcs, own).Col1() == BoundOn(arcs, own.path)
  {
    if arcs != [] {
      TallyColumn(arcs[..|arcs| - 1], own);
    }
  }

  lemma {:induction false} TallyOwn(arcs: seq<Arc>, own: Arc)
    ensures Tally(arcs, own).n11 == multiset(arcs)[own]
  {
    if arcs != [] {
      var init, a := arcs[..|arcs| - 1], arcs[|arcs| - 1];
      TallyOwn(init, own);
      assert arcs == init + [a];
      assert multiset(arcs) == multiset(init) + multiset{a};
      assert a == own <==> a.decision == own.decision && a.path == own.path;
    }
  }

  /** Correlations depend on the batch only as a bag of arcs. */
  lemma {:induction false} CorrelationOrderFree(a: seq<Arc>, b: seq<Arc>, own: Arc)
    requires multiset(a) == multiset(b)
    ensures CorrelationOf(a, own) == CorrelationOf(b, own)
  {
    Permutations.CountOrderFree(a, b, OfDecision(own.decision));
    Permutations.CountOrderFree(a, b, OnPath(own.path));
    TallyCounts(a, own);
    TallyCounts(b, own);
    assert |a| == |multiset(a)| == |multiset(b)| == |b|;
    assert Tally(a, own) == Tally(b, own);
  }

  /**
   Every correlation an edge carries is that of a table which counts the edge's own
   arc and at least two arcs of its decision, over all arcs of the batch; so
   `Contingency.CorrelationFields` applies to it.
   */
  lemma {:induction false} CorrelationSane(arcs: seq<Arc>, own: Arc)
    requires own in arcs && BoundBy(arcs, own.decision) >= MIN_CORRELATION_SUPPORT
    ensures var t := Tally(arcs, own);
      && CorrelationOf(arcs, own) == Some(ToCorrelation(t, t.Total()))
      && t.n11 >= 1 && t.Row1() >= MIN_CORRELATION_SUPPORT && t.Total() == |arcs|
  {
    TallyCounts(arcs, own);
    assert own in multiset(arcs);
  }

  // ---- The edges ------------------------------------------------------------

  lemma EdgeOrder()
    ensures Sorting.TotalPreorder(EdgeLeq)
  {
    forall a: Edge, b: Edge ensures EdgeLeq(a, b) || EdgeLeq(b, a) {
      Text.LexTotal(a.from, b.from);
      Text.LexTotal(a.to, b.to);
    }
    forall a: Edge, b: Edge, c: Edge | EdgeLeq(a, b) && EdgeLeq(b, c) ensures EdgeLeq(a, c) {
      EdgeLeqTransitive(a, b, c);
    }
  }

  lemma EdgeLeqTransitive(a: Edge, b: Edge, c: Edge)
    requires EdgeLeq(a, b) && EdgeLeq(b, c)
    ensures EdgeLeq(a, c)
  {
    if a.from == b.from == c.from {
      Text.LexTransitive(a.to, b.to, c.to);
    } else {
      Text.LexTotal(a.from, a.from);
      Text.LexTotal(b.from, b.from);
      Text.LexTransitive(a.from, b.from, c.from);
      if a.from == c.from {
        Text.LexAntisymmetric(a.from, b.from);
      }
    }
  }

  lemma EdgeLeqAntisymmetric(a: Edge, b: Edge)
    requires EdgeLeq(a, b) && EdgeLeq(b, a)
    ensures a.from == b.from && a.to == b.to
  {
    if a.from == b.from {
      Text.LexAntisymmetric(a.to, b.to);
    } else {
      Text.LexAntisymmetric(a.from, b.from);
    }
  }

  function PointsTo(id: string): Edge -> bool {
    (x: Edge) => x.to == id
  }

  predicate Governed(decs: seq<Decision>, e: Episode) {
    exists d | d in decs :: Governs(d, e)
  }

  function GovernedNode(decs: seq<Decision>, id: string): Episode -> bool {
    (e: Episode) => e.nodeId == id && Governed(decs, e)
  }

  lemma {:induction false} BondsCount(decs: seq<Decision>, eps: seq<Episode>, arcs: seq<Arc>, id: string)
    ensures Permutations.Count(FullEdges(Bonds(decs, eps), arcs), PointsTo(id))
         == Permutations.Count(eps, GovernedNode(decs, id))
  {
    if eps != [] {
      var init, e := eps[..|eps| - 1], eps[|eps| - 1];
      BondsCount(decs, init, arcs, id);
      BestIsLatest(decs, e);
      var bonds, best := Bonds(decs, init), Best(decs, e);
      if best.Some? {
        EdgesSnoc(bonds, Bond(best.value, e), arcs, id);
        assert Bonds(decs, eps) == bonds + [Bond(best.value, e)];
      } else {
        assert Bonds(decs, eps) == bonds + [] == bonds;
      }
    }
  }

  lemma EdgesSnoc(bonds: seq<Bond>, b: Bond, arcs: seq<Arc>, id: string)
    ensures Permutations.Count(FullEdges(bonds + [b], arcs), PointsTo(id))
         == Permutations.Count(FullEdges(bonds, arcs), PointsTo(id)) + if b.episode.nodeId == id then 1 else 0
  {
    var after := FullEdges(bonds + [b], arcs);
    assert after[..|after| - 1] == FullEdges(bonds, arcs);
  }

  /**
   For every node id, the edges into it number the episodes of that id that some
   live decision of the same session precedes by less than 1801 seconds: with
   distinct episode ids, exactly one edge when there is such a decision, else none.
   */
  lemma {:induction false} EdgeCountExact(decs: seq<Decision>, eps: seq<Episode>, id: string)
    ensures Permutations.Count(BindSpec(decs, eps), PointsTo(id))
         == Permutations.Count(eps, GovernedNode(decs, id))
  {
    var bonds := Bonds(decs, eps);
    var unsorted := FullEdges(bonds, Arcs(bonds));
    BondsCount(decs, eps, Arcs(bonds), id);
    Sorting.SortPermutes(unsorted, EdgeLeq);
    Permutations.CountOrderFree(BindSpec(decs, eps), unsorted, PointsTo(id));
  }

  /** `x` is the edge of the bond `b`, carrying the tuple of b's own decision and path. */
  ghost predicate IsEdgeOf(x: Edge, b: Bond, decs: seq<Decision>, eps: seq<Episode>) {
    var arcs := Arcs(Bonds(decs, eps));
    && b in Bonds(decs, eps) && b.episode in eps
    && IsLatest(decs, b.episode, Some(b.decision))
    && x == PlainEdge(b).(correlation := CorrelationOf(arcs, b.ToArc()))
    && b.ToArc() in arcs
    && (x.correlation.Some? <==> BoundBy(arcs, b.decision.nodeId) >= 2)
  }

  lemma {:induction false} BondMakesEdge(decs: seq<Decision>, eps: seq<Episode>, i: nat)
    requires i < |Bonds(decs, eps)|
    ensures var bonds := Bonds(decs, eps); IsEdgeOf(FullEdge(bonds[i], Arcs(bonds)), bonds[i], decs, eps)
  {
    var bonds := Bonds(decs, eps);
    BondsSound(decs, eps);
    BestIsLatest(decs, bonds[i].episode);
    assert Arcs(bonds)[i] == bonds[i].ToArc();
  }

  /** After the sort, every edge still belongs to a bond of the batch and the list is ordered. */
  lemma {:induction false} EdgesExact(decs: seq<Decision>, eps: seq<Episode>)
    ensures forall x | x in BindSpec(decs, eps) :: exists b :: IsEdgeOf(x, b, decs, eps)
    ensures Sorting.Sorted(BindSpec(decs, eps), EdgeLeq)
  {
    var bonds := Bonds(decs, eps);
    var unsorted := FullEdges(bonds, Arcs(bonds));
    EdgeOrder();
    Sorting.SortSorts(unsorted, EdgeLeq);
    Sorting.SortPermutes(unsorted, EdgeLeq);
    forall x | x in BindSpec(decs, eps) ensures exists b :: IsEdgeOf(x, b, decs, eps) {
      assert x in multiset(unsorted);
      var i :| 0 <= i < |bonds| && x == FullEdge(bonds[i], Arcs(bonds));
      BondMakesEdge(decs, eps, i);
    }
  }

  /** Every edge satisfies the temporal invariant within one session. */
  lemma {:induction false} EdgesTemporal(decs: seq<Decision>, eps: seq<Episode>)
    ensures forall x | x in BindSpec(decs, eps) ::
      && x.prov.usedSession == x.prov.generatedBySession && x.prov.usedDecision == Some(x.from)
      && 0 <= x.prov.tGen - x.prov.tUse < 1801 * NANOS_PER_SECOND
  {
    EdgesExact(decs, eps);
    forall x | x in BindSpec(decs, eps) ensures
      && x.prov.usedSession == x.prov.generatedBySession && x.prov.usedDecision == Some(x.from)
      && 0 <= x.prov.tGen - x.prov.tUse < 1801 * NANOS_PER_SECOND
    {
      var b :| IsEdgeOf(x, b, decs, eps);
      GapWindow(b.decision, b.episode);
    }
  }

  /** A node id stands for one episode. */
  ghost predicate DistinctNodes(eps: seq<Episode>) {
    forall a, b | a in eps && b in eps && a.nodeId == b.nodeId :: a == b
  }

  lemma FullEdgesPermute(a: seq<Bond>, b: seq<Bond>, arcs: seq<Arc>)
    requires multiset(a) == multiset(b)
    ensures multiset(FullEdges(a, arcs)) == multiset(FullEdges(b, arcs))
  {
    var f := (x: Bond) => FullEdge(x, arcs);
    Permutations.MappedPermutes(f, a, b);
    assert FullEdges(a, arcs) == Permutations.Mapped(f, a);
    assert FullEdges(b, arcs) == Permutations.Mapped(f, b);
  }

  lemma ArcsPermute(a: seq<Bond>, b: seq<Bond>)
    requires multiset(a) == multiset(b)
    ensures multiset(Arcs(a)) == multiset(Arcs(b))
  {
    var f := (x: Bond) => x.ToArc();
    Permutations.MappedPermutes(f, a, b);
    assert Arcs(a) == Permutations.Mapped(f, a);
    assert Arcs(b) == Permutations.Mapped(f, b);
  }

  lemma {:induction false} EdgesDoNotTie(decs: seq<Decision>, eps: seq<Episode>, arcs: seq<Arc>)
    requires DistinctNodes(eps)
    ensures Sorting.NoTies(FullEdges(Bonds(decs, eps), arcs), EdgeLeq)
  {
    var bonds := Bonds(decs, eps);
    var edges := FullEdges(bonds, arcs);
    BondsSound(decs, eps);
    forall x, y | x in edges && y in edges && EdgeLeq(x, y) && EdgeLeq(y, x) ensures x == y {
      EdgeLeqAntisymmetric(x, y);
      var i :| 0 <= i < |edges| && edges[i] == x;
      var j :| 0 <= j < |edges| && edges[j] == y;
      assert bonds[i] in bonds && bonds[j] in bonds;
      assert bonds[i].episode == bonds[j].episode;
      assert bonds[i] == bonds[j];
    }
  }

  lemma {:induction false} SameCorrelations(bonds: seq<Bond>, a: seq<Arc>, b: seq<Arc>)
    requires multiset(a) == multiset(b)
    ensures FullEdges(bonds, a) == FullEdges(bonds, b)
  {
    forall i | 0 <= i < |bonds| ensures FullEdge(bonds[i], a) == FullEdge(bonds[i], b) {
      CorrelationOrderFree(a, b, bonds[i].ToArc());
    }
  }

  /**
   Permuting the decisions and the episodes leaves the returned edges, with their
   order and correlations, unchanged, when live decisions of a session differ in
   (timestamp, turn_seq) and an episode node id names one episode.
   */
  lemma {:induction false} BindOrderFree(
      decs: seq<Decision>, decs': seq<Decision>, eps: seq<Episode>, eps': seq<Episode>)
    requires multiset(decs) == multiset(decs') && multiset(eps) == multiset(eps')
    requires DistinctKeys(decs) && DistinctNodes(eps)
    ensures BindSpec(decs, eps) == BindSpec(decs', eps')
  {
    var bonds, bonds' := Bonds(decs, eps), Bonds(decs', eps');
    assert multiset(bonds) == multiset(bonds') by {
      forall e | e in eps' ensures Best(decs, e) == Best(decs', e) {
        BestOrderFree(decs, decs', e);
      }
      BondsSameChoice(decs, decs', eps');
      BondsPermute(decs, eps, eps');
    }
    ArcsPermute(bonds, bonds');
    FullEdgesPermute(bonds, bonds', Arcs(bonds));
    SameCorrelations(bonds', Arcs(bonds), Arcs(bonds'));
    EdgesDoNotTie(decs, eps, Arcs(bonds));
    EdgeOrder();
    Sorting.SortCanonical(FullEdges(bonds, Arcs(bonds)), FullEdges(bonds', Arcs(bonds')), EdgeLeq);
  }
}
