/**
 The binder: each episode is bound to the latest live decision of its session
 that precedes it closely enough, and every edge of a decision that bound at
 least two arcs carries the correlation of its own decision and path.
 */
module Binder {
  import opened Wrappers
  import opened Nodes
  import opened Contingency
  import Paths
  import Text
  import Sorting
  import Permutations

  const MAX_BIND_GAP_SECS: int := 1800
  const MIN_CORRELATION_SUPPORT: nat := 2
  const NANOS_PER_SECOND: int := 1_000_000_000

  /** `Duration::whole_seconds`: truncated toward zero. */
  function WholeSeconds(nanos: int): int {
    if nanos >= 0 then nanos / NANOS_PER_SECOND else -((-nanos) / NANOS_PER_SECOND)
  }

  // ---- Choosing the decision of an episode ----------------------------------

  /** The five filters of the inner loop. */
  predicate Governs(d: Decision, e: Episode) {
    && d.sessionId == e.sessionId
    && d.record.supersededBy.None?
    && d.timestamp <= e.timestamp
    && WholeSeconds(e.timestamp - d.timestamp) <= MAX_BIND_GAP_SECS
  }

  /** The lexicographic comparison of (timestamp, turn_seq). */
  predicate Later(a: Decision, b: Decision) {
    a.timestamp > b.timestamp || (a.timestamp == b.timestamp && a.turnSeq > b.turnSeq)
  }

  /** What the inner loop has chosen after scanning `decs`. */
  function Best(decs: seq<Decision>, e: Episode): Option<Decision> {
    if decs == [] then None
    else
      var best, d := Best(decs[..|decs| - 1], e), decs[|decs| - 1];
      if Governs(d, e) && (best.None? || Later(d, best.value)) then Some(d) else best
  }

  /** `r` is a latest governing decision, or there is none. */
  ghost predicate IsLatest(decs: seq<Decision>, e: Episode, r: Option<Decision>) {
    match r
    case None => forall d | d in decs :: !Governs(d, e)
    case Some(b) => b in decs && Governs(b, e) && forall d | d in decs && Governs(d, e) :: !Later(d, b)
  }

  // ---- Edges ------------------------------------------------------------

  /** A bound decision and the components of the path it touched. */
  datatype Arc = Arc(decision: string, path: seq<string>)

  datatype Bond = Bond(decision: Decision, episode: Episode) {
    function ToArc(): Arc { Arc(decision.nodeId, Paths.Components(episode.episode.path)) }
  }

  /** The bound pairs, in episode order. */
  function Bonds(decs: seq<Decision>, eps: seq<Episode>): seq<Bond> {
    if eps == [] then []
    else
      var e := eps[|eps| - 1];
      var best := Best(decs, e);
      Bonds(decs, eps[..|eps| - 1]) + if best.Some? then [Bond(best.value, e)] else []
  }

  function Arcs(bonds: seq<Bond>): seq<Arc> {
    seq(|bonds|, i requires 0 <= i < |bonds| => bonds[i].ToArc())
  }

  function PlainEdge(b: Bond): Edge {
    Edge(b.decision.nodeId, b.episode.nodeId,
         Prov(b.decision.sessionId, Some(b.decision.nodeId), b.episode.sessionId,
              b.decision.timestamp, b.episode.timestamp),
         DeterministicallyDerived, None)
  }

  function PlainEdges(bonds: seq<Bond>): seq<Edge> {
    seq(|bonds|, i requires 0 <= i < |bonds| => PlainEdge(bonds[i]))
  }

  // ---- Correlations ---------------------------------------------------------

  function Bump(t: Table, isDecision: bool, isPath: bool): Table {
    match (isDecision, isPath)
    case (true, true) => t.(n11 := t.n11 + 1)
    case (true, false) => t.(n10 := t.n10 + 1)
    case (false, true) => t.(n01 := t.n01 + 1)
    case (false, false) => t.(n00 := t.n00 + 1)
  }

  /** The contingency table of `own` over the batch. */
  function Tally(arcs: seq<Arc>, own: Arc): Table {
    if arcs == [] then Table(0, 0, 0, 0)
    else
      var a := arcs[|arcs| - 1];
      Bump(Tally(arcs[..|arcs| - 1], own), a.decision == own.decision, a.path == own.path)
  }

  /** How many arcs a decision bound. */
  function BoundBy(arcs: seq<Arc>, decision: string): nat {
    Permutations.Count(arcs, OfDecision(decision))
  }

  function OfDecision(decision: string): Arc -> bool {
    (a: Arc) => a.decision == decision
  }

  function CorrelationOf(arcs: seq<Arc>, own: Arc): Option<Correlation> {
    if BoundBy(arcs, own.decision) < MIN_CORRELATION_SUPPORT then None
    else Some(ToCorrelation(Tally(arcs, own), |arcs|))
  }

  function FullEdge(b: Bond, arcs: seq<Arc>): Edge {
    PlainEdge(b).(correlation := CorrelationOf(arcs, b.ToArc()))
  }

  function FullEdges(bonds: seq<Bond>, arcs: seq<Arc>): seq<Edge> {
    seq(|bonds|, i requires 0 <= i < |bonds| => FullEdge(bonds[i], arcs))
  }

  predicate EdgeLeq(a: Edge, b: Edge) {
    if a.from == b.from then Text.LexLeq(a.to, b.to) else Text.LexLeq(a.from, b.from)
  }

  /** The binder as a function of the segmentation. */
  function BindSpec(decs: seq<Decision>, eps: seq<Episode>): seq<Edge> {
    var bonds := Bonds(decs, eps);
    Sorting.SortBy(FullEdges(bonds, Arcs(bonds)), EdgeLeq)
  }

  // ---- The imperative binder --------------------------------------------------

  method CountBound(arcs: seq<Arc>) returns (bound: map<string, nat>)
    ensures forall d :: (if d in bound then bound[d] else 0) == BoundBy(arcs, d)
  {
    bound := map[];
    for k := 0 to |arcs|
      invariant forall d :: (if d in bound then bound[d] else 0) == BoundBy(arcs[..k], d)
    {
      var d := arcs[k].decision;
      assert arcs[..k + 1][..k] == arcs[..k];
      bound := bound[d := (if d in bound then bound[d] else 0) + 1];
    }
    assert arcs[..|arcs|] == arcs;
  }

  method TallyArcs(arcs: seq<Arc>, own: Arc) returns (t: Table)
    ensures t == Tally(arcs, own)
  {
    t := Table(0, 0, 0, 0);
    for k := 0 to |arcs|
      invariant t == Tally(arcs[..k], own)
    {
      assert arcs[..k + 1][..k] == arcs[..k];
      t := Bump(t, arcs[k].decision == own.decision, arcs[k].path == own.path);
    }
    assert arcs[..|arcs|] == arcs;
  }

  /** Give every edge whose decision reaches the support threshold its correlation. */
  method AttachCorrelations(edges: array<Edge>, arcs: seq<Arc>)
    requires edges.Length == |arcs|
    modifies edges
    ensures forall i | 0 <= i < |arcs| ::
      edges[i] == if CorrelationOf(arcs, arcs[i]).None? then old(edges[i])
                  else old(edges[i]).(correlation := CorrelationOf(arcs, arcs[i]))
  {
    var bound := CountBound(arcs);
    for k := 0 to edges.Length
      invariant forall i | k <= i < |arcs| :: edges[i] == old(edges[i])
      invariant forall i | 0 <= i < k ::
        edges[i] == if CorrelationOf(arcs, arcs[i]).None? then old(edges[i])
                    else old(edges[i]).(correlation := CorrelationOf(arcs, arcs[i]))
    {
      var count := if arcs[k].decision in bound then bound[arcs[k].decision] else 0;
      if count >= MIN_CORRELATION_SUPPORT {
        var t := TallyArcs(arcs, arcs[k]);
        edges[k] := edges[k].(correlation := Some(ToCorrelation(t, |arcs|)));
      }
    }
  }

  method ChooseDecision(decs: seq<Decision>, e: Episode) returns (best: Option<Decision>)
    ensures best == Best(decs, e)
  {
    best := None;
    for k := 0 to |decs|
      invariant best == Best(decs[..k], e)
    {
      var d := decs[k];
      assert decs[..k + 1][..k] == decs[..k];
      if d.sessionId != e.sessionId { continue; }
      if d.record.supersededBy.Some? { continue; }
      if d.timestamp > e.timestamp { continue; }
      if WholeSeconds(e.timestamp - d.timestamp) > MAX_BIND_GAP_SECS { continue; }
      if best.None? || Later(d, best.value) {
        best := Some(d);
      }
    }
    assert decs[..|decs|] == decs;
  }

  method Bind(seg: Segmentation) returns (edges: seq<Edge>)
    ensures edges == BindSpec(seg.decisions, seg.episodes)
  {
    var plain: seq<Edge> := [];
    var arcs: seq<Arc> := [];
    ghost var bonds: seq<Bond> := [];
    for k := 0 to |seg.episodes|
      invariant bonds == Bonds(seg.decisions, seg.episodes[..k])
      invariant plain == PlainEdges(bonds) && arcs == Arcs(bonds)
    {
      var e := seg.episodes[k];
      assert seg.episodes[..k + 1][..k] == seg.episodes[..k];
      var best := ChooseDecision(seg.decisions, e);
      if best.None? { continue; }
      var d := best.value;
      bonds := bonds + [Bond(d, e)];
      arcs := arcs + [Arc(d.nodeId, Paths.Components(e.episode.path))];
      plain := plain + [Edge(d.nodeId, e.nodeId,
        Prov(d.sessionId, Some(d.nodeId), e.sessionId, d.timestamp, e.timestamp),
        DeterministicallyDerived, None)];
    }
    assert seg.episodes[..|seg.episodes|] == seg.episodes;
    var buffer := new Edge[|plain|](i requires 0 <= i < |plain| => plain[i]);
    AttachCorrelations(buffer, arcs);
    assert buffer[..] == FullEdges(bonds, arcs);
    edges := Sorting.SortBy(buffer[..], EdgeLeq);
  }
}
