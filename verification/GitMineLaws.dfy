/** The end-to-end theorem about mining commits: segmentation, binder and node-prep together. */
module GitMineLaws {
  import opened Wrappers
  import opened Nodes
  import opened GitMine
  import Binder
  import BinderLaws
  import NodePrep
  import opened Permutations
  import Sorting
  import Text

  /** Classified commits are told apart by their short shas. */
  ghost predicate DistinctShas(o: Oracle, commits: seq<CommitInput>) {
    forall i, j | 0 <= i < j < |commits| && Classified(o, commits[i]).Some? && Classified(o, commits[j]).Some? ::
      Short(commits[i].sha) != Short(commits[j].sha)
  }

  /** Every classified commit is split into at least one part. */
  ghost predicate EachSplits(o: Oracle, commits: seq<CommitInput>) {
    forall i | 0 <= i < |commits| && Classified(o, commits[i]).Some? :: |Parts(o, Classified(o, commits[i]).value)| >= 1
  }

  /** No classified commit has more parts than sequence numbers are set aside for it. */
  ghost predicate PartsFit(o: Oracle, commits: seq<CommitInput>) {
    forall i | 0 <= i < |commits| && Classified(o, commits[i]).Some? ::
      |Parts(o, Classified(o, commits[i]).value)| <= SEQS_PER_COMMIT
  }

  // ---- Which commit a decision or an episode belongs to -----------------------

  lemma {:induction false} DecisionHasCommit(o: Oracle, commits: seq<CommitInput>, d: Decision) returns (i: nat)
    requires d in AllDecisions(o, commits)
    ensures i < |commits| && d in DecisionsOf(o, i, commits[i])
  {
    var n := |commits| - 1;
    if d in DecisionsOf(o, n, commits[n]) {
      i := n;
    } else {
      i := DecisionHasCommit(o, commits[..n], d);
    }
  }

  lemma {:induction false} DecisionsStep(o: Oracle, commits: seq<CommitInput>, k: nat)
    requires k < |commits|
    ensures AllDecisions(o, commits[..k + 1]) == AllDecisions(o, commits[..k]) + DecisionsOf(o, k, commits[k])
  {
    assert commits[..k + 1][..k] == commits[..k];
  }

  /** A decision of the first commits stays one of all commits. */
  lemma {:induction false} DecisionStays(o: Oracle, commits: seq<CommitInput>, k: nat, d: Decision)
    requires k <= |commits| && d in AllDecisions(o, commits[..k])
    ensures d in AllDecisions(o, commits)
    decreases |commits| - k
  {
    if k == |commits| {
      assert commits[..k] == commits;
    } else {
      DecisionsStep(o, commits, k);
      InConcat(d, AllDecisions(o, commits[..k]), DecisionsOf(o, k, commits[k]));
      DecisionStays(o, commits, k + 1, d);
    }
  }

  lemma CommitHasDecision(o: Oracle, commits: seq<CommitInput>, i: nat, d: Decision)
    requires i < |commits| && d in DecisionsOf(o, i, commits[i])
    ensures d in AllDecisions(o, commits)
  {
    DecisionsStep(o, commits, i);
    InConcat(d, AllDecisions(o, commits[..i]), DecisionsOf(o, i, commits[i]));
    DecisionStays(o, commits, i + 1, d);
  }

  lemma {:induction false} EpisodeHasCommit(o: Oracle, commits: seq<CommitInput>, e: Episode) returns (i: nat)
    requires e in AllEpisodes(o, commits)
    ensures i < |commits| && e in EpisodesOf(o, i, commits[i])
  {
    var n := |commits| - 1;
    if e in EpisodesOf(o, n, commits[n]) {
      i := n;
    } else {
      i := EpisodeHasCommit(o, commits[..n], e);
    }
  }

  lemma SessionSeparates(o: Oracle, commits: seq<CommitInput>, i: nat, j: nat)
    requires DistinctShas(o, commits) && i < |commits| && j < |commits|
    requires Classified(o, commits[i]).Some? && Classified(o, commits[j]).Some?
    requires Session(commits[i]) == Session(commits[j])
    ensures i == j
  {
    assert Session(commits[i])[4..] == Short(commits[i].sha);
    assert Session(commits[j])[4..] == Short(commits[j].sha);
  }

  /** The last split part of a classified commit. */
  function LastDecision(o: Oracle, i: nat, c: CommitInput): Decision
    requires Classified(o, c).Some? && |Parts(o, Classified(o, c).value)| >= 1
  {
    var gd := Classified(o, c).value;
    MakeDecision(o, c, gd, i * SEQS_PER_COMMIT, |Parts(o, gd)| - 1)
  }

  lemma PartSeqUnique(o: Oracle, i: nat, c: CommitInput, a: Decision, b: Decision)
    requires a in DecisionsOf(o, i, c) && b in DecisionsOf(o, i, c) && a.turnSeq == b.turnSeq
    ensures a == b
  {
  }

  lemma DecisionShape(o: Oracle, i: nat, c: CommitInput, d: Decision)
    requires d in DecisionsOf(o, i, c)
    ensures Classified(o, c).Some? && d.sessionId == Session(c)
  {
  }

  lemma MinedKeysDistinct(o: Oracle, commits: seq<CommitInput>)
    requires DistinctShas(o, commits)
    ensures BinderLaws.DistinctKeys(AllDecisions(o, commits))
  {
    var decs := AllDecisions(o, commits);
    forall a, b | a in decs && b in decs && a.sessionId == b.sessionId && a.turnSeq == b.turnSeq ensures a == b {
      var i := DecisionHasCommit(o, commits, a);
      var j := DecisionHasCommit(o, commits, b);
      DecisionShape(o, i, commits[i], a);
      DecisionShape(o, j, commits[j], b);
      SessionSeparates(o, commits, i, j);
      PartSeqUnique(o, i, commits[i], a, b);
    }
  }

  /** The last part of a commit governs each of its episodes. */
  lemma LastGoverns(o: Oracle, commits: seq<CommitInput>, i: nat, e: Episode)
    requires EachSplits(o, commits) && i < |commits| && e in EpisodesOf(o, i, commits[i])
    ensures Classified(o, commits[i]).Some?
    ensures var last := LastDecision(o, i, commits[i]); last in AllDecisions(o, commits) && Binder.Governs(last, e)
  {
    var last, gd := LastDecision(o, i, commits[i]), Classified(o, commits[i]).value;
    assert DecisionsOf(o, i, commits[i])[|Parts(o, gd)| - 1] == last;
    CommitHasDecision(o, commits, i, last);
  }

  /** An episode of a commit is bound to that commit's last part. */
  lemma {:induction false} EpisodeBindsLast(o: Oracle, commits: seq<CommitInput>, i: nat, e: Episode)
    requires DistinctShas(o, commits) && EachSplits(o, commits)
    requires i < |commits| && e in EpisodesOf(o, i, commits[i])
    ensures Classified(o, commits[i]).Some?
    ensures Binder.Best(AllDecisions(o, commits), e) == Some(LastDecision(o, i, commits[i]))
  {
    var decs, last := AllDecisions(o, commits), LastDecision(o, i, commits[i]);
    LastGoverns(o, commits, i, e);
    forall d | d in decs && Binder.Governs(d, e) ensures !Binder.Later(d, last) {
      var j := DecisionHasCommit(o, commits, d);
      SessionSeparates(o, commits, i, j);
    }
    MinedKeysDistinct(o, commits);
    BinderLaws.BestIsLatest(decs, e);
    BinderLaws.LatestUnique(decs, e, Binder.Best(decs, e), Some(last));
  }

  // ---- How many bindings ------------------------------------------------------

  /** The files of classified commits, at most forty each. */
  function KeptTotal(o: Oracle, commits: seq<CommitInput>): nat {
    if commits == [] then 0
    else
      var n := |commits| - 1;
      KeptTotal(o, commits[..n]) + if Classified(o, commits[n]).Some? then KeptFiles(commits[n]) else 0
  }

  lemma {:induction false} EpisodeTotal(o: Oracle, commits: seq<CommitInput>)
    ensures |AllEpisodes(o, commits)| == KeptTotal(o, commits)
  {
    if commits != [] {
      EpisodeTotal(o, commits[..|commits| - 1]);
    }
  }

  lemma {:induction false} AllBound(decs: seq<Decision>, eps: seq<Episode>)
    requires forall e | e in eps :: Binder.Best(decs, e).Some?
    ensures |Binder.Bonds(decs, eps)| == |eps|
  {
    if eps != [] {
      AllBound(decs, eps[..|eps| - 1]);
    }
  }

  /** There is one binding per kept file of a classified commit, also where commits share a session. */
  lemma {:induction false} BindingCount(o: Oracle, commits: seq<CommitInput>)
    requires EachSplits(o, commits)
    ensures var seg := Mined(o, commits);
      |Binder.BindSpec(seg.decisions, seg.episodes)| == KeptTotal(o, commits)
  {
    var decs, eps := AllDecisions(o, commits), AllEpisodes(o, commits);
    forall e | e in eps ensures Binder.Best(decs, e).Some? {
      var i := EpisodeHasCommit(o, commits, e);
      LastGoverns(o, commits, i, e);
      BinderLaws.BestIsLatest(decs, e);
    }
    AllBound(decs, eps);
    EpisodeTotal(o, commits);
    var bonds := Binder.Bonds(decs, eps);
    Sorting.SortPermutes(Binder.FullEdges(bonds, Binder.Arcs(bonds)), Binder.EdgeLeq);
  }

  /** `x` joins the last part of commit i with one of its own kept files. */
  ghost predicate JoinsCommit(o: Oracle, commits: seq<CommitInput>, x: Edge, i: nat) {
    && i < |commits| && Classified(o, commits[i]).Some?
    && |Parts(o, Classified(o, commits[i]).value)| >= 1
    && x.from == LastDecision(o, i, commits[i]).nodeId
    && x.prov.usedSession == x.prov.generatedBySession == Session(commits[i])
    && x.prov.tGen == x.prov.tUse + Binder.NANOS_PER_SECOND
    && exists e | e in EpisodesOf(o, i, commits[i]) :: x.to == e.nodeId
  }

  /** No binding crosses commits. */
  lemma {:induction false} BindingsStayInCommit(o: Oracle, commits: seq<CommitInput>, x: Edge)
    requires DistinctShas(o, commits) && EachSplits(o, commits)
    requires x in Binder.BindSpec(AllDecisions(o, commits), AllEpisodes(o, commits))
    ensures exists i :: JoinsCommit(o, commits, x, i)
  {
    var decs, eps := AllDecisions(o, commits), AllEpisodes(o, commits);
    BinderLaws.EdgesExact(decs, eps);
    var b :| BinderLaws.IsEdgeOf(x, b, decs, eps);
    var i := EpisodeHasCommit(o, commits, b.episode);
    EpisodeBindsLast(o, commits, i, b.episode);
    BinderLaws.BondsSound(decs, eps);
    EdgeJoins(o, commits, x, b, i);
  }

  lemma EdgeJoins(o: Oracle, commits: seq<CommitInput>, x: Edge, b: Binder.Bond, i: nat)
    requires i < |commits| && b.episode in EpisodesOf(o, i, commits[i]) && EachSplits(o, commits)
    requires b.decision == LastDecision(o, i, commits[i]) && x == Binder.PlainEdge(b).(correlation := x.correlation)
    ensures JoinsCommit(o, commits, x, i)
  {
  }

  // ---- Order in the prepared stream ---------------------------------------------

  /** The sort keys of the nodes a commit contributes besides bindings. */
  ghost predicate OfCommit(o: Oracle, commits: seq<CommitInput>, i: nat, k: NodePrep.Keyed) {
    && i < |commits|
    && ((exists d | d in DecisionsOf(o, i, commits[i]) :: k == NodePrep.KeyDecision(d))
        || (exists e | e in EpisodesOf(o, i, commits[i]) :: k == NodePrep.KeyEpisode(e)))
  }

  lemma CommitSeqRange(o: Oracle, commits: seq<CommitInput>, i: nat, k: NodePrep.Keyed)
    requires PartsFit(o, commits) && OfCommit(o, commits, i, k)
    ensures i * SEQS_PER_COMMIT <= k.seqNo < (i + 1) * SEQS_PER_COMMIT
  {
    if d :| d in DecisionsOf(o, i, commits[i]) && k == NodePrep.KeyDecision(d) {
    } else {
      var e :| e in EpisodesOf(o, i, commits[i]) && k == NodePrep.KeyEpisode(e);
    }
  }

  /** All nodes of a commit, bindings aside, come before all nodes of any later commit. */
  lemma {:induction false} CommitsInOrder(o: Oracle, commits: seq<CommitInput>, i: nat, j: nat, p: nat, q: nat)
    requires PartsFit(o, commits) && i < j
    requires p < |MinedKeyed(o, commits)| && q < |MinedKeyed(o, commits)|
    requires OfCommit(o, commits, i, MinedKeyed(o, commits)[p])
    requires OfCommit(o, commits, j, MinedKeyed(o, commits)[q])
    ensures p < q
  {
    var m := MinedKeyed(o, commits);
    var seg := Mined(o, commits);
    NodePrep.MergeCanonical(seg, Binder.BindSpec(seg.decisions, seg.episodes));
    CommitSeqRange(o, commits, i, m[p]);
    CommitSeqRange(o, commits, j, m[q]);
    NodePrep.SmallerFirst(m, p, q);
  }

  /** Every node of the stream that is not a binding belongs to some commit. */
  lemma {:induction false} EveryNodeHasCommit(o: Oracle, commits: seq<CommitInput>, k: NodePrep.Keyed)
    requires k in MinedKeyed(o, commits) && !k.node.BindingNode?
    ensures exists i :: OfCommit(o, commits, i, k)
  {
    var seg := Mined(o, commits);
    var edges := Binder.BindSpec(seg.decisions, seg.episodes);
    NodePrep.MergeCanonical(seg, edges);
    assert k in multiset(NodePrep.AllKeyed(seg, edges));
    if k in NodePrep.Keys(seg.decisions, NodePrep.KeyDecision) {
      var d := NodePrep.KeysMember(seg.decisions, NodePrep.KeyDecision, k);
      var i := DecisionHasCommit(o, commits, d);
      assert OfCommit(o, commits, i, k);
    } else if k in NodePrep.Keys(seg.episodes, NodePrep.KeyEpisode) {
      var e := NodePrep.KeysMember(seg.episodes, NodePrep.KeyEpisode, k);
      var i := EpisodeHasCommit(o, commits, e);
      assert OfCommit(o, commits, i, k);
    } else {
      var b := NodePrep.KeysMember(edges, NodePrep.KeyBinding, k);
    }
  }

  // ---- Node ids ------------------------------------------------------------

  /** With distinct shas node ids are pairwise distinct, so an edge end names one node. */
  lemma {:induction false} MinedNodesDistinct(o: Oracle, commits: seq<CommitInput>)
    requires forall i, j
      | 0 <= i < j < |commits| && Classified(o, commits[i]).Some? && Classified(o, commits[j]).Some? ::
      commits[i].sha != commits[j].sha
    ensures BinderLaws.DistinctNodes(AllEpisodes(o, commits))
  {
    var eps := AllEpisodes(o, commits);
    forall a, b | a in eps && b in eps && a.nodeId == b.nodeId ensures a == b {
      var i := EpisodeHasCommit(o, commits, a);
      var j := EpisodeHasCommit(o, commits, b);
      EpisodeIdInjective(o, commits[i], i * SEQS_PER_COMMIT, a, commits[j], j * SEQS_PER_COMMIT, b);
      assert i == j;
    }
  }

  lemma EpisodeIdInjective(o: Oracle, c: CommitInput, base: nat, a: Episode, c': CommitInput, base': nat, b: Episode)
    requires exists m :: 0 <= m < |c.files| && a == MakeEpisode(c, base, m)
    requires exists n :: 0 <= n < |c'.files| && b == MakeEpisode(c', base', n)
    requires a.nodeId == b.nodeId
    ensures c.sha == c'.sha && a.seqNo - base == b.seqNo - base'
  {
    var m :| 0 <= m < |c.files| && a == MakeEpisode(c, base, m);
    var n :| 0 <= n < |c'.files| && b == MakeEpisode(c', base', n);
    var x, y := Text.Decimal(m), Text.Decimal(n);
    Text.PrefixCancel("episode:", a.episode.episodeId, b.episode.episodeId);
    var head := "git:ep:";
    assert a.episode.episodeId == (head + c.sha) + [':'] + x;
    assert b.episode.episodeId == (head + c'.sha) + [':'] + y;
    Text.SplitLastUnique(head + c.sha, x, head + c'.sha, y, ':');
    Text.PrefixCancel(head, c.sha, c'.sha);
    Text.DecimalInjective(m, n);
  }
}
