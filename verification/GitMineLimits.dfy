/** How far the promises of commit mining reach: commits that share a session, commits of many parts. */
module GitMineLimits {
  import opened Wrappers
  import opened Nodes
  import opened GitMine
  import opened GitMineLaws
  import Binder
  import BinderLaws
  import NodePrep
  import opened Permutations
  import Sorting

  // ---- Commits that share a session ------------------------------------------------------

  lemma SameSession(a: CommitInput, b: CommitInput)
    ensures Session(a) == Session(b) <==> Short(a.sha) == Short(b.sha)
  {
    assert Session(a)[4..] == Short(a.sha) && Session(b)[4..] == Short(b.sha);
  }

  /** Another commit of the session, dated one second later, or at the same second and listed later. */
  predicate Outranks(o: Oracle, commits: seq<CommitInput>, i: nat, j: nat)
    requires i < |commits|
  {
    && j < |commits| && j != i && Classified(o, commits[j]).Some?
    && Short(commits[j].sha) == Short(commits[i].sha)
    && (Time(commits[j].epoch) == Time(commits[i].epoch) + Binder.NANOS_PER_SECOND
        || (Time(commits[j].epoch) == Time(commits[i].epoch) && j > i))
  }

  /** Within its block of numbers a decision names its commit. */
  lemma BlockSeparates(o: Oracle, commits: seq<CommitInput>, i: nat, a: Decision, j: nat, b: Decision)
    requires PartsFit(o, commits) && i < |commits| && j < |commits|
    requires a in DecisionsOf(o, i, commits[i]) && b in DecisionsOf(o, j, commits[j])
    ensures i < j ==> a.turnSeq < b.turnSeq
  {
  }

  lemma BlockKeysDistinct(o: Oracle, commits: seq<CommitInput>)
    requires PartsFit(o, commits)
    ensures BinderLaws.DistinctKeys(AllDecisions(o, commits))
  {
    var decs := AllDecisions(o, commits);
    forall a, b | a in decs && b in decs && a.turnSeq == b.turnSeq ensures a == b {
      var i := DecisionHasCommit(o, commits, a);
      var j := DecisionHasCommit(o, commits, b);
      BlockSeparates(o, commits, i, a, j, b);
      BlockSeparates(o, commits, j, b, i, a);
      PartSeqUnique(o, i, commits[i], a, b);
    }
  }

  lemma DecisionFields(o: Oracle, i: nat, c: CommitInput, d: Decision)
    requires d in DecisionsOf(o, i, c)
    ensures Classified(o, c).Some? && |Parts(o, Classified(o, c).value)| >= 1
    ensures d.sessionId == Session(c) && d.timestamp == Time(c.epoch) && d.record.supersededBy.None?
    ensures d.turnSeq <= LastDecision(o, i, c).turnSeq
    ensures d.turnSeq == LastDecision(o, i, c).turnSeq ==> d == LastDecision(o, i, c)
  {
  }

  lemma LastIsPart(o: Oracle, i: nat, c: CommitInput)
    requires Classified(o, c).Some? && |Parts(o, Classified(o, c).value)| >= 1
    ensures LastDecision(o, i, c) in DecisionsOf(o, i, c)
  {
    assert DecisionsOf(o, i, c)[|Parts(o, Classified(o, c).value)| - 1] == LastDecision(o, i, c);
  }

  lemma EpisodeFields(o: Oracle, i: nat, c: CommitInput, e: Episode)
    requires e in EpisodesOf(o, i, c)
    ensures Classified(o, c).Some?
    ensures e.sessionId == Session(c) && e.timestamp == Time(c.epoch) + Binder.NANOS_PER_SECOND
  {
  }

  lemma WholeSecond(a: CommitInput, b: CommitInput)
    requires Time(a.epoch) < Time(b.epoch) <= Time(a.epoch) + Binder.NANOS_PER_SECOND
    ensures Time(b.epoch) == Time(a.epoch) + Binder.NANOS_PER_SECOND
  {
  }

  /** A governing decision later than a commit's own last part comes from a commit that outranks it. */
  lemma LaterOutranks(o: Oracle, commits: seq<CommitInput>, i: nat, e: Episode, j: nat, d: Decision)
    requires EachSplits(o, commits) && PartsFit(o, commits) && i < |commits| && j < |commits|
    requires e in EpisodesOf(o, i, commits[i]) && d in DecisionsOf(o, j, commits[j])
    requires Classified(o, commits[i]).Some? && Binder.Governs(d, e)
    requires Binder.Later(d, LastDecision(o, i, commits[i]))
    ensures Outranks(o, commits, i, j)
  {
    var last := LastDecision(o, i, commits[i]);
    DecisionFields(o, j, commits[j], d);
    EpisodeFields(o, i, commits[i], e);
    SameSession(commits[i], commits[j]);
    LastIsPart(o, i, commits[i]);
    if d.timestamp > last.timestamp {
      WholeSecond(commits[i], commits[j]);
    } else if j < i {
      BlockSeparates(o, commits, j, d, i, last);
    }
  }

  /** The last part of a commit that outranks governs the episode, and is later. */
  lemma OutranksLater(o: Oracle, commits: seq<CommitInput>, i: nat, e: Episode, j: nat)
    requires EachSplits(o, commits) && PartsFit(o, commits) && i < |commits|
    requires e in EpisodesOf(o, i, commits[i]) && Classified(o, commits[i]).Some? && Outranks(o, commits, i, j)
    ensures var d := LastDecision(o, j, commits[j]);
      && d in AllDecisions(o, commits) && Binder.Governs(d, e)
      && Binder.Later(d, LastDecision(o, i, commits[i]))
  {
    var d := LastDecision(o, j, commits[j]);
    LastIsPart(o, i, commits[i]);
    LastIsPart(o, j, commits[j]);
    DecisionFields(o, j, commits[j], d);
    EpisodeFields(o, i, commits[i], e);
    SameSession(commits[i], commits[j]);
    CommitHasDecision(o, commits, j, d);
    BinderLaws.GapWindow(d, e);
    if j > i {
      BlockSeparates(o, commits, i, LastDecision(o, i, commits[i]), j, d);
    }
  }

  /**
   An episode is bound to the last part of its own commit exactly when no commit with
   the same short sha outranks it; otherwise to the last part of one that does.
   */
  lemma {:induction false} BindsOwnExactly(o: Oracle, commits: seq<CommitInput>, i: nat, e: Episode)
    requires EachSplits(o, commits) && PartsFit(o, commits)
    requires i < |commits| && e in EpisodesOf(o, i, commits[i])
    ensures Classified(o, commits[i]).Some?
    ensures var best := Binder.Best(AllDecisions(o, commits), e);
      && (best == Some(LastDecision(o, i, commits[i])) <==> forall j: nat :: !Outranks(o, commits, i, j))
      && (best == Some(LastDecision(o, i, commits[i]))
          || exists j: nat :: Outranks(o, commits, i, j) && best == Some(LastDecision(o, j, commits[j])))
  {
    var decs, best := AllDecisions(o, commits), Binder.Best(AllDecisions(o, commits), e);
    LastGoverns(o, commits, i, e);
    var last := LastDecision(o, i, commits[i]);
    BinderLaws.BestIsLatest(decs, e);
    forall j: nat | Outranks(o, commits, i, j) ensures best != Some(last) {
      OutranksLater(o, commits, i, e, j);
    }
    if best != Some(last) {
      var j := BoundElsewhere(o, commits, i, e);
      assert Outranks(o, commits, i, j) && best == Some(LastDecision(o, j, commits[j]));
    }
  }

  lemma BoundElsewhere(o: Oracle, commits: seq<CommitInput>, i: nat, e: Episode) returns (j: nat)
    requires EachSplits(o, commits) && PartsFit(o, commits)
    requires i < |commits| && e in EpisodesOf(o, i, commits[i]) && Classified(o, commits[i]).Some?
    requires Binder.Best(AllDecisions(o, commits), e) != Some(LastDecision(o, i, commits[i]))
    ensures Outranks(o, commits, i, j)
    ensures Binder.Best(AllDecisions(o, commits), e) == Some(LastDecision(o, j, commits[j]))
  {
    var decs, last := AllDecisions(o, commits), LastDecision(o, i, commits[i]);
    BinderLaws.BestIsLatest(decs, e);
    LastGoverns(o, commits, i, e);
    BlockKeysDistinct(o, commits);
    var b := Binder.Best(decs, e).value;
    j := DecisionHasCommit(o, commits, b);
    DecisionFields(o, j, commits[j], b);
    assert Binder.Later(b, last);
    LaterOutranks(o, commits, i, e, j, b);
    OutranksLater(o, commits, i, e, j);
  }

  // ---- Commits of many parts ------------------------------------------------------

  /** Wherever the two stand in the stream, the decision comes before the episode. */
  ghost predicate SortsAfter(m: seq<NodePrep.Keyed>, d: Decision, e: Episode) {
    forall p, q | 0 <= p < |m| && 0 <= q < |m| && m[p] == NodePrep.KeyDecision(d) && m[q] == NodePrep.KeyEpisode(e) ::
      p < q
  }

  lemma KeyedIn(o: Oracle, commits: seq<CommitInput>, d: Decision, e: Episode)
    requires d in AllDecisions(o, commits) && e in AllEpisodes(o, commits)
    ensures NodePrep.KeyDecision(d) in MinedKeyed(o, commits) && NodePrep.KeyEpisode(e) in MinedKeyed(o, commits)
  {
    var seg := Mined(o, commits);
    var edges := Binder.BindSpec(seg.decisions, seg.episodes);
    var all := NodePrep.AllKeyed(seg, edges);
    NodePrep.MergeCanonical(seg, edges);
    var x :| 0 <= x < |seg.decisions| && seg.decisions[x] == d;
    var y :| 0 <= y < |seg.episodes| && seg.episodes[y] == e;
    assert NodePrep.Keys(seg.decisions, NodePrep.KeyDecision)[x] == NodePrep.KeyDecision(d);
    assert NodePrep.Keys(seg.episodes, NodePrep.KeyEpisode)[y] == NodePrep.KeyEpisode(e);
    assert NodePrep.KeyDecision(d) in all && NodePrep.KeyEpisode(e) in all;
    assert multiset(MinedKeyed(o, commits)) == multiset(all);
    assert NodePrep.KeyDecision(d) in multiset(MinedKeyed(o, commits));
    assert NodePrep.KeyEpisode(e) in multiset(MinedKeyed(o, commits));
  }

  lemma SortedKeys(m: seq<NodePrep.Keyed>, d: Decision, e: Episode)
    requires Sorting.Sorted(m, NodePrep.KeyLeq)
    requires NodePrep.KeyDecision(d) in m && NodePrep.KeyEpisode(e) in m
    ensures SortsAfter(m, d, e) <==> d.turnSeq <= e.seqNo
  {
    var x, y := NodePrep.KeyDecision(d), NodePrep.KeyEpisode(e);
    if d.turnSeq <= e.seqNo {
      forall p, q | 0 <= p < |m| && 0 <= q < |m| && m[p] == x && m[q] == y ensures p < q {
        NodePrep.SmallerFirst(m, p, q);
      }
    } else {
      var p :| 0 <= p < |m| && m[p] == x;
      var q :| 0 <= q < |m| && m[q] == y;
      NodePrep.SmallerFirst(m, q, p);
    }
  }

  /** An episode sorts after a decision exactly when its number is not smaller. */
  lemma {:induction false} SortsAfterExactly(o: Oracle, commits: seq<CommitInput>, d: Decision, e: Episode)
    requires d in AllDecisions(o, commits) && e in AllEpisodes(o, commits)
    ensures SortsAfter(MinedKeyed(o, commits), d, e) <==> d.turnSeq <= e.seqNo
  {
    var seg := Mined(o, commits);
    NodePrep.MergeCanonical(seg, Binder.BindSpec(seg.decisions, seg.episodes));
    KeyedIn(o, commits, d, e);
    SortedKeys(MinedKeyed(o, commits), d, e);
  }

  lemma EpisodesStep(o: Oracle, commits: seq<CommitInput>, k: nat)
    requires k < |commits|
    ensures AllEpisodes(o, commits[..k + 1]) == AllEpisodes(o, commits[..k]) + EpisodesOf(o, k, commits[k])
  {
    assert commits[..k + 1][..k] == commits[..k];
  }

  lemma {:induction false} EpisodeStays(o: Oracle, commits: seq<CommitInput>, k: nat, e: Episode)
    requires k <= |commits| && e in AllEpisodes(o, commits[..k])
    ensures e in AllEpisodes(o, commits)
    decreases |commits| - k
  {
    if k == |commits| {
      assert commits[..k] == commits;
    } else {
      EpisodesStep(o, commits, k);
      InConcat(e, AllEpisodes(o, commits[..k]), EpisodesOf(o, k, commits[k]));
      EpisodeStays(o, commits, k + 1, e);
    }
  }

  lemma CommitHasEpisode(o: Oracle, commits: seq<CommitInput>, i: nat, e: Episode)
    requires i < |commits| && e in EpisodesOf(o, i, commits[i])
    ensures e in AllEpisodes(o, commits)
  {
    EpisodesStep(o, commits, i);
    InConcat(e, AllEpisodes(o, commits[..i]), EpisodesOf(o, i, commits[i]));
    EpisodeStays(o, commits, i + 1, e);
  }

  /** The episode comes after the decision it is bound to. */
  ghost predicate FollowsBound(o: Oracle, commits: seq<CommitInput>, e: Episode) {
    var best := Binder.Best(AllDecisions(o, commits), e);
    best.Some? && SortsAfter(MinedKeyed(o, commits), best.value, e)
  }

  /** The j-th episode of a commit follows its decision exactly when the commit has at most j + 2 parts. */
  lemma {:induction false} EpisodeFollowsExactly(o: Oracle, commits: seq<CommitInput>, i: nat, j: nat)
    requires DistinctShas(o, commits) && EachSplits(o, commits)
    requires i < |commits| && Classified(o, commits[i]).Some? && j < KeptFiles(commits[i])
    ensures FollowsBound(o, commits, MakeEpisode(commits[i], i * SEQS_PER_COMMIT, j))
      <==> |Parts(o, Classified(o, commits[i]).value)| <= j + 2
  {
    var e, last := MakeEpisode(commits[i], i * SEQS_PER_COMMIT, j), LastDecision(o, i, commits[i]);
    assert EpisodesOf(o, i, commits[i])[j] == e;
    EpisodeBindsLast(o, commits, i, e);
    LastIsPart(o, i, commits[i]);
    CommitHasDecision(o, commits, i, last);
    CommitHasEpisode(o, commits, i, e);
    SortsAfterExactly(o, commits, last, e);
  }

  /** So all episodes of a commit follow their decision exactly when it has at most two parts, or no file. */
  lemma {:induction false} EpisodesFollowExactly(o: Oracle, commits: seq<CommitInput>, i: nat)
    requires DistinctShas(o, commits) && EachSplits(o, commits)
    requires i < |commits| && Classified(o, commits[i]).Some?
    ensures (forall e | e in EpisodesOf(o, i, commits[i]) :: FollowsBound(o, commits, e))
      <==> |Parts(o, Classified(o, commits[i]).value)| <= 2 || commits[i].files == []
  {
    var c, eps := commits[i], EpisodesOf(o, i, commits[i]);
    forall j | 0 <= j < KeptFiles(c)
      ensures FollowsBound(o, commits, eps[j]) <==> |Parts(o, Classified(o, c).value)| <= j + 2
    {
      EpisodeFollowsExactly(o, commits, i, j);
    }
    if c.files != [] {
      assert eps[0] in eps;
    }
  }
}
