/** Mining commits into prepared nodes: segmentation per commit, then binder and node-prep. */
module GitMine {
  import opened Wrappers
  import opened Nodes
  import Binder
  import NodePrep
  import Text

  const MAX_FILES_PER_COMMIT: nat := 40
  const SEQS_PER_COMMIT: nat := 1000
  const MIN_EPOCH: int := -377_705_116_800
  const MAX_EPOCH: int := 253_402_300_799

  datatype CommitInput = CommitInput(
    sha: string, subject: string, body: string, files: seq<string>, epoch: int, author: string)

  datatype GitDecision = GitDecision(
    epitome: string, factStatus: FactStatus, isBan: bool, options: seq<Opt>)

  datatype Polarity = Polarity(isBan: bool, options: seq<Opt>)

  /** The commit lexicon and the polarity layer, which this model does not look into. */
  datatype Oracle = Oracle(
    classify: (string, string) -> Option<GitDecision>,
    split: string -> seq<string>,
    polarity: string -> Polarity)

  // ---- One commit ------------------------------------------------------------

  function Time(epoch: int): int {
    if MIN_EPOCH <= epoch <= MAX_EPOCH then epoch * Binder.NANOS_PER_SECOND else 0
  }

  function Short(sha: string): string {
    if |sha| <= 12 then sha else sha[..12]
  }

  function Session(c: CommitInput): string {
    "git:" + Short(c.sha)
  }

  function Author(c: CommitInput): Option<string> {
    if Text.Trim(c.author) == "" then None else Some(Text.Trim(c.author))
  }

  function Classified(o: Oracle, c: CommitInput): Option<GitDecision> {
    o.classify(c.subject, c.body)
  }

  function Parts(o: Oracle, gd: GitDecision): seq<string> {
    o.split(gd.epitome)
  }

  function MakeDecision(o: Oracle, c: CommitInput, gd: GitDecision, base: nat, k: nat): Decision
    requires k < |Parts(o, gd)|
  {
    var part, seqNo := Parts(o, gd)[k], base + k;
    var pol := if |Parts(o, gd)| > 1 then o.polarity(part) else Polarity(gd.isBan, gd.options);
    Decision(
      DecisionRecord(part, pol.options, pol.isBan, None, seqNo, seqNo + 1, gd.factStatus, Time(c.epoch),
                     Author(c), FromGitCommit),
      "decision:" + Session(c) + ":" + Text.Decimal(seqNo), seqNo, Time(c.epoch), Session(c))
  }

  function MakeEpisode(c: CommitInput, base: nat, j: nat): Episode
    requires j < |c.files|
  {
    var id := "git:ep:" + c.sha + ":" + Text.Decimal(j);
    Episode(CodeEpisode(c.files[j], Some(c.sha), id), "episode:" + id, base + 1 + j,
            Time(c.epoch) + Binder.NANOS_PER_SECOND, Session(c))
  }

  function KeptFiles(c: CommitInput): nat {
    if |c.files| <= MAX_FILES_PER_COMMIT then |c.files| else MAX_FILES_PER_COMMIT
  }

  function DecisionsOf(o: Oracle, i: nat, c: CommitInput): seq<Decision> {
    match Classified(o, c)
    case None => []
    case Some(gd) =>
      seq(|Parts(o, gd)|, k requires 0 <= k < |Parts(o, gd)| => MakeDecision(o, c, gd, i * SEQS_PER_COMMIT, k))
  }

  function EpisodesOf(o: Oracle, i: nat, c: CommitInput): seq<Episode> {
    if Classified(o, c).None? then []
    else seq(KeptFiles(c), j requires 0 <= j < KeptFiles(c) => MakeEpisode(c, i * SEQS_PER_COMMIT, j))
  }

  // ---- All commits ------------------------------------------------------------

  function AllDecisions(o: Oracle, commits: seq<CommitInput>): seq<Decision> {
    if commits == [] then []
    else
      var n := |commits| - 1;
      AllDecisions(o, commits[..n]) + DecisionsOf(o, n, commits[n])
  }

  function AllEpisodes(o: Oracle, commits: seq<CommitInput>): seq<Episode> {
    if commits == [] then []
    else
      var n := |commits| - 1;
      AllEpisodes(o, commits[..n]) + EpisodesOf(o, n, commits[n])
  }

  function Mined(o: Oracle, commits: seq<CommitInput>): Segmentation {
    Segmentation([], AllDecisions(o, commits), AllEpisodes(o, commits))
  }

  /** Adding one second to the largest representable instant panics. */
  predicate RoomForOneSecond(commits: seq<CommitInput>) {
    forall c | c in commits :: c.epoch != MAX_EPOCH
  }

  method PushDecisions(decisions: seq<Decision>, o: Oracle, i: nat, c: CommitInput, gd: GitDecision)
    returns (r: seq<Decision>)
    requires Classified(o, c) == Some(gd)
    ensures r == decisions + DecisionsOf(o, i, c)
  {
    r := decisions;
    var parts := Parts(o, gd);
    for k := 0 to |parts|
      invariant r == decisions + DecisionsOf(o, i, c)[..k]
    {
      r := r + [MakeDecision(o, c, gd, i * SEQS_PER_COMMIT, k)];
    }
  }

  method PushEpisodes(episodes: seq<Episode>, o: Oracle, i: nat, c: CommitInput) returns (r: seq<Episode>)
    requires Classified(o, c).Some?
    ensures r == episodes + EpisodesOf(o, i, c)
  {
    r := episodes;
    for j := 0 to KeptFiles(c)
      invariant r == episodes + EpisodesOf(o, i, c)[..j]
    {
      r := r + [MakeEpisode(c, i * SEQS_PER_COMMIT, j)];
    }
  }

  method GitSegmentation(o: Oracle, commits: seq<CommitInput>) returns (seg: Segmentation)
    requires RoomForOneSecond(commits)
    ensures seg == Mined(o, commits)
  {
    var decisions: seq<Decision> := [];
    var episodes: seq<Episode> := [];
    for i := 0 to |commits|
      invariant decisions == AllDecisions(o, commits[..i])
      invariant episodes == AllEpisodes(o, commits[..i])
    {
      var c := commits[i];
      assert commits[..i + 1][..i] == commits[..i];
      var classified := Classified(o, c);
      if classified.None? { continue; }
      decisions := PushDecisions(decisions, o, i, c, classified.value);
      episodes := PushEpisodes(episodes, o, i, c);
    }
    assert commits[..|commits|] == commits;
    seg := Segmentation([], decisions, episodes);
  }

  /** The prepared stream, still under its sort keys. */
  function MinedKeyed(o: Oracle, commits: seq<CommitInput>): seq<NodePrep.Keyed> {
    var seg := Mined(o, commits);
    NodePrep.Merged(seg, Binder.BindSpec(seg.decisions, seg.episodes))
  }

  method MineCommitNodes(o: Oracle, commits: seq<CommitInput>) returns (nodes: seq<PreparedNode>)
    requires RoomForOneSecond(commits)
    ensures nodes == NodePrep.Payloads(MinedKeyed(o, commits))
  {
    var seg := GitSegmentation(o, commits);
    var edges := Binder.Bind(seg);
    nodes := NodePrep.Prepare(seg, edges);
  }
}
