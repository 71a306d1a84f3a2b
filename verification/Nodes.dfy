/** The records the core stages pass on: segmentation, binding edges, prepared nodes. */
module Nodes {
  import opened Wrappers

  datatype FactStatus = Observed | DeterministicallyDerived | StatisticallyRanked | LlmHypothesis

  datatype Origin = FromConversation | FromGitCommit | FromGovernance

  datatype Opt = Opt(text: string, chosen: bool)

  datatype DecisionRecord = DecisionRecord(
    epitome: string,
    consideredOptions: seq<Opt>,
    isBan: bool,
    supersededBy: Option<string>,
    spanStart: nat,
    spanEnd: nat,
    factStatus: FactStatus,
    timestamp: int,
    decidedBy: Option<string>,
    origin: Origin)

  /** A decision with what the binder needs; time is in nanoseconds. */
  datatype Decision = Decision(
    record: DecisionRecord, nodeId: string, turnSeq: nat, timestamp: int, sessionId: string)

  datatype CodeEpisode = CodeEpisode(path: string, sha: Option<string>, episodeId: string)

  datatype Episode = Episode(
    episode: CodeEpisode, nodeId: string, seqNo: nat, timestamp: int, sessionId: string)

  datatype Conversation = Conversation(sessionId: string, turnStart: nat, turnEnd: nat, text: string)

  datatype Segmentation = Segmentation(
    conversations: seq<Conversation>, decisions: seq<Decision>, episodes: seq<Episode>)

  /** The rounded correlation of a decision and a path over the batch. */
  datatype Correlation = Correlation(support: real, confidence: real, lift: real, phi: real)

  datatype Prov = Prov(
    usedSession: string, usedDecision: Option<string>, generatedBySession: string,
    tUse: int, tGen: int)

  datatype Edge = Edge(
    from: string, to: string, prov: Prov, factStatus: FactStatus, correlation: Option<Correlation>)

  datatype PreparedNode =
    | ConversationNode(conversation: Conversation)
    | DecisionNode(record: DecisionRecord)
    | EpisodeNode(episode: CodeEpisode)
    | BindingNode(edge: Edge)
}
