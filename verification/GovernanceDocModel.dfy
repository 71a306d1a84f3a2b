/** The classification oracle for governance documents. */
module GovernanceDocModel {
  import opened Wrappers
  import opened Text
  import opened DocScan
  import opened StatusWords
  import D = DecisionsTable
  import F = FrontMatterModel

  datatype Sidecars = Sidecars(kepYaml: bool, adrDir: bool, log4brains: bool)

  datatype DocClass = DecisionRecord | ProposalInFlight | StandingRule | Procedure

  datatype ParseQuality = FullParse | RecallOnly

  datatype GovernanceDoc = GovernanceDoc(
    docClass: DocClass, docState: string, effective: bool, quality: ParseQuality,
    title: string, docId: Option<string>, ban: bool, governs: seq<string>)

  /** The regular expressions the classifier consults. */
  datatype Patterns = Patterns(
    pipeStatus: string -> bool,
    h1Suffix: string -> Option<string>,
    docId: (string, string) -> Option<string>)

  // ---- The template gate ------------------------------------------------------------

  function FileName(path: string): string
    decreases |path|
  {
    var i := IndexOf(path, '/');
    if i == |path| then path else FileName(path[i + 1..])
  }

  /** `is_template_or_placeholder` */
  predicate IsTemplate(p: Patterns, path: string, content: string) {
    var pathLc, lc := AsciiLower(path), AsciiLower(content);
    || Contains(pathLc, "template") || Contains(pathLc, "kep-template") || Contains(pathLc, "swift-template")
    || StartsWith(FileName(pathLc), "0000-") || FileName(pathLc) == "0000.md"
    || Contains(lc, "fill me in") || Contains(lc, "fill this in")
    || Contains(lc, "leave this empty") || Contains(lc, "0000-my-feature")
    || HasWholeWord(lc, "tbd")
    || p.pipeStatus(content)
    || Contains(content, "{status}") || Contains(content, "<status>") || Contains(content, "[status]")
  }

  // ---- Status positions ------------------------------------------------------------

  function TrimBullets(s: string): string {
    if s != "" && s[0] in {'*', '-'} then TrimBullets(s[1..]) else s
  }

  /** How long the `status:` label at the head of a stripped bullet is. */
  function LabelLength(lc: string): (r: Option<nat>)
    ensures r.Some? ==> r.value <= |lc|
  {
    if StartsWith(lc, "status:") then Some(7)
    else if StartsWith(lc, "**status:**") then Some(11)
    else if StartsWith(lc, "status**:") then Some(9)
    else None
  }

  function BulletValue(line: string): string {
    var stripped := Trim(TrimLeftChar(TrimBullets(Trim(line)), '*'));
    var n := LabelLength(AsciiLower(stripped));
    if n.Some? then Trim(TrimChar(TrimChar(Trim(stripped[n.value..]), '*'), '`')) else ""
  }

  function FirstBullet(lines: seq<string>): Option<string> {
    if lines == [] then None
    else if BulletValue(lines[0]) != "" then Some(BulletValue(lines[0]))
    else FirstBullet(lines[1..])
  }

  /** `find_bullet_status` */
  function BulletStatus(content: string): Option<string> {
    FirstBullet(Lines(Join(BeforeH2(AfterHeading(Lines(content))), "\n")))
  }

  function SectionStatus(content: string): Option<string> {
    StatusOf(Lines(content))
  }

  function FirstH1(lines: seq<string>): Option<string> {
    if lines == [] then None
    else
      var t := Trim(lines[0]);
      if StartsWith(t, "# ") then Some(Trim(t[2..]))
      else if t == "#" then Some("")
      else FirstH1(lines[1..])
  }

  function H1(content: string): Option<string> {
    FirstH1(Lines(content))
  }

  function H1SuffixStatus(p: Patterns, content: string): Option<string> {
    var h1 := H1(content);
    if h1.Some? then p.h1Suffix(h1.value) else None
  }

  // ---- Fingerprints and lookalikes ------------------------------------------------------

  function Hit(b: bool): nat {
    if b then 1 else 0
  }

  predicate NygardFingerprint(content: string) {
    var lc := AsciiLower(content);
    Hit(Contains(lc, "## context")) + Hit(Contains(lc, "## decision")) + Hit(Contains(lc, "## consequences")) >= 2
  }

  predicate MadrFingerprint(content: string) {
    var lc := AsciiLower(content);
    || Contains(lc, "context and problem statement") || Contains(lc, "considered options")
    || Contains(lc, "decision outcome") || Contains(lc, "chosen option:")
  }

  const NEVER_DECISION: set<string> := {
    "readme.md", "contributing.md", "changelog.md", "history.md", "releases.md",
    "code_of_conduct.md", "support.md", "security.md", "index.md"}

  predicate IsLinkLine(line: string) {
    var l := Trim(line);
    l == "" || l[0] in {'#', '-', '*'} || (l[0] == '[' && Contains(l, "]("))
  }

  predicate LooksLikeIndex(content: string) {
    && (exists l | l in Lines(content) :: Trim(l) != "")
    && (forall l | l in Lines(content) :: IsLinkLine(l))
    && !NygardFingerprint(content) && !MadrFingerprint(content)
  }

  /** The part of a name before the first hyphen or underscore. */
  function LeadingPart(name: string): string {
    if name == "" || name[0] in {'-', '_'} then "" else [name[0]] + LeadingPart(name[1..])
  }

  predicate LooksLikeTutorial(path: string, content: string) {
    var lead := LeadingPart(AsciiLower(FileName(path)));
    && lead != "" && (forall c | c in lead :: IsDigit(c))
    && BulletStatus(content).None? && SectionStatus(content).None? && F.Read(content).status.None?
    && !NygardFingerprint(content) && !MadrFingerprint(content)
  }

  predicate LooksLikePublishing(content: string) {
    var fm := F.Read(content);
    fm.present && (fm.hasPublishing || fm.onlyScopeOrPublishing)
  }

  predicate IsLookalike(path: string, content: string) {
    || AsciiLower(FileName(path)) in NEVER_DECISION
    || LooksLikePublishing(content)
    || F.Read(content).hasIssueTemplate
    || LooksLikeIndex(content)
    || LooksLikeTutorial(path, content)
  }

  // ---- The oracle ------------------------------------------------------------

  /** A decision record with the given raw status. */
  function Record(raw: string, title: string, docId: Option<string>, ban: bool, governs: seq<string>): GovernanceDoc {
    match Canonical(raw)
    case Some(canon) => GovernanceDoc(DecisionRecord, canon, canon == "accepted", FullParse, title, docId, ban, governs)
    case None => GovernanceDoc(DecisionRecord, "unknown", false, RecallOnly, title, docId, ban, governs)
  }

  function ClassifyTable(row: D.Row): GovernanceDoc {
    match row.statusRaw
    case Some(raw) => Record(raw, row.epitome, None, false, [])
    case None => GovernanceDoc(DecisionRecord, "unknown", false, RecallOnly, row.epitome, None, false, [])
  }

  /** Front matter, then a bullet, then the status section, then the suffix of the title. */
  function PositionStatus(p: Patterns, content: string): Option<string> {
    OrElse(F.Read(content).status,
      OrElse(BulletStatus(content), OrElse(SectionStatus(content), H1SuffixStatus(p, content))))
  }

  predicate Recognised(content: string) {
    var fm := F.Read(content);
    NygardFingerprint(content) || MadrFingerprint(content) || (fm.present && !fm.onlyScopeOrPublishing)
  }

  function ClassifyPositions(p: Patterns, path: string, content: string, sidecars: Sidecars): Option<GovernanceDoc> {
    var fm := F.Read(content);
    var title := H1(content).GetOr("");
    var docId := p.docId(path, title);
    match PositionStatus(p, content)
    case Some(raw) => Some(Record(raw, title, docId, fm.ban, fm.governs))
    case None =>
      if MadrFingerprint(content) then
        Some(GovernanceDoc(DecisionRecord, "accepted", true, FullParse, title, docId, fm.ban, fm.governs))
      else if NygardFingerprint(content) || sidecars.adrDir || sidecars.log4brains then
        Some(GovernanceDoc(DecisionRecord, "unknown", false, RecallOnly, title, docId, fm.ban, fm.governs))
      else None
  }

  /** `classify_governance_doc` */
  function Classify(p: Patterns, path: string, content: string, sidecars: Sidecars): Option<GovernanceDoc> {
    if IsTemplate(p, path, content) then None
    else if sidecars.kepYaml then
      Some(GovernanceDoc(ProposalInFlight, "unknown", false, RecallOnly, H1(content).GetOr(""), None, false, []))
    else if IsLookalike(path, content) then None
    else
      var table := D.Table(Lines(content));
      if table.Some? && table.value != [] then Some(ClassifyTable(table.value[0]))
      else if !Recognised(content) then None
      else ClassifyPositions(p, path, content, sidecars)
  }

  // ---- What a classification means --------------------------------------------------

  predicate Accepts(raw: string) {
    Canonical(raw) == Some("accepted")
  }

  lemma RecordStates(raw: string, title: string, docId: Option<string>, ban: bool, governs: seq<string>)
    ensures var d := Record(raw, title, docId, ban, governs); Sound(d) && (d.effective <==> Accepts(raw))
  {
    var c := Canonical(raw);
    if c.Some? {
      KnownState(c.value);
    }
  }

  /** What holds of every decision record the classifier makes. */
  predicate Sound(d: GovernanceDoc) {
    && (d.quality == RecallOnly <==> d.docState == "unknown")
    && (d.effective <==> d.quality == FullParse && d.docState == "accepted")
    && d.docClass == DecisionRecord
  }

  lemma TableStates(row: D.Row)
    ensures Sound(ClassifyTable(row))
    ensures ClassifyTable(row).effective <==> row.statusRaw.Some? && Accepts(row.statusRaw.value)
  {
    if row.statusRaw.Some? {
      RecordStates(row.statusRaw.value, row.epitome, None, false, []);
    }
  }

  lemma PositionStates(p: Patterns, path: string, content: string, sidecars: Sidecars)
    ensures var r, raw := ClassifyPositions(p, path, content, sidecars), PositionStatus(p, content);
      && (r.Some? ==> Sound(r.value))
      && (r.Some? && r.value.effective <==> if raw.Some? then Accepts(raw.value) else MadrFingerprint(content))
  {
    var raw, fm, title := PositionStatus(p, content), F.Read(content), H1(content).GetOr("");
    if raw.Some? {
      RecordStates(raw.value, title, p.docId(path, title), fm.ban, fm.governs);
    }
  }

  lemma KnownState(state: string)
    requires state in VOCABULARY
    ensures state != "unknown"
  {
  }

  /** The documents whose status is looked at. */
  predicate Examined(p: Patterns, path: string, content: string, sidecars: Sidecars) {
    && !IsTemplate(p, path, content) && !sidecars.kepYaml && !IsLookalike(path, content)
    && (HasTable(content) || Recognised(content))
  }

  predicate HasTable(content: string) {
    var table := D.Table(Lines(content));
    table.Some? && table.value != []
  }

  /** The raw status of a document: a table has the first say, even when its row has none. */
  function RawStatus(p: Patterns, content: string): Option<string> {
    if HasTable(content) then D.Table(Lines(content)).value[0].statusRaw else PositionStatus(p, content)
  }

  predicate IsEffective(p: Patterns, path: string, content: string, sidecars: Sidecars) {
    var r := Classify(p, path, content, sidecars);
    r.Some? && r.value.effective
  }

  predicate ImplicitlyAccepted(p: Patterns, content: string) {
    RawStatus(p, content).None? && !HasTable(content) && MadrFingerprint(content)
  }

  predicate StatusIn(p: Patterns, content: string, words: set<string>) {
    var raw := RawStatus(p, content);
    raw.Some? && Normal(raw.value) in words
  }

  /** How the gates and the two readings follow each other. */
  lemma ClassifyCases(p: Patterns, path: string, content: string, sidecars: Sidecars)
    ensures var r := Classify(p, path, content, sidecars);
      if Examined(p, path, content, sidecars) then
        r == if HasTable(content) then Some(ClassifyTable(D.Table(Lines(content)).value[0]))
             else ClassifyPositions(p, path, content, sidecars)
      else r.None? || (sidecars.kepYaml && r.value.docClass == ProposalInFlight && r.value.docState == "unknown"
                       && !r.value.effective && r.value.quality == RecallOnly)
  {
  }

  /**
   For every input: recall-only means an unknown state, only a fully parsed, accepted
   decision record is ever effective, and a document with `tbd` for a word is none.
   */
  lemma {:induction false} QualityAndEffect(p: Patterns, path: string, content: string, sidecars: Sidecars)
    ensures var r := Classify(p, path, content, sidecars);
      r.Some? ==>
        && (r.value.quality == RecallOnly <==> r.value.docState == "unknown")
        && (r.value.effective <==>
             r.value.docClass == DecisionRecord && r.value.quality == FullParse && r.value.docState == "accepted")
        && r.value.docClass in {DecisionRecord, ProposalInFlight}
        && (r.value.docClass == ProposalInFlight ==> sidecars.kepYaml)
        && !HasWholeWord(AsciiLower(content), "tbd")
  {
    ClassifyCases(p, path, content, sidecars);
    if HasTable(content) {
      TableStates(D.Table(Lines(content)).value[0]);
    }
    PositionStates(p, path, content, sidecars);
  }

  lemma TableEffective(p: Patterns, content: string)
    requires HasTable(content)
    ensures ClassifyTable(D.Table(Lines(content)).value[0]).effective <==> StatusIn(p, content, ACCEPTED_WORDS)
  {
    var row := D.Table(Lines(content)).value[0];
    TableStates(row);
    if row.statusRaw.Some? {
      AcceptedExactly(row.statusRaw.value);
    }
  }

  lemma PositionEffective(p: Patterns, path: string, content: string, sidecars: Sidecars)
    requires !HasTable(content)
    ensures var r := ClassifyPositions(p, path, content, sidecars);
      r.Some? && r.value.effective <==> StatusIn(p, content, ACCEPTED_WORDS) || ImplicitlyAccepted(p, content)
  {
    PositionStates(p, path, content, sidecars);
    var raw := PositionStatus(p, content);
    if raw.Some? {
      AcceptedExactly(raw.value);
    }
  }

  /** When a document comes out effective. */
  lemma {:induction false} EffectiveExactly(p: Patterns, path: string, content: string, sidecars: Sidecars)
    ensures IsEffective(p, path, content, sidecars) <==>
      Examined(p, path, content, sidecars)
      && (StatusIn(p, content, ACCEPTED_WORDS) || ImplicitlyAccepted(p, content))
  {
    ClassifyCases(p, path, content, sidecars);
    if HasTable(content) {
      TableEffective(p, content);
    } else {
      PositionEffective(p, path, content, sidecars);
    }
  }

  /** What the prose promises: `accepted` itself, or the implicit acceptance of MADR. */
  predicate EffectiveByProse(p: Patterns, path: string, content: string, sidecars: Sidecars) {
    Examined(p, path, content, sidecars) && (StatusIn(p, content, {"accepted"}) || ImplicitlyAccepted(p, content))
  }

  const SYNONYMS: set<string> := ACCEPTED_WORDS - {"accepted"}

  /** The code keeps the promise exactly for the documents whose status is no near-synonym. */
  lemma {:induction false} ProseHoldsExactly(p: Patterns, path: string, content: string, sidecars: Sidecars)
    ensures (IsEffective(p, path, content, sidecars) <==> EffectiveByProse(p, path, content, sidecars))
      <==> !(Examined(p, path, content, sidecars) && StatusIn(p, content, SYNONYMS))
  {
    EffectiveExactly(p, path, content, sidecars);
    assert "accepted" in ACCEPTED_WORDS;
  }
}
