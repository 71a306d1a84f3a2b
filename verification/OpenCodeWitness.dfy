/** A store whose tool parts name no call: two calls are stored, one is reported. */
module OpenCodeWitness {
  import opened Wrappers
  import opened Json
  import opened Events
  import opened Ctx
  import opened CtxLaws
  import opened CtxFirings
  import opened ChatPlan
  import opened ChatTools
  import opened ChatReports
  import opened ChatOutcomes
  import opened OpenCodeStore
  import OpenCodeLaws
  import Permutations

  const TOOL: string := "{\"type\":\"tool\"}"
  const IDLESS: Db := Db(
    [SessionRow("s", None, None)], [MessageRow("a", "s", ROLE, None)],
    [PartRow("p", "s", "a", TOOL), PartRow("q", "s", "a", TOOL)])

  const NAMELESS: Tool := Tool("", "", Null, None)

  /** The reader on the texts of the store. */
  predicate ReadsIdless(h: Host) {
    && h.fromJson(ROLE) == Some(Obj(map["role" := Str("assistant")]))
    && h.fromJson(TOOL) == Some(Obj(map["type" := Str("tool")]))
  }

  lemma IdlessTables()
    ensures Sessions(IDLESS) == IDLESS.sessions
    ensures Messages(IDLESS, "s") == IDLESS.messages && Parts(IDLESS, "s") == IDLESS.parts
  {
    var m, p := IDLESS.messages, IDLESS.parts;
    var inM, inP := (x: MessageRow) => x.sessionId == "s", (x: PartRow) => x.sessionId == "s";
    assert IDLESS.sessions == [IDLESS.sessions[0]] && m == [m[0]] && p == [p[0], p[1]];
    SortTwo(IDLESS.sessions[0], IDLESS.sessions[0], SessionLeq);
    KeptOne(inM, m[0]);
    SortTwo(m[0], m[0], MessageLeq);
    KeptTwo(inP, p[0], p[1]);
    SortTwo(p[0], p[1], PartLeq);
  }

  lemma KeptOne<T>(p: T -> bool, a: T)
    requires p(a)
    ensures Permutations.Kept(p, [a]) == [a]
  {
    assert [a][1..] == [] && Permutations.Kept(p, [a][1..]) == [];
  }

  lemma TwoOwnParts(h: Host, p: PartRow, q: PartRow, t: Tool)
    requires p.messageId == q.messageId && PieceOf(h, p) == ToolPiece(t) && PieceOf(h, q) == ToolPiece(t)
    ensures OpenCodeLaws.Tools(h, OpenCodeLaws.OwnParts([p, q], p.messageId)) == [t, t]
  {
    OwnTwo(p, q);
    ToolsTwo(h, p, q, t);
  }

  lemma OwnTwo(p: PartRow, q: PartRow)
    requires p.messageId == q.messageId
    ensures OpenCodeLaws.OwnParts([p, q], p.messageId) == [p, q]
  {
    assert [p, q][..1] == [p] && [p][..0] == [];
    assert OpenCodeLaws.OwnParts([p], p.messageId) == [] + [p];
    assert [p] + [q] == [p, q];
  }

  lemma ToolsTwo(h: Host, p: PartRow, q: PartRow, t: Tool)
    requires PieceOf(h, p) == ToolPiece(t) && PieceOf(h, q) == ToolPiece(t)
    ensures OpenCodeLaws.Tools(h, [p, q]) == [t, t]
  {
    assert [p, q][..1] == [p] && [p][..0] == [];
    assert OpenCodeLaws.Tools(h, [p]) == [] + [t];
    assert [t] + [t] == [t, t];
  }

  lemma IdlessTools(h: Host)
    requires ReadsIdless(h)
    ensures OpenCodeLaws.Tools(h, OpenCodeLaws.OwnParts(IDLESS.parts, "a")) == [NAMELESS, NAMELESS]
  {
    var p, q := IDLESS.parts[0], IDLESS.parts[1];
    assert PieceOf(h, p) == ToolPiece(NAMELESS) && PieceOf(h, q) == ToolPiece(NAMELESS);
    TwoOwnParts(h, p, q, NAMELESS);
    assert IDLESS.parts == [p, q];
  }

  lemma OneMessage(h: Host, db: Db, s: SessionRow, m: MessageRow, role: string)
    requires Messages(db, s.id) == [m] && RoleOf(h, m) == Some(role)
    ensures Records(h, db, [s])
      == [SessionRecord(s), MessageRecord(s.id, m, role, JoinedParts(h, Parts(db, s.id), m.id))]
  {
    assert [m][1..] == [] && [s][1..] == [];
    assert MessageRecords(h, s.id, [], Parts(db, s.id)) == [] && Records(h, db, []) == [];
  }

  lemma HeaderOffers(h: Host, render: Value -> string, s: SessionRow, raw: RawRecord)
    requires raw.bytes == render(SessionRecord(s)) && ReadsBack(h, render, SessionRecord(s))
    ensures Head(h, raw) == [s.id + ":start"] && Offered(h, raw) == []
  {
    assert StrField(SessionRecord(s), "sessionId") == Some(s.id);
  }

  lemma StreamOffers(h: Host, a: RawRecord, b: RawRecord)
    ensures Heads(h, [a, b]) == Head(h, a) + Head(h, b)
    ensures AllOffered(h, [a, b]) == Offered(h, a) + Offered(h, b)
  {
    assert [a, b][1..] == [b] && [b][1..] == [];
    assert Heads(h, [b]) == Head(h, b) + [] && Head(h, b) + [] == Head(h, b);
    assert AllOffered(h, [b]) == Offered(h, b) + [] && Offered(h, b) + [] == Offered(h, b);
  }

  lemma HeadsApart()
    ensures "s:start" != "s:a" && !ToolGuard("s:start") && !ToolGuard("s:a")
  {
    var g := "s:start";
    assert g[6] == 't' && g[5] == 'r';
    assert ":result"[5] == 'l' && ":call"[4] == 'l';
    assert |g| == 7 && g[|g| - 7..] == g && g[|g| - 5..][4] == 't';
  }

  /** A session and its one message with two tools that name no call. */
  lemma PairOffers(
      h: Host, render: Value -> string, s: SessionRow, m: MessageRow, role: string, parts: seq<PartRow>, t: Tool,
      a: RawRecord, b: RawRecord)
    requires OpenCodeLaws.Tools(h, OpenCodeLaws.OwnParts(parts, m.id)) == [t, t] && t.callId == ""
    requires role in {"user", "assistant"}
    requires a.bytes == render(SessionRecord(s)) && ReadsBack(h, render, SessionRecord(s))
    requires var v := MessageRecord(s.id, m, role, JoinedParts(h, parts, m.id));
      b.bytes == render(v) && ReadsBack(h, render, v)
    ensures Heads(h, [a, b]) == [s.id + ":start", OpenCodeLaws.EventId(s.id, m)]
    ensures AllOffered(h, [a, b]) == ["", ""]
  {
    HeaderOffers(h, render, s, a);
    OpenCodeLaws.MessageOffers(h, render, s.id, m, role, parts, b);
    StreamOffers(h, a, b);
    assert IdsOf([t, t]) == ["", ""];
    Side(s.id + ":start", OpenCodeLaws.EventId(s.id, m));
  }

  lemma Side(x: string, y: string)
    ensures [x] + [y] == [x, y] && [] + [x, y] == [x, y] && [] + ["", ""] == ["", ""]
  {
  }

  /** A store that holds nothing else reports one of the two calls. */
  lemma PairReportsOne(
      h: Host, render: Value -> string, db: Db, s: SessionRow, m: MessageRow, role: string, t: Tool,
      recs: seq<RawRecord>)
    requires Messages(db, s.id) == [m] && RoleOf(h, m) == Some(role) && role in {"user", "assistant"}
    requires OpenCodeLaws.Tools(h, OpenCodeLaws.OwnParts(Parts(db, s.id), m.id)) == [t, t] && t.callId == ""
    requires Carry(h, render, recs, Records(h, db, [s]))
    requires var x, y := s.id + ":start", OpenCodeLaws.EventId(s.id, m); x != y && !ToolGuard(x) && !ToolGuard(y)
    ensures Reported(Run(OpenCode, Steady(OpenCodeLaws.Planning(h)), FRESH, recs).1) == [""]
  {
    OneMessage(h, db, s, m, role);
    assert |recs| == 2 && recs == [recs[0], recs[1]];
    PairOffers(h, render, s, m, role, Parts(db, s.id), t, recs[0], recs[1]);
    OneReported(h, recs);
  }

  /** The stream of the store reports one call, although it stores two. */
  lemma {:induction false} TwoIdlessParts(h: Host, render: Value -> string, recs: seq<RawRecord>)
    requires ReadsIdless(h) && Carry(h, render, recs, Records(h, IDLESS, Sessions(IDLESS)))
    ensures |OpenCodeLaws.Tools(h, OpenCodeLaws.OwnParts(Parts(IDLESS, "s"), "a"))| == 2
    ensures Reported(Run(OpenCode, Steady(OpenCodeLaws.Planning(h)), FRESH, recs).1) == [""]
  {
    var s, m := IDLESS.sessions[0], IDLESS.messages[0];
    IdlessTables();
    IdlessTools(h);
    HeadsApart();
    IdlessNames();
    assert IDLESS.sessions == [s] && IDLESS.messages == [m];
    PairReportsOne(h, render, IDLESS, s, m, "assistant", NAMELESS, recs);
  }

  lemma IdlessNames()
    ensures "s" + ":start" == "s:start" && OpenCodeLaws.EventId("s", IDLESS.messages[0]) == "s:a"
  {
  }

  lemma OneReported(h: Host, recs: seq<RawRecord>)
    requires NoDups(Heads(h, recs)) && forall g | g in Heads(h, recs) :: !ToolGuard(g)
    requires AllOffered(h, recs) == ["", ""]
    ensures Reported(Run(OpenCode, Steady(OpenCodeLaws.Planning(h)), FRESH, recs).1) == [""]
  {
    StreamReports(h, OPENCODE_DIALECT, FRESH, recs);
    assert ["", ""][..1] == [""] && [""][..0] == [];
    FirstNewOne("", {});
  }
}
