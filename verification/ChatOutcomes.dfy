/** A call id that two messages share: the second result is dropped, its outcome kept. */
module ChatOutcomes {
  import opened Wrappers
  import opened Json
  import opened Events
  import opened Ctx
  import opened CtxLaws
  import opened CtxFirings
  import opened ChatPlan
  import opened ChatTools
  import opened ChatReports
  import opened OpenCodeStore
  import ChatLaws
  import Permutations
  import Sorting
  import OpenCodeLaws

  /** A user or assistant message with one call, answered in the same record. */
  predicate AnswersOne(h: Host, raw: RawRecord, id: string, callId: string, ok: bool) {
    IsTurn(h, raw)
    && var v := ParseJsonLine(h, raw).value;
       && MessageId(h, raw, v) == id
       && |Calls(v)| == 1 && Calls(v)[0].Obj? && CallId(id, Calls(v)[0], 0) == callId
       && var found := FindResult(Results(v), callId);
          found.Some? && ResultOk(found.value) == ok
  }

  /** What a suppressed or emitted result means for the events' own outcomes. */
  function After(known: map<string, bool>, seen: set<string>, callId: string, ok: bool): map<string, bool> {
    if callId == "" || callId + ":result" in seen then known else known[callId := ok]
  }

  /** The outcomes of a state after some events, and what the events alone say. */
  ghost predicate Answered(s: State, x: (State, seq<CaptureEvent>), callId: string, ok: bool) {
    && x.0.callOk == s.callOk[callId := ok]
    && forall known :: LastOutcomes(known, x.1) == After(known, s.seen, callId, ok)
  }

  ghost predicate Silent(evs: seq<CaptureEvent>) {
    forall e | e in evs :: !e.kind.ToolResult?
  }

  lemma {:induction false} SilentKeeps(known: map<string, bool>, evs: seq<CaptureEvent>)
    requires Silent(evs)
    ensures LastOutcomes(known, evs) == known
  {
    if evs != [] {
      assert evs[0] in evs;
      SilentKeeps(known, evs[1..]);
    }
  }

  lemma PairOutcome(
      src: Source, raw: RawRecord, s: State, eventId: string, ts: int, callId: string, found: Option<Value>)
    requires found.Some?
    ensures Answered(s, Exec(src, raw, s, ResultOps(eventId, ts, callId, found)), callId, ResultOk(found.value))
    ensures callId + ":result" in Exec(src, raw, s, ResultOps(eventId, ts, callId, found)).0.seen
  {
    var ok, id := ResultOk(found.value), callId + ":result";
    OutcomeRuns(src, raw, s, callId, ok, id, Some(eventId), ts, ResultOutput(found.value));
    assert ResultOps(eventId, ts, callId, found)
      == OutcomeOps(callId, ok, id, Some(eventId), ts, ResultOutput(found.value));
  }

  /** Silent operations in front make no difference. */
  lemma SilentFirst(
      src: Source, raw: RawRecord, s: State, a: seq<Op>, b: seq<Op>, callId: string, ok: bool)
    requires var x := Exec(src, raw, s, a);
      && Silent(x.1) && x.0.callOk == s.callOk
      && (callId + ":result" in x.0.seen <==> callId + ":result" in s.seen)
      && Answered(x.0, Exec(src, raw, x.0, b), callId, ok)
    ensures Answered(s, Exec(src, raw, s, a + b), callId, ok)
  {
    ExecConcat(src, raw, s, a, b);
    var x := Exec(src, raw, s, a);
    var y := Exec(src, raw, x.0, b);
    forall known ensures LastOutcomes(known, x.1 + y.1) == After(known, s.seen, callId, ok) {
      LastOutcomesConcat(known, x.1, y.1);
      SilentKeeps(known, x.1);
      assert After(known, x.0.seen, callId, ok) == After(known, s.seen, callId, ok);
    }
  }

  lemma CallOutcome(
      src: Source, raw: RawRecord, s: State, eventId: string, ts: int, call: Value, results: seq<Value>, callId: string)
    requires call.Obj? && CallId(eventId, call, 0) == callId && FindResult(results, callId).Some?
    ensures var x := Exec(src, raw, s, CallsOps(eventId, ts, [call], results));
      && Answered(s, x, callId, ResultOk(FindResult(results, callId).value))
      && callId + ":result" in x.0.seen
  {
    var found := FindResult(results, callId);
    var op, tail := CallOp(eventId, ts, callId, call), ResultOps(eventId, ts, callId, found);
    assert [call][..0] == [] && CallsOps(eventId, ts, [call][..0], results) == [];
    assert CallsOps(eventId, ts, [call], results) == [op] + tail;
    OnceEmits(src, raw, s, op.guard, op.body[0]);
    assert op == Once(op.guard, [op.body[0]]);
    GuardsApart(callId, callId);
    var x := Exec(src, raw, s, [op]);
    PairOutcome(src, raw, x.0, eventId, ts, callId, found);
    SilentFirst(src, raw, s, [op], tail, callId, ResultOk(found.value));
    ExecConcat(src, raw, s, [op], tail);
  }

  lemma MessageOutcome(h: Host, d: Dialect, raw: RawRecord, s: State, id: string, callId: string, ok: bool)
    requires AnswersOne(h, raw, id, callId, ok) && id !in s.seen && id != callId + ":result"
    ensures var x := Exec(d.src, raw, s, Plan(h, d, raw));
      Answered(s, x, callId, ok) && callId + ":result" in x.0.seen
  {
    var v := ParseJsonLine(h, raw).value;
    var ts := TsFrom(h, v, ["ts", "timestamp"]);
    var first := MessageBody(h, raw, v)[0];
    BodyIs(h, raw, v);
    assert Calls(v) == [Calls(v)[0]];
    TurnOutcome(d.src, raw, s, first, ts, Calls(v)[0], Results(v), callId);
  }

  lemma TurnOutcome(
      src: Source, raw: RawRecord, s: State, first: Op, ts: int, call: Value, results: seq<Value>, callId: string)
    requires first.Emit? && !first.kind.ToolResult?
    requires first.eventId !in s.seen && first.eventId != callId + ":result"
    requires call.Obj? && CallId(first.eventId, call, 0) == callId && FindResult(results, callId).Some?
    ensures var x := Exec(src, raw, s, [Once(first.eventId, [first] + CallsOps(first.eventId, ts, [call], results))]);
      Answered(s, x, callId, ResultOk(FindResult(results, callId).value)) && callId + ":result" in x.0.seen
  {
    var id := first.eventId;
    var calls, t := CallsOps(id, ts, [call], results), s.(seen := s.seen + {id});
    ExecOne(src, raw, s, Once(id, [first] + calls));
    ExecOne(src, raw, t, first);
    var x := Exec(src, raw, t, [first]);
    CallOutcome(src, raw, x.0, id, ts, call, results, callId);
    SilentFirst(src, raw, t, [first], calls, callId, ResultOk(FindResult(results, callId).value));
    ExecConcat(src, raw, t, [first], calls);
  }

  /**
   Two messages that answer one call id: the map holds the second outcome, the stream
   only the first, so they agree iff the outcomes do.
   */
  lemma {:induction false} SharedCallExactly(
      h: Host, d: Dialect, s: State, a: RawRecord, b: RawRecord, idA: string, idB: string, callId: string,
      okA: bool, okB: bool)
    requires AnswersOne(h, a, idA, callId, okA) && AnswersOne(h, b, idB, callId, okB)
    requires callId != "" && callId + ":result" !in s.seen
    requires idA != idB && idA !in s.seen && idB !in s.seen && !ToolGuard(idA) && !ToolGuard(idB)
    ensures var r := Run(d.src, Steady(ChatLaws.Planning(h, d)), s, [a, b]);
      && r.0.callOk == s.callOk[callId := okB]
      && LastOutcomes(s.callOk, r.1) == s.callOk[callId := okA]
      && (r.0.callOk == LastOutcomes(s.callOk, r.1) <==> okA == okB)
  {
    var plan := Steady(ChatLaws.Planning(h, d));
    var x := Exec(d.src, a, s, plan(s, a));
    FirstMessage(h, d, s, a, idA, idB, callId, okA);
    MessageOutcome(h, d, b, x.0, idB, callId, okB);
    var y := Exec(d.src, b, x.0, plan(x.0, b));
    RunTwo(d.src, plan, s, a, b);
    Overwritten(s, x, y, callId, okA, okB);
  }

  lemma FirstMessage(
      h: Host, d: Dialect, s: State, a: RawRecord, idA: string, idB: string, callId: string, ok: bool)
    requires AnswersOne(h, a, idA, callId, ok)
    requires idA != idB && idA !in s.seen && idB !in s.seen && !ToolGuard(idA) && !ToolGuard(idB)
    ensures var x := Exec(d.src, a, s, Plan(h, d, a));
      && Answered(s, x, callId, ok) && callId + ":result" in x.0.seen && idB !in x.0.seen
    ensures idA != callId + ":result" && idB != callId + ":result"
  {
    GuardsApart(callId, callId);
    MessageOutcome(h, d, a, s, idA, callId, ok);
    RecordReports(h, d, a, s);
  }

  lemma Overwritten(
      s: State, x: (State, seq<CaptureEvent>), y: (State, seq<CaptureEvent>), callId: string, okA: bool, okB: bool)
    requires Answered(s, x, callId, okA) && Answered(x.0, y, callId, okB)
    requires callId != "" && callId + ":result" !in s.seen && callId + ":result" in x.0.seen
    ensures y.0.callOk == s.callOk[callId := okB]
    ensures LastOutcomes(s.callOk, x.1 + y.1) == s.callOk[callId := okA]
    ensures y.0.callOk == LastOutcomes(s.callOk, x.1 + y.1) <==> okA == okB
  {
    var before := s.callOk[callId := okA];
    LastOutcomesConcat(s.callOk, x.1, y.1);
    assert LastOutcomes(s.callOk, x.1) == before;
    assert LastOutcomes(before, y.1) == before;
    assert before[callId := okB] == s.callOk[callId := okB];
    SetAgain(before, callId, okB);
  }

  lemma RunTwo(src: Source, plan: Planner, s: State, a: RawRecord, b: RawRecord)
    ensures var x := Exec(src, a, s, plan(s, a));
      var y := Exec(src, b, x.0, plan(x.0, b));
      Run(src, plan, s, [a, b]) == (y.0, x.1 + y.1)
  {
    assert [a, b] == [a] + [b];
    RunSnoc(src, plan, s, [a], b);
    RunSnoc(src, plan, s, [], a);
    assert [] + [a] == [a];
    var x := Exec(src, a, s, plan(s, a));
    assert [] + x.1 == x.1;
  }

  // ---- A store that shows it ------------------------------------------------------------

  const ROLE: string := "{\"role\":\"assistant\"}"
  const DONE: string := "{\"type\":\"tool\",\"callID\":\"c\",\"state\":{\"status\":\"completed\"}}"
  const FAILED: string := "{\"type\":\"tool\",\"callID\":\"c\",\"state\":{\"status\":\"error\"}}"
  const SHARED: Db := Db(
    [SessionRow("s", None, None)],
    [MessageRow("a", "s", ROLE, None), MessageRow("b", "s", ROLE, None)],
    [PartRow("p", "s", "a", DONE), PartRow("q", "s", "b", FAILED)])

  function PartValue(status: string): Value {
    Obj(map["type" := Str("tool"), "callID" := Str("c"), "state" := Obj(map["status" := Str(status)])])
  }

  /** The reader on the texts of the store. */
  predicate ReadsShared(h: Host) {
    && h.fromJson(ROLE) == Some(Obj(map["role" := Str("assistant")]))
    && h.fromJson(DONE) == Some(PartValue("completed"))
    && h.fromJson(FAILED) == Some(PartValue("error"))
  }

  function SharedTool(ok: bool): Tool {
    Tool("c", "", Null, Some(Outcome(ok, Null)))
  }

  lemma SortTwo<T>(a: T, b: T, leq: (T, T) -> bool)
    requires leq(a, b)
    ensures Sorting.SortBy([a, b], leq) == [a, b] && Sorting.SortBy([a], leq) == [a]
  {
    assert [a][1..] == [] && [b][1..] == [] && [a, b][1..] == [b];
    assert Sorting.SortBy([b], leq) == [b];
    assert [a] + [b] == [a, b];
  }

  lemma SharedTables()
    ensures Sessions(SHARED) == SHARED.sessions
    ensures Messages(SHARED, "s") == SHARED.messages && Parts(SHARED, "s") == SHARED.parts
  {
    var m, p := SHARED.messages, SHARED.parts;
    var inM, inP := (x: MessageRow) => x.sessionId == "s", (x: PartRow) => x.sessionId == "s";
    SortTwo(SHARED.sessions[0], SHARED.sessions[0], SessionLeq);
    KeptTwo(inM, m[0], m[1]);
    SortTwo(m[0], m[1], MessageLeq);
    KeptTwo(inP, p[0], p[1]);
    SortTwo(p[0], p[1], PartLeq);
    assert m == [m[0], m[1]] && p == [p[0], p[1]];
  }

  lemma KeptTwo<T>(p: T -> bool, a: T, b: T)
    requires p(a) && p(b)
    ensures Permutations.Kept(p, [a, b]) == [a, b]
  {
    assert [a, b][1..] == [b] && [b][1..] == [];
    assert Permutations.Kept(p, [b]) == [b];
    assert [a] + [b] == [a, b];
  }

  /** Each message of the store holds its own tool part. */
  lemma SharedTools(h: Host)
    requires ReadsShared(h)
    ensures OpenCodeLaws.Tools(h, OpenCodeLaws.OwnParts(SHARED.parts, "a")) == [SharedTool(true)]
    ensures OpenCodeLaws.Tools(h, OpenCodeLaws.OwnParts(SHARED.parts, "b")) == [SharedTool(false)]
  {
    assert PieceOf(h, SHARED.parts[0]) == ToolPiece(SharedTool(true));
    assert PieceOf(h, SHARED.parts[1]) == ToolPiece(SharedTool(false));
    TwoParts(h, SHARED.parts[0], SHARED.parts[1], SharedTool(true), SharedTool(false));
    assert SHARED.parts == [SHARED.parts[0], SHARED.parts[1]];
  }

  lemma TwoParts(h: Host, p: PartRow, q: PartRow, t: Tool, u: Tool)
    requires p.messageId != q.messageId && PieceOf(h, p) == ToolPiece(t) && PieceOf(h, q) == ToolPiece(u)
    ensures OpenCodeLaws.Tools(h, OpenCodeLaws.OwnParts([p, q], p.messageId)) == [t]
    ensures OpenCodeLaws.Tools(h, OpenCodeLaws.OwnParts([p, q], q.messageId)) == [u]
  {
    assert [p, q][..1] == [p] && [p][..0] == [];
    assert OpenCodeLaws.OwnParts([p], p.messageId) == [p] && OpenCodeLaws.OwnParts([p], q.messageId) == [];
    assert [p][..0] == [] && [q][..0] == [];
  }

  lemma SharedAnswers(h: Host, render: Value -> string, m: MessageRow, ok: bool, raw: RawRecord)
    requires OpenCodeLaws.Tools(h, OpenCodeLaws.OwnParts(SHARED.parts, m.id)) == [SharedTool(ok)]
    requires var v := MessageRecord("s", m, "assistant", JoinedParts(h, SHARED.parts, m.id));
      raw.bytes == render(v) && ReadsBack(h, render, v)
    ensures AnswersOne(h, raw, "s:" + m.id, "c", ok)
  {
    var j, tools := JoinedParts(h, SHARED.parts, m.id), [SharedTool(ok)];
    OpenCodeLaws.JoinMeaning(h, SHARED.parts, m.id);
    OpenCodeLaws.MessageFields("s", m, "assistant", j);
    assert OpenCodeLaws.EventId("s", m) == "s:" + m.id;
    FindOwn(tools, 0);
    ResultRead(tools[0]);
    CallRead("s:" + m.id, tools[0], 0);
    assert CallValues(tools) == [CallValue(tools[0])];
  }

  lemma HeaderSilent(d: Dialect, raw: RawRecord, s: State, session: string, ts: int, kind: EventKind)
    requires !kind.ToolResult?
    ensures var x := Exec(d.src, raw, s, HeaderOps(session, ts, kind));
      Silent(x.1) && x.0.callOk == s.callOk && x.0.seen == s.seen + {session + ":start"}
  {
    var id := session + ":start";
    var body := [BindProject(DEFAULT_PROJECT), Emit(id, None, ts, kind)];
    ExecConcat(d.src, raw, s, [BindSession(session)], [Once(id, body)]);
    ExecOne(d.src, raw, s, BindSession(session));
    var t := ExecOp(d.src, raw, s, BindSession(session)).0;
    ExecOne(d.src, raw, t, Once(id, body));
    var u := t.(seen := t.seen + {id});
    assert body == [body[0]] + [body[1]];
    ExecConcat(d.src, raw, u, [body[0]], [body[1]]);
    ExecOne(d.src, raw, u, body[0]);
    ExecOne(d.src, raw, ExecOp(d.src, raw, u, body[0]).0, body[1]);
  }

  /**
   Two parts share the id of a call that first completed and then failed. The stream
   of the store reports the success only, and the map ends with the failure.
   */
  lemma {:induction false} SharedStoreDiverges(h: Host, render: Value -> string, recs: seq<RawRecord>)
    requires ReadsShared(h) && Carry(h, render, recs, Records(h, SHARED, Sessions(SHARED)))
    ensures var r := Run(OpenCode, Steady(OpenCodeLaws.Planning(h)), FRESH, recs);
      r.0.callOk == map["c" := false] && LastOutcomes(map[], r.1) == map["c" := true]
  {
    SharedRecords(h);
    assert |recs| == 3 && recs == [recs[0]] + [recs[1], recs[2]];
    var plan := Steady(OpenCodeLaws.Planning(h));
    SharedStart(h, render, recs[0]);
    var x := Exec(OpenCode, recs[0], FRESH, plan(FRESH, recs[0]));
    SharedPair(h, render, x.0, recs[1], recs[2]);
    var y := Run(OpenCode, plan, x.0, [recs[1], recs[2]]);
    assert recs[1..] == [recs[1], recs[2]];
    LastOutcomesConcat(map[], x.1, y.1);
    SilentKeeps(map[], x.1);
  }

  lemma SharedStart(h: Host, render: Value -> string, raw: RawRecord)
    requires var v := SessionRecord(SHARED.sessions[0]); raw.bytes == render(v) && ReadsBack(h, render, v)
    ensures var x := Exec(OpenCode, raw, FRESH, OpenCodeLaws.Planning(h)(raw));
      Silent(x.1) && x.0.callOk == map[] && x.0.seen == {"s:start"}
  {
    var kind := SessionStart(".", None, None, None);
    OpenCodeLaws.StartPlanned(h, render, SHARED.sessions[0], raw);
    HeaderSilent(OPENCODE_DIALECT, raw, FRESH, "s", OpenCodeLaws.StoredTs(h, None), kind);
    SharedIds();
    assert {} + {"s:start"} == {"s:start"};
  }

  lemma SharedPair(h: Host, render: Value -> string, s: State, a: RawRecord, b: RawRecord)
    requires ReadsShared(h) && s.seen == {"s:start"} && s.callOk == map[]
    requires var v := MessageRecord("s", SHARED.messages[0], "assistant", JoinedParts(h, SHARED.parts, "a"));
      a.bytes == render(v) && ReadsBack(h, render, v)
    requires var v := MessageRecord("s", SHARED.messages[1], "assistant", JoinedParts(h, SHARED.parts, "b"));
      b.bytes == render(v) && ReadsBack(h, render, v)
    ensures var r := Run(OpenCode, Steady(OpenCodeLaws.Planning(h)), s, [a, b]);
      r.0.callOk == map["c" := false] && LastOutcomes(map[], r.1) == map["c" := true]
  {
    SharedTools(h);
    SharedAnswers(h, render, SHARED.messages[0], true, a);
    SharedAnswers(h, render, SHARED.messages[1], false, b);
    SharedIds();
    SharedCallExactly(h, OPENCODE_DIALECT, s, a, b, "s:a", "s:b", "c", true, false);
    assert map[]["c" := false] == map["c" := false] && map[]["c" := true] == map["c" := true];
  }

  lemma SharedIds()
    ensures !ToolGuard("s:a") && !ToolGuard("s:b")
    ensures "s:a" != "s:b" && "s:a" != "s:start" && "s:b" != "s:start" && "c:result" != "s:start"
    ensures "s" + ":start" == "s:start" && "c" + ":result" == "c:result" && "s:" + "a" == "s:a" && "s:" + "b" == "s:b"
  {
    assert "s:a"[2] != "s:b"[2] && "c:result"[0] != "s:start"[0];
    assert |"s:a"| == 3 && |"s:b"| == 3 && |"s:start"| == 7;
  }

  lemma SharedRecords(h: Host)
    requires ReadsShared(h)
    ensures var m, n := SHARED.messages[0], SHARED.messages[1];
      Records(h, SHARED, Sessions(SHARED)) == [
        SessionRecord(SHARED.sessions[0]),
        MessageRecord("s", m, "assistant", JoinedParts(h, SHARED.parts, "a")),
        MessageRecord("s", n, "assistant", JoinedParts(h, SHARED.parts, "b"))]
  {
    var m, n := SHARED.messages[0], SHARED.messages[1];
    SharedTables();
    assert SHARED.messages == [m, n] && SHARED.sessions == [SHARED.sessions[0]];
    assert RoleOf(h, m) == Some("assistant") && RoleOf(h, n) == Some("assistant");
    TwoMessages(h, SHARED, SHARED.sessions[0], m, n, "assistant");
  }

  lemma TwoMessages(h: Host, db: Db, s: SessionRow, m: MessageRow, n: MessageRow, role: string)
    requires Messages(db, s.id) == [m, n] && RoleOf(h, m) == Some(role) && RoleOf(h, n) == Some(role)
    ensures var parts := Parts(db, s.id);
      Records(h, db, [s]) == [
        SessionRecord(s), MessageRecord(s.id, m, role, JoinedParts(h, parts, m.id)),
        MessageRecord(s.id, n, role, JoinedParts(h, parts, n.id))]
  {
    var parts := Parts(db, s.id);
    assert [m, n][1..] == [n] && [n][1..] == [] && [s][1..] == [];
    assert MessageRecords(h, s.id, [], parts) == [] && Records(h, db, []) == [];
    assert MessageRecords(h, s.id, [n], parts) == [MessageRecord(s.id, n, role, JoinedParts(h, parts, n.id))];
  }
}
