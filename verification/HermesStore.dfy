/** The Hermes store: assistant calls joined with the tool rows that answer them. */
module HermesStore {
  import opened Wrappers
  import opened Json
  import opened Events
  import opened Text
  import opened ChatTools
  import opened Permutations
  import Sorting
  import Ties

  datatype SessionRow = SessionRow(id: string, model: Option<string>, startedAt: Option<string>, title: Option<string>)
  datatype MessageRow = MessageRow(
    id: int, sessionId: string, role: string, content: Option<string>,
    toolCallId: Option<string>, toolCalls: Option<string>, timestamp: Option<string>)

  /** The two tables, rows in no particular order. */
  datatype Db = Db(sessions: seq<SessionRow>, messages: seq<MessageRow>)

  predicate SessionLeq(a: SessionRow, b: SessionRow) {
    LexLeq(a.id, b.id)
  }

  predicate RowLeq(a: MessageRow, b: MessageRow) {
    a.id <= b.id
  }

  function Sessions(db: Db): seq<SessionRow> {
    Sorting.SortBy(db.sessions, SessionLeq)
  }

  function Rows(db: Db, sessionId: string): seq<MessageRow> {
    Sorting.SortBy(Kept((m: MessageRow) => m.sessionId == sessionId, db.messages), RowLeq)
  }

  // ---- Which row answers a call ------------------------------------------------------

  predicate AnswersCall(row: MessageRow, callId: string) {
    row.role == "tool" && row.toolCallId == Some(callId) && row.content.Some?
  }

  /** The naive reading: the content of the last tool row that names the call. */
  function LastAnswer(rows: seq<MessageRow>, callId: string): Option<string> {
    if rows == [] then None
    else
      var last := rows[|rows| - 1];
      if AnswersCall(last, callId) then last.content else LastAnswer(rows[..|rows| - 1], callId)
  }

  /** What the last answer is: no later row answers the call. */
  lemma {:induction false} LastAnswerMeaning(rows: seq<MessageRow>, callId: string)
    ensures LastAnswer(rows, callId).None? <==> forall r | r in rows :: !AnswersCall(r, callId)
    ensures LastAnswer(rows, callId).Some? ==> exists k | 0 <= k < |rows| ::
      && AnswersCall(rows[k], callId) && rows[k].content == LastAnswer(rows, callId)
      && forall m | k < m < |rows| :: !AnswersCall(rows[m], callId)
  {
    if rows != [] {
      var n := |rows| - 1;
      var init := rows[..n];
      LastAnswerMeaning(init, callId);
      assert rows == init + [rows[n]];
      assert rows[n] in rows;
      if !AnswersCall(rows[n], callId) && LastAnswer(init, callId).Some? {
        var k :| 0 <= k < n && AnswersCall(init[k], callId) && init[k].content == LastAnswer(init, callId)
          && forall m | k < m < n :: !AnswersCall(init[m], callId);
        assert forall m | k < m < |rows| :: m == n || rows[m] == init[m];
        assert rows[k] == init[k];
      }
    }
  }

  // ---- Calls ------------------------------------------------------------

  function CallIdOf(fallback: string, call: Value): string {
    StrField(call, "id").GetOr(fallback)
  }

  function CallName(call: Value): string {
    AsStr(OrElse(Get(call, "name"), GetIn(Get(call, "function"), "name"))).GetOr("")
  }

  function CallArgs(call: Value): Value {
    OrElse(Get(call, "arguments"), OrElse(Get(call, "args"), GetIn(Get(call, "function"), "arguments"))).GetOr(Null)
  }

  /** A call with its answer; an answered call always counts as successful. */
  function ToolOf(rows: seq<MessageRow>, fallback: string, call: Value): Tool {
    var id := CallIdOf(fallback, call);
    var answer := LastAnswer(rows, id);
    Tool(id, CallName(call), CallArgs(call), if answer.Some? then Some(Outcome(true, Str(answer.value))) else None)
  }

  /** The calls of a row; entries that are not objects are passed over. */
  function ToolsOf(rows: seq<MessageRow>, fallback: string, calls: seq<Value>): seq<Tool> {
    if calls == [] then []
    else
      var n := |calls| - 1;
      var tools := ToolsOf(rows, fallback, calls[..n]);
      if calls[n].Obj? then tools + [ToolOf(rows, fallback, calls[n])] else tools
  }

  /** The call list of a row, where it has one that reads as a JSON array. */
  function CallList(h: Host, row: MessageRow): Option<seq<Value>> {
    if row.toolCalls.Some? then AsArray(h.fromJson(row.toolCalls.value)) else None
  }

  // ---- Records ------------------------------------------------------------

  function OptStr(s: Option<string>): Value {
    if s.Some? then Str(s.value) else Null
  }

  function RowId(sessionId: string, row: MessageRow): string {
    sessionId + ":" + SignedText(row.id)
  }

  function Fallback(sessionId: string, row: MessageRow): string {
    RowId(sessionId, row) + ":call"
  }

  function SessionRecord(s: SessionRow): Value {
    Obj(map["kind" := Str("session_start"), "sessionId" := Str(s.id), "model" := OptStr(s.model),
            "ts" := OptStr(s.startedAt), "title" := OptStr(s.title)])
  }

  function BaseRecord(sessionId: string, row: MessageRow): map<string, Value> {
    map["id" := Str(RowId(sessionId, row)), "sessionId" := Str(sessionId), "role" := Str(row.role),
        "text" := Str(row.content.GetOr("")), "ts" := OptStr(row.timestamp)]
  }

  /** A record with its calls; the list of results is left out when empty. */
  function WithCalls(base: map<string, Value>, calls: seq<Value>, results: seq<Value>): Value {
    var withCalls := base["toolCalls" := Arr(calls)];
    Obj(if results != [] then withCalls["toolResults" := Arr(results)] else withCalls)
  }

  /** The record of a row that is not a tool row. */
  function RowRecord(h: Host, sessionId: string, rows: seq<MessageRow>, row: MessageRow): Value {
    match CallList(h, row)
    case Some(calls) =>
      var tools := ToolsOf(rows, Fallback(sessionId, row), calls);
      WithCalls(BaseRecord(sessionId, row), CallValues(tools), ResultValues(tools))
    case None => Obj(BaseRecord(sessionId, row))
  }

  /** The rows that become messages: all but the tool rows. */
  function Spoken(rows: seq<MessageRow>): seq<MessageRow> {
    if rows == [] then []
    else
      var spoken, last := Spoken(rows[..|rows| - 1]), rows[|rows| - 1];
      if last.role == "tool" then spoken else spoken + [last]
  }

  /** One record for each row that is not a tool row, in row order. */
  function RowRecords(h: Host, sessionId: string, rows: seq<MessageRow>): seq<Value> {
    var spoken := Spoken(rows);
    seq(|spoken|, i requires 0 <= i < |spoken| => RowRecord(h, sessionId, rows, spoken[i]))
  }

  function Records(h: Host, db: Db, sessions: seq<SessionRow>): seq<Value> {
    if sessions == [] then []
    else
      var s := sessions[0];
      [SessionRecord(s)] + RowRecords(h, s.id, Rows(db, s.id)) + Records(h, db, sessions[1..])
  }

  // ---- The reader ------------------------------------------------------------

  /** The index holds every call's last answer, and nothing else. */
  ghost predicate Indexes(index: map<string, string>, rows: seq<MessageRow>) {
    forall id: string ::
      (id in index <==> LastAnswer(rows, id).Some?) && (id in index ==> LastAnswer(rows, id) == Some(index[id]))
  }

  lemma SessionStep(h: Host, db: Db, sessions: seq<SessionRow>, i: nat, r: seq<Value>)
    requires i < |sessions|
    ensures var s := sessions[i];
      r + Records(h, db, sessions[i..])
      == r + ([SessionRecord(s)] + RowRecords(h, s.id, Rows(db, s.id))) + Records(h, db, sessions[i + 1..])
  {
    assert sessions[i..][0] == sessions[i] && sessions[i..][1..] == sessions[i + 1..];
  }

  class StoreReader {
    const h: Host

    constructor (h: Host)
      ensures this.h == h
    {
      this.h := h;
    }

    /** First pass: index the tool rows by the call they answer, later rows overwriting. */
    method IndexAnswers(rows: seq<MessageRow>) returns (index: map<string, string>)
      ensures Indexes(index, rows)
    {
      index := map[];
      for k := 0 to |rows|
        invariant Indexes(index, rows[..k])
      {
        assert rows[..k + 1][..k] == rows[..k];
        var row := rows[k];
        if row.role == "tool" && row.toolCallId.Some? && row.content.Some? {
          index := index[row.toolCallId.value := row.content.value];
        }
      }
      assert rows[..|rows|] == rows;
    }

    /** The calls of one row, results looked up in the index. */
    method JoinCalls(calls: seq<Value>, fallback: string, index: map<string, string>, rows: seq<MessageRow>)
      returns (toolCalls: seq<Value>, results: seq<Value>)
      requires Indexes(index, rows)
      ensures var tools := ToolsOf(rows, fallback, calls);
        toolCalls == CallValues(tools) && results == ResultValues(tools)
    {
      toolCalls, results := [], [];
      ghost var tools: seq<Tool> := [];
      for k := 0 to |calls|
        invariant tools == ToolsOf(rows, fallback, calls[..k])
        invariant toolCalls == CallValues(tools) && results == ResultValues(tools)
      {
        assert calls[..k + 1][..k] == calls[..k];
        var call := calls[k];
        if call.Obj? {
          var id := CallIdOf(fallback, call);
          ghost var t := ToolOf(rows, fallback, call);
          ResultsSnoc(tools, t);
          assert CallValues(tools + [t]) == CallValues(tools) + [CallValue(t)];
          if id in index {
            results := results + [Obj(map["id" := Str(id), "ok" := Bool(true), "output" := Str(index[id])])];
          } else {
            assert results + [] == results;
          }
          toolCalls := toolCalls + [Obj(map["id" := Str(id), "name" := Str(CallName(call)), "args" := CallArgs(call)])];
          tools := tools + [t];
        }
      }
      assert calls[..|calls|] == calls;
    }

    /** Second pass: one record a row, tool rows passed over. */
    method ReadRows(sessionId: string, rows: seq<MessageRow>) returns (records: seq<Value>)
      ensures records == RowRecords(h, sessionId, rows)
    {
      var index := IndexAnswers(rows);
      records := [];
      for k := 0 to |rows|
        invariant |records| == |Spoken(rows[..k])|
        invariant forall i | 0 <= i < |records| ::
          records[i] == RowRecord(h, sessionId, rows, Spoken(rows[..k])[i])
      {
        assert rows[..k + 1][..k] == rows[..k];
        var row := rows[k];
        if row.role != "tool" {
          var record := Obj(BaseRecord(sessionId, row));
          var calls := CallList(h, row);
          if calls.Some? {
            var toolCalls, results := JoinCalls(calls.value, Fallback(sessionId, row), index, rows);
            record := WithCalls(BaseRecord(sessionId, row), toolCalls, results);
          }
          records := records + [record];
        }
      }
      assert rows[..|rows|] == rows;
    }

    /** `read_native` */
    method ReadNative(db: Db) returns (records: seq<Value>)
      ensures records == Records(h, db, Sessions(db))
    {
      var sessions := Sessions(db);
      records := [];
      ghost var goal := Records(h, db, sessions);
      assert records + goal == goal;
      for i := 0 to |sessions|
        invariant goal == records + Records(h, db, sessions[i..])
      {
        var s := sessions[i];
        SessionStep(h, db, sessions, i, records);
        var more := ReadRows(s.id, Rows(db, s.id));
        records := records + ([SessionRecord(s)] + more);
      }
      assert sessions[|sessions|..] == [];
      assert records + [] == records;
    }
  }

  // ---- Row order ------------------------------------------------------------

  /** The same rows, listed in any order. */
  ghost predicate SameRows(a: Db, b: Db) {
    multiset(a.sessions) == multiset(b.sessions) && multiset(a.messages) == multiset(b.messages)
  }

  ghost predicate UniqueSessions(db: Db) {
    forall s, t | s in db.sessions && t in db.sessions && s.id == t.id :: s == t
  }

  /** No two message rows of one session share an id. */
  ghost predicate UniqueRows(db: Db) {
    forall m, n | m in db.messages && n in db.messages && m.sessionId == n.sessionId && m.id == n.id :: m == n
  }

  lemma SessionOrder()
    ensures Sorting.TotalPreorder(SessionLeq)
  {
    forall x: string, y: string ensures LexLeq(x, y) || LexLeq(y, x) {
      LexTotal(x, y);
    }
    forall x: string, y: string, z: string | LexLeq(x, y) && LexLeq(y, z) ensures LexLeq(x, z) {
      LexTransitive(x, y, z);
    }
  }

  lemma RowsOrderFree(a: Db, b: Db, sessionId: string)
    requires SameRows(a, b) && UniqueRows(a)
    ensures Rows(a, sessionId) == Rows(b, sessionId)
  {
    var own := (m: MessageRow) => m.sessionId == sessionId;
    KeptMeaning(own, a.messages);
    KeptPermutes(own, a.messages, b.messages);
    Sorting.SortCanonical(Kept(own, a.messages), Kept(own, b.messages), RowLeq);
  }

  lemma {:induction false} RecordsOrderFree(h: Host, a: Db, b: Db, sessions: seq<SessionRow>)
    requires SameRows(a, b) && UniqueRows(a)
    ensures Records(h, a, sessions) == Records(h, b, sessions)
  {
    if sessions != [] {
      RowsOrderFree(a, b, sessions[0].id);
      RecordsOrderFree(h, a, b, sessions[1..]);
    }
  }

  /** The records depend on the rows, not on the order the tables list them in. */
  lemma {:induction false} StoreOrderFree(h: Host, a: Db, b: Db)
    requires SameRows(a, b) && UniqueSessions(a) && UniqueRows(a)
    ensures Records(h, a, Sessions(a)) == Records(h, b, Sessions(b))
  {
    SessionOrder();
    forall x: string, y: string | LexLeq(x, y) && LexLeq(y, x) ensures x == y {
      LexAntisymmetric(x, y);
    }
    Sorting.SortCanonical(a.sessions, b.sessions, SessionLeq);
    RecordsOrderFree(h, a, b, Sessions(a));
  }

  // ---- Sessions that share an id ------------------------------------------------------------

  function RecordsOf(h: Host, db: Db): SessionRow -> seq<Value> {
    (s: SessionRow) => [SessionRecord(s)] + RowRecords(h, s.id, Rows(db, s.id))
  }

  lemma OneSession(s: SessionRow, t: SessionRow)
    requires SessionRecord(s) == SessionRecord(t)
    ensures s == t
  {
    var v, w := SessionRecord(s).fields, SessionRecord(t).fields;
    assert v["sessionId"] == w["sessionId"] && v["ts"] == w["ts"] && v["title"] == w["title"];
    assert v["model"] == w["model"];
  }

  lemma SessionsShow(h: Host, a: Db, s: SessionRow, t: SessionRow) returns (b: Db, c: Db)
    requires s in a.sessions && t in a.sessions && s.id == t.id && s != t
    ensures SameRows(a, b) && SameRows(a, c) && Records(h, b, Sessions(b)) != Records(h, c, Sessions(c))
  {
    var rest := Ties.PullTwo(a.sessions, s, t);
    b, c := a.(sessions := [s, t] + rest), a.(sessions := [t, s] + rest);
    SessionOrder();
    LexTotal(s.id, s.id);
    if SessionRecord(s) == SessionRecord(t) {
      OneSession(s, t);
    }
    assert RecordsOf(h, a)(s)[0] == SessionRecord(s) && RecordsOf(h, a)(t)[0] == SessionRecord(t);
    Ties.SwapShows(RecordsOf(h, a), s, t, rest, SessionLeq);
    SameQueries(h, a, b, Sessions(b));
    SameQueries(h, a, c, Sessions(c));
  }

  lemma {:induction false} SameQueries(h: Host, a: Db, b: Db, sessions: seq<SessionRow>)
    requires b == a.(sessions := b.sessions)
    ensures Records(h, b, sessions) == Ties.Flat(RecordsOf(h, a), sessions)
  {
    if sessions != [] {
      SameQueries(h, a, b, sessions[1..]);
    }
  }

  /** With unique rows, the records are independent of row order exactly when no two sessions share an id. */
  lemma {:induction false} RowOrderShowsExactly(h: Host, a: Db)
    requires UniqueRows(a)
    ensures (forall b | SameRows(a, b) :: Records(h, b, Sessions(b)) == Records(h, a, Sessions(a)))
      <==> UniqueSessions(a)
  {
    if UniqueSessions(a) {
      forall b | SameRows(a, b) ensures Records(h, b, Sessions(b)) == Records(h, a, Sessions(a)) {
        StoreOrderFree(h, a, b);
      }
    } else {
      var s, t :| s in a.sessions && t in a.sessions && s.id == t.id && s != t;
      var b, c := SessionsShow(h, a, s, t);
    }
  }
}
