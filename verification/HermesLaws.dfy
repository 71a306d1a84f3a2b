/** Joining the Hermes store and parsing the records says exactly what the store holds. */
module HermesLaws {
  import opened Wrappers
  import opened Json
  import opened Events
  import opened Text
  import opened Ctx
  import opened CtxLaws
  import opened CtxFirings
  import opened ChatPlan
  import opened ChatTools
  import opened ChatReports
  import ChatLaws
  import opened HermesStore

  // ---- Rows and records ------------------------------------------------------------

  lemma {:induction false} SpokenRoles(rows: seq<MessageRow>)
    ensures forall r | r in Spoken(rows) :: r in rows && r.role != "tool"
  {
    if rows != [] {
      SpokenRoles(rows[..|rows| - 1]);
    }
  }

  /** Every row that is not a tool row is spoken, as often as it is stored. */
  lemma {:induction false} SpokenCounts(rows: seq<MessageRow>, r: MessageRow)
    requires r.role != "tool"
    ensures multiset(Spoken(rows))[r] == multiset(rows)[r]
  {
    if rows != [] {
      var n := |rows| - 1;
      SpokenCounts(rows[..n], r);
      assert rows == rows[..n] + [rows[n]];
    }
  }

  lemma BaseFields(sessionId: string, row: MessageRow, calls: seq<Value>, results: seq<Value>)
    ensures var v := WithCalls(BaseRecord(sessionId, row), calls, results);
      && v.Obj? && StrField(v, "kind").None? && StrField(v, "type").None?
      && StrField(v, "id") == Some(RowId(sessionId, row))
      && TextField(v, "role") == row.role && Get(v, "role").Some? && TextField(v, "text") == row.content.GetOr("")
      && Calls(v) == calls && Results(v) == results
  {
  }

  lemma RowFields(h: Host, sessionId: string, rows: seq<MessageRow>, row: MessageRow)
    ensures var v := RowRecord(h, sessionId, rows, row);
      && v.Obj? && StrField(v, "kind").None? && StrField(v, "type").None?
      && StrField(v, "id") == Some(RowId(sessionId, row))
      && TextField(v, "role") == row.role && Get(v, "role").Some? && TextField(v, "text") == row.content.GetOr("")
      && Calls(v) == CallValues(RowTools(h, sessionId, rows, row))
      && Results(v) == ResultValues(RowTools(h, sessionId, rows, row))
  {
    var tools := RowTools(h, sessionId, rows, row);
    if CallList(h, row).Some? {
      BaseFields(sessionId, row, CallValues(tools), ResultValues(tools));
    } else {
      assert CallValues([]) == [] && ResultValues([]) == [];
    }
  }

  /** The records are the rows that are not tool rows, one for one and in order, and no tool row speaks. */
  lemma {:induction false} RecordsOneToOne(h: Host, sessionId: string, rows: seq<MessageRow>)
    ensures |RowRecords(h, sessionId, rows)| == |Spoken(rows)|
    ensures forall i | 0 <= i < |Spoken(rows)| ::
      var v := RowRecords(h, sessionId, rows)[i];
      StrField(v, "id") == Some(RowId(sessionId, Spoken(rows)[i]))
      && TextField(v, "role") == Spoken(rows)[i].role && TextField(v, "role") != "tool"
  {
    SpokenRoles(rows);
    forall i | 0 <= i < |Spoken(rows)|
      ensures var v := RowRecords(h, sessionId, rows)[i];
        StrField(v, "id") == Some(RowId(sessionId, Spoken(rows)[i]))
        && TextField(v, "role") == Spoken(rows)[i].role && TextField(v, "role") != "tool"
    {
      RowFields(h, sessionId, rows, Spoken(rows)[i]);
      assert Spoken(rows)[i] in Spoken(rows);
    }
  }

  // ---- What the store says ------------------------------------------------------------

  function RowTools(h: Host, sessionId: string, rows: seq<MessageRow>, row: MessageRow): seq<Tool> {
    var calls := CallList(h, row);
    if calls.Some? then ToolsOf(rows, Fallback(sessionId, row), calls.value) else []
  }

  function StoredTs(h: Host, ts: Option<string>): int {
    if ts.Some? then h.parseTs(ts.value).GetOr(0) else 0
  }

  function RowSays(
      h: Host, render: Value -> string, sessionId: string, rows: seq<MessageRow>, row: MessageRow): seq<Said> {
    var id, ts := RowId(sessionId, row), StoredTs(h, row.timestamp);
    var turn := TurnKind(row.role, row.content.GetOr(""));
    if turn.Some? then
      [Said(Some(sessionId), id, None, ts, turn.value)] + ToolsSay(sessionId, id, ts, RowTools(h, sessionId, rows, row))
    else
      var record := RowRecord(h, sessionId, rows, row);
      [Said(Some(sessionId), h.contentId(render(record)), None, ts, Unknown("unknown", record))]
  }

  function RowIds(h: Host, sessionId: string, rows: seq<MessageRow>, row: MessageRow): seq<string> {
    [RowId(sessionId, row)]
    + if TurnKind(row.role, "").Some? then ToolsIds(RowTools(h, sessionId, rows, row)) else []
  }

  function RowsSay(
      h: Host, render: Value -> string, sessionId: string, rows: seq<MessageRow>, spoken: seq<MessageRow>): seq<Said> {
    if spoken == [] then []
    else RowSays(h, render, sessionId, rows, spoken[0]) + RowsSay(h, render, sessionId, rows, spoken[1..])
  }

  function RowsIds(h: Host, sessionId: string, rows: seq<MessageRow>, spoken: seq<MessageRow>): seq<string> {
    if spoken == [] then []
    else RowIds(h, sessionId, rows, spoken[0]) + RowsIds(h, sessionId, rows, spoken[1..])
  }

  function StartSays(h: Host, s: SessionRow): seq<Said> {
    [Said(Some(s.id), s.id + ":start", None, StoredTs(h, s.startedAt), SessionStart(".", None, s.model, None))]
  }

  function StoreSays(h: Host, render: Value -> string, db: Db, sessions: seq<SessionRow>): seq<Said> {
    if sessions == [] then []
    else
      var s := sessions[0];
      StartSays(h, s) + RowsSay(h, render, s.id, Rows(db, s.id), Spoken(Rows(db, s.id)))
      + StoreSays(h, render, db, sessions[1..])
  }

  function StoreIds(h: Host, db: Db, sessions: seq<SessionRow>): seq<string> {
    if sessions == [] then []
    else
      var s := sessions[0];
      [s.id + ":start"] + RowsIds(h, s.id, Rows(db, s.id), Spoken(Rows(db, s.id))) + StoreIds(h, db, sessions[1..])
  }

  function Planning(h: Host): RecordPlanner {
    ChatLaws.Planning(h, HERMES_DIALECT)
  }

  // ---- One record ------------------------------------------------------------

  lemma TextTs(h: Host, v: Value, ts: Option<string>)
    requires Get(v, "ts") == Some(OptStr(ts)) && Get(v, "timestamp").None?
    requires Get(v, "time").None? && Get(v, "created_at").None? && Get(v, "started_at").None?
    ensures TsFrom(h, v, ["ts", "timestamp"]) == StoredTs(h, ts)
    ensures TsFrom(h, v, ["ts", "timestamp", "started_at"]) == StoredTs(h, ts)
    ensures TsFrom(h, v, ["timestamp", "time", "ts", "created_at"]) == StoredTs(h, ts)
  {
    assert TsFrom(h, v, []) == 0;
    assert ["timestamp"][1..] == [] && ["created_at"][1..] == [] && ["started_at"][1..] == [];
    assert ["ts", "timestamp"][1..] == ["timestamp"];
    assert TsFrom(h, v, ["timestamp"]) == 0 && TsFrom(h, v, ["created_at"]) == 0 && TsFrom(h, v, ["started_at"]) == 0;
    assert ["ts", "timestamp", "started_at"][1..] == ["timestamp", "started_at"];
    assert ["timestamp", "started_at"][1..] == ["started_at"];
    assert TsFrom(h, v, ["timestamp", "started_at"]) == 0;
    assert ["timestamp", "time", "ts", "created_at"][1..] == ["time", "ts", "created_at"];
    assert ["time", "ts", "created_at"][1..] == ["ts", "created_at"];
    assert ["ts", "created_at"][1..] == ["created_at"];
    assert TsFrom(h, v, ["ts", "created_at"]) == StoredTs(h, ts);
    assert TsFrom(h, v, ["time", "ts", "created_at"]) == TsFrom(h, v, ["ts", "created_at"]);
  }

  lemma RowKeys(h: Host, sessionId: string, rows: seq<MessageRow>, row: MessageRow)
    ensures var v := RowRecord(h, sessionId, rows, row);
      && Get(v, "ts") == Some(OptStr(row.timestamp)) && Get(v, "timestamp").None?
      && Get(v, "time").None? && Get(v, "created_at").None? && Get(v, "started_at").None?
  {
  }

  lemma RowTs(h: Host, sessionId: string, rows: seq<MessageRow>, row: MessageRow)
    ensures var v := RowRecord(h, sessionId, rows, row);
      && TsFrom(h, v, ["ts", "timestamp"]) == StoredTs(h, row.timestamp)
      && TsFrom(h, v, ["timestamp", "time", "ts", "created_at"]) == StoredTs(h, row.timestamp)
  {
    RowKeys(h, sessionId, rows, row);
    TextTs(h, RowRecord(h, sessionId, rows, row), row.timestamp);
  }

  lemma RowPlanned(
      h: Host, render: Value -> string, sessionId: string, rows: seq<MessageRow>, row: MessageRow, raw: RawRecord)
    requires var v := RowRecord(h, sessionId, rows, row); raw.bytes == render(v) && ReadsBack(h, render, v)
    ensures Planning(h)(raw)
      == [Once(RowId(sessionId, row), MessageBody(h, raw, RowRecord(h, sessionId, rows, row)))]
  {
    RowFields(h, sessionId, rows, row);
  }

  lemma RowBody(h: Host, sessionId: string, rows: seq<MessageRow>, row: MessageRow, raw: RawRecord)
    ensures var v, id, ts := RowRecord(h, sessionId, rows, row), RowId(sessionId, row), StoredTs(h, row.timestamp);
      var turn, tools := TurnKind(row.role, row.content.GetOr("")), RowTools(h, sessionId, rows, row);
      MessageBody(h, raw, v)
      == if turn.None? then [Emit(h.contentId(raw.bytes), None, ts, Unknown("unknown", v))]
         else [Emit(id, None, ts, turn.value)] + CallsOps(id, ts, CallValues(tools), ResultValues(tools))
  {
    RowFields(h, sessionId, rows, row);
    RowTs(h, sessionId, rows, row);
  }

  lemma BodyFires(
      h: Host, render: Value -> string, sessionId: string, rows: seq<MessageRow>, row: MessageRow, raw: RawRecord)
    requires raw.bytes == render(RowRecord(h, sessionId, rows, row))
    requires NoDups(RowIds(h, sessionId, rows, row))
    ensures var body := MessageBody(h, raw, RowRecord(h, sessionId, rows, row));
      && Fire(Some(sessionId), body) == (Some(sessionId), RowSays(h, render, sessionId, rows, row))
      && [RowId(sessionId, row)] + Guards(body) == RowIds(h, sessionId, rows, row)
  {
    var v, turn := RowRecord(h, sessionId, rows, row), TurnKind(row.role, row.content.GetOr(""));
    RowBody(h, sessionId, rows, row, raw);
    if turn.None? {
      var e := Emit(h.contentId(raw.bytes), None, StoredTs(h, row.timestamp), Unknown("unknown", v));
      FireOne(Some(sessionId), e);
      GuardsOne(e);
    } else {
      TurnFires(sessionId, RowId(sessionId, row), StoredTs(h, row.timestamp), turn.value,
                RowTools(h, sessionId, rows, row));
    }
  }

  lemma RowFires(
      h: Host, render: Value -> string, sessionId: string, rows: seq<MessageRow>, row: MessageRow, raw: RawRecord)
    requires var v := RowRecord(h, sessionId, rows, row); raw.bytes == render(v) && ReadsBack(h, render, v)
    requires NoDups(RowIds(h, sessionId, rows, row))
    ensures Fire(Some(sessionId), Planning(h)(raw)) == (Some(sessionId), RowSays(h, render, sessionId, rows, row))
    ensures Guards(Planning(h)(raw)) == RowIds(h, sessionId, rows, row)
  {
    var id, body := RowId(sessionId, row), MessageBody(h, raw, RowRecord(h, sessionId, rows, row));
    RowPlanned(h, render, sessionId, rows, row, raw);
    BodyFires(h, render, sessionId, rows, row, raw);
    FireOne(Some(sessionId), Once(id, body));
    GuardsOne(Once(id, body));
  }

  lemma StartFires(h: Host, render: Value -> string, session: Option<string>, s: SessionRow, raw: RawRecord)
    requires raw.bytes == render(SessionRecord(s)) && ReadsBack(h, render, SessionRecord(s))
    ensures Fire(session, Planning(h)(raw)) == (Some(s.id), StartSays(h, s))
    ensures Guards(Planning(h)(raw)) == [s.id + ":start"]
  {
    StartPlanned(h, render, s, raw);
    HeaderFires(session, s.id, StoredTs(h, s.startedAt), SessionStart(".", None, s.model, None));
  }

  lemma StartPlanned(h: Host, render: Value -> string, s: SessionRow, raw: RawRecord)
    requires raw.bytes == render(SessionRecord(s)) && ReadsBack(h, render, SessionRecord(s))
    ensures Planning(h)(raw)
      == HeaderOps(s.id, StoredTs(h, s.startedAt), SessionStart(".", None, s.model, None))
  {
    HeaderFields(s);
    HeaderTs(h, s);
  }

  lemma HeaderFields(s: SessionRow)
    ensures var v := SessionRecord(s);
      v.Obj? && StrField(v, "kind") == Some("session_start")
      && StrField(v, "sessionId") == Some(s.id) && StrField(v, "model") == s.model
  {
  }

  lemma HeaderTs(h: Host, s: SessionRow)
    ensures TsFrom(h, SessionRecord(s), ["ts", "timestamp", "started_at"]) == StoredTs(h, s.startedAt)
  {
    TextTs(h, SessionRecord(s), s.startedAt);
  }

  // ---- All records ------------------------------------------------------------

  function RecordsFor(h: Host, sessionId: string, rows: seq<MessageRow>, spoken: seq<MessageRow>): seq<Value> {
    seq(|spoken|, i requires 0 <= i < |spoken| => RowRecord(h, sessionId, rows, spoken[i]))
  }

  lemma {:induction false} RowsFire(
      h: Host, render: Value -> string, sessionId: string, rows: seq<MessageRow>, spoken: seq<MessageRow>,
      recs: seq<RawRecord>)
    requires Carry(h, render, recs, RecordsFor(h, sessionId, rows, spoken))
    requires NoDups(RowsIds(h, sessionId, rows, spoken))
    ensures RunFire(Some(sessionId), Planning(h), recs)
      == (Some(sessionId), RowsSay(h, render, sessionId, rows, spoken))
    ensures RunGuards(Planning(h), recs) == RowsIds(h, sessionId, rows, spoken)
    decreases |spoken|
  {
    if spoken != [] {
      var v, rest := RowRecord(h, sessionId, rows, spoken[0]), RecordsFor(h, sessionId, rows, spoken[1..]);
      assert RecordsFor(h, sessionId, rows, spoken) == [v] + rest;
      NoDupsSplit(RowIds(h, sessionId, rows, spoken[0]), RowsIds(h, sessionId, rows, spoken[1..]));
      CarrySplit(h, render, recs, [v], rest);
      RowFires(h, render, sessionId, rows, spoken[0], recs[0]);
      RowsFire(h, render, sessionId, rows, spoken[1..], recs[1..]);
    }
  }

  lemma {:induction false} StoreFires(
      h: Host, render: Value -> string, db: Db, sessions: seq<SessionRow>, recs: seq<RawRecord>,
      session: Option<string>)
    requires Carry(h, render, recs, Records(h, db, sessions))
    requires NoDups(StoreIds(h, db, sessions))
    ensures RunFire(session, Planning(h), recs).1 == StoreSays(h, render, db, sessions)
    ensures RunGuards(Planning(h), recs) == StoreIds(h, db, sessions)
    decreases |sessions|
  {
    if sessions != [] {
      var s := sessions[0];
      var rows := Rows(db, s.id);
      var values := RowRecords(h, s.id, rows);
      var ids, more := RowsIds(h, s.id, rows, Spoken(rows)), StoreIds(h, db, sessions[1..]);
      NoDupsSplit([s.id + ":start"] + ids, more);
      NoDupsSplit([s.id + ":start"], ids);
      CarrySplit(h, render, recs, [SessionRecord(s)] + values, Records(h, db, sessions[1..]));
      var n := |values| + 1;
      CarrySplit(h, render, recs[..n], [SessionRecord(s)], values);
      var a, b, c := recs[..n][..1], recs[..n][1..], recs[n..];
      StartFires(h, render, session, s, a[0]);
      OneRecord(session, Planning(h), a);
      assert values == RecordsFor(h, s.id, rows, Spoken(rows));
      RowsFire(h, render, s.id, rows, Spoken(rows), b);
      RunFireConcat(session, Planning(h), a, b);
      RunFireConcat(session, Planning(h), a + b, c);
      RunGuardsConcat(Planning(h), a, b);
      RunGuardsConcat(Planning(h), a + b, c);
      StoreFires(h, render, db, sessions[1..], c, Some(s.id));
    }
  }

  /**
   Join then parse: for a store whose event ids are distinct, the events are, in
   order, one turn for each spoken row, its calls, and right after each call its
   result iff some tool row of the session answers it, with the last answer as output.
   */
  lemma {:induction false} StreamIsStore(h: Host, render: Value -> string, db: Db, recs: seq<RawRecord>)
    requires Carry(h, render, recs, Records(h, db, Sessions(db)))
    requires NoDups(StoreIds(h, db, Sessions(db)))
    ensures SaysAll(Run(Hermes, Steady(Planning(h)), FRESH, recs).1, StoreSays(h, render, db, Sessions(db)))
  {
    StoreFires(h, render, db, Sessions(db), recs, None);
    RunFires(Hermes, Planning(h), FRESH, recs);
  }

  // ---- Calls without an id ------------------------------------------------------------

  lemma {:induction false} FallbackShared(rows: seq<MessageRow>, fallback: string, calls: seq<Value>)
    requires forall c | c in calls :: c.Obj? && StrField(c, "id").None?
    ensures |ToolsOf(rows, fallback, calls)| == |calls|
    ensures forall i | 0 <= i < |calls| :: ToolsOf(rows, fallback, calls)[i].callId == fallback
  {
    if calls != [] {
      var n := |calls| - 1;
      FallbackShared(rows, fallback, calls[..n]);
      assert calls[n] in calls;
    }
  }

  /** The calls of a row that carry no id all get one id, so they are not distinct from two on. */
  lemma {:induction false} IdlessCallsCollide(rows: seq<MessageRow>, fallback: string, calls: seq<Value>)
    requires forall c | c in calls :: c.Obj? && StrField(c, "id").None?
    ensures var tools := ToolsOf(rows, fallback, calls);
      && |tools| == |calls| && (forall t | t in tools :: t.callId == fallback)
      && (DistinctCalls(tools) <==> |calls| <= 1)
  {
    FallbackShared(rows, fallback, calls);
    var tools := ToolsOf(rows, fallback, calls);
    if |calls| >= 2 {
      assert tools[0].callId == tools[1].callId;
    }
  }

  lemma NoToolGuard(sessionId: string, row: MessageRow)
    ensures !ToolGuard(RowId(sessionId, row))
  {
    var n := if row.id < 0 then -row.id else row.id;
    var id := RowId(sessionId, row);
    assert SignedText(row.id)[|SignedText(row.id)| - 1] == Decimal(n)[|Decimal(n)| - 1];
    assert IsDigit(id[|id| - 1]);
    assert |id| >= 5 ==> id[|id| - 5..][4] == id[|id| - 1];
    assert |id| >= 7 ==> id[|id| - 7..][6] == id[|id| - 1];
  }

  lemma RowOffers(
      h: Host, render: Value -> string, sessionId: string, rows: seq<MessageRow>, row: MessageRow, raw: RawRecord)
    requires var v := RowRecord(h, sessionId, rows, row); raw.bytes == render(v) && ReadsBack(h, render, v)
    requires row.role in {"user", "assistant"}
    ensures Head(h, raw) == [RowId(sessionId, row)]
    ensures Offered(h, raw) == IdsOf(RowTools(h, sessionId, rows, row))
  {
    RowFields(h, sessionId, rows, row);
    ToolsOffered(RowId(sessionId, row), RowTools(h, sessionId, rows, row));
  }

  /**
   A user or assistant row read for the first time reports as many calls as it has
   distinct new call ids: all of them iff its ids are distinct and none came before.
   */
  lemma {:induction false} EveryCallReported(
      h: Host, render: Value -> string, sessionId: string, rows: seq<MessageRow>, row: MessageRow, raw: RawRecord,
      s: State)
    requires var v := RowRecord(h, sessionId, rows, row); raw.bytes == render(v) && ReadsBack(h, render, v)
    requires row.role in {"user", "assistant"} && RowId(sessionId, row) !in s.seen
    ensures var tools := RowTools(h, sessionId, rows, row);
      var reported := Reported(Exec(Hermes, raw, s, Planning(h)(raw)).1);
      && |reported| == |NewIds(IdsOf(tools), s.seen)|
      && (reported == IdsOf(tools) <==> AllNew(tools, s.seen))
      && (|reported| == |tools| <==> AllNew(tools, s.seen))
  {
    var tools, id := RowTools(h, sessionId, rows, row), RowId(sessionId, row);
    RowOffers(h, render, sessionId, rows, row, raw);
    ToolsReport(h, HERMES_DIALECT, raw, s, id, tools);
    NoToolGuard(sessionId, row);
    HeadHarmless(s.seen, [id], s.seen + {id});
    assert NewIds(IdsOf(tools), s.seen + {id}) == NewIds(IdsOf(tools), s.seen);
  }

  /** So a row whose calls carry no id reports one call at most. */
  lemma {:induction false} IdlessRowReportsOne(
      h: Host, render: Value -> string, sessionId: string, rows: seq<MessageRow>, row: MessageRow, raw: RawRecord,
      s: State)
    requires var v := RowRecord(h, sessionId, rows, row); raw.bytes == render(v) && ReadsBack(h, render, v)
    requires row.role in {"user", "assistant"} && RowId(sessionId, row) !in s.seen
    requires CallList(h, row).Some? && CallList(h, row).value != []
    requires forall c | c in CallList(h, row).value :: c.Obj? && StrField(c, "id").None?
    ensures var fallback := Fallback(sessionId, row);
      |Reported(Exec(Hermes, raw, s, Planning(h)(raw)).1)| == if CallGuard(fallback) in s.seen then 0 else 1
  {
    var fallback, calls := Fallback(sessionId, row), CallList(h, row).value;
    var tools := RowTools(h, sessionId, rows, row);
    EveryCallReported(h, render, sessionId, rows, row, raw, s);
    IdlessCallsCollide(rows, fallback, calls);
    SharedId(tools, fallback, s.seen);
  }

  const TWO_IDLESS: MessageRow := MessageRow(1, "s", "assistant", Some("hi"), None, Some("[{},{}]"), None)

  /** A row with two calls that carry no id: two tools are stored, one call is reported. */
  lemma {:induction false} TwoIdlessCalls(h: Host, render: Value -> string, raw: RawRecord)
    requires h.fromJson("[{},{}]") == Some(Arr([Obj(map[]), Obj(map[])]))
    requires var v := RowRecord(h, "s", [TWO_IDLESS], TWO_IDLESS); raw.bytes == render(v) && ReadsBack(h, render, v)
    ensures |RowTools(h, "s", [TWO_IDLESS], TWO_IDLESS)| == 2
    ensures |Reported(Exec(Hermes, raw, FRESH, Planning(h)(raw)).1)| == 1
  {
    assert CallList(h, TWO_IDLESS).Some?;
    var calls := CallList(h, TWO_IDLESS).value;
    assert forall c | c in calls :: c == Obj(map[]);
    FallbackShared([TWO_IDLESS], Fallback("s", TWO_IDLESS), calls);
    IdlessRowReportsOne(h, render, "s", [TWO_IDLESS], TWO_IDLESS, raw, FRESH);
  }
}
