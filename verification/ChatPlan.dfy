/**
 What one record of the flat chat shape does to the context. The OpenCode and the
 Hermes reader produce this shape and parse it with the same steps; only the
 session header is read differently.
 */
module ChatPlan {
  import opened Wrappers
  import opened Json
  import opened Events
  import opened Ctx
  import Text

  /** Where the two adapters differ. */
  datatype Dialect = Dialect(src: Source, readsModel: bool, startKeys: seq<string>)

  const OPENCODE_DIALECT: Dialect := Dialect(OpenCode, false, ["ts", "timestamp"])
  const HERMES_DIALECT: Dialect := Dialect(Hermes, true, ["ts", "timestamp", "started_at"])

  function TextField(v: Value, key: string): string {
    StrField(v, key).GetOr("")
  }

  // ---- The session header ------------------------------------------------------------

  function StartId(h: Host, raw: RawRecord, v: Value): string {
    var sid := StrField(v, "sessionId");
    if sid.Some? then sid.value + ":start" else h.contentId(raw.bytes)
  }

  function StartKind(d: Dialect, v: Value): EventKind {
    SessionStart(".", None, if d.readsModel then StrField(v, "model") else None, None)
  }

  function StartBody(h: Host, d: Dialect, raw: RawRecord, v: Value): seq<Op> {
    [BindProject(DEFAULT_PROJECT), Emit(StartId(h, raw, v), None, TsFrom(h, v, d.startKeys), StartKind(d, v))]
  }

  function StartOps(h: Host, d: Dialect, raw: RawRecord, v: Value): seq<Op> {
    var sid := StrField(v, "sessionId");
    (if sid.Some? then [BindSession(sid.value)] else [])
    + [Once(StartId(h, raw, v), StartBody(h, d, raw, v))]
  }

  // ---- A message ------------------------------------------------------------

  function MessageId(h: Host, raw: RawRecord, v: Value): string {
    StrField(v, "id").GetOr(h.contentId(raw.bytes))
  }

  /** The turn a role names; other roles make no turn. */
  function TurnKind(role: string, text: string): Option<EventKind> {
    match role
    case "user" => Some(UserTurn(text, [TextPart(text)]))
    case "assistant" => Some(AssistantTurn(text, None, None, None, [TextPart(text)]))
    case _ => None
  }

  function CallId(eventId: string, call: Value, i: nat): string {
    StrField(call, "id").GetOr(eventId + ":tool:" + Text.Decimal(i))
  }

  /** The first result that names the call. */
  function FindResult(results: seq<Value>, callId: string): Option<Value> {
    if results == [] then None
    else if StrField(results[0], "id") == Some(callId) then Some(results[0])
    else FindResult(results[1..], callId)
  }

  function ResultOk(r: Value): bool {
    AsBool(Get(r, "ok")).GetOr(true)
  }

  function ResultOutput(r: Value): Value {
    Get(r, "output").GetOr(Null)
  }

  function CallOp(eventId: string, ts: int, callId: string, call: Value): Op {
    var id := callId + ":call";
    Once(id, [Emit(id, Some(eventId), ts, ToolCall(callId, TextField(call, "name"), Get(call, "args").GetOr(Null)))])
  }

  function ResultOps(eventId: string, ts: int, callId: string, result: Option<Value>): seq<Op> {
    if result.None? then []
    else
      var r, id := result.value, callId + ":result";
      [RecordOutcome(callId, ResultOk(r)),
       Once(id, [Emit(id, Some(eventId), ts, ToolResult(callId, ResultOk(r), ResultOutput(r)))])]
  }

  /** One entry of `toolCalls`: the call, and its result right after it. */
  function OneCall(eventId: string, ts: int, call: Value, i: nat, results: seq<Value>): seq<Op> {
    if !call.Obj? then []
    else
      var callId := CallId(eventId, call, i);
      [CallOp(eventId, ts, callId, call)] + ResultOps(eventId, ts, callId, FindResult(results, callId))
  }

  function CallsOps(eventId: string, ts: int, calls: seq<Value>, results: seq<Value>): seq<Op> {
    if calls == [] then []
    else
      var n := |calls| - 1;
      CallsOps(eventId, ts, calls[..n], results) + OneCall(eventId, ts, calls[n], n, results)
  }

  function Calls(v: Value): seq<Value> {
    AsArray(Get(v, "toolCalls")).GetOr([])
  }

  function Results(v: Value): seq<Value> {
    AsArray(Get(v, "toolResults")).GetOr([])
  }

  function MessageBody(h: Host, raw: RawRecord, v: Value): seq<Op> {
    var id, ts := MessageId(h, raw, v), TsFrom(h, v, ["ts", "timestamp"]);
    var turn := TurnKind(TextField(v, "role"), TextField(v, "text"));
    if turn.None? then [UnknownOp(h, raw, v)]
    else [Emit(id, None, ts, turn.value)] + CallsOps(id, ts, Calls(v), Results(v))
  }

  function MessageOps(h: Host, raw: RawRecord, v: Value): seq<Op> {
    [Once(MessageId(h, raw, v), MessageBody(h, raw, v))]
  }

  // ---- A record ------------------------------------------------------------

  function RecordOps(h: Host, d: Dialect, raw: RawRecord, v: Value): seq<Op> {
    if !v.Obj? then [UnknownOp(h, raw, v)]
    else if StrField(v, "kind") == Some("session_start") then StartOps(h, d, raw, v)
    else if Get(v, "role").Some? then MessageOps(h, raw, v)
    else [UnknownOp(h, raw, v)]
  }

  function Plan(h: Host, d: Dialect, raw: RawRecord): seq<Op> {
    match ParseJsonLine(h, raw)
    case Some(v) => RecordOps(h, d, raw, v)
    case None =>
      if h.text(raw.bytes) == "" then [] else [UnknownOp(h, raw, Str(h.text(raw.bytes)))]
  }
}
