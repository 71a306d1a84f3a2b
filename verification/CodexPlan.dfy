/** What one Codex rollout record does to the context, record type by record type. */
module CodexPlan {
  import opened Wrappers
  import opened Json
  import opened Events
  import opened Ctx
  import OrderedKeys
  import Text
  import V4aPatch

  function Ts(h: Host, v: Value): int {
    TsFrom(h, v, ["timestamp", "time", "ts"])
  }

  /** A native id, else the content hash of the record. */
  function ItemId(h: Host, raw: RawRecord, payload: Value): string {
    StrField(payload, "id").GetOr(h.contentId(raw.bytes))
  }

  // ---- Session -------------------------------------------------------------

  function ParseGit(git: Option<Value>): Option<GitRef> {
    if git.None? || StrField(git.value, "sha").None? then None
    else Some(GitRef(StrField(git.value, "sha").value, StrField(git.value, "branch")))
  }

  function SessionEventId(h: Host, session: Option<string>, raw: RawRecord): string {
    if session.Some? then "session_meta:" + session.value else h.contentId(raw.bytes)
  }

  function MetaProject(payload: Value): ProjectRef {
    ProjectRef(StrField(payload, "cwd").GetOr("."), None, ParseGit(Get(payload, "git")))
  }

  /** The session id is rebound before the dedup test, so even a repeated record rebinds. */
  function SessionMeta(h: Host, session: Option<string>, raw: RawRecord, value: Value, payload: Value): seq<Op> {
    var id := StrField(payload, "id");
    var project := MetaProject(payload);
    var eventId := SessionEventId(h, OrElse(id, session), raw);
    (if id.Some? then [BindSession(id.value)] else [])
    + [BindProject(project),
       Once(eventId, [Emit(eventId, None, Ts(h, value), SessionStart(
         project.cwd, project.git, StrField(payload, "model"),
         OrElse(StrField(payload, "cli_version"), StrField(payload, "originator"))))])]
  }

  // ---- Dialogue ------------------------------------------------------------

  /** The text of a content item, when it is a text item that has one. */
  function ItemText(item: Value): Option<string> {
    if StrField(item, "type").GetOr("") in {"input_text", "output_text", "text"}
    then StrField(item, "text") else None
  }

  function ItemPart(item: Value): Option<Part> {
    var t := StrField(item, "type").GetOr("");
    if t in {"input_text", "output_text", "text"} then
      if StrField(item, "text").Some? then Some(TextPart(StrField(item, "text").value)) else None
    else if t in {"input_image", "image", "output_image"} then
      Some(ImagePart(AsStr(OrElse(Get(item, "media_type"), Get(item, "image_url")))))
    else Some(OtherPart(item))
  }

  function Present<T>(options: seq<Option<T>>): seq<T> {
    if options == [] then []
    else
      var last := options[|options| - 1];
      Present(options[..|options| - 1]) + if last.Some? then [last.value] else []
  }

  function ContentItems(content: Option<Value>): seq<Value> {
    AsArray(content).GetOr([])
  }

  function ItemTexts(items: seq<Value>): seq<string> {
    Present(seq(|items|, i requires 0 <= i < |items| => ItemText(items[i])))
  }

  function ItemParts(items: seq<Value>): seq<Part> {
    Present(seq(|items|, i requires 0 <= i < |items| => ItemPart(items[i])))
  }

  function Message(h: Host, raw: RawRecord, payload: Value, ts: int): seq<Op> {
    var items := ContentItems(Get(payload, "content"));
    var text, parts := Text.Pushed(ItemTexts(items)), ItemParts(items);
    var id, role := ItemId(h, raw, payload), StrField(payload, "role").GetOr("");
    [Once(id, [
      if role == "user" then Emit(id, None, ts, UserTurn(text, parts))
      else if role == "assistant" then
        Emit(id, None, ts, AssistantTurn(text, None, StrField(payload, "model"), None, parts))
      else UnknownOp(h, raw, payload)])]
  }

  function SummaryText(item: Value): Option<string> {
    OrElse(StrField(item, "text"), AsStr(Some(item)))
  }

  function SummaryTexts(items: seq<Value>): seq<string> {
    Present(seq(|items|, i requires 0 <= i < |items| => SummaryText(items[i])))
  }

  function Thinking(payload: Value): Option<string> {
    match Get(payload, "summary")
    case Some(Arr(items)) =>
      var t := Text.Pushed(SummaryTexts(items));
      if t == "" then None else Some(t)
    case Some(Str(s)) => if s == "" then None else Some(s)
    case _ => None
  }

  function Reasoning(h: Host, raw: RawRecord, payload: Value, ts: int): seq<Op> {
    var thinking := Thinking(payload);
    if thinking.None? then [UnknownOp(h, raw, payload)]
    else
      var id := ItemId(h, raw, payload);
      [Once(id, [Emit(id, None, ts, AssistantTurn("", thinking, None, None, []))])]
  }

  // ---- Tool calls ------------------------------------------------------------

  function ParseArguments(h: Host, v: Option<Value>): Value {
    match v
    case Some(Str(s)) => h.fromJson(s).GetOr(Str(s))
    case Some(other) => other
    case None => Null
  }

  function CallEventId(h: Host, raw: RawRecord, payload: Value): string {
    StrField(payload, "call_id").GetOr(ItemId(h, raw, payload))
  }

  function NameOps(callId: Option<string>, name: string): seq<Op> {
    if callId.Some? then [NameCall(callId.value, name)] else []
  }

  function PatchText(args: Value): Option<string> {
    match args
    case Obj(_) => AsStr(OrElse(Get(args, "input"), Get(args, "patch")))
    case Str(s) => Some(s)
    case _ => None
  }

  function EditId(h: Host, baseId: string, path: string): string {
    h.contentId(baseId + ":edit:" + path)
  }

  function SectionDiff(s: V4aPatch.PatchSection): Diff {
    Diff(s.path, None, None, Some(s.body), s.added, s.removed)
  }

  function EditOp(h: Host, baseId: string, callId: Option<string>, ts: int, s: V4aPatch.PatchSection): Op {
    var id := EditId(h, baseId, s.path);
    Once(id, [Emit(id, callId, ts, FileEdit(callId, SectionDiff(s)))])
  }

  function EditOps(
      h: Host, baseId: string, callId: Option<string>, ts: int, sections: seq<V4aPatch.PatchSection>): seq<Op> {
    seq(|sections|, i requires 0 <= i < |sections| => EditOp(h, baseId, callId, ts, sections[i]))
  }

  function LegacyEdits(h: Host, baseId: string, callId: Option<string>, ts: int, name: string, args: Value): seq<Op> {
    if name == "apply_patch" && PatchText(args).Some?
    then EditOps(h, baseId, callId, ts, V4aPatch.Sections(Text.Lines(PatchText(args).value)))
    else []
  }

  /** The edits of a legacy call stand under the guard of the call itself. */
  function FunctionCall(h: Host, raw: RawRecord, payload: Value, ts: int): seq<Op> {
    var name, callId := StrField(payload, "name").GetOr(""), StrField(payload, "call_id");
    var args, id := ParseArguments(h, Get(payload, "arguments")), CallEventId(h, raw, payload);
    [Once(id, NameOps(callId, name)
              + [Emit(id, None, ts, ToolCall(callId.GetOr(""), name, args))]
              + LegacyEdits(h, id, callId, ts, name, args))]
  }

  function CustomArgs(h: Host, payload: Value): Value {
    if Get(payload, "input").Some? then ParseArguments(h, Get(payload, "input"))
    else ParseArguments(h, Get(payload, "arguments"))
  }

  function CustomToolCall(h: Host, raw: RawRecord, payload: Value, ts: int): seq<Op> {
    var name, callId := StrField(payload, "name").GetOr(""), StrField(payload, "call_id");
    var id := CallEventId(h, raw, payload);
    [Once(id, NameOps(callId, name)
              + [Emit(id, None, ts, ToolCall(callId.GetOr(""), name, CustomArgs(h, payload)))])]
  }

  // ---- Tool results -----------------------------------------------------------

  function ResultId(h: Host, raw: RawRecord, callId: string, idKind: string): string {
    if callId == "" then h.contentId(idKind + ":" + h.contentId(raw.bytes)) else callId + ":" + idKind
  }

  function ParentOf(callId: string): Option<string> {
    if callId == "" then None else Some(callId)
  }

  function ResultOp(h: Host, raw: RawRecord, ts: int, callId: string, ok: bool, output: Value, idKind: string): Op {
    var id := ResultId(h, raw, callId, idKind);
    Once(id, (if callId == "" then [] else [RecordOutcome(callId, ok)])
             + [Emit(id, ParentOf(callId), ts, ToolResult(callId, ok, output))])
  }

  function CallId(payload: Value): string {
    StrField(payload, "call_id").GetOr("")
  }

  function Output(payload: Value): Value {
    Get(payload, "output").GetOr(Null)
  }

  function ExitCode(v: Value): Option<int> {
    AsI64(OrElse(Get(v, "exit_code"), Get(v, "exitCode")))
  }

  /** Explicit flags win, then exit codes, then the text. */
  function OutputIsOk(h: Host, output: Value): bool {
    match output
    case Str(s) => h.textIsOk(s)
    case Obj(_) =>
      if AsBool(Get(output, "success")).Some? then AsBool(Get(output, "success")).value
      else if AsBool(Get(output, "ok")).Some? then AsBool(Get(output, "ok")).value
      else if ExitCode(output).Some? then ExitCode(output).value == 0
      else if Get(output, "metadata").Some? && ExitCode(Get(output, "metadata").value).Some?
        then ExitCode(Get(output, "metadata").value).value == 0
      else if StrField(output, "output").Some? then h.textIsOk(StrField(output, "output").value)
      else true
    case Bool(b) => b
    case _ => true
  }

  function McpResultIsOk(result: Value): bool {
    if Get(result, "Ok").Some? then !AsBool(Get(Get(result, "Ok").value, "isError")).GetOr(false)
    else Get(result, "Err").None?
  }

  function CallOutput(h: Host, raw: RawRecord, payload: Value, ts: int): seq<Op> {
    [ResultOp(h, raw, ts, CallId(payload), OutputIsOk(h, Output(payload)), Output(payload), "output")]
  }

  function McpEnd(h: Host, raw: RawRecord, payload: Value, ts: int): seq<Op> {
    var result := Get(payload, "result").GetOr(Null);
    [ResultOp(h, raw, ts, CallId(payload), McpResultIsOk(result), result, "mcp")]
  }

  // ---- Applied patches ----------------------------------------------------------

  function NonEmptyStr(v: Option<Value>): Option<Value> {
    if AsStr(v).Some? && AsStr(v).value != "" then v else None
  }

  function PatchOutput(payload: Value): Value {
    OrElse(NonEmptyStr(Get(payload, "stdout")),
      OrElse(NonEmptyStr(Get(payload, "stderr")), Get(payload, "success"))).GetOr(Null)
  }

  /** Marked body lines of a unified diff, file headers excluded. */
  function CountUnified(lines: seq<string>, mark: char): nat {
    if lines == [] then 0
    else
      var line := lines[|lines| - 1];
      CountUnified(lines[..|lines| - 1], mark)
      + if Text.StartsWith(line, "+++") || Text.StartsWith(line, "---") then 0 else V4aPatch.Starts(line, mark)
  }

  function ChangeDiff(path: string, info: Value): Diff {
    var unified := StrField(info, "unified_diff");
    var lines := Text.Lines(unified.GetOr(""));
    Diff(path, None, None, unified, CountUnified(lines, '+'), CountUnified(lines, '-'))
  }

  /** The id is keyed on the call, the path and the line number of the record. */
  function ChangeId(h: Host, raw: RawRecord, callId: string, path: string): string {
    h.contentId("patch_apply_end:" + (if callId == "" then h.contentId(raw.bytes) else callId) + ":" + path + ":"
                + Text.Decimal(raw.location.lineNo))
  }

  function ChangeOp(h: Host, raw: RawRecord, callId: string, ts: int, path: string, info: Value): Op {
    var id := ChangeId(h, raw, callId, path);
    Once(id, [Emit(id, ParentOf(callId), ts, FileEdit(ParentOf(callId), ChangeDiff(path, info)))])
  }

  function ChangeOps(
      h: Host, raw: RawRecord, callId: string, ts: int, changes: map<string, Value>, paths: seq<string>): seq<Op>
    requires forall p | p in paths :: p in changes
  {
    seq(|paths|, i requires 0 <= i < |paths| => ChangeOp(h, raw, callId, ts, paths[i], changes[paths[i]]))
  }

  function PatchApplyEnd(h: Host, raw: RawRecord, payload: Value, ts: int): seq<Op> {
    var callId := CallId(payload);
    var changes := AsObject(Get(payload, "changes")).GetOr(map[]);
    [ResultOp(h, raw, ts, callId, AsBool(Get(payload, "success")).GetOr(true), PatchOutput(payload), "patch_apply_end")]
    + ChangeOps(h, raw, callId, ts, changes, OrderedKeys.Ascending(changes.Keys))
  }

  function CompactionOps(h: Host, raw: RawRecord, value: Value): seq<Op> {
    var id := h.contentId("compaction:" + h.contentId(raw.bytes));
    [Once(id, [Emit(id, None, Ts(h, value), Compaction(0, 0))])]
  }

  // ---- Dispatch ------------------------------------------------------------

  function ResponseItem(h: Host, raw: RawRecord, value: Value, payload: Value): seq<Op> {
    var ts := Ts(h, value);
    match StrField(payload, "type").GetOr("")
    case "message" => Message(h, raw, payload, ts)
    case "function_call" => FunctionCall(h, raw, payload, ts)
    case "function_call_output" => CallOutput(h, raw, payload, ts)
    case "custom_tool_call" => CustomToolCall(h, raw, payload, ts)
    case "custom_tool_call_output" => CallOutput(h, raw, payload, ts)
    case "reasoning" => Reasoning(h, raw, payload, ts)
    case _ => [UnknownOp(h, raw, value)]
  }

  function EventMsg(h: Host, raw: RawRecord, value: Value, payload: Value): seq<Op> {
    var ts := Ts(h, value);
    match StrField(payload, "type").GetOr("")
    case "patch_apply_end" => PatchApplyEnd(h, raw, payload, ts)
    case "mcp_tool_call_end" => McpEnd(h, raw, payload, ts)
    case "context_compacted" => CompactionOps(h, raw, value)
    case _ => [UnknownOp(h, raw, value)]
  }

  /** Blank and invalid lines carry nothing; everything else dispatches on type and payload. */
  function Plan(h: Host, session: Option<string>, raw: RawRecord): seq<Op> {
    match ParseJsonLine(h, raw)
    case None => []
    case Some(value) =>
      var recType, payload := StrField(value, "type").GetOr(""), Get(value, "payload");
      if recType == "session_meta" && payload.Some? then SessionMeta(h, session, raw, value, payload.value)
      else if recType == "response_item" && payload.Some? then ResponseItem(h, raw, value, payload.value)
      else if recType == "event_msg" && payload.Some? then EventMsg(h, raw, value, payload.value)
      else if recType == "compacted" then CompactionOps(h, raw, value)
      else [UnknownOp(h, raw, value)]
  }
}
