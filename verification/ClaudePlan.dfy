/** What one Claude Code record does to the context. */
module ClaudePlan {
  import opened Wrappers
  import opened Json
  import opened Events
  import opened Ctx
  import Text
  import V4aPatch

  // ---- Content blocks ---------------------------------------------------------

  function BlockType(b: Value): string {
    StrField(b, "type").GetOr("")
  }

  function StrOrEmpty(b: Value, key: string): string {
    StrField(b, key).GetOr("")
  }

  /** `push_text`: empty pieces leave no trace. */
  function PushText(acc: string, s: string): string {
    if s == "" then acc else Text.PushLine(acc, s)
  }

  function BlockPart(b: Value): Part {
    match BlockType(b)
    case "text" => TextPart(StrOrEmpty(b, "text"))
    case "thinking" => ThinkingPart(StrOrEmpty(b, "thinking"))
    case "tool_use" => ToolUsePart(StrOrEmpty(b, "id"), StrOrEmpty(b, "name"), Get(b, "input").GetOr(Null))
    case "tool_result" => ToolResultPart(StrOrEmpty(b, "tool_use_id"), Get(b, "content").GetOr(Null))
    case "image" => ImagePart(AsStr(GetIn(Get(b, "source"), "media_type")))
    case _ => OtherPart(b)
  }

  datatype Turn = Turn(text: string, thinking: string, parts: seq<Part>, calls: seq<EventKind>, results: seq<EventKind>)

  const EMPTY_TURN: Turn := Turn("", "", [], [], [])

  /** What one block adds to a turn. */
  function AddBlock(t: Turn, b: Value): Turn {
    var u := t.(parts := t.parts + [BlockPart(b)]);
    match BlockType(b)
    case "text" => u.(text := PushText(t.text, StrOrEmpty(b, "text")))
    case "thinking" => u.(thinking := PushText(t.thinking, StrOrEmpty(b, "thinking")))
    case "tool_use" =>
      u.(calls := t.calls + [ToolCall(StrOrEmpty(b, "id"), StrOrEmpty(b, "name"), Get(b, "input").GetOr(Null))])
    case "tool_result" =>
      u.(results := t.results
           + [ToolResult(StrOrEmpty(b, "tool_use_id"), !AsBool(Get(b, "is_error")).GetOr(false),
                         Get(b, "content").GetOr(Null))])
    case _ => u
  }

  function TurnOf(blocks: seq<Value>): Turn {
    if blocks == [] then EMPTY_TURN else AddBlock(TurnOf(blocks[..|blocks| - 1]), blocks[|blocks| - 1])
  }

  /** The turn of a record: a plain string is one text part, anything but an array is empty. */
  function RecordTurn(content: Option<Value>): Turn {
    match content
    case Some(Str(s)) => EMPTY_TURN.(text := PushText("", s), parts := [TextPart(s)])
    case Some(Arr(blocks)) => TurnOf(blocks)
    case _ => EMPTY_TURN
  }

  // ---- File edits ------------------------------------------------------------

  function StrItems(items: seq<Value>): seq<string> {
    if items == [] then []
    else
      var last := items[|items| - 1];
      StrItems(items[..|items| - 1]) + if last.Str? then [last.s] else []
  }

  /** The string lines of every hunk, in order. */
  function HunkLines(hunks: seq<Value>): seq<string> {
    if hunks == [] then []
    else
      var n := |hunks| - 1;
      HunkLines(hunks[..n]) + StrItems(AsArray(Get(hunks[n], "lines")).GetOr([]))
  }

  function BlockCall(b: Value): Option<string> {
    match BlockType(b)
    case "tool_result" => StrField(b, "tool_use_id")
    case "tool_use" => StrField(b, "id")
    case _ => None
  }

  /** The first call id a block names. */
  function FirstCall(blocks: seq<Value>): Option<string> {
    if blocks == [] then None else OrElse(BlockCall(blocks[0]), FirstCall(blocks[1..]))
  }

  function Message(value: Value): Option<Value> {
    Get(value, "message")
  }

  function Content(value: Value): Option<Value> {
    GetIn(Message(value), "content")
  }

  function Unified(lines: seq<string>): Option<string> {
    if lines == [] then None else Some(Text.Join(lines, "\n"))
  }

  function FileEditOf(value: Value): Option<EventKind> {
    var tur := Get(value, "toolUseResult");
    var patch := AsArray(GetIn(tur, "structuredPatch"));
    if patch.None? then None
    else
      var lines := HunkLines(patch.value);
      Some(FileEdit(
        FirstCall(AsArray(Content(value)).GetOr([])),
        Diff(StrOrEmpty(tur.value, "filePath"), StrField(tur.value, "oldString"), StrField(tur.value, "newString"),
             Unified(lines), V4aPatch.Marked(lines, '+'), V4aPatch.Marked(lines, '-'))))
  }

  // ---- Identity ------------------------------------------------------------

  function Uuid(h: Host, raw: RawRecord, value: Value): string {
    StrField(value, "uuid").GetOr(h.contentId(raw.bytes))
  }

  function SessionStartId(h: Host, uuid: string): string {
    h.contentId("claude_code/session_start/" + uuid)
  }

  function DerivedId(h: Host, uuid: string, kind: string, idx: nat): string {
    h.contentId("claude_code/" + kind + "/" + Text.Decimal(idx) + "/" + uuid)
  }

  function NonEmpty(s: Option<string>): Option<string> {
    if s.Some? && s.value == "" then None else s
  }

  function ProjectFrom(value: Value): ProjectRef {
    var branch, sha := NonEmpty(StrField(value, "gitBranch")), StrField(value, "gitSha").GetOr("");
    ProjectRef(StrField(value, "cwd").GetOr("."), None,
               if branch.Some? || sha != "" then Some(GitRef(sha, branch)) else None)
  }

  function UsageFrom(u: Value): Usage {
    Usage(AsU64(Get(u, "input_tokens")), AsU64(Get(u, "output_tokens")),
          AsU64(Get(u, "cache_read_input_tokens")), AsU64(Get(u, "cache_creation_input_tokens")))
  }

  function MessageModel(value: Value): Option<string> {
    AsStr(GetIn(Message(value), "model"))
  }

  predicate Startable(recType: string) {
    recType in {"user", "assistant", "system"}
  }

  // ---- Operations ------------------------------------------------------------

  /** The numbered events embedded in a turn. */
  function Numbered(h: Host, uuid: string, kind: string, ts: int, kinds: seq<EventKind>): seq<Op> {
    seq(|kinds|, i requires 0 <= i < |kinds| => Emit(DerivedId(h, uuid, kind, i), Some(uuid), ts, kinds[i]))
  }

  function TurnKind(value: Value, turn: Turn, isAssistant: bool): EventKind {
    if isAssistant then
      AssistantTurn(turn.text, if turn.thinking == "" then None else Some(turn.thinking),
                    OrElse(MessageModel(value), StrField(value, "model")),
                    if GetIn(Message(value), "usage").Some? then Some(UsageFrom(GetIn(Message(value), "usage").value))
                    else None,
                    turn.parts)
    else UserTurn(turn.text, turn.parts)
  }

  function EditOps(h: Host, uuid: string, ts: int, value: Value): seq<Op> {
    var edit := FileEditOf(value);
    if edit.None? then [] else [Emit(DerivedId(h, uuid, "file_edit", 0), Some(uuid), ts, edit.value)]
  }

  function TurnOps(h: Host, uuid: string, parent: Option<string>, ts: int, value: Value, isAssistant: bool): seq<Op> {
    var turn := RecordTurn(Content(value));
    [Emit(uuid, parent, ts, TurnKind(value, turn, isAssistant))]
    + Numbered(h, uuid, "tool_call", ts, turn.calls)
    + Numbered(h, uuid, "tool_result", ts, turn.results)
    + EditOps(h, uuid, ts, value)
  }

  function StartOps(
      h: Host, uuid: string, parent: Option<string>, ts: int, value: Value, project: Option<ProjectRef>): seq<Op> {
    if project.Some? || !Startable(StrOrEmpty(value, "type")) then []
    else
      var p := ProjectFrom(value);
      [BindProject(p),
       Emit(SessionStartId(h, uuid), parent, ts,
            SessionStart(p.cwd, p.git, OrElse(StrField(value, "model"), MessageModel(value)),
                StrField(value, "version")))]
  }

  function BodyOps(h: Host, raw: RawRecord, uuid: string, parent: Option<string>, ts: int, value: Value): seq<Op> {
    match StrOrEmpty(value, "type")
    case "user" => TurnOps(h, uuid, parent, ts, value, false)
    case "assistant" => TurnOps(h, uuid, parent, ts, value, true)
    case _ => [UnknownOp(h, raw, value)]
  }

  function SessionOps(session: Option<string>, value: Value): seq<Op> {
    if session.None? && StrField(value, "sessionId").Some? then [BindSession(StrField(value, "sessionId").value)]
    else []
  }

  function RecordOps(
      h: Host, session: Option<string>, project: Option<ProjectRef>, raw: RawRecord, value: Value): seq<Op> {
    var uuid, parent := Uuid(h, raw, value), StrField(value, "parentUuid");
    var ts := TsFrom(h, value, ["timestamp", "time", "ts"]);
    SessionOps(session, value)
    + [Once(uuid, StartOps(h, uuid, parent, ts, value, project) + BodyOps(h, raw, uuid, parent, ts, value))]
  }

  /** Blank lines carry nothing; a line that is not JSON is kept as an unrecognised event. */
  function Plan(h: Host, session: Option<string>, project: Option<ProjectRef>, raw: RawRecord): seq<Op> {
    match ParseJsonLine(h, raw)
    case Some(value) => RecordOps(h, session, project, raw, value)
    case None =>
      if h.text(raw.bytes) == "" then [] else [UnknownOp(h, raw, Str(h.text(raw.bytes)))]
  }
}
