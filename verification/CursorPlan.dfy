/** What one Cursor record does to the context. */
module CursorPlan {
  import opened Wrappers
  import opened Json
  import opened Events
  import opened Ctx
  import opened Text

  function Field(v: Value, key: string): string {
    StrField(v, key).GetOr("")
  }

  function EventId(h: Host, raw: RawRecord, v: Value): string {
    StrField(v, "id").GetOr(h.contentId(raw.bytes))
  }

  function Timestamp(h: Host, v: Value): int {
    TsFrom(h, v, ["ts", "timestamp", "time", "created_at", "createdAt"])
  }

  function Parent(v: Value): Option<string> {
    OrElse(StrField(v, "parentId"), StrField(v, "parent_id"))
  }

  /** The session or composer a record names. */
  function SessionOf(v: Value): Option<string> {
    OrElse(StrField(v, "sessionId"), StrField(v, "composerId"))
  }

  // ---- Headers ------------------------------------------------------------

  function GitOf(v: Option<Value>): Option<GitRef> {
    var sha := AsStr(GetIn(v, "sha"));
    if sha.Some? then Some(GitRef(sha.value, AsStr(GetIn(v, "branch")))) else None
  }

  function ProjectOf(v: Value): ProjectRef {
    ProjectRef(StrField(v, "cwd").GetOr("."), OrElse(StrField(v, "repoRoot"), StrField(v, "repo_root")),
        GitOf(Get(v, "git")))
  }

  function StartKind(v: Value): EventKind {
    SessionStart(StrField(v, "cwd").GetOr("."), GitOf(Get(v, "git")), StrField(v, "model"),
                 OrElse(StrField(v, "toolVersion"), StrField(v, "tool_version")))
  }

  /** The project is bound before the dedup test, so a repeated header rebinds it. */
  function StartOps(h: Host, raw: RawRecord, v: Value): seq<Op> {
    var id := EventId(h, raw, v);
    [BindProject(ProjectOf(v)), Once(id, [Emit(id, None, Timestamp(h, v), StartKind(v))])]
  }

  function EndOps(h: Host, raw: RawRecord, v: Value): seq<Op> {
    var id := EventId(h, raw, v);
    [Once(id, [Emit(id, Parent(v), Timestamp(h, v), SessionEnd(StrField(v, "reason")))])]
  }

  // ---- Content blocks ------------------------------------------------------------

  function BlockText(b: Value): string {
    if StrField(b, "type") == Some("text") then Field(b, "text") else ""
  }

  /** The non-empty texts among the first blocks. */
  function BlockTexts(blocks: seq<Value>): seq<string> {
    if blocks == [] then []
    else
      var n := |blocks| - 1;
      var texts := BlockTexts(blocks[..n]);
      if BlockText(blocks[n]) != "" then texts + [BlockText(blocks[n])] else texts
  }

  function BlockCall(b: Value, i: nat): Value {
    Obj(map["id" := Str(StrField(b, "id").GetOr("block:" + Decimal(i))), "name" := Str(Field(b, "name")),
            "args" := Get(b, "input").GetOr(Null)])
  }

  function BlockCalls(blocks: seq<Value>): seq<Value> {
    if blocks == [] then []
    else
      var n := |blocks| - 1;
      var calls := BlockCalls(blocks[..n]);
      if StrField(blocks[n], "type") == Some("tool_use") then calls + [BlockCall(blocks[n], n)] else calls
  }

  /** The content blocks of an exported record that is not already flat. */
  function Blocks(v: Value): Option<seq<Value>> {
    if Get(v, "text").Some? || Get(v, "toolCalls").Some? then None
    else AsArray(GetIn(Get(v, "message"), "content"))
  }

  /** `normalize_content_block_message`, or the record as it is. */
  function Flattened(v: Value): Value {
    var blocks := Blocks(v);
    if blocks.None? || !v.Obj? then v
    else
      var withText := v.fields["text" := Str(Join(BlockTexts(blocks.value), "\n\n"))];
      var calls := BlockCalls(blocks.value);
      Obj(if calls != [] then withText["toolCalls" := Arr(calls)] else withText)
  }

  // ---- A message ------------------------------------------------------------

  function TextParts(v: Value): seq<Part> {
    (if Field(v, "text") != "" then [TextPart(Field(v, "text"))] else [])
    + if Field(v, "thinking") != "" then [ThinkingPart(Field(v, "thinking"))] else []
  }

  function UsageOf(v: Option<Value>): Option<Usage> {
    var input := OrElse(AsU64(GetIn(v, "input")), AsU64(GetIn(v, "input_tokens")));
    var output := OrElse(AsU64(GetIn(v, "output")), AsU64(GetIn(v, "output_tokens")));
    if input.None? && output.None? then None else Some(Usage(input, output, None, None))
  }

  /** A role that is neither user nor assistant makes an unrecognised turn. */
  function TurnKind(v: Value): EventKind {
    match Field(v, "role")
    case "user" => UserTurn(Field(v, "text"), TextParts(v))
    case "assistant" =>
      AssistantTurn(Field(v, "text"), StrField(v, "thinking"), StrField(v, "model"), UsageOf(Get(v, "usage")),
          TextParts(v))
    case _ => Unknown(Field(v, "role"), v)
  }

  function CallOps(base: string, ts: int, call: Value, i: nat): seq<Op> {
    if !call.Obj? then []
    else
      var callId, name := StrField(call, "id").GetOr(base + ":call:" + Decimal(i)), Field(call, "name");
      var id := base + "#toolcall:" + callId;
      [NameCall(callId, name),
       Once(id, [Emit(id, Some(base), ts, ToolCall(callId, name, Get(call, "args").GetOr(Null)))])]
  }

  function ResultOps(base: string, ts: int, res: Value, i: nat): seq<Op> {
    if !res.Obj? then []
    else
      var callId := StrField(res, "id").GetOr(base + ":result:" + Decimal(i));
      var ok := AsBool(Get(res, "ok")).GetOr(true);
      var id := base + "#toolresult:" + callId;
      [RecordOutcome(callId, ok),
       Once(id, [Emit(id, Some(base), ts, ToolResult(callId, ok, Get(res, "output").GetOr(Null)))])]
  }

  /** `u32_field`: larger counts saturate. */
  function LineCount(v: Value, key: string): nat {
    var n := AsU64(Get(v, key)).GetOr(0);
    if n < U32_LIMIT then n else U32_LIMIT - 1
  }

  function EditOps(base: string, ts: int, edit: Value, i: nat): seq<Op> {
    if !edit.Obj? then []
    else
      var id := base + "#edit:" + Decimal(i);
      [Once(id, [Emit(id, Some(base), ts, FileEdit(
        OrElse(StrField(edit, "callId"), StrField(edit, "call_id")),
        Diff(Field(edit, "path"), StrField(edit, "oldText"), StrField(edit, "newText"), StrField(edit, "diff"),
             LineCount(edit, "added"), LineCount(edit, "removed"))))])]
  }

  datatype Section = CallSection | ResultSection | EditSection

  function ItemOps(section: Section, base: string, ts: int, item: Value, i: nat): seq<Op> {
    match section
    case CallSection => CallOps(base, ts, item, i)
    case ResultSection => ResultOps(base, ts, item, i)
    case EditSection => EditOps(base, ts, item, i)
  }

  function ItemsOps(section: Section, base: string, ts: int, items: seq<Value>): seq<Op> {
    if items == [] then []
    else
      var n := |items| - 1;
      ItemsOps(section, base, ts, items[..n]) + ItemOps(section, base, ts, items[n], n)
  }

  function SectionKey(section: Section): string {
    match section
    case CallSection => "toolCalls"
    case ResultSection => "toolResults"
    case EditSection => "edits"
  }

  function SectionOps(section: Section, base: string, ts: int, v: Value): seq<Op> {
    ItemsOps(section, base, ts, AsArray(Get(v, SectionKey(section))).GetOr([]))
  }

  function Sections(base: string, ts: int, v: Value): seq<Op> {
    SectionOps(CallSection, base, ts, v) + SectionOps(ResultSection, base, ts, v) + SectionOps(EditSection, base, ts, v)
  }

  function MessageBody(h: Host, raw: RawRecord, v: Value): seq<Op> {
    var base, ts := EventId(h, raw, v), Timestamp(h, v);
    [Emit(base, Parent(v), ts, TurnKind(v))] + Sections(base, ts, v)
  }

  function MessageOps(h: Host, raw: RawRecord, v: Value): seq<Op> {
    [Once(EventId(h, raw, v), MessageBody(h, raw, v))]
  }

  // ---- A record ------------------------------------------------------------

  predicate StartsSession(kind: Option<string>) {
    kind in {Some("session_start"), Some("session-start"), Some("sessionStart")}
  }

  predicate EndsSession(kind: Option<string>) {
    kind in {Some("session_end"), Some("session-end"), Some("sessionEnd")}
  }

  function Dispatched(h: Host, raw: RawRecord, v: Value): seq<Op> {
    if StartsSession(StrField(v, "kind")) then StartOps(h, raw, v)
    else if EndsSession(StrField(v, "kind")) then EndOps(h, raw, v)
    else if StrField(v, "role").Some? then MessageOps(h, raw, Flattened(v))
    else [UnknownOp(h, raw, v)]
  }

  /** The session follows the record: bound to whatever session the record names. */
  function RecordOps(h: Host, raw: RawRecord, v: Value): seq<Op> {
    if !v.Obj? then [UnknownOp(h, raw, v)]
    else
      var sid := SessionOf(v);
      (if sid.Some? then [BindSession(sid.value)] else []) + Dispatched(h, raw, v)
  }

  function Plan(h: Host, raw: RawRecord): seq<Op> {
    match ParseJsonLine(h, raw)
    case Some(v) => RecordOps(h, raw, v)
    case None =>
      if h.text(raw.bytes) == "" then [] else [UnknownOp(h, raw, Str(h.text(raw.bytes)))]
  }
}
