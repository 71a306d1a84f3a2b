/** The flat attribute view of an OTel record and what the record does to the context. */
module OtelPlan {
  import opened Wrappers
  import opened Json
  import opened Events
  import opened Ctx
  import Otlp
  import Text

  // ---- Attributes ------------------------------------------------------------

  /** Attributes come either from the record itself or from its `attributes` array. */
  datatype Attrs = Attrs(flat: Option<map<string, Value>>, nested: Option<map<string, Value>>, raw: Value)

  lemma AttributesSmaller(v: Value)
    requires AsArray(Get(v, "attributes")).Some?
    ensures var arr := AsArray(Get(v, "attributes")).value;
      forall i | 0 <= i < |arr| :: arr[i] < v
  {
    var inner := v.fields["attributes"];
    assert inner < v;
    forall i | 0 <= i < |inner.items| ensures inner.items[i] < v {
      assert inner.items[i] < inner;
    }
  }

  function FromRecord(v: Value): Attrs {
    var arr := AsArray(Get(v, "attributes"));
    if arr.Some? then
      AttributesSmaller(v);
      Attrs(None, Some(Otlp.Collected(arr.value, v)), v)
    else Attrs(AsObject(Some(v)), None, v)
  }

  function Lookup(m: Option<map<string, Value>>, key: string): Option<Value> {
    if m.Some? && key in m.value then Some(m.value[key]) else None
  }

  function AttrValue(a: Attrs, key: string): Option<Value> {
    if a.flat.Some? then Lookup(a.flat, key) else Lookup(a.nested, key)
  }

  function AttrStr(a: Attrs, key: string): Option<string> {
    AsStr(AttrValue(a, key))
  }

  function AttrArray(a: Attrs, key: string): Option<seq<Value>> {
    AsArray(AttrValue(a, key))
  }

  predicate AllDigits(s: string) {
    forall c | c in s :: Text.IsDigit(c)
  }

  /** `str::parse::<u64>`: digits after an optional plus sign, in range. */
  function ParseU64(s: string): Option<nat> {
    var digits := if s != "" && s[0] == '+' then s[1..] else s;
    if digits == "" || !AllDigits(digits) then None
    else if Text.DecimalValue(digits) < U64_LIMIT then Some(Text.DecimalValue(digits))
    else None
  }

  function U64Of(v: Value): Option<nat> {
    if AsU64(Some(v)).Some? then AsU64(Some(v))
    else if v.Str? then ParseU64(Text.Trim(v.s)) else None
  }

  function AttrU64(a: Attrs, key: string): Option<nat> {
    if AttrValue(a, key).Some? then U64Of(AttrValue(a, key).value) else None
  }

  function AttrU32(a: Attrs, key: string): Option<nat> {
    var n := AttrU64(a, key);
    if n.Some? && n.value < U32_LIMIT then n else None
  }

  function OperationName(a: Attrs): Option<string> {
    OrElse(AttrStr(a, "gen_ai.operation.name"), OrElse(AttrStr(a, "operation.name"), AttrStr(a, "name")))
  }

  function UsageOf(a: Attrs): Option<Usage> {
    var input, output := AttrU64(a, "gen_ai.usage.input_tokens"), AttrU64(a, "gen_ai.usage.output_tokens");
    if input.None? && output.None? then None
    else Some(Usage(input, output, AttrU64(a, "gen_ai.usage.cache_read_tokens"),
                    AttrU64(a, "gen_ai.usage.cache_creation_tokens")))
  }

  function ToolOk(a: Attrs): Option<bool> {
    var status := OrElse(AttrStr(a, "gen_ai.tool.result.status"),
        OrElse(AttrStr(a, "otel.status_code"), AttrStr(a, "status")));
    if status.Some? then Some(Text.AsciiLower(Text.Trim(status.value)) !in {"error", "failed", "failure", "ko"})
    else if AttrValue(a, "error.type").Some? || AttrValue(a, "exception.type").Some? then Some(false)
    else if AttrValue(a, "gen_ai.tool.result").Some? then Some(true)
    else None
  }

  function FileDiff(a: Attrs): Option<Diff> {
    var path := OrElse(AttrStr(a, "file.path"), AttrStr(a, "code.filepath"));
    if path.None? then None
    else Some(Diff(path.value, None, None, None,
                   OrElse(AttrU32(a, "model_added_lines"), AttrU32(a, "code.added_lines")).GetOr(0),
                   OrElse(AttrU32(a, "model_removed_lines"), AttrU32(a, "code.removed_lines")).GetOr(0)))
  }

  // ---- Event kinds ------------------------------------------------------------

  datatype Operation = StartSession | EndSession | ExecuteTool | FileOperation | Dialogue

  function OperationOf(a: Attrs): Operation {
    var op := OperationName(a).GetOr("");
    if op in {"session.start", "session_start", "gen_ai.session.start"} then StartSession
    else if op in {"session.end", "session_end", "gen_ai.session.end"} then EndSession
    else if op in {"execute_tool", "gen_ai.execute_tool"} then ExecuteTool
    else if op in {"file_operation", "gen_ai.file_operation"} then FileOperation
    else Dialogue
  }

  /** An event before it has an id: its label, its index, its kind. */
  datatype Draft = Draft(tag: string, index: nat, kind: EventKind)

  function GitOf(a: Attrs): Option<GitRef> {
    if AttrStr(a, "git.commit").Some? then Some(GitRef(AttrStr(a, "git.commit").value, AttrStr(a, "git.branch")))
    else None
  }

  function Cwd(a: Attrs): string {
    OrElse(AttrStr(a, "cwd"), AttrStr(a, "gen_ai.cli.cwd")).GetOr(".")
  }

  function StartKind(a: Attrs): EventKind {
    SessionStart(Cwd(a), GitOf(a), AttrStr(a, "gen_ai.request.model"),
                 OrElse(AttrStr(a, "gen_ai.tool.version"), AttrStr(a, "service.version")))
  }

  function ToolName(a: Attrs): string {
    AttrStr(a, "gen_ai.tool.name").GetOr("tool")
  }

  function CallIdOf(h: Host, raw: RawRecord, a: Attrs): string {
    AttrStr(a, "gen_ai.tool.call.id").GetOr(h.contentId(raw.bytes))
  }

  function CallDraft(callId: string, a: Attrs): Draft {
    Draft("tool_call", 0, ToolCall(callId, ToolName(a), AttrValue(a, "gen_ai.tool.call.arguments").GetOr(Null)))
  }

  function ResultDraft(callId: string, ok: bool, a: Attrs): Draft {
    Draft("tool_result", 0, ToolResult(callId, ok, AttrValue(a, "gen_ai.tool.result").GetOr(Null)))
  }

  function EditDraft(callId: Option<string>, diff: Diff): Draft {
    Draft("file_edit", 0, FileEdit(callId, diff))
  }

  predicate IsUserRole(m: Value) {
    StrField(m, "role").Some? && Text.AsciiLower(StrField(m, "role").value) == "user"
  }

  function PartText(p: Value): Option<string> {
    if p.Str? then Some(p.s) else AsStr(OrElse(Get(p, "text"), Get(p, "content")))
  }

  function PartTexts(parts: seq<Value>): seq<string> {
    if parts == [] then []
    else
      var texts, t := PartTexts(parts[..|parts| - 1]), PartText(parts[|parts| - 1]);
      if t.Some? then texts + [t.value] else texts
  }

  function MessageText(m: Value): string {
    if StrField(m, "content").Some? then StrField(m, "content").value
    else Text.Pushed(PartTexts(AsArray(Get(m, "parts")).GetOr([])) + PartTexts(AsArray(Get(m, "content")).GetOr([])))
  }

  function PromptDrafts(a: Attrs): seq<Draft> {
    var prompt := AttrStr(a, "gen_ai.cli.user_prompt").GetOr("");
    if prompt == "" then [] else [Draft("user_prompt", 0, UserTurn(prompt, [TextPart(prompt)]))]
  }

  function InputDrafts(msgs: seq<Value>): seq<Draft> {
    if msgs == [] then []
    else
      var n := |msgs| - 1;
      var before, text := InputDrafts(msgs[..n]), MessageText(msgs[n]);
      if IsUserRole(msgs[n]) then before + [Draft("input_msg", n, UserTurn(text, [TextPart(text)]))] else before
  }

  function OutputDrafts(msgs: seq<Value>, model: Option<string>, usage: Option<Usage>): seq<Draft> {
    seq(|msgs|, i requires 0 <= i < |msgs| =>
      Draft("output_msg", i, AssistantTurn(MessageText(msgs[i]), None, model, usage, [TextPart(MessageText(msgs[i]))])))
  }

  function DialogueDrafts(a: Attrs): seq<Draft> {
    PromptDrafts(a)
    + InputDrafts(AttrArray(a, "gen_ai.input.messages").GetOr([]))
    + OutputDrafts(AttrArray(a, "gen_ai.output.messages").GetOr([]), AttrStr(a, "gen_ai.request.model"), UsageOf(a))
  }

  // ---- Operations ------------------------------------------------------------

  function DeriveId(h: Host, raw: RawRecord, d: Draft): string {
    h.contentId(raw.bytes) + ":" + d.tag + ":" + Text.Decimal(d.index)
  }

  function EmitDraft(h: Host, raw: RawRecord, ts: int, d: Draft): Op {
    Emit(DeriveId(h, raw, d), None, ts, d.kind)
  }

  function EmitDrafts(h: Host, raw: RawRecord, ts: int, ds: seq<Draft>): seq<Op> {
    seq(|ds|, i requires 0 <= i < |ds| => EmitDraft(h, raw, ts, ds[i]))
  }

  function StartOps(h: Host, project: Option<ProjectRef>, raw: RawRecord, a: Attrs, ts: int): seq<Op> {
    (if project.None? then [BindProject(ProjectRef(Cwd(a), AttrStr(a, "repo_root"), GitOf(a)))] else [])
    + [EmitDraft(h, raw, ts, Draft("session_start", 0, StartKind(a)))]
  }

  function EndOps(h: Host, raw: RawRecord, a: Attrs, ts: int): seq<Op> {
    [EmitDraft(h, raw, ts, Draft("session_end", 0, SessionEnd(AttrStr(a, "reason"))))]
  }

  /** The outcome, when there is one, with its result, and the edit. */
  function TailOps(
      h: Host, raw: RawRecord, a: Attrs, ts: int, callId: string, ok: Option<bool>, diff: Option<Diff>): seq<Op> {
    (if ok.Some? then [RecordOutcome(callId, ok.value), EmitDraft(h, raw, ts, ResultDraft(callId, ok.value, a))]
     else [])
    + (if diff.Some? then [EmitDraft(h, raw, ts, EditDraft(Some(callId), diff.value))] else [])
  }

  function CallOps(
      h: Host, raw: RawRecord, a: Attrs, ts: int, callId: string, ok: Option<bool>, diff: Option<Diff>): seq<Op> {
    [NameCall(callId, ToolName(a)), EmitDraft(h, raw, ts, CallDraft(callId, a))]
    + TailOps(h, raw, a, ts, callId, ok, diff)
  }

  function ToolOps(h: Host, raw: RawRecord, a: Attrs, ts: int): seq<Op> {
    CallOps(h, raw, a, ts, CallIdOf(h, raw, a), ToolOk(a), FileDiff(a))
  }

  function FileOps(h: Host, raw: RawRecord, a: Attrs, ts: int): seq<Op> {
    if FileDiff(a).Some? then [EmitDraft(h, raw, ts, EditDraft(None, FileDiff(a).value))]
    else [UnknownOp(h, raw, a.raw)]
  }

  function DialogueOps(h: Host, raw: RawRecord, a: Attrs, ts: int): seq<Op> {
    if DialogueDrafts(a) == [] then [UnknownOp(h, raw, a.raw)] else EmitDrafts(h, raw, ts, DialogueDrafts(a))
  }

  function Timestamp(h: Host, a: Attrs): int {
    TsFrom(h, a.raw, ["time", "timestamp", "timeUnixNano", "observedTimeUnixNano", "ts"])
  }

  function RecordOps(h: Host, project: Option<ProjectRef>, raw: RawRecord, a: Attrs): seq<Op> {
    var ts := Timestamp(h, a);
    match OperationOf(a)
    case StartSession => StartOps(h, project, raw, a, ts)
    case EndSession => EndOps(h, raw, a, ts)
    case ExecuteTool => ToolOps(h, raw, a, ts)
    case FileOperation => FileOps(h, raw, a, ts)
    case Dialogue => DialogueOps(h, raw, a, ts)
  }

  /** Events are built first and dropped afterwards when their id was seen. */
  function Dedup(seen: set<string>, evs: seq<CaptureEvent>): (set<string>, seq<CaptureEvent>) {
    if evs == [] then (seen, [])
    else
      var before, e := Dedup(seen, evs[..|evs| - 1]), evs[|evs| - 1];
      (before.0 + {e.eventId}, if e.eventId in before.0 then before.1 else before.1 + [e])
  }

  function SessionLatched(s: State, a: Attrs): State {
    if s.sessionId.None? && AttrStr(a, "gen_ai.conversation.id").Some?
    then s.(sessionId := AttrStr(a, "gen_ai.conversation.id")) else s
  }

  function ParseSpec(h: Host, s: State, raw: RawRecord): (State, seq<CaptureEvent>) {
    match ParseJsonLine(h, raw)
    case None =>
      var text := h.text(raw.bytes);
      if text == "" then (s, []) else ExecOp(Otel, raw, s, UnknownOp(h, raw, Str(text)))
    case Some(value) =>
      var a := FromRecord(value);
      var built := Exec(Otel, raw, SessionLatched(s, a), RecordOps(h, s.project, raw, a));
      var kept := Dedup(built.0.seen, built.1);
      (built.0.(seen := kept.0), kept.1)
  }
}
