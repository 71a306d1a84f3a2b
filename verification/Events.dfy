/** The normalized event model and the code the adapters call but this project does not model. */
module Events {
  import opened Wrappers
  import opened Json
  import Text

  datatype GitRef = GitRef(sha: string, branch: Option<string>)

  datatype ProjectRef = ProjectRef(cwd: string, repoRoot: Option<string>, git: Option<GitRef>)

  datatype SourceLocation = SourceLocation(file: string, byteOffset: nat, lineNo: nat)

  /** A raw record; its bytes are kept as a string of one character a byte. */
  datatype RawRecord = RawRecord(bytes: string, location: SourceLocation)

  datatype Part =
    | TextPart(text: string)
    | ThinkingPart(text: string)
    | ToolUsePart(callId: string, name: string, args: Value)
    | ToolResultPart(callId: string, output: Value)
    | ImagePart(mediaType: Option<string>)
    | OtherPart(raw: Value)

  datatype Usage = Usage(
    inputTokens: Option<nat>, outputTokens: Option<nat>,
    cacheReadTokens: Option<nat>, cacheCreationTokens: Option<nat>)

  datatype Diff = Diff(
    path: string, old_: Option<string>, new_: Option<string>, unified: Option<string>,
    addedLines: nat, removedLines: nat)

  datatype EventKind =
    | SessionStart(cwd: string, git: Option<GitRef>, model: Option<string>, toolVersion: Option<string>)
    | UserTurn(text: string, parts: seq<Part>)
    | AssistantTurn(text: string, thinking: Option<string>, model: Option<string>,
                    usage: Option<Usage>, parts: seq<Part>)
    | ToolCall(callId: string, name: string, args: Value)
    | ToolResult(callId: string, ok: bool, output: Value)
    | FileEdit(editCall: Option<string>, diff: Diff)
    | Compaction(replacedStart: nat, replacedEnd: nat)
    | SessionEnd(reason: Option<string>)
    | Unknown(rawType: string, raw: Value)

  datatype Source = ClaudeCode | Codex | Otel | OpenCode | Hermes | Cursor

  datatype CaptureEvent = CaptureEvent(
    source: Source, sessionId: string, seqNo: nat, eventId: string, parentId: Option<string>,
    timestamp: int, project: ProjectRef, kind: EventKind, provenance: SourceLocation)

  /**
   Code that stays outside this model: the content hash, the JSON reader, the
   text of a record (trimmed, empty when it is not UTF-8), the timestamp reader
   and the keyword sniff of a free-text tool output.
   */
  datatype Host = Host(
    contentId: string -> string,
    fromJson: string -> Option<Value>,
    text: string -> string,
    parseTs: string -> Option<int>,
    textIsOk: string -> bool)

  /** `parse_json_line`: nothing for a blank line or for invalid JSON. */
  function ParseJsonLine(h: Host, raw: RawRecord): Option<Value> {
    var s := h.text(raw.bytes);
    if s == "" then None else h.fromJson(s)
  }

  /** `ts_from`: the first key with a readable timestamp, else the epoch. */
  function TsFrom(h: Host, v: Value, keys: seq<string>): int {
    if keys == [] then 0
    else
      var here := TsOf(h, Get(v, keys[0]));
      if here.Some? then here.value else TsFrom(h, v, keys[1..])
  }

  /** `i64::to_string`. */
  function SignedText(n: int): string {
    if n < 0 then "-" + Text.Decimal(-n) else Text.Decimal(n)
  }

  function TsOf(h: Host, v: Option<Value>): Option<int> {
    if AsStr(v).Some? then h.parseTs(AsStr(v).value)
    else if AsI64(v).Some? then h.parseTs(SignedText(AsI64(v).value))
    else None
  }

  const DEFAULT_PROJECT: ProjectRef := ProjectRef(".", None, None)
}
