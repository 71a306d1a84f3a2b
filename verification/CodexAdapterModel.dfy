/** The Codex adapter: methods that update the context, each proved against its plan. */
module CodexAdapterModel {
  import opened Wrappers
  import opened Json
  import opened Events
  import opened Ctx
  import opened CodexPlan
  import CodexLaws
  import CtxLaws
  import OrderedKeys
  import Text
  import V4aPatch

  /** The session-start record: rebind, then its guarded event. */
  lemma MetaRun(h: Host, raw: RawRecord, s: State, value: Value, payload: Value)
    ensures var session := OrElse(StrField(payload, "id"), s.sessionId);
      var bound := s.(sessionId := session, project := Some(MetaProject(payload)));
      var ops := SessionMeta(h, s.sessionId, raw, value, payload);
      Exec(Codex, raw, s, ops) == Exec(Codex, raw, bound, [ops[|ops| - 1]])
  {
    var ops := SessionMeta(h, s.sessionId, raw, value, payload);
    var last := [ops[|ops| - 1]];
    var id, project := StrField(payload, "id"), MetaProject(payload);
    if id.Some? {
      assert ops == [BindSession(id.value)] + ([BindProject(project)] + last);
      ExecConcat(Codex, raw, s, [BindSession(id.value)], [BindProject(project)] + last);
      ExecOne(Codex, raw, s, BindSession(id.value));
    } else {
      assert ops == [BindProject(project)] + last;
    }
    var s1 := s.(sessionId := OrElse(id, s.sessionId));
    ExecConcat(Codex, raw, s1, [BindProject(project)], last);
    ExecOne(Codex, raw, s1, BindProject(project));
    var r := Exec(Codex, raw, s1.(project := Some(project)), last);
    assert [] + r.1 == r.1;
  }

  class CodexAdapter {
    const h: Host

    constructor (h: Host)
      ensures this.h == h
    {
      this.h := h;
    }

    method EmitUnknown(raw: RawRecord, ctx: ParseCtx, v: Value) returns (events: seq<CaptureEvent>)
      modifies ctx
      ensures (ctx.View(), events) == Exec(Codex, raw, old(ctx.View()), [UnknownOp(h, raw, v)])
    {
      ExecOne(Codex, raw, ctx.View(), UnknownOp(h, raw, v));
      var e := ctx.UnknownEvent(h, Codex, raw, v);
      events := [e];
    }

    method ParseSessionMeta(raw: RawRecord, ctx: ParseCtx, value: Value, payload: Value)
      returns (events: seq<CaptureEvent>)
      modifies ctx
      ensures (ctx.View(), events) ==
        Exec(Codex, raw, old(ctx.View()), SessionMeta(h, old(ctx.sessionId), raw, value, payload))
    {
      MetaRun(h, raw, ctx.View(), value, payload);
      var id := StrField(payload, "id");
      if id.Some? {
        ctx.sessionId := id;
      }
      var project := MetaProject(payload);
      ctx.project := Some(project);
      var toolVersion := OrElse(StrField(payload, "cli_version"), StrField(payload, "originator"));
      var eventId := SessionEventId(h, ctx.sessionId, raw);
      events := ctx.EmitOnce(Codex, raw, eventId, None, Ts(h, value),
                         SessionStart(project.cwd, project.git, StrField(payload, "model"), toolVersion));
    }

    /** `flatten_content`: the joined text and the structured parts. */
    method FlattenContent(content: Option<Value>) returns (text: string, parts: seq<Part>)
      ensures text == Text.Pushed(ItemTexts(ContentItems(content)))
      ensures parts == ItemParts(ContentItems(content))
    {
      text, parts := "", [];
      var items := ContentItems(content);
      for k := 0 to |items|
        invariant text == Text.Pushed(ItemTexts(items[..k]))
        invariant parts == ItemParts(items[..k])
      {
        TakeOneMore(items, k);
        if ItemText(items[k]).Some? {
          Text.PushedSnoc(ItemTexts(items[..k]), ItemText(items[k]).value);
          text := Text.PushLine(text, ItemText(items[k]).value);
        }
        if ItemPart(items[k]).Some? {
          parts := parts + [ItemPart(items[k]).value];
        }
      }
      assert items[..|items|] == items;
    }

    method ParseMessage(raw: RawRecord, ctx: ParseCtx, payload: Value, ts: int) returns (events: seq<CaptureEvent>)
      modifies ctx
      ensures (ctx.View(), events) == Exec(Codex, raw, old(ctx.View()), Message(h, raw, payload, ts))
    {
      var role := StrField(payload, "role").GetOr("");
      var text, parts := FlattenContent(Get(payload, "content"));
      var id := ItemId(h, raw, payload);
      OnceEmits(Codex, raw, ctx.View(), id, Message(h, raw, payload, ts)[0].body[0]);
      var isNew := ctx.FirstSeen(id);
      if !isNew {
        assert ctx.seen == old(ctx.seen);
        return [];
      }
      var e: CaptureEvent;
      if role == "user" {
        e := ctx.MakeEvent(Codex, raw, id, None, ts, UserTurn(text, parts));
      } else if role == "assistant" {
        e := ctx.MakeEvent(Codex, raw, id, None, ts,
                           AssistantTurn(text, None, StrField(payload, "model"), None, parts));
      } else {
        e := ctx.UnknownEvent(h, Codex, raw, payload);
      }
      events := [e];
    }

    method ReasoningSummary(payload: Value) returns (thinking: Option<string>)
      ensures thinking == Thinking(payload)
    {
      var summary := Get(payload, "summary");
      if summary.Some? && summary.value.Arr? {
        var items, out := summary.value.items, "";
        for k := 0 to |items|
          invariant out == Text.Pushed(SummaryTexts(items[..k]))
        {
          SummaryOneMore(items, k);
          if SummaryText(items[k]).Some? {
            Text.PushedSnoc(SummaryTexts(items[..k]), SummaryText(items[k]).value);
            out := Text.PushLine(out, SummaryText(items[k]).value);
          }
        }
        assert items[..|items|] == items;
        return if out == "" then None else Some(out);
      }
      return if summary.Some? && summary.value.Str? && summary.value.s != "" then Some(summary.value.s) else None;
    }

    method ParseReasoning(raw: RawRecord, ctx: ParseCtx, payload: Value, ts: int) returns (events: seq<CaptureEvent>)
      modifies ctx
      ensures (ctx.View(), events) == Exec(Codex, raw, old(ctx.View()), Reasoning(h, raw, payload, ts))
    {
      var thinking := ReasoningSummary(payload);
      if thinking.None? {
        events := EmitUnknown(raw, ctx, payload);
      } else {
        events := ctx.EmitOnce(Codex, raw, ItemId(h, raw, payload), None, ts,
            AssistantTurn("", thinking, None, None, []));
      }
    }

    /** `emit_v4a_edits`: one guarded file edit per section. */
    method EmitV4aEdits(raw: RawRecord, ctx: ParseCtx, ts: int, baseId: string, callId: Option<string>, patch: string)
      returns (events: seq<CaptureEvent>)
      modifies ctx
      ensures (ctx.View(), events) == Exec(Codex, raw, old(ctx.View()),
        EditOps(h, baseId, callId, ts, V4aPatch.Sections(Text.Lines(patch))))
    {
      ghost var s0 := ctx.View();
      var sections := V4aPatch.Parse(patch);
      events := [];
      for k := 0 to |sections|
        invariant (ctx.View(), events) == Exec(Codex, raw, s0, EditOps(h, baseId, callId, ts, sections[..k]))
      {
        var section := sections[k];
        NextEdit(h, baseId, callId, ts, sections, k);
        ExecConcat(Codex, raw, s0, EditOps(h, baseId, callId, ts, sections[..k]),
            [EditOp(h, baseId, callId, ts, section)]);
        var more := ctx.EmitOnce(Codex, raw, EditId(h, baseId, section.path), callId, ts,
            FileEdit(callId, SectionDiff(section)));
        events := events + more;
      }
      assert sections[..|sections|] == sections;
    }

    /** The call event with its name remembered, inside the guard of the call. */
    method EmitCall(
        raw: RawRecord, ctx: ParseCtx, id: string, callId: Option<string>, name: string, ts: int, args: Value)
      returns (events: seq<CaptureEvent>)
      modifies ctx
      ensures (ctx.View(), events) == Exec(Codex, raw, old(ctx.View()),
        NameOps(callId, name) + [Emit(id, None, ts, ToolCall(callId.GetOr(""), name, args))])
    {
      ghost var s0 := ctx.View();
      ghost var op := Emit(id, None, ts, ToolCall(callId.GetOr(""), name, args));
      ExecConcat(Codex, raw, s0, NameOps(callId, name), [op]);
      if callId.Some? {
        ExecOne(Codex, raw, s0, NameCall(callId.value, name));
        ctx.callNames := ctx.callNames[callId.value := name];
      }
      ExecOne(Codex, raw, ctx.View(), op);
      var e := ctx.MakeEvent(Codex, raw, id, None, ts, ToolCall(callId.GetOr(""), name, args));
      events := [e];
      assert [] + events == events;
    }

    method ParseFunctionCall(raw: RawRecord, ctx: ParseCtx, payload: Value, ts: int) returns (events: seq<CaptureEvent>)
      modifies ctx
      ensures (ctx.View(), events) == Exec(Codex, raw, old(ctx.View()), FunctionCall(h, raw, payload, ts))
    {
      var name, callId := StrField(payload, "name").GetOr(""), StrField(payload, "call_id");
      var args, id := ParseArguments(h, Get(payload, "arguments")), CallEventId(h, raw, payload);
      ghost var op := FunctionCall(h, raw, payload, ts)[0];
      ExecOne(Codex, raw, ctx.View(), op);
      var isNew := ctx.FirstSeen(id);
      if !isNew {
        assert ctx.seen == old(ctx.seen);
        return [];
      }
      ghost var s1 := ctx.View();
      ghost var call := NameOps(callId, name) + [Emit(id, None, ts, ToolCall(callId.GetOr(""), name, args))];
      ghost var edits := LegacyEdits(h, id, callId, ts, name, args);
      assert op.body == call + edits;
      ExecConcat(Codex, raw, s1, call, edits);
      events := EmitCall(raw, ctx, id, callId, name, ts, args);
      if name == "apply_patch" && PatchText(args).Some? {
        var more := EmitV4aEdits(raw, ctx, ts, id, callId, PatchText(args).value);
        events := events + more;
      } else {
        assert events + [] == events;
      }
    }

    method ParseCustomToolCall(raw: RawRecord, ctx: ParseCtx, payload: Value, ts: int)
      returns (events: seq<CaptureEvent>)
      modifies ctx
      ensures (ctx.View(), events) == Exec(Codex, raw, old(ctx.View()), CustomToolCall(h, raw, payload, ts))
    {
      var name, callId := StrField(payload, "name").GetOr(""), StrField(payload, "call_id");
      var id := CallEventId(h, raw, payload);
      ExecOne(Codex, raw, ctx.View(), CustomToolCall(h, raw, payload, ts)[0]);
      var isNew := ctx.FirstSeen(id);
      if !isNew {
        assert ctx.seen == old(ctx.seen);
        return [];
      }
      events := EmitCall(raw, ctx, id, callId, name, ts, CustomArgs(h, payload));
    }

    /** `emit_tool_result`: the outcome is recorded only behind the guard of its event. */
    method EmitToolResult(
        raw: RawRecord, ctx: ParseCtx, ts: int, callId: string, ok: bool, output: Value, idKind: string)
      returns (events: seq<CaptureEvent>)
      modifies ctx
      ensures (ctx.View(), events) ==
        Exec(Codex, raw, old(ctx.View()), [ResultOp(h, raw, ts, callId, ok, output, idKind)])
    {
      var id := ResultId(h, raw, callId, idKind);
      ghost var op := ResultOp(h, raw, ts, callId, ok, output, idKind);
      ExecOne(Codex, raw, ctx.View(), op);
      var isNew := ctx.FirstSeen(id);
      if !isNew {
        assert ctx.seen == old(ctx.seen);
        return [];
      }
      ghost var emit := op.body[|op.body| - 1];
      ghost var before := op.body[..|op.body| - 1];
      assert op.body == before + [emit];
      ExecConcat(Codex, raw, ctx.View(), before, [emit]);
      if callId != "" {
        ExecOne(Codex, raw, ctx.View(), RecordOutcome(callId, ok));
        ctx.callOk := ctx.callOk[callId := ok];
      }
      ExecOne(Codex, raw, ctx.View(), emit);
      var e := ctx.MakeEvent(Codex, raw, id, ParentOf(callId), ts, ToolResult(callId, ok, output));
      events := [e];
      assert [] + events == events;
    }

    method CountUnifiedLines(unified: string) returns (added: nat, removed: nat)
      ensures added == CountUnified(Text.Lines(unified), '+')
      ensures removed == CountUnified(Text.Lines(unified), '-')
    {
      added, removed := 0, 0;
      var lines := Text.Lines(unified);
      for k := 0 to |lines|
        invariant added == CountUnified(lines[..k], '+')
        invariant removed == CountUnified(lines[..k], '-')
      {
        var line := lines[k];
        assert lines[..k + 1][..k] == lines[..k];
        if Text.StartsWith(line, "+++") || Text.StartsWith(line, "---") { continue; }
        added := added + V4aPatch.Starts(line, '+');
        removed := removed + V4aPatch.Starts(line, '-');
      }
      assert lines[..|lines|] == lines;
    }

    /** One guarded file edit per changed path, in path order. */
    method EmitChanges(raw: RawRecord, ctx: ParseCtx, callId: string, ts: int, changes: map<string, Value>)
      returns (events: seq<CaptureEvent>)
      modifies ctx
      ensures (ctx.View(), events) == Exec(Codex, raw, old(ctx.View()),
        ChangeOps(h, raw, callId, ts, changes, OrderedKeys.Ascending(changes.Keys)))
    {
      ghost var s0 := ctx.View();
      var paths := OrderedKeys.Ascending(changes.Keys);
      events := [];
      for k := 0 to |paths|
        invariant (ctx.View(), events) == Exec(Codex, raw, s0, ChangeOps(h, raw, callId, ts, changes, paths[..k]))
      {
        var path := paths[k];
        assert path in paths;
        var info := changes[path];
        ghost var op := ChangeOp(h, raw, callId, ts, path, info);
        ghost var done := ChangeOps(h, raw, callId, ts, changes, paths[..k]);
        NextChange(h, raw, callId, ts, changes, paths, k);
        ExecConcat(Codex, raw, s0, done, [op]);
        var unified := StrField(info, "unified_diff");
        var added, removed := CountUnifiedLines(unified.GetOr(""));
        var diff := Diff(path, None, None, unified, added, removed);
        var more := ctx.EmitOnce(Codex, raw, ChangeId(h, raw, callId, path), ParentOf(callId), ts,
                             FileEdit(ParentOf(callId), diff));
        events := events + more;
      }
      assert paths[..|paths|] == paths;
    }

    method ParsePatchApplyEnd(raw: RawRecord, ctx: ParseCtx, payload: Value, ts: int)
      returns (events: seq<CaptureEvent>)
      modifies ctx
      ensures (ctx.View(), events) == Exec(Codex, raw, old(ctx.View()), PatchApplyEnd(h, raw, payload, ts))
    {
      var callId := CallId(payload);
      var success := AsBool(Get(payload, "success")).GetOr(true);
      var changes := AsObject(Get(payload, "changes")).GetOr(map[]);
      ExecConcat(Codex, raw, ctx.View(),
        [ResultOp(h, raw, ts, callId, success, PatchOutput(payload), "patch_apply_end")],
        ChangeOps(h, raw, callId, ts, changes, OrderedKeys.Ascending(changes.Keys)));
      var result := EmitToolResult(raw, ctx, ts, callId, success, PatchOutput(payload), "patch_apply_end");
      var edits := EmitChanges(raw, ctx, callId, ts, changes);
      events := result + edits;
    }

    method ParseCompaction(raw: RawRecord, ctx: ParseCtx, value: Value) returns (events: seq<CaptureEvent>)
      modifies ctx
      ensures (ctx.View(), events) == Exec(Codex, raw, old(ctx.View()), CompactionOps(h, raw, value))
    {
      var id := h.contentId("compaction:" + h.contentId(raw.bytes));
      events := ctx.EmitOnce(Codex, raw, id, None, Ts(h, value), Compaction(0, 0));
    }

    method ParseResponseItem(raw: RawRecord, ctx: ParseCtx, value: Value, payload: Value)
      returns (events: seq<CaptureEvent>)
      modifies ctx
      ensures (ctx.View(), events) == Exec(Codex, raw, old(ctx.View()), ResponseItem(h, raw, value, payload))
    {
      var ts := Ts(h, value);
      match StrField(payload, "type").GetOr("")
      case "message" => events := ParseMessage(raw, ctx, payload, ts);
      case "function_call" => events := ParseFunctionCall(raw, ctx, payload, ts);
      case "function_call_output" =>
        events := EmitToolResult(raw, ctx, ts, CallId(payload), OutputIsOk(h, Output(payload)), Output(payload),
            "output");
      case "custom_tool_call" => events := ParseCustomToolCall(raw, ctx, payload, ts);
      case "custom_tool_call_output" =>
        events := EmitToolResult(raw, ctx, ts, CallId(payload), OutputIsOk(h, Output(payload)), Output(payload),
            "output");
      case "reasoning" => events := ParseReasoning(raw, ctx, payload, ts);
      case _ => events := EmitUnknown(raw, ctx, value);
    }

    method ParseEventMsg(raw: RawRecord, ctx: ParseCtx, value: Value, payload: Value)
      returns (events: seq<CaptureEvent>)
      modifies ctx
      ensures (ctx.View(), events) == Exec(Codex, raw, old(ctx.View()), EventMsg(h, raw, value, payload))
    {
      var ts := Ts(h, value);
      match StrField(payload, "type").GetOr("")
      case "patch_apply_end" => events := ParsePatchApplyEnd(raw, ctx, payload, ts);
      case "mcp_tool_call_end" =>
        var result := Get(payload, "result").GetOr(Null);
        events := EmitToolResult(raw, ctx, ts, CallId(payload), McpResultIsOk(result), result, "mcp");
      case "context_compacted" => events := ParseCompaction(raw, ctx, value);
      case _ => events := EmitUnknown(raw, ctx, value);
    }

    /** One record through the adapter: the context and the events are those of its plan. */
    method ParseRecord(raw: RawRecord, ctx: ParseCtx) returns (events: seq<CaptureEvent>)
      modifies ctx
      ensures (ctx.View(), events) == Exec(Codex, raw, old(ctx.View()), Plan(h, old(ctx.sessionId), raw))
    {
      var parsed := ParseJsonLine(h, raw);
      if parsed.None? { return []; }
      var value := parsed.value;
      var recType, payload := StrField(value, "type").GetOr(""), Get(value, "payload");
      if recType == "session_meta" && payload.Some? {
        events := ParseSessionMeta(raw, ctx, value, payload.value);
      } else if recType == "response_item" && payload.Some? {
        events := ParseResponseItem(raw, ctx, value, payload.value);
      } else if recType == "event_msg" && payload.Some? {
        events := ParseEventMsg(raw, ctx, value, payload.value);
      } else if recType == "compacted" {
        events := ParseCompaction(raw, ctx, value);
      } else {
        events := EmitUnknown(raw, ctx, value);
      }
    }
  }

  /** `parse_records`: a whole stream through one fresh context. */
  method ParseRecords(h: Host, recs: seq<RawRecord>) returns (events: seq<CaptureEvent>, ctx: ParseCtx)
    ensures fresh(ctx)
    ensures (ctx.View(), events) == CtxLaws.Run(Codex, CodexLaws.Planned(h), FRESH, recs)
  {
    ctx := new ParseCtx();
    var adapter := new CodexAdapter(h);
    events := [];
    for k := 0 to |recs|
      invariant fresh(ctx) && adapter.h == h
      invariant (ctx.View(), events) == CtxLaws.Run(Codex, CodexLaws.Planned(h), FRESH, recs[..k])
    {
      CtxLaws.RunSnoc(Codex, CodexLaws.Planned(h), FRESH, recs[..k], recs[k]);
      assert recs[..k + 1] == recs[..k] + [recs[k]];
      var more := adapter.ParseRecord(recs[k], ctx);
      events := events + more;
    }
    assert recs[..|recs|] == recs;
  }

  lemma NextEdit(h: Host, baseId: string, callId: Option<string>, ts: int, sections: seq<V4aPatch.PatchSection>, k: nat)
    requires k < |sections|
    ensures EditOps(h, baseId, callId, ts, sections[..k + 1])
      == EditOps(h, baseId, callId, ts, sections[..k]) + [EditOp(h, baseId, callId, ts, sections[k])]
  {
  }

  lemma NextChange(
      h: Host, raw: RawRecord, callId: string, ts: int, changes: map<string, Value>, paths: seq<string>, k: nat)
    requires k < |paths| && forall p | p in paths :: p in changes
    ensures (forall p | p in paths[..k] :: p in changes) && (forall p | p in paths[..k + 1] :: p in changes)
    ensures ChangeOps(h, raw, callId, ts, changes, paths[..k + 1])
      == ChangeOps(h, raw, callId, ts, changes, paths[..k])
         + [ChangeOp(h, raw, callId, ts, paths[k], changes[paths[k]])]
  {
  }

  lemma TakeOneMore(items: seq<Value>, k: nat)
    requires k < |items|
    ensures ItemTexts(items[..k + 1]) ==
      if ItemText(items[k]).Some? then ItemTexts(items[..k]) + [ItemText(items[k]).value] else ItemTexts(items[..k])
    ensures ItemParts(items[..k + 1]) ==
      if ItemPart(items[k]).Some? then ItemParts(items[..k]) + [ItemPart(items[k]).value] else ItemParts(items[..k])
  {
    var texts := seq(k + 1, i requires 0 <= i < k + 1 => ItemText(items[..k + 1][i]));
    assert texts[..k] == seq(k, i requires 0 <= i < k => ItemText(items[..k][i]));
    var parts := seq(k + 1, i requires 0 <= i < k + 1 => ItemPart(items[..k + 1][i]));
    assert parts[..k] == seq(k, i requires 0 <= i < k => ItemPart(items[..k][i]));
  }

  lemma SummaryOneMore(items: seq<Value>, k: nat)
    requires k < |items|
    ensures SummaryTexts(items[..k + 1]) ==
      if SummaryText(items[k]).Some? then SummaryTexts(items[..k]) + [SummaryText(items[k]).value]
      else SummaryTexts(items[..k])
  {
    var texts := seq(k + 1, i requires 0 <= i < k + 1 => SummaryText(items[..k + 1][i]));
    assert texts[..k] == seq(k, i requires 0 <= i < k => SummaryText(items[..k][i]));
  }
}
