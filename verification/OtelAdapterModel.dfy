/** The OTel adapter: build the events of a record, then drop those already emitted. */
module OtelAdapterModel {
  import opened Wrappers
  import opened Json
  import opened Events
  import opened Ctx
  import opened OtelPlan

  class OtelAdapter {
    const h: Host

    constructor (h: Host)
      ensures this.h == h
    {
      this.h := h;
    }

    method Make(ctx: ParseCtx, raw: RawRecord, ts: int, d: Draft) returns (e: CaptureEvent)
      modifies ctx
      ensures (ctx.View(), [e]) == ExecOp(Otel, raw, old(ctx.View()), EmitDraft(h, raw, ts, d))
    {
      e := ctx.MakeEvent(Otel, raw, DeriveId(h, raw, d), None, ts, d.kind);
    }

    method StartSessionEvent(ctx: ParseCtx, raw: RawRecord, a: Attrs, ts: int) returns (events: seq<CaptureEvent>)
      modifies ctx
      ensures (ctx.View(), events) == Exec(Otel, raw, old(ctx.View()), StartOps(h, old(ctx.project), raw, a, ts))
    {
      ghost var s0 := ctx.View();
      ghost var ops := StartOps(h, ctx.project, raw, a, ts);
      ghost var before := ops[..|ops| - 1];
      assert ops == before + [ops[|ops| - 1]];
      ExecSnoc(Otel, raw, s0, before, ops[|ops| - 1]);
      if ctx.project.None? {
        ExecOne(Otel, raw, s0, ops[0]);
        assert before == [ops[0]];
        ctx.project := Some(ProjectRef(Cwd(a), AttrStr(a, "repo_root"), GitOf(a)));
      } else {
        assert before == [];
      }
      assert (ctx.View(), []) == Exec(Otel, raw, s0, before);
      var e := Make(ctx, raw, ts, Draft("session_start", 0, StartKind(a)));
      events := [e];
      assert [] + events == events;
    }

    /** An event preceded by one silent operation on the context. */
    method MakeAfter(ctx: ParseCtx, raw: RawRecord, ts: int, d: Draft, ghost silent: Op, ghost s0: State)
      returns (e: CaptureEvent)
      requires (ctx.View(), []) == ExecOp(Otel, raw, s0, silent)
      modifies ctx
      ensures (ctx.View(), [e]) == Exec(Otel, raw, s0, [silent, EmitDraft(h, raw, ts, d)])
    {
      ExecOne(Otel, raw, s0, silent);
      ExecSnoc(Otel, raw, s0, [silent], EmitDraft(h, raw, ts, d));
      assert [silent] + [EmitDraft(h, raw, ts, d)] == [silent, EmitDraft(h, raw, ts, d)];
      e := Make(ctx, raw, ts, d);
      assert [] + [e] == [e];
    }

    method ExecuteToolEvents(ctx: ParseCtx, raw: RawRecord, a: Attrs, ts: int) returns (events: seq<CaptureEvent>)
      modifies ctx
      ensures (ctx.View(), events) == Exec(Otel, raw, old(ctx.View()), ToolOps(h, raw, a, ts))
    {
      ghost var s0 := ctx.View();
      var callId, ok, diff := CallIdOf(h, raw, a), ToolOk(a), FileDiff(a);
      ghost var ops: seq<Op> := [NameCall(callId, ToolName(a)), EmitDraft(h, raw, ts, CallDraft(callId, a))];
      ctx.callNames := ctx.callNames[callId := ToolName(a)];
      var call := MakeAfter(ctx, raw, ts, CallDraft(callId, a), ops[0], s0);
      events := [call];
      if ok.Some? {
        ghost var s1 := ctx.View();
        ghost var pair := [RecordOutcome(callId, ok.value), EmitDraft(h, raw, ts, ResultDraft(callId, ok.value, a))];
        ExecConcat(Otel, raw, s0, ops, pair);
        ctx.callOk := ctx.callOk[callId := ok.value];
        var result := MakeAfter(ctx, raw, ts, ResultDraft(callId, ok.value, a), pair[0], s1);
        events := events + [result];
        ops := ops + pair;
      }
      if diff.Some? {
        ExecSnoc(Otel, raw, s0, ops, EmitDraft(h, raw, ts, EditDraft(Some(callId), diff.value)));
        ops := ops + [EmitDraft(h, raw, ts, EditDraft(Some(callId), diff.value))];
        var edit := Make(ctx, raw, ts, EditDraft(Some(callId), diff.value));
        events := events + [edit];
      }
      assert ops == ToolOps(h, raw, a, ts);
    }

    method EmitUnknown(ctx: ParseCtx, raw: RawRecord, v: Value) returns (events: seq<CaptureEvent>)
      modifies ctx
      ensures (ctx.View(), events) == Exec(Otel, raw, old(ctx.View()), [UnknownOp(h, raw, v)])
    {
      ExecOne(Otel, raw, ctx.View(), UnknownOp(h, raw, v));
      var e := ctx.UnknownEvent(h, Otel, raw, v);
      events := [e];
    }

    method FileOperationEvents(ctx: ParseCtx, raw: RawRecord, a: Attrs, ts: int) returns (events: seq<CaptureEvent>)
      modifies ctx
      ensures (ctx.View(), events) == Exec(Otel, raw, old(ctx.View()), FileOps(h, raw, a, ts))
    {
      var diff := FileDiff(a);
      if diff.None? {
        events := EmitUnknown(ctx, raw, a.raw);
      } else {
        ExecOne(Otel, raw, ctx.View(), EmitDraft(h, raw, ts, EditDraft(None, diff.value)));
        var e := Make(ctx, raw, ts, EditDraft(None, diff.value));
        events := [e];
      }
    }

    /** One user turn per user message; the index is the position in the whole list. */
    method CollectInputs(msgs: seq<Value>) returns (ds: seq<Draft>)
      ensures ds == InputDrafts(msgs)
    {
      ds := [];
      for i := 0 to |msgs|
        invariant ds == InputDrafts(msgs[..i])
      {
        assert msgs[..i + 1][..i] == msgs[..i];
        if !IsUserRole(msgs[i]) { continue; }
        var text := MessageText(msgs[i]);
        ds := ds + [Draft("input_msg", i, UserTurn(text, [TextPart(text)]))];
      }
      assert msgs[..|msgs|] == msgs;
    }

    method MakeAll(ctx: ParseCtx, raw: RawRecord, ts: int, ds: seq<Draft>) returns (events: seq<CaptureEvent>)
      modifies ctx
      ensures (ctx.View(), events) == Exec(Otel, raw, old(ctx.View()), EmitDrafts(h, raw, ts, ds))
    {
      ghost var s0 := ctx.View();
      events := [];
      for i := 0 to |ds|
        invariant (ctx.View(), events) == Exec(Otel, raw, s0, EmitDrafts(h, raw, ts, ds[..i]))
      {
        assert EmitDrafts(h, raw, ts, ds[..i + 1]) == EmitDrafts(h, raw, ts, ds[..i]) + [EmitDraft(h, raw, ts, ds[i])];
        ExecSnoc(Otel, raw, s0, EmitDrafts(h, raw, ts, ds[..i]), EmitDraft(h, raw, ts, ds[i]));
        var e := Make(ctx, raw, ts, ds[i]);
        events := events + [e];
      }
      assert ds[..|ds|] == ds;
    }

    method DialogueEvents(ctx: ParseCtx, raw: RawRecord, a: Attrs, ts: int) returns (events: seq<CaptureEvent>)
      modifies ctx
      ensures (ctx.View(), events) == Exec(Otel, raw, old(ctx.View()), DialogueOps(h, raw, a, ts))
    {
      var ds := PromptDrafts(a);
      var inputs := CollectInputs(AttrArray(a, "gen_ai.input.messages").GetOr([]));
      ds := ds + inputs + OutputDrafts(AttrArray(a, "gen_ai.output.messages").GetOr([]),
                                       AttrStr(a, "gen_ai.request.model"), UsageOf(a));
      if ds == [] {
        events := EmitUnknown(ctx, raw, a.raw);
      } else {
        events := MakeAll(ctx, raw, ts, ds);
      }
    }

    method DedupEvents(ctx: ParseCtx, evs: seq<CaptureEvent>) returns (kept: seq<CaptureEvent>)
      modifies ctx`seen
      ensures (ctx.seen, kept) == Dedup(old(ctx.seen), evs)
    {
      kept := [];
      ghost var seen0 := ctx.seen;
      for i := 0 to |evs|
        invariant (ctx.seen, kept) == Dedup(seen0, evs[..i])
      {
        assert evs[..i + 1][..i] == evs[..i];
        var isNew := ctx.FirstSeen(evs[i].eventId);
        if isNew {
          kept := kept + [evs[i]];
        }
      }
      assert evs[..|evs|] == evs;
    }

    method Parse(raw: RawRecord, ctx: ParseCtx) returns (events: seq<CaptureEvent>)
      modifies ctx
      ensures (ctx.View(), events) == ParseSpec(h, old(ctx.View()), raw)
    {
      var parsed := ParseJsonLine(h, raw);
      if parsed.None? {
        var text := h.text(raw.bytes);
        if text == "" { return []; }
        var e := ctx.UnknownEvent(h, Otel, raw, Str(text));
        return [e];
      }
      var a := FromRecord(parsed.value);
      ghost var s0 := ctx.View();
      if ctx.sessionId.None? && AttrStr(a, "gen_ai.conversation.id").Some? {
        ctx.sessionId := AttrStr(a, "gen_ai.conversation.id");
      }
      assert ctx.View() == SessionLatched(s0, a);
      var ts := Timestamp(h, a);
      var built: seq<CaptureEvent>;
      match OperationOf(a) {
        case StartSession => built := StartSessionEvent(ctx, raw, a, ts);
        case EndSession =>
          var d := Draft("session_end", 0, SessionEnd(AttrStr(a, "reason")));
          ExecOne(Otel, raw, ctx.View(), EmitDraft(h, raw, ts, d));
          var e := Make(ctx, raw, ts, d);
          built := [e];
        case ExecuteTool => built := ExecuteToolEvents(ctx, raw, a, ts);
        case FileOperation => built := FileOperationEvents(ctx, raw, a, ts);
        case Dialogue => built := DialogueEvents(ctx, raw, a, ts);
      }
      events := DedupEvents(ctx, built);
    }
  }
}
