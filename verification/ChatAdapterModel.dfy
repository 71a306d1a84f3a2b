/** The shared parser of the flat chat shape: methods on the context, proved against the plan. */
module ChatAdapterModel {
  import opened Wrappers
  import opened Json
  import opened Events
  import opened Ctx
  import opened ChatPlan

  class ChatAdapter {
    const h: Host
    const d: Dialect

    constructor (h: Host, d: Dialect)
      ensures this.h == h && this.d == d
    {
      this.h, this.d := h, d;
    }

    method ParseSessionStart(raw: RawRecord, ctx: ParseCtx, v: Value) returns (events: seq<CaptureEvent>)
      modifies ctx
      ensures (ctx.View(), events) == Exec(d.src, raw, old(ctx.View()), StartOps(h, d, raw, v))
    {
      ghost var s0 := ctx.View();
      var sid := StrField(v, "sessionId");
      var id := StartId(h, raw, v);
      ghost var bind: seq<Op> := if sid.Some? then [BindSession(sid.value)] else [];
      ghost var body := StartBody(h, d, raw, v);
      ExecConcat(d.src, raw, s0, bind, [Once(id, body)]);
      if sid.Some? {
        ExecOne(d.src, raw, s0, bind[0]);
        ctx.sessionId := sid;
      }
      ghost var s1 := ctx.View();
      assert (s1, []) == Exec(d.src, raw, s0, bind);
      ExecOne(d.src, raw, s1, Once(id, body));
      var isNew := ctx.FirstSeen(id);
      if !isNew {
        assert ctx.seen == s1.seen;
        events := [];
      } else {
        assert body == [body[0]] + [body[1]];
        ExecConcat(d.src, raw, ctx.View(), [body[0]], [body[1]]);
        ExecOne(d.src, raw, ctx.View(), body[0]);
        ctx.project := Some(DEFAULT_PROJECT);
        ExecOne(d.src, raw, ctx.View(), body[1]);
        var e := ctx.MakeEvent(d.src, raw, id, None, TsFrom(h, v, d.startKeys), StartKind(d, v));
        events := [e];
        assert [] + events == events;
      }
      assert [] + events == events;
    }

    /** One tool call: the call event, then the outcome and result when one names it. */
    method ParseCall(raw: RawRecord, ctx: ParseCtx, eventId: string, ts: int, call: Value, i: nat, results: seq<Value>)
      returns (events: seq<CaptureEvent>)
      modifies ctx
      ensures (ctx.View(), events) == Exec(d.src, raw, old(ctx.View()), OneCall(eventId, ts, call, i, results))
    {
      ghost var s0 := ctx.View();
      if !call.Obj? { return []; }
      var callId := CallId(eventId, call, i);
      var found := FindResult(results, callId);
      ghost var tail := ResultOps(eventId, ts, callId, found);
      ExecConcat(d.src, raw, s0, [CallOp(eventId, ts, callId, call)], tail);
      events := ctx.EmitOnce(d.src, raw, callId + ":call", Some(eventId), ts,
                         ToolCall(callId, TextField(call, "name"), Get(call, "args").GetOr(Null)));
      if found.Some? {
        var r := found.value;
        assert tail == [tail[0]] + [tail[1]];
        ExecConcat(d.src, raw, ctx.View(), [tail[0]], [tail[1]]);
        ExecOne(d.src, raw, ctx.View(), tail[0]);
        ctx.callOk := ctx.callOk[callId := ResultOk(r)];
        var more := ctx.EmitOnce(d.src, raw, callId + ":result", Some(eventId), ts,
                             ToolResult(callId, ResultOk(r), ResultOutput(r)));
        assert [] + more == more;
        events := events + more;
      } else {
        assert events + [] == events;
      }
    }

    method ParseCalls(raw: RawRecord, ctx: ParseCtx, eventId: string, ts: int, calls: seq<Value>, results: seq<Value>)
      returns (events: seq<CaptureEvent>)
      modifies ctx
      ensures (ctx.View(), events) == Exec(d.src, raw, old(ctx.View()), CallsOps(eventId, ts, calls, results))
    {
      ghost var s0 := ctx.View();
      events := [];
      for i := 0 to |calls|
        invariant (ctx.View(), events) == Exec(d.src, raw, s0, CallsOps(eventId, ts, calls[..i], results))
      {
        assert calls[..i + 1][..i] == calls[..i];
        ExecConcat(d.src, raw, s0, CallsOps(eventId, ts, calls[..i], results),
                   OneCall(eventId, ts, calls[i], i, results));
        var more := ParseCall(raw, ctx, eventId, ts, calls[i], i, results);
        events := events + more;
      }
      assert calls[..|calls|] == calls;
    }

    method ParseMessage(raw: RawRecord, ctx: ParseCtx, v: Value) returns (events: seq<CaptureEvent>)
      modifies ctx
      ensures (ctx.View(), events) == Exec(d.src, raw, old(ctx.View()), MessageOps(h, raw, v))
    {
      ghost var s0 := ctx.View();
      var id := MessageId(h, raw, v);
      ExecOne(d.src, raw, s0, Once(id, MessageBody(h, raw, v)));
      var isNew := ctx.FirstSeen(id);
      if !isNew {
        assert ctx.seen == s0.seen;
        return [];
      }
      ghost var s1 := ctx.View();
      var ts := TsFrom(h, v, ["ts", "timestamp"]);
      var turn := TurnKind(TextField(v, "role"), TextField(v, "text"));
      if turn.None? {
        ExecOne(d.src, raw, s1, UnknownOp(h, raw, v));
        var e := ctx.UnknownEvent(h, d.src, raw, v);
        return [e];
      }
      ghost var first := Emit(id, None, ts, turn.value);
      ExecConcat(d.src, raw, s1, [first], CallsOps(id, ts, Calls(v), Results(v)));
      ExecOne(d.src, raw, s1, first);
      var e := ctx.MakeEvent(d.src, raw, id, None, ts, turn.value);
      var more := ParseCalls(raw, ctx, id, ts, Calls(v), Results(v));
      events := [e] + more;
    }

    method ParseRecord(raw: RawRecord, ctx: ParseCtx) returns (events: seq<CaptureEvent>)
      modifies ctx
      ensures (ctx.View(), events) == Exec(d.src, raw, old(ctx.View()), Plan(h, d, raw))
    {
      var parsed := ParseJsonLine(h, raw);
      if parsed.None? {
        var text := h.text(raw.bytes);
        if text == "" { return []; }
        ExecOne(d.src, raw, ctx.View(), UnknownOp(h, raw, Str(text)));
        var e := ctx.UnknownEvent(h, d.src, raw, Str(text));
        return [e];
      }
      var v := parsed.value;
      if v.Obj? && StrField(v, "kind") == Some("session_start") {
        events := ParseSessionStart(raw, ctx, v);
      } else if v.Obj? && Get(v, "role").Some? {
        events := ParseMessage(raw, ctx, v);
      } else {
        ExecOne(d.src, raw, ctx.View(), UnknownOp(h, raw, v));
        var e := ctx.UnknownEvent(h, d.src, raw, v);
        events := [e];
      }
    }
  }
}
