/** The Cursor adapter: methods that update the context, proved against the plan. */
module CursorAdapterModel {
  import opened Wrappers
  import opened Json
  import opened Events
  import opened Ctx
  import opened CursorPlan
  import Text

  class CursorAdapter {
    const h: Host

    constructor (h: Host)
      ensures this.h == h
    {
      this.h := h;
    }

    /** The block loop of `normalize_content_block_message`. */
    method CollectBlocks(blocks: seq<Value>) returns (texts: seq<string>, calls: seq<Value>)
      ensures texts == BlockTexts(blocks) && calls == BlockCalls(blocks)
    {
      texts, calls := [], [];
      for i := 0 to |blocks|
        invariant texts == BlockTexts(blocks[..i]) && calls == BlockCalls(blocks[..i])
      {
        assert blocks[..i + 1][..i] == blocks[..i];
        var b := blocks[i];
        if StrField(b, "type") == Some("text") {
          var t := StrField(b, "text");
          if t.Some? && t.value != "" {
            texts := texts + [t.value];
          }
        } else if StrField(b, "type") == Some("tool_use") {
          calls := calls + [BlockCall(b, i)];
        }
      }
      assert blocks[..|blocks|] == blocks;
    }

    method Flatten(v: Value) returns (flat: Value)
      requires v.Obj?
      ensures flat == Flattened(v)
    {
      var blocks := Blocks(v);
      if blocks.None? { return v; }
      var texts, calls := CollectBlocks(blocks.value);
      var fields := v.fields["text" := Str(Text.Join(texts, "\n\n"))];
      if calls != [] {
        fields := fields["toolCalls" := Arr(calls)];
      }
      flat := Obj(fields);
    }

    method ParseCall(raw: RawRecord, ctx: ParseCtx, base: string, ts: int, call: Value, i: nat)
      returns (events: seq<CaptureEvent>)
      modifies ctx
      ensures (ctx.View(), events) == Exec(Source.Cursor, raw, old(ctx.View()), CallOps(base, ts, call, i))
    {
      ghost var s0 := ctx.View();
      if !call.Obj? { return []; }
      ghost var ops := CallOps(base, ts, call, i);
      assert ops == [ops[0]] + [ops[1]];
      ExecConcat(Source.Cursor, raw, s0, [ops[0]], [ops[1]]);
      ExecOne(Source.Cursor, raw, s0, ops[0]);
      var callId, name := StrField(call, "id").GetOr(base + ":call:" + Text.Decimal(i)), Field(call, "name");
      ctx.callNames := ctx.callNames[callId := name];
      events := ctx.EmitOnce(Source.Cursor, raw, base + "#toolcall:" + callId, Some(base), ts,
                         ToolCall(callId, name, Get(call, "args").GetOr(Null)));
      assert [] + events == events;
    }

    method ParseResult(raw: RawRecord, ctx: ParseCtx, base: string, ts: int, res: Value, i: nat)
      returns (events: seq<CaptureEvent>)
      modifies ctx
      ensures (ctx.View(), events) == Exec(Source.Cursor, raw, old(ctx.View()), ResultOps(base, ts, res, i))
    {
      ghost var s0 := ctx.View();
      if !res.Obj? { return []; }
      ghost var ops := ResultOps(base, ts, res, i);
      assert ops == [ops[0]] + [ops[1]];
      ExecConcat(Source.Cursor, raw, s0, [ops[0]], [ops[1]]);
      ExecOne(Source.Cursor, raw, s0, ops[0]);
      var callId := StrField(res, "id").GetOr(base + ":result:" + Text.Decimal(i));
      var ok := AsBool(Get(res, "ok")).GetOr(true);
      ctx.callOk := ctx.callOk[callId := ok];
      events := ctx.EmitOnce(Source.Cursor, raw, base + "#toolresult:" + callId, Some(base), ts,
                         ToolResult(callId, ok, Get(res, "output").GetOr(Null)));
      assert [] + events == events;
    }

    method ParseEdit(raw: RawRecord, ctx: ParseCtx, base: string, ts: int, edit: Value, i: nat)
      returns (events: seq<CaptureEvent>)
      modifies ctx
      ensures (ctx.View(), events) == Exec(Source.Cursor, raw, old(ctx.View()), EditOps(base, ts, edit, i))
    {
      if !edit.Obj? { return []; }
      var diff := Diff(
        Field(edit, "path"), StrField(edit, "oldText"), StrField(edit, "newText"), StrField(edit, "diff"),
        LineCount(edit, "added"), LineCount(edit, "removed"));
      events := ctx.EmitOnce(Source.Cursor, raw, base + "#edit:" + Text.Decimal(i), Some(base), ts,
                         FileEdit(OrElse(StrField(edit, "callId"), StrField(edit, "call_id")), diff));
    }

    /** One of the three loops of `parse_message`. */
    method ParseSection(raw: RawRecord, ctx: ParseCtx, section: Section, base: string, ts: int, v: Value)
      returns (events: seq<CaptureEvent>)
      modifies ctx
      ensures (ctx.View(), events) == Exec(Source.Cursor, raw, old(ctx.View()), SectionOps(section, base, ts, v))
    {
      ghost var s0 := ctx.View();
      var items := AsArray(Get(v, SectionKey(section))).GetOr([]);
      events := [];
      for i := 0 to |items|
        invariant (ctx.View(), events) == Exec(Source.Cursor, raw, s0, ItemsOps(section, base, ts, items[..i]))
      {
        assert items[..i + 1][..i] == items[..i];
        ExecConcat(Source.Cursor, raw, s0, ItemsOps(section, base, ts, items[..i]),
            ItemOps(section, base, ts, items[i], i));
        var more: seq<CaptureEvent>;
        match section {
          case CallSection => more := ParseCall(raw, ctx, base, ts, items[i], i);
          case ResultSection => more := ParseResult(raw, ctx, base, ts, items[i], i);
          case EditSection => more := ParseEdit(raw, ctx, base, ts, items[i], i);
        }
        events := events + more;
      }
      assert items[..|items|] == items;
    }

    method ParseMessage(raw: RawRecord, ctx: ParseCtx, v: Value) returns (events: seq<CaptureEvent>)
      modifies ctx
      ensures (ctx.View(), events) == Exec(Source.Cursor, raw, old(ctx.View()), MessageOps(h, raw, v))
    {
      ghost var s0 := ctx.View();
      var base, ts := EventId(h, raw, v), Timestamp(h, v);
      ExecOne(Source.Cursor, raw, s0, Once(base, MessageBody(h, raw, v)));
      var isNew := ctx.FirstSeen(base);
      if !isNew {
        assert ctx.seen == s0.seen;
        return [];
      }
      ghost var s1 := ctx.View();
      ghost var first := Emit(base, Parent(v), ts, TurnKind(v));
      ghost var a, b := SectionOps(CallSection, base, ts, v), SectionOps(ResultSection, base, ts, v);
      ExecConcat(Source.Cursor, raw, s1, [first], Sections(base, ts, v));
      ExecOne(Source.Cursor, raw, s1, first);
      var e := ctx.MakeEvent(Source.Cursor, raw, base, Parent(v), ts, TurnKind(v));
      ghost var s2 := ctx.View();
      ExecConcat(Source.Cursor, raw, s2, a + b, SectionOps(EditSection, base, ts, v));
      ExecConcat(Source.Cursor, raw, s2, a, b);
      var calls := ParseSection(raw, ctx, CallSection, base, ts, v);
      var results := ParseSection(raw, ctx, ResultSection, base, ts, v);
      var edits := ParseSection(raw, ctx, EditSection, base, ts, v);
      events := [e] + (calls + results + edits);
    }

    method ParseStart(raw: RawRecord, ctx: ParseCtx, v: Value) returns (events: seq<CaptureEvent>)
      modifies ctx
      ensures (ctx.View(), events) == Exec(Source.Cursor, raw, old(ctx.View()), StartOps(h, raw, v))
    {
      ghost var s0 := ctx.View();
      ghost var ops := StartOps(h, raw, v);
      assert ops == [ops[0]] + [ops[1]];
      ExecConcat(Source.Cursor, raw, s0, [ops[0]], [ops[1]]);
      ExecOne(Source.Cursor, raw, s0, ops[0]);
      ctx.project := Some(ProjectOf(v));
      events := ctx.EmitOnce(Source.Cursor, raw, EventId(h, raw, v), None, Timestamp(h, v), StartKind(v));
      assert [] + events == events;
    }

    method Dispatch(raw: RawRecord, ctx: ParseCtx, v: Value) returns (events: seq<CaptureEvent>)
      requires v.Obj?
      modifies ctx
      ensures (ctx.View(), events) == Exec(Source.Cursor, raw, old(ctx.View()), Dispatched(h, raw, v))
    {
      var kind := StrField(v, "kind");
      if StartsSession(kind) {
        events := ParseStart(raw, ctx, v);
      } else if EndsSession(kind) {
        events := ctx.EmitOnce(Source.Cursor, raw, EventId(h, raw, v), Parent(v), Timestamp(h, v),
            SessionEnd(StrField(v, "reason")));
      } else if StrField(v, "role").Some? {
        var flat := Flatten(v);
        events := ParseMessage(raw, ctx, flat);
      } else {
        ExecOne(Source.Cursor, raw, ctx.View(), UnknownOp(h, raw, v));
        var e := ctx.UnknownEvent(h, Source.Cursor, raw, v);
        events := [e];
      }
    }

    method ParseRecord(raw: RawRecord, ctx: ParseCtx) returns (events: seq<CaptureEvent>)
      modifies ctx
      ensures (ctx.View(), events) == Exec(Source.Cursor, raw, old(ctx.View()), Plan(h, raw))
    {
      ghost var s0 := ctx.View();
      var parsed := ParseJsonLine(h, raw);
      if parsed.None? {
        var text := h.text(raw.bytes);
        if text == "" { return []; }
        ExecOne(Source.Cursor, raw, s0, UnknownOp(h, raw, Str(text)));
        var e := ctx.UnknownEvent(h, Source.Cursor, raw, Str(text));
        return [e];
      }
      var v := parsed.value;
      if !v.Obj? {
        ExecOne(Source.Cursor, raw, s0, UnknownOp(h, raw, v));
        var e := ctx.UnknownEvent(h, Source.Cursor, raw, v);
        return [e];
      }
      var sid := SessionOf(v);
      ghost var bind: seq<Op> := if sid.Some? then [BindSession(sid.value)] else [];
      ExecConcat(Source.Cursor, raw, s0, bind, Dispatched(h, raw, v));
      if sid.Some? {
        ExecOne(Source.Cursor, raw, s0, BindSession(sid.value));
        if ctx.sessionId != sid {
          ctx.sessionId := sid;
        }
      }
      assert (ctx.View(), []) == Exec(Source.Cursor, raw, s0, bind);
      events := Dispatch(raw, ctx, v);
      assert [] + events == events;
    }
  }
}
