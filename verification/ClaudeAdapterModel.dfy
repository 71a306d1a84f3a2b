/** The Claude Code adapter: methods that update the context, proved against the plan. */
module ClaudeAdapterModel {
  import opened Wrappers
  import opened Json
  import opened Events
  import opened Ctx
  import opened ClaudePlan
  import V4aPatch

  lemma ItemStep(before: seq<string>, items: seq<Value>, i: nat)
    requires i < |items|
    ensures before + StrItems(items[..i + 1])
      == before + StrItems(items[..i]) + if items[i].Str? then [items[i].s] else []
  {
    assert items[..i + 1][..i] == items[..i];
  }

  lemma MarkedStep(lines: seq<string>, s: string)
    ensures V4aPatch.Marked(lines + [s], '+') == V4aPatch.Marked(lines, '+') + V4aPatch.Starts(s, '+')
    ensures V4aPatch.Marked(lines + [s], '-') == V4aPatch.Marked(lines, '-') + V4aPatch.Starts(s, '-')
  {
    assert (lines + [s])[..|lines|] == lines;
  }

  /** The session is latched first; the rest of a record stands behind its id. */
  lemma RecordExec(h: Host, raw: RawRecord, s: State, value: Value)
    ensures var uuid, parent := Uuid(h, raw, value), StrField(value, "parentUuid");
      var ts := TsFrom(h, value, ["timestamp", "time", "ts"]);
      var body := StartOps(h, uuid, parent, ts, value, s.project) + BodyOps(h, raw, uuid, parent, ts, value);
      var t := s.(sessionId := OrElse(s.sessionId, StrField(value, "sessionId")));
      Exec(ClaudeCode, raw, s, RecordOps(h, s.sessionId, s.project, raw, value))
      == if uuid in t.seen then (t, []) else Exec(ClaudeCode, raw, t.(seen := t.seen + {uuid}), body)
  {
    var bind, ops := SessionOps(s.sessionId, value), RecordOps(h, s.sessionId, s.project, raw, value);
    var once := ops[|ops| - 1];
    assert ops == bind + [once];
    ExecConcat(ClaudeCode, raw, s, bind, [once]);
    if bind != [] {
      ExecOne(ClaudeCode, raw, s, bind[0]);
      assert bind == [bind[0]];
    }
    var t := Exec(ClaudeCode, raw, s, bind).0;
    ExecOne(ClaudeCode, raw, t, once);
    assert [] + Exec(ClaudeCode, raw, t, [once]).1 == Exec(ClaudeCode, raw, t, [once]).1;
  }

  lemma StartExec(raw: RawRecord, s: State, project: ProjectRef, e: Op)
    requires e.Emit?
    ensures Exec(ClaudeCode, raw, s, [BindProject(project), e])
      == ExecOp(ClaudeCode, raw, s.(project := Some(project)), e)
  {
    assert [BindProject(project), e] == [BindProject(project)] + [e];
    ExecSnoc(ClaudeCode, raw, s, [BindProject(project)], e);
    ExecOne(ClaudeCode, raw, s, BindProject(project));
    var x := ExecOp(ClaudeCode, raw, s.(project := Some(project)), e);
    assert [] + x.1 == x.1;
  }

  class ClaudeAdapter {
    const h: Host

    constructor (h: Host)
      ensures this.h == h
    {
      this.h := h;
    }

    /** The block loop of `parse_turn`. */
    method CollectBlocks(content: Option<Value>) returns (turn: Turn)
      ensures turn == RecordTurn(content)
    {
      turn := EMPTY_TURN;
      if content.Some? && content.value.Str? {
        turn := turn.(text := PushText(turn.text, content.value.s), parts := turn.parts + [TextPart(content.value.s)]);
      } else if content.Some? && content.value.Arr? {
        var blocks := content.value.items;
        for k := 0 to |blocks|
          invariant turn == TurnOf(blocks[..k])
        {
          assert blocks[..k + 1][..k] == blocks[..k];
          turn := AddBlock(turn, blocks[k]);
        }
        assert blocks[..|blocks|] == blocks;
      }
    }

    /** `parse_file_edit`: collect the hunk lines and count the marked ones. */
    method ParseFileEdit(value: Value) returns (edit: Option<EventKind>)
      ensures edit == FileEditOf(value)
    {
      var tur := Get(value, "toolUseResult");
      var patch := AsArray(GetIn(tur, "structuredPatch"));
      if patch.None? { return None; }
      var hunks := patch.value;
      var lines: seq<string> := [];
      var added, removed := 0, 0;
      for k := 0 to |hunks|
        invariant lines == HunkLines(hunks[..k])
        invariant added == V4aPatch.Marked(lines, '+') && removed == V4aPatch.Marked(lines, '-')
      {
        assert hunks[..k + 1][..k] == hunks[..k];
        var items := AsArray(Get(hunks[k], "lines")).GetOr([]);
        ghost var before := lines;
        for i := 0 to |items|
          invariant lines == before + StrItems(items[..i])
          invariant added == V4aPatch.Marked(lines, '+') && removed == V4aPatch.Marked(lines, '-')
        {
          ItemStep(before, items, i);
          if items[i].Str? {
            var s := items[i].s;
            MarkedStep(lines, s);
            added := added + V4aPatch.Starts(s, '+');
            removed := removed + V4aPatch.Starts(s, '-');
            lines := lines + [s];
          }
        }
        assert items[..|items|] == items;
      }
      assert hunks[..|hunks|] == hunks;
      edit := Some(FileEdit(
        FirstCall(AsArray(Content(value)).GetOr([])),
        Diff(StrOrEmpty(tur.value, "filePath"), StrField(tur.value, "oldString"), StrField(tur.value, "newString"),
             Unified(lines), added, removed)));
    }

    /** One event per embedded call or result, numbered. */
    method EmitNumbered(raw: RawRecord, ctx: ParseCtx, uuid: string, kind: string, ts: int, kinds: seq<EventKind>)
      returns (events: seq<CaptureEvent>)
      modifies ctx
      ensures (ctx.View(), events) == Exec(ClaudeCode, raw, old(ctx.View()), Numbered(h, uuid, kind, ts, kinds))
    {
      ghost var s0 := ctx.View();
      events := [];
      for i := 0 to |kinds|
        invariant (ctx.View(), events) == Exec(ClaudeCode, raw, s0, Numbered(h, uuid, kind, ts, kinds[..i]))
      {
        ghost var op := Emit(DerivedId(h, uuid, kind, i), Some(uuid), ts, kinds[i]);
        assert Numbered(h, uuid, kind, ts, kinds[..i + 1]) == Numbered(h, uuid, kind, ts, kinds[..i]) + [op];
        ExecSnoc(ClaudeCode, raw, s0, Numbered(h, uuid, kind, ts, kinds[..i]), op);
        var e := ctx.MakeEvent(ClaudeCode, raw, DerivedId(h, uuid, kind, i), Some(uuid), ts, kinds[i]);
        events := events + [e];
      }
      assert kinds[..|kinds|] == kinds;
    }

    method ParseTurn(
        raw: RawRecord, ctx: ParseCtx, uuid: string, parent: Option<string>, ts: int, value: Value, isAssistant: bool)
      returns (events: seq<CaptureEvent>)
      modifies ctx
      ensures (ctx.View(), events)
        == Exec(ClaudeCode, raw, old(ctx.View()), TurnOps(h, uuid, parent, ts, value, isAssistant))
    {
      ghost var s0 := ctx.View();
      var turn := CollectBlocks(Content(value));
      var kind := TurnKind(value, turn, isAssistant);
      ghost var a, b := [Emit(uuid, parent, ts, kind)], Numbered(h, uuid, "tool_call", ts, turn.calls);
      ghost var c, d := Numbered(h, uuid, "tool_result", ts, turn.results), EditOps(h, uuid, ts, value);
      ExecOne(ClaudeCode, raw, s0, Emit(uuid, parent, ts, kind));
      ExecConcat(ClaudeCode, raw, s0, a, b);
      ExecConcat(ClaudeCode, raw, s0, a + b, c);
      ExecConcat(ClaudeCode, raw, s0, a + b + c, d);
      var first := ctx.MakeEvent(ClaudeCode, raw, uuid, parent, ts, kind);
      var calls := EmitNumbered(raw, ctx, uuid, "tool_call", ts, turn.calls);
      var results := EmitNumbered(raw, ctx, uuid, "tool_result", ts, turn.results);
      events := [first] + calls + results;
      var edit := ParseFileEdit(value);
      if edit.Some? {
        ExecOne(ClaudeCode, raw, ctx.View(), d[0]);
        var e := ctx.MakeEvent(ClaudeCode, raw, DerivedId(h, uuid, "file_edit", 0), Some(uuid), ts, edit.value);
        events := events + [e];
      } else {
        assert events + [] == events;
      }
    }

    /** The body of a first-seen record: session start when it opens one, then the record itself. */
    method ParseBody(raw: RawRecord, ctx: ParseCtx, uuid: string, value: Value) returns (events: seq<CaptureEvent>)
      modifies ctx
      ensures var parent, ts := StrField(value, "parentUuid"), TsFrom(h, value, ["timestamp", "time", "ts"]);
        (ctx.View(), events) == Exec(ClaudeCode, raw, old(ctx.View()),
          StartOps(h, uuid, parent, ts, value, old(ctx.project)) + BodyOps(h, raw, uuid, parent, ts, value))
    {
      ghost var s0 := ctx.View();
      var parent, ts := StrField(value, "parentUuid"), TsFrom(h, value, ["timestamp", "time", "ts"]);
      ghost var start := StartOps(h, uuid, parent, ts, value, ctx.project);
      ExecConcat(ClaudeCode, raw, s0, start, BodyOps(h, raw, uuid, parent, ts, value));
      events := [];
      if ctx.project.None? && Startable(StrOrEmpty(value, "type")) {
        var p := ProjectFrom(value);
        var model := OrElse(StrField(value, "model"), MessageModel(value));
        StartExec(raw, s0, p, start[1]);
        ctx.project := Some(p);
        var e := ctx.MakeEvent(ClaudeCode, raw, SessionStartId(h, uuid), parent, ts,
                               SessionStart(p.cwd, p.git, model, StrField(value, "version")));
        events := [e];
      }
      assert (ctx.View(), events) == Exec(ClaudeCode, raw, s0, start);
      var more: seq<CaptureEvent>;
      match StrOrEmpty(value, "type") {
        case "user" => more := ParseTurn(raw, ctx, uuid, parent, ts, value, false);
        case "assistant" => more := ParseTurn(raw, ctx, uuid, parent, ts, value, true);
        case _ =>
          ExecOne(ClaudeCode, raw, ctx.View(), UnknownOp(h, raw, value));
          var e := ctx.UnknownEvent(h, ClaudeCode, raw, value);
          more := [e];
      }
      events := events + more;
    }

    method ParseRecord(raw: RawRecord, ctx: ParseCtx) returns (events: seq<CaptureEvent>)
      modifies ctx
      ensures (ctx.View(), events) ==
        Exec(ClaudeCode, raw, old(ctx.View()), Plan(h, old(ctx.sessionId), old(ctx.project), raw))
    {
      ghost var s0 := ctx.View();
      var parsed := ParseJsonLine(h, raw);
      if parsed.None? {
        var text := h.text(raw.bytes);
        if text == "" { return []; }
        ExecOne(ClaudeCode, raw, s0, UnknownOp(h, raw, Str(text)));
        var e := ctx.UnknownEvent(h, ClaudeCode, raw, Str(text));
        return [e];
      }
      var value := parsed.value;
      RecordExec(h, raw, s0, value);
      if ctx.sessionId.None? && StrField(value, "sessionId").Some? {
        ctx.sessionId := StrField(value, "sessionId");
      }
      ghost var s1 := ctx.View();
      var uuid := Uuid(h, raw, value);
      var isNew := ctx.FirstSeen(uuid);
      if !isNew {
        assert ctx.seen == s1.seen;
        events := [];
      } else {
        events := ParseBody(raw, ctx, uuid, value);
      }
    }
  }
}
