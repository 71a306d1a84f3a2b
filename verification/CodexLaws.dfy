/** Run invariants and the replay fixed point of the Codex adapter. */
module CodexLaws {
  import opened Wrappers
  import opened Json
  import opened Events
  import opened Ctx
  import opened CtxLaws
  import opened CodexPlan
  import OrderedKeys

  function Planned(h: Host): Planner {
    (s: State, raw: RawRecord) => Plan(h, s.sessionId, raw)
  }

  // ---- Shape of the plans ---------------------------------------------------------

  /** Guarded bodies rebind nothing. */
  predicate NoBinding(ops: seq<Op>)
    decreases ops
  {
    ops == []
    || ((match ops[0]
         case BindSession(_) => false
         case BindProject(_) => false
         case Once(_, body) => NoBinding(body)
         case _ => true) && NoBinding(ops[1..]))
  }

  /** The four shapes the run laws ask for. */
  predicate Shaped(ops: seq<Op>) {
    Guarded(ops) && Mirrored(ops) && Replayable(ops) && BodiesBindNothing(ops)
  }

  predicate BodiesBindNothing(ops: seq<Op>) {
    forall op | op in ops && op.Once? :: NoBinding(op.body)
  }

  /** A list of single-event bodies has every shape. */
  predicate Single(op: Op) {
    op.Once? && |op.body| == 1 && op.body[0].Emit? && op.body[0].eventId == op.guard
    && !op.body[0].kind.Unknown? && !op.body[0].kind.ToolResult?
  }

  lemma SinglesShaped(ops: seq<Op>)
    requires forall op | op in ops :: Single(op)
    ensures Shaped(ops) && NoBinding(ops)
    decreases ops
  {
    if ops != [] {
      assert ops[0] in ops && Single(ops[0]);
      var body := ops[0].body;
      assert body[1..] == [];
      assert Guarded(body[1..]) && Mirrored(body[1..]) && NoBinding(body[1..]);
      assert GuardedBy(ops[0].guard, body) && Mirrored(body) && NoBinding(body);
      SinglesShaped(ops[1..]);
    }
  }

  /** A guarded body that is a prefix of call naming, its event, and single edits. */
  lemma CallShaped(g: string, callId: Option<string>, name: string, e: Op, edits: seq<Op>)
    requires e.Emit? && e.eventId == g && !e.kind.Unknown? && !e.kind.ToolResult?
    requires forall op | op in edits :: Single(op)
    ensures Shaped([Once(g, NameOps(callId, name) + [e] + edits)])
  {
    SinglesShaped(edits);
    var tail := [e] + edits;
    assert tail[1..] == edits;
    assert GuardedBy(g, tail) && Mirrored(tail) && NoBinding(tail);
    var body := NameOps(callId, name) + [e] + edits;
    if callId.Some? {
      assert body[1..] == tail;
    } else {
      assert body == tail;
    }
    OnceShaped(g, body);
  }

  lemma OnceShaped(g: string, body: seq<Op>)
    requires GuardedBy(g, body) && Mirrored(body) && NoBinding(body)
    ensures Shaped([Once(g, body)])
  {
    var ops := [Once(g, body)];
    assert ops[1..] == [];
    assert Guarded(ops[1..]) && Mirrored(ops[1..]);
  }

  lemma ResultShaped(h: Host, raw: RawRecord, ts: int, callId: string, ok: bool, output: Value, idKind: string)
    ensures Shaped([ResultOp(h, raw, ts, callId, ok, output, idKind)])
  {
    var op := ResultOp(h, raw, ts, callId, ok, output, idKind);
    var body := op.body;
    var tail := [body[|body| - 1]];
    assert tail[1..] == [];
    assert Guarded(tail[1..]) && Mirrored(tail[1..]) && NoBinding(tail[1..]);
    if callId == "" {
      assert body == tail;
    } else {
      assert body[1..] == tail && body[2..] == [];
      assert GuardedBy(op.guard, tail);
    }
    OnceShaped(op.guard, body);
  }

  lemma ShapedConcat(a: Op, b: seq<Op>)
    requires Shaped([a]) && Shaped(b) && a.Once?
    ensures Shaped([a] + b)
  {
    var ops := [a] + b;
    assert ops[1..] == b;
    assert [a][1..] == [];
  }

  lemma UnknownShaped(op: Op)
    requires op.Emit? && op.kind.Unknown?
    ensures Shaped([op])
  {
    assert [op][1..] == [];
  }

  lemma MetaShaped(h: Host, session: Option<string>, raw: RawRecord, value: Value, payload: Value)
    ensures Shaped(SessionMeta(h, session, raw, value, payload))
  {
    var ops := SessionMeta(h, session, raw, value, payload);
    var tail := ops[|ops| - 1..];
    assert Single(tail[0]);
    SinglesShaped(tail);
    var mid := ops[|ops| - 2..];
    assert mid[1..] == tail;
    if |ops| == 3 {
      assert ops[1..] == mid;
    } else {
      assert ops == mid;
    }
  }

  lemma MessageShaped(h: Host, raw: RawRecord, payload: Value, ts: int)
    ensures Shaped(Message(h, raw, payload, ts))
  {
    var ops := Message(h, raw, payload, ts);
    if Single(ops[0]) {
      SinglesShaped(ops);
    } else {
      var body := ops[0].body;
      assert body[1..] == [];
      assert GuardedBy(ops[0].guard, body[1..]) && Mirrored(body[1..]) && NoBinding(body[1..]);
      OnceShaped(ops[0].guard, body);
    }
  }

  lemma ReasoningShaped(h: Host, raw: RawRecord, payload: Value, ts: int)
    ensures Shaped(Reasoning(h, raw, payload, ts))
  {
    var ops := Reasoning(h, raw, payload, ts);
    if Thinking(payload).None? {
      UnknownShaped(ops[0]);
    } else {
      SinglesShaped(ops);
    }
  }

  lemma EditsSingle(h: Host, baseId: string, callId: Option<string>, ts: int, name: string, args: Value)
    ensures forall op | op in LegacyEdits(h, baseId, callId, ts, name, args) :: Single(op)
  {
  }

  lemma FunctionCallShaped(h: Host, raw: RawRecord, payload: Value, ts: int)
    ensures Shaped(FunctionCall(h, raw, payload, ts))
  {
    var name, callId := StrField(payload, "name").GetOr(""), StrField(payload, "call_id");
    var args, id := ParseArguments(h, Get(payload, "arguments")), CallEventId(h, raw, payload);
    EditsSingle(h, id, callId, ts, name, args);
    CallShaped(id, callId, name, Emit(id, None, ts, ToolCall(callId.GetOr(""), name, args)),
               LegacyEdits(h, id, callId, ts, name, args));
  }

  lemma CustomToolCallShaped(h: Host, raw: RawRecord, payload: Value, ts: int)
    ensures Shaped(CustomToolCall(h, raw, payload, ts))
  {
    var name, callId := StrField(payload, "name").GetOr(""), StrField(payload, "call_id");
    var id := CallEventId(h, raw, payload);
    var e := Emit(id, None, ts, ToolCall(callId.GetOr(""), name, CustomArgs(h, payload)));
    CallShaped(id, callId, name, e, []);
    assert NameOps(callId, name) + [e] + [] == NameOps(callId, name) + [e];
  }

  lemma PatchApplyEndShaped(h: Host, raw: RawRecord, payload: Value, ts: int)
    ensures Shaped(PatchApplyEnd(h, raw, payload, ts))
  {
    var callId := CallId(payload);
    var changes := AsObject(Get(payload, "changes")).GetOr(map[]);
    var edits := ChangeOps(h, raw, callId, ts, changes, OrderedKeys.Ascending(changes.Keys));
    assert forall op | op in edits :: Single(op);
    SinglesShaped(edits);
    var ok, out := AsBool(Get(payload, "success")).GetOr(true), PatchOutput(payload);
    ResultShaped(h, raw, ts, callId, ok, out, "patch_apply_end");
    ShapedConcat(ResultOp(h, raw, ts, callId, ok, out, "patch_apply_end"), edits);
  }

  lemma CallOutputShaped(h: Host, raw: RawRecord, payload: Value, ts: int)
    ensures Shaped(CallOutput(h, raw, payload, ts))
    ensures Shaped(McpEnd(h, raw, payload, ts))
  {
    var result := Get(payload, "result").GetOr(Null);
    ResultShaped(h, raw, ts, CallId(payload), OutputIsOk(h, Output(payload)), Output(payload), "output");
    ResultShaped(h, raw, ts, CallId(payload), McpResultIsOk(result), result, "mcp");
  }

  lemma CompactionShaped(h: Host, raw: RawRecord, value: Value)
    ensures Shaped(CompactionOps(h, raw, value))
  {
    assert forall op | op in CompactionOps(h, raw, value) :: Single(op);
    SinglesShaped(CompactionOps(h, raw, value));
  }

  /** What a response item can be, and what an event message can be. */
  lemma ItemCases(h: Host, raw: RawRecord, value: Value, payload: Value)
    ensures var ops, ts := ResponseItem(h, raw, value, payload), Ts(h, value);
      || ops == Message(h, raw, payload, ts) || ops == FunctionCall(h, raw, payload, ts)
      || ops == CallOutput(h, raw, payload, ts) || ops == CustomToolCall(h, raw, payload, ts)
      || ops == Reasoning(h, raw, payload, ts) || ops == [UnknownOp(h, raw, value)]
  {
  }

  lemma MsgCases(h: Host, raw: RawRecord, value: Value, payload: Value)
    ensures var ops, ts := EventMsg(h, raw, value, payload), Ts(h, value);
      || ops == PatchApplyEnd(h, raw, payload, ts) || ops == McpEnd(h, raw, payload, ts)
      || ops == CompactionOps(h, raw, value) || ops == [UnknownOp(h, raw, value)]
  {
  }

  lemma ResponseItemShaped(h: Host, raw: RawRecord, value: Value, payload: Value)
    ensures Shaped(ResponseItem(h, raw, value, payload))
  {
    var ts := Ts(h, value);
    ItemCases(h, raw, value, payload);
    MessageShaped(h, raw, payload, ts);
    FunctionCallShaped(h, raw, payload, ts);
    CallOutputShaped(h, raw, payload, ts);
    CustomToolCallShaped(h, raw, payload, ts);
    ReasoningShaped(h, raw, payload, ts);
    UnknownShaped(UnknownOp(h, raw, value));
  }

  lemma EventMsgShaped(h: Host, raw: RawRecord, value: Value, payload: Value)
    ensures Shaped(EventMsg(h, raw, value, payload))
  {
    var ts := Ts(h, value);
    MsgCases(h, raw, value, payload);
    PatchApplyEndShaped(h, raw, payload, ts);
    CallOutputShaped(h, raw, payload, ts);
    CompactionShaped(h, raw, value);
    UnknownShaped(UnknownOp(h, raw, value));
  }

  lemma RecordShaped(h: Host, session: Option<string>, raw: RawRecord, value: Value)
    requires ParseJsonLine(h, raw) == Some(value)
    ensures Shaped(Plan(h, session, raw))
  {
    var recType, payload := StrField(value, "type").GetOr(""), Get(value, "payload");
    if recType == "session_meta" && payload.Some? {
      MetaShaped(h, session, raw, value, payload.value);
    } else if recType == "response_item" && payload.Some? {
      ResponseItemShaped(h, raw, value, payload.value);
    } else if recType == "event_msg" && payload.Some? {
      EventMsgShaped(h, raw, value, payload.value);
    } else if recType == "compacted" {
      CompactionShaped(h, raw, value);
    } else {
      UnknownShaped(UnknownOp(h, raw, value));
    }
  }

  /** Every plan has the shapes the run laws ask for. */
  lemma {:induction false} PlanShaped(h: Host, session: Option<string>, raw: RawRecord)
    ensures Shaped(Plan(h, session, raw))
  {
    if ParseJsonLine(h, raw).Some? {
      RecordShaped(h, session, raw, ParseJsonLine(h, raw).value);
    }
  }

  // ---- Run invariants ---------------------------------------------------------------

  /**
   Over every stream, from a fresh context: the sequence numbers are 0, 1, 2, ...,
   the ids of recognised events are pairwise distinct, and the outcome map is
   exactly the ok flag of the last emitted result of each non-empty call id.
   */
  lemma {:induction false} RunInvariants(h: Host, recs: seq<RawRecord>)
    ensures var r := Run(Codex, Planned(h), FRESH, recs);
      && Dense(r.1, 0, r.0.nextSeq)
      && FreshIds(r.1, {}, r.0.seen)
      && r.0.callOk == LastOutcomes(map[], r.1)
  {
    forall t: State, raw: RawRecord
      ensures Guarded(Planned(h)(t, raw)) && Mirrored(Planned(h)(t, raw))
    {
      PlanShaped(h, t.sessionId, raw);
    }
    RunDense(Codex, Planned(h), FRESH, recs);
    RunFresh(Codex, Planned(h), FRESH, recs);
    RunMirrors(Codex, Planned(h), FRESH, recs);
  }

  // ---- Bindings ------------------------------------------------------------

  datatype Bindings = Bindings(session: Option<string>, project: Option<ProjectRef>)

  /** What a record binds, whatever the context. */
  function Binds(h: Host, raw: RawRecord): Bindings {
    match ParseJsonLine(h, raw)
    case None => Bindings(None, None)
    case Some(value) =>
      var payload := Get(value, "payload");
      if StrField(value, "type").GetOr("") == "session_meta" && payload.Some?
      then Bindings(StrField(payload.value, "id"), Some(MetaProject(payload.value)))
      else Bindings(None, None)
  }

  function Later(b: Bindings, later: Bindings): Bindings {
    Bindings(OrElse(later.session, b.session), OrElse(later.project, b.project))
  }

  function BoundAfter(h: Host, b: Bindings, recs: seq<RawRecord>): Bindings
    decreases recs
  {
    if recs == [] then b else BoundAfter(h, Later(b, Binds(h, recs[0])), recs[1..])
  }

  lemma {:induction false} BoundTwice(h: Host, b: Bindings, c: Bindings, recs: seq<RawRecord>)
    ensures BoundAfter(h, Later(b, c), recs) == Later(b, BoundAfter(h, c, recs))
    decreases recs
  {
    if recs != [] {
      BoundTwice(h, b, Later(c, Binds(h, recs[0])), recs[1..]);
      assert Later(Later(b, c), Binds(h, recs[0])) == Later(b, Later(c, Binds(h, recs[0])));
    }
  }

  /** Binding the same records again ends where it started. */
  lemma BoundAgain(h: Host, b: Bindings, recs: seq<RawRecord>)
    ensures BoundAfter(h, BoundAfter(h, b, recs), recs) == BoundAfter(h, b, recs)
  {
    var none := Bindings(None, None);
    BoundTwice(h, b, none, recs);
    BoundTwice(h, BoundAfter(h, b, recs), none, recs);
    assert Later(b, none) == b;
    assert Later(BoundAfter(h, b, recs), none) == BoundAfter(h, b, recs);
  }

  function BindingsOf(s: State): Bindings {
    Bindings(s.sessionId, s.project)
  }

  lemma {:induction false} BodyKeepsBindings(raw: RawRecord, s: State, ops: seq<Op>)
    requires NoBinding(ops)
    ensures BindingsOf(Exec(Codex, raw, s, ops).0) == BindingsOf(s)
    decreases ops
  {
    if ops != [] {
      var first := ExecOp(Codex, raw, s, ops[0]);
      if ops[0].Once? && ops[0].guard !in s.seen {
        BodyKeepsBindings(raw, s.(seen := s.seen + {ops[0].guard}), ops[0].body);
      }
      BodyKeepsBindings(raw, first.0, ops[1..]);
    }
  }

  lemma {:induction false} ExecBindings(raw: RawRecord, s: State, t: State, ops: seq<Op>)
    requires BodiesBindNothing(ops) && BindingsOf(s) == BindingsOf(t)
    ensures BindingsOf(Exec(Codex, raw, s, ops).0) == BindingsOf(Rebound(t, ops))
    decreases ops
  {
    if ops != [] {
      assert ops[0] in ops;
      var first := ExecOp(Codex, raw, s, ops[0]);
      if ops[0].Once? && ops[0].guard !in s.seen {
        BodyKeepsBindings(raw, s.(seen := s.seen + {ops[0].guard}), ops[0].body);
      }
      ExecBindings(raw, first.0, ReboundOp(t, ops[0]), ops[1..]);
    }
  }

  lemma ReboundNothing(s: State, ops: seq<Op>)
    requires KeepsBindings(ops)
    ensures Rebound(s, ops) == s
    decreases ops
  {
    if ops != [] {
      assert ops[0] in ops;
      ReboundNothing(s, ops[1..]);
    }
  }

  lemma MetaRebinds(h: Host, s: State, raw: RawRecord, value: Value, payload: Value)
    ensures var r := Rebound(s, SessionMeta(h, s.sessionId, raw, value, payload));
      r == s.(sessionId := OrElse(StrField(payload, "id"), s.sessionId), project := Some(MetaProject(payload)))
  {
    var ops := SessionMeta(h, s.sessionId, raw, value, payload);
    var tail := ops[|ops| - 1..];
    assert tail[1..] == [];
    var mid := ops[|ops| - 2..];
    assert mid[1..] == tail;
    var project := Some(MetaProject(payload));
    forall u: State ensures Rebound(u, mid) == u.(project := project) {
      assert Rebound(u.(project := project), tail) == Rebound(u.(project := project), []);
    }
    if |ops| == 3 {
      assert ops[1..] == mid;
    } else {
      assert ops == mid;
    }
  }

  predicate KeepsBindings(ops: seq<Op>) {
    forall op | op in ops :: op.Once? || op.Emit?
  }

  lemma ItemKeepsBindings(h: Host, raw: RawRecord, value: Value, payload: Value)
    ensures KeepsBindings(ResponseItem(h, raw, value, payload))
  {
    ItemCases(h, raw, value, payload);
  }

  lemma PatchKeepsBindings(h: Host, raw: RawRecord, payload: Value, ts: int)
    ensures KeepsBindings(PatchApplyEnd(h, raw, payload, ts))
  {
  }

  lemma MsgKeepsBindings(h: Host, raw: RawRecord, value: Value, payload: Value)
    ensures KeepsBindings(EventMsg(h, raw, value, payload))
  {
    MsgCases(h, raw, value, payload);
    PatchKeepsBindings(h, raw, payload, Ts(h, value));
  }

  lemma OtherPlansKeepBindings(h: Host, session: Option<string>, raw: RawRecord, value: Value)
    requires ParseJsonLine(h, raw) == Some(value)
    requires StrField(value, "type").GetOr("") != "session_meta" || Get(value, "payload").None?
    ensures KeepsBindings(Plan(h, session, raw))
  {
    var payload := Get(value, "payload");
    if payload.Some? {
      ItemKeepsBindings(h, raw, value, payload.value);
      MsgKeepsBindings(h, raw, value, payload.value);
    }
  }

  /** A record rebinds exactly what it binds. */
  lemma PlanBinds(h: Host, s: State, raw: RawRecord)
    ensures var r, b := Rebound(s, Plan(h, s.sessionId, raw)), Later(BindingsOf(s), Binds(h, raw));
      r == s.(sessionId := b.session, project := b.project)
  {
    var parsed := ParseJsonLine(h, raw);
    if parsed.Some? {
      var value := parsed.value;
      var payload := Get(value, "payload");
      if StrField(value, "type").GetOr("") == "session_meta" && payload.Some? {
        MetaRebinds(h, s, raw, value, payload.value);
      } else {
        OtherPlansKeepBindings(h, s.sessionId, raw, value);
        ReboundNothing(s, Plan(h, s.sessionId, raw));
      }
    }
  }

  lemma StepBinds(h: Host, s: State, raw: RawRecord)
    ensures BindingsOf(Exec(Codex, raw, s, Plan(h, s.sessionId, raw)).0) == Later(BindingsOf(s), Binds(h, raw))
  {
    PlanShaped(h, s.sessionId, raw);
    ExecBindings(raw, s, s, Plan(h, s.sessionId, raw));
    PlanBinds(h, s, raw);
  }

  lemma {:induction false} RunBinds(h: Host, s: State, recs: seq<RawRecord>)
    ensures BindingsOf(Run(Codex, Planned(h), s, recs).0) == BoundAfter(h, BindingsOf(s), recs)
    decreases recs
  {
    if recs != [] {
      StepBinds(h, s, recs[0]);
      RunBinds(h, Exec(Codex, recs[0], s, Plan(h, s.sessionId, recs[0])).0, recs[1..]);
    }
  }

  // ---- Replay ------------------------------------------------------------

  /** Records whose event stands under no guard: valid JSON that no branch recognises. */
  predicate Unguarded(h: Host, raw: RawRecord) {
    match ParseJsonLine(h, raw)
    case None => false
    case Some(value) =>
      var recType, payload := StrField(value, "type").GetOr(""), Get(value, "payload");
      if recType == "session_meta" then payload.None?
      else if recType == "response_item" then
        payload.None? || UnguardedItem(StrField(payload.value, "type").GetOr(""), payload.value)
      else if recType == "event_msg" then
        payload.None?
        || StrField(payload.value, "type").GetOr("") !in {"patch_apply_end", "mcp_tool_call_end", "context_compacted"}
      else recType != "compacted"
  }

  predicate UnguardedItem(itemType: string, payload: Value) {
    if itemType == "reasoning" then Thinking(payload).None?
    else
      itemType !in {
        "message", "function_call", "function_call_output", "custom_tool_call", "custom_tool_call_output"}
  }

  lemma {:induction false} BareNone(ops: seq<Op>)
    requires forall op | op in ops :: !op.Emit?
    ensures Bare(ops) == 0
  {
    if ops != [] {
      assert ops[0] in ops;
      BareNone(ops[1..]);
    }
  }

  lemma BareOne(op: Op)
    requires op.Emit?
    ensures Bare([op]) == 1
  {
    assert [op][1..] == [] && Bare([op][1..]) == 0;
  }

  lemma ItemBare(h: Host, raw: RawRecord, value: Value, payload: Value)
    ensures Bare(ResponseItem(h, raw, value, payload))
      == if UnguardedItem(StrField(payload, "type").GetOr(""), payload) then 1 else 0
  {
    var ops, itemType := ResponseItem(h, raw, value, payload), StrField(payload, "type").GetOr("");
    if UnguardedItem(itemType, payload) {
      BareOne(ops[0]);
      assert ops == [ops[0]];
    } else {
      BareNone(ops);
    }
  }

  lemma MsgBare(h: Host, raw: RawRecord, value: Value, payload: Value)
    ensures Bare(EventMsg(h, raw, value, payload))
      == if StrField(payload, "type").GetOr("") in {"patch_apply_end", "mcp_tool_call_end", "context_compacted"}
         then 0 else 1
  {
    var ops, msgType := EventMsg(h, raw, value, payload), StrField(payload, "type").GetOr("");
    if msgType in {"patch_apply_end", "mcp_tool_call_end", "context_compacted"} {
      BareNone(ops);
    } else {
      BareOne(ops[0]);
      assert ops == [ops[0]];
    }
  }

  /** A plan holds at most one unguarded event, and holds one iff nothing recognises the record. */
  lemma PlanBare(h: Host, session: Option<string>, raw: RawRecord)
    ensures Bare(Plan(h, session, raw)) == if Unguarded(h, raw) then 1 else 0
  {
    var parsed := ParseJsonLine(h, raw);
    if parsed.Some? {
      var value := parsed.value;
      var recType, payload := StrField(value, "type").GetOr(""), Get(value, "payload");
      if payload.Some? && recType in {"session_meta", "response_item", "event_msg"} {
        PayloadBare(h, session, raw, value, payload.value);
      } else if recType == "compacted" {
        BareNone(CompactionOps(h, raw, value));
      } else {
        BareOne(UnknownOp(h, raw, value));
      }
    }
  }

  lemma PayloadBare(h: Host, session: Option<string>, raw: RawRecord, value: Value, payload: Value)
    requires ParseJsonLine(h, raw) == Some(value) && Get(value, "payload") == Some(payload)
    requires StrField(value, "type").GetOr("") in {"session_meta", "response_item", "event_msg"}
    ensures Bare(Plan(h, session, raw)) == if Unguarded(h, raw) then 1 else 0
  {
    match StrField(value, "type").GetOr("")
    case "session_meta" => MetaBare(h, session, raw, value, payload);
    case "response_item" => ItemBare(h, raw, value, payload);
    case _ => MsgBare(h, raw, value, payload);
  }

  lemma MetaBare(h: Host, session: Option<string>, raw: RawRecord, value: Value, payload: Value)
    ensures Bare(SessionMeta(h, session, raw, value, payload)) == 0
  {
    BareNone(SessionMeta(h, session, raw, value, payload));
  }

  predicate Started(session: Option<string>, seen: set<string>) {
    session.Some? && "session_meta:" + session.value in seen
  }

  predicate NoneBinds(h: Host, recs: seq<RawRecord>) {
    forall raw | raw in recs :: Binds(h, raw).session.None?
  }

  /** The sessions a replay can be in: started ones, or the first one if no record names another. */
  predicate Fits(h: Host, recs: seq<RawRecord>, start: Option<string>, session: Option<string>, seen: set<string>) {
    Started(session, seen) || (session == start && NoneBinds(h, recs))
  }

  lemma MetaGuard(h: Host, session: Option<string>, raw: RawRecord, value: Value, payload: Value)
    ensures forall op | op in SessionMeta(h, session, raw, value, payload) && op.Once? ::
      op.guard == SessionEventId(h, OrElse(StrField(payload, "id"), session), raw)
    ensures exists op | op in SessionMeta(h, session, raw, value, payload) ::
      op.Once? && op.guard == SessionEventId(h, OrElse(StrField(payload, "id"), session), raw)
  {
    var ops := SessionMeta(h, session, raw, value, payload);
    assert ops[|ops| - 1] in ops;
  }

  /** A record that was planned in one session finds its guards seen in any started one. */
  lemma GuardsStaySeen(h: Host, raw: RawRecord, before: Option<string>, session: Option<string>, seen: set<string>)
    requires GuardsSeen(Plan(h, before, raw), seen) && Started(session, seen)
    ensures GuardsSeen(Plan(h, session, raw), seen)
  {
    if Binds(h, raw).project.None? {
      assert Plan(h, session, raw) == Plan(h, before, raw);
    } else {
      var value := ParseJsonLine(h, raw).value;
      var payload := Get(value, "payload").value;
      MetaGuard(h, session, raw, value, payload);
      MetaGuard(h, before, raw, value, payload);
    }
  }

  /** A record that binds a session starts it. */
  lemma BindingStarts(h: Host, raw: RawRecord, before: Option<string>, seen: set<string>)
    requires GuardsSeen(Plan(h, before, raw), seen) && Binds(h, raw).session.Some?
    ensures Started(Binds(h, raw).session, seen)
  {
    var value := ParseJsonLine(h, raw).value;
    MetaGuard(h, before, raw, value, Get(value, "payload").value);
  }

  lemma {:induction false} RunSeenGrows(h: Host, s: State, recs: seq<RawRecord>)
    ensures s.seen <= Run(Codex, Planned(h), s, recs).0.seen
    decreases recs
  {
    if recs != [] {
      var ops := Plan(h, s.sessionId, recs[0]);
      ExecSeenGrows(Codex, recs[0], s, ops);
      RunSeenGrows(h, Exec(Codex, recs[0], s, ops).0, recs[1..]);
    }
  }

  lemma NoneBindsSplit(h: Host, recs: seq<RawRecord>)
    requires recs != []
    ensures NoneBinds(h, recs) <==> Binds(h, recs[0]).session.None? && NoneBinds(h, recs[1..])
  {
    assert recs == [recs[0]] + recs[1..];
  }

  /** A stream ends in a session that its replay fits. */
  lemma {:induction false} RunFits(h: Host, s: State, recs: seq<RawRecord>)
    ensures var t := Run(Codex, Planned(h), s, recs).0;
      Fits(h, recs, s.sessionId, t.sessionId, t.seen)
    decreases recs
  {
    if recs != [] {
      var ops := Plan(h, s.sessionId, recs[0]);
      var u := Exec(Codex, recs[0], s, ops).0;
      RunFits(h, u, recs[1..]);
      RunSeenGrows(h, u, recs[1..]);
      NoneBindsSplit(h, recs);
      StepBinds(h, s, recs[0]);
      ExecSeesGuards(Codex, recs[0], s, ops);
      if Binds(h, recs[0]).session.Some? {
        BindingStarts(h, recs[0], s.sessionId, u.seen);
      }
    }
  }

  /** All guards of every record are seen, in any session a replay can be in. */
  ghost predicate Settled(
      h: Host, all: seq<RawRecord>, start: Option<string>, recs: seq<RawRecord>, seen: set<string>) {
    forall raw, session: Option<string> | raw in recs && Fits(h, all, start, session, seen) ::
      GuardsSeen(Plan(h, session, raw), seen)
  }

  lemma {:induction false} RunSettles(h: Host, s: State, recs: seq<RawRecord>)
    ensures Settled(h, recs, s.sessionId, recs, Run(Codex, Planned(h), s, recs).0.seen)
    decreases recs
  {
    if recs != [] {
      var ops, seen := Plan(h, s.sessionId, recs[0]), Run(Codex, Planned(h), s, recs).0.seen;
      var u := Exec(Codex, recs[0], s, ops).0;
      RunSettles(h, u, recs[1..]);
      RunSeenGrows(h, u, recs[1..]);
      NoneBindsSplit(h, recs);
      StepBinds(h, s, recs[0]);
      ExecSeesGuards(Codex, recs[0], s, ops);
      forall raw, session: Option<string> | raw in recs && Fits(h, recs, s.sessionId, session, seen)
        ensures GuardsSeen(Plan(h, session, raw), seen)
      {
        if raw == recs[0] {
          if session != s.sessionId {
            GuardsStaySeen(h, raw, s.sessionId, session, seen);
          }
        } else {
          assert raw in recs[1..];
        }
      }
    }
  }

  /** How many records stand under no guard. */
  function UnguardedCount(h: Host, recs: seq<RawRecord>): nat {
    if recs == [] then 0 else (if Unguarded(h, recs[0]) then 1 else 0) + UnguardedCount(h, recs[1..])
  }

  /** A settled stream emits its unguarded events and changes only bindings and the counter. */
  lemma {:induction false} SettledRun(
      h: Host, all: seq<RawRecord>, start: Option<string>, s: State, recs: seq<RawRecord>)
    requires Fits(h, all, start, s.sessionId, s.seen) && Settled(h, all, start, recs, s.seen)
    requires forall raw | raw in recs :: raw in all
    ensures var r := Run(Codex, Planned(h), s, recs);
      && OnlyUnknown(r.1) && |r.1| == UnguardedCount(h, recs)
      && r.0.seen == s.seen && r.0.callNames == s.callNames && r.0.callOk == s.callOk
    decreases recs
  {
    if recs != [] {
      var ops := Plan(h, s.sessionId, recs[0]);
      assert recs[0] in recs;
      PlanShaped(h, s.sessionId, recs[0]);
      ExecAgain(Codex, recs[0], s, ops);
      PlanBare(h, s.sessionId, recs[0]);
      PlanBinds(h, s, recs[0]);
      if Binds(h, recs[0]).session.Some? {
        BindingStarts(h, recs[0], s.sessionId, s.seen);
      }
      SettledRun(h, all, start, Exec(Codex, recs[0], s, ops).0, recs[1..]);
    }
  }

  /**
   Replaying a stream, byte for byte and from the same locations, in the context it
   left, from any context before: it emits one event for each record that stands
   under no guard, all of them unrecognised, and leaves every field of the context
   except the sequence counter as it was.
   */
  lemma {:induction false} ReplayFixedPoint(h: Host, s: State, recs: seq<RawRecord>)
    ensures var once := Run(Codex, Planned(h), s, recs).0;
      var twice := Run(Codex, Planned(h), once, recs);
      && OnlyUnknown(twice.1) && |twice.1| == UnguardedCount(h, recs)
      && twice.0 == once.(nextSeq := once.nextSeq + UnguardedCount(h, recs))
  {
    var once := Run(Codex, Planned(h), s, recs).0;
    RunFits(h, s, recs);
    RunSettles(h, s, recs);
    SettledRun(h, recs, s.sessionId, once, recs);
    RunDense(Codex, Planned(h), once, recs);
    RunBinds(h, s, recs);
    RunBinds(h, once, recs);
    BoundAgain(h, BindingsOf(s), recs);
  }

  /** So a replay is silent iff every record is guarded or no JSON, and then changes nothing at all. */
  lemma {:induction false} ReplaySilentExactly(h: Host, s: State, recs: seq<RawRecord>)
    ensures var once := Run(Codex, Planned(h), s, recs).0;
      Run(Codex, Planned(h), once, recs) == (once, []) <==> forall raw | raw in recs :: !Unguarded(h, raw)
  {
    ReplayFixedPoint(h, s, recs);
    NoneUnguarded(h, recs);
  }

  /** A record of a type the adapter does not know, as `turn_context` is. */
  const TURN_CONTEXT: Value := Obj(map["type" := Str("turn_context"), "payload" := Obj(map[])])

  /** Its replay repeats it, from any context. */
  lemma {:induction false} TurnContextRepeats(h: Host, s: State, raw: RawRecord)
    requires ParseJsonLine(h, raw) == Some(TURN_CONTEXT)
    ensures var once := Run(Codex, Planned(h), s, [raw]).0;
      var twice := Run(Codex, Planned(h), once, [raw]);
      |twice.1| == 1 && twice.1[0].kind.Unknown? && twice.0 != once
  {
    assert StrField(TURN_CONTEXT, "type") == Some("turn_context") && Unguarded(h, raw);
    ReplayFixedPoint(h, s, [raw]);
    assert [raw][1..] == [] && UnguardedCount(h, [raw][1..]) == 0;
    assert UnguardedCount(h, [raw]) == 1;
    var once := Run(Codex, Planned(h), s, [raw]).0;
    var twice := Run(Codex, Planned(h), once, [raw]);
    assert twice.1[0] in twice.1;
  }

  lemma {:induction false} NoneUnguarded(h: Host, recs: seq<RawRecord>)
    ensures UnguardedCount(h, recs) == 0 <==> forall raw | raw in recs :: !Unguarded(h, raw)
  {
    if recs != [] {
      NoneUnguarded(h, recs[1..]);
      assert recs == [recs[0]] + recs[1..];
    }
  }

  function JsonOnly(h: Host, recs: seq<RawRecord>): seq<RawRecord> {
    if recs == [] then []
    else if ParseJsonLine(h, recs[0]).None? then JsonOnly(h, recs[1..])
    else [recs[0]] + JsonOnly(h, recs[1..])
  }

  /** Lines that are not JSON leave no trace, wherever they stand. */
  lemma {:induction false} InvalidJsonDropped(h: Host, s: State, recs: seq<RawRecord>)
    ensures Run(Codex, Planned(h), s, recs) == Run(Codex, Planned(h), s, JsonOnly(h, recs))
    decreases recs
  {
    if recs != [] {
      var first := Exec(Codex, recs[0], s, Plan(h, s.sessionId, recs[0]));
      InvalidJsonDropped(h, first.0, recs[1..]);
      if ParseJsonLine(h, recs[0]).None? {
        assert first == (s, []);
        var rest := Run(Codex, Planned(h), s, recs[1..]);
        assert [] + rest.1 == rest.1;
      } else {
        assert ([recs[0]] + JsonOnly(h, recs[1..]))[1..] == JsonOnly(h, recs[1..]);
      }
    }
  }
}
