/** Run invariants of the flat chat parser, shared by OpenCode and Hermes. */
module ChatLaws {
  import opened Wrappers
  import opened Json
  import opened Events
  import opened Ctx
  import opened CtxLaws
  import opened CtxFirings
  import opened ChatPlan

  function Planned(h: Host, d: Dialect): Planner {
    (s: State, raw: RawRecord) => Plan(h, d, raw)
  }

  lemma OwnGuard(id: string, parent: Option<string>, ts: int, kind: EventKind)
    ensures Guarded([Once(id, [Emit(id, parent, ts, kind)])])
  {
    var op := Emit(id, parent, ts, kind);
    if kind.Unknown? {
      UnknownInside(id, op);
    } else {
      OwnEventFirst(id, op, []);
      assert [op] + [] == [op];
    }
    OnceGuarded(id, [op]);
  }

  lemma OneCallGuarded(eventId: string, ts: int, call: Value, i: nat, results: seq<Value>)
    ensures Guarded(OneCall(eventId, ts, call, i, results))
  {
    if call.Obj? {
      var callId := CallId(eventId, call, i);
      var found := FindResult(results, callId);
      var tail := ResultOps(eventId, ts, callId, found);
      OwnGuard(callId + ":call", Some(eventId), ts,
          ToolCall(callId, TextField(call, "name"), Get(call, "args").GetOr(Null)));
      if found.Some? {
        var r := found.value;
        OwnGuard(callId + ":result", Some(eventId), ts, ToolResult(callId, ResultOk(r), ResultOutput(r)));
        assert tail[1..] == [Once(callId + ":result", [Emit(callId + ":result", Some(eventId), ts,
          ToolResult(callId, ResultOk(r), ResultOutput(r)))])];
      }
      GuardedConcat([CallOp(eventId, ts, callId, call)], tail);
    }
  }

  lemma {:induction false} CallsGuarded(eventId: string, ts: int, calls: seq<Value>, results: seq<Value>)
    ensures Guarded(CallsOps(eventId, ts, calls, results))
  {
    if calls != [] {
      var n := |calls| - 1;
      CallsGuarded(eventId, ts, calls[..n], results);
      OneCallGuarded(eventId, ts, calls[n], n, results);
      GuardedConcat(CallsOps(eventId, ts, calls[..n], results), OneCall(eventId, ts, calls[n], n, results));
    }
  }

  lemma MessageGuarded(h: Host, raw: RawRecord, v: Value)
    ensures Guarded(MessageOps(h, raw, v))
  {
    var id, ts := MessageId(h, raw, v), TsFrom(h, v, ["ts", "timestamp"]);
    var turn := TurnKind(TextField(v, "role"), TextField(v, "text"));
    var body := MessageBody(h, raw, v);
    if turn.None? {
      UnknownInside(id, UnknownOp(h, raw, v));
    } else {
      CallsGuarded(id, ts, Calls(v), Results(v));
      OwnEventFirst(id, Emit(id, None, ts, turn.value), CallsOps(id, ts, Calls(v), Results(v)));
    }
    OnceGuarded(id, body);
  }

  lemma UnknownInside(g: string, op: Op)
    requires op.Emit? && op.kind.Unknown?
    ensures GuardedBy(g, [op])
  {
    assert [op][1..] == [];
    assert GuardedBy(g, [op][1..]);
  }

  lemma OwnEventFirst(g: string, op: Op, rest: seq<Op>)
    requires op.Emit? && !op.kind.Unknown? && op.eventId == g && Guarded(rest)
    ensures GuardedBy(g, [op] + rest)
  {
    assert ([op] + rest)[1..] == rest;
  }

  lemma OnceGuarded(g: string, body: seq<Op>)
    requires GuardedBy(g, body)
    ensures Guarded([Once(g, body)])
  {
    var ops := [Once(g, body)];
    assert ops[1..] == [];
    assert Guarded(ops[1..]);
  }

  lemma StartGuarded(h: Host, d: Dialect, raw: RawRecord, v: Value)
    ensures Guarded(StartOps(h, d, raw, v))
  {
    var id, body := StartId(h, raw, v), StartBody(h, d, raw, v);
    OwnEventFirst(id, body[1], []);
    assert [body[1]] + [] == body[1..];
    OnceGuarded(id, body);
    var once := [Once(id, body)];
    var sid := StrField(v, "sessionId");
    if sid.Some? {
      assert ([BindSession(sid.value)] + once)[1..] == once;
    } else {
      assert [] + once == once;
    }
  }

  lemma PlanGuarded(h: Host, d: Dialect, raw: RawRecord)
    ensures Guarded(Plan(h, d, raw))
  {
    var v := ParseJsonLine(h, raw);
    if v.Some? {
      MessageGuarded(h, raw, v.value);
      StartGuarded(h, d, raw, v.value);
    }
  }

  /**
   Over any stream, in any order and with any repetitions: sequence numbers are
   0, 1, 2, ... and no recognised event id comes twice.
   */
  lemma {:induction false} RunInvariants(h: Host, d: Dialect, recs: seq<RawRecord>)
    ensures var r := Run(d.src, Planned(h, d), FRESH, recs);
      Dense(r.1, 0, r.0.nextSeq) && FreshIds(r.1, {}, r.0.seen)
  {
    forall s: State, raw: RawRecord ensures Guarded(Planned(h, d)(s, raw)) {
      PlanGuarded(h, d, raw);
    }
    RunDense(d.src, Planned(h, d), FRESH, recs);
    RunFresh(d.src, Planned(h, d), FRESH, recs);
  }

  // ---- Outcomes ------------------------------------------------------------

  /**
   A call's outcome keeps the map in line with the stream exactly when its result is
   emitted under a non-empty call id, or the map said the same already. Otherwise
   the event is suppressed and the outcome overwritten all the same.
   */
  lemma {:induction false} ResultStepExactly(
      d: Dialect, raw: RawRecord, s: State, eventId: string, ts: int, callId: string, r: Value)
    ensures var x := Exec(d.src, raw, s, ResultOps(eventId, ts, callId, Some(r)));
      x.0.callOk == LastOutcomes(s.callOk, x.1)
      <==> (callId != "" && callId + ":result" !in s.seen)
           || (callId in s.callOk && s.callOk[callId] == ResultOk(r))
  {
    OutcomeStepExactly(d.src, raw, s, callId, ResultOk(r), callId + ":result", Some(eventId), ts, ResultOutput(r));
  }

  /** No call of the record has an empty id. */
  predicate NamesItsCalls(h: Host, raw: RawRecord) {
    var v := ParseJsonLine(h, raw);
    v.Some? ==>
      var id, calls := MessageId(h, raw, v.value), Calls(v.value);
      forall i | 0 <= i < |calls| && calls[i].Obj? :: CallId(id, calls[i], i) != ""
  }

  lemma OneCallShown(eventId: string, ts: int, call: Value, i: nat, results: seq<Value>)
    requires call.Obj? ==> CallId(eventId, call, i) != ""
    ensures OutcomesShown(OneCall(eventId, ts, call, i, results))
  {
    if call.Obj? {
      var callId := CallId(eventId, call, i);
      var op, found := CallOp(eventId, ts, callId, call), FindResult(results, callId);
      QuietShown(op.body[0]);
      assert op.body == [op.body[0]];
      OnceShown(op.guard, op.body);
      assert op == Once(op.guard, op.body);
      ResultShown(eventId, ts, callId, found);
      ShownConcat([op], ResultOps(eventId, ts, callId, found));
    }
  }

  lemma ResultShown(eventId: string, ts: int, callId: string, found: Option<Value>)
    requires callId != ""
    ensures OutcomesShown(ResultOps(eventId, ts, callId, found))
  {
    if found.Some? {
      var ops := ResultOps(eventId, ts, callId, found);
      assert Shows(ops[1].body[0], callId, ResultOk(found.value));
      assert Shows(ops[1], callId, ResultOk(found.value));
      assert ops[2..] == [] && OutcomesShown(ops[2..]);
    }
  }

  lemma {:induction false} CallsShown(eventId: string, ts: int, calls: seq<Value>, results: seq<Value>)
    requires forall i | 0 <= i < |calls| && calls[i].Obj? :: CallId(eventId, calls[i], i) != ""
    ensures OutcomesShown(CallsOps(eventId, ts, calls, results))
  {
    if calls != [] {
      var n := |calls| - 1;
      CallsShown(eventId, ts, calls[..n], results);
      OneCallShown(eventId, ts, calls[n], n, results);
      ShownConcat(CallsOps(eventId, ts, calls[..n], results), OneCall(eventId, ts, calls[n], n, results));
    }
  }

  lemma QuietShown(op: Op)
    requires op.BindSession? || op.BindProject? || (op.Emit? && !op.kind.ToolResult?)
    ensures OutcomesShown([op])
  {
    assert [op][1..] == [] && OutcomesShown([op][1..]);
  }

  lemma OnceShown(g: string, body: seq<Op>)
    requires OutcomesShown(body)
    ensures OutcomesShown([Once(g, body)])
  {
    var ops := [Once(g, body)];
    assert ops[1..] == [] && OutcomesShown(ops[1..]);
  }

  lemma MessageShown(h: Host, raw: RawRecord, v: Value)
    requires var id, calls := MessageId(h, raw, v), Calls(v);
      forall i | 0 <= i < |calls| && calls[i].Obj? :: CallId(id, calls[i], i) != ""
    ensures OutcomesShown(MessageOps(h, raw, v))
  {
    var id, ts := MessageId(h, raw, v), TsFrom(h, v, ["ts", "timestamp"]);
    var turn := TurnKind(TextField(v, "role"), TextField(v, "text"));
    if turn.None? {
      QuietShown(UnknownOp(h, raw, v));
    } else {
      QuietShown(Emit(id, None, ts, turn.value));
      CallsShown(id, ts, Calls(v), Results(v));
      ShownConcat([Emit(id, None, ts, turn.value)], CallsOps(id, ts, Calls(v), Results(v)));
    }
    OnceShown(id, MessageBody(h, raw, v));
  }

  lemma StartShown(h: Host, d: Dialect, raw: RawRecord, v: Value)
    ensures OutcomesShown(StartOps(h, d, raw, v))
  {
    var sid, body := StrField(v, "sessionId"), StartBody(h, d, raw, v);
    QuietShown(body[0]);
    QuietShown(body[1]);
    ShownConcat([body[0]], [body[1]]);
    assert body == [body[0]] + [body[1]];
    var once := [Once(StartId(h, raw, v), body)];
    OnceShown(StartId(h, raw, v), body);
    if sid.Some? {
      QuietShown(BindSession(sid.value));
      ShownConcat([BindSession(sid.value)], once);
    } else {
      assert [] + once == once;
    }
  }

  lemma PlanShown(h: Host, d: Dialect, raw: RawRecord)
    requires NamesItsCalls(h, raw)
    ensures OutcomesShown(Plan(h, d, raw))
  {
    var v := ParseJsonLine(h, raw);
    if v.None? {
      QuietShown(UnknownOp(h, raw, Str(h.text(raw.bytes))));
    } else {
      QuietShown(UnknownOp(h, raw, v.value));
      StartShown(h, d, raw, v.value);
      MessageShown(h, raw, v.value);
    }
  }

  function Planning(h: Host, d: Dialect): RecordPlanner {
    (raw: RawRecord) => Plan(h, d, raw)
  }

  /**
   Over any stream whose guarded ids are distinct and whose calls have non-empty ids,
   the outcome map is exactly what the emitted results say.
   */
  lemma {:induction false} OutcomesMirror(h: Host, d: Dialect, s: State, recs: seq<RawRecord>)
    requires NoDups(RunGuards(Planning(h, d), recs)) && Unseen(RunGuards(Planning(h, d), recs), s.seen)
    requires forall raw | raw in recs :: NamesItsCalls(h, raw)
    ensures var r := Run(d.src, Steady(Planning(h, d)), s, recs);
      r.0.callOk == LastOutcomes(s.callOk, r.1)
  {
    forall raw | raw in recs ensures OutcomesShown(Planning(h, d)(raw)) {
      PlanShown(h, d, raw);
    }
    RunShows(d.src, Planning(h, d), s, recs);
  }
}
