/** Run invariants of the Cursor adapter: distinct ids, dense numbers, no session bleeding. */
module CursorLaws {
  import opened Wrappers
  import opened Json
  import opened Events
  import opened Text
  import opened Ctx
  import opened CtxLaws
  import opened CtxFirings
  import opened CursorPlan

  function Planned(h: Host): Planner {
    (s: State, raw: RawRecord) => Plan(h, raw)
  }

  // ---- No operation but the binding one touches the session ----------------------------------

  /** Operations that never bind a session and whose recognised events stand under their own guard. */
  predicate Settled(ops: seq<Op>) {
    Unbound(ops) && Guarded(ops)
  }

  predicate Unbound(ops: seq<Op>)
    decreases ops
  {
    ops == [] || (UnboundOp(ops[0]) && Unbound(ops[1..]))
  }

  predicate UnboundOp(op: Op)
    decreases op
  {
    match op
    case BindSession(_) => false
    case Once(_, body) => Unbound(body)
    case _ => true
  }

  lemma {:induction false} SettledConcat(a: seq<Op>, b: seq<Op>)
    requires Settled(a) && Settled(b)
    ensures Settled(a + b)
  {
    if a == [] {
      assert a + b == b;
    } else {
      assert (a + b)[0] == a[0] && (a + b)[1..] == a[1..] + b;
      SettledConcat(a[1..], b);
    }
  }

  lemma OwnGuard(id: string, parent: Option<string>, ts: int, kind: EventKind)
    ensures Settled([Once(id, [Emit(id, parent, ts, kind)])])
  {
    var body := [Emit(id, parent, ts, kind)];
    assert body[1..] == [];
    assert Guarded(body[1..]) && Unbound(body[1..]);
    assert GuardedBy(id, body) && Unbound(body);
    var ops := [Once(id, body)];
    assert ops[1..] == [];
    assert Guarded(ops[1..]) && Unbound(ops[1..]);
  }

  lemma Prefixed(op: Op, ops: seq<Op>)
    requires op.NameCall? || op.RecordOutcome? || op.BindProject?
    requires Settled(ops)
    ensures Settled([op] + ops)
  {
    assert ([op] + ops)[1..] == ops;
  }

  lemma ItemSettled(section: Section, base: string, ts: int, item: Value, i: nat)
    ensures Settled(ItemOps(section, base, ts, item, i))
  {
    if item.Obj? {
      var ops := ItemOps(section, base, ts, item, i);
      var once := ops[|ops| - 1];
      OwnGuard(once.guard, once.body[0].parentId, once.body[0].timestamp, once.body[0].kind);
      assert once == Once(once.guard,
        [Emit(once.guard, once.body[0].parentId, once.body[0].timestamp, once.body[0].kind)]);
      if section.EditSection? {
        assert ops == [once];
      } else {
        assert ops == [ops[0]] + [once];
        Prefixed(ops[0], [once]);
      }
    }
  }

  lemma {:induction false} ItemsSettled(section: Section, base: string, ts: int, items: seq<Value>)
    ensures Settled(ItemsOps(section, base, ts, items))
  {
    if items != [] {
      var n := |items| - 1;
      ItemsSettled(section, base, ts, items[..n]);
      ItemSettled(section, base, ts, items[n], n);
      SettledConcat(ItemsOps(section, base, ts, items[..n]), ItemOps(section, base, ts, items[n], n));
    }
  }

  lemma SectionsSettled(base: string, ts: int, v: Value)
    ensures Settled(Sections(base, ts, v))
  {
    var a, b := SectionOps(CallSection, base, ts, v), SectionOps(ResultSection, base, ts, v);
    var c := SectionOps(EditSection, base, ts, v);
    ItemsSettled(CallSection, base, ts, AsArray(Get(v, "toolCalls")).GetOr([]));
    ItemsSettled(ResultSection, base, ts, AsArray(Get(v, "toolResults")).GetOr([]));
    ItemsSettled(EditSection, base, ts, AsArray(Get(v, "edits")).GetOr([]));
    SettledConcat(a, b);
    SettledConcat(a + b, c);
  }

  lemma {:induction false} GuardedAnywhere(g: string, ops: seq<Op>)
    requires Guarded(ops)
    ensures GuardedBy(g, ops)
  {
    if ops != [] {
      GuardedAnywhere(g, ops[1..]);
    }
  }

  lemma MessageSettled(h: Host, raw: RawRecord, v: Value)
    ensures Settled(MessageOps(h, raw, v))
  {
    var base, ts := EventId(h, raw, v), Timestamp(h, v);
    var body, rest := MessageBody(h, raw, v), Sections(base, ts, v);
    SectionsSettled(base, ts, v);
    GuardedAnywhere(base, rest);
    assert body[0] == Emit(base, Parent(v), ts, TurnKind(v)) && body[1..] == rest;
    assert GuardedBy(base, body) && Unbound(body);
    var ops := MessageOps(h, raw, v);
    assert ops == [Once(base, body)] && ops[1..] == [];
    assert Guarded(ops[1..]) && Unbound(ops[1..]);
  }

  lemma UnknownSettled(h: Host, raw: RawRecord, v: Value)
    ensures Settled([UnknownOp(h, raw, v)])
  {
    var ops := [UnknownOp(h, raw, v)];
    assert ops[1..] == [];
    assert Guarded(ops[1..]) && Unbound(ops[1..]);
  }

  lemma StartSettled(h: Host, raw: RawRecord, v: Value)
    ensures Settled(StartOps(h, raw, v))
  {
    var id := EventId(h, raw, v);
    var once := [Once(id, [Emit(id, None, Timestamp(h, v), StartKind(v))])];
    OwnGuard(id, None, Timestamp(h, v), StartKind(v));
    Prefixed(BindProject(ProjectOf(v)), once);
    assert StartOps(h, raw, v) == [BindProject(ProjectOf(v))] + once;
  }

  lemma DispatchedSettled(h: Host, raw: RawRecord, v: Value)
    ensures Settled(Dispatched(h, raw, v))
  {
    StartSettled(h, raw, v);
    OwnGuard(EventId(h, raw, v), Parent(v), Timestamp(h, v), SessionEnd(StrField(v, "reason")));
    MessageSettled(h, raw, Flattened(v));
    UnknownSettled(h, raw, v);
  }

  lemma PlanGuarded(h: Host, raw: RawRecord)
    ensures Guarded(Plan(h, raw))
  {
    var v := ParseJsonLine(h, raw);
    if v.None? {
      UnknownSettled(h, raw, Str(h.text(raw.bytes)));
    } else if !v.value.Obj? {
      UnknownSettled(h, raw, v.value);
    } else {
      DispatchedSettled(h, raw, v.value);
      var sid, rest := SessionOf(v.value), Dispatched(h, raw, v.value);
      if sid.Some? {
        assert ([BindSession(sid.value)] + rest)[1..] == rest;
      } else {
        assert [] + rest == rest;
      }
    }
  }

  /** Over any stream: sequence numbers are 0, 1, 2, ... and no recognised event id comes twice. */
  lemma {:induction false} RunInvariants(h: Host, recs: seq<RawRecord>)
    ensures var r := Run(Source.Cursor, Planned(h), FRESH, recs);
      Dense(r.1, 0, r.0.nextSeq) && FreshIds(r.1, {}, r.0.seen)
  {
    forall s: State, raw: RawRecord ensures Guarded(Planned(h)(s, raw)) {
      PlanGuarded(h, raw);
    }
    RunDense(Source.Cursor, Planned(h), FRESH, recs);
    RunFresh(Source.Cursor, Planned(h), FRESH, recs);
  }

  // ---- The session follows the record --------------------------------------------------

  ghost predicate AllStamped(evs: seq<CaptureEvent>, session: string, location: SourceLocation) {
    forall e | e in evs :: e.sessionId == session && e.provenance == location
  }

  lemma {:induction false} UnboundStamps(raw: RawRecord, s: State, ops: seq<Op>)
    requires Unbound(ops)
    ensures var r := Exec(Source.Cursor, raw, s, ops);
      r.0.sessionId == s.sessionId && AllStamped(r.1, s.sessionId.GetOr("unknown"), raw.location)
    decreases ops
  {
    if ops != [] {
      if ops[0].Once? && ops[0].guard !in s.seen {
        UnboundStamps(raw, s.(seen := s.seen + {ops[0].guard}), ops[0].body);
      }
      UnboundStamps(raw, ExecOp(Source.Cursor, raw, s, ops[0]).0, ops[1..]);
    }
  }

  /** The session a record names, if it is an object that names one. */
  function NamedSession(h: Host, raw: RawRecord): Option<string> {
    var v := ParseJsonLine(h, raw);
    if v.Some? && v.value.Obj? then SessionOf(v.value) else None
  }

  /** Whatever ran before, a record stamps its events with the session it names, else with the one in force. */
  lemma {:induction false} RecordStamps(h: Host, s: State, raw: RawRecord)
    ensures var r, session := Exec(Source.Cursor, raw, s, Plan(h, raw)), OrElse(NamedSession(h, raw), s.sessionId);
      r.0.sessionId == session && AllStamped(r.1, session.GetOr("unknown"), raw.location)
  {
    var v := ParseJsonLine(h, raw);
    if v.None? {
      UnknownSettled(h, raw, Str(h.text(raw.bytes)));
      UnboundStamps(raw, s, Plan(h, raw));
    } else if !v.value.Obj? {
      UnknownSettled(h, raw, v.value);
      UnboundStamps(raw, s, Plan(h, raw));
    } else {
      ObjectStamps(h, s, raw, v.value);
    }
  }

  lemma ObjectStamps(h: Host, s: State, raw: RawRecord, v: Value)
    requires v.Obj?
    ensures var r, session := Exec(Source.Cursor, raw, s, RecordOps(h, raw, v)), OrElse(SessionOf(v), s.sessionId);
      r.0.sessionId == session && AllStamped(r.1, session.GetOr("unknown"), raw.location)
  {
    var sid, rest := SessionOf(v), Dispatched(h, raw, v);
    DispatchedSettled(h, raw, v);
    if sid.Some? {
      var bind := BindSession(sid.value);
      ExecConcat(Source.Cursor, raw, s, [bind], rest);
      ExecOne(Source.Cursor, raw, s, bind);
      UnboundStamps(raw, ExecOp(Source.Cursor, raw, s, bind).0, rest);
      var more := Exec(Source.Cursor, raw, ExecOp(Source.Cursor, raw, s, bind).0, rest).1;
      assert [] + more == more;
    } else {
      UnboundStamps(raw, s, rest);
      assert [] + rest == rest;
    }
  }

  /** The session in force after some records: that of the last one that names a session. */
  function CurrentSession(h: Host, start: Option<string>, recs: seq<RawRecord>): Option<string> {
    if recs == [] then start
    else
      var n := |recs| - 1;
      OrElse(NamedSession(h, recs[n]), CurrentSession(h, start, recs[..n]))
  }

  /** The event came from record k and carries the session in force there. */
  ghost predicate From(h: Host, start: Option<string>, recs: seq<RawRecord>, e: CaptureEvent, k: nat) {
    k < |recs| && e.provenance == recs[k].location
    && e.sessionId == CurrentSession(h, start, recs[..k + 1]).GetOr("unknown")
  }

  lemma FromLonger(h: Host, start: Option<string>, recs: seq<RawRecord>, n: nat, e: CaptureEvent, k: nat)
    requires n <= |recs| && From(h, start, recs[..n], e, k)
    ensures From(h, start, recs, e, k)
  {
    assert recs[..n][..k + 1] == recs[..k + 1];
  }

  /**
   Sessions never bleed: in any stream, in any interleaving, every event carries the
   session of the last record up to its own that names one, else the initial session.
   */
  lemma {:induction false} SessionsTracked(h: Host, s: State, recs: seq<RawRecord>)
    ensures var r := Run(Source.Cursor, Planned(h), s, recs);
      && r.0.sessionId == CurrentSession(h, s.sessionId, recs)
      && forall e | e in r.1 :: exists k: nat :: From(h, s.sessionId, recs, e, k)
  {
    if recs != [] {
      var n := |recs| - 1;
      var init, last := recs[..n], recs[n];
      assert recs == init + [last] && recs[..n + 1] == recs;
      SessionsTracked(h, s, init);
      RunSnoc(Source.Cursor, Planned(h), s, init, last);
      var t := Run(Source.Cursor, Planned(h), s, init);
      RecordStamps(h, t.0, last);
      var step := Exec(Source.Cursor, last, t.0, Plan(h, last));
      forall e | e in t.1 + step.1 ensures exists k: nat :: From(h, s.sessionId, recs, e, k) {
        if e in t.1 {
          var k: nat :| From(h, s.sessionId, init, e, k);
          FromLonger(h, s.sessionId, recs, n, e, k);
        } else {
          assert From(h, s.sessionId, recs, e, n);
        }
      }
    }
  }

  // ---- Outcomes ------------------------------------------------------------

  function ResultId(base: string, res: Value, i: nat): string {
    StrField(res, "id").GetOr(base + ":result:" + Decimal(i))
  }

  /**
   A result keeps the outcome map in line with the stream exactly when it is emitted
   under a non-empty call id, or the map said the same already.
   */
  lemma {:induction false} ResultStepExactly(raw: RawRecord, s: State, base: string, ts: int, res: Value, i: nat)
    requires res.Obj?
    ensures var x := Exec(Source.Cursor, raw, s, ResultOps(base, ts, res, i));
      var callId, ok := ResultId(base, res, i), AsBool(Get(res, "ok")).GetOr(true);
      x.0.callOk == LastOutcomes(s.callOk, x.1)
      <==> (callId != "" && base + "#toolresult:" + callId !in s.seen)
           || (callId in s.callOk && s.callOk[callId] == ok)
  {
    var callId, ok := ResultId(base, res, i), AsBool(Get(res, "ok")).GetOr(true);
    OutcomeStepExactly(Source.Cursor, raw, s, callId, ok, base + "#toolresult:" + callId, Some(base), ts,
                       Get(res, "output").GetOr(Null));
  }

  /** No result of the record answers the empty id. */
  predicate NamesItsResults(h: Host, raw: RawRecord) {
    var v := ParseJsonLine(h, raw);
    v.Some? ==>
      var base, items := EventId(h, raw, Flattened(v.value)), AsArray(Get(Flattened(v.value), "toolResults")).GetOr([]);
      forall i | 0 <= i < |items| && items[i].Obj? :: ResultId(base, items[i], i) != ""
  }

  lemma ShownOne(op: Op)
    requires op.BindSession? || op.BindProject? || op.NameCall? || (op.Emit? && !op.kind.ToolResult?)
             || (op.Once? && OutcomesShown(op.body))
    ensures OutcomesShown([op])
  {
    assert [op][1..] == [] && OutcomesShown([op][1..]);
  }

  lemma ItemShown(section: Section, base: string, ts: int, item: Value, i: nat)
    requires section.ResultSection? && item.Obj? ==> ResultId(base, item, i) != ""
    ensures OutcomesShown(ItemOps(section, base, ts, item, i))
  {
    if item.Obj? {
      var ops := ItemOps(section, base, ts, item, i);
      var once := ops[|ops| - 1];
      var e := once.body[0];
      assert once.body == [e];
      if section.ResultSection? {
        assert Shows(e, ops[0].callId, ops[0].ok) && Shows(once, ops[0].callId, ops[0].ok);
        assert ops[2..] == [] && OutcomesShown(ops[2..]);
      } else {
        ShownOne(e);
        ShownOne(once);
        if section.CallSection? {
          ShownOne(ops[0]);
          ShownConcat([ops[0]], [once]);
          assert ops == [ops[0]] + [once];
        } else {
          assert ops == [once];
        }
      }
    }
  }

  lemma {:induction false} ItemsShown(section: Section, base: string, ts: int, items: seq<Value>)
    requires section.ResultSection? ==>
      forall i | 0 <= i < |items| && items[i].Obj? :: ResultId(base, items[i], i) != ""
    ensures OutcomesShown(ItemsOps(section, base, ts, items))
  {
    if items != [] {
      var n := |items| - 1;
      ItemsShown(section, base, ts, items[..n]);
      ItemShown(section, base, ts, items[n], n);
      ShownConcat(ItemsOps(section, base, ts, items[..n]), ItemOps(section, base, ts, items[n], n));
    }
  }

  lemma SectionsShown(base: string, ts: int, v: Value)
    requires var items := AsArray(Get(v, "toolResults")).GetOr([]);
      forall i | 0 <= i < |items| && items[i].Obj? :: ResultId(base, items[i], i) != ""
    ensures OutcomesShown(Sections(base, ts, v))
  {
    var a, b := SectionOps(CallSection, base, ts, v), SectionOps(ResultSection, base, ts, v);
    ItemsShown(CallSection, base, ts, AsArray(Get(v, "toolCalls")).GetOr([]));
    ItemsShown(ResultSection, base, ts, AsArray(Get(v, "toolResults")).GetOr([]));
    ItemsShown(EditSection, base, ts, AsArray(Get(v, "edits")).GetOr([]));
    ShownConcat(a, b);
    ShownConcat(a + b, SectionOps(EditSection, base, ts, v));
  }

  lemma MessageShown(h: Host, raw: RawRecord, v: Value)
    requires var base, items := EventId(h, raw, v), AsArray(Get(v, "toolResults")).GetOr([]);
      forall i | 0 <= i < |items| && items[i].Obj? :: ResultId(base, items[i], i) != ""
    ensures OutcomesShown(MessageOps(h, raw, v))
  {
    var base, ts := EventId(h, raw, v), Timestamp(h, v);
    ShownOne(Emit(base, Parent(v), ts, TurnKind(v)));
    SectionsShown(base, ts, v);
    ShownConcat([Emit(base, Parent(v), ts, TurnKind(v))], Sections(base, ts, v));
    ShownOne(Once(base, MessageBody(h, raw, v)));
  }

  lemma DispatchedShown(h: Host, raw: RawRecord, v: Value)
    requires var w := Flattened(v);
      var base, items := EventId(h, raw, w), AsArray(Get(w, "toolResults")).GetOr([]);
      forall i | 0 <= i < |items| && items[i].Obj? :: ResultId(base, items[i], i) != ""
    ensures OutcomesShown(Dispatched(h, raw, v))
  {
    StartShown(h, raw, v);
    EndShown(h, raw, v);
    MessageShown(h, raw, Flattened(v));
    ShownOne(UnknownOp(h, raw, v));
  }

  lemma StartShown(h: Host, raw: RawRecord, v: Value)
    ensures OutcomesShown(StartOps(h, raw, v))
  {
    var ops := StartOps(h, raw, v);
    GuardShown(ops[1].guard, ops[1].body[0]);
    ShownOne(ops[0]);
    ShownConcat([ops[0]], [ops[1]]);
    assert ops == [ops[0]] + [ops[1]];
  }

  lemma EndShown(h: Host, raw: RawRecord, v: Value)
    ensures OutcomesShown(EndOps(h, raw, v))
  {
    var ops := EndOps(h, raw, v);
    GuardShown(ops[0].guard, ops[0].body[0]);
  }

  lemma GuardShown(g: string, e: Op)
    requires e.Emit? && !e.kind.ToolResult?
    ensures OutcomesShown([Once(g, [e])])
  {
    ShownOne(e);
    ShownOne(Once(g, [e]));
  }

  lemma PlanShown(h: Host, raw: RawRecord)
    requires NamesItsResults(h, raw)
    ensures OutcomesShown(Plan(h, raw))
  {
    var v := ParseJsonLine(h, raw);
    if v.None? {
      ShownOne(UnknownOp(h, raw, Str(h.text(raw.bytes))));
    } else if !v.value.Obj? {
      ShownOne(UnknownOp(h, raw, v.value));
    } else {
      var sid, rest := SessionOf(v.value), Dispatched(h, raw, v.value);
      DispatchedShown(h, raw, v.value);
      if sid.Some? {
        ShownOne(BindSession(sid.value));
        ShownConcat([BindSession(sid.value)], rest);
      } else {
        assert [] + rest == rest;
      }
    }
  }

  function Planning(h: Host): RecordPlanner {
    (raw: RawRecord) => Plan(h, raw)
  }

  /**
   Over any stream whose guarded ids are distinct and whose results name their
   calls, the outcome map is exactly what the emitted results say.
   */
  lemma {:induction false} OutcomesMirror(h: Host, s: State, recs: seq<RawRecord>)
    requires NoDups(RunGuards(Planning(h), recs)) && Unseen(RunGuards(Planning(h), recs), s.seen)
    requires forall raw | raw in recs :: NamesItsResults(h, raw)
    ensures var r := Run(Source.Cursor, Steady(Planning(h)), s, recs);
      r.0.callOk == LastOutcomes(s.callOk, r.1)
  {
    forall raw | raw in recs ensures OutcomesShown(Planning(h)(raw)) {
      PlanShown(h, raw);
    }
    RunShows(Source.Cursor, Planning(h), s, recs);
  }

  function ResultValue(ok: bool): Value {
    Obj(map["id" := Str("c"), "ok" := Bool(ok)])
  }

  /** A message that reports one call twice, first as a success, then as a failure. */
  const ANSWERED_TWICE: Value :=
    Obj(map["id" := Str("m"), "role" := Str("assistant"),
        "toolResults" := Arr([ResultValue(true), ResultValue(false)])])

  /** Two results for one call: the map holds the second outcome, the stream says the first. */
  lemma TwoResults(
      raw: RawRecord, s: State, base: string, ts: int, first: Value, second: Value, callId: string, okA: bool,
      okB: bool)
    requires first.Obj? && ResultId(base, first, 0) == callId && AsBool(Get(first, "ok")).GetOr(true) == okA
    requires second.Obj? && ResultId(base, second, 1) == callId && AsBool(Get(second, "ok")).GetOr(true) == okB
    requires callId != "" && base + "#toolresult:" + callId !in s.seen
    ensures var x := Exec(Source.Cursor, raw, s, ItemsOps(ResultSection, base, ts, [first, second]));
      && x.0.callOk == s.callOk[callId := okB]
      && LastOutcomes(s.callOk, x.1) == s.callOk[callId := okA]
  {
    var a, b := ResultOps(base, ts, first, 0), ResultOps(base, ts, second, 1);
    TwoItems(base, ts, first, second);
    ExecConcat(Source.Cursor, raw, s, a, b);
    ResultRuns(raw, s, base, ts, first, 0, callId, okA);
    var x := Exec(Source.Cursor, raw, s, a);
    ResultRuns(raw, x.0, base, ts, second, 1, callId, okB);
    SecondSilent(s.callOk, x.1, Exec(Source.Cursor, raw, x.0, b).1, callId, okA, okB);
  }

  lemma SecondSilent(
      known: map<string, bool>, x: seq<CaptureEvent>, y: seq<CaptureEvent>, callId: string, okA: bool, okB: bool)
    requires LastOutcomes(known, x) == known[callId := okA] && y == []
    ensures LastOutcomes(known, x + y) == known[callId := okA]
    ensures known[callId := okA][callId := okB] == known[callId := okB]
  {
    assert x + y == x;
  }

  lemma TwoItems(base: string, ts: int, first: Value, second: Value)
    ensures ItemsOps(ResultSection, base, ts, [first, second])
      == ResultOps(base, ts, first, 0) + ResultOps(base, ts, second, 1)
  {
    var items := [first, second];
    assert items[..1] == [first] && [first][..0] == [];
    var a := ResultOps(base, ts, first, 0);
    assert ItemsOps(ResultSection, base, ts, [first]) == [] + a && [] + a == a;
  }

  lemma ResultRuns(raw: RawRecord, s: State, base: string, ts: int, res: Value, i: nat, callId: string, ok: bool)
    requires res.Obj? && ResultId(base, res, i) == callId && AsBool(Get(res, "ok")).GetOr(true) == ok && callId != ""
    ensures var x, id := Exec(Source.Cursor, raw, s, ResultOps(base, ts, res, i)), base + "#toolresult:" + callId;
      && x.0.callOk == s.callOk[callId := ok] && x.0.seen == s.seen + {id}
      && (if id in s.seen then x.1 == [] else forall known :: LastOutcomes(known, x.1) == known[callId := ok])
  {
    OutcomeRuns(Source.Cursor, raw, s, callId, ok, base + "#toolresult:" + callId, Some(base), ts,
                Get(res, "output").GetOr(Null));
  }

  /** The stream of this one record says the call succeeded; the map says it failed. */
  lemma {:induction false} AnsweredTwiceDiverges(h: Host, raw: RawRecord)
    requires ParseJsonLine(h, raw) == Some(ANSWERED_TWICE)
    ensures var r := Run(Source.Cursor, Steady(Planning(h)), FRESH, [raw]);
      r.0.callOk == map["c" := false] && LastOutcomes(map[], r.1) == map["c" := true]
  {
    TwiceFields();
    assert "m" + "#toolresult:" + "c" != "m";
    ResultsDiverge(h, raw, ANSWERED_TWICE, "m", ResultValue(true), ResultValue(false), "c", true, false);
    assert map[]["c" := false] == map["c" := false] && map[]["c" := true] == map["c" := true];
  }

  /** A first record with two results for one call. */
  lemma ResultsDiverge(
      h: Host, raw: RawRecord, v: Value, id: string, yes: Value, no: Value, callId: string, okA: bool, okB: bool)
    requires ParseJsonLine(h, raw) == Some(v) && ResultsOnly(v, id, [yes, no])
    requires yes.Obj? && StrField(yes, "id") == Some(callId) && AsBool(Get(yes, "ok")).GetOr(true) == okA
    requires no.Obj? && StrField(no, "id") == Some(callId) && AsBool(Get(no, "ok")).GetOr(true) == okB
    requires callId != "" && id + "#toolresult:" + callId != id
    ensures var r := Run(Source.Cursor, Steady(Planning(h)), FRESH, [raw]);
      r.0.callOk == map[][callId := okB] && LastOutcomes(map[], r.1) == map[][callId := okA]
  {
    var first := Emit(id, None, Timestamp(h, v), TurnKind(v));
    ResultsPlanned(h, raw, v, id, [yes, no]);
    TurnIsNoResult(v);
    TwiceRuns(raw, FRESH, first, yes, no, callId, okA, okB);
    RunOne(h, raw);
  }

  lemma TurnIsNoResult(v: Value)
    ensures !TurnKind(v).ToolResult?
  {
  }

  lemma TwiceRuns(
      raw: RawRecord, s: State, first: Op, yes: Value, no: Value, callId: string, okA: bool, okB: bool)
    requires first.Emit? && !first.kind.ToolResult?
    requires yes.Obj? && StrField(yes, "id") == Some(callId) && AsBool(Get(yes, "ok")).GetOr(true) == okA
    requires no.Obj? && StrField(no, "id") == Some(callId) && AsBool(Get(no, "ok")).GetOr(true) == okB
    requires var key := first.eventId + "#toolresult:" + callId;
      callId != "" && key !in s.seen && first.eventId !in s.seen && key != first.eventId
    ensures var x := Exec(Source.Cursor, raw, s, [Once(first.eventId,
        [first] + ItemsOps(ResultSection, first.eventId, first.timestamp, [yes, no]))]);
      x.0.callOk == s.callOk[callId := okB] && LastOutcomes(s.callOk, x.1) == s.callOk[callId := okA]
  {
    var id, ts := first.eventId, first.timestamp;
    var t := s.(seen := s.seen + {id}, nextSeq := s.nextSeq + 1);
    MessageRuns(raw, s, first, ItemsOps(ResultSection, id, ts, [yes, no]));
    TwoResults(raw, t, id, ts, yes, no, callId, okA, okB);
  }

  /** A flat message that holds results only. */
  predicate ResultsOnly(v: Value, id: string, results: seq<Value>) {
    && v.Obj? && StrField(v, "id") == Some(id) && StrField(v, "role").Some? && StrField(v, "kind").None?
    && SessionOf(v).None? && Parent(v).None? && Blocks(v).None?
    && Get(v, "toolCalls").None? && Get(v, "edits").None? && Get(v, "toolResults") == Some(Arr(results))
  }

  lemma TwiceFields()
    ensures ResultsOnly(ANSWERED_TWICE, "m", [ResultValue(true), ResultValue(false)])
  {
  }

  lemma ResultsPlanned(h: Host, raw: RawRecord, v: Value, id: string, results: seq<Value>)
    requires ParseJsonLine(h, raw) == Some(v) && ResultsOnly(v, id, results)
    ensures var ts := Timestamp(h, v);
      Plan(h, raw) == [Once(id, [Emit(id, None, ts, TurnKind(v))] + ItemsOps(ResultSection, id, ts, results))]
  {
    var ts := Timestamp(h, v);
    var ops := ItemsOps(ResultSection, id, ts, results);
    assert Sections(id, ts, v) == [] + ops + [];
    assert [] + ops + [] == ops;
    assert [] + MessageOps(h, raw, v) == MessageOps(h, raw, v);
  }

  lemma MessageRuns(raw: RawRecord, s: State, first: Op, ops: seq<Op>)
    requires first.Emit? && first.eventId !in s.seen && !first.kind.ToolResult?
    ensures var t := s.(seen := s.seen + {first.eventId}, nextSeq := s.nextSeq + 1);
      var x, y := Exec(Source.Cursor, raw, s, [Once(first.eventId, [first] + ops)]), Exec(Source.Cursor, raw, t, ops);
      x.0 == y.0 && LastOutcomes(s.callOk, x.1) == LastOutcomes(s.callOk, y.1)
  {
    var t := s.(seen := s.seen + {first.eventId});
    ExecOne(Source.Cursor, raw, s, Once(first.eventId, [first] + ops));
    ExecConcat(Source.Cursor, raw, t, [first], ops);
    ExecOne(Source.Cursor, raw, t, first);
    var x := Exec(Source.Cursor, raw, t, [first]);
    assert x.1[1..] == [];
    LastOutcomesConcat(s.callOk, x.1, Exec(Source.Cursor, raw, x.0, ops).1);
  }

  lemma RunOne(h: Host, raw: RawRecord)
    ensures Run(Source.Cursor, Steady(Planning(h)), FRESH, [raw]) == Exec(Source.Cursor, raw, FRESH, Plan(h, raw))
  {
    RunSnoc(Source.Cursor, Steady(Planning(h)), FRESH, [], raw);
    var x := Exec(Source.Cursor, raw, FRESH, Plan(h, raw));
    assert [] + [raw] == [raw] && [] + x.1 == x.1;
  }
}
