/** Which calls of a chat stream are reported, and which are lost because their id came before. */
module ChatReports {
  import opened Wrappers
  import opened Json
  import opened Events
  import opened Ctx
  import opened CtxLaws
  import opened CtxFirings
  import opened ChatPlan
  import opened ChatTools
  import ChatLaws

  // ---- Calls offered and calls reported -------------------------------------------------

  function CallGuard(callId: string): string {
    callId + ":call"
  }

  /** The ids under which a message offers its calls, in order. */
  function CallIds(eventId: string, calls: seq<Value>): seq<string> {
    if calls == [] then []
    else
      var n := |calls| - 1;
      var ids := CallIds(eventId, calls[..n]);
      if calls[n].Obj? then ids + [CallId(eventId, calls[n], n)] else ids
  }

  /** The call ids that events report. */
  function Reported(evs: seq<CaptureEvent>): seq<string> {
    if evs == [] then []
    else
      var n := |evs| - 1;
      if evs[n].kind.ToolCall? then Reported(evs[..n]) + [evs[n].kind.callId] else Reported(evs[..n])
  }

  lemma {:induction false} ReportedConcat(a: seq<CaptureEvent>, b: seq<CaptureEvent>)
    ensures Reported(a + b) == Reported(a) + Reported(b)
  {
    if b == [] {
      assert a + b == a;
      assert Reported(a) + [] == Reported(a);
    } else {
      var n := |b| - 1;
      assert (a + b)[..|a| + n] == a + b[..n];
      ReportedConcat(a, b[..n]);
      var x, y := Reported(a), Reported(b[..n]);
      if b[n].kind.ToolCall? {
        assert x + (y + [b[n].kind.callId]) == x + y + [b[n].kind.callId];
      }
    }
  }

  lemma ReportedOne(e: CaptureEvent)
    ensures Reported([e]) == if e.kind.ToolCall? then [e.kind.callId] else []
  {
    assert [e][..0] == [];
    assert Reported([e][..0]) == [];
  }

  // ---- The new ids among those offered ----------------------------------------------------

  /** The ids whose guard is unseen, each where it comes first. */
  function FirstNew(ids: seq<string>, seen: set<string>): seq<string> {
    if ids == [] then []
    else
      var n := |ids| - 1;
      if CallGuard(ids[n]) in seen || ids[n] in ids[..n] then FirstNew(ids[..n], seen)
      else FirstNew(ids[..n], seen) + [ids[n]]
  }

  function NewIds(ids: seq<string>, seen: set<string>): set<string> {
    set c | c in ids && CallGuard(c) !in seen
  }

  /** They number the distinct unseen ids. */
  lemma {:induction false} FirstNewCount(ids: seq<string>, seen: set<string>)
    ensures NoDups(FirstNew(ids, seen))
    ensures forall c :: c in FirstNew(ids, seen) <==> c in NewIds(ids, seen)
    ensures |FirstNew(ids, seen)| == |NewIds(ids, seen)| <= |ids|
  {
    if ids != [] {
      var n := |ids| - 1;
      var init, last := ids[..n], ids[n];
      FirstNewCount(init, seen);
      assert ids == init + [last];
      if CallGuard(last) in seen || last in init {
        assert NewIds(ids, seen) == NewIds(init, seen);
      } else {
        assert NewIds(ids, seen) == NewIds(init, seen) + {last};
        assert last !in NewIds(init, seen);
      }
    }
  }

  /** Nothing is lost exactly when the ids are distinct and unseen. */
  lemma {:induction false} FirstNewAll(ids: seq<string>, seen: set<string>)
    ensures FirstNew(ids, seen) == ids <==> NoDups(ids) && forall c | c in ids :: CallGuard(c) !in seen
    ensures FirstNew(ids, seen) == ids <==> |FirstNew(ids, seen)| == |ids|
  {
    if ids != [] {
      var n := |ids| - 1;
      var init, last := ids[..n], ids[n];
      assert ids == init + [last];
      FirstNewCount(init, seen);
      FirstNewAll(init, seen);
      assert last in ids;
      if last in init {
        var i :| 0 <= i < n && init[i] == last;
        assert ids[i] == ids[n];
      }
      if NoDups(ids) {
        assert forall i, j | 0 <= i < j < |init| :: init[i] == ids[i] && init[j] == ids[j];
      }
    }
  }

  /** The ids of two stretches: those of the second are measured after the first. */
  lemma {:induction false} FirstNewConcat(a: seq<string>, b: seq<string>, before: set<string>, after: set<string>)
    requires forall c: string :: CallGuard(c) in after <==> CallGuard(c) in before || c in a
    ensures FirstNew(a + b, before) == FirstNew(a, before) + FirstNew(b, after)
  {
    if b == [] {
      assert a + b == a;
      assert FirstNew(a, before) + [] == FirstNew(a, before);
    } else {
      var n := |b| - 1;
      assert (a + b)[..|a| + n] == a + b[..n];
      FirstNewConcat(a, b[..n], before, after);
      assert b[n] in a + b[..n] <==> b[n] in a || b[n] in b[..n];
      var x, y := FirstNew(a, before), FirstNew(b[..n], after);
      assert x + (y + [b[n]]) == x + y + [b[n]];
    }
  }

  lemma FirstNewOne(c: string, seen: set<string>)
    ensures FirstNew([c], seen) == if CallGuard(c) in seen then [] else [c]
  {
    assert [c][..0] == [];
    assert FirstNew([c][..0], seen) == [];
  }

  /** Only the guards of calls matter. */
  lemma {:induction false} FirstNewSame(ids: seq<string>, a: set<string>, b: set<string>)
    requires forall c | c in ids :: CallGuard(c) in a <==> CallGuard(c) in b
    ensures FirstNew(ids, a) == FirstNew(ids, b)
  {
    if ids != [] {
      var n := |ids| - 1;
      FirstNewSame(ids[..n], a, b);
      assert ids[n] in ids;
    }
  }

  // ---- The calls of one message ----------------------------------------------------

  /** A guard of a call or of a result. */
  predicate ToolGuard(g: string) {
    (|g| >= 5 && g[|g| - 5..] == ":call") || (|g| >= 7 && g[|g| - 7..] == ":result")
  }

  /** What the guards of calls are after some operations, given the ids these offered. */
  ghost predicate Offering(before: set<string>, ids: seq<string>, after: set<string>) {
    && before <= after
    && (forall c: string :: CallGuard(c) in after <==> CallGuard(c) in before || c in ids)
    && forall g | g in after :: g in before || ToolGuard(g)
  }

  lemma OfferingConcat(a: set<string>, x: seq<string>, b: set<string>, y: seq<string>, c: set<string>)
    requires Offering(a, x, b) && Offering(b, y, c)
    ensures Offering(a, x + y, c)
  {
  }

  lemma GuardsApart(c: string, k: string)
    ensures CallGuard(k) != c + ":result" && (CallGuard(c) == CallGuard(k) ==> c == k)
    ensures ToolGuard(CallGuard(c)) && ToolGuard(c + ":result")
  {
    var g, r := CallGuard(k), c + ":result";
    assert g[|g| - 1] == 'l' && r[|r| - 1] == 't';
    assert r[|r| - 7..] == ":result" && CallGuard(c)[|c|..] == ":call";
    if CallGuard(c) == g {
      assert c == CallGuard(c)[..|c|] && k == g[..|k|];
    }
  }

  lemma ResultOffers(seen: set<string>, callId: string)
    ensures Offering(seen, [], seen + {callId + ":result"})
  {
    forall k: string ensures CallGuard(k) != callId + ":result" && ToolGuard(callId + ":result") {
      GuardsApart(callId, k);
    }
  }

  lemma CallOffers(seen: set<string>, callId: string)
    ensures Offering(seen, [callId], seen + {CallGuard(callId)})
  {
    forall k: string ensures (CallGuard(k) == CallGuard(callId) ==> k == callId) && ToolGuard(CallGuard(callId)) {
      GuardsApart(callId, k);
    }
  }

  lemma ResultReports(
      src: Source, raw: RawRecord, s: State, eventId: string, ts: int, callId: string, found: Option<Value>)
    ensures var x := Exec(src, raw, s, ResultOps(eventId, ts, callId, found));
      Reported(x.1) == [] && Offering(s.seen, [], x.0.seen)
  {
    if found.Some? {
      var id := callId + ":result";
      OutcomeRuns(src, raw, s, callId, ResultOk(found.value), id, Some(eventId), ts, ResultOutput(found.value));
      var x := Exec(src, raw, s, ResultOps(eventId, ts, callId, found));
      ResultOffers(s.seen, callId);
      if id !in s.seen {
        ReportedOne(x.1[0]);
        assert x.1 == [x.1[0]];
      }
    }
  }

  lemma CallReports(src: Source, raw: RawRecord, s: State, eventId: string, ts: int, callId: string, call: Value)
    ensures var x := Exec(src, raw, s, [CallOp(eventId, ts, callId, call)]);
      && Reported(x.1) == FirstNew([callId], s.seen)
      && Offering(s.seen, [callId], x.0.seen)
  {
    var op := CallOp(eventId, ts, callId, call);
    var e := op.body[0];
    assert op == Once(CallGuard(callId), [e]);
    OnceEmits(src, raw, s, CallGuard(callId), e);
    CallOffers(s.seen, callId);
    FirstNewOne(callId, s.seen);
    assert CallGuard(callId) in s.seen ==> s.seen + {CallGuard(callId)} == s.seen;
    if CallGuard(callId) !in s.seen {
      ReportedOne(Exec(src, raw, s, [op]).1[0]);
    }
  }

  lemma OneCallReports(
      src: Source, raw: RawRecord, s: State, eventId: string, ts: int, call: Value, i: nat, results: seq<Value>)
    requires call.Obj?
    ensures var x, c := Exec(src, raw, s, OneCall(eventId, ts, call, i, results)), CallId(eventId, call, i);
      && Reported(x.1) == FirstNew([c], s.seen)
      && Offering(s.seen, [c], x.0.seen)
  {
    var c := CallId(eventId, call, i);
    var op, tail := [CallOp(eventId, ts, c, call)], ResultOps(eventId, ts, c, FindResult(results, c));
    ExecConcat(src, raw, s, op, tail);
    CallReports(src, raw, s, eventId, ts, c, call);
    var x := Exec(src, raw, s, op);
    ResultReports(src, raw, x.0, eventId, ts, c, FindResult(results, c));
    var y := Exec(src, raw, x.0, tail);
    ReportedConcat(x.1, y.1);
    OfferingConcat(s.seen, [c], x.0.seen, [], y.0.seen);
    assert [c] + [] == [c];
    assert Reported(x.1) + [] == Reported(x.1);
  }

  /** The calls of a message are reported under their new ids, each once and in order. */
  lemma {:induction false} CallsReport(
      src: Source, raw: RawRecord, s: State, eventId: string, ts: int, calls: seq<Value>, results: seq<Value>)
    ensures var x := Exec(src, raw, s, CallsOps(eventId, ts, calls, results));
      Reported(x.1) == FirstNew(CallIds(eventId, calls), s.seen) && Offering(s.seen, CallIds(eventId, calls), x.0.seen)
  {
    if calls != [] {
      var n := |calls| - 1;
      var init, last := CallsOps(eventId, ts, calls[..n], results), OneCall(eventId, ts, calls[n], n, results);
      CallsReport(src, raw, s, eventId, ts, calls[..n], results);
      ExecConcat(src, raw, s, init, last);
      var x, ids := Exec(src, raw, s, init), CallIds(eventId, calls[..n]);
      var y := Exec(src, raw, x.0, last);
      ReportedConcat(x.1, y.1);
      if calls[n].Obj? {
        var c := CallId(eventId, calls[n], n);
        OneCallReports(src, raw, x.0, eventId, ts, calls[n], n, results);
        OfferingConcat(s.seen, ids, x.0.seen, [c], y.0.seen);
        FirstNewConcat(ids, [c], s.seen, x.0.seen);
      } else {
        assert y == (x.0, []) && x.1 + [] == x.1;
      }
    }
  }

  // ---- One record ------------------------------------------------------------

  /** Is the record a message with a user or assistant role? */
  predicate IsTurn(h: Host, raw: RawRecord) {
    var v := ParseJsonLine(h, raw);
    v.Some? && v.value.Obj? && StrField(v.value, "kind") != Some("session_start")
    && Get(v.value, "role").Some? && TextField(v.value, "role") in {"user", "assistant"}
  }

  /** The call ids a record offers. */
  function Offered(h: Host, raw: RawRecord): seq<string> {
    if !IsTurn(h, raw) then []
    else
      var v := ParseJsonLine(h, raw).value;
      CallIds(MessageId(h, raw, v), Calls(v))
  }

  /** The guard a record stands under, if it has one. */
  function Head(h: Host, raw: RawRecord): seq<string> {
    var v := ParseJsonLine(h, raw);
    if v.None? || !v.value.Obj? then []
    else if StrField(v.value, "kind") == Some("session_start") then [StartId(h, raw, v.value)]
    else if Get(v.value, "role").Some? then [MessageId(h, raw, v.value)]
    else []
  }

  lemma UnknownReports(src: Source, h: Host, raw: RawRecord, s: State, v: Value)
    ensures var x := Exec(src, raw, s, [UnknownOp(h, raw, v)]);
      Reported(x.1) == [] && x.0.seen == s.seen
  {
    ExecOne(src, raw, s, UnknownOp(h, raw, v));
    ReportedOne(ExecOp(src, raw, s, UnknownOp(h, raw, v)).1[0]);
  }

  lemma StartReports(h: Host, d: Dialect, raw: RawRecord, s: State, v: Value)
    ensures var x := Exec(d.src, raw, s, StartOps(h, d, raw, v));
      Reported(x.1) == [] && x.0.seen == s.seen + {StartId(h, raw, v)}
  {
    var id, body, sid := StartId(h, raw, v), StartBody(h, d, raw, v), StrField(v, "sessionId");
    var bind := if sid.Some? then [BindSession(sid.value)] else [];
    ExecConcat(d.src, raw, s, bind, [Once(id, body)]);
    var t := Exec(d.src, raw, s, bind).0;
    if sid.Some? { ExecOne(d.src, raw, s, BindSession(sid.value)); }
    ExecOne(d.src, raw, t, Once(id, body));
    assert t.seen == s.seen;
    if id !in s.seen {
      var u := t.(seen := t.seen + {id});
      assert body == [body[0]] + [body[1]];
      ExecConcat(d.src, raw, u, [body[0]], [body[1]]);
      ExecOne(d.src, raw, u, body[0]);
      ExecOne(d.src, raw, ExecOp(d.src, raw, u, body[0]).0, body[1]);
      var e := ExecOp(d.src, raw, ExecOp(d.src, raw, u, body[0]).0, body[1]).1;
      ReportedOne(e[0]);
      assert [] + ([] + e) == e;
    }
  }

  lemma {:induction false} MessageReports(h: Host, d: Dialect, raw: RawRecord, s: State, v: Value)
    requires TextField(v, "role") in {"user", "assistant"}
    ensures var x, id := Exec(d.src, raw, s, MessageOps(h, raw, v)), MessageId(h, raw, v);
      var ids := CallIds(id, Calls(v));
      if id in s.seen then x == (s, [])
      else Reported(x.1) == FirstNew(ids, s.seen + {id}) && Offering(s.seen + {id}, ids, x.0.seen)
  {
    var id, ts := MessageId(h, raw, v), TsFrom(h, v, ["ts", "timestamp"]);
    BodyIs(h, raw, v);
    GuardedReports(d.src, raw, s, MessageBody(h, raw, v)[0], ts, Calls(v), Results(v));
  }

  lemma {:induction false} GuardedReports(
      src: Source, raw: RawRecord, s: State, first: Op, ts: int, calls: seq<Value>, results: seq<Value>)
    requires first.Emit? && !first.kind.ToolCall?
    ensures var id, ids := first.eventId, CallIds(first.eventId, calls);
      var x := Exec(src, raw, s, [Once(id, [first] + CallsOps(id, ts, calls, results))]);
      if id in s.seen then x == (s, [])
      else Reported(x.1) == FirstNew(ids, s.seen + {id}) && Offering(s.seen + {id}, ids, x.0.seen)
  {
    var id := first.eventId;
    ExecOne(src, raw, s, Once(id, [first] + CallsOps(id, ts, calls, results)));
    if id !in s.seen {
      BodyReports(src, raw, s.(seen := s.seen + {id}), first, ts, calls, results);
    }
  }

  lemma BodyIs(h: Host, raw: RawRecord, v: Value)
    requires TextField(v, "role") in {"user", "assistant"}
    ensures var id, ts := MessageId(h, raw, v), TsFrom(h, v, ["ts", "timestamp"]);
      var turn := TurnKind(TextField(v, "role"), TextField(v, "text"));
      && turn.Some? && !turn.value.ToolCall?
      && MessageBody(h, raw, v) == [Emit(id, None, ts, turn.value)] + CallsOps(id, ts, Calls(v), Results(v))
  {
  }

  lemma BodyReports(
      src: Source, raw: RawRecord, s: State, first: Op, ts: int, calls: seq<Value>, results: seq<Value>)
    requires first.Emit? && !first.kind.ToolCall?
    ensures var x := Exec(src, raw, s, [first] + CallsOps(first.eventId, ts, calls, results));
      var ids := CallIds(first.eventId, calls);
      Reported(x.1) == FirstNew(ids, s.seen) && Offering(s.seen, ids, x.0.seen)
  {
    var ops := CallsOps(first.eventId, ts, calls, results);
    ExecConcat(src, raw, s, [first], ops);
    ExecOne(src, raw, s, first);
    var u := ExecOp(src, raw, s, first);
    CallsReport(src, raw, u.0, first.eventId, ts, calls, results);
    ReportedOne(u.1[0]);
    var x := Exec(src, raw, u.0, ops);
    ReportedConcat(u.1, x.1);
    assert [] + Reported(x.1) == Reported(x.1);
  }

  lemma OtherReports(h: Host, d: Dialect, raw: RawRecord, s: State, v: Value)
    requires TextField(v, "role") !in {"user", "assistant"}
    ensures var x := Exec(d.src, raw, s, MessageOps(h, raw, v));
      Reported(x.1) == [] && x.0.seen == s.seen + {MessageId(h, raw, v)}
  {
    var id, u := MessageId(h, raw, v), UnknownOp(h, raw, v);
    OnceEmits(d.src, raw, s, id, u);
    if id !in s.seen {
      ReportedOne(ExecOp(d.src, raw, s.(seen := s.seen + {id}), u).1[0]);
    }
  }

  /** A record reports its new call ids, unless its own id came before. */
  lemma {:induction false} RecordReports(h: Host, d: Dialect, raw: RawRecord, s: State)
    ensures var x, ids, head := Exec(d.src, raw, s, Plan(h, d, raw)), Offered(h, raw), Head(h, raw);
      if head != [] && head[0] in s.seen then Reported(x.1) == [] && x.0.seen == s.seen
      else
        var own := s.seen + if head == [] then {} else {head[0]};
        Reported(x.1) == FirstNew(ids, own) && Offering(own, ids, x.0.seen)
  {
    var v := ParseJsonLine(h, raw);
    if v.None? {
      UnknownReports(d.src, h, raw, s, Str(h.text(raw.bytes)));
    } else {
      UnknownReports(d.src, h, raw, s, v.value);
      if v.value.Obj? && StrField(v.value, "kind") == Some("session_start") {
        StartReports(h, d, raw, s, v.value);
      } else if v.value.Obj? && Get(v.value, "role").Some? {
        if TextField(v.value, "role") in {"user", "assistant"} {
          MessageReports(h, d, raw, s, v.value);
        } else {
          OtherReports(h, d, raw, s, v.value);
        }
      }
    }
    assert s.seen + {} == s.seen;
  }

  // ---- Whole streams ------------------------------------------------------------

  function Heads(h: Host, recs: seq<RawRecord>): seq<string> {
    if recs == [] then [] else Head(h, recs[0]) + Heads(h, recs[1..])
  }

  function AllOffered(h: Host, recs: seq<RawRecord>): seq<string> {
    if recs == [] then [] else Offered(h, recs[0]) + AllOffered(h, recs[1..])
  }

  /** Over any stream, in any order and with any repetitions, no call id is reported twice. */
  lemma {:induction false} ReportedOnce(h: Host, d: Dialect, s: State, recs: seq<RawRecord>)
    ensures var r := Run(d.src, Steady(ChatLaws.Planning(h, d)), s, recs);
      && NoDups(Reported(r.1)) && s.seen <= r.0.seen
      && forall c | c in Reported(r.1) :: CallGuard(c) !in s.seen && CallGuard(c) in r.0.seen
    decreases recs
  {
    if recs != [] {
      RecordReports(h, d, recs[0], s);
      var first := Exec(d.src, recs[0], s, Plan(h, d, recs[0]));
      var head := Head(h, recs[0]);
      FirstNewCount(Offered(h, recs[0]), s.seen + if head == [] then {} else {head[0]});
      ReportedOnce(h, d, first.0, recs[1..]);
      var rest := Run(d.src, Steady(ChatLaws.Planning(h, d)), first.0, recs[1..]);
      ReportedConcat(first.1, rest.1);
      NoDupsJoin(Reported(first.1), Reported(rest.1));
    }
  }

  lemma NoDupsJoin(a: seq<string>, b: seq<string>)
    requires NoDups(a) && NoDups(b) && forall x | x in a :: x !in b
    ensures NoDups(a + b)
  {
    forall i, j | 0 <= i < j < |a + b| ensures (a + b)[i] != (a + b)[j] {
      if i < |a| <= j {
        assert a[i] in a && b[j - |a|] in b;
      }
    }
  }

  /**
   Over a stream whose records have distinct ids, none of them the guard of a call or
   a result, the reported calls are the new ids among those offered, in order.
   */
  lemma {:induction false} StreamReports(h: Host, d: Dialect, s: State, recs: seq<RawRecord>)
    requires NoDups(Heads(h, recs)) && Unseen(Heads(h, recs), s.seen)
    requires forall g | g in Heads(h, recs) :: !ToolGuard(g)
    ensures Reported(Run(d.src, Steady(ChatLaws.Planning(h, d)), s, recs).1) == FirstNew(AllOffered(h, recs), s.seen)
    decreases recs
  {
    if recs != [] {
      var head, ids := Head(h, recs[0]), Offered(h, recs[0]);
      var later := Heads(h, recs[1..]);
      NoDupsSplit(head, later);
      UnseenSplit(head, later, s.seen);
      assert forall g | g in later :: g in head + later;
      StreamStep(h, d, s, recs[0], later);
      var first := Exec(d.src, recs[0], s, Plan(h, d, recs[0]));
      StreamReports(h, d, first.0, recs[1..]);
      FirstNewConcat(ids, AllOffered(h, recs[1..]), s.seen, first.0.seen);
      ReportedConcat(first.1, Run(d.src, Steady(ChatLaws.Planning(h, d)), first.0, recs[1..]).1);
    }
  }

  /** One record of such a stream: its new ids are reported, and the heads that follow stay unseen. */
  lemma StreamStep(h: Host, d: Dialect, s: State, raw: RawRecord, later: seq<string>)
    requires Unseen(Head(h, raw), s.seen) && Unseen(later, s.seen) && NoDups(Head(h, raw) + later)
    requires forall g | g in Head(h, raw) + later :: !ToolGuard(g)
    ensures var x, ids := Exec(d.src, raw, s, Plan(h, d, raw)), Offered(h, raw);
      && Reported(x.1) == FirstNew(ids, s.seen) && Unseen(later, x.0.seen)
      && forall c: string :: CallGuard(c) in x.0.seen <==> CallGuard(c) in s.seen || c in ids
  {
    var head, ids := Head(h, raw), Offered(h, raw);
    var own := s.seen + if head == [] then {} else {head[0]};
    RecordReports(h, d, raw, s);
    assert forall g | g in head :: g in head + later;
    HeadHarmless(s.seen, head, own);
    FirstNewSame(ids, own, s.seen);
    NoDupsSplit(head, later);
    forall i | 0 <= i < |later| ensures later[i] !in Exec(d.src, raw, s, Plan(h, d, raw)).0.seen {
      assert later[i] in later && later[i] in head + later;
    }
  }

  lemma HeadHarmless(seen: set<string>, head: seq<string>, own: set<string>)
    requires own == seen + (if head == [] then {} else {head[0]}) && forall g | g in head :: !ToolGuard(g)
    ensures forall c: string :: CallGuard(c) in own <==> CallGuard(c) in seen
  {
    forall c: string ensures CallGuard(c) in own <==> CallGuard(c) in seen {
      GuardsApart(c, c);
      if head != [] {
        assert head[0] in head;
      }
    }
  }

  /** So the calls reported number the distinct ids, and all are reported iff no id repeats. */
  lemma {:induction false} LossExactly(h: Host, d: Dialect, recs: seq<RawRecord>)
    requires NoDups(Heads(h, recs)) && forall g | g in Heads(h, recs) :: !ToolGuard(g)
    ensures var reported := Reported(Run(d.src, Steady(ChatLaws.Planning(h, d)), FRESH, recs).1);
      var offered := AllOffered(h, recs);
      && |reported| == |set c | c in offered|
      && (reported == offered <==> NoDups(offered))
      && (|reported| == |offered| <==> NoDups(offered))
  {
    var offered := AllOffered(h, recs);
    StreamReports(h, d, FRESH, recs);
    FirstNewCount(offered, {});
    FirstNewAll(offered, {});
    assert NewIds(offered, {}) == set c | c in offered;
  }

  // ---- Records that carry tools ----------------------------------------------------------

  function IdsOf(tools: seq<Tool>): seq<string> {
    seq(|tools|, i requires 0 <= i < |tools| => tools[i].callId)
  }

  /** Tools written into a record are offered under their own ids. */
  lemma {:induction false} ToolsOffered(eventId: string, tools: seq<Tool>)
    ensures CallIds(eventId, CallValues(tools)) == IdsOf(tools)
  {
    if tools == [] {
      assert CallValues(tools) == [];
    } else {
      var n := |tools| - 1;
      var calls := CallValues(tools);
      ToolsOffered(eventId, tools[..n]);
      assert calls[..n] == CallValues(tools[..n]) && calls[n] == CallValue(tools[n]);
      CallRead(eventId, tools[n], n);
      assert IdsOf(tools) == IdsOf(tools[..n]) + [tools[n].callId];
    }
  }

  ghost predicate AllNew(tools: seq<Tool>, seen: set<string>) {
    DistinctCalls(tools) && forall t | t in tools :: CallGuard(t.callId) !in seen
  }

  lemma AllNewIds(tools: seq<Tool>, seen: set<string>)
    ensures AllNew(tools, seen) <==> NoDups(IdsOf(tools)) && forall c | c in IdsOf(tools) :: CallGuard(c) !in seen
  {
    var ids := IdsOf(tools);
    assert forall i | 0 <= i < |tools| :: ids[i] == tools[i].callId;
    if AllNew(tools, seen) {
      forall c | c in ids ensures CallGuard(c) !in seen {
        var i :| 0 <= i < |ids| && ids[i] == c;
        assert tools[i] in tools;
      }
    }
    if forall c | c in ids :: CallGuard(c) !in seen {
      forall t | t in tools ensures CallGuard(t.callId) !in seen {
        var i :| 0 <= i < |tools| && tools[i] == t;
        assert ids[i] in ids;
      }
    }
  }

  /**
   A record seen for the first time reports as many calls as it has distinct new
   ids, and reports all of them iff its ids are distinct and new.
   */
  lemma {:induction false} ToolsReport(h: Host, d: Dialect, raw: RawRecord, s: State, id: string, tools: seq<Tool>)
    requires Head(h, raw) == [id] && id !in s.seen && Offered(h, raw) == IdsOf(tools)
    ensures var reported, own := Reported(Exec(d.src, raw, s, Plan(h, d, raw)).1), s.seen + {id};
      && reported == FirstNew(IdsOf(tools), own)
      && |reported| == |NewIds(IdsOf(tools), own)|
      && (reported == IdsOf(tools) <==> AllNew(tools, own))
      && (|reported| == |tools| <==> AllNew(tools, own))
  {
    RecordReports(h, d, raw, s);
    FirstNewCount(IdsOf(tools), s.seen + {id});
    FirstNewAll(IdsOf(tools), s.seen + {id});
    AllNewIds(tools, s.seen + {id});
  }

  /** Tools that all have one id offer that id alone. */
  lemma SharedId(tools: seq<Tool>, id: string, seen: set<string>)
    requires tools != [] && forall t | t in tools :: t.callId == id
    ensures NewIds(IdsOf(tools), seen) == if CallGuard(id) in seen then {} else {id}
  {
    var ids := IdsOf(tools);
    assert forall i | 0 <= i < |tools| :: tools[i] in tools && ids[i] == id;
    assert ids[0] == id;
  }
}
