/**
 Tool calls in flat chat records: how a call and its result are written into a
 record, and what the parser says for them.
 */
module ChatTools {
  import opened Wrappers
  import opened Json
  import opened Events
  import opened Ctx
  import opened CtxFirings
  import opened ChatPlan
  import Permutations

  datatype Outcome = Outcome(ok: bool, output: Value)

  /** A tool part: its call, and the outcome once it has one. */
  datatype Tool = Tool(callId: string, name: string, input: Value, outcome: Option<Outcome>)

  function CallValue(t: Tool): Value {
    Obj(map["id" := Str(t.callId), "name" := Str(t.name), "args" := t.input])
  }

  function ResultValue(t: Tool): Value
    requires t.outcome.Some?
  {
    Obj(map["id" := Str(t.callId), "ok" := Bool(t.outcome.value.ok), "output" := t.outcome.value.output])
  }

  function CallValues(tools: seq<Tool>): seq<Value> {
    seq(|tools|, i requires 0 <= i < |tools| => CallValue(tools[i]))
  }

  function ResultValues(tools: seq<Tool>): seq<Value> {
    if tools == [] then []
    else OwnResults(tools[0]) + ResultValues(tools[1..])
  }

  function OwnResults(t: Tool): seq<Value> {
    if t.outcome.Some? then [ResultValue(t)] else []
  }

  lemma {:induction false} ResultsSnoc(tools: seq<Tool>, t: Tool)
    ensures ResultValues(tools + [t]) == ResultValues(tools) + OwnResults(t)
  {
    if tools == [] {
      assert tools + [t] == [t];
      assert [t][1..] == [];
      assert OwnResults(t) + [] == [] + OwnResults(t);
    } else {
      assert (tools + [t])[1..] == tools[1..] + [t];
      ResultsSnoc(tools[1..], t);
      var a, b, c := OwnResults(tools[0]), ResultValues(tools[1..]), OwnResults(t);
      assert a + (b + c) == a + b + c;
    }
  }

  // ---- A call finds its own result ------------------------------------------------------

  ghost predicate DistinctCalls(tools: seq<Tool>) {
    forall i, j | 0 <= i < j < |tools| :: tools[i].callId != tools[j].callId
  }

  lemma FindStep(t: Tool, rest: seq<Value>, callId: string)
    ensures FindResult(OwnResults(t) + rest, callId)
      == if t.outcome.Some? && t.callId == callId then Some(ResultValue(t)) else FindResult(rest, callId)
  {
    if t.outcome.Some? {
      assert (OwnResults(t) + rest)[1..] == rest;
      assert StrField(ResultValue(t), "id") == Some(t.callId);
    } else {
      assert OwnResults(t) + rest == rest;
    }
  }

  lemma {:induction false} FindAbsent(tools: seq<Tool>, callId: string)
    requires forall i | 0 <= i < |tools| :: tools[i].callId != callId
    ensures FindResult(ResultValues(tools), callId).None?
  {
    if tools != [] {
      FindAbsent(tools[1..], callId);
      FindStep(tools[0], ResultValues(tools[1..]), callId);
    }
  }

  function OwnResult(t: Tool): Option<Value> {
    if t.outcome.Some? then Some(ResultValue(t)) else None
  }

  lemma {:induction false} FindOwn(tools: seq<Tool>, k: nat)
    requires DistinctCalls(tools) && k < |tools|
    ensures FindResult(ResultValues(tools), tools[k].callId) == OwnResult(tools[k])
  {
    FindStep(tools[0], ResultValues(tools[1..]), tools[k].callId);
    if k == 0 {
      FindAbsent(tools[1..], tools[0].callId);
    } else {
      FindOwn(tools[1..], k - 1);
    }
  }

  // ---- What tools say ------------------------------------------------------------

  /** A tool part: its call, and right after it its result once it completed or failed. */
  function ToolSays(session: string, eventId: string, ts: int, t: Tool): seq<Said> {
    [Said(Some(session), t.callId + ":call", Some(eventId), ts, ToolCall(t.callId, t.name, t.input))]
    + match t.outcome
      case Some(o) =>
        [Said(Some(session), t.callId + ":result", Some(eventId), ts, ToolResult(t.callId, o.ok, o.output))]
      case None => []
  }

  function ToolsSay(session: string, eventId: string, ts: int, tools: seq<Tool>): seq<Said> {
    if tools == [] then []
    else ToolsSay(session, eventId, ts, tools[..|tools| - 1]) + ToolSays(session, eventId, ts, tools[|tools| - 1])
  }

  function ToolIds(t: Tool): seq<string> {
    [t.callId + ":call"] + if t.outcome.Some? then [t.callId + ":result"] else []
  }

  function ToolsIds(tools: seq<Tool>): seq<string> {
    if tools == [] then [] else ToolsIds(tools[..|tools| - 1]) + ToolIds(tools[|tools| - 1])
  }

  // ---- One tool ------------------------------------------------------------

  lemma CallRead(eventId: string, t: Tool, n: nat)
    ensures CallValue(t).Obj? && CallId(eventId, CallValue(t), n) == t.callId
    ensures TextField(CallValue(t), "name") == t.name && Get(CallValue(t), "args").GetOr(Null) == t.input
  {
  }

  lemma ResultRead(t: Tool)
    requires t.outcome.Some?
    ensures ResultOk(ResultValue(t)) == t.outcome.value.ok && ResultOutput(ResultValue(t)) == t.outcome.value.output
  {
  }

  lemma ResultFires(session: Option<string>, eventId: string, ts: int, t: Tool)
    ensures var ops := ResultOps(eventId, ts, t.callId, OwnResult(t));
      && Fire(session, ops) == (session, match t.outcome
          case Some(o) => [Said(session, t.callId + ":result", Some(eventId), ts, ToolResult(t.callId, o.ok, o.output))]
          case None => [])
      && Guards(ops) == if t.outcome.Some? then [t.callId + ":result"] else []
  {
    if t.outcome.Some? {
      ResultRead(t);
      var ops := ResultOps(eventId, ts, t.callId, OwnResult(t));
      assert ops == [ops[0]] + [ops[1]];
      FireConcat(session, [ops[0]], [ops[1]]);
      GuardsConcat([ops[0]], [ops[1]]);
      FireOne(session, ops[0]);
      GuardsOne(ops[0]);
      var o := t.outcome.value;
      GuardedEvent(session, t.callId + ":result", Some(eventId), ts, ToolResult(t.callId, o.ok, o.output));
      assert [] + Fire(session, [ops[1]]).1 == Fire(session, [ops[1]]).1;
      assert [] + Guards([ops[1]]) == Guards([ops[1]]);
    }
  }

  lemma ToolFires(session: string, eventId: string, ts: int, t: Tool, n: nat, results: seq<Value>)
    requires FindResult(results, t.callId) == OwnResult(t)
    ensures var ops := OneCall(eventId, ts, CallValue(t), n, results);
      Fire(Some(session), ops) == (Some(session), ToolSays(session, eventId, ts, t)) && Guards(ops) == ToolIds(t)
  {
    CallRead(eventId, t, n);
    ResultFires(Some(session), eventId, ts, t);
    var call := CallOp(eventId, ts, t.callId, CallValue(t));
    var tail := ResultOps(eventId, ts, t.callId, OwnResult(t));
    GuardedEvent(Some(session), t.callId + ":call", Some(eventId), ts, ToolCall(t.callId, t.name, t.input));
    FireConcat(Some(session), [call], tail);
    GuardsConcat([call], tail);
  }

  /** The first tools of a record, parsed against the results of all of them. */
  lemma {:induction false} ToolsFire(session: string, eventId: string, ts: int, init: seq<Tool>, rest: seq<Tool>)
    requires DistinctCalls(init + rest)
    ensures var ops := CallsOps(eventId, ts, CallValues(init), ResultValues(init + rest));
      && Fire(Some(session), ops) == (Some(session), ToolsSay(session, eventId, ts, init))
      && Guards(ops) == ToolsIds(init)
  {
    if init == [] {
      assert CallValues(init) == [];
    } else {
      var before, t := init[..|init| - 1], init[|init| - 1];
      assert init == before + [t];
      assert before + ([t] + rest) == init + rest;
      ToolsFire(session, eventId, ts, before, [t] + rest);
      FindOwn(init + rest, |before|);
      ToolAdded(session, eventId, ts, before, t, ResultValues(init + rest));
    }
  }

  lemma CallsSnoc(eventId: string, ts: int, init: seq<Tool>, t: Tool, results: seq<Value>)
    ensures CallsOps(eventId, ts, CallValues(init + [t]), results)
      == CallsOps(eventId, ts, CallValues(init), results) + OneCall(eventId, ts, CallValue(t), |init|, results)
  {
    var calls := CallValues(init + [t]);
    assert calls[..|init|] == CallValues(init) && calls[|init|] == CallValue(t);
  }

  lemma {:induction false} ToolAdded(
      session: string, eventId: string, ts: int, init: seq<Tool>, t: Tool, results: seq<Value>)
    requires FindResult(results, t.callId) == OwnResult(t)
    requires var ops := CallsOps(eventId, ts, CallValues(init), results);
      Fire(Some(session), ops) == (Some(session), ToolsSay(session, eventId, ts, init)) && Guards(ops) == ToolsIds(init)
    ensures var ops := CallsOps(eventId, ts, CallValues(init + [t]), results);
      && Fire(Some(session), ops) == (Some(session), ToolsSay(session, eventId, ts, init + [t]))
      && Guards(ops) == ToolsIds(init + [t])
  {
    var a, b := CallsOps(eventId, ts, CallValues(init), results), OneCall(eventId, ts, CallValue(t), |init|, results);
    CallsSnoc(eventId, ts, init, t, results);
    ToolFires(session, eventId, ts, t, |init|, results);
    FireConcat(Some(session), a, b);
    GuardsConcat(a, b);
    assert (init + [t])[..|init|] == init;
  }

  lemma {:induction false} CallIdDistinct(tools: seq<Tool>)
    requires NoDups(ToolsIds(tools))
    ensures DistinctCalls(tools)
  {
    if tools != [] {
      var init, last := tools[..|tools| - 1], tools[|tools| - 1];
      NoDupsSplit(ToolsIds(init), ToolIds(last));
      CallIdDistinct(init);
      forall i | 0 <= i < |init| ensures init[i].callId != last.callId {
        CallIdListed(init, i);
        assert last.callId + ":call" in ToolIds(last) by { assert ToolIds(last)[0] == last.callId + ":call"; }
      }
    }
  }

  lemma {:induction false} CallIdListed(tools: seq<Tool>, i: nat)
    requires i < |tools|
    ensures tools[i].callId + ":call" in ToolsIds(tools)
  {
    var n := |tools| - 1;
    if i < n {
      CallIdListed(tools[..n], i);
    } else {
      assert ToolIds(tools[n])[0] == tools[n].callId + ":call";
      assert ToolIds(tools[n])[0] in ToolIds(tools[n]);
    }
  }

  lemma {:induction false} TurnFires(session: string, id: string, ts: int, turn: EventKind, tools: seq<Tool>)
    requires NoDups([id] + ToolsIds(tools))
    ensures var ops := [Emit(id, None, ts, turn)] + CallsOps(id, ts, CallValues(tools), ResultValues(tools));
      && Fire(Some(session), ops)
         == (Some(session), [Said(Some(session), id, None, ts, turn)] + ToolsSay(session, id, ts, tools))
      && Guards(ops) == ToolsIds(tools)
  {
    var first := Emit(id, None, ts, turn);
    NoDupsSplit([id], ToolsIds(tools));
    CallIdDistinct(tools);
    assert tools + [] == tools;
    ToolsFire(session, id, ts, tools, []);
    var ops := CallsOps(id, ts, CallValues(tools), ResultValues(tools));
    FireConcat(Some(session), [first], ops);
    GuardsConcat([first], ops);
    FireOne(Some(session), first);
    GuardsOne(first);
    assert [] + Guards(ops) == Guards(ops);
  }

  // ---- A session header ------------------------------------------------------------

  function HeaderOps(session: string, ts: int, kind: EventKind): seq<Op> {
    var id := session + ":start";
    [BindSession(session)] + [Once(id, [BindProject(DEFAULT_PROJECT), Emit(id, None, ts, kind)])]
  }

  lemma HeaderFires(before: Option<string>, session: string, ts: int, kind: EventKind)
    ensures Fire(before, HeaderOps(session, ts, kind))
      == (Some(session), [Said(Some(session), session + ":start", None, ts, kind)])
    ensures Guards(HeaderOps(session, ts, kind)) == [session + ":start"]
  {
    var id := session + ":start";
    var bind, project, emit := BindSession(session), BindProject(DEFAULT_PROJECT), Emit(id, None, ts, kind);
    var body := [project] + [emit];
    var once := Once(id, body);
    assert body == [project, emit];
    assert HeaderOps(session, ts, kind) == [bind] + [once];
    FireConcat(before, [bind], [once]);
    GuardsConcat([bind], [once]);
    FireOne(before, bind);
    FireOne(Some(session), once);
    GuardsOne(bind);
    GuardsOne(once);
    FireConcat(Some(session), [project], [emit]);
    GuardsConcat([project], [emit]);
    FireOne(Some(session), project);
    FireOne(Some(session), emit);
    GuardsOne(project);
    GuardsOne(emit);
    var said := [Said(Some(session), id, None, ts, kind)];
    assert [] + said == said;
  }

  // ---- Records carried to the parser --------------------------------------------------

  /** The record text reads back as the record. */
  predicate ReadsBack(h: Host, render: Value -> string, v: Value) {
    h.text(render(v)) != "" && h.fromJson(h.text(render(v))) == Some(v)
  }

  /** Raw records, at whatever locations, that hold the printed values. */
  ghost predicate Carry(h: Host, render: Value -> string, recs: seq<RawRecord>, values: seq<Value>) {
    && |recs| == |values|
    && forall i | 0 <= i < |recs| :: recs[i].bytes == render(values[i]) && ReadsBack(h, render, values[i])
  }

  lemma CarrySplit(h: Host, render: Value -> string, recs: seq<RawRecord>, a: seq<Value>, b: seq<Value>)
    requires Carry(h, render, recs, a + b)
    ensures Carry(h, render, recs[..|a|], a) && Carry(h, render, recs[|a|..], b)
    ensures recs == recs[..|a|] + recs[|a|..]
  {
    forall i | 0 <= i < |a| ensures recs[i].bytes == render(a[i]) && ReadsBack(h, render, a[i]) {
      assert (a + b)[i] == a[i];
    }
    forall i | 0 <= i < |b| ensures recs[|a| + i].bytes == render(b[i]) && ReadsBack(h, render, b[i]) {
      assert (a + b)[|a| + i] == b[i];
    }
  }

  // ---- Reading what was said ------------------------------------------------------

  /** Every result stands right after the call it answers, under the same parent. */
  ghost predicate Paired(ws: seq<Said>) {
    forall i | 0 <= i < |ws| && ws[i].kind.ToolResult? :: i > 0 && Answers(ws[i - 1], ws[i])
  }

  predicate Answers(call: Said, result: Said)
    requires result.kind.ToolResult?
  {
    call.kind.ToolCall? && call.kind.callId == result.kind.callId
    && call.parentId == result.parentId && call.session == result.session
  }

  lemma PairedConcat(a: seq<Said>, b: seq<Said>)
    requires Paired(a) && Paired(b)
    ensures Paired(a + b)
  {
    var c := a + b;
    forall i | 0 <= i < |c| && c[i].kind.ToolResult? ensures i > 0 && Answers(c[i - 1], c[i]) {
      if i >= |a| {
        assert b[i - |a|].kind.ToolResult?;
        assert i - |a| > 0;
        assert c[i - 1] == b[i - |a| - 1];
      }
    }
  }

  lemma {:induction false} ToolsPaired(session: string, eventId: string, ts: int, tools: seq<Tool>)
    ensures Paired(ToolsSay(session, eventId, ts, tools))
  {
    if tools != [] {
      var n := |tools| - 1;
      ToolsPaired(session, eventId, ts, tools[..n]);
      PairedConcat(ToolsSay(session, eventId, ts, tools[..n]), ToolSays(session, eventId, ts, tools[n]));
    }
  }

  predicate IsCall(w: Said) {
    w.kind.ToolCall?
  }

  function CallCount(ws: seq<Said>): nat {
    Permutations.Count(ws, IsCall)
  }

  lemma CallCountConcat(a: seq<Said>, b: seq<Said>)
    ensures CallCount(a + b) == CallCount(a) + CallCount(b)
  {
    Permutations.CountConcat(a, b, IsCall);
  }

  lemma CallCountShort(ws: seq<Said>)
    ensures |ws| == 1 ==> CallCount(ws) == if IsCall(ws[0]) then 1 else 0
    ensures |ws| == 2 ==> CallCount(ws) == (if IsCall(ws[0]) then 1 else 0) + (if IsCall(ws[1]) then 1 else 0)
  {
    if |ws| == 1 {
      assert ws[..0] == [];
      assert CallCount(ws[..0]) == 0;
    } else if |ws| == 2 {
      CallCountShort(ws[..1]);
    }
  }

  lemma {:induction false} ToolsCounted(session: string, eventId: string, ts: int, tools: seq<Tool>)
    ensures CallCount(ToolsSay(session, eventId, ts, tools)) == |tools|
  {
    if tools != [] {
      var n := |tools| - 1;
      ToolsCounted(session, eventId, ts, tools[..n]);
      CallCountShort(ToolSays(session, eventId, ts, tools[n]));
      CallCountConcat(ToolsSay(session, eventId, ts, tools[..n]), ToolSays(session, eventId, ts, tools[n]));
    }
  }
}
