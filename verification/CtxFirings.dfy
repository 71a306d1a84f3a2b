/**
 When no guard repeats, nothing is suppressed: a run says exactly what its
 operations say, in order.
 */
module CtxFirings {
  import opened Wrappers
  import opened Events
  import opened Ctx
  import opened CtxLaws

  /** What an event says, its number, project and location left aside. */
  datatype Said = Said(
    session: Option<string>, eventId: string, parentId: Option<string>, timestamp: int, kind: EventKind)

  predicate Says(e: CaptureEvent, w: Said) {
    && e.sessionId == w.session.GetOr("unknown") && e.eventId == w.eventId
    && e.parentId == w.parentId && e.timestamp == w.timestamp && e.kind == w.kind
  }

  ghost predicate SaysAll(evs: seq<CaptureEvent>, ws: seq<Said>) {
    |evs| == |ws| && forall i | 0 <= i < |evs| :: Says(evs[i], ws[i])
  }

  /** The guards of operations, nested ones included, in the order they are met. */
  function Guards(ops: seq<Op>): seq<string>
    decreases ops
  {
    if ops == [] then [] else OpGuards(ops[0]) + Guards(ops[1..])
  }

  function OpGuards(op: Op): seq<string>
    decreases op
  {
    if op.Once? then [op.guard] + Guards(op.body) else []
  }

  /** Everything operations say, guards ignored, and the session they leave. */
  function Fire(session: Option<string>, ops: seq<Op>): (Option<string>, seq<Said>)
    decreases ops
  {
    if ops == [] then (session, [])
    else
      var first := FireOp(session, ops[0]);
      var rest := Fire(first.0, ops[1..]);
      (rest.0, first.1 + rest.1)
  }

  function FireOp(session: Option<string>, op: Op): (Option<string>, seq<Said>)
    decreases op
  {
    match op
    case BindSession(id) => (Some(id), [])
    case Emit(id, parent, ts, kind) => (session, [Said(session, id, parent, ts, kind)])
    case Once(_, body) => Fire(session, body)
    case _ => (session, [])
  }

  ghost predicate NoDups(ids: seq<string>) {
    forall i, j | 0 <= i < j < |ids| :: ids[i] != ids[j]
  }

  ghost predicate Unseen(ids: seq<string>, seen: set<string>) {
    forall i | 0 <= i < |ids| :: ids[i] !in seen
  }

  /** Every id seen afterwards was seen before or is one of these guards. */
  predicate SeenWithin(before: set<string>, guards: seq<string>, after: set<string>) {
    forall x | x in after :: x in before || x in guards
  }

  lemma NoDupsSplit(a: seq<string>, b: seq<string>)
    requires NoDups(a + b)
    ensures NoDups(a) && NoDups(b) && forall x | x in a :: x !in b
  {
    var c := a + b;
    forall i, j | 0 <= i < |a| && 0 <= j < |b| ensures a[i] != b[j] {
      assert c[i] == a[i] && c[|a| + j] == b[j];
    }
    forall i, j | 0 <= i < j < |b| ensures b[i] != b[j] {
      assert c[|a| + i] == b[i] && c[|a| + j] == b[j];
    }
    forall i, j | 0 <= i < j < |a| ensures a[i] != a[j] {
      assert c[i] == a[i] && c[j] == a[j];
    }
  }

  lemma UnseenSplit(a: seq<string>, b: seq<string>, seen: set<string>)
    requires Unseen(a + b, seen)
    ensures Unseen(a, seen) && Unseen(b, seen)
  {
    var c := a + b;
    forall i | 0 <= i < |a| ensures a[i] !in seen { assert c[i] == a[i]; }
    forall j | 0 <= j < |b| ensures b[j] !in seen { assert c[|a| + j] == b[j]; }
  }

  /** After the guards of `a`, the distinct guards of `b` are still unseen. */
  lemma UnseenAfter(a: seq<string>, b: seq<string>, before: set<string>, after: set<string>)
    requires NoDups(a + b) && Unseen(a + b, before) && SeenWithin(before, a, after)
    ensures NoDups(b) && Unseen(b, after)
  {
    NoDupsSplit(a, b);
    UnseenSplit(a, b, before);
    forall j | 0 <= j < |b| ensures b[j] !in after {
      assert b[j] in b;
    }
  }

  lemma SeenChain(s0: set<string>, a: seq<string>, s1: set<string>, b: seq<string>, s2: set<string>)
    requires SeenWithin(s0, a, s1) && SeenWithin(s1, b, s2)
    ensures SeenWithin(s0, a + b, s2)
  {
  }

  lemma SaysConcat(e1: seq<CaptureEvent>, e2: seq<CaptureEvent>, w1: seq<Said>, w2: seq<Said>)
    requires SaysAll(e1, w1) && SaysAll(e2, w2)
    ensures SaysAll(e1 + e2, w1 + w2)
  {
  }

  lemma {:induction false} ExecFires(src: Source, raw: RawRecord, s: State, ops: seq<Op>)
    requires NoDups(Guards(ops)) && Unseen(Guards(ops), s.seen)
    ensures var r, f := Exec(src, raw, s, ops), Fire(s.sessionId, ops);
      r.0.sessionId == f.0 && SaysAll(r.1, f.1) && SeenWithin(s.seen, Guards(ops), r.0.seen)
      && s.seen <= r.0.seen && forall g | g in Guards(ops) :: g in r.0.seen
    decreases ops
  {
    if ops != [] {
      var a, b := OpGuards(ops[0]), Guards(ops[1..]);
      NoDupsSplit(a, b);
      UnseenSplit(a, b, s.seen);
      OpFires(src, raw, s, ops[0]);
      var first, f := ExecOp(src, raw, s, ops[0]), FireOp(s.sessionId, ops[0]);
      UnseenAfter(a, b, s.seen, first.0.seen);
      ExecFires(src, raw, first.0, ops[1..]);
      var rest, g := Exec(src, raw, first.0, ops[1..]), Fire(f.0, ops[1..]);
      SaysConcat(first.1, rest.1, f.1, g.1);
      SeenChain(s.seen, a, first.0.seen, b, rest.0.seen);
    }
  }

  lemma {:induction false} OpFires(src: Source, raw: RawRecord, s: State, op: Op)
    requires NoDups(OpGuards(op)) && Unseen(OpGuards(op), s.seen)
    ensures var r, f := ExecOp(src, raw, s, op), FireOp(s.sessionId, op);
      r.0.sessionId == f.0 && SaysAll(r.1, f.1) && SeenWithin(s.seen, OpGuards(op), r.0.seen)
      && s.seen <= r.0.seen && forall g | g in OpGuards(op) :: g in r.0.seen
    decreases op
  {
    if op.Once? {
      var g := op.guard;
      var t := s.(seen := s.seen + {g});
      FreshBody(s.seen, g, Guards(op.body));
      assert SeenWithin(s.seen, [g], t.seen);
      ExecFires(src, raw, t, op.body);
      SeenChain(s.seen, [g], t.seen, Guards(op.body), Exec(src, raw, t, op.body).0.seen);
    }
  }

  // ---- Whole runs ------------------------------------------------------------

  /** A plan that depends on the record alone. */
  type RecordPlanner = RawRecord -> seq<Op>

  function Steady(plan: RecordPlanner): Planner {
    (s: State, raw: RawRecord) => plan(raw)
  }

  function RunGuards(plan: RecordPlanner, recs: seq<RawRecord>): seq<string> {
    if recs == [] then [] else Guards(plan(recs[0])) + RunGuards(plan, recs[1..])
  }

  function RunFire(session: Option<string>, plan: RecordPlanner, recs: seq<RawRecord>): (Option<string>, seq<Said>)
    decreases recs
  {
    if recs == [] then (session, [])
    else
      var first := Fire(session, plan(recs[0]));
      var rest := RunFire(first.0, plan, recs[1..]);
      (rest.0, first.1 + rest.1)
  }

  /** Over any stream whose guards are distinct, the events say what the plan says, in order. */
  lemma {:induction false} RunFires(src: Source, plan: RecordPlanner, s: State, recs: seq<RawRecord>)
    requires NoDups(RunGuards(plan, recs)) && Unseen(RunGuards(plan, recs), s.seen)
    ensures var r, f := Run(src, Steady(plan), s, recs), RunFire(s.sessionId, plan, recs);
      SaysAll(r.1, f.1)
    decreases recs
  {
    if recs != [] {
      var ops := plan(recs[0]);
      var a, b := Guards(ops), RunGuards(plan, recs[1..]);
      NoDupsSplit(a, b);
      UnseenSplit(a, b, s.seen);
      ExecFires(src, recs[0], s, ops);
      var first, f := Exec(src, recs[0], s, ops), Fire(s.sessionId, ops);
      UnseenAfter(a, b, s.seen, first.0.seen);
      RunFires(src, plan, first.0, recs[1..]);
      var rest, g := Run(src, Steady(plan), first.0, recs[1..]), RunFire(f.0, plan, recs[1..]);
      SaysConcat(first.1, rest.1, f.1, g.1);
    }
  }

  // ---- Outcomes ------------------------------------------------------------

  predicate Shows(op: Op, callId: string, ok: bool) {
    match op
    case Emit(_, _, _, kind) => kind.ToolResult? && kind.callId == callId && kind.ok == ok
    case Once(_, body) => |body| == 1 && body[0].Emit? && Shows(body[0], callId, ok)
    case _ => false
  }

  /** Every recorded outcome has a non-empty call id and is followed by its result, guarded or not. */
  predicate OutcomesShown(ops: seq<Op>)
    decreases ops
  {
    ops == []
    || (match ops[0]
        case RecordOutcome(c, ok) => |ops| > 1 && c != "" && Shows(ops[1], c, ok) && OutcomesShown(ops[2..])
        case Emit(_, _, _, kind) => (kind.ToolResult? ==> kind.callId == "") && OutcomesShown(ops[1..])
        case Once(_, body) => OutcomesShown(body) && OutcomesShown(ops[1..])
        case _ => OutcomesShown(ops[1..]))
  }

  lemma {:induction false} ShownConcat(a: seq<Op>, b: seq<Op>)
    requires OutcomesShown(a) && OutcomesShown(b)
    ensures OutcomesShown(a + b)
    decreases a
  {
    if a == [] {
      assert a + b == b;
    } else if a[0].RecordOutcome? {
      assert (a + b)[2..] == a[2..] + b;
      ShownConcat(a[2..], b);
    } else {
      assert (a + b)[1..] == a[1..] + b;
      ShownConcat(a[1..], b);
    }
  }

  /** An outcome and its shown result. */
  lemma PairShows(src: Source, raw: RawRecord, s: State, first: Op, second: Op)
    requires first.RecordOutcome? && first.callId != "" && Shows(second, first.callId, first.ok)
    requires Unseen(OpGuards(second), s.seen)
    ensures var r := Exec(src, raw, s, [first, second]);
      r.0.callOk == LastOutcomes(s.callOk, r.1) && SeenWithin(s.seen, OpGuards(second), r.0.seen)
  {
    var t := ExecOp(src, raw, s, first).0;
    assert [first, second] == [first] + [second];
    ExecConcat(src, raw, s, [first], [second]);
    ExecOne(src, raw, s, first);
    ExecOne(src, raw, t, second);
    ResultShows(src, raw, t, second, first.callId, first.ok);
    var r := ExecOp(src, raw, t, second);
    assert [] + r.1 == r.1;
    assert LastOutcomes(s.callOk, r.1) == s.callOk[first.callId := first.ok];
  }

  lemma ResultShows(src: Source, raw: RawRecord, t: State, op: Op, callId: string, ok: bool)
    requires callId != "" && Shows(op, callId, ok) && Unseen(OpGuards(op), t.seen)
    ensures var r := ExecOp(src, raw, t, op);
      && r.0.callOk == t.callOk && SeenWithin(t.seen, OpGuards(op), r.0.seen)
      && forall known :: LastOutcomes(known, r.1) == known[callId := ok]
  {
    var e := if op.Once? then op.body[0] else op;
    var u := if op.Once? then t.(seen := t.seen + {op.guard}) else t;
    if op.Once? {
      assert OpGuards(op)[0] == op.guard;
      assert op.body == [e];
      ExecOne(src, raw, u, e);
    }
    forall known ensures LastOutcomes(known, [Stamp(src, raw, u, e)]) == known[callId := ok] {
      ToldByOne(known, Stamp(src, raw, u, e), callId, ok);
    }
  }

  /** Operations whose guards are distinct and unseen keep the outcome map in line with the stream. */
  lemma {:induction false} ExecShows(src: Source, raw: RawRecord, s: State, ops: seq<Op>)
    requires OutcomesShown(ops) && NoDups(Guards(ops)) && Unseen(Guards(ops), s.seen)
    ensures var r := Exec(src, raw, s, ops);
      r.0.callOk == LastOutcomes(s.callOk, r.1)
    decreases ops
  {
    if ops != [] {
      var k := if ops[0].RecordOutcome? then 2 else 1;
      var head, tail := ops[..k], ops[k..];
      assert ops == head + tail;
      GuardsConcat(head, tail);
      NoDupsSplit(Guards(head), Guards(tail));
      UnseenSplit(Guards(head), Guards(tail), s.seen);
      HeadShows(src, raw, s, ops, k);
      var x := Exec(src, raw, s, head);
      ExecFires(src, raw, s, head);
      UnseenAfter(Guards(head), Guards(tail), s.seen, x.0.seen);
      ExecShows(src, raw, x.0, tail);
      ExecConcat(src, raw, s, head, tail);
      LastOutcomesConcat(s.callOk, x.1, Exec(src, raw, x.0, tail).1);
    }
  }

  lemma {:induction false} HeadShows(src: Source, raw: RawRecord, s: State, ops: seq<Op>, k: nat)
    requires OutcomesShown(ops) && ops != [] && k == if ops[0].RecordOutcome? then 2 else 1
    requires NoDups(Guards(ops[..k])) && Unseen(Guards(ops[..k]), s.seen)
    ensures var r := Exec(src, raw, s, ops[..k]);
      r.0.callOk == LastOutcomes(s.callOk, r.1)
    decreases ops, 0
  {
    var op := ops[0];
    if op.RecordOutcome? {
      assert ops[..2] == [op, ops[1]];
      assert [op, ops[1]] == [op] + [ops[1]];
      GuardsConcat([op], [ops[1]]);
      GuardsOne(op);
      GuardsOne(ops[1]);
      assert [] + OpGuards(ops[1]) == OpGuards(ops[1]);
      PairShows(src, raw, s, op, ops[1]);
    } else {
      assert ops[..1] == [op];
      GuardsOne(op);
      ExecOne(src, raw, s, op);
      if op.Once? {
        FreshBody(s.seen, op.guard, Guards(op.body));
        ExecShows(src, raw, s.(seen := s.seen + {op.guard}), op.body);
      } else if op.Emit? {
        assert ExecOp(src, raw, s, op).1[1..] == [];
      }
    }
  }

  /** Behind a fresh guard, the guards of its body are still distinct and unseen. */
  lemma FreshBody(seen: set<string>, guard: string, inner: seq<string>)
    requires NoDups([guard] + inner) && Unseen([guard] + inner, seen)
    ensures guard !in seen && NoDups(inner) && Unseen(inner, seen + {guard})
  {
    assert ([guard] + inner)[0] == guard;
    assert SeenWithin(seen, [guard], seen + {guard});
    UnseenAfter([guard], inner, seen, seen + {guard});
  }

  /** Over any stream with distinct guards, the outcome map is what the emitted results say. */
  lemma {:induction false} RunShows(src: Source, plan: RecordPlanner, s: State, recs: seq<RawRecord>)
    requires NoDups(RunGuards(plan, recs)) && Unseen(RunGuards(plan, recs), s.seen)
    requires forall raw | raw in recs :: OutcomesShown(plan(raw))
    ensures var r := Run(src, Steady(plan), s, recs);
      r.0.callOk == LastOutcomes(s.callOk, r.1)
    decreases recs
  {
    if recs != [] {
      var ops := plan(recs[0]);
      var a, b := Guards(ops), RunGuards(plan, recs[1..]);
      assert recs[0] in recs;
      NoDupsSplit(a, b);
      UnseenSplit(a, b, s.seen);
      ExecFires(src, recs[0], s, ops);
      ExecShows(src, recs[0], s, ops);
      var first := Exec(src, recs[0], s, ops);
      UnseenAfter(a, b, s.seen, first.0.seen);
      RunShows(src, plan, first.0, recs[1..]);
      LastOutcomesConcat(s.callOk, first.1, Run(src, Steady(plan), first.0, recs[1..]).1);
    }
  }

  // ---- Concatenation ------------------------------------------------------------

  lemma {:induction false} GuardsConcat(a: seq<Op>, b: seq<Op>)
    ensures Guards(a + b) == Guards(a) + Guards(b)
    decreases a
  {
    if a == [] {
      assert a + b == b;
    } else {
      assert (a + b)[1..] == a[1..] + b;
      GuardsConcat(a[1..], b);
    }
  }

  lemma {:induction false} FireConcat(session: Option<string>, a: seq<Op>, b: seq<Op>)
    ensures var x := Fire(session, a);
      var y := Fire(x.0, b);
      Fire(session, a + b) == (y.0, x.1 + y.1)
    decreases a
  {
    if a == [] {
      assert a + b == b;
      assert [] + Fire(session, b).1 == Fire(session, b).1;
    } else {
      assert (a + b)[1..] == a[1..] + b;
      var first := FireOp(session, a[0]);
      FireConcat(first.0, a[1..], b);
      var x := Fire(first.0, a[1..]);
      var y := Fire(x.0, b);
      assert first.1 + (x.1 + y.1) == (first.1 + x.1) + y.1;
    }
  }

  lemma {:induction false} RunFireConcat(
      session: Option<string>, plan: RecordPlanner, a: seq<RawRecord>, b: seq<RawRecord>)
    ensures var x := RunFire(session, plan, a);
      var y := RunFire(x.0, plan, b);
      RunFire(session, plan, a + b) == (y.0, x.1 + y.1)
    decreases a
  {
    if a == [] {
      assert a + b == b;
      assert [] + RunFire(session, plan, b).1 == RunFire(session, plan, b).1;
    } else {
      assert (a + b)[1..] == a[1..] + b;
      var first := Fire(session, plan(a[0]));
      RunFireConcat(first.0, plan, a[1..], b);
      var x := RunFire(first.0, plan, a[1..]);
      var y := RunFire(x.0, plan, b);
      assert first.1 + (x.1 + y.1) == (first.1 + x.1) + y.1;
    }
  }

  lemma {:induction false} RunGuardsConcat(plan: RecordPlanner, a: seq<RawRecord>, b: seq<RawRecord>)
    ensures RunGuards(plan, a + b) == RunGuards(plan, a) + RunGuards(plan, b)
  {
    if a == [] {
      assert a + b == b;
    } else {
      assert (a + b)[1..] == a[1..] + b;
      RunGuardsConcat(plan, a[1..], b);
    }
  }

  lemma GuardedEvent(session: Option<string>, id: string, parent: Option<string>, ts: int, kind: EventKind)
    ensures Fire(session, [Once(id, [Emit(id, parent, ts, kind)])]) == (session, [Said(session, id, parent, ts, kind)])
    ensures Guards([Once(id, [Emit(id, parent, ts, kind)])]) == [id]
  {
    var op := Emit(id, parent, ts, kind);
    FireOne(session, op);
    FireOne(session, Once(id, [op]));
    GuardsOne(op);
    GuardsOne(Once(id, [op]));
    assert [id] + [] == [id];
  }

  lemma FireOne(session: Option<string>, op: Op)
    ensures Fire(session, [op]) == FireOp(session, op)
  {
    var f := FireOp(session, op);
    assert [op][1..] == [];
    assert Fire(f.0, []) == (f.0, []);
    assert f.1 + [] == f.1;
  }

  lemma GuardsOne(op: Op)
    ensures Guards([op]) == OpGuards(op)
  {
    assert [op][1..] == [];
    assert OpGuards(op) + [] == OpGuards(op);
  }

  lemma OneRecord(session: Option<string>, plan: RecordPlanner, recs: seq<RawRecord>)
    requires |recs| == 1
    ensures RunFire(session, plan, recs) == Fire(session, plan(recs[0]))
    ensures RunGuards(plan, recs) == Guards(plan(recs[0]))
  {
    var f := Fire(session, plan(recs[0]));
    assert recs[1..] == [];
    assert RunFire(f.0, plan, []) == (f.0, []);
    assert f.1 + [] == f.1;
    assert Guards(plan(recs[0])) + [] == Guards(plan(recs[0]));
  }
}
