/**
 Laws of context runs, for any way of planning a record's operations: dense
 sequence numbers, distinct event ids, outcomes that mirror the stream, replay.
 */
module CtxLaws {
  import opened Wrappers
  import opened Json
  import opened Events
  import opened Ctx

  /** How an adapter turns a record into operations, given the context before it. */
  type Planner = (State, RawRecord) -> seq<Op>

  /** One context carried through a stream of records. */
  function Run(src: Source, plan: Planner, s: State, recs: seq<RawRecord>): (State, seq<CaptureEvent>)
    decreases recs
  {
    if recs == [] then (s, [])
    else
      var first := Exec(src, recs[0], s, plan(s, recs[0]));
      var rest := Run(src, plan, first.0, recs[1..]);
      (rest.0, first.1 + rest.1)
  }

  lemma {:induction false} RunConcat(src: Source, plan: Planner, s: State, a: seq<RawRecord>, b: seq<RawRecord>)
    ensures var x := Run(src, plan, s, a);
      var y := Run(src, plan, x.0, b);
      Run(src, plan, s, a + b) == (y.0, x.1 + y.1)
    decreases a
  {
    if a == [] {
      assert a + b == b;
      assert [] + Run(src, plan, s, b).1 == Run(src, plan, s, b).1;
    } else {
      assert (a + b)[1..] == a[1..] + b;
      var first := Exec(src, a[0], s, plan(s, a[0]));
      RunConcat(src, plan, first.0, a[1..], b);
      var x := Run(src, plan, first.0, a[1..]);
      var y := Run(src, plan, x.0, b);
      assert first.1 + (x.1 + y.1) == (first.1 + x.1) + y.1;
    }
  }

  lemma RunSnoc(src: Source, plan: Planner, s: State, recs: seq<RawRecord>, raw: RawRecord)
    ensures var x := Run(src, plan, s, recs);
      var y := Exec(src, raw, x.0, plan(x.0, raw));
      Run(src, plan, s, recs + [raw]) == (y.0, x.1 + y.1)
  {
    RunConcat(src, plan, s, recs, [raw]);
    var x := Run(src, plan, s, recs);
    var y := Exec(src, raw, x.0, plan(x.0, raw));
    assert [raw][1..] == [];
    assert Run(src, plan, y.0, []) == (y.0, []);
    assert y.1 + [] == y.1;
  }

  // ---- Dense sequence numbers ---------------------------------------------------

  /** The events are numbered from `from` on without a gap, and `next` is the next number. */
  ghost predicate Dense(evs: seq<CaptureEvent>, from: nat, next: nat) {
    next == from + |evs| && forall i | 0 <= i < |evs| :: evs[i].seqNo == from + i
  }

  lemma {:induction false} ExecDense(src: Source, raw: RawRecord, s: State, ops: seq<Op>)
    ensures var r := Exec(src, raw, s, ops);
      Dense(r.1, s.nextSeq, r.0.nextSeq)
    decreases ops
  {
    if ops != [] {
      var first := ExecOp(src, raw, s, ops[0]);
      if ops[0].Once? && ops[0].guard !in s.seen {
        ExecDense(src, raw, s.(seen := s.seen + {ops[0].guard}), ops[0].body);
      }
      assert Dense(first.1, s.nextSeq, first.0.nextSeq);
      ExecDense(src, raw, first.0, ops[1..]);
    }
  }

  /** Over any stream the emitted sequence numbers are exactly 0, 1, 2, ... */
  lemma {:induction false} RunDense(src: Source, plan: Planner, s: State, recs: seq<RawRecord>)
    ensures var r := Run(src, plan, s, recs);
      Dense(r.1, s.nextSeq, r.0.nextSeq)
    decreases recs
  {
    if recs != [] {
      var first := Exec(src, recs[0], s, plan(s, recs[0]));
      ExecDense(src, recs[0], s, plan(s, recs[0]));
      RunDense(src, plan, first.0, recs[1..]);
    }
  }

  lemma {:induction false} ExecSeenGrows(src: Source, raw: RawRecord, s: State, ops: seq<Op>)
    ensures s.seen <= Exec(src, raw, s, ops).0.seen
    decreases ops
  {
    if ops != [] {
      var first := ExecOp(src, raw, s, ops[0]);
      if ops[0].Once? && ops[0].guard !in s.seen {
        ExecSeenGrows(src, raw, s.(seen := s.seen + {ops[0].guard}), ops[0].body);
      }
      ExecSeenGrows(src, raw, first.0, ops[1..]);
    }
  }

  // ---- Distinct event ids ---------------------------------------------------------

  /** Recognised events stand under a guard for their own id, one to a guard. */
  predicate Guarded(ops: seq<Op>)
    decreases ops
  {
    ops == []
    || ((match ops[0]
         case Emit(_, _, _, kind) => kind.Unknown?
         case Once(g, body) => GuardedBy(g, body)
         case _ => true)
        && Guarded(ops[1..]))
  }

  predicate GuardedBy(g: string, body: seq<Op>)
    decreases body
  {
    body == []
    || (match body[0]
        case Emit(id, _, _, kind) =>
          if kind.Unknown? then GuardedBy(g, body[1..]) else id == g && Guarded(body[1..])
        case Once(inner, b) => GuardedBy(inner, b) && GuardedBy(g, body[1..])
        case _ => GuardedBy(g, body[1..]))
  }

  lemma {:induction false} GuardedConcat(a: seq<Op>, b: seq<Op>)
    requires Guarded(a) && Guarded(b)
    ensures Guarded(a + b)
    decreases a
  {
    if a == [] {
      assert a + b == b;
    } else {
      assert (a + b)[1..] == a[1..] + b;
      GuardedConcat(a[1..], b);
    }
  }

  /** Recognised events have pairwise distinct ids, none in `before`, all in `after`. */
  ghost predicate FreshIds(evs: seq<CaptureEvent>, before: set<string>, after: set<string>) {
    && (forall i | 0 <= i < |evs| && !evs[i].kind.Unknown? ::
          evs[i].eventId !in before && evs[i].eventId in after)
    && (forall i, j | 0 <= i < j < |evs| && !evs[i].kind.Unknown? && !evs[j].kind.Unknown? ::
          evs[i].eventId != evs[j].eventId)
  }

  lemma FreshConcat(x: seq<CaptureEvent>, y: seq<CaptureEvent>, a: set<string>, b: set<string>, c: set<string>)
    requires FreshIds(x, a, b) && FreshIds(y, b, c) && a <= b <= c
    ensures FreshIds(x + y, a, c)
  {
    var z := x + y;
    forall i, j | 0 <= i < j < |z| && !z[i].kind.Unknown? && !z[j].kind.Unknown?
      ensures z[i].eventId != z[j].eventId
    {
      if i < |x| <= j {
        assert z[i].eventId in b && z[j].eventId !in b;
      } else if |x| <= i {
        assert z[i] == y[i - |x|] && z[j] == y[j - |x|];
      }
    }
  }

  lemma FreshWiden(x: seq<CaptureEvent>, a: set<string>, a': set<string>, b: set<string>)
    requires FreshIds(x, a, b) && a' <= a
    ensures FreshIds(x, a', b)
  {
  }

  lemma {:induction false} ExecFresh(src: Source, raw: RawRecord, s: State, ops: seq<Op>)
    requires Guarded(ops)
    ensures var r := Exec(src, raw, s, ops);
      s.seen <= r.0.seen && FreshIds(r.1, s.seen, r.0.seen)
    decreases ops
  {
    if ops != [] {
      var op := ops[0];
      var first := ExecOp(src, raw, s, op);
      if op.Once? && op.guard !in s.seen {
        ExecBodyFresh(src, raw, s.(seen := s.seen + {op.guard}), op.guard, op.body);
        FreshWiden(first.1, s.seen + {op.guard} - {op.guard}, s.seen, first.0.seen);
      }
      assert s.seen <= first.0.seen && FreshIds(first.1, s.seen, first.0.seen);
      ExecFresh(src, raw, first.0, ops[1..]);
      var rest := Exec(src, raw, first.0, ops[1..]);
      FreshConcat(first.1, rest.1, s.seen, first.0.seen, rest.0.seen);
    }
  }

  lemma {:induction false} ExecBodyFresh(src: Source, raw: RawRecord, s: State, g: string, body: seq<Op>)
    requires GuardedBy(g, body) && g in s.seen
    ensures var r := Exec(src, raw, s, body);
      s.seen <= r.0.seen && FreshIds(r.1, s.seen - {g}, r.0.seen)
    decreases body
  {
    if body != [] {
      var op := body[0];
      var first := ExecOp(src, raw, s, op);
      var rest := Exec(src, raw, first.0, body[1..]);
      if op.Emit? && !op.kind.Unknown? {
        ExecFresh(src, raw, first.0, body[1..]);
        FreshConcat(first.1, rest.1, s.seen - {g}, s.seen, rest.0.seen);
      } else {
        if op.Once? && op.guard !in s.seen {
          ExecBodyFresh(src, raw, s.(seen := s.seen + {op.guard}), op.guard, op.body);
          FreshWiden(first.1, s.seen + {op.guard} - {op.guard}, s.seen - {g}, first.0.seen);
        }
        ExecBodyFresh(src, raw, first.0, g, body[1..]);
        FreshExcept(first.1, rest.1, s.seen, first.0.seen, rest.0.seen, g);
      }
    }
  }

  /** A body's events other than the guarded one avoid everything seen, so they chain. */
  lemma FreshExcept(
      x: seq<CaptureEvent>, y: seq<CaptureEvent>, a: set<string>, b: set<string>, c: set<string>, g: string)
    requires g in a && a <= b <= c
    requires FreshIds(x, a, b) && FreshIds(y, b - {g}, c)
    ensures FreshIds(x + y, a - {g}, c)
  {
    var z := x + y;
    forall i, j | 0 <= i < j < |z| && !z[i].kind.Unknown? && !z[j].kind.Unknown?
      ensures z[i].eventId != z[j].eventId
    {
      if i < |x| <= j {
        assert z[i] == x[i] && z[i].eventId in b - {g};
        assert z[j] == y[j - |x|] && z[j].eventId !in b - {g};
      } else if |x| <= i {
        assert z[i] == y[i - |x|] && z[j] == y[j - |x|];
      }
    }
    forall i | 0 <= i < |z| && !z[i].kind.Unknown? ensures z[i].eventId !in a - {g} && z[i].eventId in c {
      if i >= |x| {
        assert z[i] == y[i - |x|];
      }
    }
  }

  /** Over any stream the recognised events have pairwise distinct ids. */
  lemma {:induction false} RunFresh(src: Source, plan: Planner, s: State, recs: seq<RawRecord>)
    requires forall t: State, raw: RawRecord :: Guarded(plan(t, raw))
    ensures var r := Run(src, plan, s, recs);
      s.seen <= r.0.seen && FreshIds(r.1, s.seen, r.0.seen)
    decreases recs
  {
    if recs != [] {
      var first := Exec(src, recs[0], s, plan(s, recs[0]));
      ExecFresh(src, recs[0], s, plan(s, recs[0]));
      RunFresh(src, plan, first.0, recs[1..]);
      var rest := Run(src, plan, first.0, recs[1..]);
      FreshConcat(first.1, rest.1, s.seen, first.0.seen, rest.0.seen);
    }
  }

  // ---- Outcomes mirror the stream ---------------------------------------------------

  /** Every recorded outcome is followed at once by its tool result, and the other way round. */
  predicate Mirrored(ops: seq<Op>)
    decreases ops
  {
    ops == []
    || (match ops[0]
        case RecordOutcome(c, ok) =>
          && |ops| > 1 && ops[1].Emit? && ops[1].kind.ToolResult?
          && c != "" && ops[1].kind.callId == c && ops[1].kind.ok == ok
          && Mirrored(ops[2..])
        case Emit(_, _, _, kind) => (kind.ToolResult? ==> kind.callId == "") && Mirrored(ops[1..])
        case Once(_, body) => Mirrored(body) && Mirrored(ops[1..])
        case _ => Mirrored(ops[1..]))
  }

  /** The ok flag of the last tool result of each non-empty call id. */
  function LastOutcomes(known: map<string, bool>, evs: seq<CaptureEvent>): map<string, bool>
    decreases evs
  {
    if evs == [] then known
    else
      var k := evs[0].kind;
      LastOutcomes(if k.ToolResult? && k.callId != "" then known[k.callId := k.ok] else known, evs[1..])
  }

  lemma {:induction false} LastOutcomesConcat(known: map<string, bool>, x: seq<CaptureEvent>, y: seq<CaptureEvent>)
    ensures LastOutcomes(known, x + y) == LastOutcomes(LastOutcomes(known, x), y)
    decreases x
  {
    if x == [] {
      assert x + y == y;
    } else {
      var k := x[0].kind;
      assert (x + y)[1..] == x[1..] + y;
      LastOutcomesConcat(if k.ToolResult? && k.callId != "" then known[k.callId := k.ok] else known, x[1..], y);
    }
  }

  /** An outcome and its result, then the rest. */
  lemma OutcomeThenResult(src: Source, raw: RawRecord, s: State, ops: seq<Op>)
    requires Mirrored(ops) && ops != [] && ops[0].RecordOutcome?
    requires var second := ExecOp(src, raw, ExecOp(src, raw, s, ops[0]).0, ops[1]);
      var tail := Exec(src, raw, second.0, ops[2..]);
      tail.0.callOk == LastOutcomes(second.0.callOk, tail.1)
    ensures var r := Exec(src, raw, s, ops);
      r.0.callOk == LastOutcomes(s.callOk, r.1)
  {
    var first := ExecOp(src, raw, s, ops[0]);
    var second := ExecOp(src, raw, first.0, ops[1]);
    assert ops[1..][1..] == ops[2..];
    var tail := Exec(src, raw, second.0, ops[2..]);
    assert Exec(src, raw, first.0, ops[1..]) == (tail.0, second.1 + tail.1);
    LastOutcomesConcat(s.callOk, second.1, tail.1);
    assert first.1 + (second.1 + tail.1) == second.1 + tail.1;
    assert second.1[1..] == [];
  }

  lemma {:induction false} ExecMirrors(src: Source, raw: RawRecord, s: State, ops: seq<Op>)
    requires Mirrored(ops)
    ensures var r := Exec(src, raw, s, ops);
      r.0.callOk == LastOutcomes(s.callOk, r.1)
    decreases ops
  {
    if ops != [] {
      var op := ops[0];
      var first := ExecOp(src, raw, s, op);
      var rest := Exec(src, raw, first.0, ops[1..]);
      if op.RecordOutcome? {
        var second := ExecOp(src, raw, first.0, ops[1]);
        ExecMirrors(src, raw, second.0, ops[2..]);
        OutcomeThenResult(src, raw, s, ops);
      } else {
        if op.Once? && op.guard !in s.seen {
          ExecMirrors(src, raw, s.(seen := s.seen + {op.guard}), op.body);
        } else if op.Emit? {
          assert first.1[1..] == [];
        }
        assert first.0.callOk == LastOutcomes(s.callOk, first.1);
        ExecMirrors(src, raw, first.0, ops[1..]);
        LastOutcomesConcat(s.callOk, first.1, rest.1);
      }
    }
  }

  /** The outcome map is exactly what the emitted tool results say, last one winning. */
  lemma {:induction false} RunMirrors(src: Source, plan: Planner, s: State, recs: seq<RawRecord>)
    requires forall t: State, raw: RawRecord :: Mirrored(plan(t, raw))
    ensures var r := Run(src, plan, s, recs);
      r.0.callOk == LastOutcomes(s.callOk, r.1)
    decreases recs
  {
    if recs != [] {
      var first := Exec(src, recs[0], s, plan(s, recs[0]));
      ExecMirrors(src, recs[0], s, plan(s, recs[0]));
      RunMirrors(src, plan, first.0, recs[1..]);
      var rest := Run(src, plan, first.0, recs[1..]);
      LastOutcomesConcat(s.callOk, first.1, rest.1);
    }
  }

  /** The result at `i` is the last that names the call, and has this flag. */
  predicate SaysLast(evs: seq<CaptureEvent>, c: string, ok: bool, i: nat) {
    i < |evs| && ResultOf(evs[i], c) && evs[i].kind.ok == ok && forall j | i < j < |evs| :: !ResultOf(evs[j], c)
  }

  /** What the outcome map means: the flag of the last result naming the call. */
  lemma {:induction false} LastOutcomesMeaning(known: map<string, bool>, evs: seq<CaptureEvent>, c: string)
    requires c != "" && c !in known
    ensures c in LastOutcomes(known, evs) <==> exists i | 0 <= i < |evs| :: ResultOf(evs[i], c)
    ensures c in LastOutcomes(known, evs) ==> exists i :: SaysLast(evs, c, LastOutcomes(known, evs)[c], i)
  {
    if evs != [] {
      var n := |evs| - 1;
      assert evs == evs[..n] + [evs[n]];
      LastOutcomesConcat(known, evs[..n], [evs[n]]);
      LastOutcomesMeaning(known, evs[..n], c);
      assert [evs[n]][1..] == [];
      var before := LastOutcomes(known, evs[..n]);
      if ResultOf(evs[n], c) {
        assert SaysLast(evs, c, evs[n].kind.ok, n);
      } else if c in before {
        var i :| SaysLast(evs[..n], c, before[c], i);
        LastStays(evs, c, before[c], i);
      }
    }
  }

  lemma LastStays(evs: seq<CaptureEvent>, c: string, ok: bool, i: nat)
    requires evs != [] && !ResultOf(evs[|evs| - 1], c) && SaysLast(evs[..|evs| - 1], c, ok, i)
    ensures SaysLast(evs, c, ok, i)
  {
    var init := evs[..|evs| - 1];
    assert forall j | i <= j < |init| :: evs[j] == init[j];
  }

  predicate ResultOf(e: CaptureEvent, c: string) {
    e.kind.ToolResult? && e.kind.callId == c
  }

  // ---- An outcome beside a guarded result ----------------------------------------------

  /** An outcome recorded in front of the guard of its result, as some adapters do. */
  function OutcomeOps(callId: string, ok: bool, id: string, parent: Option<string>, ts: int, output: Value): seq<Op> {
    [RecordOutcome(callId, ok), Once(id, [Emit(id, parent, ts, ToolResult(callId, ok, output))])]
  }

  /** What the result says of outcomes already known. */
  function Told(known: map<string, bool>, callId: string, ok: bool): map<string, bool> {
    if callId == "" then known else known[callId := ok]
  }

  lemma ToldByOne(known: map<string, bool>, e: CaptureEvent, callId: string, ok: bool)
    requires e.kind.ToolResult? && e.kind.callId == callId && e.kind.ok == ok
    ensures LastOutcomes(known, [e]) == Told(known, callId, ok)
  {
    assert [e][1..] == [];
  }

  /** The outcome is recorded in any case, the result emitted only behind its guard. */
  lemma OutcomeRuns(
      src: Source, raw: RawRecord, s: State, callId: string, ok: bool, id: string, parent: Option<string>, ts: int,
      output: Value)
    ensures var x := Exec(src, raw, s, OutcomeOps(callId, ok, id, parent, ts, output));
      && x.0.callOk == s.callOk[callId := ok] && x.0.seen == s.seen + {id}
      && |x.1| == (if id in s.seen then 0 else 1)
      && (forall e | e in x.1 :: e.kind == ToolResult(callId, ok, output))
      && forall known :: LastOutcomes(known, x.1) == if id in s.seen then known else Told(known, callId, ok)
  {
    var e, t := Emit(id, parent, ts, ToolResult(callId, ok, output)), s.(callOk := s.callOk[callId := ok]);
    OutcomeExec(src, raw, s, callId, ok, id, parent, ts, output);
    if id !in s.seen {
      forall known ensures LastOutcomes(known, [Stamp(src, raw, t, e)]) == Told(known, callId, ok) {
        ToldByOne(known, Stamp(src, raw, t, e), callId, ok);
      }
    }
  }

  lemma OutcomeExec(
      src: Source, raw: RawRecord, s: State, callId: string, ok: bool, id: string, parent: Option<string>, ts: int,
      output: Value)
    ensures var e, t := Emit(id, parent, ts, ToolResult(callId, ok, output)), s.(callOk := s.callOk[callId := ok]);
      Exec(src, raw, s, OutcomeOps(callId, ok, id, parent, ts, output))
      == if id in s.seen then (t, [])
         else (t.(seen := t.seen + {id}, nextSeq := t.nextSeq + 1), [Stamp(src, raw, t, e)])
  {
    var note, e := RecordOutcome(callId, ok), Emit(id, parent, ts, ToolResult(callId, ok, output));
    var once := [Once(id, [e])];
    var t := ExecOp(src, raw, s, note).0;
    ExecConcat(src, raw, s, [note], once);
    ExecOne(src, raw, s, note);
    OnceEmits(src, raw, t, id, e);
    assert OutcomeOps(callId, ok, id, parent, ts, output) == [note] + once;
    assert [] + Exec(src, raw, t, once).1 == Exec(src, raw, t, once).1;
  }

  /**
   Such a step keeps the outcome map in line with the stream exactly when its result
   is emitted under a non-empty call id, or the map said the same already.
   */
  lemma {:induction false} OutcomeStepExactly(
      src: Source, raw: RawRecord, s: State, callId: string, ok: bool, id: string, parent: Option<string>, ts: int,
      output: Value)
    ensures var r := Exec(src, raw, s, OutcomeOps(callId, ok, id, parent, ts, output));
      r.0.callOk == LastOutcomes(s.callOk, r.1)
      <==> (callId != "" && id !in s.seen) || (callId in s.callOk && s.callOk[callId] == ok)
  {
    OutcomeRuns(src, raw, s, callId, ok, id, parent, ts, output);
    SetAgain(s.callOk, callId, ok);
  }

  lemma SetAgain(m: map<string, bool>, k: string, v: bool)
    ensures m[k := v] == m <==> k in m && m[k] == v
  {
    assert k in m[k := v] && m[k := v][k] == v;
  }

  // ---- Replay ------------------------------------------------------------

  predicate OnlyUnknown(evs: seq<CaptureEvent>) {
    forall e | e in evs :: e.kind.Unknown?
  }

  /** Top-level operations are rebindings, unrecognised events and guarded bodies. */
  predicate Replayable(ops: seq<Op>) {
    forall op | op in ops :: op.BindSession? || op.BindProject? || op.Once? || (op.Emit? && op.kind.Unknown?)
  }

  predicate GuardsSeen(ops: seq<Op>, seen: set<string>) {
    forall op | op in ops && op.Once? :: op.guard in seen
  }

  function ReboundOp(s: State, op: Op): State {
    match op
    case BindSession(id) => s.(sessionId := Some(id))
    case BindProject(p) => s.(project := Some(p))
    case _ => s
  }

  /** The bindings that operations leave behind. */
  function Rebound(s: State, ops: seq<Op>): State
    decreases ops
  {
    if ops == [] then s else Rebound(ReboundOp(s, ops[0]), ops[1..])
  }

  lemma {:induction false} ExecSeesGuards(src: Source, raw: RawRecord, s: State, ops: seq<Op>)
    ensures GuardsSeen(ops, Exec(src, raw, s, ops).0.seen)
    decreases ops
  {
    if ops != [] {
      var first := ExecOp(src, raw, s, ops[0]);
      if ops[0].Once? && ops[0].guard !in s.seen {
        ExecSeenGrows(src, raw, s.(seen := s.seen + {ops[0].guard}), ops[0].body);
      }
      ExecSeenGrows(src, raw, first.0, ops[1..]);
      ExecSeesGuards(src, raw, first.0, ops[1..]);
      assert ops == [ops[0]] + ops[1..];
    }
  }

  lemma {:induction false} ReboundIgnoresSeq(s: State, n: nat, ops: seq<Op>)
    ensures Rebound(s.(nextSeq := n), ops) == Rebound(s, ops).(nextSeq := n)
    decreases ops
  {
    if ops != [] {
      ReboundIgnoresSeq(ReboundOp(s, ops[0]), n, ops[1..]);
      assert ReboundOp(s.(nextSeq := n), ops[0]) == ReboundOp(s, ops[0]).(nextSeq := n);
    }
  }

  /** The events that stand under no guard. */
  function Bare(ops: seq<Op>): nat
    decreases ops
  {
    if ops == [] then 0 else (if ops[0].Emit? then 1 else 0) + Bare(ops[1..])
  }

  /** Once all its guards are seen, a record only rebinds and repeats its unguarded events. */
  lemma {:induction false} ExecAgain(src: Source, raw: RawRecord, s: State, ops: seq<Op>)
    requires Replayable(ops) && GuardsSeen(ops, s.seen)
    ensures var r := Exec(src, raw, s, ops);
      OnlyUnknown(r.1) && |r.1| == Bare(ops) && r.0 == Rebound(s, ops).(nextSeq := r.0.nextSeq)
    decreases ops
  {
    if ops != [] {
      var first := ExecOp(src, raw, s, ops[0]);
      assert ops[0] in ops;
      assert first.0 == ReboundOp(s, ops[0]).(nextSeq := first.0.nextSeq);
      ExecAgain(src, raw, first.0, ops[1..]);
      ReboundIgnoresSeq(ReboundOp(s, ops[0]), first.0.nextSeq, ops[1..]);
    }
  }
}
