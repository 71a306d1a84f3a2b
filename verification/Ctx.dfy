/**
 The mutable per-session context of the adapters, and what one record does to it.

 A record's effect is described as a list of operations on the context. Running
 the operations gives the specification that the imperative adapters are proved
 against; the laws here hold for every list, so for every adapter and every run.
 */
module Ctx {
  import opened Wrappers
  import opened Json
  import opened Events

  datatype State = State(
    sessionId: Option<string>, nextSeq: nat, seen: set<string>, project: Option<ProjectRef>,
    callNames: map<string, string>, callOk: map<string, bool>)

  const FRESH: State := State(None, 0, {}, None, map[], map[])

  /** What a parse step may do to the context. */
  datatype Op =
    | BindSession(id: string)
    | BindProject(project: ProjectRef)
    | NameCall(callId: string, name: string)
    | RecordOutcome(callId: string, ok: bool)
    | Emit(eventId: string, parentId: Option<string>, timestamp: int, kind: EventKind)
    | Once(guard: string, body: seq<Op>)

  function Stamp(src: Source, raw: RawRecord, s: State, op: Op): CaptureEvent
    requires op.Emit?
  {
    CaptureEvent(src, s.sessionId.GetOr("unknown"), s.nextSeq, op.eventId, op.parentId, op.timestamp,
                 s.project.GetOr(DEFAULT_PROJECT), op.kind, raw.location)
  }

  /** Run operations in order; the body of `Once` runs only while its guard is unseen. */
  function Exec(src: Source, raw: RawRecord, s: State, ops: seq<Op>): (State, seq<CaptureEvent>)
    decreases ops
  {
    if ops == [] then (s, [])
    else
      var first := ExecOp(src, raw, s, ops[0]);
      var rest := Exec(src, raw, first.0, ops[1..]);
      (rest.0, first.1 + rest.1)
  }

  function ExecOp(src: Source, raw: RawRecord, s: State, op: Op): (State, seq<CaptureEvent>)
    decreases op
  {
    match op
    case BindSession(id) => (s.(sessionId := Some(id)), [])
    case BindProject(p) => (s.(project := Some(p)), [])
    case NameCall(c, n) => (s.(callNames := s.callNames[c := n]), [])
    case RecordOutcome(c, ok) => (s.(callOk := s.callOk[c := ok]), [])
    case Emit(_, _, _, _) => (s.(nextSeq := s.nextSeq + 1), [Stamp(src, raw, s, op)])
    case Once(g, body) =>
      if g in s.seen then (s, []) else Exec(src, raw, s.(seen := s.seen + {g}), body)
  }

  lemma {:induction false} ExecConcat(src: Source, raw: RawRecord, s: State, a: seq<Op>, b: seq<Op>)
    ensures var x := Exec(src, raw, s, a);
      var y := Exec(src, raw, x.0, b);
      Exec(src, raw, s, a + b) == (y.0, x.1 + y.1)
    decreases a
  {
    if a == [] {
      assert a + b == b;
      assert [] + Exec(src, raw, s, b).1 == Exec(src, raw, s, b).1;
    } else {
      assert (a + b)[1..] == a[1..] + b;
      var first := ExecOp(src, raw, s, a[0]);
      ExecConcat(src, raw, first.0, a[1..], b);
      var x := Exec(src, raw, first.0, a[1..]);
      var y := Exec(src, raw, x.0, b);
      assert first.1 + (x.1 + y.1) == (first.1 + x.1) + y.1;
    }
  }

  lemma ExecOne(src: Source, raw: RawRecord, s: State, op: Op)
    ensures Exec(src, raw, s, [op]) == ExecOp(src, raw, s, op)
  {
    var first := ExecOp(src, raw, s, op);
    assert [op][1..] == [];
    assert Exec(src, raw, first.0, []) == (first.0, []);
    assert first.1 + [] == first.1;
  }

  /** One more operation at the end. */
  lemma ExecSnoc(src: Source, raw: RawRecord, s: State, ops: seq<Op>, op: Op)
    ensures var x := Exec(src, raw, s, ops);
      var y := ExecOp(src, raw, x.0, op);
      Exec(src, raw, s, ops + [op]) == (y.0, x.1 + y.1)
  {
    ExecConcat(src, raw, s, ops, [op]);
    ExecOne(src, raw, Exec(src, raw, s, ops).0, op);
  }

  /** A guard in front of one event. */
  lemma OnceEmits(src: Source, raw: RawRecord, s: State, id: string, e: Op)
    requires e.Emit?
    ensures Exec(src, raw, s, [Once(id, [e])]) ==
      if id in s.seen then (s, []) else ExecOp(src, raw, s.(seen := s.seen + {id}), e)
  {
    ExecOne(src, raw, s, Once(id, [e]));
    ExecOne(src, raw, s.(seen := s.seen + {id}), e);
  }

  // ---- The context object ------------------------------------------------------

  class ParseCtx {
    var sessionId: Option<string>
    var nextSeq: nat
    var seen: set<string>
    var project: Option<ProjectRef>
    var callNames: map<string, string>
    var callOk: map<string, bool>

    function View(): State
      reads this
    {
      State(sessionId, nextSeq, seen, project, callNames, callOk)
    }

    constructor ()
      ensures View() == FRESH
    {
      sessionId, nextSeq, seen, project, callNames, callOk := None, 0, {}, None, map[], map[];
    }

    method AllocSeq() returns (s: nat)
      modifies this`nextSeq
      ensures s == old(nextSeq) && nextSeq == s + 1
    {
      s := nextSeq;
      nextSeq := nextSeq + 1;
    }

    method FirstSeen(id: string) returns (isNew: bool)
      modifies this`seen
      ensures isNew <==> id !in old(seen)
      ensures seen == old(seen) + {id}
    {
      isNew := id !in seen;
      seen := seen + {id};
    }

    /** `mk_event`: allocate the sequence number and stamp session and project. */
    method MakeEvent(src: Source, raw: RawRecord, id: string, parent: Option<string>, ts: int, kind: EventKind)
      returns (e: CaptureEvent)
      modifies this`nextSeq
      ensures (View(), [e]) == ExecOp(src, raw, old(View()), Emit(id, parent, ts, kind))
    {
      var s := AllocSeq();
      e := CaptureEvent(src, sessionId.GetOr("unknown"), s, id, parent, ts,
                        project.GetOr(DEFAULT_PROJECT), kind, raw.location);
    }

    /** Emit one event unless its id has been seen. */
    method EmitOnce(src: Source, raw: RawRecord, id: string, parent: Option<string>, ts: int, kind: EventKind)
      returns (events: seq<CaptureEvent>)
      modifies this
      ensures (View(), events) == Exec(src, raw, old(View()), [Once(id, [Emit(id, parent, ts, kind)])])
    {
      OnceEmits(src, raw, View(), id, Emit(id, parent, ts, kind));
      var isNew := FirstSeen(id);
      if !isNew {
        assert seen == old(seen);
        return [];
      }
      var e := MakeEvent(src, raw, id, parent, ts, kind);
      events := [e];
    }

    /** `unknown_event`: the lossless fallback, with no dedup guard of its own. */
    method UnknownEvent(h: Host, src: Source, raw: RawRecord, v: Value) returns (e: CaptureEvent)
      modifies this`nextSeq
      ensures (View(), [e]) == ExecOp(src, raw, old(View()), UnknownOp(h, raw, v))
    {
      var rawType := StrField(v, "type").GetOr("unknown");
      var ts := TsFrom(h, v, ["timestamp", "time", "ts", "created_at"]);
      e := MakeEvent(src, raw, h.contentId(raw.bytes), None, ts, Unknown(rawType, v));
    }
  }

  function UnknownOp(h: Host, raw: RawRecord, v: Value): Op {
    Emit(h.contentId(raw.bytes), None, TsFrom(h, v, ["timestamp", "time", "ts", "created_at"]),
         Unknown(StrField(v, "type").GetOr("unknown"), v))
  }
}
