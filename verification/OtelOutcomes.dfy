/** The outcome map of the OTel adapter against the stream: when they agree, and when not. */
module OtelOutcomes {
  import opened Wrappers
  import opened Json
  import opened Events
  import opened Ctx
  import opened CtxLaws
  import opened CtxFirings
  import opened OtelPlan
  import opened OtelRuns
  import Text

  // ---- A built record ------------------------------------------------------------

  /** The record does not record an outcome under an empty call id. */
  predicate NamesItsCall(h: Host, raw: RawRecord) {
    IsJson(h, raw) ==>
      var a := AttrsOf(h, raw);
      OperationOf(a) == ExecuteTool && ToolOk(a).Some? ==> CallIdOf(h, raw, a) != ""
  }

  lemma {:induction false} QuietMirrors(ops: seq<Op>)
    requires forall op | op in ops :: op.BindProject? || op.NameCall? || (op.Emit? && !op.kind.ToolResult?)
    ensures Mirrored(ops)
  {
    if ops != [] {
      assert ops[0] in ops;
      QuietMirrors(ops[1..]);
    }
  }

  lemma {:induction false} QuietInputs(msgs: seq<Value>)
    ensures forall d | d in InputDrafts(msgs) :: !d.kind.ToolResult?
  {
    if msgs != [] {
      QuietInputs(msgs[..|msgs| - 1]);
    }
  }

  lemma QuietDialogue(a: Attrs)
    ensures forall d | d in DialogueDrafts(a) :: !d.kind.ToolResult?
  {
    QuietInputs(AttrArray(a, "gen_ai.input.messages").GetOr([]));
  }

  lemma QuietDrafts(h: Host, raw: RawRecord, a: Attrs, ts: int)
    ensures forall op | op in DialogueOps(h, raw, a, ts) :: op.Emit? && !op.kind.ToolResult?
  {
    QuietDialogue(a);
    var ds := DialogueDrafts(a);
    forall i | 0 <= i < |ds| ensures !ds[i].kind.ToolResult? {
      assert ds[i] in ds;
    }
  }

  lemma CallMirrors(
      h: Host, raw: RawRecord, a: Attrs, ts: int, callId: string, ok: Option<bool>, diff: Option<Diff>)
    requires ok.Some? ==> callId != ""
    ensures Mirrored(CallOps(h, raw, a, ts, callId, ok, diff))
  {
    var ops, tail := CallOps(h, raw, a, ts, callId, ok, diff), TailOps(h, raw, a, ts, callId, ok, diff);
    var edit: seq<Op> := if diff.None? then [] else [EmitDraft(h, raw, ts, EditDraft(Some(callId), diff.value))];
    QuietMirrors(edit);
    if ok.None? {
      QuietMirrors(ops);
    } else {
      assert ops[1..][1..] == tail && tail[2..] == edit;
      assert Mirrored(tail);
    }
  }

  lemma QuietRecord(h: Host, project: Option<ProjectRef>, raw: RawRecord, a: Attrs)
    requires OperationOf(a) != ExecuteTool
    ensures Mirrored(RecordOps(h, project, raw, a))
  {
    OtherOpsQuiet(h, project, raw, a);
    QuietMirrors(RecordOps(h, project, raw, a));
  }

  lemma RecordMirrors(h: Host, s: State, raw: RawRecord)
    requires IsJson(h, raw) && NamesItsCall(h, raw)
    ensures var r := Built(h, s, raw);
      r.0.callOk == LastOutcomes(s.callOk, r.1)
  {
    var a := AttrsOf(h, raw);
    if OperationOf(a) == ExecuteTool {
      CallMirrors(h, raw, a, Timestamp(h, a), CallIdOf(h, raw, a), ToolOk(a), FileDiff(a));
    } else {
      QuietRecord(h, s.project, raw, a);
    }
    ExecMirrors(Otel, raw, SessionLatched(s, a), RecordOps(h, s.project, raw, a));
  }

  // ---- One record, dropped events considered --------------------------------------------

  /** Events made by plain operations come from their emitting ones. */
  lemma {:induction false} EventsFrom(raw: RawRecord, s: State, ops: seq<Op>)
    requires forall op | op in ops :: !op.Once?
    ensures forall e | e in Exec(Otel, raw, s, ops).1 ::
      exists op | op in ops :: op.Emit? && e.eventId == op.eventId && e.kind == op.kind
    decreases ops
  {
    if ops != [] {
      var op, tail := ops[0], ops[1..];
      assert ops == [op] + tail;
      assert op in ops && forall o | o in tail :: o in ops;
      var first := ExecOp(Otel, raw, s, op);
      EventsFrom(raw, first.0, tail);
      forall e | e in first.1 + Exec(Otel, raw, first.0, tail).1
        ensures exists o | o in ops :: o.Emit? && e.eventId == o.eventId && e.kind == o.kind
      {
        if e in first.1 {
          assert op.Emit? && e == Stamp(Otel, raw, s, op);
        } else {
          var o :| o in tail && o.Emit? && e.eventId == o.eventId && e.kind == o.kind;
          assert o in ops;
        }
      }
    }
  }

  ghost predicate Quiet(evs: seq<CaptureEvent>) {
    forall e | e in evs :: !e.kind.ToolResult?
  }

  lemma {:induction false} QuietDedup(seen: set<string>, evs: seq<CaptureEvent>, known: map<string, bool>)
    requires Quiet(evs)
    ensures LastOutcomes(known, Dedup(seen, evs).1) == known
  {
    if evs != [] {
      var init, e := evs[..|evs| - 1], evs[|evs| - 1];
      assert evs == init + [e] && e in evs;
      QuietDedup(seen, init, known);
      LastOutcomesConcat(known, Dedup(seen, init).1, [e]);
      assert [e][1..] == [];
    }
  }

  /** The only result among the events is the one with this id. */
  ghost predicate OneResult(evs: seq<CaptureEvent>, id: string, callId: string, ok: bool) {
    forall e | e in evs ::
      if e.eventId == id then e.kind.ToolResult? && e.kind.callId == callId && e.kind.ok == ok
      else !e.kind.ToolResult?
  }

  /** Of such events the kept ones tell the outcome exactly when the id of the result is new. */
  lemma {:induction false} DedupTells(
      seen: set<string>, evs: seq<CaptureEvent>, id: string, callId: string, ok: bool, known: map<string, bool>)
    requires OneResult(evs, id, callId, ok)
    ensures LastOutcomes(known, Dedup(seen, evs).1)
      == if id in EventIds(evs) && id !in seen then Told(known, callId, ok) else known
  {
    if evs != [] {
      var init, e := evs[..|evs| - 1], evs[|evs| - 1];
      assert evs == init + [e] && e in evs;
      DedupTells(seen, init, id, callId, ok, known);
      DedupExactly(seen, init);
      IdsSnoc(init, e);
      LastOutcomesConcat(known, Dedup(seen, init).1, [e]);
      assert [e][1..] == [];
      assert id in EventIds(evs) <==> id in EventIds(init) || id == e.eventId;
    }
  }

  function ResultId(h: Host, raw: RawRecord, callId: string, a: Attrs, ok: bool): string {
    DeriveId(h, raw, ResultDraft(callId, ok, a))
  }

  lemma {:induction false} CallTells(
      h: Host, s: State, raw: RawRecord, a: Attrs, ts: int, callId: string, ok: bool, diff: Option<Diff>)
    ensures var evs := Exec(Otel, raw, s, CallOps(h, raw, a, ts, callId, Some(ok), diff)).1;
      OneResult(evs, ResultId(h, raw, callId, a, ok), callId, ok) && ResultId(h, raw, callId, a, ok) in EventIds(evs)
  {
    var ops, id := CallOps(h, raw, a, ts, callId, Some(ok), diff), ResultId(h, raw, callId, a, ok);
    EventsFrom(raw, s, ops);
    CallOpsTell(h, raw, a, ts, callId, ok, diff);
    CallBuilt(h, s, raw, a, ts, callId, Some(ok), diff);
    assert ToolDrafts(callId, a, Some(ok), diff)[1] == ResultDraft(callId, ok, a);
    assert EventIds(Exec(Otel, raw, s, ops).1)[1] == id;
  }

  lemma CallOpsTell(
      h: Host, raw: RawRecord, a: Attrs, ts: int, callId: string, ok: bool, diff: Option<Diff>)
    ensures forall op | op in CallOps(h, raw, a, ts, callId, Some(ok), diff) && op.Emit? ::
      if op.eventId == ResultId(h, raw, callId, a, ok)
      then op.kind.ToolResult? && op.kind.callId == callId && op.kind.ok == ok
      else !op.kind.ToolResult?
  {
    var call, result := CallDraft(callId, a), ResultDraft(callId, ok, a);
    if DeriveId(h, raw, call) == DeriveId(h, raw, result) {
      DeriveIdNames(h, raw, call, result);
    }
    if diff.Some? && DeriveId(h, raw, EditDraft(Some(callId), diff.value)) == DeriveId(h, raw, result) {
      DeriveIdNames(h, raw, EditDraft(Some(callId), diff.value), result);
    }
  }

  lemma {:induction false} CallQuiet(
      h: Host, s: State, raw: RawRecord, a: Attrs, ts: int, callId: string, diff: Option<Diff>)
    ensures Quiet(Exec(Otel, raw, s, CallOps(h, raw, a, ts, callId, None, diff)).1)
  {
    EventsFrom(raw, s, CallOps(h, raw, a, ts, callId, None, diff));
  }

  lemma {:induction false} OtherQuiet(h: Host, s: State, raw: RawRecord, a: Attrs)
    requires OperationOf(a) != ExecuteTool
    ensures Quiet(Exec(Otel, raw, s, RecordOps(h, s.project, raw, a)).1)
  {
    OtherOpsQuiet(h, s.project, raw, a);
    EventsFrom(raw, s, RecordOps(h, s.project, raw, a));
  }

  lemma OtherOpsQuiet(h: Host, project: Option<ProjectRef>, raw: RawRecord, a: Attrs)
    requires OperationOf(a) != ExecuteTool
    ensures forall op | op in RecordOps(h, project, raw, a) :: op.BindProject? || (op.Emit? && !op.kind.ToolResult?)
  {
    QuietDrafts(h, raw, a, Timestamp(h, a));
  }

  /** Whether a record reports an outcome, and for which call. */
  predicate Tells(h: Host, raw: RawRecord) {
    IsJson(h, raw) && OperationOf(AttrsOf(h, raw)) == ExecuteTool && ToolOk(AttrsOf(h, raw)).Some?
  }

  lemma {:induction false} SilentStep(h: Host, s: State, raw: RawRecord)
    requires !Tells(h, raw)
    ensures var r := ParseSpec(h, s, raw);
      r.0.callOk == s.callOk && LastOutcomes(s.callOk, r.1) == s.callOk
  {
    if IsJson(h, raw) {
      var a := AttrsOf(h, raw);
      var t, built := SessionLatched(s, a), Built(h, s, raw);
      RecordEffect(h, s, raw);
      RecordBuilt(h, s, raw);
      if OperationOf(a) == ExecuteTool {
        CallQuiet(h, t, raw, a, Timestamp(h, a), CallIdOf(h, raw, a), FileDiff(a));
      } else {
        OtherQuiet(h, t, raw, a);
      }
      QuietDedup(s.seen, built.1, s.callOk);
    } else {
      var evs := ParseSpec(h, s, raw).1;
      assert evs != [] ==> evs[1..] == [];
    }
  }

  lemma {:induction false} TellingStep(h: Host, s: State, raw: RawRecord)
    requires Tells(h, raw)
    ensures var a, r := AttrsOf(h, raw), ParseSpec(h, s, raw);
      var callId, ok := CallIdOf(h, raw, a), ToolOk(a).value;
      && r.0.callOk == s.callOk[callId := ok]
      && LastOutcomes(s.callOk, r.1)
         == if ResultId(h, raw, callId, a, ok) in s.seen then s.callOk else Told(s.callOk, callId, ok)
  {
    var a := AttrsOf(h, raw);
    var callId, ok := CallIdOf(h, raw, a), ToolOk(a).value;
    RecordEffect(h, s, raw);
    RecordBuilt(h, s, raw);
    CallTells(h, SessionLatched(s, a), raw, a, Timestamp(h, a), callId, ok, FileDiff(a));
    DedupTells(s.seen, Built(h, s, raw).1, ResultId(h, raw, callId, a, ok), callId, ok, s.callOk);
  }

  /** A record reports no outcome, or emits it under a non-empty call id, or the map said the same already. */
  predicate InLine(h: Host, s: State, raw: RawRecord) {
    Tells(h, raw) ==>
      var a := AttrsOf(h, raw);
      var callId, ok := CallIdOf(h, raw, a), ToolOk(a).value;
      (callId != "" && ResultId(h, raw, callId, a, ok) !in s.seen) || (callId in s.callOk && s.callOk[callId] == ok)
  }

  /** A record keeps the outcome map in line with the stream exactly then. */
  lemma {:induction false} RecordStepExactly(h: Host, s: State, raw: RawRecord)
    ensures var r := ParseSpec(h, s, raw);
      r.0.callOk == LastOutcomes(s.callOk, r.1) <==> InLine(h, s, raw)
  {
    if Tells(h, raw) {
      TellingStep(h, s, raw);
      SetAgain(s.callOk, CallIdOf(h, raw, AttrsOf(h, raw)), ToolOk(AttrsOf(h, raw)).value);
    } else {
      SilentStep(h, s, raw);
    }
  }

  // ---- Whole runs ------------------------------------------------------------

  lemma Append<T>(a: seq<T>, b: seq<T>, c: seq<T>)
    ensures a + (b + c) == a + b + c
  {
  }

  lemma RunStep(h: Host, s: State, recs: seq<RawRecord>)
    requires recs != []
    ensures var first := ParseSpec(h, s, recs[0]);
      var rest := OtelRun(h, first.0, recs[1..]);
      OtelRun(h, s, recs) == (rest.0, first.1 + rest.1)
  {
  }

  lemma {:induction false} OtelRunSnoc(h: Host, s: State, recs: seq<RawRecord>, raw: RawRecord)
    ensures var x := OtelRun(h, s, recs);
      var y := ParseSpec(h, x.0, raw);
      OtelRun(h, s, recs + [raw]) == (y.0, x.1 + y.1)
    decreases recs
  {
    if recs == [] {
      var y := ParseSpec(h, s, raw);
      assert [] + [raw] == [raw] && [raw][1..] == [];
      assert OtelRun(h, y.0, []) == (y.0, []);
      assert y.1 + [] == y.1 && [] + y.1 == y.1;
    } else {
      assert (recs + [raw])[1..] == recs[1..] + [raw];
      var first := ParseSpec(h, s, recs[0]);
      OtelRunSnoc(h, first.0, recs[1..], raw);
      var x := OtelRun(h, first.0, recs[1..]);
      Append(first.1, x.1, ParseSpec(h, x.0, raw).1);
      RunStep(h, s, recs);
      RunStep(h, s, recs + [raw]);
    }
  }

  ghost predicate MirrorsAt(h: Host, s: State, recs: seq<RawRecord>, k: nat)
    requires k <= |recs|
  {
    var r := OtelRun(h, s, recs[..k]);
    r.0.callOk == LastOutcomes(s.callOk, r.1)
  }

  predicate InLineAt(h: Host, s: State, recs: seq<RawRecord>, k: nat)
    requires k < |recs|
  {
    InLine(h, OtelRun(h, s, recs[..k]).0, recs[k])
  }

  lemma MirrorStep(h: Host, s: State, recs: seq<RawRecord>, k: nat)
    requires k < |recs| && MirrorsAt(h, s, recs, k)
    ensures MirrorsAt(h, s, recs, k + 1) <==> InLineAt(h, s, recs, k)
  {
    var x := OtelRun(h, s, recs[..k]);
    var y := ParseSpec(h, x.0, recs[k]);
    assert recs[..k + 1] == recs[..k] + [recs[k]];
    OtelRunSnoc(h, s, recs[..k], recs[k]);
    LastOutcomesConcat(s.callOk, x.1, y.1);
    RecordStepExactly(h, x.0, recs[k]);
  }

  lemma {:induction false} MirrorsUpTo(h: Host, s: State, recs: seq<RawRecord>, k: nat)
    requires k <= |recs| && forall j | 0 <= j < k :: InLineAt(h, s, recs, j)
    ensures MirrorsAt(h, s, recs, k)
  {
    if k > 0 {
      MirrorsUpTo(h, s, recs, k - 1);
      MirrorStep(h, s, recs, k - 1);
    }
  }

  /**
   Over any stream the outcome map is what the emitted results say, after every
   record, exactly when every record keeps it in line.
   */
  lemma {:induction false} RunMirrorsExactly(h: Host, s: State, recs: seq<RawRecord>)
    ensures (forall k | 0 <= k <= |recs| :: MirrorsAt(h, s, recs, k))
      <==> forall k | 0 <= k < |recs| :: InLineAt(h, s, recs, k)
  {
    if forall k | 0 <= k < |recs| :: InLineAt(h, s, recs, k) {
      forall k | 0 <= k <= |recs| ensures MirrorsAt(h, s, recs, k) {
        MirrorsUpTo(h, s, recs, k);
      }
    }
    if forall k | 0 <= k <= |recs| :: MirrorsAt(h, s, recs, k) {
      forall k | 0 <= k < |recs| ensures InLineAt(h, s, recs, k) {
        assert MirrorsAt(h, s, recs, k) && MirrorsAt(h, s, recs, k + 1);
        MirrorStep(h, s, recs, k);
      }
    }
  }

  /** Without repeats and empty call ids the outcome map is what the emitted results say. */
  lemma {:induction false} RunMirrorsWhenNew(h: Host, s: State, recs: seq<RawRecord>)
    requires AllNew(h, s, recs) && forall raw | raw in recs :: NamesItsCall(h, raw)
    ensures var r := OtelRun(h, s, recs);
      r.0.callOk == LastOutcomes(s.callOk, r.1)
    decreases recs
  {
    if recs != [] {
      var first := ParseSpec(h, s, recs[0]);
      assert recs[0] in recs;
      if IsJson(h, recs[0]) {
        DenseExactly(h, s, recs[0]);
        RecordMirrors(h, s, recs[0]);
        RecordBuilt(h, s, recs[0]);
      }
      RunMirrorsWhenNew(h, first.0, recs[1..]);
      LastOutcomesConcat(s.callOk, first.1, OtelRun(h, first.0, recs[1..]).1);
    }
  }

  /** A tool record with an outcome for the call. */
  predicate Reports(h: Host, raw: RawRecord, callId: string, ok: bool) {
    IsJson(h, raw) &&
    var a := AttrsOf(h, raw);
    OperationOf(a) == ExecuteTool && CallIdOf(h, raw, a) == callId && ToolOk(a) == Some(ok)
  }

  lemma ReportLeaves(h: Host, s: State, raw: RawRecord, callId: string, ok: bool)
    requires Reports(h, raw, callId, ok) && callId != "" && Unseen(IdsOfRecord(h, raw), s.seen)
    ensures var r := ParseSpec(h, s, raw);
      callId in r.0.callOk && r.0.callOk[callId] == ok && r.0.callOk == LastOutcomes(s.callOk, r.1)
  {
    RecordEffect(h, s, raw);
    RecordBuilt(h, s, raw);
    RecordMirrors(h, s, raw);
    DenseExactly(h, s, raw);
  }

  /**
   A success, a failure of the same call, and the success once more: the context
   says the call succeeded, the last event emitted about it says it failed.
   */
  lemma {:induction false} OutcomeGoesStale(h: Host, good: RawRecord, bad: RawRecord, callId: string)
    requires Digest(h) && good.bytes != bad.bytes && callId != ""
    requires Reports(h, good, callId, true) && Reports(h, bad, callId, false)
    ensures var r := OtelRun(h, FRESH, [good, bad, good]);
      var said := LastOutcomes(map[], r.1);
      && callId in r.0.callOk && r.0.callOk[callId] && callId in said && !said[callId]
  {
    var one := ParseSpec(h, FRESH, good);
    var two := ParseSpec(h, one.0, bad);
    FirstTwo(h, good, bad);
    ReportLeaves(h, FRESH, good, callId, true);
    ReportLeaves(h, one.0, bad, callId, false);
    GoodAgain(h, good, one.0, bad, callId);
    ThreeSteps(h, good, bad);
    NothingMore(one.1, two.1);
    LastOutcomesConcat(map[], one.1, two.1);
  }

  function ToolRecord(status: string): Value {
    Obj(map["operation.name" := Str("execute_tool"), "gen_ai.tool.call.id" := Str("c"), "status" := Str(status)])
  }

  lemma ToolRecordReads(status: string, ok: bool)
    requires Text.AsciiLower(Text.Trim(status)) == status
    requires ok <==> status !in {"error", "failed", "failure", "ko"}
    ensures var a := FromRecord(ToolRecord(status));
      && OperationOf(a) == ExecuteTool && ToolOk(a) == Some(ok)
      && AttrStr(a, "gen_ai.tool.call.id") == Some("c")
  {
    var v := ToolRecord(status);
    var a := FromRecord(v);
    assert Get(v, "attributes").None? && a.flat == Some(v.fields);
    assert AttrStr(a, "gen_ai.tool.result.status").None? && AttrStr(a, "otel.status_code").None?;
    assert AttrStr(a, "status") == Some(status);
    assert OperationName(a) == Some("execute_tool");
  }

  lemma PlainStatus()
    ensures Text.AsciiLower(Text.Trim("ok")) == "ok" && Text.AsciiLower(Text.Trim("error")) == "error"
  {
    Text.TrimFixed("ok");
    Text.TrimFixed("error");
  }

  /** Two records that show it: one call, reported `ok`, then `error`, then the first one again. */
  lemma {:induction false} LiteralGoesStale(h: Host, good: RawRecord, bad: RawRecord)
    requires Digest(h)
    requires ParseJsonLine(h, good) == Some(ToolRecord("ok")) && ParseJsonLine(h, bad) == Some(ToolRecord("error"))
    ensures var r := OtelRun(h, FRESH, [good, bad, good]);
      var said := LastOutcomes(map[], r.1);
      "c" in r.0.callOk && r.0.callOk["c"] && "c" in said && !said["c"]
  {
    PlainStatus();
    ToolRecordReads("ok", true);
    ToolRecordReads("error", false);
    assert ToolRecord("ok").fields["status"] != ToolRecord("error").fields["status"];
    OutcomeGoesStale(h, good, bad, "c");
  }

  lemma NothingMore(x: seq<CaptureEvent>, y: seq<CaptureEvent>)
    ensures x + (y + ([] + [])) == x + y
  {
  }

  lemma FirstTwo(h: Host, good: RawRecord, bad: RawRecord)
    requires Digest(h) && good.bytes != bad.bytes && IsJson(h, good) && IsJson(h, bad)
    ensures Unseen(IdsOfRecord(h, good), FRESH.seen)
    ensures Unseen(IdsOfRecord(h, bad), ParseSpec(h, FRESH, good).0.seen)
  {
    assert Holds(h, [], FRESH.seen);
    StepHolds(h, FRESH, [], good);
    assert [] + [good] == [good];
    UnseenExactly(h, [good], ParseSpec(h, FRESH, good).0.seen, bad);
  }

  lemma GoodAgain(h: Host, good: RawRecord, s: State, bad: RawRecord, callId: string)
    requires s == ParseSpec(h, FRESH, good).0
    requires Reports(h, good, callId, true) && IsJson(h, bad)
    ensures var t := ParseSpec(h, s, bad).0;
      var r := ParseSpec(h, t, good);
      r.1 == [] && callId in r.0.callOk && r.0.callOk[callId]
  {
    RecordEffect(h, s, bad);
    RepeatExactly(h, FRESH, good, ParseSpec(h, s, bad).0, good);
  }

  lemma ThreeSteps(h: Host, a: RawRecord, b: RawRecord)
    ensures var one := ParseSpec(h, FRESH, a);
      var two := ParseSpec(h, one.0, b);
      var three := ParseSpec(h, two.0, a);
      OtelRun(h, FRESH, [a, b, a]) == (three.0, one.1 + (two.1 + (three.1 + [])))
  {
    assert [a, b, a][1..] == [b, a] && [b, a][1..] == [a] && [a][1..] == [];
    var one := ParseSpec(h, FRESH, a);
    var two := ParseSpec(h, one.0, b);
    var three := ParseSpec(h, two.0, a);
    assert OtelRun(h, three.0, []) == (three.0, []);
    assert OtelRun(h, two.0, [a]) == (three.0, three.1 + []);
    assert OtelRun(h, one.0, [b, a]) == (three.0, two.1 + (three.1 + []));
  }
}
