/** What OpenTelemetry records do over a run: dedup after numbering, gaps, outcomes. */
module OtelRuns {
  import opened Wrappers
  import opened Json
  import opened Events
  import opened Ctx
  import opened CtxLaws
  import opened CtxFirings
  import opened OtelPlan
  import Text

  // ---- The ids of a record ------------------------------------------------------------

  predicate IsJson(h: Host, raw: RawRecord) {
    ParseJsonLine(h, raw).Some?
  }

  function AttrsOf(h: Host, raw: RawRecord): Attrs
    requires IsJson(h, raw)
  {
    FromRecord(ParseJsonLine(h, raw).value)
  }

  function TailDrafts(callId: string, a: Attrs, ok: Option<bool>, diff: Option<Diff>): seq<Draft> {
    (if ok.Some? then [ResultDraft(callId, ok.value, a)] else [])
    + (if diff.Some? then [EditDraft(Some(callId), diff.value)] else [])
  }

  function ToolDrafts(callId: string, a: Attrs, ok: Option<bool>, diff: Option<Diff>): seq<Draft> {
    [CallDraft(callId, a)] + TailDrafts(callId, a, ok, diff)
  }

  /** The events a record makes, before they are numbered; none when it is unrecognised. */
  function Drafts(h: Host, raw: RawRecord, a: Attrs): seq<Draft> {
    match OperationOf(a)
    case StartSession => [Draft("session_start", 0, StartKind(a))]
    case EndSession => [Draft("session_end", 0, SessionEnd(AttrStr(a, "reason")))]
    case ExecuteTool => ToolDrafts(CallIdOf(h, raw, a), a, ToolOk(a), FileDiff(a))
    case FileOperation => if FileDiff(a).Some? then [EditDraft(None, FileDiff(a).value)] else []
    case Dialogue => DialogueDrafts(a)
  }

  function DraftIds(h: Host, raw: RawRecord, ds: seq<Draft>): seq<string> {
    seq(|ds|, i requires 0 <= i < |ds| => DeriveId(h, raw, ds[i]))
  }

  /** The ids of the events a record makes, the fallback event included. */
  function IdsOf(h: Host, raw: RawRecord, a: Attrs): (ids: seq<string>)
    ensures ids != []
  {
    var ds := Drafts(h, raw, a);
    if ds == [] then [h.contentId(raw.bytes)] else DraftIds(h, raw, ds)
  }

  function IdsOfRecord(h: Host, raw: RawRecord): seq<string>
    requires IsJson(h, raw)
  {
    IdsOf(h, raw, AttrsOf(h, raw))
  }

  /** The ids depend on the bytes alone. */
  lemma IdsFollowBytes(h: Host, raw: RawRecord, again: RawRecord)
    requires IsJson(h, raw) && raw.bytes == again.bytes
    ensures IsJson(h, again) && IdsOfRecord(h, raw) == IdsOfRecord(h, again)
  {
    var a := AttrsOf(h, raw);
    assert Drafts(h, raw, a) == Drafts(h, again, a);
    SameDraftIds(h, raw, again, Drafts(h, raw, a));
  }

  lemma SameDraftIds(h: Host, raw: RawRecord, again: RawRecord, ds: seq<Draft>)
    requires raw.bytes == again.bytes
    ensures DraftIds(h, raw, ds) == DraftIds(h, again, ds)
  {
  }

  // ---- They are pairwise distinct ------------------------------------------------------

  ghost predicate DistinctDrafts(ds: seq<Draft>) {
    forall i, j | 0 <= i < j < |ds| :: ds[i].tag != ds[j].tag || ds[i].index != ds[j].index
  }

  /** An id names its label and its index. */
  lemma DeriveIdNames(h: Host, raw: RawRecord, x: Draft, y: Draft)
    requires DeriveId(h, raw, x) == DeriveId(h, raw, y)
    ensures x.tag == y.tag && x.index == y.index
  {
    var stem := h.contentId(raw.bytes) + ":";
    NoColon(x.index);
    NoColon(y.index);
    assert DeriveId(h, raw, x) == (stem + x.tag) + [':'] + Text.Decimal(x.index);
    assert DeriveId(h, raw, y) == (stem + y.tag) + [':'] + Text.Decimal(y.index);
    Text.SplitLastUnique(stem + x.tag, Text.Decimal(x.index), stem + y.tag, Text.Decimal(y.index), ':');
    Text.PrefixCancel(stem, x.tag, y.tag);
    Text.DecimalInjective(x.index, y.index);
  }

  lemma NoColon(n: nat)
    ensures ':' !in Text.Decimal(n)
  {
    assert !Text.IsDigit(':');
  }

  lemma {:induction false} InputsDistinct(msgs: seq<Value>)
    ensures DistinctDrafts(InputDrafts(msgs))
    ensures forall d | d in InputDrafts(msgs) :: d.tag == "input_msg" && d.index < |msgs|
  {
    if msgs != [] {
      InputsDistinct(msgs[..|msgs| - 1]);
    }
  }

  lemma DistinctConcat(x: seq<Draft>, y: seq<Draft>)
    requires DistinctDrafts(x) && DistinctDrafts(y)
    requires forall d, e | d in x && e in y :: d.tag != e.tag
    ensures DistinctDrafts(x + y)
  {
    var z := x + y;
    forall i, j | 0 <= i < j < |z| ensures z[i].tag != z[j].tag || z[i].index != z[j].index {
      if i < |x| <= j {
        assert z[i] in x && z[j] in y;
      } else if |x| <= i {
        assert z[i] == y[i - |x|] && z[j] == y[j - |x|];
      }
    }
  }

  lemma DialogueDistinct(a: Attrs)
    ensures DistinctDrafts(DialogueDrafts(a))
  {
    var p, inputs := PromptDrafts(a), AttrArray(a, "gen_ai.input.messages").GetOr([]);
    var outputs := OutputDrafts(AttrArray(a, "gen_ai.output.messages").GetOr([]),
                                AttrStr(a, "gen_ai.request.model"), UsageOf(a));
    InputsDistinct(inputs);
    DistinctConcat(p, InputDrafts(inputs));
    DistinctConcat(p + InputDrafts(inputs), outputs);
  }

  lemma DraftsDistinct(h: Host, raw: RawRecord, a: Attrs)
    ensures DistinctDrafts(Drafts(h, raw, a))
  {
    if OperationOf(a) == Dialogue {
      DialogueDistinct(a);
    } else if OperationOf(a) == ExecuteTool {
      ToolDraftsDistinct(CallIdOf(h, raw, a), a, ToolOk(a), FileDiff(a));
    }
  }

  lemma ToolDraftsDistinct(callId: string, a: Attrs, ok: Option<bool>, diff: Option<Diff>)
    ensures DistinctDrafts(ToolDrafts(callId, a, ok, diff))
  {
  }

  lemma IdsDistinct(h: Host, raw: RawRecord, a: Attrs)
    ensures NoDups(IdsOf(h, raw, a))
  {
    var ds, ids := Drafts(h, raw, a), IdsOf(h, raw, a);
    DraftsDistinct(h, raw, a);
    if ds != [] {
      forall i, j | 0 <= i < j < |ids| ensures ids[i] != ids[j] {
        if ids[i] == ids[j] {
          DeriveIdNames(h, raw, ds[i], ds[j]);
        }
      }
    }
  }

  // ---- What running a record's operations leaves ------------------------------------------

  function EventIds(evs: seq<CaptureEvent>): seq<string> {
    seq(|evs|, i requires 0 <= i < |evs| => evs[i].eventId)
  }

  lemma EventIdsConcat(x: seq<CaptureEvent>, y: seq<CaptureEvent>)
    ensures EventIds(x + y) == EventIds(x) + EventIds(y)
  {
  }

  predicate AllEmits(ops: seq<Op>) {
    forall op | op in ops :: op.Emit?
  }

  function OpIds(ops: seq<Op>): seq<string>
    requires AllEmits(ops)
  {
    seq(|ops|, i requires 0 <= i < |ops| => ops[i].eventId)
  }

  /** Plain events advance the counter and change nothing else. */
  lemma {:induction false} EmitsRun(raw: RawRecord, s: State, ops: seq<Op>)
    requires AllEmits(ops)
    ensures var r := Exec(Otel, raw, s, ops);
      r.0 == s.(nextSeq := s.nextSeq + |ops|) && EventIds(r.1) == OpIds(ops)
    decreases ops
  {
    if ops != [] {
      var first := ExecOp(Otel, raw, s, ops[0]);
      assert ops == [ops[0]] + ops[1..];
      assert AllEmits(ops[1..]) by { forall op | op in ops[1..] ensures op.Emit? { assert op in ops; } }
      assert ops[0] in ops;
      EmitsRun(raw, first.0, ops[1..]);
      EventIdsConcat(first.1, Exec(Otel, raw, first.0, ops[1..]).1);
      assert EventIds(first.1) == [ops[0].eventId];
      assert OpIds(ops) == [ops[0].eventId] + OpIds(ops[1..]);
    }
  }

  /** A silent operation in front of plain events. */
  lemma {:induction false} SilentThenEmits(raw: RawRecord, s: State, silent: Op, ops: seq<Op>)
    requires AllEmits(ops) && ExecOp(Otel, raw, s, silent).1 == []
    ensures var t := ExecOp(Otel, raw, s, silent).0;
      var r := Exec(Otel, raw, s, [silent] + ops);
      r.0 == t.(nextSeq := t.nextSeq + |ops|) && EventIds(r.1) == OpIds(ops)
  {
    var t := ExecOp(Otel, raw, s, silent).0;
    ExecConcat(Otel, raw, s, [silent], ops);
    ExecOne(Otel, raw, s, silent);
    EmitsRun(raw, t, ops);
    assert [] + Exec(Otel, raw, t, ops).1 == Exec(Otel, raw, t, ops).1;
  }

  function SessionAfter(s: State, a: Attrs): Option<string> {
    SessionLatched(s, a).sessionId
  }

  function ProjectAfter(project: Option<ProjectRef>, a: Attrs): Option<ProjectRef> {
    if OperationOf(a) == StartSession && project.None?
    then Some(ProjectRef(Cwd(a), AttrStr(a, "repo_root"), GitOf(a))) else project
  }

  function NamesAfter(h: Host, names: map<string, string>, raw: RawRecord, a: Attrs): map<string, string> {
    if OperationOf(a) == ExecuteTool then names[CallIdOf(h, raw, a) := ToolName(a)] else names
  }

  function OutcomesAfter(h: Host, outcomes: map<string, bool>, raw: RawRecord, a: Attrs): map<string, bool> {
    if OperationOf(a) == ExecuteTool && ToolOk(a).Some? then outcomes[CallIdOf(h, raw, a) := ToolOk(a).value]
    else outcomes
  }

  function IdSet(ids: seq<string>): set<string> {
    set x | x in ids
  }

  /** The context after the operations of a record, before events are dropped. */
  function BuiltState(h: Host, s: State, raw: RawRecord, a: Attrs): State {
    State(SessionAfter(s, a), s.nextSeq + |IdsOf(h, raw, a)|, s.seen, ProjectAfter(s.project, a),
          NamesAfter(h, s.callNames, raw, a), OutcomesAfter(h, s.callOk, raw, a))
  }

  function Built(h: Host, s: State, raw: RawRecord): (State, seq<CaptureEvent>)
    requires IsJson(h, raw)
  {
    var a := AttrsOf(h, raw);
    Exec(Otel, raw, SessionLatched(s, a), RecordOps(h, s.project, raw, a))
  }

  lemma StartBuilt(h: Host, s: State, project: Option<ProjectRef>, raw: RawRecord, a: Attrs, ts: int)
    requires OperationOf(a) == StartSession && project == s.project
    ensures var r := Exec(Otel, raw, s, StartOps(h, project, raw, a, ts));
      && EventIds(r.1) == IdsOf(h, raw, a)
      && r.0 == s.(nextSeq := s.nextSeq + 1, project := ProjectAfter(s.project, a))
  {
    var emit := [EmitDraft(h, raw, ts, Draft("session_start", 0, StartKind(a)))];
    assert OpIds(emit) == IdsOf(h, raw, a);
    if project.None? {
      SilentThenEmits(raw, s, StartOps(h, project, raw, a, ts)[0], emit);
    } else {
      EmitsRun(raw, s, emit);
      assert [] + emit == emit;
    }
  }

  lemma TailBuilt(
      h: Host, s: State, raw: RawRecord, a: Attrs, ts: int, callId: string, ok: Option<bool>, diff: Option<Diff>)
    ensures var r, ds := Exec(Otel, raw, s, TailOps(h, raw, a, ts, callId, ok, diff)), TailDrafts(callId, a, ok, diff);
      && EventIds(r.1) == DraftIds(h, raw, ds)
      && r.0 == s.(nextSeq := s.nextSeq + |ds|,
                   callOk := if ok.Some? then s.callOk[callId := ok.value] else s.callOk)
  {
    var ds := TailDrafts(callId, a, ok, diff);
    var emits := EmitDrafts(h, raw, ts, ds);
    assert OpIds(emits) == DraftIds(h, raw, ds);
    if ok.None? {
      assert TailOps(h, raw, a, ts, callId, ok, diff) == emits;
      EmitsRun(raw, s, emits);
    } else {
      var outcome := RecordOutcome(callId, ok.value);
      assert TailOps(h, raw, a, ts, callId, ok, diff) == [outcome] + emits;
      SilentThenEmits(raw, s, outcome, emits);
    }
  }

  lemma CallBuilt(
      h: Host, s: State, raw: RawRecord, a: Attrs, ts: int, callId: string, ok: Option<bool>, diff: Option<Diff>)
    ensures var r, ds := Exec(Otel, raw, s, CallOps(h, raw, a, ts, callId, ok, diff)), ToolDrafts(callId, a, ok, diff);
      && EventIds(r.1) == DraftIds(h, raw, ds)
      && r.0 == s.(nextSeq := s.nextSeq + |ds|, callNames := s.callNames[callId := ToolName(a)],
                   callOk := if ok.Some? then s.callOk[callId := ok.value] else s.callOk)
  {
    var name, call := NameCall(callId, ToolName(a)), [EmitDraft(h, raw, ts, CallDraft(callId, a))];
    var tail := TailOps(h, raw, a, ts, callId, ok, diff);
    assert CallOps(h, raw, a, ts, callId, ok, diff) == [name] + call + tail;
    SilentThenEmits(raw, s, name, call);
    ExecConcat(Otel, raw, s, [name] + call, tail);
    var t := Exec(Otel, raw, s, [name] + call);
    TailBuilt(h, t.0, raw, a, ts, callId, ok, diff);
    EventIdsConcat(t.1, Exec(Otel, raw, t.0, tail).1);
    DraftIdsCons(h, raw, CallDraft(callId, a), TailDrafts(callId, a, ok, diff));
  }

  lemma DraftIdsCons(h: Host, raw: RawRecord, d: Draft, ds: seq<Draft>)
    ensures DraftIds(h, raw, [d] + ds) == [DeriveId(h, raw, d)] + DraftIds(h, raw, ds)
  {
  }

  lemma ToolBuilt(h: Host, s: State, raw: RawRecord, a: Attrs, ts: int)
    requires OperationOf(a) == ExecuteTool
    ensures var r := Exec(Otel, raw, s, ToolOps(h, raw, a, ts));
      && EventIds(r.1) == IdsOf(h, raw, a)
      && r.0 == s.(nextSeq := s.nextSeq + |IdsOf(h, raw, a)|,
                   callNames := NamesAfter(h, s.callNames, raw, a), callOk := OutcomesAfter(h, s.callOk, raw, a))
  {
    var callId, ok, diff := CallIdOf(h, raw, a), ToolOk(a), FileDiff(a);
    CallBuilt(h, s, raw, a, ts, callId, ok, diff);
    assert Drafts(h, raw, a) == ToolDrafts(callId, a, ok, diff);
    assert |ToolDrafts(callId, a, ok, diff)| > 0;
  }

  lemma {:induction false} PlainBuilt(h: Host, s: State, raw: RawRecord, a: Attrs, ts: int, ops: seq<Op>)
    requires AllEmits(ops)
    requires if Drafts(h, raw, a) == [] then ops == [UnknownOp(h, raw, a.raw)]
             else ops == EmitDrafts(h, raw, ts, Drafts(h, raw, a))
    ensures var r := Exec(Otel, raw, s, ops);
      EventIds(r.1) == IdsOf(h, raw, a) && r.0 == s.(nextSeq := s.nextSeq + |IdsOf(h, raw, a)|)
  {
    EmitsRun(raw, s, ops);
    assert OpIds(ops) == IdsOf(h, raw, a);
  }

  lemma PlainRecord(h: Host, s: State, raw: RawRecord, a: Attrs)
    requires OperationOf(a) in {EndSession, FileOperation, Dialogue}
    ensures var r := Exec(Otel, raw, s, RecordOps(h, s.project, raw, a));
      EventIds(r.1) == IdsOf(h, raw, a) && r.0 == s.(nextSeq := s.nextSeq + |IdsOf(h, raw, a)|)
  {
    PlainBuilt(h, s, raw, a, Timestamp(h, a), RecordOps(h, s.project, raw, a));
  }

  lemma OperationBuilt(h: Host, t: State, raw: RawRecord, a: Attrs)
    ensures var r := Exec(Otel, raw, t, RecordOps(h, t.project, raw, a));
      && EventIds(r.1) == IdsOf(h, raw, a)
      && r.0 == t.(nextSeq := t.nextSeq + |IdsOf(h, raw, a)|, project := ProjectAfter(t.project, a),
                   callNames := NamesAfter(h, t.callNames, raw, a), callOk := OutcomesAfter(h, t.callOk, raw, a))
  {
    match OperationOf(a)
    case StartSession => StartBuilt(h, t, t.project, raw, a, Timestamp(h, a));
    case ExecuteTool => ToolBuilt(h, t, raw, a, Timestamp(h, a));
    case _ => PlainRecord(h, t, raw, a);
  }

  lemma RecordBuilt(h: Host, s: State, raw: RawRecord)
    requires IsJson(h, raw)
    ensures var a, r := AttrsOf(h, raw), Built(h, s, raw);
      EventIds(r.1) == IdsOf(h, raw, a) && r.0 == BuiltState(h, s, raw, a)
  {
    OperationBuilt(h, SessionLatched(s, AttrsOf(h, raw)), raw, AttrsOf(h, raw));
  }

  // ---- What dropping leaves ------------------------------------------------------------

  /** Dropping keeps everything exactly when ids are distinct and unseen; else it keeps fewer. */
  lemma {:induction false} DedupExactly(seen: set<string>, evs: seq<CaptureEvent>)
    ensures var r := Dedup(seen, evs);
      && r.0 == seen + IdSet(EventIds(evs)) && |r.1| <= |evs|
      && (|r.1| == |evs| ==> r.1 == evs)
      && (r.1 == evs <==> NoDups(EventIds(evs)) && Unseen(EventIds(evs), seen))
  {
    if evs != [] {
      var n := |evs| - 1;
      var init, e := evs[..n], evs[n];
      DedupExactly(seen, init);
      IdsSnoc(init, e);
      assert evs == init + [e];
      LastIsNew(EventIds(init), e.eventId, seen);
    }
  }

  lemma IdsSnoc(evs: seq<CaptureEvent>, e: CaptureEvent)
    ensures EventIds(evs + [e]) == EventIds(evs) + [e.eventId]
    ensures IdSet(EventIds(evs + [e])) == IdSet(EventIds(evs)) + {e.eventId}
  {
    var ids := EventIds(evs);
    assert EventIds(evs + [e]) == ids + [e.eventId];
    forall x ensures x in ids + [e.eventId] <==> x in ids || x == e.eventId {
    }
  }

  lemma LastIsNew(ids: seq<string>, last: string, seen: set<string>)
    ensures NoDups(ids + [last]) && Unseen(ids + [last], seen)
      <==> NoDups(ids) && Unseen(ids, seen) && last !in seen + IdSet(ids)
  {
    var all := ids + [last];
    if NoDups(all) && Unseen(all, seen) {
      NoDupsSplit(ids, [last]);
      UnseenSplit(ids, [last], seen);
      assert [last][0] == last && last in [last];
    }
  }

  lemma {:induction false} DedupNothing(seen: set<string>, evs: seq<CaptureEvent>)
    requires forall x | x in EventIds(evs) :: x in seen
    ensures Dedup(seen, evs) == (seen, [])
  {
    if evs != [] {
      var n := |evs| - 1;
      assert EventIds(evs) == EventIds(evs[..n]) + [evs[n].eventId];
      DedupNothing(seen, evs[..n]);
      assert evs[n].eventId in EventIds(evs);
      assert seen + {evs[n].eventId} == seen;
    }
  }

  // ---- One record ------------------------------------------------------------

  /** Everything a record leaves in the context, whatever is dropped. */
  lemma {:induction false} RecordEffect(h: Host, s: State, raw: RawRecord)
    requires IsJson(h, raw)
    ensures var a := AttrsOf(h, raw);
      ParseSpec(h, s, raw).0 == BuiltState(h, s, raw, a).(seen := s.seen + IdSet(IdsOf(h, raw, a)))
  {
    RecordBuilt(h, s, raw);
    DedupExactly(s.seen, Built(h, s, raw).1);
  }

  /** A JSON record always spends at least one number. */
  lemma {:induction false} CounterAdvances(h: Host, s: State, raw: RawRecord)
    requires IsJson(h, raw)
    ensures ParseSpec(h, s, raw).0.nextSeq == s.nextSeq + |IdsOfRecord(h, raw)| > s.nextSeq
  {
    RecordEffect(h, s, raw);
  }

  /** Its numbers stay without a gap exactly when none of its ids was seen before. */
  lemma {:induction false} DenseExactly(h: Host, s: State, raw: RawRecord)
    requires IsJson(h, raw)
    ensures var r := ParseSpec(h, s, raw);
      && (Dense(r.1, s.nextSeq, r.0.nextSeq) <==> Unseen(IdsOfRecord(h, raw), s.seen))
      && (Unseen(IdsOfRecord(h, raw), s.seen) <==> r.1 == Built(h, s, raw).1)
  {
    var a, built := AttrsOf(h, raw), Built(h, s, raw);
    RecordBuilt(h, s, raw);
    IdsDistinct(h, raw, a);
    DedupExactly(s.seen, built.1);
    CounterAdvances(h, s, raw);
    assert |built.1| == |EventIds(built.1)|;
    ExecDense(Otel, raw, SessionLatched(s, a), RecordOps(h, s.project, raw, a));
  }

  /**
   A record whose bytes came before, from any location and with anything in between:
   it emits nothing, leaves a gap as wide as its events, and sets the name and the
   outcome of its call back to its own; session and project change only when unset.
   */
  lemma {:induction false} RepeatExactly(h: Host, s: State, raw: RawRecord, t: State, again: RawRecord)
    requires IsJson(h, raw) && again.bytes == raw.bytes
    requires ParseSpec(h, s, raw).0.seen <= t.seen
    ensures var a, r := AttrsOf(h, raw), ParseSpec(h, t, again);
      && r.1 == [] && r.0 == BuiltState(h, t, raw, a)
      && r.0.nextSeq > t.nextSeq && !Dense(r.1, t.nextSeq, r.0.nextSeq)
  {
    var a := AttrsOf(h, raw);
    IdsFollowBytes(h, raw, again);
    RecordEffect(h, s, raw);
    RecordEffect(h, t, again);
    RecordBuilt(h, t, again);
    CounterAdvances(h, t, again);
    forall x | x in EventIds(Built(h, t, again).1) ensures x in t.seen {
      assert x in IdsOf(h, raw, a) && x in IdSet(IdsOf(h, raw, a));
    }
    DedupNothing(t.seen, Built(h, t, again).1);
    assert t.seen + IdSet(IdsOf(h, raw, a)) == t.seen;
  }

  /** Repeated at once, a record changes nothing but the counter. */
  lemma {:induction false} RepeatAtOnce(h: Host, s: State, raw: RawRecord, again: RawRecord)
    requires IsJson(h, raw) && again.bytes == raw.bytes
    ensures var t := ParseSpec(h, s, raw).0;
      ParseSpec(h, t, again) == (t.(nextSeq := t.nextSeq + |IdsOfRecord(h, raw)|), [])
  {
    var a, t := AttrsOf(h, raw), ParseSpec(h, s, raw).0;
    RecordEffect(h, s, raw);
    RepeatExactly(h, s, raw, t, again);
    SettledFields(h, s, t, raw, a);
  }

  lemma SettledFields(h: Host, s: State, t: State, raw: RawRecord, a: Attrs)
    requires t == BuiltState(h, s, raw, a).(seen := t.seen)
    ensures BuiltState(h, t, raw, a) == t.(nextSeq := t.nextSeq + |IdsOf(h, raw, a)|)
  {
    if OperationOf(a) == ExecuteTool {
      SetTwice(s.callNames, CallIdOf(h, raw, a), ToolName(a));
      if ToolOk(a).Some? {
        SetTwice(s.callOk, CallIdOf(h, raw, a), ToolOk(a).value);
      }
    }
  }

  lemma SetTwice<T>(m: map<string, T>, k: string, v: T)
    ensures m[k := v][k := v] == m[k := v]
  {
  }

  // ---- Whole runs ------------------------------------------------------------

  function OtelRun(h: Host, s: State, recs: seq<RawRecord>): (State, seq<CaptureEvent>)
    decreases recs
  {
    if recs == [] then (s, [])
    else
      var first := ParseSpec(h, s, recs[0]);
      var rest := OtelRun(h, first.0, recs[1..]);
      (rest.0, first.1 + rest.1)
  }

  /** Numbers rise strictly from `from` and stay below `next`. */
  ghost predicate Rising(evs: seq<CaptureEvent>, from: nat, next: nat) {
    && from <= next
    && (forall i | 0 <= i < |evs| :: from <= evs[i].seqNo < next)
    && (forall i, j | 0 <= i < j < |evs| :: evs[i].seqNo < evs[j].seqNo)
  }

  lemma RisingConcat(x: seq<CaptureEvent>, y: seq<CaptureEvent>, from: nat, mid: nat, next: nat)
    requires Rising(x, from, mid) && Rising(y, mid, next)
    ensures Rising(x + y, from, next)
  {
    var z := x + y;
    forall i, j | 0 <= i < j < |z| ensures z[i].seqNo < z[j].seqNo {
      if |x| <= i {
        assert z[i] == y[i - |x|] && z[j] == y[j - |x|];
      }
    }
  }

  lemma {:induction false} RisingCount(evs: seq<CaptureEvent>, from: nat, next: nat)
    requires Rising(evs, from, next)
    ensures |evs| <= next - from
    ensures forall i | 0 <= i < |evs| :: evs[i].seqNo >= from + i && evs[i].seqNo + (|evs| - i) <= next
  {
    if evs != [] {
      var n := |evs| - 1;
      var init := evs[..n];
      assert Rising(init, from, evs[n].seqNo);
      RisingCount(init, from, evs[n].seqNo);
      forall i | 0 <= i < |evs| ensures evs[i].seqNo >= from + i && evs[i].seqNo + (|evs| - i) <= next {
        assert i == n || evs[i] == init[i];
      }
    }
  }

  /** Rising numbers are without a gap exactly when there is one event a number. */
  lemma RisingDense(evs: seq<CaptureEvent>, from: nat, next: nat)
    requires Rising(evs, from, next)
    ensures Dense(evs, from, next) <==> |evs| == next - from
  {
    RisingCount(evs, from, next);
  }

  lemma RisingSnoc(x: seq<CaptureEvent>, e: CaptureEvent, from: nat, next: nat)
    requires Rising(x, from, e.seqNo) && e.seqNo < next
    ensures Rising(x + [e], from, next) && Rising(x, from, next)
  {
  }

  lemma RisingInit(evs: seq<CaptureEvent>, from: nat, next: nat)
    requires Rising(evs, from, next) && evs != []
    ensures var e := evs[|evs| - 1];
      Rising(evs[..|evs| - 1], from, e.seqNo) && e.seqNo < next
  {
  }

  lemma {:induction false} DedupRises(seen: set<string>, evs: seq<CaptureEvent>, from: nat, next: nat)
    requires Rising(evs, from, next)
    ensures Rising(Dedup(seen, evs).1, from, next)
  {
    if evs != [] {
      var n := |evs| - 1;
      RisingInit(evs, from, next);
      DedupRises(seen, evs[..n], from, evs[n].seqNo);
      RisingSnoc(Dedup(seen, evs[..n]).1, evs[n], from, next);
    }
  }

  lemma DenseRises(evs: seq<CaptureEvent>, from: nat, next: nat)
    requires Dense(evs, from, next)
    ensures Rising(evs, from, next)
  {
  }

  lemma RecordRises(h: Host, s: State, raw: RawRecord)
    ensures var r := ParseSpec(h, s, raw);
      Rising(r.1, s.nextSeq, r.0.nextSeq)
  {
    if IsJson(h, raw) {
      var a, built := AttrsOf(h, raw), Built(h, s, raw);
      ExecDense(Otel, raw, SessionLatched(s, a), RecordOps(h, s.project, raw, a));
      DenseRises(built.1, s.nextSeq, built.0.nextSeq);
      DedupRises(built.0.seen, built.1, s.nextSeq, built.0.nextSeq);
    }
  }

  /** Over any stream the numbers of the emitted events rise strictly. */
  lemma {:induction false} RunRises(h: Host, s: State, recs: seq<RawRecord>)
    ensures var r := OtelRun(h, s, recs);
      Rising(r.1, s.nextSeq, r.0.nextSeq)
    decreases recs
  {
    if recs != [] {
      var first := ParseSpec(h, s, recs[0]);
      RecordRises(h, s, recs[0]);
      RunRises(h, first.0, recs[1..]);
      var rest := OtelRun(h, first.0, recs[1..]);
      RisingConcat(first.1, rest.1, s.nextSeq, first.0.nextSeq, rest.0.nextSeq);
    }
  }

  /** Every JSON record brings only unseen ids. */
  ghost predicate AllNew(h: Host, s: State, recs: seq<RawRecord>)
    decreases recs
  {
    recs == []
    || ((IsJson(h, recs[0]) ==> Unseen(IdsOfRecord(h, recs[0]), s.seen))
        && AllNew(h, ParseSpec(h, s, recs[0]).0, recs[1..]))
  }

  lemma RecordDense(h: Host, s: State, raw: RawRecord)
    ensures var r := ParseSpec(h, s, raw);
      && |r.1| <= r.0.nextSeq - s.nextSeq
      && (|r.1| == r.0.nextSeq - s.nextSeq <==> (IsJson(h, raw) ==> Unseen(IdsOfRecord(h, raw), s.seen)))
  {
    var r := ParseSpec(h, s, raw);
    RecordRises(h, s, raw);
    RisingCount(r.1, s.nextSeq, r.0.nextSeq);
    if IsJson(h, raw) {
      RisingDense(r.1, s.nextSeq, r.0.nextSeq);
      DenseExactly(h, s, raw);
    }
  }

  lemma {:induction false} RunCount(h: Host, s: State, recs: seq<RawRecord>)
    ensures var r := OtelRun(h, s, recs);
      |r.1| <= r.0.nextSeq - s.nextSeq && (|r.1| == r.0.nextSeq - s.nextSeq <==> AllNew(h, s, recs))
    decreases recs
  {
    if recs != [] {
      RecordDense(h, s, recs[0]);
      RunCount(h, ParseSpec(h, s, recs[0]).0, recs[1..]);
    }
  }

  /** Over any stream the numbers are without a gap exactly when every record's ids are new. */
  lemma {:induction false} RunDenseExactly(h: Host, s: State, recs: seq<RawRecord>)
    ensures var r := OtelRun(h, s, recs);
      Dense(r.1, s.nextSeq, r.0.nextSeq) <==> AllNew(h, s, recs)
  {
    var r := OtelRun(h, s, recs);
    RunRises(h, s, recs);
    RisingDense(r.1, s.nextSeq, r.0.nextSeq);
    RunCount(h, s, recs);
  }

  // ---- In terms of bytes ------------------------------------------------------------

  /** What a hexadecimal digest is: injective and free of colons. */
  ghost predicate Digest(h: Host) {
    && (forall a, b | h.contentId(a) == h.contentId(b) :: a == b)
    && (forall a :: ':' !in h.contentId(a))
  }

  function Stem(id: string): string {
    id[..Text.IndexOf(id, ':')]
  }

  lemma StemOf(h: Host, raw: RawRecord, a: Attrs)
    requires Digest(h)
    ensures forall x | x in IdsOf(h, raw, a) :: Stem(x) == h.contentId(raw.bytes)
  {
    var c, ds := h.contentId(raw.bytes), Drafts(h, raw, a);
    Text.IndexOfAbsent(c, ':');
    assert c[..|c|] == c;
    forall i | 0 <= i < |ds| ensures Stem(DeriveId(h, raw, ds[i])) == c {
      var rest := ds[i].tag + ":" + Text.Decimal(ds[i].index);
      assert DeriveId(h, raw, ds[i]) == c + [':'] + rest;
      Text.IndexOfConcat(c, ':', rest);
    }
  }

  predicate Delivered(h: Host, past: seq<RawRecord>, bytes: string) {
    exists r | r in past :: IsJson(h, r) && r.bytes == bytes
  }

  /** The seen ids are those of the JSON records delivered so far. */
  ghost predicate Holds(h: Host, past: seq<RawRecord>, seen: set<string>) {
    && (forall r | r in past && IsJson(h, r) :: forall x | x in IdsOfRecord(h, r) :: x in seen)
    && (forall x | x in seen :: exists r | r in past :: IsJson(h, r) && Stem(x) == h.contentId(r.bytes))
  }

  lemma StepHolds(h: Host, s: State, past: seq<RawRecord>, raw: RawRecord)
    requires Digest(h) && Holds(h, past, s.seen)
    ensures Holds(h, past + [raw], ParseSpec(h, s, raw).0.seen)
  {
    SeenAfter(h, s, raw);
    if IsJson(h, raw) {
      HoldsMore(h, past, s.seen, raw);
    } else {
      HoldsWider(h, past, s.seen, raw);
    }
  }

  lemma SeenAfter(h: Host, s: State, raw: RawRecord)
    ensures ParseSpec(h, s, raw).0.seen == if IsJson(h, raw) then s.seen + IdSet(IdsOfRecord(h, raw)) else s.seen
  {
    if IsJson(h, raw) {
      RecordEffect(h, s, raw);
    }
  }

  lemma HoldsWider(h: Host, past: seq<RawRecord>, seen: set<string>, raw: RawRecord)
    requires Holds(h, past, seen) && !IsJson(h, raw)
    ensures Holds(h, past + [raw], seen)
  {
    forall x | x in seen ensures exists r | r in past + [raw] :: IsJson(h, r) && Stem(x) == h.contentId(r.bytes) {
      var r :| r in past && IsJson(h, r) && Stem(x) == h.contentId(r.bytes);
      assert r in past + [raw];
    }
  }

  lemma HoldsMore(h: Host, past: seq<RawRecord>, seen: set<string>, raw: RawRecord)
    requires Digest(h) && Holds(h, past, seen) && IsJson(h, raw)
    ensures Holds(h, past + [raw], seen + IdSet(IdsOfRecord(h, raw)))
  {
    var more := seen + IdSet(IdsOfRecord(h, raw));
    StemOf(h, raw, AttrsOf(h, raw));
    forall x | x in more ensures exists r | r in past + [raw] :: IsJson(h, r) && Stem(x) == h.contentId(r.bytes) {
      if x in seen {
        var r :| r in past && IsJson(h, r) && Stem(x) == h.contentId(r.bytes);
        assert r in past + [raw];
      } else {
        assert raw in past + [raw];
      }
    }
  }

  /** A record's ids are unseen exactly when its bytes were not delivered before. */
  lemma UnseenExactly(h: Host, past: seq<RawRecord>, seen: set<string>, raw: RawRecord)
    requires Digest(h) && Holds(h, past, seen) && IsJson(h, raw)
    ensures Unseen(IdsOfRecord(h, raw), seen) <==> !Delivered(h, past, raw.bytes)
  {
    var ids := IdsOfRecord(h, raw);
    StemOf(h, raw, AttrsOf(h, raw));
    if Delivered(h, past, raw.bytes) {
      var r :| r in past && IsJson(h, r) && r.bytes == raw.bytes;
      IdsFollowBytes(h, raw, r);
      assert ids[0] in ids;
    } else {
      forall i | 0 <= i < |ids| ensures ids[i] !in seen {
        assert ids[i] in ids;
      }
    }
  }

  /** No JSON record's bytes came earlier. */
  predicate NoRepeat(h: Host, past: seq<RawRecord>, recs: seq<RawRecord>)
    decreases recs
  {
    recs == []
    || ((IsJson(h, recs[0]) ==> !Delivered(h, past, recs[0].bytes)) && NoRepeat(h, past + [recs[0]], recs[1..]))
  }

  lemma {:induction false} NewExactly(h: Host, s: State, past: seq<RawRecord>, recs: seq<RawRecord>)
    requires Digest(h) && Holds(h, past, s.seen)
    ensures AllNew(h, s, recs) <==> NoRepeat(h, past, recs)
    decreases recs
  {
    if recs != [] {
      StepHolds(h, s, past, recs[0]);
      if IsJson(h, recs[0]) {
        UnseenExactly(h, past, s.seen, recs[0]);
      }
      NewExactly(h, ParseSpec(h, s, recs[0]).0, past + [recs[0]], recs[1..]);
    }
  }

  /** With a real digest: from a fresh context, numbers have no gap iff no JSON record is repeated. */
  lemma {:induction false} DenseIffNoRepeat(h: Host, recs: seq<RawRecord>)
    requires Digest(h)
    ensures var r := OtelRun(h, FRESH, recs);
      Dense(r.1, 0, r.0.nextSeq) <==> NoRepeat(h, [], recs)
  {
    RunDenseExactly(h, FRESH, recs);
    NewExactly(h, FRESH, [], recs);
  }

  // ---- Distinct ids ------------------------------------------------------------

  lemma {:induction false} DedupFresh(seen: set<string>, evs: seq<CaptureEvent>)
    ensures var r := Dedup(seen, evs);
      seen <= r.0 && FreshIds(r.1, seen, r.0)
  {
    if evs != [] {
      var n := |evs| - 1;
      var before, e := Dedup(seen, evs[..n]), evs[n];
      DedupFresh(seen, evs[..n]);
      if e.eventId !in before.0 {
        FreshConcat(before.1, [e], seen, before.0, before.0 + {e.eventId});
      }
    }
  }

  /** Over any stream recognised events have pairwise distinct ids. */
  lemma {:induction false} RunFreshIds(h: Host, s: State, recs: seq<RawRecord>)
    ensures var r := OtelRun(h, s, recs);
      s.seen <= r.0.seen && FreshIds(r.1, s.seen, r.0.seen)
    decreases recs
  {
    if recs != [] {
      var first := ParseSpec(h, s, recs[0]);
      if IsJson(h, recs[0]) {
        RecordBuilt(h, s, recs[0]);
        DedupFresh(s.seen, Built(h, s, recs[0]).1);
      }
      RunFreshIds(h, first.0, recs[1..]);
      var rest := OtelRun(h, first.0, recs[1..]);
      FreshConcat(first.1, rest.1, s.seen, first.0.seen, rest.0.seen);
    }
  }
}
