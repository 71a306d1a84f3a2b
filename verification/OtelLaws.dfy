/** The two shapes of an OTel record mean the same. */
module OtelLaws {
  import opened Wrappers
  import opened Json
  import opened Events
  import opened Ctx
  import opened OtelPlan
  import Otlp
  import Text

  // ---- Shape equivalence ---------------------------------------------------------

  /** A record whose `attributes` array is an encoding of the given attributes, entry order free. */
  ghost predicate NestedOf(asText: bool, attributes: map<string, Value>, record: Value) {
    exists keys: seq<string>, ws: seq<Value> ::
      && Get(record, "attributes") == Some(Arr(Otlp.Entries(keys, ws)))
      && |keys| == |ws| && (forall k :: k in keys <==> k in attributes)
      && forall i | 0 <= i < |keys| && keys[i] in attributes :: Otlp.Encodes(asText, attributes[keys[i]], ws[i])
  }

  /** A record that is the given attributes themselves, read as flat. */
  predicate FlatOf(attributes: map<string, Value>, record: Value) {
    record == Obj(attributes) && AsArray(Get(record, "attributes")).None?
  }

  lemma NestedLookup(asText: bool, attributes: map<string, Value>, record: Value, key: string)
    requires NestedOf(asText, attributes, record)
    ensures AttrValue(FromRecord(record), key) ==
      if key in attributes then Some(Otlp.Shown(asText, attributes[key])) else None
  {
    var keys: seq<string>, ws: seq<Value> :|
      && Get(record, "attributes") == Some(Arr(Otlp.Entries(keys, ws)))
      && |keys| == |ws| && (forall k :: k in keys <==> k in attributes)
      && forall i | 0 <= i < |keys| && keys[i] in attributes :: Otlp.Encodes(asText, attributes[keys[i]], ws[i]);
    AttributesSmaller(record);
    var shown := map k | k in attributes :: Otlp.Shown(asText, attributes[k]);
    forall i | 0 <= i < |keys| ensures keys[i] in shown && Otlp.OtlpValue(ws[i]) == shown[keys[i]] {
      assert keys[i] in keys;
      Otlp.DecodeUndoesEncode(asText, attributes[keys[i]], ws[i]);
    }
    Otlp.CollectedEntries(keys, ws, record, shown);
  }

  /** With numeric integers both shapes of a record agree on every attribute. */
  lemma {:induction false} ShapesAgree(attributes: map<string, Value>, flat: Value, nested: Value, key: string)
    requires FlatOf(attributes, flat) && NestedOf(false, attributes, nested)
    ensures AttrValue(FromRecord(flat), key) == AttrValue(FromRecord(nested), key)
  {
    NestedLookup(false, attributes, nested, key);
    if key in attributes {
      Otlp.ShownNumbersIsSame(attributes[key]);
    }
  }

  /** Attributes that agree on every key. */
  ghost predicate SameAttributes(a: Attrs, b: Attrs) {
    forall key :: AttrValue(a, key) == AttrValue(b, key)
  }

  /** Records that are not kept whole as an unrecognised event. */
  predicate Recognised(a: Attrs) {
    match OperationOf(a)
    case FileOperation => FileDiff(a).Some?
    case Dialogue => DialogueDrafts(a) != []
    case _ => true
  }

  /** The kind with another call id, where it has one. */
  function WithCall(kind: EventKind, callId: string): EventKind {
    match kind
    case ToolCall(_, name, args) => ToolCall(callId, name, args)
    case ToolResult(_, ok, output) => ToolResult(callId, ok, output)
    case FileEdit(Some(_), diff) => FileEdit(Some(callId), diff)
    case _ => kind
  }

  function WithCalls(kinds: seq<EventKind>, callId: string): seq<EventKind> {
    seq(|kinds|, i requires 0 <= i < |kinds| => WithCall(kinds[i], callId))
  }

  function OpKinds(ops: seq<Op>): seq<EventKind> {
    if ops == [] then []
    else OpKinds(ops[..|ops| - 1]) + if ops[|ops| - 1].Emit? then [ops[|ops| - 1].kind] else []
  }

  lemma {:induction false} DraftKinds(h: Host, raw: RawRecord, raw': RawRecord, ts: int, ts': int, ds: seq<Draft>)
    ensures OpKinds(EmitDrafts(h, raw, ts, ds)) == OpKinds(EmitDrafts(h, raw', ts', ds))
  {
    if ds != [] {
      DraftKinds(h, raw, raw', ts, ts', ds[..|ds| - 1]);
      assert EmitDrafts(h, raw, ts, ds)[..|ds| - 1] == EmitDrafts(h, raw, ts, ds[..|ds| - 1]);
      assert EmitDrafts(h, raw', ts', ds)[..|ds| - 1] == EmitDrafts(h, raw', ts', ds[..|ds| - 1]);
    }
  }

  lemma {:induction false} OpKindsSnoc(ops: seq<Op>, op: Op)
    ensures OpKinds(ops + [op]) == OpKinds(ops) + if op.Emit? then [op.kind] else []
  {
    assert (ops + [op])[..|ops|] == ops;
  }

  lemma CallKinds(
      h: Host, raw: RawRecord, a: Attrs, ts: int, callId: string, ok: Option<bool>, diff: Option<Diff>)
    ensures OpKinds(CallOps(h, raw, a, ts, callId, ok, diff)) == ToolKindsOf(callId, a, ok, diff)
  {
    var call := [NameCall(callId, ToolName(a)), EmitDraft(h, raw, ts, CallDraft(callId, a))];
    PairKinds(call[0], call[1]);
    var result: seq<Op> := if ok.None? then []
      else [RecordOutcome(callId, ok.value), EmitDraft(h, raw, ts, ResultDraft(callId, ok.value, a))];
    if ok.Some? {
      PairKinds(result[0], result[1]);
    }
    var edit: seq<Op> := if diff.None? then [] else [EmitDraft(h, raw, ts, EditDraft(Some(callId), diff.value))];
    if diff.Some? {
      SingleKind(edit[0]);
    }
    OpKindsConcat(call, result + edit);
    OpKindsConcat(result, edit);
  }

  lemma {:induction false} OpKindsConcat(a: seq<Op>, b: seq<Op>)
    ensures OpKinds(a + b) == OpKinds(a) + OpKinds(b)
  {
    if b == [] {
      assert a + b == a;
      assert OpKinds(a) + [] == OpKinds(a);
    } else {
      var init, last := b[..|b| - 1], b[|b| - 1];
      assert a + b == (a + init) + [last] && b == init + [last];
      OpKindsConcat(a, init);
      OpKindsSnoc(a + init, last);
      OpKindsSnoc(init, last);
    }
  }

  lemma PairKinds(silent: Op, op: Op)
    requires !silent.Emit? && op.Emit?
    ensures OpKinds([silent, op]) == [op.kind]
  {
    OpKindsSnoc([], silent);
    assert [] + [silent] == [silent];
    OpKindsSnoc([silent], op);
    assert [silent] + [op] == [silent, op];
    assert OpKinds([silent]) == [];
  }

  lemma SameOperation(a: Attrs, b: Attrs)
    requires SameAttributes(a, b)
    ensures OperationName(a) == OperationName(b) && OperationOf(a) == OperationOf(b)
  {
  }

  lemma SameStart(a: Attrs, b: Attrs)
    requires SameAttributes(a, b)
    ensures StartKind(a) == StartKind(b)
  {
  }

  lemma SameCounts(a: Attrs, b: Attrs)
    requires SameAttributes(a, b)
    ensures forall key :: AttrU64(a, key) == AttrU64(b, key) && AttrU32(a, key) == AttrU32(b, key)
  {
  }

  lemma SameDiff(a: Attrs, b: Attrs)
    requires SameAttributes(a, b)
    ensures FileDiff(a) == FileDiff(b)
  {
    SameCounts(a, b);
  }

  lemma SameToolOk(a: Attrs, b: Attrs)
    requires SameAttributes(a, b)
    ensures ToolOk(a) == ToolOk(b) && ToolName(a) == ToolName(b)
  {
  }

  lemma SameDialogue(a: Attrs, b: Attrs)
    requires SameAttributes(a, b)
    ensures DialogueDrafts(a) == DialogueDrafts(b)
  {
    SameUsage(a, b);
    SamePrompt(a, b);
  }

  lemma SameUsage(a: Attrs, b: Attrs)
    requires SameAttributes(a, b)
    ensures UsageOf(a) == UsageOf(b)
  {
    SameCounts(a, b);
  }

  lemma SamePrompt(a: Attrs, b: Attrs)
    requires SameAttributes(a, b)
    ensures PromptDrafts(a) == PromptDrafts(b)
  {
  }

  lemma SingleKind(op: Op)
    requires op.Emit?
    ensures OpKinds([op]) == [op.kind]
  {
    assert [op][..0] == [];
  }

  lemma StartKinds(h: Host, project: Option<ProjectRef>, raw: RawRecord, a: Attrs, ts: int)
    ensures OpKinds(StartOps(h, project, raw, a, ts)) == [StartKind(a)]
  {
    var e := EmitDraft(h, raw, ts, Draft("session_start", 0, StartKind(a)));
    SingleKind(e);
    if project.None? {
      var bind := BindProject(ProjectRef(Cwd(a), AttrStr(a, "repo_root"), GitOf(a)));
      OpKindsSnoc([], bind);
      assert [] + [bind] == [bind];
      OpKindsSnoc([bind], e);
    }
  }

  function ToolKindsOf(callId: string, a: Attrs, ok: Option<bool>, diff: Option<Diff>): seq<EventKind> {
    [CallDraft(callId, a).kind]
    + ((if ok.Some? then [ResultDraft(callId, ok.value, a).kind] else [])
       + (if diff.Some? then [EditDraft(Some(callId), diff.value).kind] else []))
  }

  lemma ToolKindsRenamed(c: string, a: Attrs, d: string, b: Attrs, ok: Option<bool>, diff: Option<Diff>)
    requires SameAttributes(a, b)
    ensures ToolKindsOf(d, b, ok, diff) == WithCalls(ToolKindsOf(c, a, ok, diff), d)
    ensures ToolKindsOf(d, b, ok, diff) == ToolKindsOf(c, a, ok, diff) <==> c == d
  {
    assert CallDraft(d, b) == CallDraft(d, a);
    forall flag ensures ResultDraft(d, flag, b) == ResultDraft(d, flag, a) {
    }
    assert ToolKindsOf(d, b, ok, diff)[0].callId == d && ToolKindsOf(c, a, ok, diff)[0].callId == c;
  }

  lemma SameToolKinds(h: Host, raw: RawRecord, a: Attrs, ts: int, raw': RawRecord, b: Attrs, ts': int)
    requires SameAttributes(a, b)
    ensures var x, y := OpKinds(ToolOps(h, raw, a, ts)), OpKinds(ToolOps(h, raw', b, ts'));
      y == WithCalls(x, CallIdOf(h, raw', b)) && (x == y <==> CallIdOf(h, raw, a) == CallIdOf(h, raw', b))
  {
    SameToolOk(a, b);
    SameDiff(a, b);
    CallKinds(h, raw, a, ts, CallIdOf(h, raw, a), ToolOk(a), FileDiff(a));
    CallKinds(h, raw', b, ts', CallIdOf(h, raw', b), ToolOk(b), FileDiff(b));
    ToolKindsRenamed(CallIdOf(h, raw, a), a, CallIdOf(h, raw', b), b, ToolOk(a), FileDiff(a));
  }

  lemma SameOneKind(h: Host, raw: RawRecord, ts: int, d: Draft, raw': RawRecord, ts': int)
    ensures OpKinds([EmitDraft(h, raw, ts, d)]) == OpKinds([EmitDraft(h, raw', ts', d)])
  {
    SingleKind(EmitDraft(h, raw, ts, d));
    SingleKind(EmitDraft(h, raw', ts', d));
  }

  lemma SameFileKinds(h: Host, raw: RawRecord, a: Attrs, ts: int, raw': RawRecord, b: Attrs, ts': int)
    requires SameAttributes(a, b) && FileDiff(a).Some?
    ensures OpKinds(FileOps(h, raw, a, ts)) == OpKinds(FileOps(h, raw', b, ts'))
  {
    SameDiff(a, b);
    SameOneKind(h, raw, ts, EditDraft(None, FileDiff(a).value), raw', ts');
  }

  lemma SameDialogueKinds(h: Host, raw: RawRecord, a: Attrs, ts: int, raw': RawRecord, b: Attrs, ts': int)
    requires SameAttributes(a, b) && DialogueDrafts(a) != []
    ensures OpKinds(DialogueOps(h, raw, a, ts)) == OpKinds(DialogueOps(h, raw', b, ts'))
  {
    SameDialogue(a, b);
    DraftKinds(h, raw, raw', ts, ts', DialogueDrafts(a));
  }

  function WholeKind(a: Attrs): EventKind {
    Unknown(StrField(a.raw, "type").GetOr("unknown"), a.raw)
  }

  lemma WholeKinds(h: Host, project: Option<ProjectRef>, raw: RawRecord, a: Attrs)
    requires !Recognised(a)
    ensures OpKinds(RecordOps(h, project, raw, a)) == [WholeKind(a)]
  {
    SingleKind(UnknownOp(h, raw, a.raw));
  }

  lemma SameRecognised(a: Attrs, b: Attrs)
    requires SameAttributes(a, b)
    ensures Recognised(a) <==> Recognised(b)
  {
    SameOperation(a, b);
    SameDiff(a, b);
    SameDialogue(a, b);
  }

  /** The call ids of two records with the same attributes agree. */
  predicate SameCallId(h: Host, raw: RawRecord, a: Attrs, raw': RawRecord) {
    AttrStr(a, "gen_ai.tool.call.id").Some? || h.contentId(raw.bytes) == h.contentId(raw'.bytes)
  }

  /** The kinds two records with the same attributes give. */
  ghost predicate KindsMatch(h: Host, raw: RawRecord, a: Attrs, raw': RawRecord, b: Attrs,
                             x: seq<EventKind>, y: seq<EventKind>) {
    if !Recognised(a) then x == [WholeKind(a)] && y == [WholeKind(b)]
    else if OperationOf(a).ExecuteTool? then
      y == WithCalls(x, CallIdOf(h, raw', b)) && (x == y <==> SameCallId(h, raw, a, raw'))
    else x == y
  }

  /**
   Records with the same attributes give the same event kinds, in the same order. A
   tool operation without a call id is given the hash of its bytes, so its kinds agree
   up to that id; a record that nothing recognises is kept whole, each its own.
   */
  lemma {:induction false} SameEventKinds(
      h: Host, p: Option<ProjectRef>, raw: RawRecord, a: Attrs, p': Option<ProjectRef>, raw': RawRecord, b: Attrs)
    requires SameAttributes(a, b)
    ensures KindsMatch(h, raw, a, raw', b, OpKinds(RecordOps(h, p, raw, a)), OpKinds(RecordOps(h, p', raw', b)))
  {
    if !Recognised(a) {
      SameRecognised(a, b);
      WholeKinds(h, p, raw, a);
      WholeKinds(h, p', raw', b);
    } else if OperationOf(a).ExecuteTool? {
      ToolsMatch(h, p, raw, a, p', raw', b);
    } else {
      SameOperation(a, b);
      SamePlainKinds(h, p, raw, a, p', raw', b);
    }
  }

  lemma ToolsMatch(
      h: Host, p: Option<ProjectRef>, raw: RawRecord, a: Attrs, p': Option<ProjectRef>, raw': RawRecord, b: Attrs)
    requires SameAttributes(a, b) && OperationOf(a).ExecuteTool?
    ensures var x, y := OpKinds(RecordOps(h, p, raw, a)), OpKinds(RecordOps(h, p', raw', b));
      y == WithCalls(x, CallIdOf(h, raw', b)) && (x == y <==> SameCallId(h, raw, a, raw'))
  {
    SameOperation(a, b);
    ToolRecord(h, p, raw, a);
    ToolRecord(h, p', raw', b);
    SameToolKinds(h, raw, a, Timestamp(h, a), raw', b, Timestamp(h, b));
    SameCallIds(h, raw, a, raw', b);
  }

  lemma ToolRecord(h: Host, p: Option<ProjectRef>, raw: RawRecord, a: Attrs)
    requires OperationOf(a).ExecuteTool?
    ensures RecordOps(h, p, raw, a) == ToolOps(h, raw, a, Timestamp(h, a))
  {
  }

  lemma SameCallIds(h: Host, raw: RawRecord, a: Attrs, raw': RawRecord, b: Attrs)
    requires SameAttributes(a, b)
    ensures CallIdOf(h, raw, a) == CallIdOf(h, raw', b) <==> SameCallId(h, raw, a, raw')
  {
    assert AttrStr(a, "gen_ai.tool.call.id") == AttrStr(b, "gen_ai.tool.call.id");
  }

  lemma SamePlainKinds(
      h: Host, p: Option<ProjectRef>, raw: RawRecord, a: Attrs, p': Option<ProjectRef>, raw': RawRecord, b: Attrs)
    requires SameAttributes(a, b) && Recognised(a) && !OperationOf(a).ExecuteTool?
    requires OperationOf(a) == OperationOf(b)
    ensures OpKinds(RecordOps(h, p, raw, a)) == OpKinds(RecordOps(h, p', raw', b))
  {
    var ts, ts' := Timestamp(h, a), Timestamp(h, b);
    match OperationOf(a)
    case StartSession => SameStartKinds(h, p, raw, a, ts, p', raw', b, ts');
    case EndSession => SameEndKinds(h, raw, a, ts, raw', b, ts');
    case FileOperation => SameFileKinds(h, raw, a, ts, raw', b, ts');
    case Dialogue => SameDialogueKinds(h, raw, a, ts, raw', b, ts');
  }

  lemma SameStartKinds(
      h: Host, p: Option<ProjectRef>, raw: RawRecord, a: Attrs, ts: int,
      p': Option<ProjectRef>, raw': RawRecord, b: Attrs, ts': int)
    requires SameAttributes(a, b)
    ensures OpKinds(StartOps(h, p, raw, a, ts)) == OpKinds(StartOps(h, p', raw', b, ts'))
  {
    SameStart(a, b);
    StartKinds(h, p, raw, a, ts);
    StartKinds(h, p', raw', b, ts');
  }

  lemma SameEndKinds(h: Host, raw: RawRecord, a: Attrs, ts: int, raw': RawRecord, b: Attrs, ts': int)
    requires SameAttributes(a, b)
    ensures OpKinds(EndOps(h, raw, a, ts)) == OpKinds(EndOps(h, raw', b, ts'))
  {
    assert AttrStr(a, "reason") == AttrStr(b, "reason");
    SameOneKind(h, raw, ts, Draft("session_end", 0, SessionEnd(AttrStr(a, "reason"))), raw', ts');
  }

  /** The flat and the nested record of the same attributes give matching event kinds. */
  lemma {:induction false} ShapesGiveSameKinds(
    h: Host, attributes: map<string, Value>, p: Option<ProjectRef>, raw: RawRecord, flat: Value,
    p': Option<ProjectRef>, raw': RawRecord, nested: Value)
    requires FlatOf(attributes, flat) && NestedOf(false, attributes, nested)
    ensures var a, b := FromRecord(flat), FromRecord(nested);
      KindsMatch(h, raw, a, raw', b, OpKinds(RecordOps(h, p, raw, a)), OpKinds(RecordOps(h, p', raw', b)))
  {
    forall key ensures AttrValue(FromRecord(flat), key) == AttrValue(FromRecord(nested), key) {
      ShapesAgree(attributes, flat, nested, key);
    }
    SameEventKinds(h, p, raw, FromRecord(flat), p', raw', FromRecord(nested));
  }

  // ---- Integers as text -----------------------------------------------------------

  lemma {:induction false} TrimDigits(s: string)
    requires AllDigits(s)
    ensures Text.Trim(s) == s
  {
    Text.TrimCore("", s, "") by {
      if s != "" {
        assert s[0] in s && s[|s| - 1] in s;
      }
    }
    assert "" + s + "" == s;
  }

  lemma DecimalReads(n: nat)
    requires n < U64_LIMIT
    ensures ParseU64(Text.Trim(Text.Decimal(n))) == Some(n)
  {
    var s := Text.Decimal(n);
    TrimDigits(s);
    assert s[0] in s;
    Text.DecimalRoundTrip(n);
  }

  lemma NegativeUnread(n: int)
    requires n < 0
    ensures ParseU64(Text.Trim(SignedText(n))) == None
  {
    var digits := Text.Decimal(-n);
    var s := "-" + digits;
    assert digits[|digits| - 1] in digits;
    assert s[|s| - 1] == digits[|digits| - 1];
    Text.TrimFixed(s);
    assert s[0] in s;
  }

  lemma {:induction false} TooLargeUnread(n: nat)
    requires n >= U64_LIMIT
    ensures ParseU64(Text.Trim(Text.Decimal(n))) == None
  {
    var s := Text.Decimal(n);
    TrimDigits(s);
    assert s[0] in s;
    Text.DecimalRoundTrip(n);
  }

  /** Decimal text and the number it shows are the same unsigned attribute. */
  lemma {:induction false} TextualIntegersAgree(v: Value)
    ensures U64Of(Otlp.Shown(true, v)) == U64Of(v)
  {
    if v.Number? {
      if v.n < 0 {
        NegativeUnread(v.n);
      } else if v.n < U64_LIMIT {
        DecimalReads(v.n);
      } else {
        TooLargeUnread(v.n);
      }
    }
  }

  /** Unsigned attributes agree between the shapes even when integers are decimal strings. */
  lemma {:induction false} ShapesAgreeOnU64(attributes: map<string, Value>, flat: Value, nested: Value, key: string)
    requires FlatOf(attributes, flat) && NestedOf(true, attributes, nested)
    ensures AttrU64(FromRecord(flat), key) == AttrU64(FromRecord(nested), key)
  {
    NestedLookup(true, attributes, nested, key);
    if key in attributes {
      TextualIntegersAgree(attributes[key]);
    }
  }
}
