/** At-least-once delivery of Claude Code records equals exactly-once delivery. */
module ClaudeLaws {
  import opened Wrappers
  import opened Json
  import opened Events
  import opened Ctx
  import opened CtxLaws
  import opened ClaudePlan
  import Text

  function Planned(h: Host): Planner {
    (s: State, raw: RawRecord) => Plan(h, s.sessionId, s.project, raw)
  }

  predicate IsJson(h: Host, raw: RawRecord) {
    ParseJsonLine(h, raw).Some?
  }

  predicate Delivered(recs: seq<RawRecord>, bytes: string) {
    exists r | r in recs :: r.bytes == bytes
  }

  /** The stream without the JSON records whose very bytes came earlier. */
  function ExactlyOnce(h: Host, recs: seq<RawRecord>): seq<RawRecord> {
    if recs == [] then []
    else
      var init, last := recs[..|recs| - 1], recs[|recs| - 1];
      ExactlyOnce(h, init) + if IsJson(h, last) && Delivered(init, last.bytes) then [] else [last]
  }

  /** What delivering a JSON record leaves behind: its id seen, its session known. */
  predicate Settled(h: Host, s: State, raw: RawRecord) {
    IsJson(h, raw) ==>
      var value := ParseJsonLine(h, raw).value;
      Uuid(h, raw, value) in s.seen && (StrField(value, "sessionId").Some? ==> s.sessionId.Some?)
  }

  /** The context never forgets an id or a session. */
  predicate Grew(s: State, t: State) {
    s.seen <= t.seen && (s.sessionId.Some? ==> t.sessionId.Some?)
  }

  lemma {:induction false} ExecGrows(raw: RawRecord, s: State, ops: seq<Op>)
    ensures Grew(s, Exec(ClaudeCode, raw, s, ops).0)
    decreases ops
  {
    if ops != [] {
      if ops[0].Once? && ops[0].guard !in s.seen {
        ExecGrows(raw, s.(seen := s.seen + {ops[0].guard}), ops[0].body);
      }
      ExecGrows(raw, ExecOp(ClaudeCode, raw, s, ops[0]).0, ops[1..]);
    }
  }

  lemma StepSettles(h: Host, s: State, raw: RawRecord)
    ensures Settled(h, Exec(ClaudeCode, raw, s, Planned(h)(s, raw)).0, raw)
  {
    if IsJson(h, raw) {
      var value := ParseJsonLine(h, raw).value;
      var ops := RecordOps(h, s.sessionId, s.project, raw, value);
      ExecSeesGuards(ClaudeCode, raw, s, ops);
      assert ops[|ops| - 1] in ops;
      ExecGrows(raw, s, ops);
      if s.sessionId.None? && StrField(value, "sessionId").Some? {
        ExecGrows(raw, ExecOp(ClaudeCode, raw, s, ops[0]).0, ops[1..]);
      }
    }
  }

  /** A settled record, delivered again under any location, does nothing at all. */
  lemma RedeliveryIsSilent(h: Host, s: State, raw: RawRecord, again: RawRecord)
    requires IsJson(h, raw) && Settled(h, s, raw) && again.bytes == raw.bytes
    ensures Exec(ClaudeCode, again, s, Planned(h)(s, again)) == (s, [])
  {
    var value := ParseJsonLine(h, raw).value;
    assert ParseJsonLine(h, again) == Some(value);
    var ops := RecordOps(h, s.sessionId, s.project, again, value);
    assert |ops| == 1 && ops == [ops[0]];
    ExecOne(ClaudeCode, again, s, ops[0]);
  }

  lemma {:induction false} RunSettles(h: Host, s: State, recs: seq<RawRecord>)
    ensures forall raw | raw in recs :: Settled(h, Run(ClaudeCode, Planned(h), s, recs).0, raw)
  {
    if recs != [] {
      var init, last := recs[..|recs| - 1], recs[|recs| - 1];
      assert recs == init + [last];
      RunSettles(h, s, init);
      RunSnoc(ClaudeCode, Planned(h), s, init, last);
      var t := Run(ClaudeCode, Planned(h), s, init).0;
      StepSettles(h, t, last);
      ExecGrows(last, t, Planned(h)(t, last));
    }
  }

  /** One more delivery of a JSON record already delivered changes nothing. */
  lemma SilentAtEnd(h: Host, s: State, init: seq<RawRecord>, last: RawRecord)
    requires IsJson(h, last) && Delivered(init, last.bytes)
    ensures Run(ClaudeCode, Planned(h), s, init + [last]) == Run(ClaudeCode, Planned(h), s, init)
  {
    var first :| first in init && first.bytes == last.bytes;
    RunSettles(h, s, init);
    RunSnoc(ClaudeCode, Planned(h), s, init, last);
    var t := Run(ClaudeCode, Planned(h), s, init);
    RedeliveryIsSilent(h, t.0, first, last);
    assert t.1 + [] == t.1;
  }

  /**
   Delivering byte-identical JSON records again, at any later positions and any
   number of times, changes neither the emitted events nor any field of the context.
   */
  lemma {:induction false} AtLeastOnceIsExactlyOnce(h: Host, s: State, recs: seq<RawRecord>)
    ensures Run(ClaudeCode, Planned(h), s, recs) == Run(ClaudeCode, Planned(h), s, ExactlyOnce(h, recs))
  {
    if recs != [] {
      var init, last := recs[..|recs| - 1], recs[|recs| - 1];
      assert recs == init + [last];
      AtLeastOnceIsExactlyOnce(h, s, init);
      if IsJson(h, last) && Delivered(init, last.bytes) {
        SilentAtEnd(h, s, init, last);
        assert ExactlyOnce(h, recs) == ExactlyOnce(h, init);
      } else {
        RunSnoc(ClaudeCode, Planned(h), s, init, last);
        RunSnoc(ClaudeCode, Planned(h), s, ExactlyOnce(h, init), last);
      }
    }
  }

  /** Two deliveries of the same records, however often each is repeated, agree. */
  lemma {:induction false} DeliveriesAgree(h: Host, s: State, a: seq<RawRecord>, b: seq<RawRecord>)
    requires ExactlyOnce(h, a) == ExactlyOnce(h, b)
    ensures Run(ClaudeCode, Planned(h), s, a) == Run(ClaudeCode, Planned(h), s, b)
  {
    AtLeastOnceIsExactlyOnce(h, s, a);
    AtLeastOnceIsExactlyOnce(h, s, b);
  }

  // ---- Lines that are not JSON ------------------------------------------------------------

  predicate Blank(h: Host, raw: RawRecord) {
    h.text(raw.bytes) == ""
  }

  /** A line that is neither JSON nor blank is kept as an unrecognised event, under no guard. */
  predicate Loud(h: Host, raw: RawRecord) {
    !IsJson(h, raw) && !Blank(h, raw)
  }

  lemma PlainLine(h: Host, s: State, raw: RawRecord)
    requires !IsJson(h, raw)
    ensures var r := Exec(ClaudeCode, raw, s, Planned(h)(s, raw));
      if Loud(h, raw) then |r.1| == 1 && r.0 == s.(nextSeq := s.nextSeq + 1) else r == (s, [])
  {
    if Loud(h, raw) {
      ExecOne(ClaudeCode, raw, s, UnknownOp(h, raw, Str(h.text(raw.bytes))));
    }
  }

  /** One more delivery of a line already delivered is silent exactly when the line is JSON or blank. */
  lemma {:induction false} RedeliverySilentExactly(h: Host, s: State, init: seq<RawRecord>, last: RawRecord)
    requires Delivered(init, last.bytes)
    ensures Run(ClaudeCode, Planned(h), s, init + [last]) == Run(ClaudeCode, Planned(h), s, init)
      <==> IsJson(h, last) || Blank(h, last)
  {
    var t := Run(ClaudeCode, Planned(h), s, init);
    if IsJson(h, last) {
      SilentAtEnd(h, s, init, last);
    } else {
      RunSnoc(ClaudeCode, Planned(h), s, init, last);
      PlainLine(h, t.0, last);
      assert t.1 + [] == t.1;
    }
  }

  type Outcome = (State, seq<CaptureEvent>)

  /** The same context and as many events, but for `n` more events. */
  predicate Ahead(x: Outcome, y: Outcome, n: nat) {
    y.0 == x.0.(nextSeq := x.0.nextSeq + n) && |y.1| == |x.1| + n
  }

  predicate SameButCounter(x: Outcome, y: Outcome, n: nat) {
    y.0 == x.0.(nextSeq := x.0.nextSeq + n) && |y.1| == |x.1|
  }

  function Shifted(s: State, n: nat): State {
    s.(nextSeq := s.nextSeq + n)
  }

  /** Operations do not look at the counter: they only move it. */
  lemma {:induction false} ExecShifted(raw: RawRecord, s: State, n: nat, ops: seq<Op>)
    ensures SameButCounter(Exec(ClaudeCode, raw, s, ops), Exec(ClaudeCode, raw, Shifted(s, n), ops), n)
    decreases ops
  {
    if ops != [] {
      OpShifted(raw, s, n, ops[0]);
      ExecShifted(raw, ExecOp(ClaudeCode, raw, s, ops[0]).0, n, ops[1..]);
    }
  }

  lemma {:induction false} OpShifted(raw: RawRecord, s: State, n: nat, op: Op)
    ensures SameButCounter(ExecOp(ClaudeCode, raw, s, op), ExecOp(ClaudeCode, raw, Shifted(s, n), op), n)
    decreases op
  {
    if op.Once? && op.guard !in s.seen {
      ExecShifted(raw, s.(seen := s.seen + {op.guard}), n, op.body);
    }
  }

  /** The stream without any line whose very bytes came earlier. */
  function FirstDeliveries(recs: seq<RawRecord>): seq<RawRecord> {
    if recs == [] then []
    else
      var init, last := recs[..|recs| - 1], recs[|recs| - 1];
      FirstDeliveries(init) + if Delivered(init, last.bytes) then [] else [last]
  }

  /** How many lines that are neither JSON nor blank repeat an earlier one. */
  function LoudRepeats(h: Host, recs: seq<RawRecord>): nat {
    if recs == [] then 0
    else
      var init, last := recs[..|recs| - 1], recs[|recs| - 1];
      LoudRepeats(h, init) + if Delivered(init, last.bytes) && Loud(h, last) then 1 else 0
  }

  lemma RepeatStep(h: Host, s: State, init: seq<RawRecord>, last: RawRecord, once: Outcome, n: nat)
    requires Delivered(init, last.bytes) && Ahead(once, Run(ClaudeCode, Planned(h), s, init), n)
    ensures Ahead(once, Run(ClaudeCode, Planned(h), s, init + [last]), n + if Loud(h, last) then 1 else 0)
  {
    if IsJson(h, last) {
      SilentAtEnd(h, s, init, last);
    } else {
      RunSnoc(ClaudeCode, Planned(h), s, init, last);
      PlainLine(h, Run(ClaudeCode, Planned(h), s, init).0, last);
    }
  }

  lemma FreshStep(h: Host, s: State, a: seq<RawRecord>, b: seq<RawRecord>, last: RawRecord, n: nat)
    requires Ahead(Run(ClaudeCode, Planned(h), s, b), Run(ClaudeCode, Planned(h), s, a), n)
    ensures Ahead(Run(ClaudeCode, Planned(h), s, b + [last]), Run(ClaudeCode, Planned(h), s, a + [last]), n)
  {
    var t := Run(ClaudeCode, Planned(h), s, b).0;
    RunSnoc(ClaudeCode, Planned(h), s, a, last);
    RunSnoc(ClaudeCode, Planned(h), s, b, last);
    ExecShifted(last, t, n, Planned(h)(t, last));
    assert Planned(h)(Shifted(t, n), last) == Planned(h)(t, last);
  }

  /** Repeats add exactly one event for each such line, and leave the counter so much further. */
  lemma {:induction false} RepeatsCounted(h: Host, s: State, recs: seq<RawRecord>)
    ensures Ahead(Run(ClaudeCode, Planned(h), s, FirstDeliveries(recs)), Run(ClaudeCode, Planned(h), s, recs),
                  LoudRepeats(h, recs))
  {
    if recs != [] {
      var init, last := recs[..|recs| - 1], recs[|recs| - 1];
      assert recs == init + [last];
      RepeatsCounted(h, s, init);
      if Delivered(init, last.bytes) {
        var once := Run(ClaudeCode, Planned(h), s, FirstDeliveries(init));
        RepeatStep(h, s, init, last, once, LoudRepeats(h, init));
        assert FirstDeliveries(recs) == FirstDeliveries(init);
      } else {
        FreshStep(h, s, init, FirstDeliveries(init), last, LoudRepeats(h, init));
      }
    }
  }

  /** The line at `k` repeats none before it, or is JSON or blank. */
  predicate QuietAt(h: Host, recs: seq<RawRecord>, k: nat)
    requires k < |recs|
  {
    Delivered(recs[..k], recs[k].bytes) ==> IsJson(h, recs[k]) || Blank(h, recs[k])
  }

  lemma QuietBefore(h: Host, recs: seq<RawRecord>, n: nat, k: nat)
    requires k < n <= |recs|
    ensures QuietAt(h, recs[..n], k) <==> QuietAt(h, recs, k)
  {
    assert recs[..n][..k] == recs[..k];
  }

  lemma {:induction false} NoLoudRepeat(h: Host, recs: seq<RawRecord>)
    ensures LoudRepeats(h, recs) == 0 <==> forall k | 0 <= k < |recs| :: QuietAt(h, recs, k)
  {
    if recs != [] {
      var n := |recs| - 1;
      var init := recs[..n];
      NoLoudRepeat(h, init);
      forall k | 0 <= k < n ensures QuietAt(h, init, k) <==> QuietAt(h, recs, k) {
        QuietBefore(h, recs, n, k);
      }
      assert LoudRepeats(h, recs) == LoudRepeats(h, init) + if QuietAt(h, recs, n) then 0 else 1;
    }
  }

  lemma {:induction false} DroppedQuietly(h: Host, s: State, recs: seq<RawRecord>)
    requires LoudRepeats(h, recs) == 0
    ensures Run(ClaudeCode, Planned(h), s, recs) == Run(ClaudeCode, Planned(h), s, FirstDeliveries(recs))
  {
    if recs != [] {
      var init, last := recs[..|recs| - 1], recs[|recs| - 1];
      assert recs == init + [last];
      DroppedQuietly(h, s, init);
      if Delivered(init, last.bytes) {
        RedeliverySilentExactly(h, s, init, last);
        assert FirstDeliveries(recs) == FirstDeliveries(init);
      } else {
        RunSnoc(ClaudeCode, Planned(h), s, init, last);
        RunSnoc(ClaudeCode, Planned(h), s, FirstDeliveries(init), last);
      }
    }
  }

  /** So dropping every repeat changes nothing exactly when each repeated line is JSON or blank. */
  lemma {:induction false} OnceSufficesExactly(h: Host, s: State, recs: seq<RawRecord>)
    ensures Run(ClaudeCode, Planned(h), s, recs) == Run(ClaudeCode, Planned(h), s, FirstDeliveries(recs))
      <==> forall k | 0 <= k < |recs| :: QuietAt(h, recs, k)
  {
    RepeatsCounted(h, s, recs);
    NoLoudRepeat(h, recs);
    if LoudRepeats(h, recs) == 0 {
      DroppedQuietly(h, s, recs);
    }
  }

  // ---- Turn text ------------------------------------------------------------

  predicate HasText(b: Value) {
    BlockType(b) == "text" && StrOrEmpty(b, "text") != ""
  }

  function NonEmptyTexts(blocks: seq<Value>): seq<string> {
    if blocks == [] then []
    else
      var texts, b := NonEmptyTexts(blocks[..|blocks| - 1]), blocks[|blocks| - 1];
      if HasText(b) then texts + [StrOrEmpty(b, "text")] else texts
  }

  lemma AddBlockEffect(t: Turn, b: Value)
    ensures AddBlock(t, b).text == if HasText(b) then Text.PushLine(t.text, StrOrEmpty(b, "text")) else t.text
    ensures AddBlock(t, b).parts == t.parts + [BlockPart(b)]
  {
  }

  lemma {:induction false} NonEmptyTextsAre(blocks: seq<Value>)
    ensures forall t | t in NonEmptyTexts(blocks) :: t != ""
  {
    if blocks != [] {
      NonEmptyTextsAre(blocks[..|blocks| - 1]);
    }
  }

  /** Joining non-empty pieces one by one gives the joined pieces. */
  lemma JoinOneMore(texts: seq<string>, t: string)
    requires forall x | x in texts :: x != ""
    ensures Text.Join(texts + [t], "\n") == Text.PushLine(Text.Join(texts, "\n"), t)
  {
    Text.JoinSnoc(texts, t, "\n");
    if texts != [] {
      assert texts[0] in texts;
      Text.JoinNonEmpty(texts, "\n");
    }
  }

  /** The text of a turn is its non-empty text blocks joined by line feeds; every block gives one part. */
  lemma {:induction false} TurnTextJoins(blocks: seq<Value>)
    ensures TurnOf(blocks).text == Text.Join(NonEmptyTexts(blocks), "\n")
    ensures TurnOf(blocks).parts == seq(|blocks|, i requires 0 <= i < |blocks| => BlockPart(blocks[i]))
  {
    if blocks != [] {
      var init, b := blocks[..|blocks| - 1], blocks[|blocks| - 1];
      TurnTextJoins(init);
      AddBlockEffect(TurnOf(init), b);
      NonEmptyTextsAre(init);
      if HasText(b) {
        JoinOneMore(NonEmptyTexts(init), StrOrEmpty(b, "text"));
      }
    }
  }
}
