/** File edits of the Codex adapter: legacy patches, keyed on the path, and applied patches. */
module CodexEdits {
  import opened Wrappers
  import opened Json
  import opened Events
  import opened Ctx
  import opened CodexPlan
  import OrderedKeys
  import Text
  import V4aPatch

  // ---- Legacy patches ---------------------------------------------------------

  ghost predicate Injective(f: string -> string) {
    forall a, b | f(a) == f(b) :: a == b
  }

  predicate HasPath(sections: seq<V4aPatch.PatchSection>, path: string) {
    exists s | s in sections :: s.path == path
  }

  /** The sections whose path no earlier section has. */
  function FirstPerPath(sections: seq<V4aPatch.PatchSection>): seq<V4aPatch.PatchSection> {
    if sections == [] then []
    else
      var init, last := sections[..|sections| - 1], sections[|sections| - 1];
      FirstPerPath(init) + if HasPath(init, last.path) then [] else [last]
  }

  /** Where the sections stand whose path no earlier section has. */
  function FirstAt(sections: seq<V4aPatch.PatchSection>): seq<nat> {
    if sections == [] then []
    else
      var n := |sections| - 1;
      FirstAt(sections[..n]) + if HasPath(sections[..n], sections[n].path) then [] else [n]
  }

  /** The section at `k` is the first of its path. */
  ghost predicate IsFirst(sections: seq<V4aPatch.PatchSection>, k: nat) {
    k < |sections| && forall m | 0 <= m < k :: sections[m].path != sections[k].path
  }

  ghost predicate PathsDistinct(sections: seq<V4aPatch.PatchSection>) {
    forall i, j | 0 <= i < j < |sections| :: sections[i].path != sections[j].path
  }

  lemma {:induction false} FirstPlaces(sections: seq<V4aPatch.PatchSection>)
    ensures |FirstAt(sections)| == |FirstPerPath(sections)|
    ensures forall i | 0 <= i < |FirstAt(sections)| ::
      IsFirst(sections, FirstAt(sections)[i]) && FirstPerPath(sections)[i] == sections[FirstAt(sections)[i]]
    ensures forall i, j | 0 <= i < j < |FirstAt(sections)| :: FirstAt(sections)[i] < FirstAt(sections)[j]
    ensures forall k | IsFirst(sections, k) :: k in FirstAt(sections)
  {
    if sections != [] {
      var n := |sections| - 1;
      var init := sections[..n];
      FirstPlaces(init);
      FirstInInit(sections);
      var at := FirstAt(init);
      forall i | 0 <= i < |at| ensures IsFirst(sections, at[i]) && sections[at[i]] == init[at[i]] && at[i] < n {
        assert IsFirst(init, at[i]);
      }
    }
  }

  lemma FirstInInit(sections: seq<V4aPatch.PatchSection>)
    requires sections != []
    ensures var n := |sections| - 1;
      && (forall k | 0 <= k < n :: IsFirst(sections[..n], k) <==> IsFirst(sections, k))
      && (HasPath(sections[..n], sections[n].path) <==> !IsFirst(sections, n))
  {
    LastRepeats(sections);
  }

  /**
   The kept sections are exactly those that stand first of their path, in order, so
   every path is kept and none twice; and nothing is dropped iff no path repeats.
   */
  lemma {:induction false} FirstPerPathExact(sections: seq<V4aPatch.PatchSection>)
    ensures var kept, at := FirstPerPath(sections), FirstAt(sections);
      && |kept| == |at|
      && (forall k :: k in at <==> IsFirst(sections, k))
      && (forall i, j | 0 <= i < j < |at| :: at[i] < at[j])
      && (forall i | 0 <= i < |kept| :: at[i] < |sections| && kept[i] == sections[at[i]])
    ensures PathsDistinct(FirstPerPath(sections))
    ensures FirstPerPath(sections) == sections <==> PathsDistinct(sections)
    ensures |FirstPerPath(sections)| == |sections| <==> PathsDistinct(sections)
  {
    FirstPlaces(sections);
    var kept, at := FirstPerPath(sections), FirstAt(sections);
    forall i, j | 0 <= i < j < |kept| ensures kept[i].path != kept[j].path {
      assert IsFirst(sections, at[j]);
    }
    KeptWhole(sections);
  }

  lemma {:induction false} KeptWhole(sections: seq<V4aPatch.PatchSection>)
    ensures |FirstPerPath(sections)| <= |sections|
    ensures PathsDistinct(sections) ==> FirstPerPath(sections) == sections
    ensures |FirstPerPath(sections)| == |sections| ==> PathsDistinct(sections)
  {
    if sections != [] {
      var n := |sections| - 1;
      var init, last := sections[..n], sections[n];
      KeptWhole(init);
      assert sections == init + [last];
      DistinctSnoc(sections);
    }
  }

  lemma DistinctSnoc(sections: seq<V4aPatch.PatchSection>)
    requires sections != []
    ensures var n := |sections| - 1;
      PathsDistinct(sections) <==> PathsDistinct(sections[..n]) && !HasPath(sections[..n], sections[n].path)
  {
    var n := |sections| - 1;
    var init := sections[..n];
    LastRepeats(sections);
    assert forall i | 0 <= i < n :: init[i] == sections[i];
  }

  lemma LastRepeats(sections: seq<V4aPatch.PatchSection>)
    requires sections != []
    ensures var n := |sections| - 1;
      HasPath(sections[..n], sections[n].path) <==> exists m | 0 <= m < n :: sections[m].path == sections[n].path
  {
    var n := |sections| - 1;
    var init := sections[..n];
    if HasPath(init, sections[n].path) {
      var x :| x in init && x.path == sections[n].path;
      var m :| 0 <= m < n && init[m] == x;
      assert sections[m].path == sections[n].path;
    }
    if m :| 0 <= m < n && sections[m].path == sections[n].path {
      assert init[m] in init;
    }
  }

  function EditKinds(callId: Option<string>, sections: seq<V4aPatch.PatchSection>): seq<EventKind> {
    seq(|sections|, i requires 0 <= i < |sections| => FileEdit(callId, SectionDiff(sections[i])))
  }

  function Kinds(evs: seq<CaptureEvent>): seq<EventKind> {
    seq(|evs|, i requires 0 <= i < |evs| => evs[i].kind)
  }

  lemma EditIdInjective(h: Host, baseId: string, p: string, q: string)
    requires Injective(h.contentId) && EditId(h, baseId, p) == EditId(h, baseId, q)
    ensures p == q
  {
    Text.PrefixCancel(baseId + ":edit:", p, q);
  }

  /**
   The id of an edit from an applied patch holds the line number: the same bytes
   keep their edit ids exactly when they come from the same line.
   */
  lemma {:induction false} ChangeIdsFollowLine(h: Host, raw: RawRecord, again: RawRecord, callId: string, path: string)
    requires Injective(h.contentId) && raw.bytes == again.bytes
    ensures ChangeId(h, raw, callId, path) == ChangeId(h, again, callId, path)
      <==> raw.location.lineNo == again.location.lineNo
  {
    var stem := "patch_apply_end:" + (if callId == "" then h.contentId(raw.bytes) else callId) + ":" + path + ":";
    var m, n := raw.location.lineNo, again.location.lineNo;
    if ChangeId(h, raw, callId, path) == ChangeId(h, again, callId, path) {
      assert stem + Text.Decimal(m) == stem + Text.Decimal(n);
      Text.PrefixCancel(stem, Text.Decimal(m), Text.Decimal(n));
      Text.DecimalInjective(m, n);
    }
  }

  /** One section: a file edit exactly when its id is new. */
  lemma EditStep(
      h: Host, raw: RawRecord, s: State, baseId: string, callId: Option<string>, ts: int, x: V4aPatch.PatchSection)
    ensures var r := Exec(Codex, raw, s, [EditOp(h, baseId, callId, ts, x)]);
      && Kinds(r.1) == (if EditId(h, baseId, x.path) in s.seen then [] else [FileEdit(callId, SectionDiff(x))])
      && r.0.seen == s.seen + {EditId(h, baseId, x.path)}
  {
    var op := EditOp(h, baseId, callId, ts, x);
    ExecOne(Codex, raw, s, op);
    ExecOne(Codex, raw, s.(seen := s.seen + {op.guard}), op.body[0]);
  }

  /** Which edit ids have been seen after some sections. */
  ghost predicate SeenPaths(
      h: Host, baseId: string, before: set<string>, after: set<string>, sections: seq<V4aPatch.PatchSection>) {
    forall p :: EditId(h, baseId, p) in after <==> EditId(h, baseId, p) in before || HasPath(sections, p)
  }

  lemma SeenPathsStep(
    h: Host, baseId: string, before: set<string>, after: set<string>,
    init: seq<V4aPatch.PatchSection>, last: V4aPatch.PatchSection)
    requires Injective(h.contentId) && SeenPaths(h, baseId, before, after, init)
    ensures SeenPaths(h, baseId, before, after + {EditId(h, baseId, last.path)}, init + [last])
  {
    forall p ensures EditId(h, baseId, p) in after + {EditId(h, baseId, last.path)}
      <==> EditId(h, baseId, p) in before || HasPath(init + [last], p)
    {
      assert HasPath(init + [last], p) <==> HasPath(init, p) || last.path == p;
      if EditId(h, baseId, p) == EditId(h, baseId, last.path) {
        EditIdInjective(h, baseId, p, last.path);
      }
    }
  }

  /**
   Edits of a call none of whose paths has been seen: one file edit per distinct
   path, in order of first occurrence, with the diff of the first section.
   */
  lemma {:induction false} EditsEmitFirst(
    h: Host, raw: RawRecord, s: State, baseId: string, callId: Option<string>, ts: int,
    sections: seq<V4aPatch.PatchSection>)
    requires Injective(h.contentId)
    requires forall x | x in sections :: EditId(h, baseId, x.path) !in s.seen
    ensures var r := Exec(Codex, raw, s, EditOps(h, baseId, callId, ts, sections));
      && Kinds(r.1) == EditKinds(callId, FirstPerPath(sections))
      && SeenPaths(h, baseId, s.seen, r.0.seen, sections)
  {
    if sections != [] {
      var init, last := sections[..|sections| - 1], sections[|sections| - 1];
      assert sections == init + [last];
      EditsEmitFirst(h, raw, s, baseId, callId, ts, init);
      var ops, op := EditOps(h, baseId, callId, ts, init), EditOp(h, baseId, callId, ts, last);
      assert EditOps(h, baseId, callId, ts, sections) == ops + [op];
      ExecConcat(Codex, raw, s, ops, [op]);
      var mid := Exec(Codex, raw, s, ops);
      EditStep(h, raw, mid.0, baseId, callId, ts, last);
      SeenPathsStep(h, baseId, s.seen, mid.0.seen, init, last);
      KindsConcat(mid.1, Exec(Codex, raw, mid.0, [op]).1);
      assert EditId(h, baseId, last.path) !in s.seen;
      EditKindsStep(callId, init, last);
    } else {
      assert EditOps(h, baseId, callId, ts, sections) == [];
    }
  }

  lemma KindsConcat(a: seq<CaptureEvent>, b: seq<CaptureEvent>)
    ensures Kinds(a + b) == Kinds(a) + Kinds(b)
  {
  }

  lemma EditKindsStep(callId: Option<string>, init: seq<V4aPatch.PatchSection>, last: V4aPatch.PatchSection)
    ensures EditKinds(callId, FirstPerPath(init + [last])) == EditKinds(callId, FirstPerPath(init))
      + if HasPath(init, last.path) then [] else [FileEdit(callId, SectionDiff(last))]
  {
    var own := if HasPath(init, last.path) then [] else [last];
    FirstPerPathSnoc(init, last);
    EditKindsConcat(callId, FirstPerPath(init), own);
    EditKindsOne(callId, last);
  }

  lemma EditKindsOne(callId: Option<string>, x: V4aPatch.PatchSection)
    ensures EditKinds(callId, [x]) == [FileEdit(callId, SectionDiff(x))] && EditKinds(callId, []) == []
  {
  }

  lemma FirstPerPathSnoc(init: seq<V4aPatch.PatchSection>, last: V4aPatch.PatchSection)
    ensures FirstPerPath(init + [last]) == FirstPerPath(init) + if HasPath(init, last.path) then [] else [last]
  {
    assert (init + [last])[..|init|] == init;
  }

  lemma EditKindsConcat(callId: Option<string>, a: seq<V4aPatch.PatchSection>, b: seq<V4aPatch.PatchSection>)
    ensures EditKinds(callId, a + b) == EditKinds(callId, a) + EditKinds(callId, b)
  {
  }

  /** The context after the guard, the name and the event of a new call. */
  function AfterCall(s: State, id: string, callId: Option<string>, name: string): State {
    s.(seen := s.seen + {id}, nextSeq := s.nextSeq + 1,
       callNames := if callId.Some? then s.callNames[callId.value := name] else s.callNames)
  }

  lemma CallRun(raw: RawRecord, s: State, id: string, callId: Option<string>, name: string, call: Op, edits: seq<Op>)
    requires call.Emit? && id !in s.seen
    ensures var r := Exec(Codex, raw, s, [Once(id, NameOps(callId, name) + [call] + edits)]);
      var rest := Exec(Codex, raw, AfterCall(s, id, callId, name), edits);
      |r.1| == 1 + |rest.1| && r.0 == rest.0 && r.1[0].kind == call.kind && r.1[1..] == rest.1
  {
    var s1 := s.(seen := s.seen + {id});
    var names := NameOps(callId, name);
    ExecOne(Codex, raw, s, Once(id, names + [call] + edits));
    assert names + [call] + edits == names + ([call] + edits);
    ExecConcat(Codex, raw, s1, names, [call] + edits);
    if callId.Some? {
      ExecOne(Codex, raw, s1, NameCall(callId.value, name));
    }
    var s2 := Exec(Codex, raw, s1, names).0;
    ExecConcat(Codex, raw, s2, [call], edits);
    ExecOne(Codex, raw, s2, call);
  }

  /** A call of `apply_patch` with a patch, the ids of its call and its edits unseen. */
  ghost predicate FreshPatch(h: Host, raw: RawRecord, s: State, payload: Value, sections: seq<V4aPatch.PatchSection>) {
    var id, args := CallEventId(h, raw, payload), ParseArguments(h, Get(payload, "arguments"));
    && StrField(payload, "name") == Some("apply_patch")
    && PatchText(args).Some? && sections == V4aPatch.Sections(Text.Lines(PatchText(args).value))
    && id !in s.seen && forall x | x in sections :: EditId(h, id, x.path) !in s.seen + {id}
  }

  lemma LegacyPlan(h: Host, raw: RawRecord, s: State, payload: Value, ts: int, sections: seq<V4aPatch.PatchSection>)
    requires FreshPatch(h, raw, s, payload, sections)
    ensures var callId, id := StrField(payload, "call_id"), CallEventId(h, raw, payload);
      var args := ParseArguments(h, Get(payload, "arguments"));
      FunctionCall(h, raw, payload, ts) == [Once(id, NameOps(callId, "apply_patch")
        + [Emit(id, None, ts, ToolCall(callId.GetOr(""), "apply_patch", args))]
        + EditOps(h, id, callId, ts, sections))]
  {
  }

  /** A fresh legacy call: the call event, then one edit per distinct path of its patch. */
  lemma {:induction false} LegacyCallEdits(
      h: Host, raw: RawRecord, s: State, payload: Value, ts: int, sections: seq<V4aPatch.PatchSection>)
    requires Injective(h.contentId) && FreshPatch(h, raw, s, payload, sections)
    ensures var callId, args := StrField(payload, "call_id"), ParseArguments(h, Get(payload, "arguments"));
      Kinds(Exec(Codex, raw, s, FunctionCall(h, raw, payload, ts)).1)
        == [ToolCall(callId.GetOr(""), "apply_patch", args)] + EditKinds(callId, FirstPerPath(sections))
  {
    var callId, id := StrField(payload, "call_id"), CallEventId(h, raw, payload);
    var args := ParseArguments(h, Get(payload, "arguments"));
    LegacyPlan(h, raw, s, payload, ts, sections);
    CallThenEdits(h, raw, s, id, callId, ts, ToolCall(callId.GetOr(""), "apply_patch", args), sections);
  }

  lemma CallThenEdits(
      h: Host, raw: RawRecord, s: State, id: string, callId: Option<string>, ts: int, kind: EventKind,
      sections: seq<V4aPatch.PatchSection>)
    requires Injective(h.contentId)
    requires id !in s.seen && forall x | x in sections :: EditId(h, id, x.path) !in s.seen + {id}
    ensures Kinds(Exec(Codex, raw, s, [Once(id, NameOps(callId, "apply_patch")
        + [Emit(id, None, ts, kind)] + EditOps(h, id, callId, ts, sections))]).1)
      == [kind] + EditKinds(callId, FirstPerPath(sections))
  {
    var call, edits := Emit(id, None, ts, kind), EditOps(h, id, callId, ts, sections);
    CallRun(raw, s, id, callId, "apply_patch", call, edits);
    EditsEmitFirst(h, raw, AfterCall(s, id, callId, "apply_patch"), id, callId, ts, sections);
    var evs := Exec(Codex, raw, s, [Once(id, NameOps(callId, "apply_patch") + [call] + edits)]).1;
    KindsConcat([evs[0]], evs[1..]);
    assert evs == [evs[0]] + evs[1..];
  }

  /** So every section becomes an edit iff no path repeats in the patch. */
  lemma {:induction false} EveryEditExactly(
      h: Host, raw: RawRecord, s: State, payload: Value, ts: int, sections: seq<V4aPatch.PatchSection>)
    requires Injective(h.contentId) && FreshPatch(h, raw, s, payload, sections)
    ensures var callId, kinds := StrField(payload, "call_id"),
                                 Kinds(Exec(Codex, raw, s, FunctionCall(h, raw, payload, ts)).1);
      && (|kinds| == 1 + |sections| <==> PathsDistinct(sections))
      && kinds != [] && (kinds[1..] == EditKinds(callId, sections) <==> PathsDistinct(sections))
  {
    LegacyCallEdits(h, raw, s, payload, ts, sections);
    FirstPerPathExact(sections);
  }

  const TWO_HUNKS: seq<V4aPatch.FileChange> := [
    V4aPatch.FileChange(V4aPatch.Update, "a", ["+x"]), V4aPatch.FileChange(V4aPatch.Update, "a", ["-y"])]

  /** A patch that changes one file twice: two sections, and the first alone is kept. */
  lemma {:induction false} SecondHunkLost(patch: string)
    requires patch == V4aPatch.Print(TWO_HUNKS)
    ensures var first, second := V4aPatch.PatchSection("a", "+x", 1, 0), V4aPatch.PatchSection("a", "-y", 0, 1);
      V4aPatch.Sections(Text.Lines(patch)) == [first, second] && FirstPerPath([first, second]) == [first]
  {
    var c, d := TWO_HUNKS[0], TWO_HUNKS[1];
    HunkRead(c, "+x");
    HunkRead(d, "-y");
    V4aPatch.RoundTrip(TWO_HUNKS);
    assert TWO_HUNKS[1..] == [d] && [d][1..] == [];
    assert V4aPatch.AllExpected([d]) == [V4aPatch.Expected(d)];
    var x, y := V4aPatch.Expected(c), V4aPatch.Expected(d);
    assert [x, y][..1] == [x] && [x][..0] == [];
    assert HasPath([x], "a") by { assert x in [x]; }
    assert FirstPerPath([x]) == [x];
  }

  lemma HunkRead(c: V4aPatch.FileChange, line: string)
    requires c.path == "a" && c.lines == [line] && line in {"+x", "-y"}
    ensures V4aPatch.Printable(c)
    ensures V4aPatch.Expected(c)
      == V4aPatch.PatchSection("a", line, if line[0] == '+' then 1 else 0, if line[0] == '-' then 1 else 0)
  {
    assert [line][1..] == [] && [line][..0] == [];
    assert V4aPatch.Marked([line][..0], '+') == 0 && V4aPatch.Marked([line][..0], '-') == 0;
    assert !Text.StartsWith(line, "*** Update File: ") && !Text.StartsWith(line, "*** Add File: ");
  }

  // ---- Applied patches ----------------------------------------------------------

  function ChangeKinds(callId: string, changes: map<string, Value>, paths: seq<string>): seq<EventKind>
    requires forall p | p in paths :: p in changes
  {
    seq(|paths|, i requires 0 <= i < |paths| => FileEdit(ParentOf(callId), ChangeDiff(paths[i], changes[paths[i]])))
  }

  lemma ChangeIdInjective(h: Host, raw: RawRecord, callId: string, p: string, q: string)
    requires Injective(h.contentId) && ChangeId(h, raw, callId, p) == ChangeId(h, raw, callId, q)
    ensures p == q
  {
    var stem := "patch_apply_end:" + (if callId == "" then h.contentId(raw.bytes) else callId) + ":";
    var tail := ":" + Text.Decimal(raw.location.lineNo);
    Regrouped(stem, p, ":", Text.Decimal(raw.location.lineNo));
    Regrouped(stem, q, ":", Text.Decimal(raw.location.lineNo));
    Text.PrefixCancel(stem, p + tail, q + tail);
    assert p == (p + tail)[..|p|] && q == (q + tail)[..|q|];
  }

  lemma Regrouped(a: string, b: string, c: string, d: string)
    ensures a + b + c + d == a + (b + (c + d))
  {
    assert a + b + c == a + (b + c);
    assert b + c + d == b + (c + d);
  }

  /** Nothing but the ids of some changes has been seen since. */
  ghost predicate ChangesSeen(
      h: Host, raw: RawRecord, callId: string, before: set<string>, after: set<string>, paths: seq<string>) {
    forall x | x in after && x !in before :: exists p | p in paths :: x == ChangeId(h, raw, callId, p)
  }

  lemma ChangesSeenSnoc(
      h: Host, raw: RawRecord, callId: string, before: set<string>, after: set<string>, init: seq<string>, last: string)
    requires ChangesSeen(h, raw, callId, before, after, init)
    ensures ChangesSeen(h, raw, callId, before, after + {ChangeId(h, raw, callId, last)}, init + [last])
  {
    forall x | x in after + {ChangeId(h, raw, callId, last)} && x !in before
      ensures exists p | p in init + [last] :: x == ChangeId(h, raw, callId, p)
    {
      if x in after {
        var p :| p in init && x == ChangeId(h, raw, callId, p);
        assert p in init + [last];
      } else {
        assert last in init + [last];
      }
    }
  }

  lemma ChangeStep(h: Host, raw: RawRecord, s: State, callId: string, ts: int, path: string, info: Value)
    requires ChangeId(h, raw, callId, path) !in s.seen
    ensures var r := Exec(Codex, raw, s, [ChangeOp(h, raw, callId, ts, path, info)]);
      && Kinds(r.1) == [FileEdit(ParentOf(callId), ChangeDiff(path, info))]
      && r.0.seen == s.seen + {ChangeId(h, raw, callId, path)}
  {
    var op := ChangeOp(h, raw, callId, ts, path, info);
    OnceEmits(Codex, raw, s, op.guard, op.body[0]);
  }

  /** One guarded edit for each of some distinct paths. */
  lemma {:induction false} ChangesEmit(
      h: Host, raw: RawRecord, s: State, callId: string, ts: int, changes: map<string, Value>, paths: seq<string>)
    requires Injective(h.contentId) && (forall p | p in paths :: p in changes)
    requires forall i, j | 0 <= i < j < |paths| :: paths[i] != paths[j]
    requires forall p | p in paths :: ChangeId(h, raw, callId, p) !in s.seen
    ensures var r := Exec(Codex, raw, s, ChangeOps(h, raw, callId, ts, changes, paths));
      && Kinds(r.1) == ChangeKinds(callId, changes, paths)
      && ChangesSeen(h, raw, callId, s.seen, r.0.seen, paths)
  {
    if paths == [] {
      assert ChangeOps(h, raw, callId, ts, changes, paths) == [];
    } else {
      var n := |paths| - 1;
      var init, last := paths[..n], paths[n];
      assert paths == init + [last];
      ChangesEmit(h, raw, s, callId, ts, changes, init);
      ChangeIsNew(h, raw, callId, init, last);
      ChangesSnoc(h, raw, callId, ts, changes, init, last);
      var ops, op := ChangeOps(h, raw, callId, ts, changes, init), ChangeOp(h, raw, callId, ts, last, changes[last]);
      ExecConcat(Codex, raw, s, ops, [op]);
      var mid := Exec(Codex, raw, s, ops);
      assert last in paths && ChangeId(h, raw, callId, last) !in mid.0.seen;
      ChangeStep(h, raw, mid.0, callId, ts, last, changes[last]);
      ChangesSeenSnoc(h, raw, callId, s.seen, mid.0.seen, init, last);
      KindsConcat(mid.1, Exec(Codex, raw, mid.0, [op]).1);
    }
  }

  lemma ChangesSnoc(
      h: Host, raw: RawRecord, callId: string, ts: int, changes: map<string, Value>, init: seq<string>, last: string)
    requires last in changes && forall p | p in init :: p in changes
    ensures ChangeOps(h, raw, callId, ts, changes, init + [last])
      == ChangeOps(h, raw, callId, ts, changes, init) + [ChangeOp(h, raw, callId, ts, last, changes[last])]
    ensures ChangeKinds(callId, changes, init + [last])
      == ChangeKinds(callId, changes, init) + [FileEdit(ParentOf(callId), ChangeDiff(last, changes[last]))]
  {
  }

  lemma ChangeIsNew(h: Host, raw: RawRecord, callId: string, init: seq<string>, last: string)
    requires Injective(h.contentId) && last !in init
    ensures forall p | p in init :: ChangeId(h, raw, callId, p) != ChangeId(h, raw, callId, last)
  {
    forall p | p in init ensures ChangeId(h, raw, callId, p) != ChangeId(h, raw, callId, last) {
      if ChangeId(h, raw, callId, p) == ChangeId(h, raw, callId, last) {
        ChangeIdInjective(h, raw, callId, p, last);
      }
    }
  }

  lemma ResultRun(h: Host, raw: RawRecord, s: State, ts: int, callId: string, ok: bool, output: Value, idKind: string)
    requires ResultId(h, raw, callId, idKind) !in s.seen
    ensures var r := Exec(Codex, raw, s, [ResultOp(h, raw, ts, callId, ok, output, idKind)]);
      && Kinds(r.1) == [ToolResult(callId, ok, output)]
      && r.0.seen == s.seen + {ResultId(h, raw, callId, idKind)}
  {
    var op := ResultOp(h, raw, ts, callId, ok, output, idKind);
    var e := Emit(op.guard, ParentOf(callId), ts, ToolResult(callId, ok, output));
    var t := s.(seen := s.seen + {op.guard});
    ExecOne(Codex, raw, s, op);
    if callId == "" {
      assert op.body == [e];
      ExecOne(Codex, raw, t, e);
    } else {
      assert op.body == [RecordOutcome(callId, ok)] + [e];
      ExecConcat(Codex, raw, t, [RecordOutcome(callId, ok)], [e]);
      ExecOne(Codex, raw, t, RecordOutcome(callId, ok));
      ExecOne(Codex, raw, ExecOp(Codex, raw, t, RecordOutcome(callId, ok)).0, e);
    }
  }

  /**
   A fresh applied patch: its result, then one edit for each changed path and for no
   other, in ascending order of path.
   */
  lemma {:induction false} AppliedPatchEdits(
      h: Host, raw: RawRecord, s: State, payload: Value, ts: int, changes: map<string, Value>)
    requires Injective(h.contentId) && changes == AsObject(Get(payload, "changes")).GetOr(map[])
    requires var callId := CallId(payload);
      var result := ResultId(h, raw, callId, "patch_apply_end");
      result !in s.seen && forall p | p in changes :: ChangeId(h, raw, callId, p) !in s.seen + {result}
    ensures var callId, ok, paths := CallId(payload), AsBool(Get(payload, "success")).GetOr(true),
                                     OrderedKeys.Ascending(changes.Keys);
      && Kinds(Exec(Codex, raw, s, PatchApplyEnd(h, raw, payload, ts)).1)
         == [ToolResult(callId, ok, PatchOutput(payload))] + ChangeKinds(callId, changes, paths)
      && (forall p :: p in paths <==> p in changes)
      && forall i, j | 0 <= i < j < |paths| :: Text.LexLess(paths[i], paths[j])
  {
    var callId, ok, paths := CallId(payload), AsBool(Get(payload, "success")).GetOr(true),
                             OrderedKeys.Ascending(changes.Keys);
    OrderedKeys.AscendingSorted(changes.Keys);
    forall i, j | 0 <= i < j < |paths| ensures Text.LexLess(paths[i], paths[j]) {
      if Text.LexLeq(paths[j], paths[i]) {
        Text.LexAntisymmetric(paths[i], paths[j]);
        assert false;
      }
    }
    var op := ResultOp(h, raw, ts, callId, ok, PatchOutput(payload), "patch_apply_end");
    var edits := ChangeOps(h, raw, callId, ts, changes, paths);
    ExecConcat(Codex, raw, s, [op], edits);
    ResultRun(h, raw, s, ts, callId, ok, PatchOutput(payload), "patch_apply_end");
    var mid := Exec(Codex, raw, s, [op]);
    ChangesEmit(h, raw, mid.0, callId, ts, changes, paths);
    KindsConcat(mid.1, Exec(Codex, raw, mid.0, edits).1);
  }
}
