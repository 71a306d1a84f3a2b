/** Joining the OpenCode store and parsing the records says exactly what the store holds. */
module OpenCodeLaws {
  import opened Wrappers
  import opened Json
  import opened Events
  import opened Text
  import opened Ctx
  import opened CtxLaws
  import opened CtxFirings
  import opened ChatPlan
  import opened ChatTools
  import opened ChatReports
  import ChatLaws
  import opened OpenCodeStore

  // ---- What the join keeps of one message ----------------------------------------------

  function OwnParts(parts: seq<PartRow>, messageId: string): seq<PartRow> {
    if parts == [] then []
    else
      var own, last := OwnParts(parts[..|parts| - 1], messageId), parts[|parts| - 1];
      if last.messageId == messageId then own + [last] else own
  }

  function Texts(h: Host, own: seq<PartRow>): seq<string> {
    if own == [] then []
    else
      var texts, p := Texts(h, own[..|own| - 1]), PieceOf(h, own[|own| - 1]);
      if p.TextPiece? then texts + [p.text] else texts
  }

  function Tools(h: Host, own: seq<PartRow>): seq<Tool> {
    if own == [] then []
    else
      var tools, p := Tools(h, own[..|own| - 1]), PieceOf(h, own[|own| - 1]);
      if p.ToolPiece? then tools + [p.tool] else tools
  }

  /** The join of a message is made of its own parts, in part order, and of nothing else. */
  lemma {:induction false} JoinMeaning(h: Host, parts: seq<PartRow>, messageId: string)
    ensures var own := OwnParts(parts, messageId);
      JoinedParts(h, parts, messageId)
      == Joined(Pushed(Texts(h, own)), CallValues(Tools(h, own)), ResultValues(Tools(h, own)))
  {
    if parts != [] {
      var init, last := parts[..|parts| - 1], parts[|parts| - 1];
      JoinMeaning(h, init, messageId);
      if last.messageId == messageId {
        var own := OwnParts(init, messageId);
        assert (own + [last])[..|own|] == own;
        PieceAdded(h, own, last);
      }
    }
  }

  lemma PieceAdded(h: Host, own: seq<PartRow>, last: PartRow)
    ensures var texts, tools := Texts(h, own), Tools(h, own);
      AddPiece(Joined(Pushed(texts), CallValues(tools), ResultValues(tools)), PieceOf(h, last))
      == Joined(Pushed(Texts(h, own + [last])), CallValues(Tools(h, own + [last])),
          ResultValues(Tools(h, own + [last])))
  {
    assert (own + [last])[..|own|] == own;
    var p := PieceOf(h, last);
    if p.TextPiece? {
      PushedSnoc(Texts(h, own), p.text);
    } else if p.ToolPiece? {
      ResultsSnoc(Tools(h, own), p.tool);
      assert ResultValues(Tools(h, own)) + [] == ResultValues(Tools(h, own));
      assert CallValues(Tools(h, own) + [p.tool]) == CallValues(Tools(h, own)) + [CallValue(p.tool)];
    }
  }

  /** No part leaks: messages with the same own parts get the same join, whatever else is stored. */
  lemma {:induction false} NoLeak(h: Host, a: seq<PartRow>, b: seq<PartRow>, messageId: string)
    requires OwnParts(a, messageId) == OwnParts(b, messageId)
    ensures JoinedParts(h, a, messageId) == JoinedParts(h, b, messageId)
  {
    JoinMeaning(h, a, messageId);
    JoinMeaning(h, b, messageId);
  }

  // ---- What the store says ------------------------------------------------------------

  function StoredTs(h: Host, created: Option<int>): int {
    if created.Some? then TsOf(h, Some(Number(created.value))).GetOr(0) else 0
  }

  function EventId(session: string, m: MessageRow): string {
    session + ":" + m.id
  }

  /** A user or assistant row: its turn and its tools; any other role is kept unrecognised. */
  function MessageSays(
      h: Host, render: Value -> string, session: string, m: MessageRow, role: string, parts: seq<PartRow>): seq<Said> {
    var own, id, ts := OwnParts(parts, m.id), EventId(session, m), StoredTs(h, m.created);
    var turn := TurnKind(role, Pushed(Texts(h, own)));
    if turn.Some? then [Said(Some(session), id, None, ts, turn.value)] + ToolsSay(session, id, ts, Tools(h, own))
    else
      var record := MessageRecord(session, m, role, JoinedParts(h, parts, m.id));
      [Said(Some(session), h.contentId(render(record)), None, ts, Unknown("unknown", record))]
  }

  function MessageIds(h: Host, session: string, m: MessageRow, role: string, parts: seq<PartRow>): seq<string> {
    [EventId(session, m)] + if TurnKind(role, "").Some? then ToolsIds(Tools(h, OwnParts(parts, m.id))) else []
  }

  function MessagesSay(
      h: Host, render: Value -> string, session: string, messages: seq<MessageRow>, parts: seq<PartRow>): seq<Said> {
    if messages == [] then []
    else
      var rest := MessagesSay(h, render, session, messages[1..], parts);
      match RoleOf(h, messages[0])
      case Some(role) => MessageSays(h, render, session, messages[0], role, parts) + rest
      case None => rest
  }

  function MessagesIds(h: Host, session: string, messages: seq<MessageRow>, parts: seq<PartRow>): seq<string> {
    if messages == [] then []
    else
      var rest := MessagesIds(h, session, messages[1..], parts);
      match RoleOf(h, messages[0])
      case Some(role) => MessageIds(h, session, messages[0], role, parts) + rest
      case None => rest
  }

  function StartSays(h: Host, s: SessionRow): seq<Said> {
    [Said(Some(s.id), s.id + ":start", None, StoredTs(h, s.created), SessionStart(".", None, None, None))]
  }

  function StoreSays(h: Host, render: Value -> string, db: Db, sessions: seq<SessionRow>): seq<Said> {
    if sessions == [] then []
    else
      var s := sessions[0];
      StartSays(h, s) + MessagesSay(h, render, s.id, Messages(db, s.id), Parts(db, s.id))
      + StoreSays(h, render, db, sessions[1..])
  }

  /** Every id the events of a store are guarded by. */
  function StoreIds(h: Host, db: Db, sessions: seq<SessionRow>): seq<string> {
    if sessions == [] then []
    else
      var s := sessions[0];
      [s.id + ":start"] + MessagesIds(h, s.id, Messages(db, s.id), Parts(db, s.id)) + StoreIds(h, db, sessions[1..])
  }

  // ---- Records carried to the parser --------------------------------------------------

  function Planning(h: Host): RecordPlanner {
    ChatLaws.Planning(h, OPENCODE_DIALECT)
  }

  // ---- One record ------------------------------------------------------------

  lemma NumberTs(h: Host, v: Value, created: Option<int>)
    requires Get(v, "ts") == Some(OptNumber(created)) && Get(v, "timestamp").None?
    requires Get(v, "time").None? && Get(v, "created_at").None?
    ensures TsFrom(h, v, ["ts", "timestamp"]) == StoredTs(h, created)
    ensures TsFrom(h, v, ["timestamp", "time", "ts", "created_at"]) == StoredTs(h, created)
  {
    assert ["ts", "timestamp"][1..] == ["timestamp"] && ["timestamp"][1..] == [];
    assert ["timestamp", "time", "ts", "created_at"][1..] == ["time", "ts", "created_at"];
    assert ["time", "ts", "created_at"][1..] == ["ts", "created_at"];
    assert ["ts", "created_at"][1..] == ["created_at"] && ["created_at"][1..] == [];
    assert TsFrom(h, v, []) == 0;
    assert TsFrom(h, v, ["timestamp"]) == 0;
    assert TsFrom(h, v, ["created_at"]) == 0;
    assert TsFrom(h, v, ["ts", "created_at"]) == StoredTs(h, created);
    assert TsFrom(h, v, ["time", "ts", "created_at"]) == TsFrom(h, v, ["ts", "created_at"]);
  }

  lemma MessageFields(session: string, m: MessageRow, role: string, j: Joined)
    ensures var v := MessageRecord(session, m, role, j);
      && v.Obj? && StrField(v, "kind").None? && StrField(v, "type").None?
      && StrField(v, "id") == Some(EventId(session, m))
      && TextField(v, "role") == role && Get(v, "role").Some? && TextField(v, "text") == j.text
      && Calls(v) == j.calls && Results(v) == j.results
  {
  }

  lemma MessageTs(h: Host, session: string, m: MessageRow, role: string, j: Joined)
    ensures var v := MessageRecord(session, m, role, j);
      && TsFrom(h, v, ["ts", "timestamp"]) == StoredTs(h, m.created)
      && TsFrom(h, v, ["timestamp", "time", "ts", "created_at"]) == StoredTs(h, m.created)
  {
    NumberTs(h, MessageRecord(session, m, role, j), m.created);
  }

  lemma MessagePlanned(
      h: Host, render: Value -> string, session: string, m: MessageRow, role: string, j: Joined, raw: RawRecord)
    requires var v := MessageRecord(session, m, role, j); raw.bytes == render(v) && ReadsBack(h, render, v)
    ensures var v := MessageRecord(session, m, role, j);
      Plan(h, OPENCODE_DIALECT, raw) == [Once(EventId(session, m), MessageBody(h, raw, v))]
  {
    MessageFields(session, m, role, j);
  }

  lemma BodyShape(h: Host, session: string, m: MessageRow, role: string, j: Joined, raw: RawRecord)
    ensures var v, id, ts := MessageRecord(session, m, role, j), EventId(session, m), StoredTs(h, m.created);
      var turn := TurnKind(role, j.text);
      MessageBody(h, raw, v)
      == if turn.None? then [Emit(h.contentId(raw.bytes), None, ts, Unknown("unknown", v))]
         else [Emit(id, None, ts, turn.value)] + CallsOps(id, ts, j.calls, j.results)
  {
    MessageFields(session, m, role, j);
    MessageTs(h, session, m, role, j);
  }

  lemma BodyFires(
      h: Host, render: Value -> string, session: string, m: MessageRow, role: string, parts: seq<PartRow>,
      raw: RawRecord)
    requires raw.bytes == render(MessageRecord(session, m, role, JoinedParts(h, parts, m.id)))
    requires NoDups(MessageIds(h, session, m, role, parts))
    ensures var body := MessageBody(h, raw, MessageRecord(session, m, role, JoinedParts(h, parts, m.id)));
      && Fire(Some(session), body) == (Some(session), MessageSays(h, render, session, m, role, parts))
      && [EventId(session, m)] + Guards(body) == MessageIds(h, session, m, role, parts)
  {
    var j, ts := JoinedParts(h, parts, m.id), StoredTs(h, m.created);
    var turn := TurnKind(role, j.text);
    BodyShape(h, session, m, role, j, raw);
    JoinMeaning(h, parts, m.id);
    if turn.None? {
      OneEventFires(session, h.contentId(raw.bytes), ts, Unknown("unknown", MessageRecord(session, m, role, j)));
    } else {
      TurnFires(session, EventId(session, m), ts, turn.value, Tools(h, OwnParts(parts, m.id)));
    }
  }

  lemma OneEventFires(session: string, id: string, ts: int, kind: EventKind)
    ensures Fire(Some(session), [Emit(id, None, ts, kind)])
        == (Some(session), [Said(Some(session), id, None, ts, kind)])
    ensures Guards([Emit(id, None, ts, kind)]) == []
  {
    FireOne(Some(session), Emit(id, None, ts, kind));
    GuardsOne(Emit(id, None, ts, kind));
  }

  lemma MessageFires(
      h: Host, render: Value -> string, session: string, m: MessageRow, role: string, parts: seq<PartRow>,
      raw: RawRecord)
    requires var v := MessageRecord(session, m, role, JoinedParts(h, parts, m.id));
      raw.bytes == render(v) && ReadsBack(h, render, v)
    requires NoDups(MessageIds(h, session, m, role, parts))
    ensures Fire(Some(session), Planning(h)(raw)) == (Some(session), MessageSays(h, render, session, m, role, parts))
    ensures Guards(Planning(h)(raw)) == MessageIds(h, session, m, role, parts)
  {
    var j := JoinedParts(h, parts, m.id);
    var id, body := EventId(session, m), MessageBody(h, raw, MessageRecord(session, m, role, j));
    MessagePlanned(h, render, session, m, role, j, raw);
    BodyFires(h, render, session, m, role, parts, raw);
    FireOne(Some(session), Once(id, body));
    GuardsOne(Once(id, body));
  }

  lemma StartFires(h: Host, render: Value -> string, session: Option<string>, s: SessionRow, raw: RawRecord)
    requires raw.bytes == render(SessionRecord(s)) && ReadsBack(h, render, SessionRecord(s))
    ensures Fire(session, Planning(h)(raw)) == (Some(s.id), StartSays(h, s))
    ensures Guards(Planning(h)(raw)) == [s.id + ":start"]
  {
    var kind := SessionStart(".", None, None, None);
    StartPlanned(h, render, s, raw);
    HeaderFires(session, s.id, StoredTs(h, s.created), kind);
  }

  lemma StartPlanned(h: Host, render: Value -> string, s: SessionRow, raw: RawRecord)
    requires raw.bytes == render(SessionRecord(s)) && ReadsBack(h, render, SessionRecord(s))
    ensures Planning(h)(raw) == HeaderOps(s.id, StoredTs(h, s.created), SessionStart(".", None, None, None))
  {
    var v := SessionRecord(s);
    NumberTs(h, v, s.created);
    assert StrField(v, "sessionId") == Some(s.id);
  }

  // ---- All records ------------------------------------------------------------

  lemma {:induction false} MessagesFire(
      h: Host, render: Value -> string, session: string, messages: seq<MessageRow>, parts: seq<PartRow>,
      recs: seq<RawRecord>)
    requires Carry(h, render, recs, MessageRecords(h, session, messages, parts))
    requires NoDups(MessagesIds(h, session, messages, parts))
    ensures RunFire(Some(session), Planning(h), recs)
      == (Some(session), MessagesSay(h, render, session, messages, parts))
    ensures RunGuards(Planning(h), recs) == MessagesIds(h, session, messages, parts)
    decreases |messages|
  {
    if messages != [] {
      var m, role := messages[0], RoleOf(h, messages[0]);
      if role.None? {
        MessagesFire(h, render, session, messages[1..], parts, recs);
      } else {
        var v := MessageRecord(session, m, role.value, JoinedParts(h, parts, m.id));
        var rest := MessageRecords(h, session, messages[1..], parts);
        NoDupsSplit(MessageIds(h, session, m, role.value, parts), MessagesIds(h, session, messages[1..], parts));
        CarrySplit(h, render, recs, [v], rest);
        MessageFires(h, render, session, m, role.value, parts, recs[0]);
        MessagesFire(h, render, session, messages[1..], parts, recs[1..]);
      }
    }
  }

  lemma {:induction false} StoreFires(
      h: Host, render: Value -> string, db: Db, sessions: seq<SessionRow>, recs: seq<RawRecord>,
      session: Option<string>)
    requires Carry(h, render, recs, Records(h, db, sessions))
    requires NoDups(StoreIds(h, db, sessions))
    ensures RunFire(session, Planning(h), recs).1 == StoreSays(h, render, db, sessions)
    ensures RunGuards(Planning(h), recs) == StoreIds(h, db, sessions)
    decreases |sessions|
  {
    if sessions != [] {
      var s := sessions[0];
      var messages, parts := Messages(db, s.id), Parts(db, s.id);
      var values := MessageRecords(h, s.id, messages, parts);
      var ids, more := MessagesIds(h, s.id, messages, parts), StoreIds(h, db, sessions[1..]);
      NoDupsSplit([s.id + ":start"] + ids, more);
      NoDupsSplit([s.id + ":start"], ids);
      CarrySplit(h, render, recs, [SessionRecord(s)] + values, Records(h, db, sessions[1..]));
      var n := |values| + 1;
      CarrySplit(h, render, recs[..n], [SessionRecord(s)], values);
      var a, b, c := recs[..n][..1], recs[..n][1..], recs[n..];
      StartFires(h, render, session, s, a[0]);
      OneRecord(session, Planning(h), a);
      MessagesFire(h, render, s.id, messages, parts, b);
      RunFireConcat(session, Planning(h), a, b);
      RunFireConcat(session, Planning(h), a + b, c);
      RunGuardsConcat(Planning(h), a, b);
      RunGuardsConcat(Planning(h), a + b, c);
      StoreFires(h, render, db, sessions[1..], c, Some(s.id));
    }
  }

  /**
   Join then parse: for a store whose event ids are distinct, the events are, in
   order, exactly what its rows say. Each tool part gives one call, with the message
   it names as parent, followed at once by its result iff it completed or failed.
   */
  lemma {:induction false} StreamIsStore(h: Host, render: Value -> string, db: Db, recs: seq<RawRecord>)
    requires Carry(h, render, recs, Records(h, db, Sessions(db)))
    requires NoDups(StoreIds(h, db, Sessions(db)))
    ensures SaysAll(Run(OpenCode, Steady(Planning(h)), FRESH, recs).1, StoreSays(h, render, db, Sessions(db)))
  {
    StoreFires(h, render, db, Sessions(db), recs, None);
    RunFires(OpenCode, Planning(h), FRESH, recs);
  }

  // ---- Reading the store's words ------------------------------------------------------

  lemma {:induction false} MessagesPaired(
      h: Host, render: Value -> string, session: string, messages: seq<MessageRow>, parts: seq<PartRow>)
    ensures Paired(MessagesSay(h, render, session, messages, parts))
  {
    if messages != [] {
      var m, role := messages[0], RoleOf(h, messages[0]);
      MessagesPaired(h, render, session, messages[1..], parts);
      if role.Some? {
        var own, id, ts := OwnParts(parts, m.id), EventId(session, m), StoredTs(h, m.created);
        var turn := TurnKind(role.value, Pushed(Texts(h, own)));
        if turn.Some? {
          ToolsPaired(session, id, ts, Tools(h, own));
          PairedConcat([Said(Some(session), id, None, ts, turn.value)], ToolsSay(session, id, ts, Tools(h, own)));
        }
        PairedConcat(MessageSays(h, render, session, m, role.value, parts),
                     MessagesSay(h, render, session, messages[1..], parts));
      }
    }
  }

  lemma {:induction false} StorePaired(h: Host, render: Value -> string, db: Db, sessions: seq<SessionRow>)
    ensures Paired(StoreSays(h, render, db, sessions))
  {
    if sessions != [] {
      var s := sessions[0];
      var messages := MessagesSay(h, render, s.id, Messages(db, s.id), Parts(db, s.id));
      MessagesPaired(h, render, s.id, Messages(db, s.id), Parts(db, s.id));
      StorePaired(h, render, db, sessions[1..]);
      PairedConcat(StartSays(h, s), messages);
      PairedConcat(StartSays(h, s) + messages, StoreSays(h, render, db, sessions[1..]));
    }
  }

  // ---- Nothing lost, nothing doubled ------------------------------------------------------

  /** The tool parts of the user and assistant rows among some messages. */
  function ToolPartCount(h: Host, messages: seq<MessageRow>, parts: seq<PartRow>): nat {
    if messages == [] then 0
    else
      var role := RoleOf(h, messages[0]);
      (if role.Some? && role.value in {"user", "assistant"} then |Tools(h, OwnParts(parts, messages[0].id))| else 0)
      + ToolPartCount(h, messages[1..], parts)
  }

  function StoreToolParts(h: Host, db: Db, sessions: seq<SessionRow>): nat {
    if sessions == [] then 0
    else ToolPartCount(h, Messages(db, sessions[0].id), Parts(db, sessions[0].id))
         + StoreToolParts(h, db, sessions[1..])
  }

  lemma MessageCounted(
      h: Host, render: Value -> string, session: string, m: MessageRow, role: string, parts: seq<PartRow>)
    ensures CallCount(MessageSays(h, render, session, m, role, parts))
      == if role in {"user", "assistant"} then |Tools(h, OwnParts(parts, m.id))| else 0
  {
    var own, id, ts := OwnParts(parts, m.id), EventId(session, m), StoredTs(h, m.created);
    var turn := TurnKind(role, Pushed(Texts(h, own)));
    if turn.Some? {
      var first := [Said(Some(session), id, None, ts, turn.value)];
      ToolsCounted(session, id, ts, Tools(h, own));
      CallCountShort(first);
      CallCountConcat(first, ToolsSay(session, id, ts, Tools(h, own)));
    } else {
      CallCountShort(MessageSays(h, render, session, m, role, parts));
    }
  }

  lemma {:induction false} MessagesCounted(
      h: Host, render: Value -> string, session: string, messages: seq<MessageRow>, parts: seq<PartRow>)
    ensures CallCount(MessagesSay(h, render, session, messages, parts)) == ToolPartCount(h, messages, parts)
  {
    if messages != [] {
      var m, role := messages[0], RoleOf(h, messages[0]);
      MessagesCounted(h, render, session, messages[1..], parts);
      if role.Some? {
        MessageCounted(h, render, session, m, role.value, parts);
        CallCountConcat(MessageSays(h, render, session, m, role.value, parts),
                        MessagesSay(h, render, session, messages[1..], parts));
      }
    }
  }

  /** A store gives exactly one call for each tool part of its user and assistant messages. */
  lemma {:induction false} OneCallPerToolPart(h: Host, render: Value -> string, db: Db, sessions: seq<SessionRow>)
    ensures CallCount(StoreSays(h, render, db, sessions)) == StoreToolParts(h, db, sessions)
  {
    if sessions != [] {
      var s := sessions[0];
      var messages := MessagesSay(h, render, s.id, Messages(db, s.id), Parts(db, s.id));
      MessagesCounted(h, render, s.id, Messages(db, s.id), Parts(db, s.id));
      OneCallPerToolPart(h, render, db, sessions[1..]);
      CallCountShort(StartSays(h, s));
      CallCountConcat(StartSays(h, s), messages);
      CallCountConcat(StartSays(h, s) + messages, StoreSays(h, render, db, sessions[1..]));
    }
  }

  /** The text of a message: its own text parts in part order, one a line, leading empty ones dropped. */
  lemma {:induction false} TextJoins(h: Host, parts: seq<PartRow>, messageId: string)
    ensures JoinedParts(h, parts, messageId).text
      == Join(DropLeadingEmpty(Texts(h, OwnParts(parts, messageId))), "\n")
  {
    JoinMeaning(h, parts, messageId);
    PushedIsJoin(Texts(h, OwnParts(parts, messageId)));
  }

  // ---- Calls without an id ------------------------------------------------------------

  lemma {:induction false} MessageOffers(
      h: Host, render: Value -> string, session: string, m: MessageRow, role: string, parts: seq<PartRow>,
      raw: RawRecord)
    requires var v := MessageRecord(session, m, role, JoinedParts(h, parts, m.id));
      raw.bytes == render(v) && ReadsBack(h, render, v)
    requires role in {"user", "assistant"}
    ensures Head(h, raw) == [EventId(session, m)]
    ensures Offered(h, raw) == IdsOf(Tools(h, OwnParts(parts, m.id)))
  {
    JoinMeaning(h, parts, m.id);
    MessageFields(session, m, role, JoinedParts(h, parts, m.id));
    ToolsOffered(EventId(session, m), Tools(h, OwnParts(parts, m.id)));
  }

  /**
   A user or assistant message read for the first time reports as many calls as its
   tool parts have distinct new ids: all of them iff these are distinct and new.
   */
  lemma {:induction false} EveryCallReported(
      h: Host, render: Value -> string, session: string, m: MessageRow, role: string, parts: seq<PartRow>,
      raw: RawRecord, s: State)
    requires var v := MessageRecord(session, m, role, JoinedParts(h, parts, m.id));
      raw.bytes == render(v) && ReadsBack(h, render, v)
    requires role in {"user", "assistant"} && EventId(session, m) !in s.seen
    ensures var tools, own := Tools(h, OwnParts(parts, m.id)), s.seen + {EventId(session, m)};
      var reported := Reported(Exec(OpenCode, raw, s, Planning(h)(raw)).1);
      && |reported| == |NewIds(IdsOf(tools), own)|
      && (reported == IdsOf(tools) <==> AllNew(tools, own))
      && (|reported| == |tools| <==> AllNew(tools, own))
  {
    MessageOffers(h, render, session, m, role, parts, raw);
    ToolsReport(h, OPENCODE_DIALECT, raw, s, EventId(session, m), Tools(h, OwnParts(parts, m.id)));
  }

  /** A part that names no call. */
  predicate Idless(h: Host, row: PartRow) {
    var part := h.fromJson(row.data);
    part.Some? ==> StrField(part.value, "callID").None?
  }

  lemma {:induction false} IdlessTools(h: Host, own: seq<PartRow>)
    requires forall row | row in own :: Idless(h, row)
    ensures forall t | t in Tools(h, own) :: t.callId == ""
  {
    if own != [] {
      var n := |own| - 1;
      assert own[n] in own && forall row | row in own[..n] :: row in own;
      IdlessTools(h, own[..n]);
    }
  }

  /** A message whose tool parts name no call reports one of them, or none if the empty id came before. */
  lemma {:induction false} IdlessMessageReportsOne(
      h: Host, render: Value -> string, session: string, m: MessageRow, role: string, parts: seq<PartRow>,
      raw: RawRecord, s: State)
    requires var v := MessageRecord(session, m, role, JoinedParts(h, parts, m.id));
      raw.bytes == render(v) && ReadsBack(h, render, v)
    requires role in {"user", "assistant"} && EventId(session, m) !in s.seen
    requires Tools(h, OwnParts(parts, m.id)) != []
    requires forall row | row in OwnParts(parts, m.id) :: Idless(h, row)
    ensures |Reported(Exec(OpenCode, raw, s, Planning(h)(raw)).1)|
      == if CallGuard("") in s.seen + {EventId(session, m)} then 0 else 1
  {
    var own := OwnParts(parts, m.id);
    EveryCallReported(h, render, session, m, role, parts, raw, s);
    IdlessTools(h, own);
    SharedId(Tools(h, own), "", s.seen + {EventId(session, m)});
  }

  /** So of all the calls that name no id, a whole stream reports one at most. */
  lemma {:induction false} IdlessReportedOnce(h: Host, recs: seq<RawRecord>)
    ensures var evs := Run(OpenCode, Steady(Planning(h)), FRESH, recs).1;
      forall i, j | 0 <= i < j < |Reported(evs)| :: Reported(evs)[i] != "" || Reported(evs)[j] != ""
  {
    ReportedOnce(h, OPENCODE_DIALECT, FRESH, recs);
  }
}
