/** The OpenCode store: sessions, messages and parts joined into chat records. */
module OpenCodeStore {
  import opened Wrappers
  import opened Json
  import opened Events
  import opened Text
  import opened ChatTools
  import opened Permutations
  import Sorting
  import Ties

  datatype SessionRow = SessionRow(id: string, title: Option<string>, created: Option<int>)
  datatype MessageRow = MessageRow(id: string, sessionId: string, data: string, created: Option<int>)
  datatype PartRow = PartRow(id: string, sessionId: string, messageId: string, data: string)

  /** The three tables, rows in no particular order. */
  datatype Db = Db(sessions: seq<SessionRow>, messages: seq<MessageRow>, parts: seq<PartRow>)

  // ---- Queries ------------------------------------------------------------

  predicate SessionLeq(a: SessionRow, b: SessionRow) {
    LexLeq(a.id, b.id)
  }

  predicate MessageLeq(a: MessageRow, b: MessageRow) {
    LexLeq(a.id, b.id)
  }

  predicate PartLeq(a: PartRow, b: PartRow) {
    LexLeq(a.id, b.id)
  }

  function Sessions(db: Db): seq<SessionRow> {
    Sorting.SortBy(db.sessions, SessionLeq)
  }

  function Messages(db: Db, sessionId: string): seq<MessageRow> {
    Sorting.SortBy(Kept((m: MessageRow) => m.sessionId == sessionId, db.messages), MessageLeq)
  }

  function Parts(db: Db, sessionId: string): seq<PartRow> {
    Sorting.SortBy(Kept((p: PartRow) => p.sessionId == sessionId, db.parts), PartLeq)
  }

  // ---- One part ------------------------------------------------------------

  datatype Piece = TextPiece(text: string) | ToolPiece(tool: Tool) | NoPiece

  function ToolOf(part: Value): Tool {
    var state := Get(part, "state").GetOr(Null);
    Tool(StrField(part, "callID").GetOr(""), StrField(part, "tool").GetOr(""), Get(state, "input").GetOr(Null),
         match StrField(state, "status")
         case Some("completed") => Some(Outcome(true, Get(state, "output").GetOr(Null)))
         case Some("error") => Some(Outcome(false, Get(state, "error").GetOr(Null)))
         case _ => None)
  }

  /** What a part row contributes to its message. */
  function PieceOf(h: Host, row: PartRow): Piece {
    var part := h.fromJson(row.data);
    if part.None? then NoPiece
    else
      match StrField(part.value, "type")
      case Some("text") =>
        var t := StrField(part.value, "text");
        if t.Some? then TextPiece(t.value) else NoPiece
      case Some("tool") => ToolPiece(ToolOf(part.value))
      case _ => NoPiece
  }

  // ---- The join ------------------------------------------------------------

  datatype Joined = Joined(text: string, calls: seq<Value>, results: seq<Value>)

  const NOTHING: Joined := Joined("", [], [])

  function AddPiece(j: Joined, p: Piece): Joined {
    match p
    case NoPiece => j
    case TextPiece(t) => j.(text := PushLine(j.text, t))
    case ToolPiece(t) =>
      Joined(j.text, j.calls + [CallValue(t)], if t.outcome.Some? then j.results + [ResultValue(t)] else j.results)
  }

  /** The parts of one message, folded in order; parts of other messages are passed over. */
  function JoinedParts(h: Host, parts: seq<PartRow>, messageId: string): Joined {
    if parts == [] then NOTHING
    else
      var j, last := JoinedParts(h, parts[..|parts| - 1], messageId), parts[|parts| - 1];
      if last.messageId == messageId then AddPiece(j, PieceOf(h, last)) else j
  }

  // ---- Records ------------------------------------------------------------

  function OptStr(s: Option<string>): Value {
    if s.Some? then Str(s.value) else Null
  }

  function OptNumber(n: Option<int>): Value {
    if n.Some? then Number(n.value) else Null
  }

  function SessionRecord(s: SessionRow): Value {
    Obj(map["kind" := Str("session_start"), "sessionId" := Str(s.id), "ts" := OptNumber(s.created),
        "title" := OptStr(s.title)])
  }

  function MessageRecord(sessionId: string, m: MessageRow, role: string, j: Joined): Value {
    var base := map[
      "id" := Str(sessionId + ":" + m.id), "sessionId" := Str(sessionId), "role" := Str(role),
      "text" := Str(j.text), "ts" := OptNumber(m.created)];
    var withCalls := if j.calls != [] then base["toolCalls" := Arr(j.calls)] else base;
    Obj(if j.results != [] then withCalls["toolResults" := Arr(j.results)] else withCalls)
  }

  /** The role of a message row; rows without one give no record. */
  function RoleOf(h: Host, m: MessageRow): Option<string> {
    var data := h.fromJson(m.data);
    if data.Some? then StrField(data.value, "role") else None
  }

  function MessageRecords(h: Host, sessionId: string, messages: seq<MessageRow>, parts: seq<PartRow>): seq<Value> {
    if messages == [] then []
    else
      var m, rest := messages[0], MessageRecords(h, sessionId, messages[1..], parts);
      match RoleOf(h, m)
      case Some(role) => [MessageRecord(sessionId, m, role, JoinedParts(h, parts, m.id))] + rest
      case None => rest
  }

  function SessionRecords(h: Host, db: Db, s: SessionRow): seq<Value> {
    [SessionRecord(s)] + MessageRecords(h, s.id, Messages(db, s.id), Parts(db, s.id))
  }

  function Records(h: Host, db: Db, sessions: seq<SessionRow>): seq<Value> {
    if sessions == [] then [] else SessionRecords(h, db, sessions[0]) + Records(h, db, sessions[1..])
  }

  // ---- The reader ------------------------------------------------------------

  lemma MessageStep(h: Host, sessionId: string, messages: seq<MessageRow>, parts: seq<PartRow>, i: nat, r: seq<Value>)
    requires i < |messages|
    ensures var m := messages[i];
      r + MessageRecords(h, sessionId, messages[i..], parts)
      == (match RoleOf(h, m)
          case Some(role) => r + [MessageRecord(sessionId, m, role, JoinedParts(h, parts, m.id))]
          case None => r) + MessageRecords(h, sessionId, messages[i + 1..], parts)
  {
    assert messages[i..][0] == messages[i] && messages[i..][1..] == messages[i + 1..];
  }

  lemma SessionStep(h: Host, db: Db, sessions: seq<SessionRow>, i: nat, r: seq<Value>)
    requires i < |sessions|
    ensures r + Records(h, db, sessions[i..])
      == r + SessionRecords(h, db, sessions[i]) + Records(h, db, sessions[i + 1..])
  {
    assert sessions[i..][0] == sessions[i] && sessions[i..][1..] == sessions[i + 1..];
  }

  class StoreReader {
    const h: Host

    constructor (h: Host)
      ensures this.h == h
    {
      this.h := h;
    }

    /** The loop over the parts of a session for one message. */
    method JoinParts(parts: seq<PartRow>, messageId: string)
      returns (text: string, calls: seq<Value>, results: seq<Value>)
      ensures Joined(text, calls, results) == JoinedParts(h, parts, messageId)
    {
      text, calls, results := "", [], [];
      for k := 0 to |parts|
        invariant Joined(text, calls, results) == JoinedParts(h, parts[..k], messageId)
      {
        assert parts[..k + 1][..k] == parts[..k];
        if parts[k].messageId == messageId {
          match PieceOf(h, parts[k]) {
            case NoPiece =>
            case TextPiece(t) =>
              if text != "" {
                text := text + "\n";
              }
              text := text + t;
            case ToolPiece(t) =>
              calls := calls + [CallValue(t)];
              if t.outcome.Some? {
                results := results + [ResultValue(t)];
              }
          }
        }
      }
      assert parts[..|parts|] == parts;
    }

    method ReadMessages(sessionId: string, messages: seq<MessageRow>, parts: seq<PartRow>) returns (records: seq<Value>)
      ensures records == MessageRecords(h, sessionId, messages, parts)
    {
      records := [];
      ghost var goal := MessageRecords(h, sessionId, messages, parts);
      assert records + goal == goal;
      for i := 0 to |messages|
        invariant goal == records + MessageRecords(h, sessionId, messages[i..], parts)
      {
        MessageStep(h, sessionId, messages, parts, i, records);
        var m := messages[i];
        var role := RoleOf(h, m);
        if role.Some? {
          var text, calls, results := JoinParts(parts, m.id);
          records := records + [MessageRecord(sessionId, m, role.value, Joined(text, calls, results))];
        }
      }
      assert messages[|messages|..] == [];
      assert records + [] == records;
    }

    /** `read_native` */
    method ReadNative(db: Db) returns (records: seq<Value>)
      ensures records == Records(h, db, Sessions(db))
    {
      var sessions := Sessions(db);
      records := [];
      ghost var goal := Records(h, db, sessions);
      assert records + goal == goal;
      for i := 0 to |sessions|
        invariant goal == records + Records(h, db, sessions[i..])
      {
        var s := sessions[i];
        SessionStep(h, db, sessions, i, records);
        var more := ReadMessages(s.id, Messages(db, s.id), Parts(db, s.id));
        records := records + ([SessionRecord(s)] + more);
      }
      assert sessions[|sessions|..] == [];
      assert records + [] == records;
    }
  }

  // ---- Row order ------------------------------------------------------------

  /** The same rows, listed in any order. */
  ghost predicate SameRows(a: Db, b: Db) {
    multiset(a.sessions) == multiset(b.sessions) && multiset(a.messages) == multiset(b.messages)
    && multiset(a.parts) == multiset(b.parts)
  }

  ghost predicate UniqueSessions(db: Db) {
    forall s, t | s in db.sessions && t in db.sessions && s.id == t.id :: s == t
  }

  /** No two messages and no two parts of one session share an id. */
  ghost predicate UniqueRows(db: Db) {
    && (forall m, n | m in db.messages && n in db.messages && m.sessionId == n.sessionId && m.id == n.id :: m == n)
    && (forall p, q | p in db.parts && q in db.parts && p.sessionId == q.sessionId && p.id == q.id :: p == q)
  }

  lemma LeqOrders()
    ensures Sorting.TotalPreorder(SessionLeq) && Sorting.TotalPreorder(MessageLeq) && Sorting.TotalPreorder(PartLeq)
  {
    forall a: string, b: string ensures LexLeq(a, b) || LexLeq(b, a) {
      LexTotal(a, b);
    }
    forall a: string, b: string, c: string | LexLeq(a, b) && LexLeq(b, c) ensures LexLeq(a, c) {
      LexTransitive(a, b, c);
    }
  }

  lemma QueriesOrderFree(a: Db, b: Db, sessionId: string)
    requires SameRows(a, b) && UniqueRows(a)
    ensures Messages(a, sessionId) == Messages(b, sessionId) && Parts(a, sessionId) == Parts(b, sessionId)
  {
    LeqOrders();
    var inM, inP := (m: MessageRow) => m.sessionId == sessionId, (p: PartRow) => p.sessionId == sessionId;
    KeptMeaning(inM, a.messages);
    KeptMeaning(inP, a.parts);
    KeptPermutes(inM, a.messages, b.messages);
    KeptPermutes(inP, a.parts, b.parts);
    forall x: string, y: string | LexLeq(x, y) && LexLeq(y, x) ensures x == y {
      LexAntisymmetric(x, y);
    }
    Sorting.SortCanonical(Kept(inM, a.messages), Kept(inM, b.messages), MessageLeq);
    Sorting.SortCanonical(Kept(inP, a.parts), Kept(inP, b.parts), PartLeq);
  }

  lemma {:induction false} RecordsOrderFree(h: Host, a: Db, b: Db, sessions: seq<SessionRow>)
    requires SameRows(a, b) && UniqueRows(a)
    ensures Records(h, a, sessions) == Records(h, b, sessions)
  {
    if sessions != [] {
      QueriesOrderFree(a, b, sessions[0].id);
      RecordsOrderFree(h, a, b, sessions[1..]);
    }
  }

  /** The records depend on the rows, not on the order the tables list them in. */
  lemma {:induction false} StoreOrderFree(h: Host, a: Db, b: Db)
    requires SameRows(a, b) && UniqueSessions(a) && UniqueRows(a)
    ensures Records(h, a, Sessions(a)) == Records(h, b, Sessions(b))
  {
    LeqOrders();
    forall x: string, y: string | LexLeq(x, y) && LexLeq(y, x) ensures x == y {
      LexAntisymmetric(x, y);
    }
    Sorting.SortCanonical(a.sessions, b.sessions, SessionLeq);
    RecordsOrderFree(h, a, b, Sessions(a));
  }

  // ---- Sessions that share an id ------------------------------------------------------------

  function RecordsOf(h: Host, db: Db): SessionRow -> seq<Value> {
    (s: SessionRow) => SessionRecords(h, db, s)
  }

  lemma OneSession(s: SessionRow, t: SessionRow)
    requires SessionRecord(s) == SessionRecord(t)
    ensures s == t
  {
    var v, w := SessionRecord(s).fields, SessionRecord(t).fields;
    assert v["sessionId"] == w["sessionId"] && v["ts"] == w["ts"] && v["title"] == w["title"];
  }

  lemma SessionsShow(h: Host, a: Db, s: SessionRow, t: SessionRow) returns (b: Db, c: Db)
    requires s in a.sessions && t in a.sessions && s.id == t.id && s != t
    ensures SameRows(a, b) && SameRows(a, c) && Records(h, b, Sessions(b)) != Records(h, c, Sessions(c))
  {
    var rest := Ties.PullTwo(a.sessions, s, t);
    b, c := a.(sessions := [s, t] + rest), a.(sessions := [t, s] + rest);
    LeqOrders();
    LexTotal(s.id, s.id);
    if SessionRecord(s) == SessionRecord(t) {
      OneSession(s, t);
    }
    assert RecordsOf(h, a)(s)[0] == SessionRecord(s) && RecordsOf(h, a)(t)[0] == SessionRecord(t);
    Ties.SwapShows(RecordsOf(h, a), s, t, rest, SessionLeq);
    SameQueries(h, a, b, Sessions(b));
    SameQueries(h, a, c, Sessions(c));
  }

  lemma {:induction false} SameQueries(h: Host, a: Db, b: Db, sessions: seq<SessionRow>)
    requires b == a.(sessions := b.sessions)
    ensures Records(h, b, sessions) == Ties.Flat(RecordsOf(h, a), sessions)
  {
    if sessions != [] {
      SameQueries(h, a, b, sessions[1..]);
    }
  }

  /** With unique rows, the records are independent of row order exactly when no two sessions share an id. */
  lemma {:induction false} RowOrderShowsExactly(h: Host, a: Db)
    requires UniqueRows(a)
    ensures (forall b | SameRows(a, b) :: Records(h, b, Sessions(b)) == Records(h, a, Sessions(a)))
      <==> UniqueSessions(a)
  {
    if UniqueSessions(a) {
      forall b | SameRows(a, b) ensures Records(h, b, Sessions(b)) == Records(h, a, Sessions(a)) {
        StoreOrderFree(h, a, b);
      }
    } else {
      var s, t :| s in a.sessions && t in a.sessions && s.id == t.id && s != t;
      var b, c := SessionsShow(h, a, s, t);
    }
  }
}
