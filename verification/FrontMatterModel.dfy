/** The front-matter reader of governance documents. */
module FrontMatterModel {
  import opened Wrappers
  import opened Text

  datatype FrontMatter = FrontMatter(
    present: bool, status: Option<string>, onlyScopeOrPublishing: bool,
    hasPublishing: bool, hasIssueTemplate: bool, ban: bool, governs: seq<string>)

  const ABSENT: FrontMatter := FrontMatter(false, None, false, false, false, false, [])

  // ---- Scalars and lists ----------------------------------------------------------

  /** White space, then double quotes, then single quotes off both ends. */
  function Unquoted(s: string): string {
    TrimChar(TrimChar(Trim(s), '"'), '\'')
  }

  function NonEmptyUnquoted(parts: seq<string>): seq<string> {
    if parts == [] then []
    else (if Unquoted(parts[0]) == "" then [] else [Unquoted(parts[0])]) + NonEmptyUnquoted(parts[1..])
  }

  /** `parse_flow_list`: nothing unless the value is bracketed. */
  function FlowList(val: string): Option<seq<string>> {
    var t := Trim(val);
    if t != "" && t[0] == '[' && EndsWith(t[1..], "]")
    then Some(NonEmptyUnquoted(Split(t[1..|t| - 1], ',')))
    else None
  }

  predicate Truthy(val: string) {
    AsciiLower(Trim(val)) in {"true", "yes", "on", "1"}
  }

  predicate Falsy(val: string) {
    AsciiLower(Trim(val)) in {"", "false", "no", "off", "0"}
  }

  // ---- One line ------------------------------------------------------------

  datatype Fields = Fields(status: Option<string>, keys: seq<string>, ban: bool, governs: seq<string>)

  const NO_FIELDS: Fields := Fields(None, [], false, [])

  predicate IsFence(line: string) {
    Trim(TrimEnd(line)) in {"---", "..."}
  }

  predicate Indented(line: string) {
    line != "" && IsWhitespace(line[0])
  }

  /** Whether the line carries a top-level key. */
  predicate IsKeyLine(line: string) {
    var t := TrimEnd(line);
    ':' in t && !Indented(t)
  }

  function KeyOf(line: string): string {
    var t := TrimEnd(line);
    AsciiLower(Trim(t[..IndexOf(t, ':')]))
  }

  function ValueOf(line: string): string {
    var t := TrimEnd(line);
    var i := IndexOf(t, ':');
    if i < |t| then Unquoted(t[i + 1..]) else ""
  }

  /** What a key line does, block lists aside. */
  function AddKey(f: Fields, line: string): Fields {
    var key, val := KeyOf(line), ValueOf(line);
    Fields(
      if key == "status" && val != "" then Some(val) else f.status,
      if key != "" then f.keys + [key] else f.keys,
      if key == "ban" || key == "policy" then f.ban || !Falsy(val) || Truthy(val) else f.ban,
      if key == "governs" && FlowList(val).Some? then FlowList(val).value else f.governs)
  }

  /** A `governs` key with no value opens a block list. */
  predicate OpensBlock(line: string) {
    IsKeyLine(line) && KeyOf(line) == "governs" && FlowList(ValueOf(line)).None? && ValueOf(line) == ""
  }

  predicate IsItem(line: string) {
    Indented(line) && (StartsWith(Trim(line), "- ") || Trim(line) == "-")
  }

  function ItemOf(line: string): string {
    if StartsWith(Trim(line), "- ") then Unquoted(Trim(line)[2..]) else ""
  }

  /** The items of the block list at the head of the lines, and how many lines it takes. */
  function BlockItems(lines: seq<string>): seq<string> {
    if lines == [] || !IsItem(lines[0]) then []
    else (if ItemOf(lines[0]) == "" then [] else [ItemOf(lines[0])]) + BlockItems(lines[1..])
  }

  function BlockLength(lines: seq<string>): (n: nat)
    ensures n <= |lines|
  {
    if lines == [] || !IsItem(lines[0]) then 0 else 1 + BlockLength(lines[1..])
  }

  // ---- The scan ------------------------------------------------------------

  /** The fields up to the closing fence, or nothing when no fence closes. */
  function Scan(lines: seq<string>, f: Fields): Option<Fields>
    decreases |lines|
  {
    if lines == [] then None
    else if IsFence(lines[0]) then Some(f)
    else if !IsKeyLine(lines[0]) then Scan(lines[1..], f)
    else if OpensBlock(lines[0]) then
      var g := AddKey(f, lines[0]);
      Scan(lines[1..][BlockLength(lines[1..])..], g.(governs := g.governs + BlockItems(lines[1..])))
    else Scan(lines[1..], AddKey(f, lines[0]))
  }

  const SCOPE_KEYS: set<string> :=
    {"paths", "globs", "applyto", "trigger", "alwaysapply", "description", "governs"}
  const PUBLISHING_KEYS: set<string> :=
    {"layout", "permalink", "slug", "sidebar_position", "categories", "author"}
  const ISSUE_TEMPLATE_KEYS: set<string> := {"about", "labels", "assignees"}

  function Summary(f: Fields): FrontMatter {
    FrontMatter(
      true, f.status,
      f.keys != [] && forall k | k in f.keys :: k in SCOPE_KEYS || k in PUBLISHING_KEYS,
      exists k | k in f.keys :: k in PUBLISHING_KEYS,
      exists k | k in f.keys :: k in ISSUE_TEMPLATE_KEYS,
      f.ban, f.governs)
  }

  const BOM: char := '\U{FEFF}'

  /** Front matter given the lines of the document. */
  function OfLines(lines: seq<string>): FrontMatter {
    if lines == [] then ABSENT
    else
      var r := Scan(lines[1..], NO_FIELDS);
      if r.Some? then Summary(r.value) else ABSENT
  }

  function Read(content: string): FrontMatter {
    var trimmed := TrimLeftChar(content, BOM);
    if StartsWith(trimmed, "---") then OfLines(Lines(trimmed)) else ABSENT
  }

  lemma BlockStep(lines: seq<string>, j: nat, r: seq<string>)
    requires j < |lines|
    ensures !IsItem(lines[j]) ==> r + BlockItems(lines[j..]) == r && BlockLength(lines[j..]) == 0
    ensures IsItem(lines[j]) ==> BlockLength(lines[j..]) == 1 + BlockLength(lines[j + 1..])
    ensures IsItem(lines[j]) ==>
      r + BlockItems(lines[j..])
      == (if ItemOf(lines[j]) == "" then r else r + [ItemOf(lines[j])]) + BlockItems(lines[j + 1..])
  {
    assert lines[j..][0] == lines[j] && lines[j..][1..] == lines[j + 1..];
    var rest := BlockItems(lines[j + 1..]);
    assert [] + rest == rest;
    assert r + ([ItemOf(lines[j])] + rest) == r + [ItemOf(lines[j])] + rest;
  }

  /** The inner loop: collect the block list that starts at `start`. */
  method ReadBlock(lines: seq<string>, start: nat, governs: seq<string>) returns (r: seq<string>, j: nat)
    requires start <= |lines|
    ensures r == governs + BlockItems(lines[start..])
    ensures j == start + BlockLength(lines[start..])
  {
    r, j := governs, start;
    ghost var items, end := governs + BlockItems(lines[start..]), start + BlockLength(lines[start..]);
    while j < |lines|
      invariant start <= j <= |lines|
      invariant items == r + BlockItems(lines[j..]) && end == j + BlockLength(lines[j..])
      decreases |lines| - j
    {
      BlockStep(lines, j, r);
      if !Indented(lines[j]) { return; }
      var item := Trim(lines[j]);
      if StartsWith(item, "- ") {
        var cleaned := Unquoted(item[2..]);
        if cleaned != "" {
          r := r + [cleaned];
        }
        j := j + 1;
      } else if item == "-" {
        j := j + 1;
      } else {
        return;
      }
    }
    assert lines[j..] == [];
    assert r + [] == r;
  }

  lemma FenceStep(lines: seq<string>, i: nat, f: Fields)
    requires i < |lines| && IsFence(lines[i])
    ensures Scan(lines[i..], f) == Some(f)
  {
  }

  lemma PlainStep(lines: seq<string>, i: nat, f: Fields)
    requires i < |lines| && !IsFence(lines[i]) && !OpensBlock(lines[i])
    ensures Scan(lines[i..], f) == Scan(lines[i + 1..], if IsKeyLine(lines[i]) then AddKey(f, lines[i]) else f)
  {
    assert lines[i..][1..] == lines[i + 1..];
  }

  lemma OpeningStep(lines: seq<string>, i: nat, f: Fields, j: nat)
    requires i < |lines| && !IsFence(lines[i]) && OpensBlock(lines[i])
    requires j == i + 1 + BlockLength(lines[i + 1..])
    ensures var g := AddKey(f, lines[i]);
      Scan(lines[i..], f) == Scan(lines[j..], g.(governs := g.governs + BlockItems(lines[i + 1..])))
  {
    assert lines[i..][1..] == lines[i + 1..];
    assert lines[i + 1..][BlockLength(lines[i + 1..])..] == lines[j..];
  }

  /** One line that closes nothing: what it adds, and where the scan goes on. */
  method ScanLine(lines: seq<string>, i: nat, f: Fields) returns (g: Fields, next: nat)
    requires i < |lines| && !IsFence(lines[i])
    ensures i < next <= |lines| && Scan(lines[i..], f) == Scan(lines[next..], g)
  {
    var line := lines[i];
    if !OpensBlock(line) {
      PlainStep(lines, i, f);
      g, next := if IsKeyLine(line) then AddKey(f, line) else f, i + 1;
    } else {
      g := AddKey(f, line);
      var governs, j := ReadBlock(lines, i + 1, g.governs);
      OpeningStep(lines, i, f, j);
      g, next := g.(governs := governs), j;
    }
  }

  /** The outer loop over the lines after the opening fence. */
  method ScanLines(lines: seq<string>, start: nat) returns (r: Option<Fields>)
    requires start <= |lines|
    ensures r == Scan(lines[start..], NO_FIELDS)
  {
    var f, i := NO_FIELDS, start;
    ghost var goal := Scan(lines[start..], NO_FIELDS);
    while i < |lines|
      invariant start <= i <= |lines|
      invariant goal == Scan(lines[i..], f)
      decreases |lines| - i
    {
      if IsFence(lines[i]) {
        FenceStep(lines, i, f);
        return Some(f);
      }
      f, i := ScanLine(lines, i, f);
    }
    assert lines[i..] == [];
    return None;
  }

  /** `parse_front_matter`: an unclosed fence is not front matter at all. */
  method Parse(content: string) returns (r: FrontMatter)
    ensures r == Read(content)
  {
    var trimmed := TrimLeftChar(content, BOM);
    if !StartsWith(trimmed, "---") { return ABSENT; }
    var lines := Lines(trimmed);
    assert lines != [] by { assert trimmed != ""; }
    var f := ScanLines(lines, 1);
    r := if f.Some? then Summary(f.value) else ABSENT;
  }

  // ---- Locality ------------------------------------------------------------

  lemma {:induction false} BlockPrefix(a: seq<string>, b: seq<string>)
    requires BlockLength(a) < |a|
    ensures BlockLength(a + b) == BlockLength(a) && BlockItems(a + b) == BlockItems(a)
  {
    assert (a + b)[0] == a[0];
    if IsItem(a[0]) {
      assert (a + b)[1..] == a[1..] + b;
      BlockPrefix(a[1..], b);
    }
  }

  lemma DropAll(a: seq<string>, n: nat)
    requires n <= |a|
    ensures n == |a| ==> a[n..] == []
  {
  }

  lemma DropConcat(a: seq<string>, b: seq<string>, n: nat)
    requires n <= |a|
    ensures (a + b)[n..] == a[n..] + b
  {
  }

  lemma {:induction false} ScanPrefix(a: seq<string>, b: seq<string>, f: Fields)
    requires Scan(a, f).Some?
    ensures Scan(a + b, f) == Scan(a, f)
    decreases |a|
  {
    assert (a + b)[0] == a[0] && (a + b)[1..] == a[1..] + b;
    if IsFence(a[0]) {
    } else if !IsKeyLine(a[0]) {
      ScanPrefix(a[1..], b, f);
    } else if OpensBlock(a[0]) {
      var n, g := BlockLength(a[1..]), AddKey(f, a[0]);
      DropAll(a[1..], n);
      BlockPrefix(a[1..], b);
      DropConcat(a[1..], b, n);
      ScanPrefix(a[1..][n..], b, g.(governs := g.governs + BlockItems(a[1..])));
    } else {
      ScanPrefix(a[1..], b, AddKey(f, a[0]));
    }
  }

  lemma {:induction false} TrimLeftAppend(s: string, t: string, c: char)
    requires TrimLeftChar(s, c) != ""
    ensures TrimLeftChar(s + t, c) == TrimLeftChar(s, c) + t
  {
    if s[0] == c {
      assert (s + t)[1..] == s[1..] + t;
      TrimLeftAppend(s[1..], t, c);
    }
  }

  /**
   When a text up to some line feed already closes its front matter, the whole
   result is that of the text, whatever follows.
   */
  lemma {:induction false} Locality(head: string, tail: string)
    requires Read(head + "\n").present
    ensures Read(head + "\n" + tail) == Read(head + "\n")
  {
    var doc := head + "\n";
    var t := TrimLeftChar(doc, BOM);
    assert t != "" && StartsWith(t, "---");
    TrimLeftAppend(doc, tail, BOM);
    TrimLeftKeepsLast(doc, BOM);
    LinesOfLonger(t, tail);
    ScanOfLonger(Lines(t), Lines(tail));
    assert StartsWith(t + tail, "---");
  }

  lemma LinesOfLonger(t: string, tail: string)
    requires t != "" && t[|t| - 1] == '\n'
    ensures Lines(t + tail) == Lines(t) + Lines(tail)
  {
    var body := t[..|t| - 1];
    assert t == body + "\n" + "";
    assert t + tail == body + "\n" + tail;
    LinesConcat(body, tail);
  }

  lemma ScanOfLonger(a: seq<string>, b: seq<string>)
    requires OfLines(a).present
    ensures OfLines(a + b) == OfLines(a)
  {
    assert (a + b)[1..] == a[1..] + b;
    ScanPrefix(a[1..], b, NO_FIELDS);
  }

  lemma {:induction false} TrimLeftKeepsLast(s: string, c: char)
    requires TrimLeftChar(s, c) != ""
    ensures var t := TrimLeftChar(s, c); s != "" && t[|t| - 1] == s[|s| - 1]
  {
    if s[0] == c {
      TrimLeftKeepsLast(s[1..], c);
    }
  }
}
