/** The V4A patch parser of the Codex adapter: one section per file header. */
module V4aPatch {
  import opened Wrappers
  import opened Text

  datatype PatchSection = PatchSection(path: string, body: string, added: nat, removed: nat)

  datatype Operation = Update | Add | Delete {
    function Header(): string {
      match this
      case Update => "*** Update File: "
      case Add => "*** Add File: "
      case Delete => "*** Delete File: "
    }
  }

  const BEGIN_PATCH: string := "*** Begin Patch"
  const END_PATCH: string := "*** End Patch"

  /** The trimmed path of a file header line. */
  function SectionHeader(line: string): Option<string> {
    if StartsWith(line, Update.Header()) then Some(Trim(line[|Update.Header()|..]))
    else if StartsWith(line, Add.Header()) then Some(Trim(line[|Add.Header()|..]))
    else if StartsWith(line, Delete.Header()) then Some(Trim(line[|Delete.Header()|..]))
    else None
  }

  predicate IsEnvelope(line: string) {
    StartsWith(line, BEGIN_PATCH) || StartsWith(line, END_PATCH)
  }

  predicate IsHeader(line: string) {
    SectionHeader(line).Some?
  }

  /** A line that goes into the body of the section it stands in. */
  predicate IsPlain(line: string) {
    !IsHeader(line) && !IsEnvelope(line)
  }

  /** How many lines start with `mark`. */
  function Marked(lines: seq<string>, mark: char): nat {
    if lines == [] then 0
    else Marked(lines[..|lines| - 1], mark) + Starts(lines[|lines| - 1], mark)
  }

  function Starts(line: string, mark: char): nat {
    if line != "" && line[0] == mark then 1 else 0
  }

  /** The section a header and its body lines make. */
  function MakeSection(path: string, lines: seq<string>): PatchSection {
    PatchSection(path, Pushed(lines), Marked(lines, '+'), Marked(lines, '-'))
  }

  /** The plain lines up to the next header. */
  function BodyLines(lines: seq<string>): seq<string> {
    if lines == [] || IsHeader(lines[0]) then []
    else (if IsEnvelope(lines[0]) then [] else [lines[0]]) + BodyLines(lines[1..])
  }

  /** The sections of a patch: each header with the plain lines that follow it. */
  function Sections(lines: seq<string>): seq<PatchSection> {
    if lines == [] then []
    else
      match SectionHeader(lines[0])
      case Some(path) => [MakeSection(path, BodyLines(lines[1..]))] + Sections(lines[1..])
      case None => Sections(lines[1..])
  }

  /** After i lines: the finished sections, the open one with its body so far, and what is left. */
  ghost predicate Progress(
    lines: seq<string>, i: nat, sections: seq<PatchSection>, current: Option<PatchSection>, own: seq<string>)
    requires i <= |lines|
  {
    && (current.Some? ==> current.value == MakeSection(current.value.path, own))
    && Sections(lines) == sections + Open(current, own + BodyLines(lines[i..])) + Sections(lines[i..])
  }

  ghost function Open(current: Option<PatchSection>, body: seq<string>): seq<PatchSection> {
    if current.Some? then [MakeSection(current.value.path, body)] else []
  }

  lemma HeaderStep(
    lines: seq<string>, i: nat, sections: seq<PatchSection>, current: Option<PatchSection>, own: seq<string>,
    path: string)
    requires i < |lines| && Progress(lines, i, sections, current, own)
    requires SectionHeader(lines[i]) == Some(path)
    ensures var done := if current.Some? then sections + [current.value] else sections;
      Progress(lines, i + 1, done, Some(PatchSection(path, "", 0, 0)), [])
  {
    var body, rest := BodyLines(lines[i + 1..]), Sections(lines[i + 1..]);
    HeaderFirst(lines, i, path);
    OpenDone(current, own);
    assert [] + body == body;
    var done := if current.Some? then sections + [current.value] else sections;
    Regroup(sections, Open(current, own), [MakeSection(path, body)], rest);
    assert sections + [] == sections;
  }

  lemma HeaderFirst(lines: seq<string>, i: nat, path: string)
    requires i < |lines| && SectionHeader(lines[i]) == Some(path)
    ensures BodyLines(lines[i..]) == []
    ensures Sections(lines[i..]) == [MakeSection(path, BodyLines(lines[i + 1..]))] + Sections(lines[i + 1..])
  {
    assert lines[i..][0] == lines[i] && lines[i..][1..] == lines[i + 1..];
  }

  /** At a header nothing is added to the open section. */
  lemma OpenDone(current: Option<PatchSection>, own: seq<string>)
    requires current.Some? ==> current.value == MakeSection(current.value.path, own)
    ensures Open(current, own + []) == Open(current, own)
    ensures Open(current, own) == if current.Some? then [current.value] else []
  {
    assert own + [] == own;
  }

  lemma Regroup<T>(a: seq<T>, b: seq<T>, c: seq<T>, d: seq<T>)
    ensures a + b + (c + d) == (a + b) + c + d
  {
  }

  lemma EnvelopeStep(
    lines: seq<string>, i: nat, sections: seq<PatchSection>, current: Option<PatchSection>, own: seq<string>)
    requires i < |lines| && Progress(lines, i, sections, current, own)
    requires !IsHeader(lines[i]) && (IsEnvelope(lines[i]) || current.None?)
    ensures Progress(lines, i + 1, sections, current, own)
  {
    assert lines[i..][0] == lines[i] && lines[i..][1..] == lines[i + 1..];
    assert [] + BodyLines(lines[i + 1..]) == BodyLines(lines[i + 1..]);
  }

  lemma PlainStep(
    lines: seq<string>, i: nat, sections: seq<PatchSection>, current: PatchSection, own: seq<string>)
    requires i < |lines| && Progress(lines, i, sections, Some(current), own) && IsPlain(lines[i])
    ensures Progress(lines, i + 1, sections, Some(AddLine(current, lines[i])), own + [lines[i]])
  {
    PlainHead(lines, i);
    SectionGrows(current.path, own, lines[i]);
    OpenShift(current, AddLine(current, lines[i]), own, lines[i], BodyLines(lines[i + 1..]));
  }

  lemma OpenShift(x: PatchSection, y: PatchSection, own: seq<string>, line: string, rest: seq<string>)
    requires x.path == y.path
    ensures Open(Some(x), own + ([line] + rest)) == Open(Some(y), (own + [line]) + rest)
  {
    assert own + ([line] + rest) == (own + [line]) + rest;
  }

  lemma PlainHead(lines: seq<string>, i: nat)
    requires i < |lines| && IsPlain(lines[i])
    ensures BodyLines(lines[i..]) == [lines[i]] + BodyLines(lines[i + 1..])
    ensures Sections(lines[i..]) == Sections(lines[i + 1..])
  {
    assert lines[i..] == [lines[i]] + lines[i + 1..];
    PlainFirst(lines[i], lines[i + 1..]);
  }

  lemma PlainFirst(line: string, rest: seq<string>)
    requires IsPlain(line)
    ensures BodyLines([line] + rest) == [line] + BodyLines(rest)
    ensures Sections([line] + rest) == Sections(rest)
  {
    assert ([line] + rest)[1..] == rest;
  }

  lemma SectionGrows(path: string, own: seq<string>, line: string)
    ensures MakeSection(path, own + [line]) == AddLine(MakeSection(path, own), line)
  {
    assert (own + [line])[..|own|] == own;
  }

  function AddLine(sec: PatchSection, line: string): PatchSection {
    PatchSection(sec.path, PushLine(sec.body, line),
                 sec.added + Starts(line, '+'), sec.removed + Starts(line, '-'))
  }

  method Parse(patch: string) returns (sections: seq<PatchSection>)
    ensures sections == Sections(Lines(patch))
  {
    sections := [];
    var current: Option<PatchSection> := None;
    var lines := Lines(patch);
    ghost var own: seq<string> := [];
    assert lines[0..] == lines;
    for i := 0 to |lines|
      invariant Progress(lines, i, sections, current, own)
    {
      var line := lines[i];
      var header := SectionHeader(line);
      if header.Some? {
        HeaderStep(lines, i, sections, current, own, header.value);
        if current.Some? {
          sections := sections + [current.value];
        }
        current := Some(PatchSection(header.value, "", 0, 0));
        own := [];
        continue;
      }
      if IsEnvelope(line) {
        EnvelopeStep(lines, i, sections, current, own);
        continue;
      }
      if current.Some? {
        PlainStep(lines, i, sections, current.value, own);
        current := Some(AddLine(current.value, line));
        own := own + [line];
      } else {
        EnvelopeStep(lines, i, sections, current, own);
      }
    }
    assert lines[|lines|..] == [];
    assert own + [] == own;
    if current.Some? {
      sections := sections + [current.value];
    }
  }

  // ---- Conservation ------------------------------------------------------------

  /** The header paths of a patch, in order. */
  function HeaderPaths(lines: seq<string>): seq<string> {
    if lines == [] then []
    else (match SectionHeader(lines[0])
          case Some(p) => [p]
          case None => []) + HeaderPaths(lines[1..])
  }

  /** The body lines of every section, in order. */
  function Bodies(lines: seq<string>): seq<seq<string>> {
    if lines == [] then []
    else (if IsHeader(lines[0]) then [BodyLines(lines[1..])] else []) + Bodies(lines[1..])
  }

  function Flatten(parts: seq<seq<string>>): seq<string> {
    if parts == [] then [] else parts[0] + Flatten(parts[1..])
  }

  function PlainLines(lines: seq<string>): seq<string> {
    if lines == [] then []
    else (if IsPlain(lines[0]) then [lines[0]] else []) + PlainLines(lines[1..])
  }

  function FromFirstHeader(lines: seq<string>): seq<string> {
    if lines == [] || IsHeader(lines[0]) then lines else FromFirstHeader(lines[1..])
  }

  /** A plain-line body followed by what comes from the next header on. */
  lemma {:induction false} BodySplits(lines: seq<string>)
    ensures PlainLines(lines) == BodyLines(lines) + PlainLines(FromFirstHeader(lines))
    ensures Bodies(lines) == Bodies(FromFirstHeader(lines))
  {
    if lines == [] || IsHeader(lines[0]) {
      assert BodyLines(lines) == [];
      assert [] + PlainLines(lines) == PlainLines(lines);
    } else {
      var rest := lines[1..];
      BodySplits(rest);
      BodyHead(lines);
      var own, a, b := OwnPlain(lines[0]), BodyLines(rest), PlainLines(FromFirstHeader(rest));
      assert own + (a + b) == (own + a) + b;
    }
  }

  function OwnPlain(line: string): seq<string> {
    if IsPlain(line) then [line] else []
  }

  lemma BodyHead(lines: seq<string>)
    requires lines != [] && !IsHeader(lines[0])
    ensures BodyLines(lines) == OwnPlain(lines[0]) + BodyLines(lines[1..])
    ensures PlainLines(lines) == OwnPlain(lines[0]) + PlainLines(lines[1..])
    ensures Bodies(lines) == Bodies(lines[1..]) && FromFirstHeader(lines) == FromFirstHeader(lines[1..])
  {
    assert [] + Bodies(lines[1..]) == Bodies(lines[1..]);
  }

  lemma HeaderIsNotPlain(lines: seq<string>)
    requires lines != [] && IsHeader(lines[0])
    ensures PlainLines(lines) == PlainLines(lines[1..])
    ensures FromFirstHeader(lines) == lines
  {
    assert [] + PlainLines(lines[1..]) == PlainLines(lines[1..]);
  }

  /** No plain line after the first header is lost, duplicated or moved between sections. */
  lemma {:induction false} BodiesConserve(lines: seq<string>)
    ensures Flatten(Bodies(lines)) == PlainLines(FromFirstHeader(lines))
  {
    if lines == [] {
    } else if IsHeader(lines[0]) {
      BodiesConserve(lines[1..]);
      BodySplits(lines[1..]);
      HeaderIsNotPlain(lines);
      FlattenCons(BodyLines(lines[1..]), Bodies(lines[1..]));
    } else {
      BodiesConserve(lines[1..]);
      assert Bodies(lines) == [] + Bodies(lines[1..]) == Bodies(lines[1..]);
    }
  }

  lemma FlattenCons(x: seq<string>, rest: seq<seq<string>>)
    ensures Flatten([x] + rest) == x + Flatten(rest)
  {
    assert ([x] + rest)[1..] == rest;
  }

  lemma {:induction false} MarkedDropLeading(lines: seq<string>, mark: char)
    ensures Marked(DropLeadingEmpty(lines), mark) == Marked(lines, mark)
  {
    if lines == [] {
    } else {
      var init, last := lines[..|lines| - 1], lines[|lines| - 1];
      assert lines == init + [last];
      MarkedDropLeading(init, mark);
      DropLeadingEmptySnoc(init, last);
      var kept := DropLeadingEmpty(init);
      assert (kept + [last])[..|kept|] == kept;
      if kept == [] {
        assert Marked(kept, mark) == 0;
      }
    }
  }

  /**
   On any input the sections match the headers one to one and in order; the k-th
   body is its lines joined by line feeds after dropping leading empty lines, and
   the counts are the counts of those very lines.
   */
  lemma {:induction false} SectionsExact(lines: seq<string>)
    ensures |Sections(lines)| == |HeaderPaths(lines)| == |Bodies(lines)|
    ensures forall k | 0 <= k < |Sections(lines)| ::
      var kept := DropLeadingEmpty(Bodies(lines)[k]);
      Sections(lines)[k] == PatchSection(
        HeaderPaths(lines)[k], Join(kept, "\n"), Marked(kept, '+'), Marked(kept, '-'))
  {
    if lines != [] {
      SectionsExact(lines[1..]);
      if IsHeader(lines[0]) {
        var body := BodyLines(lines[1..]);
        PushedIsJoin(body);
        MarkedDropLeading(body, '+');
        MarkedDropLeading(body, '-');
      } else {
        assert HeaderPaths(lines) == HeaderPaths(lines[1..]);
        assert Bodies(lines) == Bodies(lines[1..]);
      }
    }
  }

  // ---- Round trip ------------------------------------------------------------

  datatype FileChange = FileChange(op: Operation, path: string, lines: seq<string>)

  /** What can be printed: one of the three headers, a trimmed one-line path, plain clean lines. */
  predicate Printable(c: FileChange) {
    && Trimmed(c.path) && '\n' !in c.path
    && CleanLines(c.lines) && forall l | l in c.lines :: IsPlain(l)
  }

  function ChangeLines(c: FileChange): seq<string> {
    [c.op.Header() + c.path] + c.lines
  }

  function BodyOfChanges(cs: seq<FileChange>): seq<string>
  {
    if cs == [] then [END_PATCH] else ChangeLines(cs[0]) + BodyOfChanges(cs[1..])
  }

  function Print(cs: seq<FileChange>): string
  {
    Unlines([BEGIN_PATCH] + BodyOfChanges(cs))
  }

  /** The section a change is read back as. */
  function Expected(c: FileChange): PatchSection {
    var kept := DropLeadingEmpty(c.lines);
    PatchSection(c.path, Join(kept, "\n"), Marked(c.lines, '+'), Marked(c.lines, '-'))
  }

  lemma NotPrefix(s: string, p: string, k: nat)
    requires k < |s| && k < |p| && s[k] != p[k]
    ensures !StartsWith(s, p)
  {
  }

  lemma HeaderRead(op: Operation, path: string)
    requires Trimmed(path)
    ensures SectionHeader(op.Header() + path) == Some(path)
  {
    var line := op.Header() + path;
    TrimFixed(path);
    assert line[|op.Header()|..] == path;
    assert line[4] == op.Header()[4];
    assert StartsWith(line, op.Header());
    if op != Update {
      NotPrefix(line, Update.Header(), 4);
      if op != Add {
        NotPrefix(line, Add.Header(), 4);
      }
    }
  }

  lemma HeaderClean(op: Operation, path: string)
    requires Trimmed(path) && '\n' !in path
    ensures CleanLine(op.Header() + path)
  {
    var line := op.Header() + path;
    if path != "" {
      assert line[|line| - 1] == path[|path| - 1];
    }
  }

  lemma Associate<T>(a: seq<T>, b: seq<T>, c: seq<T>)
    ensures a + (b + c) == (a + b) + c
  {
  }

  lemma {:induction false} BodyStopsAt(own: seq<string>, rest: seq<string>)
    requires forall l | l in own :: IsPlain(l)
    ensures BodyLines(own + rest) == own + BodyLines(rest)
    ensures Sections(own + rest) == Sections(rest)
  {
    if own == [] {
      assert own + rest == rest;
    } else {
      var first, others := own[0], own[1..];
      assert first in own;
      BodyStopsAt(others, rest);
      assert own == [first] + others;
      Associate([first], others, rest);
      PlainFirst(first, others + rest);
      Associate([first], others, BodyLines(rest));
    }
  }

  lemma EnvelopeIsNoHeader(line: string)
    requires line == BEGIN_PATCH || line == END_PATCH
    ensures SectionHeader(line) == None && IsEnvelope(line) && CleanLine(line)
  {
    NotPrefix(line, Update.Header(), 4);
    NotPrefix(line, Add.Header(), 4);
    NotPrefix(line, Delete.Header(), 4);
  }

  /** A printed change in front of lines that do not start with a body is read as its section. */
  lemma ChangeRead(c: FileChange, rest: seq<string>)
    requires Printable(c) && BodyLines(rest) == []
    ensures Sections(ChangeLines(c) + rest) == [Expected(c)] + Sections(rest)
    ensures BodyLines(ChangeLines(c) + rest) == []
  {
    HeaderRead(c.op, c.path);
    var all := ChangeLines(c) + rest;
    assert all[0] == c.op.Header() + c.path;
    assert all[1..] == c.lines + rest;
    BodyStopsAt(c.lines, rest);
    assert c.lines + [] == c.lines;
    MadeAsExpected(c);
  }

  lemma MadeAsExpected(c: FileChange)
    ensures MakeSection(c.path, c.lines) == Expected(c)
  {
    PushedIsJoin(c.lines);
  }

  function AllExpected(cs: seq<FileChange>): seq<PatchSection> {
    if cs == [] then [] else [Expected(cs[0])] + AllExpected(cs[1..])
  }

  lemma {:induction false} PrintedSections(cs: seq<FileChange>)
    requires forall c | c in cs :: Printable(c)
    ensures BodyLines(BodyOfChanges(cs)) == []
    ensures Sections(BodyOfChanges(cs)) == AllExpected(cs)
  {
    if cs == [] {
      EnvelopeIsNoHeader(END_PATCH);
      assert [END_PATCH][1..] == [];
      assert Sections([]) == [] && BodyLines([]) == [];
    } else {
      assert cs[0] in cs;
      PrintedSections(cs[1..]);
      ChangeRead(cs[0], BodyOfChanges(cs[1..]));
    }
  }

  lemma {:induction false} PrintedClean(cs: seq<FileChange>)
    requires forall c | c in cs :: Printable(c)
    ensures CleanLines(BodyOfChanges(cs))
  {
    if cs == [] {
      EnvelopeIsNoHeader(END_PATCH);
    } else {
      assert cs[0] in cs;
      HeaderClean(cs[0].op, cs[0].path);
      PrintedClean(cs[1..]);
    }
  }

  /** Parsing undoes printing. */
  lemma {:induction false} RoundTrip(cs: seq<FileChange>)
    requires forall c | c in cs :: Printable(c)
    ensures Sections(Lines(Print(cs))) == AllExpected(cs)
  {
    PrintedSections(cs);
    PrintedClean(cs);
    EnvelopeIsNoHeader(BEGIN_PATCH);
    var lines := [BEGIN_PATCH] + BodyOfChanges(cs);
    LinesUnlines(lines);
    assert lines[1..] == BodyOfChanges(cs);
  }

  /**
   The body read back is the printed lines joined, exactly when the printed body
   does not start with an empty line that another line follows.
   */
  lemma {:induction false} BodyVerbatim(c: FileChange)
    requires Printable(c)
    ensures Expected(c).body == Join(c.lines, "\n") <==> (|c.lines| <= 1 || c.lines[0] != "")
  {
    var ls := c.lines;
    if ls == [] || ls[0] != "" {
    } else if |ls| == 1 {
      assert ls[1..] == [];
      assert DropLeadingEmpty([]) == [];
    } else {
      var kept := DropLeadingEmpty(ls);
      assert Join(ls, "\n") == "\n" + Join(ls[1..], "\n");
      assert Join(ls, "\n")[0] == '\n';
      if kept != [] {
        DropLeadingEmptyHead(ls);
        DropLeadingEmptyKeeps(ls);
        assert CleanLine(kept[0]);
        assert Join(kept, "\n")[0] == kept[0][0];
        assert kept[0][0] in kept[0];
      }
    }
  }

  lemma {:induction false} DropLeadingEmptyKeeps(parts: seq<string>)
    ensures forall p | p in DropLeadingEmpty(parts) :: p in parts
  {
    if parts != [] && parts[0] == "" {
      DropLeadingEmptyKeeps(parts[1..]);
    }
  }
}
