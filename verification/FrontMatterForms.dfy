/** The two ways to write a selector list in front matter mean the same list. */
module FrontMatterForms {
  import opened Wrappers
  import opened Text
  import opened FrontMatterModel

  /** A selector both forms can carry: trimmed, unquoted, without a comma. */
  predicate Selector(s: string) {
    && s != "" && Trimmed(s) && ',' !in s && '\n' !in s
    && s[0] !in {'"', '\''} && s[|s| - 1] !in {'"', '\''}
  }

  predicate Selectors(items: seq<string>) {
    forall s | s in items :: Selector(s)
  }

  function FlowLine(items: seq<string>): string {
    "governs: [" + Join(items, ", ") + "]"
  }

  const BLOCK_KEY: string := "governs:"

  function BlockLine(item: string): string {
    "  - " + item
  }

  function BlockLines(items: seq<string>): seq<string> {
    seq(|items|, i requires 0 <= i < |items| => BlockLine(items[i]))
  }

  // ---- Unquoting ------------------------------------------------------------

  lemma Bare(s: string, pad: string)
    requires s != "" && Trimmed(s) && AllWhitespace(pad)
    requires s[0] !in {'"', '\''} && s[|s| - 1] !in {'"', '\''}
    ensures Unquoted(pad + s) == s
  {
    TrimCore(pad, s, "");
    assert pad + s + "" == pad + s;
  }

  lemma TrimEndKeeps(s: string)
    requires s != "" && !IsWhitespace(s[|s| - 1])
    ensures TrimEnd(s) == s
  {
  }

  // ---- The flow form ------------------------------------------------------------

  lemma FirstRead(part: string, parts: seq<string>)
    requires Unquoted(part) != ""
    ensures NonEmptyUnquoted([part] + parts) == [Unquoted(part)] + NonEmptyUnquoted(parts)
  {
    assert ([part] + parts)[1..] == parts;
  }

  lemma {:induction false} JoinedOne(pad: string, item: string)
    requires Selector(item) && AllWhitespace(pad) && ',' !in pad
    ensures NonEmptyUnquoted(Split(pad + item, ',')) == [item]
  {
    Bare(item, pad);
    SplitNone(pad + item, ',');
    FirstRead(pad + item, []);
    assert [pad + item] + [] == [pad + item];
  }

  lemma {:induction false} JoinedMore(pad: string, item: string, rest: string)
    requires Selector(item) && AllWhitespace(pad) && ',' !in pad
    ensures NonEmptyUnquoted(Split(pad + item + "," + rest, ',')) == [item] + NonEmptyUnquoted(Split(rest, ','))
  {
    Bare(item, pad);
    SplitOnce(pad + item, rest, ',');
    FirstRead(pad + item, Split(rest, ','));
  }

  lemma {:induction false} JoinedRead(pad: string, items: seq<string>)
    requires Selectors(items) && items != [] && AllWhitespace(pad) && ',' !in pad
    ensures NonEmptyUnquoted(Split(pad + Join(items, ", "), ',')) == items
    decreases |items|
  {
    var first, others := items[0], items[1..];
    assert first in items && items == [first] + others;
    if others == [] {
      JoinedOne(pad, first);
    } else {
      var rest := " " + Join(others, ", ");
      assert pad + Join(items, ", ") == pad + first + "," + rest;
      JoinedMore(pad, first, rest);
      JoinedRead(" ", others);
    }
  }

  lemma FlowListRead(items: seq<string>)
    requires Selectors(items)
    ensures FlowList("[" + Join(items, ", ") + "]") == Some(items)
  {
    var inner := Join(items, ", ");
    var val := "[" + inner + "]";
    TrimFixed(val);
    assert val[1..|val| - 1] == inner;
    assert val[1..] == inner + "]";
    assert (inner + "]")[|inner|..] == "]";
    if items == [] {
      SplitNone("", ',');
      assert Split("", ',') == [""];
      assert [""][1..] == [];
      assert Unquoted("") == "";
      assert NonEmptyUnquoted([""]) == NonEmptyUnquoted([]) == [];
    } else {
      JoinedRead("", items);
      assert "" + inner == inner;
    }
  }

  /** How a key line with a plain lower-case key is read. */
  lemma KeyLineRead(key: string, rest: string)
    requires key != "" && Trimmed(key) && ':' !in key && AsciiLower(key) == key && key[0] !in {'-', '.'}
    requires rest == "" || !IsWhitespace(rest[|rest| - 1])
    ensures var line := key + [':'] + rest;
      && TrimEnd(line) == line && Trim(line) == line && IsKeyLine(line) && !IsFence(line) && !IsItem(line)
      && KeyOf(line) == key && ValueOf(line) == Unquoted(rest)
  {
    var line := key + [':'] + rest;
    TrimEndKeeps(line);
    IndexOfConcat(key, ':', rest);
    assert line[..|key|] == key && line[|key| + 1..] == rest;
    TrimFixed(key);
    assert line[|key|] == ':' && line[|key|] in line;
    TrimFixed(line);
    assert line[0] == key[0];
  }

  lemma GovernsKey(rest: string)
    requires rest == "" || !IsWhitespace(rest[|rest| - 1])
    ensures var line := "governs:" + rest;
      && TrimEnd(line) == line && IsKeyLine(line) && !IsFence(line) && !IsItem(line)
      && KeyOf(line) == "governs" && ValueOf(line) == Unquoted(rest)
  {
    GovernsIsKey();
    KeyLineRead("governs", rest);
    assert "governs" + [':'] == "governs:";
  }

  lemma GovernsIsKey()
    ensures Trimmed("governs") && ':' !in "governs" && AsciiLower("governs") == "governs"
  {
  }

  lemma GovernsAdds(f: Fields, line: string)
    requires KeyOf(line) == "governs"
    ensures AddKey(f, line).status == f.status && AddKey(f, line).ban == f.ban
    ensures AddKey(f, line).keys == f.keys + ["governs"]
    ensures AddKey(f, line).governs == FlowList(ValueOf(line)).GetOr(f.governs)
  {
  }

  lemma FlowLineShape(items: seq<string>)
    requires Selectors(items)
    ensures var line := FlowLine(items);
      && IsKeyLine(line) && !IsFence(line) && !IsItem(line)
      && KeyOf(line) == "governs" && ValueOf(line) == "[" + Join(items, ", ") + "]"
  {
    var val := "[" + Join(items, ", ") + "]";
    var rest := " " + val;
    assert FlowLine(items) == "governs:" + rest;
    GovernsKey(rest);
    Bare(val, " ");
  }

  lemma FlowLineRead(items: seq<string>, f: Fields)
    requires Selectors(items)
    ensures var line := FlowLine(items);
      && IsKeyLine(line) && !IsFence(line) && !OpensBlock(line) && !IsItem(line)
      && AddKey(f, line) == f.(keys := f.keys + ["governs"], governs := items)
  {
    FlowLineShape(items);
    FlowListRead(items);
    GovernsAdds(f, FlowLine(items));
  }

  // ---- The block form -----------------------------------------------------------

  lemma BlockKeyRead(f: Fields)
    ensures IsKeyLine(BLOCK_KEY) && !IsFence(BLOCK_KEY) && OpensBlock(BLOCK_KEY) && !IsItem(BLOCK_KEY)
    ensures AddKey(f, BLOCK_KEY) == f.(keys := f.keys + ["governs"])
  {
    assert BLOCK_KEY == "governs:" + "";
    GovernsKey("");
    assert Unquoted("") == "";
  }

  lemma BlockLineRead(item: string)
    requires Selector(item)
    ensures IsItem(BlockLine(item)) && ItemOf(BlockLine(item)) == item
  {
    ItemTrimmed(item);
    assert ("- " + item)[2..] == item;
    Bare(item, "");
    assert "" + item == item;
  }

  lemma ItemTrimmed(item: string)
    requires Selector(item)
    ensures Trim(BlockLine(item)) == "- " + item
  {
    var core := "- " + item;
    assert core[0] == '-' && core[|core| - 1] == item[|item| - 1];
    TrimCore("  ", core, "");
    assert BlockLine(item) == "  " + core + "";
  }

  lemma BlockLinesCons(item: string, rest: seq<string>, post: seq<string>)
    ensures BlockLines([item] + rest) + post == [BlockLine(item)] + (BlockLines(rest) + post)
  {
  }

  lemma ItemAndRest(item: string, rest: seq<string>)
    requires Selector(item)
    ensures BlockItems([BlockLine(item)] + rest) == [item] + BlockItems(rest)
    ensures BlockLength([BlockLine(item)] + rest) == 1 + BlockLength(rest)
  {
    BlockLineRead(item);
    assert ([BlockLine(item)] + rest)[1..] == rest;
  }

  lemma {:induction false} BlockRead(items: seq<string>, post: seq<string>)
    requires Selectors(items)
    ensures BlockItems(BlockLines(items) + post) == items + BlockItems(post)
    ensures BlockLength(BlockLines(items) + post) == |items| + BlockLength(post)
  {
    if items == [] {
      assert BlockLines(items) + post == post;
      assert [] + BlockItems(post) == BlockItems(post);
    } else {
      var first, rest := items[0], items[1..];
      assert first in items && items == [first] + rest;
      BlockRead(rest, post);
      BlockLinesCons(first, rest, post);
      ItemAndRest(first, BlockLines(rest) + post);
      Append([first], rest, BlockItems(post));
    }
  }

  lemma Append(a: seq<string>, b: seq<string>, c: seq<string>)
    ensures a + (b + c) == a + b + c
  {
  }

  lemma AfterItems(items: seq<string>, post: seq<string>, k: nat)
    requires k <= |post|
    ensures (BlockLines(items) + post)[|items| + k..] == post[k..]
  {
  }

  // ---- In a document ------------------------------------------------------------

  /** The fields after scanning lines that hold no fence and are followed by something else. */
  function Through(lines: seq<string>, f: Fields): Fields
    decreases |lines|
  {
    if lines == [] then f
    else if !IsKeyLine(lines[0]) then Through(lines[1..], f)
    else if OpensBlock(lines[0]) then
      var g := AddKey(f, lines[0]);
      Through(lines[1..][BlockLength(lines[1..])..], g.(governs := g.governs + BlockItems(lines[1..])))
    else Through(lines[1..], AddKey(f, lines[0]))
  }

  lemma {:induction false} BlockStops(a: seq<string>, b: seq<string>)
    requires b != [] && !IsItem(b[0])
    ensures BlockLength(a + b) == BlockLength(a) && BlockItems(a + b) == BlockItems(a)
  {
    if a == [] {
      assert a + b == b;
    } else {
      assert (a + b)[0] == a[0] && (a + b)[1..] == a[1..] + b;
      if IsItem(a[0]) {
        BlockStops(a[1..], b);
      }
    }
  }

  lemma {:induction false} ScanThrough(head: seq<string>, tail: seq<string>, f: Fields)
    requires forall l | l in head :: !IsFence(l)
    requires tail != [] && !IsItem(tail[0])
    ensures Scan(head + tail, f) == Scan(tail, Through(head, f))
    decreases |head|
  {
    if head == [] {
      assert head + tail == tail;
    } else {
      assert head[0] in head;
      assert (head + tail)[0] == head[0] && (head + tail)[1..] == head[1..] + tail;
      if !IsKeyLine(head[0]) {
        ScanThrough(head[1..], tail, f);
      } else if OpensBlock(head[0]) {
        var n, g := BlockLength(head[1..]), AddKey(f, head[0]);
        BlockStops(head[1..], tail);
        DropConcat(head[1..], tail, n);
        ScanThrough(head[1..][n..], tail, g.(governs := g.governs + BlockItems(head[1..])));
      } else {
        ScanThrough(head[1..], tail, AddKey(f, head[0]));
      }
    }
  }

  /** Fields with one more `governs` key. */
  function Governing(f: Fields, governs: seq<string>): Fields {
    f.(keys := f.keys + ["governs"], governs := governs)
  }

  lemma FlowScan(pre: seq<string>, items: seq<string>, post: seq<string>, f: Fields)
    requires Selectors(items) && forall l | l in pre :: !IsFence(l)
    ensures Scan(pre + ([FlowLine(items)] + post), f) == Scan(post, Governing(Through(pre, f), items))
  {
    var tail := [FlowLine(items)] + post;
    FlowLineRead(items, Through(pre, f));
    ScanThrough(pre, tail, f);
    assert tail[1..] == post;
  }

  /** Items that stand directly after the list are read into it. */
  lemma BlockScan(pre: seq<string>, items: seq<string>, post: seq<string>, f: Fields)
    requires Selectors(items) && forall l | l in pre :: !IsFence(l)
    ensures var g := Through(pre, f);
      Scan(pre + ([BLOCK_KEY] + (BlockLines(items) + post)), f)
      == Scan(post[BlockLength(post)..], Governing(g, g.governs + (items + BlockItems(post))))
  {
    BlockThrough(pre, BlockLines(items) + post, f);
    BodyRead(items, post);
  }

  lemma BodyRead(items: seq<string>, post: seq<string>)
    requires Selectors(items)
    ensures var body := BlockLines(items) + post;
      && BlockItems(body) == items + BlockItems(post)
      && body[BlockLength(body)..] == post[BlockLength(post)..]
  {
    BlockRead(items, post);
    AfterItems(items, post, BlockLength(post));
  }

  lemma BlockThrough(pre: seq<string>, body: seq<string>, f: Fields)
    requires forall l | l in pre :: !IsFence(l)
    ensures var g := Through(pre, f);
      Scan(pre + ([BLOCK_KEY] + body), f)
      == Scan(body[BlockLength(body)..], Governing(g, g.governs + BlockItems(body)))
  {
    BlockKeyRead(Through(pre, f));
    ScanThrough(pre, [BLOCK_KEY] + body, f);
    BlockOpens(body, Through(pre, f));
  }

  lemma BlockOpens(body: seq<string>, f: Fields)
    ensures Scan([BLOCK_KEY] + body, f)
      == Scan(body[BlockLength(body)..], Governing(f, f.governs + BlockItems(body)))
  {
    BlockKeyRead(f);
    assert ([BLOCK_KEY] + body)[1..] == body;
  }

  function FlowDocument(pre: seq<string>, items: seq<string>, post: seq<string>): string {
    Unlines(["---"] + (pre + ([FlowLine(items)] + post)))
  }

  function BlockDocument(pre: seq<string>, items: seq<string>, post: seq<string>): string {
    Unlines(["---"] + (pre + ([BLOCK_KEY] + (BlockLines(items) + post))))
  }

  lemma {:induction false} JoinClean(items: seq<string>)
    requires Selectors(items)
    ensures '\n' !in Join(items, ", ")
  {
    if items != [] {
      assert items[0] in items;
      JoinClean(items[1..]);
    }
  }

  lemma SelectorLinesClean(items: seq<string>)
    requires Selectors(items)
    ensures CleanLine(FlowLine(items)) && CleanLine(BLOCK_KEY) && CleanLines(BlockLines(items))
  {
    JoinClean(items);
    forall i | 0 <= i < |items| ensures CleanLine(BlockLine(items[i])) {
      assert items[i] in items;
      var line := BlockLine(items[i]);
      assert line[|line| - 1] == items[i][|items[i]| - 1];
    }
  }

  lemma {:induction false} ReadFenced(lines: seq<string>)
    requires CleanLines(lines)
    ensures var r := Scan(lines, NO_FIELDS);
      Read(Unlines(["---"] + lines)) == if r.Some? then Summary(r.value) else ABSENT
  {
    var all := ["---"] + lines;
    var doc := Unlines(all);
    assert CleanLine("---");
    LinesUnlines(all);
    assert doc == "---" + "\n" + Unlines(lines) by { assert all[1..] == lines; }
    assert doc[0] == '-';
    assert StartsWith(doc, "---");
    assert all[1..] == lines;
  }

  /** What the fields before the list must look like for the two forms to agree. */
  predicate NoListBefore(pre: seq<string>) {
    Through(pre, NO_FIELDS).governs == []
  }

  /** Flow form and block form of one selector list are read alike, the whole result included. */
  lemma {:induction false} FormsAgree(pre: seq<string>, items: seq<string>, post: seq<string>)
    requires Selectors(items) && CleanLines(pre) && CleanLines(post)
    requires forall l | l in pre :: !IsFence(l)
    requires post == [] || !IsItem(post[0])
    requires NoListBefore(pre)
    ensures Read(FlowDocument(pre, items, post)) == Read(BlockDocument(pre, items, post))
  {
    FormsAgreeExactly(pre, items, post);
  }

  /** Closed right after the list, the governing selectors are the list itself. */
  lemma {:induction false} FlowGives(pre: seq<string>, items: seq<string>, post: seq<string>)
    requires Selectors(items) && CleanLines(pre) && CleanLines(post)
    requires forall l | l in pre :: !IsFence(l)
    requires post != [] && IsFence(post[0])
    ensures Read(FlowDocument(pre, items, post)).present && Read(FlowDocument(pre, items, post)).governs == items
  {
    SelectorLinesClean(items);
    ReadFenced(pre + ([FlowLine(items)] + post));
    FlowScan(pre, items, post, NO_FIELDS);
  }

  // ---- What stands after the list --------------------------------------------------

  /** A key line that gives the governing selectors as a flow list. */
  predicate GivesList(line: string) {
    IsKeyLine(line) && KeyOf(line) == "governs" && FlowList(ValueOf(line)).Some?
  }

  predicate Closes(lines: seq<string>) {
    exists l | l in lines :: IsFence(l)
  }

  /** A flow list stands among the lines, before any fence. */
  predicate ListFollows(lines: seq<string>) {
    lines != [] && !IsFence(lines[0]) && (GivesList(lines[0]) || ListFollows(lines[1..]))
  }

  lemma ItemIsNoKey(line: string)
    requires IsItem(line)
    ensures !IsKeyLine(line) && !IsFence(line)
  {
    if IsFence(line) {
      FenceIsNoItem(line);
    }
    TrimEndPrefix(line);
  }

  lemma {:induction false} ItemsPass(lines: seq<string>)
    ensures var rest := lines[BlockLength(lines)..];
      (Closes(lines) <==> Closes(rest)) && (ListFollows(lines) <==> ListFollows(rest))
  {
    if lines != [] && IsItem(lines[0]) {
      ItemIsNoKey(lines[0]);
      ItemsPass(lines[1..]);
      assert lines == [lines[0]] + lines[1..];
      assert lines[1..][BlockLength(lines[1..])..] == lines[BlockLength(lines)..];
    }
  }

  /** What scanned lines give when selectors were read before them. */
  function Led(replaced: bool, before: seq<string>, bare: Option<Fields>): Option<Fields> {
    if bare.None? || replaced then bare else Some(bare.value.(governs := before + bare.value.governs))
  }

  /** Selectors read before some lines come first in what the lines give, unless a flow list replaces them. */
  ghost predicate Carries(lines: seq<string>, f: Fields, before: seq<string>) {
    var bare := Scan(lines, f.(governs := []));
    && (bare.Some? <==> Closes(lines))
    && Scan(lines, f.(governs := before)) == Led(ListFollows(lines), before, bare)
  }

  lemma LedTwice(replaced: bool, a: seq<string>, b: seq<string>, bare: Option<Fields>)
    ensures Led(replaced, a + b, bare) == Led(replaced, a, Led(replaced, b, bare))
  {
    if bare.Some? {
      assert a + b + bare.value.governs == a + (b + bare.value.governs);
    }
  }

  lemma KeyKeepsGoverns(f: Fields, line: string, before: seq<string>)
    ensures var g := AddKey(f.(governs := []), line);
      AddKey(f.(governs := before), line)
      == if KeyOf(line) == "governs" && FlowList(ValueOf(line)).Some? then g else g.(governs := before)
    ensures KeyOf(line) != "governs" || FlowList(ValueOf(line)).None? ==> AddKey(f.(governs := []), line).governs == []
  {
  }

  lemma BlockStep(lines: seq<string>, f: Fields, before: seq<string>)
    requires lines != [] && !IsFence(lines[0]) && OpensBlock(lines[0])
    ensures var tail := lines[1..];
      Scan(lines, f.(governs := before))
      == Scan(tail[BlockLength(tail)..], AddKey(f.(governs := []), lines[0]).(governs := before + BlockItems(tail)))
  {
    KeyKeepsGoverns(f, lines[0], before);
  }

  lemma BlockPasses(lines: seq<string>)
    requires lines != [] && !IsFence(lines[0]) && OpensBlock(lines[0])
    ensures var rest := lines[1..][BlockLength(lines[1..])..];
      (Closes(lines) <==> Closes(rest)) && (ListFollows(lines) <==> ListFollows(rest))
  {
    ItemsPass(lines[1..]);
    assert lines == [lines[0]] + lines[1..];
  }

  lemma BlockCarries(lines: seq<string>, f: Fields, before: seq<string>)
    requires lines != [] && !IsFence(lines[0]) && OpensBlock(lines[0])
    requires var g, rest := AddKey(f.(governs := []), lines[0]), lines[1..][BlockLength(lines[1..])..];
      && Carries(rest, g, BlockItems(lines[1..])) && Carries(rest, g, before + BlockItems(lines[1..]))
    ensures Carries(lines, f, before)
  {
    var items, tail := BlockItems(lines[1..]), lines[1..];
    var g, rest := AddKey(f.(governs := []), lines[0]), tail[BlockLength(tail)..];
    BlockStep(lines, f, before);
    BlockStep(lines, f, []);
    BlockPasses(lines);
    assert [] + items == items;
    LedTwice(ListFollows(rest), before, items, Scan(rest, g.(governs := [])));
  }

  lemma {:induction false} ScanCarries(lines: seq<string>, f: Fields, before: seq<string>)
    ensures Carries(lines, f, before)
    decreases |lines|
  {
    if lines == [] {
    } else if IsFence(lines[0]) {
      assert lines[0] in lines;
      assert before + [] == before;
    } else {
      var tail := lines[1..];
      assert lines == [lines[0]] + tail;
      var g := AddKey(f.(governs := []), lines[0]);
      KeyKeepsGoverns(f, lines[0], before);
      if !IsKeyLine(lines[0]) {
        ScanCarries(tail, f, before);
      } else if OpensBlock(lines[0]) {
        ScanCarries(tail[BlockLength(tail)..], g, BlockItems(tail));
        ScanCarries(tail[BlockLength(tail)..], g, before + BlockItems(tail));
        BlockCarries(lines, f, before);
      } else if GivesList(lines[0]) {
        ScanCarries(tail, g, g.governs);
      } else {
        ScanCarries(tail, g, before);
      }
    }
  }

  /** Items that belong to no block list are passed over. */
  lemma {:induction false} ItemsSkipped(lines: seq<string>, f: Fields)
    ensures Scan(lines, f) == Scan(lines[BlockLength(lines)..], f)
  {
    if lines != [] && IsItem(lines[0]) {
      ItemIsNoKey(lines[0]);
      ItemsSkipped(lines[1..], f);
      assert lines[1..][BlockLength(lines[1..])..] == lines[BlockLength(lines)..];
    }
  }

  /**
   The flow form replaces what an earlier list gave, the block form adds to it and
   takes in the items that follow. So the forms agree exactly when there is no earlier
   list and no item follows, when a flow list follows before the closing fence, or
   when no fence closes and neither is read at all.
   */
  lemma {:induction false} FormsAgreeExactly(pre: seq<string>, items: seq<string>, post: seq<string>)
    requires Selectors(items) && CleanLines(pre) && CleanLines(post)
    requires forall l | l in pre :: !IsFence(l)
    ensures Read(FlowDocument(pre, items, post)) == Read(BlockDocument(pre, items, post))
      <==> (NoListBefore(pre) && BlockItems(post) == []) || ListFollows(post) || !Closes(post)
  {
    var g, rest := Governing(Through(pre, NO_FIELDS), []), post[BlockLength(post)..];
    var before, extra := Through(pre, NO_FIELDS).governs, BlockItems(post);
    ReadForms(pre, items, post);
    ItemsPass(post);
    ScanCarries(rest, g, items);
    ScanCarries(rest, g, before + (items + extra));
    LedApart(ListFollows(rest), before, items, extra, Scan(rest, g));
  }

  function Shown(r: Option<Fields>): FrontMatter {
    if r.Some? then Summary(r.value) else ABSENT
  }

  lemma {:induction false} ReadForms(pre: seq<string>, items: seq<string>, post: seq<string>)
    requires Selectors(items) && CleanLines(pre) && CleanLines(post)
    requires forall l | l in pre :: !IsFence(l)
    ensures var g, rest := Governing(Through(pre, NO_FIELDS), []), post[BlockLength(post)..];
      && Read(FlowDocument(pre, items, post)) == Shown(Scan(rest, g.(governs := items)))
      && Read(BlockDocument(pre, items, post))
         == Shown(Scan(rest, g.(governs := Through(pre, NO_FIELDS).governs + (items + BlockItems(post)))))
  {
    SelectorLinesClean(items);
    ReadFenced(pre + ([FlowLine(items)] + post));
    ReadFenced(pre + ([BLOCK_KEY] + (BlockLines(items) + post)));
    FlowScan(pre, items, post, NO_FIELDS);
    ItemsSkipped(post, Governing(Through(pre, NO_FIELDS), items));
    BlockScan(pre, items, post, NO_FIELDS);
  }

  lemma LedApart(replaced: bool, before: seq<string>, items: seq<string>, extra: seq<string>, bare: Option<Fields>)
    ensures Shown(Led(replaced, items, bare)) == Shown(Led(replaced, before + (items + extra), bare))
      <==> (before == [] && extra == []) || replaced || bare.None?
  {
    if before == [] && extra == [] {
      assert before + (items + extra) == items;
    }
    if bare.Some? && !replaced {
      var rest := bare.value.governs;
      assert |before + (items + extra) + rest| == |before| + |extra| + |items + rest|;
    }
  }

  /** Closed right after the list, the block form gives the earlier selectors and then the list. */
  lemma {:induction false} BlockGives(pre: seq<string>, items: seq<string>, post: seq<string>)
    requires Selectors(items) && CleanLines(pre) && CleanLines(post)
    requires forall l | l in pre :: !IsFence(l)
    requires post != [] && IsFence(post[0])
    ensures Read(BlockDocument(pre, items, post)).governs == Through(pre, NO_FIELDS).governs + items
  {
    FenceIsNoItem(post[0]);
    SelectorLinesClean(items);
    ReadFenced(pre + ([BLOCK_KEY] + (BlockLines(items) + post)));
    BlockScan(pre, items, post, NO_FIELDS);
    assert items + [] == items && post[0..] == post;
  }

  lemma FenceIsNoItem(line: string)
    requires IsFence(line)
    ensures !IsItem(line)
  {
    TrimBoth(line);
    assert "---"[1] != "- "[1] && "..."[0] != '-';
  }
}
