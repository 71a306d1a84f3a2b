/** The index-driven scans over a governance document. */
module DocScan {
  import opened Wrappers
  import opened Text

  // ---- Whole words ------------------------------------------------------------

  /** A position where the word stands with no letter or digit on either side. */
  predicate WholeWordAt(s: string, word: string, i: nat)
    requires i + |word| <= |s|
  {
    && OccursAt(s, word, i)
    && (i == 0 || !IsAsciiAlphanumeric(s[i - 1]))
    && (i + |word| == |s| || !IsAsciiAlphanumeric(s[i + |word|]))
  }

  predicate HasWholeWord(s: string, word: string) {
    word != "" && exists i | 0 <= i <= |s| - |word| :: WholeWordAt(s, word, i)
  }

  /** `is_whole_word_match`: restart the search one past each failed hit. */
  method IsWholeWordMatch(haystack: string, word: string) returns (found: bool)
    ensures found <==> HasWholeWord(haystack, word)
  {
    if |word| == 0 { return false; }
    var start := 0;
    while true
      invariant start <= |haystack|
      invariant forall i | 0 <= i <= |haystack| - |word| && i < start :: !WholeWordAt(haystack, word, i)
      decreases |haystack| - start
    {
      var hit := Find(haystack, word, start);
      if hit.None? { return false; }
      var idx := hit.value;
      var beforeOk := idx == 0 || !IsAsciiAlphanumeric(haystack[idx - 1]);
      var afterIdx := idx + |word|;
      var afterOk := afterIdx >= |haystack| || !IsAsciiAlphanumeric(haystack[afterIdx]);
      if beforeOk && afterOk {
        assert WholeWordAt(haystack, word, idx);
        return true;
      }
      start := idx + 1;
      if start >= |haystack| { return false; }
    }
  }

  /** A hyphen ends a word, so the example the comment gives as harmless is a match. */
  lemma {:induction false} HyphenEndsAWord()
    ensures HasWholeWord("tbd-free", "tbd") && !HasWholeWord("tbdomain", "tbd")
  {
    assert "tbd-free"[0..3] == "tbd";
    assert WholeWordAt("tbd-free", "tbd", 0);
    forall i | 0 <= i <= 5 ensures !WholeWordAt("tbdomain", "tbd", i) {
      if i > 0 {
        assert "tbdomain"[i..i + 3][0] == "tbdomain"[i];
      }
    }
  }

  // ---- The status section ------------------------------------------------------------

  predicate IsStatusHeading(line: string) {
    AsciiLower(Trim(line)) in {"## status", "# status"}
  }

  predicate IsHeading(line: string) {
    StartsWith(TrimStart(line), "#")
  }

  /** The lines up to the next heading. */
  function SectionBody(lines: seq<string>): seq<string> {
    if lines == [] || IsHeading(lines[0]) then [] else [lines[0]] + SectionBody(lines[1..])
  }

  function LastNonBlank(lines: seq<string>): Option<string> {
    if lines == [] then None
    else if Trim(lines[|lines| - 1]) != "" then Some(Trim(lines[|lines| - 1]))
    else LastNonBlank(lines[..|lines| - 1])
  }

  function StatusOf(lines: seq<string>): Option<string> {
    if lines == [] then None
    else if IsStatusHeading(lines[0]) then LastNonBlank(SectionBody(lines[1..]))
    else StatusOf(lines[1..])
  }

  lemma {:induction false} SectionBodyIs(body: seq<string>, post: seq<string>)
    requires forall l | l in body :: !IsHeading(l)
    requires post == [] || IsHeading(post[0])
    ensures SectionBody(body + post) == body
  {
    if body == [] {
      assert body + post == post;
    } else {
      assert body[0] in body;
      assert (body + post)[0] == body[0] && (body + post)[1..] == body[1..] + post;
      SectionBodyIs(body[1..], post);
      assert body == [body[0]] + body[1..];
    }
  }

  /** The inner loop: the last non-empty line from `start` to the next heading. */
  method ReadSection(lines: seq<string>, start: nat) returns (last: Option<string>)
    requires start <= |lines|
    ensures last == LastNonBlank(SectionBody(lines[start..]))
  {
    last := None;
    var j := start;
    while j < |lines| && !IsHeading(lines[j])
      invariant start <= j <= |lines|
      invariant forall k | start <= k < j :: !IsHeading(lines[k])
      invariant last == LastNonBlank(lines[start..j])
      decreases |lines| - j
    {
      var t := Trim(lines[j]);
      assert lines[start..j + 1][..j - start] == lines[start..j];
      if t != "" {
        last := Some(t);
      }
      j := j + 1;
    }
    SectionBodyIs(lines[start..j], lines[j..]);
    assert lines[start..] == lines[start..j] + lines[j..];
  }

  /** `find_status_section` */
  method FindStatusSection(content: string) returns (r: Option<string>)
    ensures r == StatusOf(Lines(content))
  {
    var lines := Lines(content);
    var i := 0;
    while i < |lines|
      invariant i <= |lines|
      invariant StatusOf(lines) == StatusOf(lines[i..])
      decreases |lines| - i
    {
      assert lines[i..][1..] == lines[i + 1..];
      if IsStatusHeading(lines[i]) {
        r := ReadSection(lines, i + 1);
        return;
      }
      i := i + 1;
    }
    return None;
  }

  /** The status is the last non-empty line of the first status section. */
  lemma {:induction false} StatusIsSection(pre: seq<string>, heading: string, body: seq<string>, post: seq<string>)
    requires forall l | l in pre :: !IsStatusHeading(l)
    requires IsStatusHeading(heading)
    requires forall l | l in body :: !IsHeading(l)
    requires post == [] || IsHeading(post[0])
    ensures StatusOf(pre + ([heading] + (body + post))) == LastNonBlank(body)
  {
    var rest := [heading] + (body + post);
    if pre == [] {
      assert pre + rest == rest;
      assert rest[1..] == body + post;
      SectionBodyIs(body, post);
    } else {
      assert pre[0] in pre;
      assert (pre + rest)[0] == pre[0] && (pre + rest)[1..] == pre[1..] + rest;
      StatusIsSection(pre[1..], heading, body, post);
    }
  }

  /** What the last non-empty line is. */
  lemma {:induction false} LastNonBlankMeaning(lines: seq<string>, k: nat)
    requires k < |lines| && Trim(lines[k]) != ""
    requires forall m | k < m < |lines| :: Trim(lines[m]) == ""
    ensures LastNonBlank(lines) == Some(Trim(lines[k]))
  {
    if k < |lines| - 1 {
      LastNonBlankMeaning(lines[..|lines| - 1], k);
    }
  }

  lemma {:induction false} AllBlankMeaning(lines: seq<string>)
    ensures LastNonBlank(lines).None? <==> forall l | l in lines :: Trim(l) == ""
  {
    if lines != [] {
      var n := |lines| - 1;
      AllBlankMeaning(lines[..n]);
      assert lines == lines[..n] + [lines[n]];
      assert lines[n] in lines;
    }
  }

  /**
   Appending a non-blank line that is no heading to the first status section of a
   document makes that line the status, whatever the section held before.
   */
  lemma {:induction false} AppendedLineWins(
      pre: seq<string>, heading: string, body: seq<string>, line: string, post: seq<string>)
    requires CleanLines(pre) && CleanLine(heading) && CleanLines(body) && CleanLine(line) && CleanLines(post)
    requires forall l | l in pre :: !IsStatusHeading(l)
    requires IsStatusHeading(heading)
    requires forall l | l in body :: !IsHeading(l)
    requires Trim(line) != "" && !IsHeading(line)
    requires post == [] || IsHeading(post[0])
    ensures StatusOf(Lines(Unlines(pre + ([heading] + (body + [line] + post))))) == Some(Trim(line))
  {
    var longer := body + [line];
    LinesUnlines(pre + ([heading] + (longer + post)));
    StatusIsSection(pre, heading, longer, post);
    LastNonBlankMeaning(longer, |body|);
  }

  // ---- The body before the first second-level heading ------------------------------------

  predicate IsH2(line: string) {
    StartsWith(TrimStart(line), "## ") || TrimStart(line) == "##"
  }

  function AfterHeading(lines: seq<string>): seq<string> {
    if lines == [] then [] else if IsHeading(lines[0]) then lines[1..] else AfterHeading(lines[1..])
  }

  function BeforeH2(lines: seq<string>): seq<string> {
    if lines == [] || IsH2(lines[0]) then [] else [lines[0]] + BeforeH2(lines[1..])
  }

  /** `body_before_first_h2` */
  method BodyBeforeFirstH2(content: string) returns (body: string)
    ensures body == Join(BeforeH2(AfterHeading(Lines(content))), "\n")
  {
    var lines := Lines(content);
    var seenH1, out, i := false, [], 0;
    ghost var goal := BeforeH2(AfterHeading(lines));
    while i < |lines|
      invariant i <= |lines|
      invariant !seenH1 ==> out == [] && goal == BeforeH2(AfterHeading(lines[i..]))
      invariant seenH1 ==> goal == out + BeforeH2(lines[i..])
      decreases |lines| - i
    {
      var line := lines[i];
      assert lines[i..][1..] == lines[i + 1..];
      if !seenH1 {
        if IsHeading(line) {
          seenH1 := true;
        }
        assert out + BeforeH2(lines[i + 1..]) == BeforeH2(lines[i + 1..]);
      } else {
        if IsH2(line) { break; }
        out := out + [line];
        assert out == out[..|out| - 1] + [line];
      }
      i := i + 1;
    }
    assert seenH1 ==> goal == out;
    body := Join(out, "\n");
  }
}
