/**
 Text as the Rust standard library treats it: a string is a sequence of Unicode
 scalar values, ordered lexicographically (which is the order of its UTF-8
 bytes), split into lines and trimmed as `str::lines` and `str::trim` do.
 */
module Text {
  import opened Wrappers

  // ---- Order ------------------------------------------------------------

  predicate LexLeq(a: string, b: string) {
    a == "" || (b != "" && (a[0] < b[0] || (a[0] == b[0] && LexLeq(a[1..], b[1..]))))
  }

  predicate LexLess(a: string, b: string) {
    !LexLeq(b, a)
  }

  lemma {:induction false} LexTotal(a: string, b: string)
    ensures LexLeq(a, b) || LexLeq(b, a)
  {
    if a != "" && b != "" {
      LexTotal(a[1..], b[1..]);
    }
  }

  lemma {:induction false} LexAntisymmetric(a: string, b: string)
    requires LexLeq(a, b) && LexLeq(b, a)
    ensures a == b
  {
    if a != "" && b != "" {
      LexAntisymmetric(a[1..], b[1..]);
      assert a == [a[0]] + a[1..] && b == [b[0]] + b[1..];
    }
  }

  lemma {:induction false} LexTransitive(a: string, b: string, c: string)
    requires LexLeq(a, b) && LexLeq(b, c)
    ensures LexLeq(a, c)
  {
    if a != "" && a[0] == b[0] == c[0] {
      LexTransitive(a[1..], b[1..], c[1..]);
    }
  }

  // ---- Characters and trimming --------------------------------------------

  /** `char::is_whitespace`: the Unicode White_Space property. */
  predicate IsWhitespace(c: char) {
    var n := c as int;
    || 0x09 <= n <= 0x0D || n == 0x20 || n == 0x85 || n == 0xA0 || n == 0x1680
    || 0x2000 <= n <= 0x200A || n == 0x2028 || n == 0x2029 || n == 0x202F
    || n == 0x205F || n == 0x3000
  }

  predicate IsDigit(c: char) { '0' <= c <= '9' }

  predicate IsAsciiAlphanumeric(c: char) {
    IsDigit(c) || 'a' <= c <= 'z' || 'A' <= c <= 'Z'
  }

  function TrimStart(s: string): string {
    if s != "" && IsWhitespace(s[0]) then TrimStart(s[1..]) else s
  }

  function TrimEnd(s: string): string {
    if s != "" && IsWhitespace(s[|s| - 1]) then TrimEnd(s[..|s| - 1]) else s
  }

  function Trim(s: string): string {
    TrimEnd(TrimStart(s))
  }

  /** No white space at either end. */
  predicate Trimmed(s: string) {
    s != "" ==> !IsWhitespace(s[0]) && !IsWhitespace(s[|s| - 1])
  }

  predicate AllWhitespace(s: string) {
    forall c | c in s :: IsWhitespace(c)
  }

  lemma {:induction false} TrimEndPadding(s: string, pad: string)
    requires AllWhitespace(pad)
    ensures TrimEnd(s + pad) == TrimEnd(s)
  {
    if pad == "" {
      assert s + pad == s;
    } else {
      var n := |pad| - 1;
      assert (s + pad)[..|s + pad| - 1] == s + pad[..n];
      assert (s + pad)[|s + pad| - 1] == pad[n];
      TrimEndPadding(s, pad[..n]);
    }
  }

  lemma {:induction false} TrimStartPadding(pad: string, s: string)
    requires AllWhitespace(pad)
    ensures TrimStart(pad + s) == TrimStart(s)
  {
    if pad == "" {
      assert pad + s == s;
    } else {
      assert (pad + s)[1..] == pad[1..] + s;
      TrimStartPadding(pad[1..], s);
    }
  }

  /** Trimming removes white space around a trimmed core, and nothing else. */
  lemma TrimCore(before: string, core: string, after: string)
    requires AllWhitespace(before) && AllWhitespace(after) && Trimmed(core)
    ensures Trim(before + core + after) == core
  {
    assert before + core + after == before + (core + after);
    TrimStartPadding(before, core + after);
    if core == "" {
      assert core + after == after;
      assert after == after + "";
      TrimStartPadding(after, "");
      assert TrimStart(after) == "";
    } else {
      assert (core + after)[0] == core[0];
      TrimEndPadding(core, after);
    }
  }

  lemma TrimFixed(s: string)
    requires Trimmed(s)
    ensures Trim(s) == s
  {
  }

  lemma {:induction false} TrimStartSuffix(s: string)
    ensures TrimStart(s) == "" || !IsWhitespace(TrimStart(s)[0])
    ensures |TrimStart(s)| <= |s| && s[|s| - |TrimStart(s)|..] == TrimStart(s)
  {
    if s != "" && IsWhitespace(s[0]) {
      TrimStartSuffix(s[1..]);
    }
  }

  lemma {:induction false} TrimEndPrefix(s: string)
    ensures TrimEnd(s) <= s
    ensures TrimEnd(s) == "" || !IsWhitespace(TrimEnd(s)[|TrimEnd(s)| - 1])
  {
    if s != "" && IsWhitespace(s[|s| - 1]) {
      TrimEndPrefix(s[..|s| - 1]);
    }
  }

  lemma {:induction false} TrimEndSplits(s: string)
    ensures TrimEnd(s) <= s && AllWhitespace(s[|TrimEnd(s)|..])
  {
    TrimEndPrefix(s);
    if s != "" && IsWhitespace(s[|s| - 1]) {
      var t := s[..|s| - 1];
      TrimEndSplits(t);
      TrimEndPrefix(t);
      assert s[|TrimEnd(t)|..] == t[|TrimEnd(t)|..] + [s[|s| - 1]];
    }
  }

  lemma {:induction false} TrimStartAppend(s: string, pad: string)
    ensures TrimStart(s + pad) == if TrimStart(s) == "" then TrimStart(pad) else TrimStart(s) + pad
  {
    if s == "" {
      assert s + pad == pad;
    } else {
      assert (s + pad)[1..] == s[1..] + pad;
      if IsWhitespace(s[0]) {
        TrimStartAppend(s[1..], pad);
      }
    }
  }

  /** Trimming the end first makes no difference to a full trim. */
  lemma TrimBoth(line: string)
    ensures Trim(TrimEnd(line)) == Trim(line)
  {
    TrimEndSplits(line);
    var core, pad := TrimEnd(line), line[|TrimEnd(line)|..];
    assert line == core + pad;
    TrimStartAppend(core, pad);
    TrimStartPadding(pad, "");
    assert pad + "" == pad;
    TrimEndPadding(TrimStart(core), pad);
  }

  lemma TrimPadding(before: string, s: string, after: string)
    requires AllWhitespace(before) && AllWhitespace(after)
    ensures Trim(before + s + after) == Trim(s)
  {
    assert before + s + after == before + (s + after);
    TrimStartPadding(before, s + after);
    TrimStartAppend(s, after);
    TrimStartPadding(after, "");
    assert after + "" == after;
    TrimEndPadding(TrimStart(s), after);
  }

  function TrimLeftChar(s: string, c: char): string {
    if s != "" && s[0] == c then TrimLeftChar(s[1..], c) else s
  }

  function TrimRightChar(s: string, c: char): string {
    if s != "" && s[|s| - 1] == c then TrimRightChar(s[..|s| - 1], c) else s
  }

  /** `trim_matches(c)`. */
  function TrimChar(s: string, c: char): string {
    TrimRightChar(TrimLeftChar(s, c), c)
  }

  function AsciiLowerChar(c: char): char {
    if 'A' <= c <= 'Z' then (c as int + 32) as char else c
  }

  function AsciiLower(s: string): string {
    seq(|s|, i requires 0 <= i < |s| => AsciiLowerChar(s[i]))
  }

  // ---- Searching ------------------------------------------------------------

  predicate StartsWith(s: string, prefix: string) {
    prefix <= s
  }

  predicate EndsWith(s: string, suffix: string) {
    |suffix| <= |s| && s[|s| - |suffix|..] == suffix
  }

  predicate OccursAt(s: string, needle: string, i: nat)
    requires i + |needle| <= |s|
  {
    s[i..i + |needle|] == needle
  }

  predicate Contains(s: string, needle: string) {
    exists i | 0 <= i <= |s| - |needle| :: OccursAt(s, needle, i)
  }

  /** `str::find` from a start position. */
  function Find(s: string, needle: string, start: nat): (r: Option<nat>)
    requires start <= |s|
    ensures r.Some? ==> start <= r.value <= |s| - |needle| && OccursAt(s, needle, r.value)
    ensures r.Some? ==> forall k | start <= k < r.value :: !OccursAt(s, needle, k)
    ensures r.None? ==> forall k | start <= k <= |s| - |needle| :: !OccursAt(s, needle, k)
    decreases |s| - start
  {
    if start + |needle| > |s| then None
    else if OccursAt(s, needle, start) then Some(start)
    else Find(s, needle, start + 1)
  }

  /** The first index of `c`, or the length when absent. */
  function IndexOf(s: string, c: char): (i: nat)
    ensures i <= |s|
    ensures i < |s| ==> s[i] == c
    ensures c !in s[..i]
  {
    if s == "" || s[0] == c then 0
    else
      var rest := IndexOf(s[1..], c);
      assert s[..1 + rest] == [s[0]] + s[1..][..rest];
      1 + rest
  }

  lemma {:induction false} IndexOfConcat(a: string, c: char, b: string)
    requires c !in a
    ensures IndexOf(a + [c] + b, c) == |a|
  {
    if a == "" {
      assert a + [c] + b == [c] + b;
    } else {
      assert (a + [c] + b)[1..] == a[1..] + [c] + b;
      assert a[0] in a;
      IndexOfConcat(a[1..], c, b);
    }
  }

  lemma {:induction false} IndexOfAbsent(s: string, c: char)
    requires c !in s
    ensures IndexOf(s, c) == |s|
  {
    if s != "" {
      assert s[0] in s;
      IndexOfAbsent(s[1..], c);
    }
  }

  // ---- Splitting at a character ------------------------------------------------------------

  function Split(s: string, c: char): seq<string>
    decreases |s|
  {
    var i := IndexOf(s, c);
    if i == |s| then [s] else [s[..i]] + Split(s[i + 1..], c)
  }

  lemma SplitOnce(a: string, b: string, c: char)
    requires c !in a
    ensures Split(a + [c] + b, c) == [a] + Split(b, c)
  {
    var s := a + [c] + b;
    IndexOfConcat(a, c, b);
    assert s[..|a|] == a && s[|a| + 1..] == b;
  }

  lemma SplitNone(a: string, c: char)
    requires c !in a
    ensures Split(a, c) == [a]
  {
    IndexOfAbsent(a, c);
  }

  // ---- Lines ------------------------------------------------------------

  function StripCr(s: string): string {
    if s != "" && s[|s| - 1] == '\r' then s[..|s| - 1] else s
  }

  /** `str::lines`: split at '\n', drop a carriage return before it, no empty last line. */
  function Lines(s: string): seq<string>
    decreases |s|
  {
    if s == "" then []
    else
      var i := IndexOf(s, '\n');
      if i == |s| then [s] else [StripCr(s[..i])] + Lines(s[i + 1..])
  }

  /** Every line followed by a line feed. */
  function Unlines(ls: seq<string>): string {
    if ls == [] then "" else ls[0] + "\n" + Unlines(ls[1..])
  }

  /** A line that `Lines` gives back unchanged. */
  predicate CleanLine(s: string) {
    '\n' !in s && (s != "" ==> s[|s| - 1] != '\r')
  }

  predicate CleanLines(ls: seq<string>) {
    forall l | l in ls :: CleanLine(l)
  }

  lemma LinesStep(a: string, rest: string)
    requires '\n' !in a
    ensures Lines(a + "\n" + rest) == [StripCr(a)] + Lines(rest)
  {
    var s := a + "\n" + rest;
    IndexOfConcat(a, '\n', rest);
    assert IndexOf(s, '\n') == |a|;
    assert s[..|a|] == a;
    assert s[|a| + 1..] == rest;
  }

  /** Splitting undoes joining. */
  lemma {:induction false} LinesUnlines(ls: seq<string>)
    requires CleanLines(ls)
    ensures Lines(Unlines(ls)) == ls
  {
    if ls == [] {
    } else {
      assert CleanLine(ls[0]);
      LinesStep(ls[0], Unlines(ls[1..]));
      LinesUnlines(ls[1..]);
      assert ls == [ls[0]] + ls[1..];
    }
  }

  /** `LinesStep` for a text given whole. */
  lemma LinesCut(s: string, i: nat)
    requires i < |s| && s[i] == '\n' && '\n' !in s[..i]
    ensures Lines(s) == [StripCr(s[..i])] + Lines(s[i + 1..])
  {
    LinesStep(s[..i], s[i + 1..]);
    assert s == s[..i] + "\n" + s[i + 1..];
  }

  /** The first line of a text that has a line feed, and what follows it. */
  lemma {:induction false} LinesFirst(a: string, b: string)
    ensures var i := IndexOf(a, '\n');
      Lines(a + "\n" + b) == [StripCr(a[..i])] + Lines(if i == |a| then b else a[i + 1..] + "\n" + b)
  {
    var i := IndexOf(a, '\n');
    var s := a + "\n" + b;
    assert s[..i] == a[..i];
    LinesCut(s, i);
    if i == |a| {
      assert s[i + 1..] == b;
    } else {
      assert s[i + 1..] == a[i + 1..] + "\n" + b;
    }
  }

  /** Text after a line feed only adds lines. */
  lemma {:induction false} LinesConcat(a: string, b: string)
    ensures Lines(a + "\n" + b) == Lines(a + "\n" + "") + Lines(b)
    decreases |a|
  {
    var i := IndexOf(a, '\n');
    var first := [StripCr(a[..i])];
    LinesFirst(a, b);
    LinesFirst(a, "");
    if i == |a| {
      assert Lines("") == [];
      assert first + [] == first;
    } else {
      var rest := a[i + 1..];
      LinesConcat(rest, b);
      var x, y := Lines(rest + "\n" + ""), Lines(b);
      assert first + (x + y) == first + x + y;
    }
  }

  // ---- Joining ------------------------------------------------------------

  function Join(parts: seq<string>, sep: string): string {
    if parts == [] then ""
    else if |parts| == 1 then parts[0]
    else parts[0] + sep + Join(parts[1..], sep)
  }

  lemma {:induction false} JoinSnoc(parts: seq<string>, last: string, sep: string)
    ensures Join(parts + [last], sep) == if parts == [] then last else Join(parts, sep) + sep + last
  {
    if |parts| <= 1 {
      if |parts| == 1 {
        assert (parts + [last])[1..] == [last];
      }
    } else {
      assert (parts + [last])[1..] == parts[1..] + [last];
      JoinSnoc(parts[1..], last, sep);
      assert parts[0] + sep + (Join(parts[1..], sep) + sep + last)
          == parts[0] + sep + Join(parts[1..], sep) + sep + last;
    }
  }

  /** The parts from the first non-empty one on. */
  function DropLeadingEmpty(parts: seq<string>): seq<string> {
    if parts != [] && parts[0] == "" then DropLeadingEmpty(parts[1..]) else parts
  }

  /**
   The accumulator every adapter builds turn text with: a line feed goes in
   front of a part only when the text so far is not empty.
   */
  function PushLine(acc: string, part: string): string {
    if acc == "" then part else acc + "\n" + part
  }

  /** What pushing the parts one by one leaves. */
  function Pushed(parts: seq<string>): string {
    if parts == [] then "" else PushLine(Pushed(parts[..|parts| - 1]), parts[|parts| - 1])
  }

  lemma PushedSnoc(parts: seq<string>, last: string)
    ensures Pushed(parts + [last]) == PushLine(Pushed(parts), last)
  {
    assert (parts + [last])[..|parts|] == parts;
  }

  lemma {:induction false} DropLeadingEmptySnoc(parts: seq<string>, last: string)
    ensures DropLeadingEmpty(parts + [last]) ==
      if DropLeadingEmpty(parts) == [] && last == "" then [] else DropLeadingEmpty(parts) + [last]
  {
    if parts == [] {
      assert parts + [last] == [last];
    } else {
      assert (parts + [last])[1..] == parts[1..] + [last];
      if parts[0] == "" {
        DropLeadingEmptySnoc(parts[1..], last);
      }
    }
  }

  lemma {:induction false} DropLeadingEmptyHead(parts: seq<string>)
    ensures DropLeadingEmpty(parts) != [] ==> DropLeadingEmpty(parts)[0] != ""
  {
    if parts != [] && parts[0] == "" {
      DropLeadingEmptyHead(parts[1..]);
    }
  }

  lemma JoinNonEmpty(parts: seq<string>, sep: string)
    requires parts != [] && parts[0] != ""
    ensures Join(parts, sep) != ""
  {
    if |parts| > 1 {
      assert Join(parts, sep)[0] == parts[0][0];
    }
  }

  /** The accumulated text is the parts joined by line feeds, leading empty parts dropped. */
  lemma {:induction false} PushedIsJoin(parts: seq<string>)
    ensures Pushed(parts) == Join(DropLeadingEmpty(parts), "\n")
  {
    if parts == [] {
    } else {
      var init, last := parts[..|parts| - 1], parts[|parts| - 1];
      assert parts == init + [last];
      PushedIsJoin(init);
      DropLeadingEmptySnoc(init, last);
      DropLeadingEmptyHead(init);
      var kept := DropLeadingEmpty(init);
      JoinSnoc(kept, last, "\n");
      if kept != [] {
        JoinNonEmpty(kept, "\n");
      } else {
        assert kept + [last] == [last];
      }
    }
  }

  // ---- Decimal numbers ------------------------------------------------------

  function DigitChar(d: nat): char
    requires d < 10
  {
    ('0' as int + d) as char
  }

  function DigitValue(c: char): nat
    requires IsDigit(c)
  {
    c as int - '0' as int
  }

  /** `u64::to_string`. */
  function Decimal(n: nat): (s: string)
    ensures s != "" && forall c | c in s :: IsDigit(c)
  {
    if n < 10 then [DigitChar(n)] else Decimal(n / 10) + [DigitChar(n % 10)]
  }

  /** The number a digit run denotes. */
  function DecimalValue(s: string): nat
    requires forall c | c in s :: IsDigit(c)
  {
    if s == "" then 0
    else 10 * DecimalValue(s[..|s| - 1]) + DigitValue(s[|s| - 1])
  }

  /** Reading undoes printing, so printing is injective. */
  lemma {:induction false} DecimalRoundTrip(n: nat)
    ensures DecimalValue(Decimal(n)) == n
  {
    if n < 10 {
      var s := Decimal(n);
      assert s[..0] == "";
      assert DecimalValue(s[..0]) == 0;
      assert DigitValue(s[0]) == n;
    } else {
      DecimalRoundTrip(n / 10);
      var s := Decimal(n);
      assert s[..|s| - 1] == Decimal(n / 10);
      assert DigitValue(s[|s| - 1]) == n % 10;
    }
  }

  lemma DecimalInjective(m: nat, n: nat)
    requires Decimal(m) == Decimal(n)
    ensures m == n
  {
    DecimalRoundTrip(m);
    DecimalRoundTrip(n);
  }

  lemma LastSeparator(a: string, b: string, sep: char)
    requires sep !in b
    ensures var s := a + [sep] + b; s[|a|] == sep && forall k | |a| < k < |s| :: s[k] != sep
  {
    var s := a + [sep] + b;
    forall k | |a| < k < |s| ensures s[k] != sep {
      assert s[k] == b[k - |a| - 1];
    }
  }

  /** Where a separator does not occur in the tail, the parts around it are determined. */
  lemma SplitLastUnique(a: string, b: string, c: string, d: string, sep: char)
    requires a + [sep] + b == c + [sep] + d
    requires sep !in b && sep !in d
    ensures a == c && b == d
  {
    var s := a + [sep] + b;
    LastSeparator(a, b, sep);
    LastSeparator(c, d, sep);
    assert |a| == |c|;
    assert a == s[..|a|] && c == s[..|c|];
    assert b == s[|a| + 1..] && d == s[|c| + 1..];
  }

  lemma PrefixCancel(p: string, x: string, y: string)
    requires p + x == p + y
    ensures x == y
  {
    assert (p + x)[|p|..] == x && (p + y)[|p|..] == y;
  }
}
