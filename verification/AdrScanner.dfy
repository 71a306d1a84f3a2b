/**
 The scanner for ADR references in commit messages. A text is kept as its UTF-8
 bytes, one character a byte, because the scanner works on byte indices: a slice
 off a character boundary panics.
 */
module AdrScanner {
  import opened Wrappers
  import opened Permutations
  import Sorting
  import Text

  const MAX_PLAUSIBLE_ADR_NUMBER: nat := 99_999
  const U64_MAX: nat := 0xFFFF_FFFF_FFFF_FFFF

  // ---- UTF-8 ------------------------------------------------------------

  predicate Continuation(c: char) {
    0x80 <= c as int < 0xC0
  }

  /** What valid UTF-8 gives this scanner: a continuation byte never follows an ASCII byte. */
  predicate WellFormed(s: string) {
    forall p | 0 <= p < |s| && Continuation(s[p]) :: p > 0 && s[p - 1] as int >= 0x80
  }

  predicate Boundary(s: string, p: nat) {
    p == 0 || p == |s| || (p < |s| && !Continuation(s[p]))
  }

  /** `&line[a..b]`, which panics off a character boundary. */
  function Slice(s: string, a: nat, b: nat): string
    requires a <= b <= |s| && Boundary(s, a) && Boundary(s, b)
  {
    s[a..b]
  }

  function ByteAt(s: string, p: nat): int {
    if p < |s| then s[p] as int else -1
  }

  /** The width in bytes of the white-space character at p, zero when there is none. */
  function SpaceWidth(s: string, p: nat): nat {
    var a, b, c := ByteAt(s, p), ByteAt(s, p + 1), ByteAt(s, p + 2);
    if 0x09 <= a <= 0x0D || a == 0x20 then 1
    else if a == 0xC2 && (b == 0x85 || b == 0xA0) then 2
    else if a == 0xE1 && b == 0x9A && c == 0x80 then 3
    else if a == 0xE2 && b == 0x80 && (0x80 <= c <= 0x8A || c == 0xA8 || c == 0xA9 || c == 0xAF) then 3
    else if a == 0xE2 && b == 0x81 && c == 0x9F then 3
    else if a == 0xE3 && b == 0x80 && c == 0x80 then 3
    else 0
  }

  /** The last white-space character that ends at or before `limit`, searching down from p. */
  function LastSpace(s: string, p: nat, limit: nat): Option<nat> {
    if p == 0 then None
    else if SpaceWidth(s, p - 1) > 0 && p - 1 + SpaceWidth(s, p - 1) <= limit then Some(p - 1)
    else LastSpace(s, p - 1, limit)
  }

  function FirstSpace(s: string, p: nat): Option<nat>
    decreases |s| - p
  {
    if p >= |s| then None
    else if SpaceWidth(s, p) > 0 then Some(p)
    else FirstSpace(s, p + 1)
  }

  // ---- What counts as a reference -----------------------------------------------

  predicate IsWord(c: char) {
    Text.IsAsciiAlphanumeric(c) || c == '_'
  }

  predicate AdrAt(s: string, i: nat) {
    i + 3 <= |s| && Text.AsciiLower(s[i..i + 3]) == "adr"
  }

  predicate BoundaryBefore(s: string, i: nat)
    requires i <= |s|
  {
    i == 0 || !IsWord(s[i - 1])
  }

  /** Past the optional single separator. */
  function DigitsStart(s: string, i: nat): nat
    requires i + 3 <= |s|
  {
    if i + 3 < |s| && s[i + 3] in {'-', '_', ' '} then i + 4 else i + 3
  }

  function DigitsEnd(s: string, j: nat): (e: nat)
    requires j <= |s|
    ensures j <= e <= |s|
    decreases |s| - j
  {
    if j < |s| && Text.IsDigit(s[j]) then DigitsEnd(s, j + 1) else j
  }

  predicate BoundaryAfter(s: string, j: nat)
    requires j <= |s|
  {
    j == |s| || !IsWord(s[j])
  }

  /** `adr`, word-bounded on both sides, with an optional separator and a maximal digit run. */
  predicate Shaped(s: string, i: nat) {
    AdrAt(s, i) && BoundaryBefore(s, i)
    && DigitsEnd(s, DigitsStart(s, i)) > DigitsStart(s, i)
    && BoundaryAfter(s, DigitsEnd(s, DigitsStart(s, i)))
  }

  lemma {:induction false} DigitsAreDigits(s: string, j: nat)
    requires j <= |s|
    ensures forall k | j <= k < DigitsEnd(s, j) :: Text.IsDigit(s[k])
    ensures DigitsEnd(s, j) < |s| ==> !Text.IsDigit(s[DigitsEnd(s, j)])
    decreases |s| - j
  {
    if j < |s| && Text.IsDigit(s[j]) {
      DigitsAreDigits(s, j + 1);
    }
  }

  function NumberAt(s: string, i: nat): nat
    requires i + 3 <= |s|
  {
    var a := DigitsStart(s, i);
    DigitsAreDigits(s, a);
    Text.DecimalValue(s[a..DigitsEnd(s, a)])
  }

  predicate Plausible(n: nat) {
    0 < n <= MAX_PLAUSIBLE_ADR_NUMBER
  }

  /** A reference of a plausible number, before the URL and code-span tests. */
  predicate Candidate(s: string, i: nat) {
    Shaped(s, i) && Plausible(NumberAt(s, i))
  }

  predicate UrlShaped(token: string) {
    Text.Contains(token, "://") || Text.StartsWith(token, "www.")
  }

  function Backticks(s: string): nat {
    if s == "" then 0 else Backticks(s[..|s| - 1]) + if s[|s| - 1] == '`' then 1 else 0
  }

  function TokenStart(s: string, i: nat): nat {
    var p := LastSpace(s, i, i);
    if p.Some? then p.value + 1 else 0
  }

  function TokenEnd(s: string, j: nat): nat {
    FirstSpace(s, j).GetOr(|s|)
  }

  lemma {:induction false} LastSpaceFound(s: string, p: nat, limit: nat)
    ensures var r := LastSpace(s, p, limit);
      r.Some? ==> r.value < p && SpaceWidth(s, r.value) > 0 && r.value + SpaceWidth(s, r.value) <= limit
  {
    if p > 0 {
      LastSpaceFound(s, p - 1, limit);
    }
  }

  lemma {:induction false} FirstSpaceFound(s: string, p: nat)
    ensures var r := FirstSpace(s, p);
      r.Some? ==> p <= r.value < |s| && SpaceWidth(s, r.value) > 0
    decreases |s| - p
  {
    if p < |s| && SpaceWidth(s, p) == 0 {
      FirstSpaceFound(s, p + 1);
    }
  }

  /** The token around a match: from after the last white space to the next one. */
  function TokenOf(s: string, i: nat, j: nat): string
    requires i <= j <= |s|
  {
    LastSpaceFound(s, i, i);
    FirstSpaceFound(s, j);
    s[TokenStart(s, i)..TokenEnd(s, j)]
  }

  /** Inside a URL-shaped token or an open code span. */
  predicate Lookalike(s: string, i: nat, j: nat)
    requires i <= j <= |s|
  {
    UrlShaped(TokenOf(s, i, j)) || Backticks(s[..i]) % 2 == 1
  }

  predicate Accepted(s: string, i: nat) {
    Candidate(s, i) && !Lookalike(s, i, DigitsEnd(s, DigitsStart(s, i)))
  }

  /** The last white space before a match is wider than one byte. */
  predicate WideSpaceBefore(s: string, i: nat) {
    var p := LastSpace(s, i, i);
    p.Some? && SpaceWidth(s, p.value) > 1
  }

  /** No plausible reference follows a wide white space: the lines the scanner survives. */
  predicate Scannable(s: string) {
    forall i | 0 <= i < |s| && Candidate(s, i) :: !WideSpaceBefore(s, i)
  }

  /** The accepted numbers from position i on, position by position, with no jumps. */
  function NumbersFrom(s: string, i: nat): seq<nat>
    decreases |s| - i
  {
    if i >= |s| then []
    else (if Accepted(s, i) then [NumberAt(s, i)] else []) + NumbersFrom(s, i + 1)
  }

  // ---- The scan of one line ---------------------------------------------------------

  lemma TokenSliceSafe(s: string, i: nat, j: nat)
    requires WellFormed(s) && i < j <= |s|
    ensures TokenStart(s, i) <= i && j <= TokenEnd(s, j) <= |s|
    ensures Boundary(s, TokenStart(s, i)) <==> !WideSpaceBefore(s, i)
    ensures Boundary(s, TokenEnd(s, j))
  {
    LastSpaceFound(s, i, i);
    FirstSpaceFound(s, j);
    var p := LastSpace(s, i, i);
    if p.Some? && SpaceWidth(s, p.value) == 1 && p.value + 1 < |s| {
      assert s[p.value] as int < 0x80;
      assert !Continuation(s[p.value + 1]);
    }
  }

  /** `looks_like_lookalike`; nothing when its slice panics. */
  method LooksLikeLookalike(s: string, start: nat, end: nat) returns (r: Option<bool>)
    requires WellFormed(s) && start < end <= |s| && Boundary(s, start) && Boundary(s, end)
    ensures r == if WideSpaceBefore(s, start) then None else Some(Lookalike(s, start, end))
  {
    TokenSliceSafe(s, start, end);
    var tokenStart, tokenEnd := TokenStart(s, start), TokenEnd(s, end);
    if !Boundary(s, tokenStart) { return None; }
    var token := Slice(s, tokenStart, tokenEnd);
    if UrlShaped(token) { return Some(true); }
    if Backticks(Slice(s, 0, start)) % 2 == 1 { return Some(true); }
    return Some(false);
  }

  lemma AdrLetters(s: string, i: nat)
    requires AdrAt(s, i)
    ensures Text.AsciiLowerChar(s[i]) == 'a' && Text.AsciiLowerChar(s[i + 1]) == 'd'
    ensures Text.AsciiLowerChar(s[i + 2]) == 'r'
  {
    var word := Text.AsciiLower(s[i..i + 3]);
    assert word[0] == 'a' && word[1] == 'd' && word[2] == 'r';
  }

  lemma NotAdr(s: string, k: nat)
    requires k < |s| && Text.AsciiLowerChar(s[k]) != 'a'
    ensures !AdrAt(s, k)
  {
    assert k + 3 <= |s| ==> Text.AsciiLower(s[k..k + 3])[0] == Text.AsciiLowerChar(s[k]);
  }

  /** No match starts between the start of a match and the end of its digits. */
  lemma NothingInside(s: string, i: nat, k: nat)
    requires AdrAt(s, i) && i < k < DigitsEnd(s, DigitsStart(s, i))
    ensures !AdrAt(s, k)
  {
    DigitsAreDigits(s, DigitsStart(s, i));
    AdrLetters(s, i);
    NotAdr(s, k);
  }

  lemma {:induction false} SkipLosesNothing(s: string, i: nat, k: nat)
    requires AdrAt(s, i) && i < k <= DigitsEnd(s, DigitsStart(s, i))
    ensures NumbersFrom(s, k) == NumbersFrom(s, DigitsEnd(s, DigitsStart(s, i)))
    decreases DigitsEnd(s, DigitsStart(s, i)) - k
  {
    var j := DigitsEnd(s, DigitsStart(s, i));
    if k < j {
      NothingInside(s, i, k);
      SkipLosesNothing(s, i, k + 1);
      assert NumbersFrom(s, k) == [] + NumbersFrom(s, k + 1);
    }
  }

  lemma StepOver(s: string, i: nat)
    requires i < |s| && !Accepted(s, i)
    ensures NumbersFrom(s, i) == NumbersFrom(s, i + 1)
  {
    assert [] + NumbersFrom(s, i + 1) == NumbersFrom(s, i + 1);
  }

  lemma {:induction false} ShortTail(s: string, i: nat)
    requires i + 3 > |s|
    ensures NumbersFrom(s, i) == []
    decreases |s| - i
  {
    if i < |s| {
      StepOver(s, i);
      ShortTail(s, i + 1);
    }
  }

  /** The positions before i, and what the scan still has to do, agree with the plain scan. */
  ghost predicate ScanInv(s: string, before: seq<nat>, out: seq<nat>, i: nat) {
    && i <= |s|
    && out + NumbersFrom(s, i) == before + NumbersFrom(s, 0)
    && forall k | 0 <= k < i && Candidate(s, k) :: !WideSpaceBefore(s, k)
  }

  lemma ScanStep(s: string, before: seq<nat>, out: seq<nat>, i: nat)
    requires ScanInv(s, before, out, i) && i + 3 <= |s| && !Candidate(s, i)
    ensures ScanInv(s, before, out, i + 1)
    ensures AdrAt(s, i) ==> ScanInv(s, before, out, DigitsEnd(s, DigitsStart(s, i)))
  {
    StepOver(s, i);
    if AdrAt(s, i) {
      ScanJump(s, i);
    }
  }

  lemma ScanJump(s: string, i: nat)
    requires AdrAt(s, i)
    ensures NumbersFrom(s, i + 1) == NumbersFrom(s, DigitsEnd(s, DigitsStart(s, i)))
    ensures forall k | i < k < DigitsEnd(s, DigitsStart(s, i)) :: !Candidate(s, k)
  {
    SkipLosesNothing(s, i, i + 1);
    forall k | i < k < DigitsEnd(s, DigitsStart(s, i)) ensures !Candidate(s, k) {
      NothingInside(s, i, k);
    }
  }

  lemma {:induction false} ScanTake(s: string, before: seq<nat>, out: seq<nat>, i: nat)
    requires ScanInv(s, before, out, i) && Candidate(s, i) && !WideSpaceBefore(s, i)
    ensures var next := if Accepted(s, i) then out + [NumberAt(s, i)] else out;
      ScanInv(s, before, next, DigitsEnd(s, DigitsStart(s, i)))
  {
    ScanJump(s, i);
    if Accepted(s, i) {
      var rest := NumbersFrom(s, i + 1);
      assert out + ([NumberAt(s, i)] + rest) == out + [NumberAt(s, i)] + rest;
    } else {
      StepOver(s, i);
    }
  }

  lemma NotScannable(s: string, i: nat)
    requires Candidate(s, i) && WideSpaceBefore(s, i)
    ensures !Scannable(s)
  {
  }

  lemma ScanEnd(s: string, before: seq<nat>, out: seq<nat>, i: nat)
    requires ScanInv(s, before, out, i) && i + 3 > |s|
    ensures Scannable(s) && out == before + NumbersFrom(s, 0)
  {
    ShortTail(s, i);
    assert out + [] == out;
  }

  /** The matched slices sit on character boundaries. */
  lemma MatchSlicesSafe(s: string, i: nat)
    requires WellFormed(s) && AdrAt(s, i)
    requires DigitsEnd(s, DigitsStart(s, i)) > DigitsStart(s, i)
    ensures Boundary(s, i) && Boundary(s, DigitsStart(s, i)) && Boundary(s, DigitsEnd(s, DigitsStart(s, i)))
  {
    var a := DigitsStart(s, i);
    var j := DigitsEnd(s, a);
    DigitsAreDigits(s, a);
    AdrLetters(s, i);
    AfterAscii(s, j);
  }

  lemma AfterAscii(s: string, j: nat)
    requires WellFormed(s) && 0 < j <= |s| && s[j - 1] as int < 0x80
    ensures Boundary(s, j)
  {
  }

  /** The inner loop over the digits. */
  method SkipDigits(s: string, start: nat) returns (j: nat)
    requires start <= |s|
    ensures start <= j <= |s| && j == DigitsEnd(s, start)
  {
    j := start;
    while j < |s| && Text.IsDigit(s[j])
      invariant start <= j <= |s| && DigitsEnd(s, start) == DigitsEnd(s, j)
    {
      j := j + 1;
    }
  }

  /** One turn of the loop: what is collected and where to go on, or nothing when it panics. */
  method ScanAt(s: string, before: seq<nat>, out: seq<nat>, i: nat) returns (r: Option<(seq<nat>, nat)>)
    requires WellFormed(s) && ScanInv(s, before, out, i) && i + 3 <= |s|
    ensures r.None? ==> !Scannable(s)
    ensures r.Some? ==> i < r.value.1 && ScanInv(s, before, r.value.0, r.value.1)
  {
    if Text.AsciiLower(s[i..i + 3]) != "adr" || !(i == 0 || !IsWord(s[i - 1])) {
      ScanStep(s, before, out, i);
      return Some((out, i + 1));
    }
    var start := DigitsStart(s, i);
    var j := SkipDigits(s, start);
    if j == start {
      ScanStep(s, before, out, i);
      return Some((out, i + 1));
    }
    MatchSlicesSafe(s, i);
    DigitsAreDigits(s, start);
    var num := Text.DecimalValue(Slice(s, start, j));
    if !BoundaryAfter(s, j) || !(num <= U64_MAX && num > 0 && num <= MAX_PLAUSIBLE_ADR_NUMBER) {
      ScanStep(s, before, out, i);
      return Some((out, j));
    }
    assert Candidate(s, i);
    var lookalike := LooksLikeLookalike(s, i, j);
    if lookalike.None? {
      NotScannable(s, i);
      return None;
    }
    ScanTake(s, before, out, i);
    r := Some((if lookalike.value then out else out + [num], j));
  }

  /**
   The jumping scan of one line: it appends exactly the accepted numbers in order
   of position, or panics exactly on a line that is not scannable.
   */
  method ScanLine(s: string, before: seq<nat>) returns (r: Option<seq<nat>>)
    requires WellFormed(s)
    ensures r == if Scannable(s) then Some(before + NumbersFrom(s, 0)) else None
  {
    var out: seq<nat> := before;
    var i := 0;
    while i + 3 <= |s|
      invariant ScanInv(s, before, out, i)
      decreases |s| - i
    {
      var next := ScanAt(s, before, out, i);
      if next.None? { return None; }
      out, i := next.value.0, next.value.1;
    }
    ScanEnd(s, before, out, i);
    r := Some(out);
  }

  // ---- The scan of a message ---------------------------------------------------------

  ghost predicate ReferredFrom(s: string, i: nat, n: nat) {
    exists k | i <= k < |s| :: Accepted(s, k) && NumberAt(s, k) == n
  }

  lemma {:induction false} NumbersExact(s: string, i: nat, n: nat)
    ensures n in NumbersFrom(s, i) <==> ReferredFrom(s, i, n)
    decreases |s| - i
  {
    if i < |s| {
      NumbersExact(s, i + 1, n);
      var here: seq<nat> := if Accepted(s, i) then [NumberAt(s, i)] else [];
      assert ReferredFrom(s, i, n) <==> n in here || ReferredFrom(s, i + 1, n);
      InConcat(n, here, NumbersFrom(s, i + 1));
    }
  }

  /** Some line has a position that refers to n. */
  ghost predicate Refers(lines: seq<string>, n: nat) {
    exists l | l in lines :: ReferredFrom(l, 0, n)
  }

  function AllNumbers(lines: seq<string>): seq<nat> {
    if lines == [] then []
    else AllNumbers(lines[..|lines| - 1]) + NumbersFrom(lines[|lines| - 1], 0)
  }

  predicate NatLeq(a: nat, b: nat) { a <= b }

  /** `Vec::dedup`: drop an element equal to its predecessor. */
  function Dedup(s: seq<nat>): seq<nat> {
    if |s| <= 1 then s
    else if s[0] == s[1] then Dedup(s[1..])
    else [s[0]] + Dedup(s[1..])
  }

  ghost predicate StrictlyIncreasing(s: seq<nat>) {
    forall i, j | 0 <= i < j < |s| :: s[i] < s[j]
  }

  lemma {:induction false} DedupStrict(s: seq<nat>)
    requires Sorting.Sorted(s, NatLeq)
    ensures forall n :: n in Dedup(s) <==> n in s
    ensures StrictlyIncreasing(Dedup(s))
    ensures s != [] ==> Dedup(s) != [] && Dedup(s)[0] == s[0]
  {
    if |s| > 1 {
      DedupStrict(s[1..]);
      assert NatLeq(s[0], s[1]);
      assert s == [s[0]] + s[1..];
    }
  }

  /** Sorting and dropping repeats lists the same numbers, strictly increasing. */
  lemma SortDedupExact(refs: seq<nat>)
    ensures var r := Dedup(Sorting.SortBy(refs, NatLeq));
      (forall n :: n in r <==> n in refs) && StrictlyIncreasing(r)
  {
    var sorted := Sorting.SortBy(refs, NatLeq);
    Sorting.SortSorts(refs, NatLeq);
    Sorting.SortPermutes(refs, NatLeq);
    DedupStrict(sorted);
    forall n ensures n in sorted <==> n in refs {
      assert n in multiset(sorted) <==> n in multiset(refs);
    }
  }

  /** The lines a message is scanned in: the subject whole, then the lines of the body. */
  function MessageLines(subject: string, body: string): seq<string> {
    [subject] + Text.Lines(body)
  }

  lemma SubWellFormed(s: string, a: nat, b: nat)
    requires WellFormed(s) && a <= b <= |s|
    requires a == 0 || s[a - 1] as int < 0x80
    ensures WellFormed(s[a..b])
  {
    var t := s[a..b];
    forall p | 0 <= p < |t| && Continuation(t[p]) ensures p > 0 && t[p - 1] as int >= 0x80 {
      assert t[p] == s[a + p];
      assert a + p > 0 && s[a + p - 1] as int >= 0x80;
      if p > 0 {
        assert t[p - 1] == s[a + p - 1];
      }
    }
  }

  lemma HeadWellFormed(s: string, b: nat)
    requires WellFormed(s) && b <= |s|
    ensures WellFormed(s[..b])
  {
    SubWellFormed(s, 0, b);
    assert s[0..b] == s[..b];
  }

  lemma TailWellFormed(s: string, a: nat)
    requires WellFormed(s) && 0 < a <= |s| && s[a - 1] as int < 0x80
    ensures WellFormed(s[a..])
  {
    SubWellFormed(s, a, |s|);
    assert s[a..|s|] == s[a..];
  }

  lemma {:induction false} LinesWellFormed(s: string)
    requires WellFormed(s)
    ensures forall l | l in Text.Lines(s) :: WellFormed(l)
    decreases |s|
  {
    if s != "" {
      var i := Text.IndexOf(s, '\n');
      if i < |s| {
        HeadWellFormed(s, i);
        HeadWellFormed(s[..i], |Text.StripCr(s[..i])|);
        TailWellFormed(s, i + 1);
        LinesWellFormed(s[i + 1..]);
      }
    }
  }

  lemma {:induction false} AllNumbersExact(lines: seq<string>)
    ensures forall n :: n in AllNumbers(lines) <==> Refers(lines, n)
  {
    if lines != [] {
      var init, last := lines[..|lines| - 1], lines[|lines| - 1];
      assert lines == init + [last];
      AllNumbersExact(init);
      forall n ensures n in AllNumbers(lines) <==> Refers(lines, n) {
        NumbersExact(last, 0, n);
        assert Refers(lines, n) <==> Refers(init, n) || ReferredFrom(last, 0, n);
        InConcat(n, AllNumbers(init), NumbersFrom(last, 0));
      }
    }
  }

  /**
   `scan_adr_refs`: strictly increasing, exactly the plausible numbers some
   word-bounded reference outside URLs and code spans names; it panics exactly
   when a candidate of some line comes after a white space wider than one byte.
   */
  method ScanAdrRefs(subject: string, body: string) returns (r: Option<seq<nat>>)
    requires WellFormed(subject) && WellFormed(body)
    ensures r.None? <==> exists l | l in MessageLines(subject, body) :: !Scannable(l)
    ensures r.Some? ==> forall n :: n in r.value <==> Refers(MessageLines(subject, body), n)
    ensures r.Some? ==> StrictlyIncreasing(r.value) && forall n | n in r.value :: 1 <= n <= 99_999
  {
    var lines := MessageLines(subject, body);
    LinesWellFormed(body);
    var refs: seq<nat> := [];
    for k := 0 to |lines|
      invariant refs == AllNumbers(lines[..k])
      invariant forall l | l in lines[..k] :: Scannable(l)
    {
      assert WellFormed(lines[k]);
      assert lines[..k + 1][..k] == lines[..k];
      var next := ScanLine(lines[k], refs);
      if next.None? {
        assert lines[k] in lines;
        return None;
      }
      refs := next.value;
    }
    assert lines[..|lines|] == lines;
    AllNumbersExact(lines);
    SortDedupExact(refs);
    r := Some(Dedup(Sorting.SortBy(refs, NatLeq)));
  }

  // ---- The panic ------------------------------------------------------------

  /** Under one-byte white space every line is scannable, so the scan is total. */
  lemma {:induction false} NarrowSpacesScannable(s: string)
    requires forall p | 0 <= p < |s| :: SpaceWidth(s, p) <= 1
    ensures Scannable(s)
  {
    forall i | 0 <= i < |s| && Candidate(s, i) ensures !WideSpaceBefore(s, i) {
      LastSpaceFound(s, i, i);
    }
  }

  /** A no-break space in front of a reference: valid UTF-8 on which the scan panics. */
  lemma {:induction false} PanicWitness()
    ensures var s := [0xC2 as char, 0xA0 as char] + "adr1"; WellFormed(s) && !Scannable(s)
  {
    var s := [0xC2 as char, 0xA0 as char] + "adr1";
    assert s[2..5] == "adr";
    assert Text.AsciiLower(s[2..5]) == "adr";
    assert DigitsEnd(s, 6) == 6 && DigitsEnd(s, 5) == 6;
    var digits := s[5..6];
    assert digits == "1" && digits[..0] == "";
    assert Text.DecimalValue(digits[..0]) == 0;
    assert Text.DecimalValue(digits) == 1;
    assert NumberAt(s, 2) == 1;
    assert Candidate(s, 2);
    assert SpaceWidth(s, 1) == 0 && SpaceWidth(s, 0) == 2;
    assert LastSpace(s, 1, 2) == Some(0) && LastSpace(s, 2, 2) == Some(0);
    assert WideSpaceBefore(s, 2);
  }
}
