/** From a raw status phrase to the closed status vocabulary. */
module StatusWords {
  import opened Wrappers
  import opened Text

  // ---- Normalising ------------------------------------------------------------

  /** White space, stars and back-ticks, which decorate a status. */
  predicate IsMark(c: char) {
    c == '*' || c == '`' || IsWhitespace(c)
  }

  function TrimMarksStart(s: string): string {
    if s != "" && IsMark(s[0]) then TrimMarksStart(s[1..]) else s
  }

  function TrimMarksEnd(s: string): string {
    if s != "" && IsMark(s[|s| - 1]) then TrimMarksEnd(s[..|s| - 1]) else s
  }

  /** `strip_trailing_annotation`: cut at the first " (" of a phrase that ends in ")". */
  function StripAnnotation(raw: string): string {
    var t := Trim(raw);
    var i := Find(t, " (", 0);
    if i.Some? && EndsWith(t, ")") then Trim(t[..i.value]) else Trim(t)
  }

  function Normal(raw: string): string {
    TrimMarksEnd(TrimMarksStart(AsciiLower(Trim(StripAnnotation(raw)))))
  }

  const PROPOSED_WORDS: set<string> := {
    "proposed", "draft", "predraft", "prediscussion", "ideation", "discussion", "in review",
    "open for comments", "awaiting review", "scheduled for review", "active review", "submitted",
    "candidate", "exploring", "provisional", "proposed to target", "proposed to drop",
    "returned for revision"}

  /** Every word but the first is a near-synonym. */
  const ACCEPTED_WORDS: set<string> := {
    "accepted", "approved", "agreed", "decided", "active", "final", "accepted with revisions",
    "accepted with reservations", "previewing", "implemented", "done", "complete", "targeted",
    "integrated", "closed / delivered", "published", "committed", "publish", "implementable",
    "ready-for-release", "released", "recommended"}

  const REJECTED_WORDS: set<string> := {
    "rejected", "withdrawn", "abandoned", "closed", "closed / rejected", "closed / withdrawn"}

  const DEPRECATED_WORDS: set<string> := {"deprecated", "obsolete", "historic", "discontinued"}

  const VOCABULARY: set<string> :=
    {"proposed", "accepted", "rejected", "deprecated", "superseded", "amended"}

  predicate IsSupersession(lc: string) {
    StartsWith(lc, "superseded") || StartsWith(lc, "superceded") || StartsWith(lc, "replaced")
  }

  /** `canonicalize_status` */
  function Canonical(raw: string): (r: Option<string>)
    ensures r.Some? ==> r.value in VOCABULARY
  {
    var lc := Normal(raw);
    if IsSupersession(lc) then Some("superseded")
    else if StartsWith(lc, "amended") then Some("amended")
    else if lc in PROPOSED_WORDS then Some("proposed")
    else if lc in ACCEPTED_WORDS then Some("accepted")
    else if lc in REJECTED_WORDS then Some("rejected")
    else if lc in DEPRECATED_WORDS then Some("deprecated")
    else None
  }

  // ---- Letter case makes no difference ---------------------------------------------

  lemma LowerKeepsSpace(c: char)
    ensures IsWhitespace(AsciiLowerChar(c)) == IsWhitespace(c)
    ensures AsciiLowerChar(AsciiLowerChar(c)) == AsciiLowerChar(c)
    ensures c in {' ', '(', ')'} || AsciiLowerChar(c) in {' ', '(', ')'} ==> AsciiLowerChar(c) == c
  {
  }

  lemma LowerSlice(s: string, i: nat, j: nat)
    requires i <= j <= |s|
    ensures AsciiLower(s[i..j]) == AsciiLower(s)[i..j]
    ensures AsciiLower(s[..j]) == AsciiLower(s)[..j] && AsciiLower(s[i..]) == AsciiLower(s)[i..]
  {
  }

  lemma LowerTwice(s: string)
    ensures AsciiLower(AsciiLower(s)) == AsciiLower(s)
  {
    forall i | 0 <= i < |s| ensures AsciiLower(AsciiLower(s))[i] == AsciiLower(s)[i] {
      LowerKeepsSpace(s[i]);
    }
  }

  lemma {:induction false} LowerTrimStart(s: string)
    ensures TrimStart(AsciiLower(s)) == AsciiLower(TrimStart(s))
  {
    if s != "" {
      LowerKeepsSpace(s[0]);
      LowerSlice(s, 1, |s|);
      LowerTrimStart(s[1..]);
    }
  }

  lemma {:induction false} LowerTrimEnd(s: string)
    ensures TrimEnd(AsciiLower(s)) == AsciiLower(TrimEnd(s))
  {
    if s != "" {
      var n := |s| - 1;
      LowerKeepsSpace(s[n]);
      LowerSlice(s, 0, n);
      LowerTrimEnd(s[..n]);
    }
  }

  lemma LowerTrim(s: string)
    ensures Trim(AsciiLower(s)) == AsciiLower(Trim(s))
  {
    LowerTrimStart(s);
    LowerTrimEnd(TrimStart(s));
  }

  lemma LowerOccurs(s: string, i: nat)
    requires i + 2 <= |s|
    ensures OccursAt(AsciiLower(s), " (", i) == OccursAt(s, " (", i)
  {
    LowerKeepsSpace(s[i]);
    LowerKeepsSpace(s[i + 1]);
    assert s[i..i + 2] == [s[i], s[i + 1]];
    assert AsciiLower(s)[i..i + 2] == [AsciiLowerChar(s[i]), AsciiLowerChar(s[i + 1])];
  }

  lemma {:induction false} LowerFind(s: string, start: nat)
    requires start <= |s|
    ensures Find(AsciiLower(s), " (", start) == Find(s, " (", start)
    decreases |s| - start
  {
    if start + 2 <= |s| {
      LowerOccurs(s, start);
      LowerFind(s, start + 1);
    }
  }

  lemma LowerEnds(s: string)
    ensures EndsWith(AsciiLower(s), ")") == EndsWith(s, ")")
  {
    if s != "" {
      LowerKeepsSpace(s[|s| - 1]);
      assert s[|s| - 1..] == [s[|s| - 1]];
      assert AsciiLower(s)[|s| - 1..] == [AsciiLowerChar(s[|s| - 1])];
    }
  }

  lemma LowerStrip(raw: string)
    ensures StripAnnotation(AsciiLower(raw)) == AsciiLower(StripAnnotation(raw))
  {
    var t := Trim(raw);
    LowerTrim(raw);
    LowerFind(t, 0);
    LowerEnds(t);
    LowerTrim(t);
    var i := Find(t, " (", 0);
    if i.Some? {
      LowerSlice(t, 0, i.value);
      LowerTrim(t[..i.value]);
    }
  }

  lemma LowerNormal(raw: string)
    ensures Normal(AsciiLower(raw)) == Normal(raw)
  {
    LowerStrip(raw);
    LowerTrim(StripAnnotation(raw));
    LowerTwice(Trim(StripAnnotation(raw)));
  }

  /** Phrases that differ only in ASCII letter case get one canonical status. */
  lemma {:induction false} CaseInsensitive(a: string, b: string)
    requires AsciiLower(a) == AsciiLower(b)
    ensures Canonical(a) == Canonical(b)
  {
    LowerNormal(a);
    LowerNormal(b);
  }

  // ---- Neither do padding and a trailing note -----------------------------------------

  lemma {:induction false} PaddingIgnored(before: string, raw: string, after: string)
    requires AllWhitespace(before) && AllWhitespace(after)
    ensures Canonical(before + raw + after) == Canonical(raw)
  {
    TrimPadding(before, raw, after);
  }

  lemma NoteStarts(word: string, note: string)
    requires word != "" && Trimmed(word) && Find(word, " (", 0).None?
    ensures Find(word + " (" + note + ")", " (", 0) == Some(|word|)
  {
    var raw := word + " (" + note + ")";
    var i := Find(raw, " (", 0);
    assert raw[|word|..|word| + 2] == " (";
    assert OccursAt(raw, " (", |word|);
    if i.value < |word| {
      assert raw[i.value..i.value + 2][0] == ' ' && raw[i.value..i.value + 2][1] == '(';
      NoteNotInside(word, note, i.value);
    }
  }

  lemma {:induction false} NoteNotInside(word: string, note: string, i: nat)
    requires word != "" && Trimmed(word) && Find(word, " (", 0).None? && i < |word|
    ensures !OccursAt(word + " (" + note + ")", " (", i)
  {
    var raw := word + " (" + note + ")";
    assert raw[i..i + 2][0] == word[i];
    if i + 1 < |word| {
      assert raw[i..i + 2] == word[i..i + 2];
      assert !OccursAt(word, " (", i);
    } else {
      assert word[i] != " ("[0];
    }
  }

  lemma NoteStripped(word: string, note: string)
    requires word != "" && Trimmed(word) && Find(word, " (", 0).None?
    ensures StripAnnotation(word + " (" + note + ")") == word
  {
    var raw := word + " (" + note + ")";
    NoteStarts(word, note);
    assert raw[0] == word[0] && raw[|raw| - 1] == ')';
    assert raw[|raw| - 1..] == ")";
    TrimFixed(raw);
    TrimFixed(word);
    assert raw[..|word|] == word;
  }

  lemma BareStripped(word: string)
    requires Trimmed(word) && Find(word, " (", 0).None?
    ensures StripAnnotation(word) == word
  {
    TrimFixed(word);
  }

  lemma StripDecides(a: string, b: string)
    requires StripAnnotation(a) == StripAnnotation(b)
    ensures Canonical(a) == Canonical(b)
  {
  }

  /** A parenthesised note after a status changes nothing. */
  lemma {:induction false} NoteIgnored(word: string, note: string)
    requires word != "" && Trimmed(word) && Find(word, " (", 0).None?
    ensures Canonical(word + " (" + note + ")") == Canonical(word)
  {
    NoteStripped(word, note);
    BareStripped(word);
    StripDecides(word + " (" + note + ")", word);
  }

  // ---- Words that stand for themselves ----------------------------------------------

  /** A phrase that normalising leaves alone. */
  predicate Plain(w: string) {
    && w != "" && !IsMark(w[0]) && !IsMark(w[|w| - 1])
    && '(' !in w && AsciiLower(w) == w
  }

  lemma {:induction false} NoNote(w: string, start: nat)
    requires '(' !in w && start <= |w|
    ensures Find(w, " (", start).None?
    decreases |w| - start
  {
    if start + 2 <= |w| {
      assert w[start + 1] in w;
      assert w[start..start + 2][1] != " ("[1];
      NoNote(w, start + 1);
    }
  }

  lemma PlainNormal(w: string)
    requires Plain(w)
    ensures Normal(w) == w
  {
    NoNote(w, 0);
    BareStripped(w);
    TrimFixed(w);
  }

  lemma AcceptedStarts(w: string)
    requires w in ACCEPTED_WORDS
    ensures |w| >= 4 && w[0] != 's' && (w[0] == 'r' ==> w[2] != 'p') && (w[0] == 'a' ==> w[1] != 'm')
  {
  }

  lemma AcceptedNotProposed(w: string)
    requires w in ACCEPTED_WORDS
    ensures w !in PROPOSED_WORDS
  {
  }

  /** A status counts as accepted exactly when its normal form is one of the accepted words. */
  lemma {:induction false} AcceptedExactly(raw: string)
    ensures Canonical(raw) == Some("accepted") <==> Normal(raw) in ACCEPTED_WORDS
  {
    var w := Normal(raw);
    if w in ACCEPTED_WORDS {
      AcceptedStarts(w);
      AcceptedNotProposed(w);
      NoAcceptedPrefix(w);
    }
  }

  lemma NoAcceptedPrefix(w: string)
    requires |w| >= 4 && w[0] != 's' && (w[0] == 'r' ==> w[2] != 'p') && (w[0] == 'a' ==> w[1] != 'm')
    ensures !IsSupersession(w) && !StartsWith(w, "amended")
  {
    assert "superseded"[0] == 's' && "superceded"[0] == 's';
    assert "replaced"[0] == 'r' && "replaced"[2] == 'p';
    assert "amended"[0] == 'a' && "amended"[1] == 'm';
  }

  lemma PlainSynonyms()
    ensures Plain("implemented") && Plain("final") && Plain("published")
  {
    assert AsciiLower("implemented") == "implemented";
    assert AsciiLower("final") == "final";
    assert AsciiLower("published") == "published";
  }

  /** Three statuses the prose keeps apart from `accepted` are folded into it. */
  lemma {:induction false} NearSynonymsFold()
    ensures Canonical("implemented") == Some("accepted")
    ensures Canonical("final") == Some("accepted")
    ensures Canonical("published") == Some("accepted")
  {
    PlainSynonyms();
    PlainNormal("implemented");
    PlainNormal("final");
    PlainNormal("published");
    AcceptedExactly("implemented");
    AcceptedExactly("final");
    AcceptedExactly("published");
  }
}
