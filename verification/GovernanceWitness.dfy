/** A document on which the classifier and its prose disagree. */
module GovernanceWitness {
  import opened Wrappers
  import opened Text
  import opened DocScan
  import opened StatusWords
  import opened GovernanceDocModel
  import D = DecisionsTable
  import F = FrontMatterModel
  import FrontMatterForms

  const STATUS_LINE: string := "status: final"
  const FENCE: string := "---"
  const BODY: seq<string> := [STATUS_LINE, FENCE]
  const LINES: seq<string> := [FENCE, STATUS_LINE, FENCE]
  const PATH: string := "d"

  /** Front matter that declares the status `final`, and nothing else. */
  function Doc(): string {
    Unlines(LINES)
  }

  lemma Itself(s: string)
    requires Trimmed(s)
    ensures Trim(s) == s
  {
    TrimFixed(s);
  }

  lemma DocLines()
    ensures CleanLines(BODY) && Lines(Doc()) == LINES
  {
    forall l | l in LINES ensures CleanLine(l) {
      assert l == FENCE || l == STATUS_LINE;
    }
    LinesUnlines(LINES);
  }

  lemma StatusLineParts()
    ensures STATUS_LINE == "status" + [':'] + " final"
    ensures AsciiLower("status") == "status" && Trimmed("status") && ':' !in "status"
  {
  }

  lemma FinalUnquoted()
    ensures F.Unquoted(" final") == "final"
  {
    FrontMatterForms.Bare("final", " ");
    assert " " + "final" == " final";
  }

  lemma StatusLineRead()
    ensures Trim(STATUS_LINE) == STATUS_LINE
    ensures F.IsKeyLine(STATUS_LINE) && !F.IsFence(STATUS_LINE)
    ensures F.KeyOf(STATUS_LINE) == "status" && F.ValueOf(STATUS_LINE) == "final"
  {
    StatusLineParts();
    FinalUnquoted();
    FrontMatterForms.KeyLineRead("status", " final");
  }

  const FIELDS: F.Fields := F.Fields(Some("final"), ["status"], false, [])

  lemma StatusAdds()
    ensures F.AddKey(F.NO_FIELDS, STATUS_LINE) == FIELDS && !F.OpensBlock(STATUS_LINE)
  {
    StatusLineRead();
    assert F.NO_FIELDS.keys + ["status"] == ["status"];
  }

  lemma DocFrontMatter()
    ensures F.Read(Doc()) == F.Summary(FIELDS)
  {
    DocLines();
    BodyScanned();
    FrontMatterForms.ReadFenced(BODY);
    assert ["---"] + BODY == LINES;
  }

  lemma FenceCloses()
    ensures F.IsFence(FENCE) && F.Scan([FENCE], FIELDS) == Some(FIELDS)
  {
    Itself(FENCE);
    assert TrimEnd(FENCE) == FENCE;
  }

  lemma BodyScanned()
    ensures F.Scan(BODY, F.NO_FIELDS) == Some(FIELDS)
  {
    StatusLineRead();
    StatusAdds();
    FenceCloses();
    assert BODY[1..] == [FENCE];
  }

  lemma OneForeignKey(f: F.Fields, k: string)
    requires f.keys == [k] && k !in F.SCOPE_KEYS && k !in F.PUBLISHING_KEYS && k !in F.ISSUE_TEMPLATE_KEYS
    ensures var fm := F.Summary(f);
      !fm.onlyScopeOrPublishing && !fm.hasPublishing && !fm.hasIssueTemplate
  {
    assert k in f.keys;
  }

  lemma StatusIsForeign()
    ensures "status" !in F.SCOPE_KEYS && "status" !in F.PUBLISHING_KEYS && "status" !in F.ISSUE_TEMPLATE_KEYS
  {
    assert |"status"| == 6 && "status"[0] == 's';
  }

  lemma Shape()
    ensures var fm := F.Read(Doc());
      fm.present && fm.status == Some("final")
      && !fm.onlyScopeOrPublishing && !fm.hasPublishing && !fm.hasIssueTemplate
  {
    DocFrontMatter();
    StatusIsForeign();
    OneForeignKey(FIELDS, "status");
  }

  // ---- The gates let it through ------------------------------------------------------

  lemma Lacks(s: string, needle: string, c: char)
    requires c in needle && c !in s
    ensures !Contains(s, needle)
  {
    var k :| 0 <= k < |needle| && needle[k] == c;
    forall i | 0 <= i <= |s| - |needle| ensures !OccursAt(s, needle, i) {
      assert s[i + k] in s;
      assert s[i..i + |needle|][k] == s[i + k];
    }
  }

  lemma {:induction false} UnlinesLacks(lines: seq<string>, c: char)
    requires c != '\n' && forall l | l in lines :: c !in l
    ensures c !in Unlines(lines)
  {
    if lines != [] {
      assert lines[0] in lines;
      UnlinesLacks(lines[1..], c);
    }
  }

  predicate Foreign(c: char) {
    c in {'b', 'e', 'h', 'B', 'E', 'H', '{', '<', '['}
  }

  lemma DocLacks(c: char)
    requires Foreign(c)
    ensures c !in Doc()
  {
    forall l | l in LINES ensures c !in l {
      assert l == FENCE || l == STATUS_LINE;
    }
    UnlinesLacks(LINES, c);
  }

  lemma LowerLacks(s: string, c: char, upper: char)
    requires c !in s && upper !in s && AsciiLowerChar(upper) == c && c != upper
    ensures c !in AsciiLower(s)
  {
    forall i | 0 <= i < |s| ensures AsciiLower(s)[i] != c {
      assert s[i] in s;
    }
  }

  lemma LowerDocLacks()
    ensures var lc := AsciiLower(Doc()); 'b' !in lc && 'e' !in lc && 'h' !in lc
  {
    DocLacks('b');
    DocLacks('B');
    LowerLacks(Doc(), 'b', 'B');
    DocLacks('e');
    DocLacks('E');
    LowerLacks(Doc(), 'e', 'E');
    DocLacks('h');
    DocLacks('H');
    LowerLacks(Doc(), 'h', 'H');
  }

  lemma NoPhrase()
    ensures var lc := AsciiLower(Doc());
      && !Contains(lc, "fill me in") && !Contains(lc, "fill this in") && !Contains(lc, "leave this empty")
      && !Contains(lc, "0000-my-feature") && !HasWholeWord(lc, "tbd")
  {
    LowerDocLacks();
    var lc := AsciiLower(Doc());
    Lacks(lc, "fill me in", 'e');
    Lacks(lc, "fill this in", 'h');
    Lacks(lc, "leave this empty", 'e');
    Lacks(lc, "0000-my-feature", 'e');
    Lacks(lc, "tbd", 'b');
  }

  lemma NoBraces()
    ensures !Contains(Doc(), "{status}") && !Contains(Doc(), "<status>") && !Contains(Doc(), "[status]")
  {
    DocLacks('{');
    DocLacks('<');
    DocLacks('[');
    Lacks(Doc(), "{status}", '{');
    Lacks(Doc(), "<status>", '<');
    Lacks(Doc(), "[status]", '[');
  }

  lemma PathIsOrdinary()
    ensures AsciiLower(PATH) == PATH && FileName(PATH) == PATH
    ensures !Contains(PATH, "template") && !Contains(PATH, "kep-template") && !Contains(PATH, "swift-template")
    ensures !StartsWith(PATH, "0000-") && PATH != "0000.md"
  {
    assert PATH == ['d'];
    IndexOfAbsent(PATH, '/');
    assert |PATH| == 1;
  }

  lemma NoTemplate(p: Patterns)
    requires !p.pipeStatus(Doc())
    ensures !IsTemplate(p, PATH, Doc())
  {
    NoPhrase();
    NoBraces();
    PathIsOrdinary();
  }

  lemma ProseLine(content: string, l: string)
    requires l in Lines(content) && !IsLinkLine(l)
    ensures !LooksLikeIndex(content)
  {
  }

  lemma NotALink()
    ensures !IsLinkLine(STATUS_LINE)
  {
    StatusLineRead();
    assert STATUS_LINE[0] == 's';
  }

  lemma NotIndexed()
    ensures !LooksLikeIndex(Doc())
  {
    DocLines();
    NotALink();
    assert LINES[1] == STATUS_LINE;
    ProseLine(Doc(), STATUS_LINE);
  }

  lemma NotTutorial()
    ensures !LooksLikeTutorial(PATH, Doc())
  {
    Shape();
  }

  lemma NotReserved()
    ensures PATH !in NEVER_DECISION
  {
    assert |PATH| == 1;
  }

  lemma NoLookalike()
    ensures !IsLookalike(PATH, Doc())
  {
    PathIsOrdinary();
    NotReserved();
    Shape();
    NotIndexed();
    NotTutorial();
  }

  lemma NoTable()
    ensures D.Table(Lines(Doc())).None?
  {
    DocLines();
    NoRows();
    D.SkipToTable(LINES, []);
    assert LINES + [] == LINES;
  }

  lemma NotARow(l: string)
    requires l != "" && Trim(l) == l && l[0] != '|'
    ensures !D.IsRow(l)
  {
    assert "|"[0] == '|';
  }

  lemma FenceNoRow()
    ensures !D.IsRow(FENCE)
  {
    Itself(FENCE);
    NotARow(FENCE);
  }

  lemma StatusNoRow()
    ensures !D.IsRow(STATUS_LINE)
  {
    StatusLineRead();
    NotARow(STATUS_LINE);
  }

  lemma NoRows()
    ensures forall l | l in LINES :: !D.IsRow(l)
  {
    FenceNoRow();
    StatusNoRow();
    forall l | l in LINES ensures !D.IsRow(l) {
      assert l == FENCE || l == STATUS_LINE;
    }
  }

  lemma DocExamined(p: Patterns, sidecars: Sidecars)
    requires !p.pipeStatus(Doc()) && !sidecars.kepYaml
    ensures Examined(p, PATH, Doc(), sidecars) && !HasTable(Doc()) && RawStatus(p, Doc()) == Some("final")
  {
    NoTemplate(p);
    NoLookalike();
    NoTable();
    Shape();
  }

  lemma FinalNormal()
    ensures Normal("final") == "final" && "final" in ACCEPTED_WORDS
  {
    PlainSynonyms();
    PlainNormal("final");
  }

  /** Any examined document with a near-synonym for its status. */
  lemma SynonymEffective(p: Patterns, path: string, content: string, sidecars: Sidecars, raw: string)
    requires Examined(p, path, content, sidecars) && RawStatus(p, content) == Some(raw)
    requires Normal(raw) in SYNONYMS
    ensures IsEffective(p, path, content, sidecars) && !EffectiveByProse(p, path, content, sidecars)
  {
    ProseHoldsExactly(p, path, content, sidecars);
    EffectiveExactly(p, path, content, sidecars);
    assert StatusIn(p, content, SYNONYMS) && StatusIn(p, content, ACCEPTED_WORDS);
  }

  lemma FinalIsSynonym()
    ensures "final" in SYNONYMS
  {
    assert |"final"| != |"accepted"|;
  }

  /**
   A document that declares itself `final` is classified as effective, although the
   prose reserves that for `accepted`.
   */
  lemma {:induction false} FinalIsEffective(p: Patterns, sidecars: Sidecars)
    requires !p.pipeStatus(Doc()) && !sidecars.kepYaml
    ensures IsEffective(p, PATH, Doc(), sidecars) && !EffectiveByProse(p, PATH, Doc(), sidecars)
  {
    DocExamined(p, sidecars);
    FinalNormal();
    FinalIsSynonym();
    SynonymEffective(p, PATH, Doc(), sidecars, "final");
  }
}
