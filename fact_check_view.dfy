/**
 * The fact-check panel (src/components/FactCheck.tsx): the plain-text report
 * `exportTXT` writes, and the colour classes and badge label the panel uses.
 */
module FactCheckView {
  import opened Wrappers
  import opened Text
  import opened OpenAIService

  // ---------------------------------------------------------------------------
  // The text report
  // ---------------------------------------------------------------------------

  const ReportTitle: string := "FACT CHECK REPORT"
  const TitleRule: string := "=================="
  const ScoreLabel: string := "Overall Accuracy Score: "
  const ClaimsHeading: string := "CLAIM ANALYSIS"
  const ClaimsRule: string := "=============="
  const LevelLabel: string := "Confidence Level: "
  const SummaryLabel: string := "Summary: "
  const AccuracyLabel: string := "   Accuracy: "
  const ConfidenceLabel: string := "   Confidence: "
  const ExplanationLabel: string := "   Explanation: "
  const CategoryLabel: string := "   Category: "
  const RecommendationsHeading: string := "RECOMMENDATIONS"
  const RecommendationsRule: string := "==============="
  const SourcesHeading: string := "RECOMMENDED SOURCES"
  const SourcesRule: string := "==================="

  /** `if (claim.category)`: a category that is present and not the empty string. */
  predicate HasCategory(c: FactCheckResult) {
    c.category.Some? && c.category.value != ""
  }

  /** The banner, the overall assessment and the heading of the claim section. */
  function HeaderLines(o: OverallAssessment): seq<string> {
    [ReportTitle, TitleRule, "",
     ScoreLabel + IntToString(o.accuracyScore) + "/100",
     LevelLabel + ToUpper(LevelName(o.confidenceLevel)),
     SummaryLabel + o.summary, "",
     ClaimsHeading, ClaimsRule, ""]
  }

  /** The block of the claim numbered `n`, closed by a blank line. */
  function BlockLines(n: nat, c: FactCheckResult): seq<string> {
    [NatToString(n) + ". Claim: \"" + c.claim + "\"",
     AccuracyLabel + ToUpper(AccuracyName(c.accuracy)),
     ConfidenceLabel + IntToString(c.confidence) + "/100",
     ExplanationLabel + c.explanation]
    + (if HasCategory(c) then [CategoryLabel + c.category.value] else [])
    + [""]
  }

  /** The blocks of the claims, numbered from 1 in list order. */
  function ClaimLines(cs: seq<FactCheckResult>): seq<string> {
    if cs == [] then [] else ClaimLines(cs[..|cs| - 1]) + BlockLines(|cs|, cs[|cs| - 1])
  }

  /** A 1-based numbered list, one line per item. */
  function NumberedLines(items: seq<string>): (lines: seq<string>)
    ensures |lines| == |items|
  {
    if items == [] then []
    else NumberedLines(items[..|items| - 1]) + [NatToString(|items|) + ". " + items[|items| - 1]]
  }

  /** The header, the claim section and the two numbered lists, under their headings. */
  function Assemble(head: seq<string>, claims: seq<string>, recs: seq<string>, sources: seq<string>): seq<string> {
    head + claims + [RecommendationsHeading, RecommendationsRule] + recs + ["", SourcesHeading, SourcesRule] + sources
  }

  /** The lines of the report, each of which `exportTXT` ends with a line break. */
  function ReportLines(r: FactCheckResponse): seq<string> {
    Assemble(
      HeaderLines(r.overallAssessment),
      ClaimLines(r.claims),
      NumberedLines(r.verificationRecommendations),
      NumberedLines(r.sourcesRecommended))
  }

  function Report(r: FactCheckResponse): (text: string)
    ensures text != [] && text[|text| - 1] == '\n'
  {
    JoinLines(ReportLines(r))
  }

  /** Two more lines, the second one blank: a template ending in two line breaks. */
  lemma JoinLinesBlankAfter(lines: seq<string>, line: string)
    ensures JoinLines(lines + [line, ""]) == JoinLines(lines) + line + "\n\n"
  {
    JoinLinesSnoc(lines, line);
    JoinLinesSnoc(lines + [line], "");
    assert lines + [line] + [""] == lines + [line, ""];
  }

  /** Two more lines, the first one blank: a template starting with a line break. */
  lemma JoinLinesBlankBefore(lines: seq<string>, line: string)
    ensures JoinLines(lines + ["", line]) == JoinLines(lines) + "\n" + line + "\n"
  {
    JoinLinesSnoc(lines, "");
    JoinLinesSnoc(lines + [""], line);
    assert lines + [""] + [line] == lines + ["", line];
  }

  /** Three more lines, the first one blank. */
  lemma JoinLinesBlankBeforeTwo(lines: seq<string>, a: string, b: string)
    ensures JoinLines(lines + ["", a, b]) == JoinLines(lines) + "\n" + a + "\n" + b + "\n"
  {
    JoinLinesBlankBefore(lines, a);
    JoinLinesSnoc(lines + ["", a], b);
    assert lines + ["", a] + [b] == lines + ["", a, b];
  }

  /** Two more lines. */
  lemma JoinLinesTwo(lines: seq<string>, a: string, b: string)
    ensures JoinLines(lines + [a, b]) == JoinLines(lines) + a + "\n" + b + "\n"
  {
    JoinLinesSnoc(lines, a);
    JoinLinesSnoc(lines + [a], b);
    assert lines + [a] + [b] == lines + [a, b];
  }

  /** The header lines appended one `+=` at a time are the header. */
  lemma HeaderChain<T>(a: T, b: T, c: T, d: T, e: T, f: T, g: T, blank: T)
    ensures [a] + [b, blank] + [c] + [d] + [e, blank] + [f] + [g, blank]
      == [a, b, blank, c, d, e, blank, f, g, blank]
  {
  }

  /** Lines appended one by one are the block appended at once. */
  lemma SnocBlock(w: seq<string>, a: string, b: string, c: string, d: string, mid: seq<string>, e: string)
    ensures w + [a] + [b] + [c] + [d] + mid + [e] == w + ([a, b, c, d] + mid + [e])
  {
  }

  /** One claim's block, one `+=` per line, the category line only when there is one. */
  method AppendBlock(text: string, ghost written: seq<string>, n: nat, claim: FactCheckResult)
    returns (text': string)
    requires text == JoinLines(written)
    ensures text' == JoinLines(written + BlockLines(n, claim))
  {
    ghost var w := written;
    var claimLine := NatToString(n) + ". Claim: \"" + claim.claim + "\"";
    JoinLinesSnoc(w, claimLine);
    text' := text + claimLine + "\n";
    w := w + [claimLine];
    var accuracyLine := AccuracyLabel + ToUpper(AccuracyName(claim.accuracy));
    JoinLinesSnoc(w, accuracyLine);
    text' := text' + accuracyLine + "\n";
    w := w + [accuracyLine];
    var confidenceLine := ConfidenceLabel + IntToString(claim.confidence) + "/100";
    JoinLinesSnoc(w, confidenceLine);
    text' := text' + confidenceLine + "\n";
    w := w + [confidenceLine];
    var explanationLine := ExplanationLabel + claim.explanation;
    JoinLinesSnoc(w, explanationLine);
    text' := text' + explanationLine + "\n";
    w := w + [explanationLine];
    ghost var category: seq<string> := [];
    if claim.category.Some? && claim.category.value != "" {
      var categoryLine := CategoryLabel + claim.category.value;
      JoinLinesSnoc(w, categoryLine);
      text' := text' + categoryLine + "\n";
      category := [categoryLine];
      w := w + category;
    } else {
      assert w + category == w;
    }
    JoinLinesSnoc(w, "");
    text' := text' + "\n";
    SnocBlock(written, claimLine, accuracyLine, confidenceLine, explanationLine, category, "");
    w := w + [""];
  }

  /** The `claims.forEach` loop: the blocks numbered from 1 in list order. */
  method AppendClaims(text: string, ghost written: seq<string>, claims: seq<FactCheckResult>)
    returns (text': string)
    requires text == JoinLines(written)
    ensures text' == JoinLines(written + ClaimLines(claims))
  {
    text' := text;
    assert written + ClaimLines(claims[..0]) == written;
    for i := 0 to |claims|
      invariant text' == JoinLines(written + ClaimLines(claims[..i]))
    {
      text' := AppendBlock(text', written + ClaimLines(claims[..i]), i + 1, claims[i]);
      assert claims[..i + 1][..i] == claims[..i];
      assert ClaimLines(claims[..i + 1]) == ClaimLines(claims[..i]) + BlockLines(i + 1, claims[i]);
      AppendAssoc(written, ClaimLines(claims[..i]), BlockLines(i + 1, claims[i]));
    }
    assert claims[..|claims|] == claims;
  }

  /** The `forEach` loops over the recommendations and the sources: `<i+1>. <item>` per item. */
  method AppendNumbered(text: string, ghost written: seq<string>, items: seq<string>)
    returns (text': string)
    requires text == JoinLines(written)
    ensures text' == JoinLines(written + NumberedLines(items))
  {
    text' := text;
    assert written + NumberedLines(items[..0]) == written;
    for i := 0 to |items|
      invariant text' == JoinLines(written + NumberedLines(items[..i]))
    {
      var line := NatToString(i + 1) + ". " + items[i];
      JoinLinesSnoc(written + NumberedLines(items[..i]), line);
      text' := text' + line + "\n";
      assert items[..i + 1][..i] == items[..i];
      AppendAssoc(written, NumberedLines(items[..i]), [line]);
    }
    assert items[..|items|] == items;
  }

  /**
   * `exportTXT`: nothing without a report; otherwise the text accumulated
   * with `+=`: the header, then the claims, the recommendations and the sources.
   */
  method ExportTxt(data: Option<FactCheckResponse>) returns (content: Option<string>)
    ensures data.None? ==> content == None
    ensures data.Some? ==> content == Some(Report(data.value))
  {
    if data.None? {
      return None;
    }
    var r := data.value;
    var o := r.overallAssessment;
    var text := ReportTitle + "\n";
    ghost var written := [ReportTitle];
    assert text == JoinLines(written);
    JoinLinesBlankAfter(written, TitleRule);
    text := text + TitleRule + "\n\n";
    written := written + [TitleRule, ""];
    var scoreLine := ScoreLabel + IntToString(o.accuracyScore) + "/100";
    JoinLinesSnoc(written, scoreLine);
    text := text + scoreLine + "\n";
    written := written + [scoreLine];
    var levelLine := LevelLabel + ToUpper(LevelName(o.confidenceLevel));
    JoinLinesSnoc(written, levelLine);
    text := text + levelLine + "\n";
    written := written + [levelLine];
    var summaryLine := SummaryLabel + o.summary;
    JoinLinesBlankAfter(written, summaryLine);
    text := text + summaryLine + "\n\n";
    written := written + [summaryLine, ""];
    JoinLinesSnoc(written, ClaimsHeading);
    text := text + ClaimsHeading + "\n";
    written := written + [ClaimsHeading];
    JoinLinesBlankAfter(written, ClaimsRule);
    text := text + ClaimsRule + "\n\n";
    written := written + [ClaimsRule, ""];
    HeaderChain(ReportTitle, TitleRule, scoreLine, levelLine, summaryLine, ClaimsHeading, ClaimsRule, "");
    assert written == HeaderLines(o);

    text := AppendClaims(text, written, r.claims);
    written := written + ClaimLines(r.claims);
    JoinLinesTwo(written, RecommendationsHeading, RecommendationsRule);
    text := text + RecommendationsHeading + "\n";
    text := text + RecommendationsRule + "\n";
    written := written + [RecommendationsHeading, RecommendationsRule];
    text := AppendNumbered(text, written, r.verificationRecommendations);
    written := written + NumberedLines(r.verificationRecommendations);
    JoinLinesBlankBeforeTwo(written, SourcesHeading, SourcesRule);
    text := text + "\n" + SourcesHeading + "\n";
    text := text + SourcesRule + "\n";
    written := written + ["", SourcesHeading, SourcesRule];
    text := AppendNumbered(text, written, r.sourcesRecommended);
    written := written + NumberedLines(r.sourcesRecommended);
    content := Some(text);
  }

  // ---------------------------------------------------------------------------
  // What the report contains
  // ---------------------------------------------------------------------------

  /** Item k of a numbered list is `<k+1>. <item>`, one line per item, in order. */
  lemma {:induction false} NumberedLinesAt(items: seq<string>)
    ensures |NumberedLines(items)| == |items|
    ensures forall k :: 0 <= k < |items| ==> NumberedLines(items)[k] == NatToString(k + 1) + ". " + items[k]
  {
    if items != [] {
      var front := items[..|items| - 1];
      NumberedLinesAt(front);
      assert forall k :: 0 <= k < |front| ==> front[k] == items[k];
    }
  }

  /** The number of claims with a category line. */
  function CategoryCount(cs: seq<FactCheckResult>): nat {
    if cs == [] then 0 else CategoryCount(cs[..|cs| - 1]) + (if HasCategory(cs[|cs| - 1]) then 1 else 0)
  }

  /** The claim block's lines: five, or six with a category; the last one is blank. */
  lemma BlockLinesShape(n: nat, c: FactCheckResult)
    ensures var b := BlockLines(n, c);
      && |b| == (if HasCategory(c) then 6 else 5)
      && b[0] == NatToString(n) + ". Claim: \"" + c.claim + "\""
      && b[|b| - 1] == ""
  {
  }

  /** A line that differs from `p` at a position both have does not start with `p`. */
  lemma DiffersAt(s: string, p: string, k: nat)
    requires k < |p| && k < |s| && s[k] != p[k]
    ensures !StartsWith(s, p)
  {
    if |p| <= |s| {
      assert s[..|p|][k] == s[k];
    }
  }

  /** A block has a line starting with '   Category: ' exactly when the claim has a category. */
  lemma BlockCategoryLine(n: nat, c: FactCheckResult)
    ensures var b := BlockLines(n, c);
      HasCategory(c) <==> exists j :: 0 <= j < |b| && StartsWith(b[j], CategoryLabel)
    ensures HasCategory(c) ==> BlockLines(n, c)[4] == CategoryLabel + c.category.value
  {
    var b := BlockLines(n, c);
    if HasCategory(c) {
      var line := CategoryLabel + c.category.value;
      assert b[4] == line;
      assert line[..|CategoryLabel|] == CategoryLabel;
    } else {
      var digits := NatToString(n);
      NatToStringDigits(n);
      assert b[0][0] == digits[0];
      DiffersAt(b[0], CategoryLabel, 0);
      DiffersAt(b[1], CategoryLabel, 3);
      DiffersAt(b[2], CategoryLabel, 5);
      DiffersAt(b[3], CategoryLabel, 3);
      assert b[4] == "";
      assert forall j :: 0 <= j < |b| ==> !StartsWith(b[j], CategoryLabel);
    }
  }

  /** The claim section holds five lines per claim and one more per category. */
  lemma {:induction false} ClaimLinesLength(cs: seq<FactCheckResult>)
    ensures |ClaimLines(cs)| == 5 * |cs| + CategoryCount(cs)
  {
    if cs != [] {
      ClaimLinesLength(cs[..|cs| - 1]);
      BlockLinesShape(|cs|, cs[|cs| - 1]);
    }
  }

  /** The claim section of a prefix of the claims is a prefix of the claim section. */
  lemma {:induction false} ClaimLinesPrefix(cs: seq<FactCheckResult>, j: nat)
    requires j <= |cs|
    ensures ClaimLines(cs[..j]) <= ClaimLines(cs)
    decreases |cs|
  {
    if j < |cs| {
      var front := cs[..|cs| - 1];
      assert front[..j] == cs[..j];
      ClaimLinesPrefix(front, j);
    } else {
      assert cs[..j] == cs;
    }
  }

  /**
   * Claim i is rendered once, as the block numbered i+1, right after the
   * blocks of the claims before it.
   */
  lemma ClaimBlockAt(cs: seq<FactCheckResult>, i: nat)
    requires i < |cs|
    ensures var start := |ClaimLines(cs[..i])|;
      && start + |BlockLines(i + 1, cs[i])| <= |ClaimLines(cs)|
      && ClaimLines(cs)[start..start + |BlockLines(i + 1, cs[i])|] == BlockLines(i + 1, cs[i])
  {
    ClaimLinesPrefix(cs, i + 1);
    ClaimLinesUpTo(cs, i);
    SliceOfPrefix(ClaimLines(cs), ClaimLines(cs[..i]), BlockLines(i + 1, cs[i]));
  }

  /** The claim section up to claim i ends with the block of claim i. */
  lemma ClaimLinesUpTo(cs: seq<FactCheckResult>, i: nat)
    requires i < |cs|
    ensures ClaimLines(cs[..i + 1]) == ClaimLines(cs[..i]) + BlockLines(i + 1, cs[i])
  {
    var upto := cs[..i + 1];
    assert upto[..i] == cs[..i];
  }

  /** A part that follows a prefix of a sequence is the slice after that prefix. */
  lemma SliceOfPrefix<T>(whole: seq<T>, pre: seq<T>, part: seq<T>)
    requires pre + part <= whole
    ensures |pre| + |part| <= |whole| && whole[|pre|..|pre| + |part|] == part
  {
    assert whole[..|pre| + |part|] == pre + part;
    assert (pre + part)[|pre|..] == part;
  }

  /** The six sections of a concatenation sit one after the other. */
  lemma SixParts<T>(a: seq<T>, b: seq<T>, c: seq<T>, d: seq<T>, e: seq<T>, f: seq<T>)
    ensures var s := a + b + c + d + e + f;
      var i1 := |a|;
      var i2 := i1 + |b|;
      var i3 := i2 + |c|;
      var i4 := i3 + |d|;
      var i5 := i4 + |e|;
      && |s| == i5 + |f|
      && s[..i1] == a && s[i1..i2] == b && s[i2..i3] == c && s[i3..i4] == d && s[i4..i5] == e && s[i5..] == f
  {
  }

  /**
   * The report's layout: the header, then the claim section, the
   * recommendations and the sources, in this order, each under its heading.
   */
  lemma AssembleLayout(head: seq<string>, claims: seq<string>, recs: seq<string>, sources: seq<string>)
    ensures var lines := Assemble(head, claims, recs, sources);
      var h := |head|;
      var c := |claims|;
      var m := |recs|;
      && |lines| == h + c + m + |sources| + 5
      && lines[..h] == head
      && lines[h..h + c] == claims
      && lines[h + c..h + c + 2] == [RecommendationsHeading, RecommendationsRule]
      && lines[h + c + 2..h + c + 2 + m] == recs
      && lines[h + c + 2 + m..h + c + m + 5] == ["", SourcesHeading, SourcesRule]
      && lines[h + c + m + 5..] == sources
  {
    SixParts(head, claims, [RecommendationsHeading, RecommendationsRule], recs, ["", SourcesHeading, SourcesRule], sources);
  }

  /** The report opens with its ten header lines. */
  lemma ReportHeader(r: FactCheckResponse)
    ensures var lines := ReportLines(r);
      && |lines| == 15 + |ClaimLines(r.claims)| + |r.verificationRecommendations| + |r.sourcesRecommended|
      && lines[..10] == HeaderLines(r.overallAssessment)
  {
    AssembleLayout(
      HeaderLines(r.overallAssessment),
      ClaimLines(r.claims),
      NumberedLines(r.verificationRecommendations),
      NumberedLines(r.sourcesRecommended));
  }

  /** The header's lines, the score fourth. */
  lemma HeaderLayout(o: OverallAssessment)
    ensures var h := HeaderLines(o);
      && h[0] == ReportTitle
      && h[3] == ScoreLabel + IntToString(o.accuracyScore) + "/100"
      && h[4] == LevelLabel + ToUpper(LevelName(o.confidenceLevel))
      && h[5] == SummaryLabel + o.summary
      && h[7] == ClaimsHeading
  {
  }

  /** The labels before the score and before a claim's confidence hold no digit. */
  lemma LabelsHaveNoDigits()
    ensures NoDigits(ScoreLabel) && NoDigits(ConfidenceLabel)
  {
  }

  /** The score line of the report reads back, digit run first, as the score. */
  lemma ReportScoreReadBack(r: FactCheckResponse)
    requires r.overallAssessment.accuracyScore >= 0
    ensures FirstDigitRun(ReportLines(r)[3]) == Some(r.overallAssessment.accuracyScore)
  {
    ReportHeader(r);
    var lines := ReportLines(r);
    assert lines[3] == lines[..10][3];
    HeaderLayout(r.overallAssessment);
    LabelsHaveNoDigits();
    NatToStringReadBack(ScoreLabel, r.overallAssessment.accuracyScore, "/100");
  }

  /**
   * Lines that read back as an overall assessment: the score, when not
   * negative, is the first digit run of the fourth line, the level the text
   * after its label up to case, and the summary the text after its label.
   */
  predicate HeaderReadsBackAs(lines: seq<string>, o: OverallAssessment) {
    && 6 <= |lines|
    && (o.accuracyScore >= 0 ==> FirstDigitRun(lines[3]) == Some(o.accuracyScore))
    && FieldValue(lines[4], LevelLabel).Some?
    && ToLower(FieldValue(lines[4], LevelLabel).value) == LevelName(o.confidenceLevel)
    && FieldValue(lines[5], SummaryLabel) == Some(o.summary)
  }

  /** The three level names are written in lower case. */
  lemma LevelNameLowerCase(l: ConfidenceLevel)
    ensures ToLower(LevelName(l)) == LevelName(l)
  {
    var name := LevelName(l);
    assert forall i :: 0 <= i < |name| ==> !('A' <= name[i] <= 'Z');
    ToLowerNoCapitals(name);
  }

  /** Any lines that open with the header read back as its overall assessment. */
  lemma HeaderReadBack(lines: seq<string>, o: OverallAssessment)
    requires 10 <= |lines| && lines[..10] == HeaderLines(o)
    ensures HeaderReadsBackAs(lines, o)
  {
    assert lines[3] == lines[..10][3] && lines[4] == lines[..10][4] && lines[5] == lines[..10][5];
    HeaderLayout(o);
    if o.accuracyScore >= 0 {
      LabelsHaveNoDigits();
      NatToStringReadBack(ScoreLabel, o.accuracyScore, "/100");
    }
    FieldValueOf(LevelLabel, ToUpper(LevelName(o.confidenceLevel)));
    LowerOfUpper(LevelName(o.confidenceLevel));
    LevelNameLowerCase(o.confidenceLevel);
    FieldValueOf(SummaryLabel, o.summary);
  }

  /** A slice of a slice is a slice of the whole. */
  lemma NestedSlice<T>(s: seq<T>, a: nat, t: seq<T>, k: nat, u: seq<T>)
    requires a + |t| <= |s| && s[a..a + |t|] == t
    requires k + |u| <= |t| && t[k..k + |u|] == u
    ensures a + k + |u| <= |s| && s[a + k..a + k + |u|] == u
  {
    assert forall j :: 0 <= j < |u| ==> s[a + k + j] == t[k + j] == u[j];
  }

  /** The elements of a slice are those of the sequence, shifted. */
  lemma SliceElements<T>(s: seq<T>, from: nat, part: seq<T>)
    requires from + |part| <= |s| && s[from..from + |part|] == part
    ensures forall j :: 0 <= j < |part| ==> s[from + j] == part[j]
  {
    forall j | 0 <= j < |part|
      ensures s[from + j] == part[j]
    {
      assert s[from..from + |part|][j] == s[from + j];
    }
  }

  /** A part of the claim section is found, ten lines further on, in an assembled report. */
  lemma AssembleSlice(head: seq<string>, claims: seq<string>, recs: seq<string>, sources: seq<string>, pre: nat, part: seq<string>)
    requires |head| == 10 && SliceAt(claims, pre, part)
    ensures SliceAt(Assemble(head, claims, recs, sources), 10 + pre, part)
  {
    AssembleLayout(head, claims, recs, sources);
    NestedSlice(Assemble(head, claims, recs, sources), 10, claims, pre, part);
  }

  /** In an assembled report, claim i's block follows the header and the blocks before it. */
  lemma AssembleBlockAt(head: seq<string>, cs: seq<FactCheckResult>, recs: seq<string>, sources: seq<string>, i: nat)
    requires |head| == 10 && i < |cs|
    ensures SliceAt(Assemble(head, ClaimLines(cs), recs, sources), 10 + |ClaimLines(cs[..i])|, BlockLines(i + 1, cs[i]))
  {
    ClaimBlockAt(cs, i);
    AssembleSlice(head, ClaimLines(cs), recs, sources, |ClaimLines(cs[..i])|, BlockLines(i + 1, cs[i]));
  }

  /** Claim i's block sits in the report right after the header and the blocks before it. */
  lemma ReportBlockAt(r: FactCheckResponse, i: nat)
    requires i < |r.claims|
    ensures SliceAt(ReportLines(r), 10 + |ClaimLines(r.claims[..i])|, BlockLines(i + 1, r.claims[i]))
  {
    AssembleBlockAt(HeaderLines(r.overallAssessment), r.claims,
      NumberedLines(r.verificationRecommendations), NumberedLines(r.sourcesRecommended), i);
  }

  /** `part` sits in `s` from position `at` on. */
  predicate SliceAt(s: seq<string>, at: nat, part: seq<string>) {
    at + |part| <= |s| && s[at..at + |part|] == part
  }

  /**
   * The lines from `at` are the block of claim `c` numbered n: its number
   * and text, its accuracy in capitals, its confidence out of 100, its
   * explanation, its category when it has one, and a blank line.
   */
  predicate BlockAt(lines: seq<string>, at: nat, n: nat, c: FactCheckResult) {
    var size := if HasCategory(c) then 6 else 5;
    && at + size <= |lines|
    && lines[at] == NatToString(n) + ". Claim: \"" + c.claim + "\""
    && lines[at + 1] == AccuracyLabel + ToUpper(AccuracyName(c.accuracy))
    && lines[at + 2] == ConfidenceLabel + IntToString(c.confidence) + "/100"
    && lines[at + 3] == ExplanationLabel + c.explanation
    && (HasCategory(c) ==> lines[at + 4] == CategoryLabel + c.category.value)
    && lines[at + size - 1] == ""
  }

  /** Wherever a claim block sits, its lines are those of the claim. */
  lemma BlockLinesAt(lines: seq<string>, at: nat, n: nat, c: FactCheckResult)
    requires SliceAt(lines, at, BlockLines(n, c))
    ensures BlockAt(lines, at, n, c)
  {
    var b := BlockLines(n, c);
    BlockLinesShape(n, c);
    BlockLinesElements(n, c);
    SliceElements(lines, at, b);
    assert lines[at] == b[0] && lines[at + 1] == b[1] && lines[at + 2] == b[2] && lines[at + 3] == b[3];
    assert lines[at + |b| - 1] == b[|b| - 1];
    if HasCategory(c) {
      assert lines[at + 4] == b[4];
    }
  }

  /** The lines of a claim block after the first, in order. */
  lemma BlockLinesElements(n: nat, c: FactCheckResult)
    ensures var b := BlockLines(n, c);
      && |b| >= 5
      && b[1] == AccuracyLabel + ToUpper(AccuracyName(c.accuracy))
      && b[2] == ConfidenceLabel + IntToString(c.confidence) + "/100"
      && b[3] == ExplanationLabel + c.explanation
      && (HasCategory(c) ==> b[4] == CategoryLabel + c.category.value)
  {
  }

  /** Claim i's lines in the report are the block of that claim, numbered i+1. */
  lemma ReportClaimAt(r: FactCheckResponse, i: nat)
    requires i < |r.claims|
    ensures BlockAt(ReportLines(r), 10 + |ClaimLines(r.claims[..i])|, i + 1, r.claims[i])
  {
    AssembleClaimAt(HeaderLines(r.overallAssessment), r.claims,
      NumberedLines(r.verificationRecommendations), NumberedLines(r.sourcesRecommended), i);
  }

  lemma AssembleClaimAt(head: seq<string>, cs: seq<FactCheckResult>, recs: seq<string>, sources: seq<string>, i: nat)
    requires |head| == 10 && i < |cs|
    ensures BlockAt(Assemble(head, ClaimLines(cs), recs, sources), 10 + |ClaimLines(cs[..i])|, i + 1, cs[i])
  {
    AssembleBlockAt(head, cs, recs, sources, i);
    BlockLinesAt(Assemble(head, ClaimLines(cs), recs, sources), 10 + |ClaimLines(cs[..i])|, i + 1, cs[i]);
  }

  /** The text after a label, when the line starts with it. */
  function FieldValue(line: string, prefix: string): (field: Option<string>)
    ensures field.Some? ==> line == prefix + field.value
  {
    if StartsWith(line, prefix) then Some(line[|prefix|..]) else None
  }

  /** A labelled line gives back the text after its label. */
  lemma FieldValueOf(prefix: string, text: string)
    ensures FieldValue(prefix + text, prefix) == Some(text)
  {
    assert (prefix + text)[..|prefix|] == prefix;
    DropAppend(prefix, text);
  }

  /**
   * The lines from `at` read back as claim `c` numbered n: the number is the
   * first digit run of the first line, the claim text and its closing quote
   * are the rest of that line after the number and its label, the accuracy
   * is the text after its label up to case, a confidence of 0 or more is the
   * first digit run of its line, and the explanation and the category are
   * the text after their labels.
   */
  predicate ReadsBackAs(lines: seq<string>, at: nat, n: nat, c: FactCheckResult) {
    && at + (if HasCategory(c) then 5 else 4) <= |lines|
    && FirstDigitRun(lines[at]) == Some(n)
    && FieldValue(lines[at], NatToString(n) + ". Claim: \"") == Some(c.claim + "\"")
    && FieldValue(lines[at + 1], AccuracyLabel).Some?
    && ToLower(FieldValue(lines[at + 1], AccuracyLabel).value) == AccuracyName(c.accuracy)
    && (c.confidence >= 0 ==> FirstDigitRun(lines[at + 2]) == Some(c.confidence))
    && FieldValue(lines[at + 3], ExplanationLabel) == Some(c.explanation)
    && (HasCategory(c) ==> FieldValue(lines[at + 4], CategoryLabel) == Some(c.category.value))
  }

  /** Lines that read back as a claim still do with more lines after them. */
  lemma ReadsBackAsExtend(lines: seq<string>, more: seq<string>, at: nat, n: nat, c: FactCheckResult)
    requires ReadsBackAs(lines, at, n, c)
    ensures ReadsBackAs(lines + more, at, n, c)
  {
    var all := lines + more;
    assert all[at] == lines[at] && all[at + 1] == lines[at + 1] && all[at + 2] == lines[at + 2] && all[at + 3] == lines[at + 3];
    if HasCategory(c) {
      assert all[at + 4] == lines[at + 4];
    }
  }

  /** A claim's first line starts with its number. */
  lemma ClaimNumberReadBack(n: nat, claim: string)
    ensures FirstDigitRun(NatToString(n) + ". Claim: \"" + claim + "\"") == Some(n)
  {
    var rest := ". Claim: \"" + claim + "\"";
    assert NatToString(n) + ". Claim: \"" + claim + "\"" == "" + NatToString(n) + rest;
    NatToStringReadBack("", n, rest);
  }

  /** A claim's first line gives back the claim text, with its closing quote, after the number and label. */
  lemma ClaimTextReadBack(n: nat, claim: string)
    ensures FieldValue(NatToString(n) + ". Claim: \"" + claim + "\"", NatToString(n) + ". Claim: \"") == Some(claim + "\"")
  {
    var prefix := NatToString(n) + ". Claim: \"";
    assert prefix + claim + "\"" == prefix + (claim + "\"");
    FieldValueOf(prefix, claim + "\"");
  }

  /** The block of claim `c` numbered n reads back as that claim, wherever it sits. */
  lemma BlockReadBack(lines: seq<string>, at: nat, n: nat, c: FactCheckResult)
    requires SliceAt(lines, at, BlockLines(n, c))
    ensures ReadsBackAs(lines, at, n, c)
  {
    BlockLinesAt(lines, at, n, c);
    ClaimNumberReadBack(n, c.claim);
    ClaimTextReadBack(n, c.claim);
    FieldValueOf(AccuracyLabel, ToUpper(AccuracyName(c.accuracy)));
    LowerOfUpper(AccuracyName(c.accuracy));
    AccuracyNameLowerCase(c.accuracy);
    if c.confidence >= 0 {
      LabelsHaveNoDigits();
      NatToStringReadBack(ConfidenceLabel, c.confidence, "/100");
    }
    FieldValueOf(ExplanationLabel, c.explanation);
    if HasCategory(c) {
      FieldValueOf(CategoryLabel, c.category.value);
    }
  }

  lemma AssembleClaimReadBack(head: seq<string>, cs: seq<FactCheckResult>, recs: seq<string>, sources: seq<string>, i: nat)
    requires |head| == 10 && i < |cs|
    ensures ReadsBackAs(Assemble(head, ClaimLines(cs), recs, sources), 10 + |ClaimLines(cs[..i])|, i + 1, cs[i])
  {
    AssembleBlockAt(head, cs, recs, sources, i);
    BlockReadBack(Assemble(head, ClaimLines(cs), recs, sources), 10 + |ClaimLines(cs[..i])|, i + 1, cs[i]);
  }

  /** Claim i's lines in the report read back as its number, accuracy, confidence, explanation and category. */
  lemma ReportClaimReadBack(r: FactCheckResponse, i: nat)
    requires i < |r.claims|
    ensures ReadsBackAs(ReportLines(r), 10 + |ClaimLines(r.claims[..i])|, i + 1, r.claims[i])
  {
    AssembleClaimReadBack(HeaderLines(r.overallAssessment), r.claims,
      NumberedLines(r.verificationRecommendations), NumberedLines(r.sourcesRecommended), i);
  }

  /** A numbered list found at `from` gives `<k+1>. <item k>` at `from + k`. */
  lemma NumberedAt(lines: seq<string>, from: nat, items: seq<string>)
    requires from + |items| <= |lines| && lines[from..from + |items|] == NumberedLines(items)
    ensures forall k :: 0 <= k < |items| ==> lines[from + k] == NatToString(k + 1) + ". " + items[k]
  {
    var numbered := NumberedLines(items);
    NumberedLinesAt(items);
    forall k | 0 <= k < |items|
      ensures lines[from + k] == NatToString(k + 1) + ". " + items[k]
    {
      assert lines[from..from + |items|][k] == lines[from + k];
      assert numbered[k] == NatToString(k + 1) + ". " + items[k];
    }
  }

  /** The headings of the two lists in an assembled report. */
  lemma AssembleHeadingsAt(head: seq<string>, claims: seq<string>, recs: seq<string>, sources: seq<string>)
    ensures var lines := Assemble(head, claims, recs, sources);
      var c := |head| + |claims|;
      var m := |recs|;
      && |lines| == c + m + 5 + |sources|
      && lines[c] == RecommendationsHeading && lines[c + 1] == RecommendationsRule
      && lines[c + 2 + m] == "" && lines[c + 3 + m] == SourcesHeading && lines[c + 4 + m] == SourcesRule
  {
    var lines := Assemble(head, claims, recs, sources);
    var c := |head| + |claims|;
    var m := |recs|;
    AssembleLayout(head, claims, recs, sources);
    SliceElements(lines, c, [RecommendationsHeading, RecommendationsRule]);
    SliceElements(lines, c + 2 + m, ["", SourcesHeading, SourcesRule]);
  }

  /** The recommendations of an assembled report follow its two headings, numbered from 1. */
  lemma AssembleRecsAt(head: seq<string>, claims: seq<string>, recs: seq<string>, sources: seq<string>)
    ensures var lines := Assemble(head, claims, NumberedLines(recs), sources);
      var c := |head| + |claims|;
      && c + 2 + |recs| <= |lines|
      && forall k :: 0 <= k < |recs| ==> lines[c + 2 + k] == NatToString(k + 1) + ". " + recs[k]
  {
    var lines := Assemble(head, claims, NumberedLines(recs), sources);
    AssembleLayout(head, claims, NumberedLines(recs), sources);
    NumberedAt(lines, |head| + |claims| + 2, recs);
  }

  /** The sources close an assembled report, numbered from 1. */
  lemma AssembleSourcesAt(head: seq<string>, claims: seq<string>, recs: seq<string>, sources: seq<string>)
    ensures var lines := Assemble(head, claims, recs, NumberedLines(sources));
      var from := |head| + |claims| + |recs| + 5;
      && |lines| == from + |sources|
      && forall k :: 0 <= k < |sources| ==> lines[from + k] == NatToString(k + 1) + ". " + sources[k]
  {
    var lines := Assemble(head, claims, recs, NumberedLines(sources));
    var from := |head| + |claims| + |recs| + 5;
    AssembleLayout(head, claims, recs, NumberedLines(sources));
    assert lines[from..from + |sources|] == lines[from..];
    NumberedAt(lines, from, sources);
  }

  /**
   * After the claims come the recommendations heading and rule, and after
   * the recommendations a blank line and the sources heading and rule.
   */
  lemma ReportHeadingsAt(r: FactCheckResponse)
    ensures var lines := ReportLines(r);
      var c := 10 + |ClaimLines(r.claims)|;
      var m := |r.verificationRecommendations|;
      && |lines| == c + m + 5 + |r.sourcesRecommended|
      && lines[c] == RecommendationsHeading && lines[c + 1] == RecommendationsRule
      && lines[c + 2 + m] == "" && lines[c + 3 + m] == SourcesHeading && lines[c + 4 + m] == SourcesRule
  {
    var head := HeaderLines(r.overallAssessment);
    assert |head| == 10;
    AssembleHeadingsAt(head, ClaimLines(r.claims), NumberedLines(r.verificationRecommendations), NumberedLines(r.sourcesRecommended));
  }

  /**
   * The recommendations follow their heading and the sources close the
   * report, each list numbered from 1 in order.
   */
  lemma ReportListsAt(r: FactCheckResponse)
    ensures var lines := ReportLines(r);
      var c := 10 + |ClaimLines(r.claims)|;
      var recs := r.verificationRecommendations;
      var sources := r.sourcesRecommended;
      var m := |recs|;
      && |lines| == c + m + 5 + |sources|
      && (forall k :: 0 <= k < m ==> lines[c + 2 + k] == NatToString(k + 1) + ". " + recs[k])
      && (forall k :: 0 <= k < |sources| ==> lines[c + 5 + m + k] == NatToString(k + 1) + ". " + sources[k])
  {
    var head := HeaderLines(r.overallAssessment);
    assert |head| == 10;
    AssembleRecsAt(head, ClaimLines(r.claims), r.verificationRecommendations, NumberedLines(r.sourcesRecommended));
    AssembleSourcesAt(head, ClaimLines(r.claims), NumberedLines(r.verificationRecommendations), r.sourcesRecommended);
  }

  // ---------------------------------------------------------------------------
  // Reading the exported text back
  // ---------------------------------------------------------------------------

  /** No line breaks inside any line. */
  predicate OnOneLine(lines: seq<string>) {
    forall k :: 0 <= k < |lines| ==> '\n' !in lines[k]
  }

  /** The free-text fields of a claim hold no line break. */
  predicate ClaimOnOneLine(c: FactCheckResult) {
    '\n' !in c.claim && '\n' !in c.explanation && (c.category.Some? ==> '\n' !in c.category.value)
  }

  /** The report's free-text fields hold no line break. */
  predicate FieldsOnOneLine(r: FactCheckResponse) {
    && '\n' !in r.overallAssessment.summary
    && (forall c :: c in r.claims ==> ClaimOnOneLine(c))
    && OnOneLine(r.verificationRecommendations)
    && OnOneLine(r.sourcesRecommended)
  }

  lemma OnOneLineAppend(a: seq<string>, b: seq<string>)
    requires OnOneLine(a) && OnOneLine(b)
    ensures OnOneLine(a + b)
  {
    assert forall k :: 0 <= k < |a + b| ==> (a + b)[k] == if k < |a| then a[k] else b[k - |a|];
  }

  /** The fixed text of the header holds no line break. */
  lemma HeaderLabelsOnOneLine()
    ensures '\n' !in ReportTitle && '\n' !in TitleRule && '\n' !in ScoreLabel && '\n' !in "/100"
  {
  }

  /** The rest of the header's fixed text holds no line break. */
  lemma HeaderLabelsOnOneLineToo()
    ensures '\n' !in LevelLabel && '\n' !in SummaryLabel && '\n' !in ClaimsHeading && '\n' !in ClaimsRule
  {
  }

  /** The fixed text of a claim block holds no line break. */
  lemma BlockLabelsOnOneLine()
    ensures && '\n' !in ". Claim: \"" && '\n' !in "\"" && '\n' !in AccuracyLabel && '\n' !in ConfidenceLabel
      && '\n' !in "/100" && '\n' !in ExplanationLabel && '\n' !in CategoryLabel
  {
  }

  /** An accuracy name in capitals holds no line break. */
  lemma AccuracyNameOnOneLine(a: Accuracy)
    ensures '\n' !in ToUpper(AccuracyName(a))
  {
    CaseMappingKeepsNewlines(AccuracyName(a));
  }

  /** A confidence level name in capitals holds no line break. */
  lemma LevelNameOnOneLine(l: ConfidenceLevel)
    ensures '\n' !in ToUpper(LevelName(l))
  {
    CaseMappingKeepsNewlines(LevelName(l));
  }

  lemma HeaderOnOneLine(o: OverallAssessment)
    requires '\n' !in o.summary
    ensures OnOneLine(HeaderLines(o))
  {
    HeaderLabelsOnOneLine();
    HeaderLabelsOnOneLineToo();
    IntToStringChars(o.accuracyScore);
    LevelNameOnOneLine(o.confidenceLevel);
    var h := HeaderLines(o);
    forall k | 0 <= k < |h|
      ensures '\n' !in h[k]
    {
    }
  }

  lemma BlockOnOneLine(n: nat, c: FactCheckResult)
    requires ClaimOnOneLine(c)
    ensures OnOneLine(BlockLines(n, c))
  {
    BlockLabelsOnOneLine();
    IntToStringChars(n);
    IntToStringChars(c.confidence);
    AccuracyNameOnOneLine(c.accuracy);
    var b := BlockLines(n, c);
    forall k | 0 <= k < |b|
      ensures '\n' !in b[k]
    {
    }
  }

  lemma {:induction false} ClaimLinesOnOneLine(cs: seq<FactCheckResult>)
    requires forall c :: c in cs ==> ClaimOnOneLine(c)
    ensures OnOneLine(ClaimLines(cs))
  {
    if cs != [] {
      var front := cs[..|cs| - 1];
      assert forall c :: c in front ==> c in cs;
      ClaimLinesOnOneLine(front);
      BlockOnOneLine(|cs|, cs[|cs| - 1]);
      OnOneLineAppend(ClaimLines(front), BlockLines(|cs|, cs[|cs| - 1]));
    }
  }

  lemma NumberedOnOneLine(items: seq<string>)
    requires OnOneLine(items)
    ensures OnOneLine(NumberedLines(items))
  {
    NumberedLinesAt(items);
    forall k | 0 <= k < |items|
      ensures '\n' !in NumberedLines(items)[k]
    {
      IntToStringChars(k + 1);
      assert '\n' !in ". ";
    }
  }

  /** An assembled report whose parts are on one line each is on one line each. */
  lemma AssembleOnOneLine(head: seq<string>, claims: seq<string>, recs: seq<string>, sources: seq<string>)
    requires OnOneLine(head) && OnOneLine(claims) && OnOneLine(recs) && OnOneLine(sources)
    ensures OnOneLine(Assemble(head, claims, recs, sources))
  {
    assert OnOneLine([RecommendationsHeading, RecommendationsRule]);
    assert OnOneLine(["", SourcesHeading, SourcesRule]);
    OnOneLineAppend(head, claims);
    OnOneLineAppend(head + claims, [RecommendationsHeading, RecommendationsRule]);
    OnOneLineAppend(head + claims + [RecommendationsHeading, RecommendationsRule], recs);
    OnOneLineAppend(head + claims + [RecommendationsHeading, RecommendationsRule] + recs, ["", SourcesHeading, SourcesRule]);
    OnOneLineAppend(head + claims + [RecommendationsHeading, RecommendationsRule] + recs + ["", SourcesHeading, SourcesRule], sources);
  }

  /**
   * The exported text splits at its line breaks into exactly the report's
   * lines (and the empty rest after the last break), when no field holds a
   * line break of its own.
   */
  lemma ReportSplit(r: FactCheckResponse)
    requires FieldsOnOneLine(r)
    ensures Split(Report(r), '\n') == ReportLines(r) + [""]
  {
    HeaderOnOneLine(r.overallAssessment);
    ClaimLinesOnOneLine(r.claims);
    NumberedOnOneLine(r.verificationRecommendations);
    NumberedOnOneLine(r.sourcesRecommended);
    AssembleOnOneLine(HeaderLines(r.overallAssessment), ClaimLines(r.claims),
      NumberedLines(r.verificationRecommendations), NumberedLines(r.sourcesRecommended));
    SplitJoinLines(ReportLines(r));
  }

  /** The exported text read back, with or without claims: its header lines give the score, the level and the summary. */
  lemma ReportTextHeaderReadBack(r: FactCheckResponse)
    requires FieldsOnOneLine(r)
    ensures HeaderReadsBackAs(Split(Report(r), '\n'), r.overallAssessment)
  {
    ReportSplit(r);
    ReportHeader(r);
    var parts := ReportLines(r) + [""];
    assert parts[..10] == ReportLines(r)[..10];
    HeaderReadBack(parts, r.overallAssessment);
  }

  /**
   * The exported text read back: its header lines give the score, the level
   * and the summary, and the lines of claim i read back as that claim.
   */
  lemma ReportTextReadBack(r: FactCheckResponse, i: nat)
    requires FieldsOnOneLine(r) && i < |r.claims|
    ensures var parts := Split(Report(r), '\n');
      && HeaderReadsBackAs(parts, r.overallAssessment)
      && ReadsBackAs(parts, 10 + |ClaimLines(r.claims[..i])|, i + 1, r.claims[i])
  {
    ReportTextHeaderReadBack(r);
    ReportSplit(r);
    ReportClaimReadBack(r, i);
    ReadsBackAsExtend(ReportLines(r), [""], 10 + |ClaimLines(r.claims[..i])|, i + 1, r.claims[i]);
  }

  // ---------------------------------------------------------------------------
  // Colours and labels
  // ---------------------------------------------------------------------------

  /** The Tailwind colour families the panel uses. */
  datatype Tone = Green | Yellow | Orange | Red | Gray

  /** The text class of a tone. */
  function TextClass(t: Tone): string {
    match t
    case Green => "text-green-600"
    case Yellow => "text-yellow-600"
    case Orange => "text-orange-600"
    case Red => "text-red-600"
    case Gray => "text-gray-600"
  }

  /** The text class of a tone with its matching pale background. */
  function BadgeClass(t: Tone): string {
    match t
    case Green => "text-green-600 bg-green-50"
    case Yellow => "text-yellow-600 bg-yellow-50"
    case Orange => "text-orange-600 bg-orange-50"
    case Red => "text-red-600 bg-red-50"
    case Gray => "text-gray-600 bg-gray-50"
  }

  /** The `switch` of `getAccuracyColor`, on the lower-cased accuracy. */
  function AccuracyTone(accuracy: string): (t: Tone)
    ensures t == Gray <==> ToLower(accuracy) !in {"accurate", "inaccurate", "uncertain", "needs_verification"}
  {
    var key := ToLower(accuracy);
    if key == "accurate" then Green
    else if key == "inaccurate" then Red
    else if key == "uncertain" then Yellow
    else if key == "needs_verification" then Orange
    else Gray
  }

  /** `getAccuracyColor`: the badge classes of an accuracy value. */
  function AccuracyColor(accuracy: string): (classes: string)
    ensures classes in {BadgeClass(Green), BadgeClass(Yellow), BadgeClass(Orange), BadgeClass(Red), BadgeClass(Gray)}
  {
    BadgeClass(AccuracyTone(accuracy))
  }

  /** The tone each of the four accuracy values is shown in. */
  function ToneOf(a: Accuracy): Tone {
    match a
    case Accurate => Green
    case Inaccurate => Red
    case Uncertain => Yellow
    case NeedsVerification => Orange
  }

  /** The four accuracy values are written in lower case. */
  lemma AccuracyNameLowerCase(a: Accuracy)
    ensures ToLower(AccuracyName(a)) == AccuracyName(a)
  {
    var name := AccuracyName(a);
    assert forall i :: 0 <= i < |name| ==> !('A' <= name[i] <= 'Z');
    ToLowerNoCapitals(name);
  }

  /** A string whose lower-case form is an accuracy value gets that value's tone. */
  lemma AccuracyToneOfKey(accuracy: string, a: Accuracy)
    requires ToLower(accuracy) == AccuracyName(a)
    ensures AccuracyTone(accuracy) == ToneOf(a)
  {
    var key := ToLower(accuracy);
    match a
    case Accurate =>
    case Inaccurate => assert |key| == 10;
    case Uncertain => assert |key| == 9;
    case NeedsVerification => assert |key| == 18;
  }

  /**
   * Each accuracy value gets its own colour, whatever case it is written in,
   * and none of them falls to the gray default.
   */
  lemma AccuracyColorOfName(a: Accuracy)
    ensures AccuracyTone(AccuracyName(a)) == ToneOf(a) != Gray
    ensures AccuracyTone(ToUpper(AccuracyName(a))) == ToneOf(a)
    ensures AccuracyColor(AccuracyName(a)) == BadgeClass(ToneOf(a))
  {
    var name := AccuracyName(a);
    AccuracyNameLowerCase(a);
    LowerOfUpper(name);
    AccuracyToneOfKey(name, a);
    AccuracyToneOfKey(ToUpper(name), a);
  }

  /** The match ignores case: a string and its upper-case form get the same colour. */
  lemma AccuracyColorIgnoresCase(accuracy: string)
    ensures AccuracyColor(ToUpper(accuracy)) == AccuracyColor(accuracy)
  {
    LowerOfUpper(accuracy);
  }

  /** Distinct accuracy values are told apart by colour. */
  lemma AccuracyColorsDistinct(a: Accuracy, b: Accuracy)
    requires a != b
    ensures AccuracyColor(AccuracyName(a)) != AccuracyColor(AccuracyName(b))
  {
    AccuracyColorOfName(a);
    AccuracyColorOfName(b);
  }

  /** `getConfidenceColor`: green from 80, yellow from 60, red below. */
  function ConfidenceTone(confidence: int): (t: Tone)
    ensures t in {Green, Yellow, Red}
  {
    if confidence >= 80 then Green
    else if confidence >= 60 then Yellow
    else Red
  }

  function ConfidenceColor(confidence: int): (classes: string)
    ensures classes in {TextClass(Green), TextClass(Yellow), TextClass(Red)}
  {
    TextClass(ConfidenceTone(confidence))
  }

  /** How much doubt a confidence colour signals: green 0, yellow 1, red 2. */
  function Doubt(t: Tone): nat {
    match t
    case Green => 0
    case Yellow => 1
    case Orange => 1
    case Red => 2
    case Gray => 2
  }

  /** The three bands of the confidence colour. */
  lemma ConfidenceBands(confidence: int)
    ensures ConfidenceTone(confidence) == Green <==> confidence >= 80
    ensures ConfidenceTone(confidence) == Yellow <==> 60 <= confidence < 80
    ensures ConfidenceTone(confidence) == Red <==> confidence < 60
  {
  }

  /** A higher confidence never shows a more doubtful colour. */
  lemma ConfidenceColorMonotone(lo: int, hi: int)
    requires lo <= hi
    ensures Doubt(ConfidenceTone(hi)) <= Doubt(ConfidenceTone(lo))
  {
  }

  /** The number the overall confidence level is coloured as. */
  function LevelScore(level: ConfidenceLevel): (score: int)
    ensures 0 <= score <= 100
  {
    match level
    case High => 90
    case Medium => 70
    case Low => 40
  }

  /** High shows green, medium yellow and low red, so the level order is kept. */
  lemma LevelColor(level: ConfidenceLevel)
    ensures ConfidenceTone(LevelScore(level)) == (match level case High => Green case Medium => Yellow case Low => Red)
  {
  }

  /** The badge label of line 187: the first `_` becomes a space, then upper case. */
  function BadgeLabel(accuracy: string): (badge: string)
    ensures |badge| == |accuracy|
  {
    ToUpper(ReplaceFirst(accuracy, '_', ' '))
  }

  /** Only the first underscore becomes a space; every part around it is upper-cased. */
  lemma BadgeLabelFirstUnderscore(accuracy: string, k: nat)
    requires k < |accuracy| && accuracy[k] == '_' && '_' !in accuracy[..k]
    ensures BadgeLabel(accuracy) == ToUpper(accuracy[..k]) + " " + ToUpper(accuracy[k + 1..])
  {
    ReplaceFirstAt(accuracy, '_', ' ', k);
    ToUpperAppend(accuracy[..k] + [' '], accuracy[k + 1..]);
    ToUpperAppend(accuracy[..k], [' ']);
  }

  /** A value without an underscore is only upper-cased. */
  lemma BadgeLabelNoUnderscore(accuracy: string)
    requires '_' !in accuracy
    ensures BadgeLabel(accuracy) == ToUpper(accuracy)
  {
    ReplaceFirstAbsent(accuracy, '_', ' ');
  }

  /** The one accuracy value with an underscore gets a label of two upper-cased words. */
  lemma NeedsVerificationLabel()
    ensures BadgeLabel(AccuracyName(NeedsVerification)) == ToUpper("needs") + " " + ToUpper("verification")
  {
    var name := AccuracyName(NeedsVerification);
    assert name[..5] == "needs" && name[6..] == "verification";
    BadgeLabelFirstUnderscore(name, 5);
  }
}
