/**
 * The OpenAI fact-check service (src/services/OpenAIService.ts): the report
 * types, the two prompt builders and the heuristic line parser that turns the
 * model's prose answer into a structured report.
 */
module OpenAIService {
  import opened Wrappers
  import opened Text

  // ---------------------------------------------------------------------------
  // Report types
  // ---------------------------------------------------------------------------

  datatype Accuracy = Accurate | Inaccurate | Uncertain | NeedsVerification

  /** The string each accuracy value has in the report object. */
  function AccuracyName(a: Accuracy): (name: string) {
    match a
    case Accurate => "accurate"
    case Inaccurate => "inaccurate"
    case Uncertain => "uncertain"
    case NeedsVerification => "needs_verification"
  }

  datatype ConfidenceLevel = High | Medium | Low

  function LevelName(l: ConfidenceLevel): (name: string) {
    match l
    case High => "high"
    case Medium => "medium"
    case Low => "low"
  }

  /** One claim of the report; the two optional fields are never filled by the parser. */
  datatype FactCheckResult = FactCheckResult(
    claim: string,
    accuracy: Accuracy,
    confidence: int,
    explanation: string,
    suggestedSources: Option<seq<string>>,
    category: Option<string>)

  datatype OverallAssessment = OverallAssessment(
    accuracyScore: int,
    confidenceLevel: ConfidenceLevel,
    summary: string)

  datatype FactCheckResponse = FactCheckResponse(
    overallAssessment: OverallAssessment,
    claims: seq<FactCheckResult>,
    verificationRecommendations: seq<string>,
    sourcesRecommended: seq<string>)

  // ---------------------------------------------------------------------------
  // Prompts
  // ---------------------------------------------------------------------------

  /** The rubric placed before the strictness line of the system prompt. */
  const SystemPromptRubric: string :=
    "You are an expert fact-checking assistant. Your task is to analyze summaries and transcripts for factual accuracy.\n"
    + "\n"
    + "Your analysis should:\n"
    + "1. Identify specific claims made in the summary\n"
    + "2. Assess the accuracy of each claim\n"
    + "3. Provide confidence levels for your assessments\n"
    + "4. Suggest verification methods when needed\n"
    + "5. Recommend reliable sources for further verification\n"
    + "\n"
    + "Accuracy ratings:\n"
    + "- ACCURATE: Claim is factually correct based on available information\n"
    + "- INACCURATE: Claim is factually incorrect or misleading\n"
    + "- UNCERTAIN: Unable to verify claim with confidence\n"
    + "- NEEDS_VERIFICATION: Claim requires additional verification\n"
    + "\n"
    + "Confidence scoring (0-100):\n"
    + "- 90-100: High confidence\n"
    + "- 70-89: Medium-high confidence  \n"
    + "- 50-69: Medium confidence\n"
    + "- 30-49: Low-medium confidence\n"
    + "- 0-29: Low confidence\n"
    + "\n"

  const StrictnessLabel: string := "Strictness level: "

  /** `createFactCheckSystemPrompt`: the fixed rubric followed by the upper-cased strictness. */
  function SystemPrompt(strictness: string): (prompt: string)
    ensures |prompt| == |SystemPromptRubric| + |StrictnessLabel| + |strictness|
    ensures prompt[..|SystemPromptRubric|] == SystemPromptRubric
  {
    SystemPromptRubric + StrictnessLabel + ToUpper(strictness)
  }

  /** The system prompt ends with the strictness line, and the strictness can be read back from it. */
  lemma SystemPromptStrictness(strictness: string)
    ensures EndsWith(SystemPrompt(strictness), StrictnessLabel + ToUpper(strictness))
    ensures SystemPrompt(strictness)[|SystemPromptRubric| + |StrictnessLabel|..] == ToUpper(strictness)
  {
    var u := ToUpper(strictness);
    AppendAssoc(SystemPromptRubric, StrictnessLabel, u);
    DropAppend(SystemPromptRubric, StrictnessLabel + u);
    DropAppend(SystemPromptRubric + StrictnessLabel, u);
  }

  /** Two strictness values give the same system prompt exactly when they agree up to case. */
  lemma SystemPromptDistinguishes(a: string, b: string)
    ensures SystemPrompt(a) == SystemPrompt(b) <==> ToUpper(a) == ToUpper(b)
  {
    if SystemPrompt(a) == SystemPrompt(b) {
      SystemPromptStrictness(a);
      SystemPromptStrictness(b);
    }
  }

  const UserPromptHead: string :=
    "Please fact-check this summary against the original transcript:\n\nSUMMARY:\n"

  const UserPromptMiddle: string := "\n\nORIGINAL TRANSCRIPT:\n"

  const UserPromptTail: string :=
    "\n\nPlease provide:\n"
    + "1. Overall assessment with accuracy score (0-100)\n"
    + "2. Analysis of individual claims\n"
    + "3. Confidence levels for each assessment\n"
    + "4. Recommendations for verification\n"
    + "5. Suggested reliable sources for further research"

  const SourceUrlInstruction: string :=
    "\n\n6. Include specific source URLs for verification when possible"

  /** `createFactCheckUserPrompt`: both texts in a fixed frame, plus item 6 when source URLs are wanted. */
  function UserPrompt(summary: string, transcript: string, includeSourceVerification: bool): (prompt: string)
    ensures |prompt| == |UserPromptHead| + |summary| + |UserPromptMiddle| + |transcript| + |UserPromptTail|
                        + (if includeSourceVerification then |SourceUrlInstruction| else 0)
    ensures prompt[..|UserPromptHead|] == UserPromptHead
  {
    var prompt := UserPromptHead + summary + UserPromptMiddle + transcript + UserPromptTail;
    if includeSourceVerification then prompt + SourceUrlInstruction else prompt
  }

  /** Where the five pieces of a concatenation sit in it. */
  lemma FivePieces(a: string, x: string, b: string, y: string, c: string)
    ensures var s := a + x + b + y + c;
      var t := |a| + |x| + |b|;
      && s[..|a|] == a
      && s[|a|..|a| + |x|] == x
      && s[t..t + |y|] == y
      && s[|s| - |c|..] == c
  {
    var s := a + x + b + y + c;
    var t := |a| + |x| + |b|;
    assert s == (a + x) + (b + y + c);
    assert s == (a + x + b) + y + c;
  }

  /** The summary and the transcript sit verbatim at fixed offsets of the user prompt. */
  lemma UserPromptLayout(summary: string, transcript: string, includeSourceVerification: bool)
    ensures var p := UserPrompt(summary, transcript, includeSourceVerification);
      var t := |UserPromptHead| + |summary| + |UserPromptMiddle|;
      && StartsWith(p, UserPromptHead)
      && p[|UserPromptHead|..|UserPromptHead| + |summary|] == summary
      && p[t..t + |transcript|] == transcript
  {
    var base := UserPromptHead + summary + UserPromptMiddle + transcript + UserPromptTail;
    FivePieces(UserPromptHead, summary, UserPromptMiddle, transcript, UserPromptTail);
    if includeSourceVerification {
      assert (base + SourceUrlInstruction)[..|base|] == base;
    }
  }

  /** The user prompt ends with the source-URL instruction exactly when it was asked for. */
  lemma UserPromptSourceInstruction(summary: string, transcript: string, includeSourceVerification: bool)
    ensures EndsWith(UserPrompt(summary, transcript, includeSourceVerification), SourceUrlInstruction)
      <==> includeSourceVerification
  {
    var front := UserPromptHead + summary + UserPromptMiddle + transcript;
    var base := front + UserPromptTail;
    if includeSourceVerification {
      DropAppend(base, SourceUrlInstruction);
    } else {
      DropAppend(front, UserPromptTail);
      var last := UserPromptTail[|UserPromptTail| - 1];
      assert last == 'h';
      assert base[|base| - 1] == last;
      assert SourceUrlInstruction[|SourceUrlInstruction| - 1] == 'e';
    }
  }

  // ---------------------------------------------------------------------------
  // Parsing the model's answer
  // ---------------------------------------------------------------------------

  /** The message content handed to the parser: a string, or any other value (null, an object, ...). */
  datatype Completion = TextContent(s: string) | NonString

  const RecommendationsLiteral: seq<string> := ["Review claims marked as inaccurate or needs verification"]
  const SourcesLiteral: seq<string> := ["Wikipedia", "Academic journals", "Official sources"]

  /** What the catch block returns: `content.split` threw because the content was not a string. */
  const FallbackResponse: FactCheckResponse := FactCheckResponse(
    OverallAssessment(75, Medium, "Analysis completed with parsing limitations"),
    [],
    ["Manual review recommended"],
    ["Multiple sources recommended"])

  const InitialOverall: OverallAssessment := OverallAssessment(75, Medium, "Analysis completed")

  /**
   * The claim being assembled. The source starts from an empty object; its
   * `claim` field is undefined and so, like the empty string, never pushed.
   */
  const NoClaim: FactCheckResult := FactCheckResult("", Uncertain, 50, "", None, None)

  /** The parser's mutable variables: `overallAssessment`, `currentClaim` and `claims`. */
  datatype ParseState = ParseState(
    overall: OverallAssessment,
    current: FactCheckResult,
    claims: seq<FactCheckResult>)

  const InitialState: ParseState := ParseState(InitialOverall, NoClaim, [])

  /** Which branch of the if/else-if chain a trimmed line takes. */
  datatype LineRule =
    | OverallAccuracyRule
    | OverallConfidenceRule
    | ClaimStartRule
    | ClaimAccuracyRule
    | ClaimConfidenceRule
    | ExplanationRule
    | NoRule

  /** `trimmed.match(/^\d+\./)`: digits at the start, immediately followed by a full stop. */
  predicate IsNumbered(t: string) {
    var n := DigitRunLength(t);
    0 < n < |t| && t[n] == '.'
  }

  /** A numbered line with its leading digits, the full stop and the whitespace after them removed. */
  function ClaimText(t: string): string
    requires IsNumbered(t)
  {
    TrimStart(t[DigitRunLength(t) + 1..])
  }

  /** The branch a trimmed line takes; the tests are made in the source's order. */
  function RuleOf(t: string): (r: LineRule)
    ensures r == ClaimStartRule ==> IsNumbered(t)
    ensures r != ClaimConfidenceRule
  {
    var lower := ToLower(t);
    if Contains(lower, "overall accuracy:") then OverallAccuracyRule
    else if Contains(lower, "confidence:") then OverallConfidenceRule
    else if IsNumbered(t) then ClaimStartRule
    else if Contains(lower, "accuracy:") then ClaimAccuracyRule
    else if Contains(lower, "confidence:") then ClaimConfidenceRule
    else if Contains(lower, "explanation:") then ExplanationRule
    else NoRule
  }

  /** The branch a raw line of the answer takes. */
  function Classify(line: string): LineRule {
    RuleOf(Trim(line))
  }

  /** The level a lower-cased 'confidence:' line names, tested high, medium, low. */
  function LevelIn(lower: string): Option<ConfidenceLevel> {
    if Contains(lower, "high") then Some(High)
    else if Contains(lower, "medium") then Some(Medium)
    else if Contains(lower, "low") then Some(Low)
    else None
  }

  /** The accuracy a lower-cased 'accuracy:' line names, tested in the source's order. */
  function AccuracyIn(lower: string): Option<Accuracy> {
    if Contains(lower, "accurate") then Some(Accurate)
    else if Contains(lower, "inaccurate") then Some(Inaccurate)
    else if Contains(lower, "uncertain") then Some(Uncertain)
    else if Contains(lower, "needs verification") then Some(NeedsVerification)
    else None
  }

  /**
   * 'inaccurate' contains 'accurate', so a line naming it reads as accurate,
   * and the value inaccurate is never produced.
   */
  lemma AccuracyInReadsInaccurateAsAccurate(lower: string)
    ensures Contains(lower, "inaccurate") ==> AccuracyIn(lower) == Some(Accurate)
    ensures AccuracyIn(lower) != Some(Inaccurate)
  {
    if Contains(lower, "inaccurate") {
      assert "inaccurate"[2..10] == "accurate";
      OccursContains("inaccurate", "accurate", 2);
      ContainsTransitive(lower, "inaccurate", "accurate");
    }
  }

  /** The line with a leading 'explanation:' in any case, and the whitespace after it, removed. */
  function ExplanationText(t: string): string {
    if |t| >= 12 && ToLower(t[..12]) == "explanation:" then TrimStart(t[12..]) else t
  }

  /**
   * The case-insensitive removal of a leading 'explanation:' and the
   * whitespace after it. With the keyword at the start, in any case, what
   * follows it and that whitespace is left; otherwise the whole line. Either
   * way a suffix of the line.
   */
  lemma ExplanationTextSpec(t: string)
    ensures var r := ExplanationText(t);
      var keyword := |t| >= 12 && ToLower(t[..12]) == "explanation:";
      && EndsWith(t, r)
      && (keyword ==> |r| <= |t| - 12 && AllSpace(t[12..|t| - |r|]) && (r == [] || !IsSpace(r[0])))
      && (!keyword ==> r == t)
  {
    if |t| >= 12 && ToLower(t[..12]) == "explanation:" {
      TrimStartFrom(t, 12);
    }
  }

  /**
   * `replace(/^\d+\./ ...)` on a numbered line: the leading digits, the full
   * stop and the whitespace after it are removed, and a suffix of the line is left.
   */
  lemma ClaimTextSpec(t: string)
    requires IsNumbered(t)
    ensures var n := DigitRunLength(t);
      var r := ClaimText(t);
      && EndsWith(t, r)
      && AllDigits(t[..n]) && t[n] == '.'
      && |r| <= |t| - n - 1 && AllSpace(t[n + 1..|t| - |r|])
      && (r == [] || !IsSpace(r[0]))
  {
    DigitRunLengthSpec(t);
    TrimStartFrom(t, DigitRunLength(t) + 1);
  }

  /** The number a digit match gives, or the field's old value when there was no match. */
  function NumberOr(m: Option<nat>, previous: int): int {
    if m.Some? then m.value else previous
  }

  /** The claim record that the pending claim is pushed as, if its text is non-empty. */
  function Pending(c: FactCheckResult): seq<FactCheckResult> {
    if c.claim != "" then [c] else []
  }

  /** One iteration of the `for (const line of lines)` loop. */
  function Step(st: ParseState, line: string): (next: ParseState) {
    var t := Trim(line);
    var lower := ToLower(t);
    match RuleOf(t)
    case OverallAccuracyRule =>
      st.(overall := st.overall.(accuracyScore := NumberOr(FirstDigitRun(t), st.overall.accuracyScore)))
    case OverallConfidenceRule =>
      st.(overall := st.overall.(confidenceLevel := LevelIn(lower).GetOr(st.overall.confidenceLevel)))
    case ClaimStartRule =>
      st.(claims := st.claims + Pending(st.current),
          current := FactCheckResult(ClaimText(t), Uncertain, 50, "", None, None))
    case ClaimAccuracyRule =>
      st.(current := st.current.(accuracy := AccuracyIn(lower).GetOr(st.current.accuracy)))
    case ClaimConfidenceRule =>
      st.(current := st.current.(confidence := NumberOr(FirstDigitRun(t), st.current.confidence)))
    case ExplanationRule =>
      st.(current := st.current.(explanation := ExplanationText(t)))
    case NoRule =>
      st
  }

  /** The parser's variables after the loop has seen `lines`. */
  function Scan(lines: seq<string>): (st: ParseState) {
    if lines == [] then InitialState else Step(Scan(lines[..|lines| - 1]), lines[|lines| - 1])
  }

  /** The response built after the loop: the pending claim pushed, the fixed lists attached. */
  function Finish(st: ParseState): (response: FactCheckResponse) {
    FactCheckResponse(st.overall, st.claims + Pending(st.current), RecommendationsLiteral, SourcesLiteral)
  }

  /**
   * `parseFactCheckResponse`. Text always gets the same two recommendation
   * lists; anything else makes `split` throw and gets the fallback report.
   */
  function Parse(content: Completion): (r: FactCheckResponse)
    ensures content.TextContent? ==>
      r.verificationRecommendations == RecommendationsLiteral && r.sourcesRecommended == SourcesLiteral
    ensures content.NonString? ==> r == FallbackResponse
  {
    match content
    case NonString => FallbackResponse
    case TextContent(s) => Finish(Scan(Split(s, '\n')))
  }

  /**
   * The body of the parser's loop, on the three variables it updates:
   * the if/else-if chain over one trimmed line.
   */
  method ParseLine(overall: OverallAssessment, current: FactCheckResult, claims: seq<FactCheckResult>, line: string)
    returns (overall': OverallAssessment, current': FactCheckResult, claims': seq<FactCheckResult>)
    ensures ParseState(overall', current', claims') == Step(ParseState(overall, current, claims), line)
  {
    ghost var before := ParseState(overall, current, claims);
    overall', current', claims' := overall, current, claims;
    var trimmed := Trim(line);
    var lower := ToLower(trimmed);
    if Contains(lower, "overall accuracy:") {
      assert RuleOf(trimmed) == OverallAccuracyRule;
      var m := FirstDigitRun(trimmed);
      if m.Some? {
        overall' := overall'.(accuracyScore := m.value);
      }
    } else if Contains(lower, "confidence:") {
      assert RuleOf(trimmed) == OverallConfidenceRule;
      if Contains(lower, "high") {
        overall' := overall'.(confidenceLevel := High);
      } else if Contains(lower, "medium") {
        overall' := overall'.(confidenceLevel := Medium);
      } else if Contains(lower, "low") {
        overall' := overall'.(confidenceLevel := Low);
      }
    } else if IsNumbered(trimmed) {
      assert RuleOf(trimmed) == ClaimStartRule;
      assert Step(before, line) == before.(claims := before.claims + Pending(before.current),
        current := FactCheckResult(ClaimText(trimmed), Uncertain, 50, "", None, None));
      if current'.claim != "" {
        claims' := claims' + [current'];
      }
      current' := FactCheckResult(ClaimText(trimmed), Uncertain, 50, "", None, None);
    } else if Contains(lower, "accuracy:") {
      assert RuleOf(trimmed) == ClaimAccuracyRule;
      assert Step(before, line) == before.(current := before.current.(accuracy := AccuracyIn(lower).GetOr(before.current.accuracy)));
      if Contains(lower, "accurate") {
        current' := current'.(accuracy := Accurate);
      } else if Contains(lower, "inaccurate") {
        current' := current'.(accuracy := Inaccurate);
      } else if Contains(lower, "uncertain") {
        current' := current'.(accuracy := Uncertain);
      } else if Contains(lower, "needs verification") {
        current' := current'.(accuracy := NeedsVerification);
      }
    } else if Contains(lower, "confidence:") {
      current' := current'.(confidence := NumberOr(FirstDigitRun(trimmed), current'.confidence));
    } else if Contains(lower, "explanation:") {
      assert RuleOf(trimmed) == ExplanationRule;
      current' := current'.(explanation := ExplanationText(trimmed));
    } else {
      assert RuleOf(trimmed) == NoRule;
    }
  }

  /** The line loop of `parseFactCheckResponse`: every line is fed to `ParseLine` in order. */
  method ParseLines(lines: seq<string>) returns (overall: OverallAssessment, current: FactCheckResult, claims: seq<FactCheckResult>)
    ensures ParseState(overall, current, claims) == Scan(lines)
  {
    claims := [];
    overall := InitialOverall;
    current := NoClaim;
    for i := 0 to |lines|
      invariant ParseState(overall, current, claims) == Scan(lines[..i])
    {
      assert lines[..i + 1][..i] == lines[..i];
      overall, current, claims := ParseLine(overall, current, claims, lines[i]);
    }
    assert lines[..|lines|] == lines;
  }

  /**
   * `parseFactCheckResponse`: a non-string completion gives the fallback
   * response; otherwise the lines are scanned, the pending claim is flushed
   * and the fixed recommendation lists are attached.
   */
  method ParseFactCheckResponse(content: Completion) returns (r: FactCheckResponse)
    ensures r == Parse(content)
  {
    if content.NonString? {
      return FallbackResponse;
    }
    var overall, current, claims := ParseLines(Split(content.s, '\n'));
    if current.claim != "" {
      claims := claims + [current];
    }
    r := FactCheckResponse(overall, claims, RecommendationsLiteral, SourcesLiteral);
  }

  // ---------------------------------------------------------------------------
  // What the parser computes, stated line by line
  // ---------------------------------------------------------------------------

  /** The value `f` gives on the last element on which it gives one. */
  function LastUpdate<E, T>(lines: seq<E>, f: E -> Option<T>): Option<T> {
    if lines == [] then None
    else
      var u := f(lines[|lines| - 1]);
      if u.Some? then u else LastUpdate(lines[..|lines| - 1], f)
  }

  /** The line at `k` gives the result when no later line gives a value. */
  lemma {:induction false} LastUpdateAt<E, T>(lines: seq<E>, f: E -> Option<T>, k: int)
    requires 0 <= k < |lines| && f(lines[k]).Some?
    requires forall j :: k < j < |lines| ==> f(lines[j]).None?
    ensures LastUpdate(lines, f) == f(lines[k])
  {
    if k < |lines| - 1 {
      var front := lines[..|lines| - 1];
      assert forall j :: k < j < |front| ==> front[j] == lines[j];
      LastUpdateAt(front, f, k);
    }
  }

  /** There is no result exactly when no line gives a value. */
  lemma {:induction false} LastUpdateNone<E, T>(lines: seq<E>, f: E -> Option<T>)
    ensures LastUpdate(lines, f).None? <==> forall k :: 0 <= k < |lines| ==> f(lines[k]).None?
  {
    if lines != [] {
      var front := lines[..|lines| - 1];
      LastUpdateNone(front, f);
      assert forall k :: 0 <= k < |front| ==> front[k] == lines[k];
    }
  }

  /** A result is the value of some line. */
  lemma {:induction false} LastUpdateFrom<E, T>(lines: seq<E>, f: E -> Option<T>)
    requires LastUpdate(lines, f).Some?
    ensures exists k :: 0 <= k < |lines| && f(lines[k]) == LastUpdate(lines, f)
  {
    var front := lines[..|lines| - 1];
    if f(lines[|lines| - 1]).None? {
      LastUpdateFrom(front, f);
      var k :| 0 <= k < |front| && f(front[k]) == LastUpdate(front, f);
      assert front[k] == lines[k];
    }
  }

  /** The score an 'overall accuracy:' line carries, if it has digits. */
  function ScoreUpdate(line: string): Option<nat> {
    if Classify(line) == OverallAccuracyRule then FirstDigitRun(Trim(line)) else None
  }

  /** The level an overall 'confidence:' line names, if any. */
  function LevelUpdate(line: string): Option<ConfidenceLevel> {
    if Classify(line) == OverallConfidenceRule then LevelIn(ToLower(Trim(line))) else None
  }

  /** The accuracy a claim's 'accuracy:' line names, if any. */
  function AccuracyUpdate(line: string): Option<Accuracy> {
    if Classify(line) == ClaimAccuracyRule then AccuracyIn(ToLower(Trim(line))) else None
  }

  /** The explanation an 'explanation:' line carries. */
  function ExplanationUpdate(line: string): Option<string> {
    if Classify(line) == ExplanationRule then Some(ExplanationText(Trim(line))) else None
  }

  /**
   * The overall assessment: the score of the last 'overall accuracy:' line
   * with digits (75 without one), the level of the last 'confidence:' line
   * naming one ('medium' without one), and the fixed summary.
   */
  lemma {:induction false} ScanOverall(lines: seq<string>)
    ensures Scan(lines).overall == OverallAssessment(
      LastUpdate(lines, ScoreUpdate).GetOr(75),
      LastUpdate(lines, LevelUpdate).GetOr(Medium),
      "Analysis completed")
  {
    if lines != [] {
      ScanOverall(lines[..|lines| - 1]);
    }
  }

  // ---------------------------------------------------------------------------
  // The claims, read off the classified lines
  // ---------------------------------------------------------------------------

  /**
   * What one line tells the claim loop: its branch, the claim text when it
   * is numbered, and the accuracy and explanation it carries.
   */
  datatype LineView = LineView(
    rule: LineRule, title: string, accuracy: Option<Accuracy>, explanation: Option<string>)

  function View(line: string): LineView {
    var t := Trim(line);
    LineView(
      Classify(line),
      if Classify(line) == ClaimStartRule then ClaimText(t) else "",
      AccuracyUpdate(line),
      ExplanationUpdate(line))
  }

  /** The views of the lines, in order. */
  function Views(lines: seq<string>): (vs: seq<LineView>)
    ensures |vs| == |lines|
  {
    if lines == [] then [] else Views(lines[..|lines| - 1]) + [View(lines[|lines| - 1])]
  }

  lemma {:induction false} ViewsAt(lines: seq<string>, i: int)
    requires 0 <= i < |lines|
    ensures Views(lines)[i] == View(lines[i])
  {
    var front := lines[..|lines| - 1];
    if i < |front| {
      ViewsAt(front, i);
      assert front[i] == lines[i];
    }
  }

  /** One line more gives one view more. */
  lemma ViewsSnoc(lines: seq<string>, line: string)
    ensures Views(lines + [line]) == Views(lines) + [View(line)]
  {
    assert (lines + [line])[..|lines|] == lines;
  }

  function ViewAccuracy(v: LineView): Option<Accuracy> { v.accuracy }

  function ViewExplanation(v: LineView): Option<string> { v.explanation }

  predicate IsStart(v: LineView) { v.rule == ClaimStartRule }

  /** The index of the last numbered line, or -1 when there is none. */
  function LastStart(vs: seq<LineView>): (k: int)
    ensures -1 <= k < |vs|
    ensures k >= 0 ==> IsStart(vs[k])
  {
    if vs == [] then -1
    else if IsStart(vs[|vs| - 1]) then |vs| - 1
    else LastStart(vs[..|vs| - 1])
  }

  /** No numbered line follows the last one, and some line is numbered exactly when the index is found. */
  lemma {:induction false} LastStartIsLast(vs: seq<LineView>)
    ensures forall j :: LastStart(vs) < j < |vs| ==> !IsStart(vs[j])
    ensures LastStart(vs) < 0 <==> forall j :: 0 <= j < |vs| ==> !IsStart(vs[j])
  {
    if vs != [] && !IsStart(vs[|vs| - 1]) {
      var front := vs[..|vs| - 1];
      LastStartIsLast(front);
      assert forall j :: 0 <= j < |front| ==> front[j] == vs[j];
    }
  }

  /**
   * The claim a numbered line opens, with the lines up to the next numbered
   * line: its text, the accuracy of the last 'accuracy:' line naming one
   * ('uncertain' without one), confidence 50, and the text of the last
   * 'explanation:' line.
   */
  function SegmentClaim(start: LineView, segment: seq<LineView>): FactCheckResult {
    FactCheckResult(
      start.title,
      LastUpdate(segment, ViewAccuracy).GetOr(Uncertain),
      50,
      LastUpdate(segment, ViewExplanation).GetOr(""),
      None,
      None)
  }

  /** The claims of a text, one per numbered line whose text is non-empty, in order. */
  function ClaimsRef(vs: seq<LineView>): seq<FactCheckResult>
    decreases |vs|
  {
    var k := LastStart(vs);
    if k < 0 then [] else ClaimsRef(vs[..k]) + Pending(SegmentClaim(vs[k], vs[k + 1..]))
  }

  /** The claims closed before the last numbered line. */
  function ClaimsBefore(vs: seq<LineView>): seq<FactCheckResult> {
    var k := LastStart(vs);
    if k < 0 then [] else ClaimsRef(vs[..k])
  }

  /**
   * What the open claim is after `vs`: one with an empty text before the
   * first numbered line, afterwards the claim of the last numbered line's segment.
   */
  ghost predicate CurrentMatches(vs: seq<LineView>, c: FactCheckResult) {
    var k := LastStart(vs);
    if k < 0 then c.claim == "" else c == SegmentClaim(vs[k], vs[k + 1..])
  }

  /** The claims of the text are those closed before the last numbered line and the open one. */
  lemma ClaimsRefSplit(vs: seq<LineView>, c: FactCheckResult)
    requires CurrentMatches(vs, c)
    ensures ClaimsRef(vs) == ClaimsBefore(vs) + Pending(c)
  {
  }

  /** A line that opens no claim changes at most the open claim's accuracy and explanation. */
  lemma StepCurrent(st: ParseState, line: string)
    requires !IsStart(View(line))
    ensures Step(st, line).claims == st.claims
    ensures Step(st, line).current == st.current.(
      accuracy := View(line).accuracy.GetOr(st.current.accuracy),
      explanation := View(line).explanation.GetOr(st.current.explanation))
  {
  }

  /** A numbered line closes the open claim and opens a new one. */
  lemma StepStart(st: ParseState, line: string)
    requires IsStart(View(line))
    ensures Step(st, line) == ParseState(
      st.overall,
      FactCheckResult(View(line).title, Uncertain, 50, "", None, None),
      st.claims + Pending(st.current))
  {
  }

  /** One more line in a segment updates its claim the way the loop does. */
  lemma SegmentClaimSnoc(start: LineView, segment: seq<LineView>, v: LineView)
    ensures var c := SegmentClaim(start, segment);
      SegmentClaim(start, segment + [v]) == c.(
        accuracy := v.accuracy.GetOr(c.accuracy),
        explanation := v.explanation.GetOr(c.explanation))
  {
    SnocSlices(segment, v, |segment|);
  }

  /** A line that opens no claim leaves the last numbered line where it was. */
  lemma LastStartSnoc(vs: seq<LineView>, v: LineView)
    requires !IsStart(v)
    ensures LastStart(vs + [v]) == LastStart(vs)
  {
    SnocSlices(vs, v, |vs|);
  }

  /** A numbered line opens a claim whose segment is still empty. */
  lemma CurrentMatchesStart(vs: seq<LineView>, v: LineView, c: FactCheckResult)
    requires IsStart(v)
    requires c == FactCheckResult(v.title, Uncertain, 50, "", None, None)
    ensures CurrentMatches(vs + [v], c)
  {
    SnocSlices(vs, v, |vs|);
    assert (vs + [v])[|vs| + 1..] == [];
  }

  /** Any other line updates the open claim the way the loop does. */
  lemma CurrentMatchesOther(vs: seq<LineView>, v: LineView, c: FactCheckResult, c': FactCheckResult)
    requires CurrentMatches(vs, c)
    requires !IsStart(v)
    requires c' == c.(accuracy := v.accuracy.GetOr(c.accuracy), explanation := v.explanation.GetOr(c.explanation))
    ensures CurrentMatches(vs + [v], c')
  {
    LastStartSnoc(vs, v);
    var k := LastStart(vs);
    if k >= 0 {
      SnocSlices(vs, v, k + 1);
      SegmentClaimSnoc(vs[k], vs[k + 1..], v);
    }
  }

  /** A numbered line closes every claim of the text so far. */
  lemma ClaimsBeforeStart(vs: seq<LineView>, v: LineView)
    requires IsStart(v)
    ensures ClaimsBefore(vs + [v]) == ClaimsRef(vs)
  {
    SnocSlices(vs, v, |vs|);
  }

  /** Any other line closes no claim. */
  lemma ClaimsBeforeOther(vs: seq<LineView>, v: LineView)
    requires !IsStart(v)
    ensures ClaimsBefore(vs + [v]) == ClaimsBefore(vs)
  {
    LastStartSnoc(vs, v);
    var k := LastStart(vs);
    if k >= 0 {
      SnocSlices(vs, v, k);
    }
  }

  /** The parser's open claim after any prefix of the lines agrees with the segment reading. */
  lemma {:induction false} ScanCurrent(lines: seq<string>)
    ensures CurrentMatches(Views(lines), Scan(lines).current)
  {
    if lines != [] {
      var front := lines[..|lines| - 1];
      var line := lines[|lines| - 1];
      assert front + [line] == lines;
      ScanCurrent(front);
      ViewsSnoc(front, line);
      if IsStart(View(line)) {
        StepStart(Scan(front), line);
        CurrentMatchesStart(Views(front), View(line), Scan(lines).current);
      } else {
        StepCurrent(Scan(front), line);
        CurrentMatchesOther(Views(front), View(line), Scan(front).current, Scan(lines).current);
      }
    }
  }

  /** The parser's closed claims after any prefix of the lines agree with the segment reading. */
  lemma {:induction false} ScanClaims(lines: seq<string>)
    ensures Scan(lines).claims == ClaimsBefore(Views(lines))
  {
    if lines != [] {
      var front := lines[..|lines| - 1];
      var line := lines[|lines| - 1];
      assert front + [line] == lines;
      ScanClaims(front);
      ViewsSnoc(front, line);
      if IsStart(View(line)) {
        StepStart(Scan(front), line);
        ScanCurrent(front);
        ClaimsRefSplit(Views(front), Scan(front).current);
        ClaimsBeforeStart(Views(front), View(line));
      } else {
        StepCurrent(Scan(front), line);
        ClaimsBeforeOther(Views(front), View(line));
      }
    }
  }

  /** The overall assessment of a parsed text, line by line. */
  lemma ParseOverall(s: string)
    ensures var lines := Split(s, '\n');
      Parse(TextContent(s)).overallAssessment == OverallAssessment(
        LastUpdate(lines, ScoreUpdate).GetOr(75),
        LastUpdate(lines, LevelUpdate).GetOr(Medium),
        "Analysis completed")
  {
    ScanOverall(Split(s, '\n'));
  }

  /** The claims of a parsed text are those of the segment reading of its lines. */
  lemma ParseClaims(s: string)
    ensures Parse(TextContent(s)).claims == ClaimsRef(Views(Split(s, '\n')))
  {
    var lines := Split(s, '\n');
    ScanClaims(lines);
    ScanCurrent(lines);
    ClaimsRefSplit(Views(lines), Scan(lines).current);
  }

  /** The shape every claim of the report has. */
  predicate WellFormedClaim(c: FactCheckResult) {
    && c.claim != ""
    && c.accuracy != Inaccurate
    && c.confidence == 50
    && c.suggestedSources.None?
    && c.category.None?
  }

  predicate AllWellFormed(claims: seq<FactCheckResult>) {
    forall j :: 0 <= j < |claims| ==> WellFormedClaim(claims[j])
  }

  /** No line is read as marking a claim inaccurate. */
  predicate NeverInaccurate(vs: seq<LineView>) {
    forall j :: 0 <= j < |vs| ==> vs[j].accuracy != Some(Inaccurate)
  }

  /** Since 'inaccurate' contains 'accurate', the views of real lines never carry it. */
  lemma ViewsNeverInaccurate(lines: seq<string>)
    ensures NeverInaccurate(Views(lines))
  {
    forall j | 0 <= j < |lines| ensures Views(lines)[j].accuracy != Some(Inaccurate) {
      ViewsAt(lines, j);
      AccuracyInReadsInaccurateAsAccurate(ToLower(Trim(lines[j])));
    }
  }

  /** A segment's claim is never marked inaccurate and keeps confidence 50. */
  lemma SegmentClaimShape(start: LineView, segment: seq<LineView>)
    requires NeverInaccurate(segment)
    ensures var c := SegmentClaim(start, segment);
      c.accuracy != Inaccurate && c.confidence == 50 && c.suggestedSources.None? && c.category.None?
  {
    if LastUpdate(segment, ViewAccuracy).Some? {
      LastUpdateFrom(segment, ViewAccuracy);
    }
  }

  lemma AllWellFormedAppend(a: seq<FactCheckResult>, b: seq<FactCheckResult>)
    requires AllWellFormed(a) && AllWellFormed(b)
    ensures AllWellFormed(a + b)
  {
    forall j | 0 <= j < |a + b| ensures WellFormedClaim((a + b)[j]) {
      if j >= |a| {
        assert (a + b)[j] == b[j - |a|];
      }
    }
  }

  /** Every claim of the segment reading is well formed. */
  lemma {:induction false} ClaimsRefShape(vs: seq<LineView>)
    requires NeverInaccurate(vs)
    ensures AllWellFormed(ClaimsRef(vs))
    decreases |vs|
  {
    var k := LastStart(vs);
    if k >= 0 {
      var c := SegmentClaim(vs[k], vs[k + 1..]);
      assert NeverInaccurate(vs[..k]) && NeverInaccurate(vs[k + 1..]);
      ClaimsRefShape(vs[..k]);
      SegmentClaimShape(vs[k], vs[k + 1..]);
      assert AllWellFormed(Pending(c));
      AllWellFormedAppend(ClaimsRef(vs[..k]), Pending(c));
    }
  }

  /** The number of numbered lines. */
  function StartCount(vs: seq<LineView>): nat {
    if vs == [] then 0
    else StartCount(vs[..|vs| - 1]) + (if IsStart(vs[|vs| - 1]) then 1 else 0)
  }

  /** The numbered lines are those before the last one, and the last one itself. */
  lemma {:induction false} StartCountLast(vs: seq<LineView>)
    requires LastStart(vs) >= 0
    ensures StartCount(vs) == StartCount(vs[..LastStart(vs)]) + 1
  {
    var front := vs[..|vs| - 1];
    if !IsStart(vs[|vs| - 1]) {
      StartCountLast(front);
      assert front[..LastStart(front)] == vs[..LastStart(vs)];
    }
  }

  /** There are never more claims than numbered lines. */
  lemma {:induction false} ClaimsRefCount(vs: seq<LineView>)
    ensures |ClaimsRef(vs)| <= StartCount(vs)
    decreases |vs|
  {
    var k := LastStart(vs);
    if k >= 0 {
      ClaimsRefCount(vs[..k]);
      StartCountLast(vs);
    }
  }

  /**
   * Every claim of a parsed text has a non-empty text, confidence 50, no
   * inaccurate mark and no optional fields, and there are at most as many
   * claims as numbered lines.
   */
  lemma ParseClaimsShape(s: string)
    ensures var claims := Parse(TextContent(s)).claims;
      && AllWellFormed(claims)
      && |claims| <= StartCount(Views(Split(s, '\n')))
  {
    var vs := Views(Split(s, '\n'));
    ParseClaims(s);
    ViewsNeverInaccurate(Split(s, '\n'));
    ClaimsRefShape(vs);
    ClaimsRefCount(vs);
  }

  /** Without numbered lines there are no claims. */
  lemma NoStartsNoClaims(vs: seq<LineView>)
    requires forall k :: 0 <= k < |vs| ==> !IsStart(vs[k])
    ensures ClaimsRef(vs) == []
  {
    LastStartIsLast(vs);
  }

  /** Lines that open no rule update neither the score nor the level. */
  lemma NoRulesNoUpdates(lines: seq<string>)
    requires forall k :: 0 <= k < |lines| ==> Classify(lines[k]) == NoRule
    ensures LastUpdate(lines, ScoreUpdate).None? && LastUpdate(lines, LevelUpdate).None?
  {
    LastUpdateNone(lines, ScoreUpdate);
    LastUpdateNone(lines, LevelUpdate);
  }

  /** Lines that open no rule open no claim. */
  lemma NoRulesNoStarts(lines: seq<string>)
    requires forall k :: 0 <= k < |lines| ==> Classify(lines[k]) == NoRule
    ensures forall k :: 0 <= k < |lines| ==> !IsStart(Views(lines)[k])
  {
    forall k | 0 <= k < |lines| ensures !IsStart(Views(lines)[k]) {
      ViewsAt(lines, k);
    }
  }

  /** Text in which no line opens a rule gives the default report. */
  lemma ParseNoRules(s: string)
    requires forall k :: 0 <= k < |Split(s, '\n')| ==> Classify(Split(s, '\n')[k]) == NoRule
    ensures Parse(TextContent(s)) == FactCheckResponse(InitialOverall, [], RecommendationsLiteral, SourcesLiteral)
  {
    var lines := Split(s, '\n');
    ParseOverall(s);
    ParseClaims(s);
    NoRulesNoUpdates(lines);
    NoRulesNoStarts(lines);
    NoStartsNoClaims(Views(lines));
  }
}
