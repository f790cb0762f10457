# whisper-web fact-checking and summarization core, in Dafny

This project models the deterministic core of whisper-web. whisper-web is a
browser application that transcribes audio, summarizes the transcript with a
Transformers.js worker, and fact-checks the summary through the OpenAI API.
The model covers six core pieces, one module each:

- `OpenAIService` (`openai_service.dfy`) holds the fact-check report types, the system and user prompt builders, and the
  line parser `parseFactCheckResponse`:
  - it is written as a spec function `Parse` and as a step-by-step method `ParseFactCheckResponse` proved equal to it;
  - it is also given a segment-by-segment reference reading of the answer's lines, `ClaimsRef`, that the parser is proved to agree with.
- `FactCheckView` (`fact_check_view.dfy`) holds the text report `exportTXT` builds, written as a method that accumulates the text and proved equal to a line-list function, together with the colour and badge-label mappings of the fact-check panel.
- `Summarizer` (`summarizer.dfy`) models the `useSummarizer` hook as a class: its worker-message handler, the `postRequest` trim guard, and the setters.
- `FactChecker` (`fact_checker.dfy`) models the `useFactChecker` hook as a class:
  - the service-presence rule;
  - the guarded transitions of `startFactCheck`, split at its await;
  - `clearResults` and the four setters.
- `SummarizationWorker` (`summarization_worker.dfy`) models the worker:
  - the single cached pipeline promise keyed on (model, quantized), and its disposal when the key changes;
  - how the model load settles (loaded or rejected), and the closing message this does or does not give each request;
  - a corrected listener that closes every request, next to the listener as written.
- `SourceVerification` (`source_verification.dfy`) holds the configuration defaults, the word-overlap relevance score (a loop proved against an exact integer formula), the canned mock search, and the claim-to-results map.

`Text` (`text.dfy`) holds the JavaScript string operations these pieces use, restricted to ASCII:
- `trim`, `toLowerCase`/`toUpperCase`, `includes`, `split`;
- the first digit run (`/(\d+)/` followed by `parseInt`);
- number rendering and `replace` of a first character.

`Wrappers` (`wrappers.dfy`) holds `Option`.

Remote calls and library objects become parameters:
- an `Outcome` for the awaited OpenAI call;
- a `RunOutcome` and load events for the pipeline;
- one `Option` of results per search for `searchWeb`;
- a function `encode` for `encodeURIComponent`.

Two consequences of the parser's branch order:
- **Claim confidence.** A claim's own 'confidence:' line never sets its confidence. The overall 'confidence:' test (src/services/OpenAIService.ts:212) runs first and takes every such line, so every claim keeps confidence 50 (`OpenAIService.RuleOf`, `OpenAIService.ParseClaimsShape`).
- **'inaccurate' lines.** An 'accuracy:' line naming 'inaccurate' is read as 'accurate', because 'inaccurate' contains 'accurate' (`OpenAIService.AccuracyInReadsInaccurateAsAccurate`).

## Model

| member | source | states |
|---|---|---|
| OpenAIService.SystemPromptStrictness | src/services/OpenAIService.ts:138-164 | the system prompt is the fixed rubric followed by 'Strictness level: ' and the upper-cased strictness, which can be read back from its end |
| OpenAIService.SystemPrompt | src/services/OpenAIService.ts:138-162 | the system prompt opens with the fixed rubric and adds exactly the strictness line |
| OpenAIService.SystemPromptDistinguishes | src/services/OpenAIService.ts:161 | two strictness values give the same prompt exactly when they agree up to case |
| OpenAIService.UserPrompt | src/services/OpenAIService.ts:166-188 | the user prompt opens with the fixed request, and its length is that of the template pieces, the summary, the transcript and the optional source instruction |
| OpenAIService.UserPromptLayout | src/services/OpenAIService.ts:166-180 | the user prompt starts with the fixed request and holds the summary and the transcript verbatim at fixed offsets |
| OpenAIService.UserPromptSourceInstruction | src/services/OpenAIService.ts:182-188 | the prompt ends with the item-6 source-URL instruction if and only if source verification is asked for |
| OpenAIService.RuleOf | src/services/OpenAIService.ts:207-239 | the branch a trimmed line takes; a claim is opened only by a numbered line, and the claim-confidence branch is never taken |
| OpenAIService.AccuracyInReadsInaccurateAsAccurate | src/services/OpenAIService.ts:227-231 | a line containing 'inaccurate' yields accurate, and the value inaccurate is never produced |
| OpenAIService.ExplanationTextSpec | src/services/OpenAIService.ts:237-238 | a case-insensitive leading 'explanation:' and the whitespace after it are removed; otherwise the line is kept whole |
| OpenAIService.ClaimTextSpec | src/services/OpenAIService.ts:216-222 | a numbered line's claim text is the rest after its leading digits, the full stop and the whitespace after it |
| OpenAIService.Parse | src/services/OpenAIService.ts:191-265 | text always gets the two fixed recommendation lists; non-string content gets the fallback report (75, medium, 'Analysis completed with parsing limitations', no claims, the manual-review lists) |
| OpenAIService.ParseLine | src/services/OpenAIService.ts:205-239 | one loop iteration, the if/else-if chain over a trimmed line, equals the step function `Step` |
| OpenAIService.ParseLines | src/services/OpenAIService.ts:204-240 | the loop over the lines leaves the parser's three variables as the fold `Scan` over the lines |
| OpenAIService.ParseFactCheckResponse | src/services/OpenAIService.ts:191-265 | the method gives exactly `Parse` of its content, on both the try and the catch path |
| OpenAIService.LastUpdateAt | src/services/OpenAIService.ts:207-215 | a field set by line k keeps that value when no later line sets it (later lines overwrite) |
| OpenAIService.LastUpdateNone | src/services/OpenAIService.ts:197-201 | a field keeps its initial value exactly when no line sets it |
| OpenAIService.ScanOverall | src/services/OpenAIService.ts:197-215 | the overall score is the digit run of the last 'overall accuracy:' line with digits (else 75), the level that of the last 'confidence:' line naming high, medium or low (else medium), the summary 'Analysis completed' |
| OpenAIService.ParseOverall | src/services/OpenAIService.ts:195-215 | the overall assessment of a parsed text, stated over its lines split at '\n' |
| OpenAIService.LastStartIsLast | src/services/OpenAIService.ts:216-226 | no numbered line follows the last numbered line, and there is none exactly when the index is -1 |
| OpenAIService.ScanCurrent | src/services/OpenAIService.ts:202-239 | after any prefix of the lines the open claim is the one the last numbered line's segment describes |
| OpenAIService.ScanClaims | src/services/OpenAIService.ts:216-226 | after any prefix of the lines the pushed claims are those closed before the last numbered line, in order |
| OpenAIService.ParseClaims | src/services/OpenAIService.ts:216-244 | the claims of a parsed text are one per numbered line with non-empty text, in order, each with the accuracy and explanation of the last such line of its segment |
| OpenAIService.ClaimsRefCount | src/services/OpenAIService.ts:218-220 | there are never more claims than numbered lines |
| OpenAIService.ParseClaimsShape | src/services/OpenAIService.ts:221-226 | every parsed claim has non-empty text, confidence 50, is never inaccurate and has no optional fields; claims are at most the numbered lines |
| OpenAIService.ParseNoRules | src/services/OpenAIService.ts:197-201 | a text none of whose lines matches a rule gives 75, medium, 'Analysis completed', no claims and the two fixed lists |
| FactCheckView.ExportTxt | src/components/FactCheck.tsx:30-64 | no report without data; otherwise the text accumulated with `+=` equals the report function |
| FactCheckView.AppendBlock | src/components/FactCheck.tsx:43-50 | one iteration of the claim loop appends that claim's block lines, each ending in a line break |
| FactCheckView.AppendClaims | src/components/FactCheck.tsx:42-51 | the claim loop appends the claim section, one block per claim in list order |
| FactCheckView.AppendNumbered | src/components/FactCheck.tsx:55-63 | each list loop appends its 1-based numbered lines |
| FactCheckView.Report | src/components/FactCheck.tsx:30-63 | the exported text is never empty and ends with a line break |
| FactCheckView.NumberedLinesAt | src/components/FactCheck.tsx:55-63 | item k of a numbered list is '<k+1>. <item>', one line per item, in order |
| FactCheckView.BlockLinesShape | src/components/FactCheck.tsx:43-50 | a claim block has five lines, six with a category, opens with '<n>. Claim: "<claim>"' and ends blank |
| FactCheckView.BlockCategoryLine | src/components/FactCheck.tsx:47-49 | a block has a 'Category:' line if and only if the claim's category is present and non-empty |
| FactCheckView.ClaimLinesLength | src/components/FactCheck.tsx:42-51 | the claim section has five lines per claim and one per category |
| FactCheckView.ClaimBlockAt | src/components/FactCheck.tsx:42-43 | claim i is rendered once, as block number i+1, right after the blocks of the claims before it |
| FactCheckView.AssembleLayout | src/components/FactCheck.tsx:33-63 | the report is the header, the claim section, the recommendations and the sources, in this order, under their headings |
| FactCheckView.ReportHeader | src/components/FactCheck.tsx:33-40 | the report opens with its ten header lines and has fifteen fixed lines besides the sections |
| FactCheckView.HeaderLayout | src/components/FactCheck.tsx:33-37 | the banner comes first, then the score line '<n>/100', the upper-cased level and the summary |
| FactCheckView.ReportScoreReadBack | src/components/FactCheck.tsx:35 | the score line reads back, as its first digit run, as the score |
| FactCheckView.LevelNameLowerCase | src/components/FactCheck.tsx:36 | the three level names are lower case, so the upper-cased level line lower-cases back to the level |
| FactCheckView.HeaderReadBack | src/components/FactCheck.tsx:33-37 | lines opening with the header give back the score (when not negative), the level up to case and the summary verbatim |
| FactCheckView.LabelsHaveNoDigits | src/components/FactCheck.tsx:35-45 | the score and claim-confidence labels hold no digit, so the number after them is the line's first digit run |
| FactCheckView.AssembleBlockAt | src/components/FactCheck.tsx:42-50 | in any report assembled from a claim section, claim i's block lines sit right after the ten header lines and the blocks before it |
| FactCheckView.ReportBlockAt | src/components/FactCheck.tsx:33-50 | in the report's lines, claim i's block starts at line 10 plus the lengths of the blocks before it |
| FactCheckView.BlockLinesAt | src/components/FactCheck.tsx:43-50 | wherever a claim block sits, its lines are the numbered claim, 'Accuracy:' with the upper-cased value, 'Confidence: <n>/100', 'Explanation:', the category when present, and a blank line |
| FactCheckView.AssembleClaimAt | src/components/FactCheck.tsx:42-50 | the same line-by-line layout of claim i, in any assembled report |
| FactCheckView.ReportClaimAt | src/components/FactCheck.tsx:42-50 | the same line-by-line layout of claim i, in the report's lines |
| FactCheckView.FieldValue | src/components/FactCheck.tsx:44-48 | a value read after a label is exactly what follows that label on the line |
| FactCheckView.FieldValueOf | src/components/FactCheck.tsx:44-48 | a label followed by a text reads back as that text |
| FactCheckView.ClaimNumberReadBack | src/components/FactCheck.tsx:43 | a claim's first line reads back, as its first digit run, as the claim's number |
| FactCheckView.ClaimTextReadBack | src/components/FactCheck.tsx:43 | a claim's first line, after its number and the 'Claim: "' label, gives back the claim text verbatim and its closing quote |
| FactCheckView.BlockReadBack | src/components/FactCheck.tsx:43-49 | a block reads back as its claim: the number, the claim text verbatim, the accuracy up to case, the confidence when not negative, the explanation verbatim and the category when present |
| FactCheckView.ReadsBackAsExtend | src/components/FactCheck.tsx:42-63 | a block that reads back keeps doing so when more lines follow |
| FactCheckView.AssembleClaimReadBack | src/components/FactCheck.tsx:42-50 | claim i reads back from its place in any assembled report: number, claim text, accuracy up to case, confidence when not negative, explanation and category |
| FactCheckView.ReportClaimReadBack | src/components/FactCheck.tsx:42-50 | claim i reads back from its place in the report's lines: number, claim text, accuracy up to case, confidence when not negative, explanation and category |
| FactCheckView.NumberedAt | src/components/FactCheck.tsx:55-63 | a numbered list placed in a line list gives item k as '<k+1>. <item>' at its offset plus k |
| FactCheckView.AssembleHeadingsAt | src/components/FactCheck.tsx:53-60 | in any assembled report, the recommendations heading and rule follow the claims, and a blank line, the sources heading and rule follow the recommendations |
| FactCheckView.AssembleRecsAt | src/components/FactCheck.tsx:55-57 | in any assembled report, recommendation k is numbered k+1 right under the recommendations rule |
| FactCheckView.AssembleSourcesAt | src/components/FactCheck.tsx:61-63 | in any assembled report, source k is numbered k+1 right under the sources rule, and the sources end the report |
| FactCheckView.ReportHeadingsAt | src/components/FactCheck.tsx:53-60 | the report's length, and the places of the list headings, rules and separating blank line |
| FactCheckView.ReportListsAt | src/components/FactCheck.tsx:55-63 | the report's recommendations and sources, numbered from 1 in order, at their places |
| FactCheckView.OnOneLineAppend | src/components/FactCheck.tsx:33-63 | lines without a line break can be put together |
| FactCheckView.HeaderOnOneLine | src/components/FactCheck.tsx:33-40 | with a summary holding no line break, no header line holds one |
| FactCheckView.BlockOnOneLine | src/components/FactCheck.tsx:43-50 | with claim fields holding no line break, no block line holds one |
| FactCheckView.ClaimLinesOnOneLine | src/components/FactCheck.tsx:42-51 | with claim fields holding no line break, no line of the claim section holds one |
| FactCheckView.NumberedOnOneLine | src/components/FactCheck.tsx:55-63 | with items holding no line break, no numbered line holds one |
| FactCheckView.AssembleOnOneLine | src/components/FactCheck.tsx:33-63 | a report assembled from break-free parts has no line holding a break |
| FactCheckView.ReportSplit | src/components/FactCheck.tsx:33-63 | when no field holds a line break, splitting the exported text at '\n' gives its lines and one empty tail |
| FactCheckView.ReportTextHeaderReadBack | src/components/FactCheck.tsx:33-37 | for every report whose fields hold no line break, with or without claims, the exported text split at '\n' gives back the score (when not negative), the confidence level up to case and the summary |
| FactCheckView.ReportTextReadBack | src/components/FactCheck.tsx:33-63 | when no field holds a line break and the report has a claim i, the exported text split at '\n' gives back the header fields as above and claim i's fields at its place |
| FactCheckView.AccuracyTone | src/components/FactCheck.tsx:69-77 | the gray default is taken exactly when the lower-cased accuracy is none of the four values |
| FactCheckView.AccuracyColor | src/components/FactCheck.tsx:69-77 | the badge classes are those of one of the five colours |
| FactCheckView.AccuracyColorOfName | src/components/FactCheck.tsx:70-74 | each accuracy value, in lower or upper case, gets its own listed colour classes |
| FactCheckView.AccuracyColorIgnoresCase | src/components/FactCheck.tsx:70 | a string and its upper-case form get the same colour |
| FactCheckView.AccuracyColorsDistinct | src/components/FactCheck.tsx:71-74 | distinct accuracy values get distinct colours |
| FactCheckView.ConfidenceTone | src/components/FactCheck.tsx:79-83 | the confidence colour is always green, yellow or red |
| FactCheckView.ConfidenceColor | src/components/FactCheck.tsx:79-83 | the text colour is green, yellow or red |
| FactCheckView.ConfidenceBands | src/components/FactCheck.tsx:79-83 | green if and only if confidence ≥ 80, yellow if and only if 60..79, red if and only if below 60 |
| FactCheckView.ConfidenceColorMonotone | src/components/FactCheck.tsx:79-83 | a higher confidence never shows a more doubtful colour |
| FactCheckView.LevelScore | src/components/FactCheck.tsx:164-166 | the number for a confidence level lies in 0..100 |
| FactCheckView.LevelColor | src/components/FactCheck.tsx:164-167 | high (90) shows green, medium (70) yellow, low (40) red |
| FactCheckView.BadgeLabel | src/components/FactCheck.tsx:187 | the badge label is as long as the accuracy value |
| FactCheckView.BadgeLabelFirstUnderscore | src/components/FactCheck.tsx:187 | only the first '_' becomes a space; the parts around it are upper-cased |
| FactCheckView.BadgeLabelNoUnderscore | src/components/FactCheck.tsx:187 | a value without '_' is only upper-cased |
| FactCheckView.NeedsVerificationLabel | src/components/FactCheck.tsx:187 | 'needs_verification' becomes the upper-cased 'needs', a space and the upper-cased 'verification' |
| Summarizer.UpdateProgress | src/hooks/useSummarizer.ts:62-69 | a 'progress' update keeps the list's length |
| Summarizer.UpdateProgressAt | src/hooks/useSummarizer.ts:62-69 | item i gets the new progress if its file matches and is unchanged otherwise; order and other fields stay |
| Summarizer.UpdateProgressAbsent | src/hooks/useSummarizer.ts:62-69 | progress for a file nobody loads changes nothing |
| Summarizer.RemoveFile | src/hooks/useSummarizer.ts:105-107 | the 'done' filter never lengthens the list |
| Summarizer.RemoveFileMembers | src/hooks/useSummarizer.ts:105-107 | an item stays after 'done' exactly when it was there and belongs to another file |
| Summarizer.RemoveFileAppend | src/hooks/useSummarizer.ts:105-107 | 'done' filters piece by piece, so the kept items keep their order |
| Summarizer.RemoveFileAbsent | src/hooks/useSummarizer.ts:105-107 | a list without the file is kept whole |
| Summarizer.InitiateThenDone | src/hooks/useSummarizer.ts:89-107 | a file that starts loading and is then done leaves the rest of the list as it was |
| Summarizer.ErrorAlert | src/hooks/useSummarizer.ts:98-101 | the alert opens with the error's message and adds the fixed advice after it |
| Summarizer.SummarizerHook.constructor | src/hooks/useSummarizer.ts:45-49 | no summary, not busy, not loading, no progress items, the given settings, nothing posted and no alert |
| Summarizer.SummarizerHook.OnMessage | src/hooks/useSummarizer.ts:56-113 | per status: 'progress' maps, 'update' sets a busy summary, 'complete' a finished one and clears busy, 'initiate' appends and marks loading, 'ready' clears loading, 'error' clears busy and alerts, 'done' filters, anything else changes nothing |
| Summarizer.SummarizerHook.Start | src/hooks/useSummarizer.ts:129-145 | a whitespace-only text changes nothing; otherwise the summary is cleared, busy is set and exactly one request with the trimmed text and current settings is posted |
| Summarizer.SummarizerHook.SetModel | src/hooks/useSummarizer.ts:118 | only the model changes |
| Summarizer.SummarizerHook.SetQuantized | src/hooks/useSummarizer.ts:119-121 | only the quantized flag changes |
| Summarizer.SummarizerHook.SetMaxLength | src/hooks/useSummarizer.ts:122-124 | only the maximum length changes |
| Summarizer.SummarizerHook.SetMinLength | src/hooks/useSummarizer.ts:125-127 | only the minimum length changes |
| Summarizer.PostedTextTrimmed | src/hooks/useSummarizer.ts:131-136 | a posted text has no whitespace at either end and occurs in the input |
| FactChecker.ErrorText | src/hooks/useFactChecker.ts:100 | an Error's message, or the 'Unknown error…' text for anything else |
| FactChecker.StrictnessName | src/hooks/useFactChecker.ts:13 | the strictness names are lower case, as the union type 'low', 'medium' or 'high' is |
| FactChecker.FactCheckerHook.constructor | src/hooks/useFactChecker.ts:32-45 | idle, no results, no error, an empty key and no service |
| FactChecker.FactCheckerHook.SyncService | src/hooks/useFactChecker.ts:48-54 | afterwards a service exists if and only if the key is non-empty, built with that key |
| FactChecker.FactCheckerHook.BeginFactCheck | src/hooks/useFactChecker.ts:56-89 | an empty key sets only the key error; a key without a service sets only the service error; otherwise busy, no error, no results, and one call with the config's options |
| FactChecker.FactCheckerHook.CompleteFactCheck | src/hooks/useFactChecker.ts:91-101 | success stores the response and clears busy; failure stores the error text and clears busy |
| FactChecker.FactCheckerHook.StartFactCheck | src/hooks/useFactChecker.ts:56-103 | a call is made exactly when there are a key and a service; it ends idle with the response and no error, or the error and no results |
| FactChecker.FactCheckerHook.ClearResults | src/hooks/useFactChecker.ts:121-127 | results and error are cleared, busy is kept |
| FactChecker.FactCheckerHook.SetModel | src/hooks/useFactChecker.ts:105-107 | only the model changes |
| FactChecker.FactCheckerHook.SetStrictness | src/hooks/useFactChecker.ts:109-111 | only the strictness changes |
| FactChecker.FactCheckerHook.SetEnableSourceVerification | src/hooks/useFactChecker.ts:113-115 | only the source-verification flag changes |
| FactChecker.FactCheckerHook.SetOpenAIApiKey | src/hooks/useFactChecker.ts:117-119 | only the key changes |
| SummarizationWorker.Terminal | src/summarization-worker.js:47-51 | the closing message of a request closes it and has task 'summarization' |
| SummarizationWorker.TerminalCountAppend | src/summarization-worker.js:33-52 | closing messages can be counted piece by piece |
| SummarizationWorker.LoadingsNotTerminal | src/summarization-worker.js:80-82 | loading events never close a request |
| SummarizationWorker.OneTerminal | src/summarization-worker.js:44-51 | a request's loading events followed by its closing message hold one closing message |
| SummarizationWorker.RunOutput | src/summarization-worker.js:85-96 | a call gives an output exactly when it did not reject (`.catch` returns null) |
| SummarizationWorker.Pipeline.constructor | src/summarization-worker.js:23-26 | a pipeline is built for the task and the stored pair, with or without a progress callback, never disposed and never called |
| SummarizationWorker.Pipeline.Dispose | src/summarization-worker.js:74 | one more disposal is recorded and the calls stay |
| SummarizationWorker.Pipeline.Run | src/summarization-worker.js:85-96 | a call is recorded, and yields the summary or nothing on rejection |
| SummarizationWorker.Worker.GetInstance | src/summarization-worker.js:21-30 | a pipeline promise is built, with the callback, only when there is none, and cached however its load settles; otherwise the same instance is returned and nothing is posted |
| SummarizationWorker.Worker.constructor | src/summarization-worker.js:10-13 | a worker starts with no stored pair, no cached instance and nothing posted |
| SummarizationWorker.Worker.Summarize | src/summarization-worker.js:60-99 | the stored pair becomes the request's; the same pair reuses the loaded instance with no new loading events; a new pair disposes a loaded old instance once and builds a fresh one; the call uses the lengths and no sampling; a rejected call posts one error message; awaiting a rejected load throws and leaves it cached, with nothing posted |
| SummarizationWorker.Worker.HandleMessage | src/summarization-worker.js:33-52 | as written: a request posts its loading events and one closing message, 'complete' or 'error', unless the load rejects or a rejected load is cached, in which case none; the worker stays in that state for good |
| SummarizationWorker.Worker.Evict | src/summarization-worker.js:21-30 | (corrected) a cached rejected load is dropped, anything else is kept |
| SummarizationWorker.Worker.Close | src/summarization-worker.js:37-51 | (corrected) a thrown load error is posted as 'error' and dropped from the cache; an output is posted as 'complete'; a failed call adds nothing, as it already posted its error |
| SummarizationWorker.Worker.HandleMessageFixed | src/summarization-worker.js:33-99 | (corrected) every request posts its loading events and exactly one closing message, including the 'error' of a rejected load, and no rejected load stays cached |
| SummarizationWorker.RequestMessages | src/summarization-worker.js:44-51 | adding a request's messages adds exactly one closing message |
| SummarizationWorker.LoadingsOnly | src/summarization-worker.js:80-82 | a request that ends after its loading events adds no closing message |
| SummarizationWorker.FailedLoadSilencesWorker | src/summarization-worker.js:23-26 | as written, a first request whose load rejects and any second request give no closing message at all |
| SummarizationWorker.FixedWorkerRecovers | src/summarization-worker.js:33-99 | with the corrected listener the same two requests give two closing messages |
| SourceVerification.MergeConfig | src/services/SourceVerificationService.ts:18-24 | after the merge, engine, maximum and threshold are always present |
| SourceVerification.MergeConfigFields | src/services/SourceVerificationService.ts:19-23 | each given field wins; each missing one takes 'serper', 5 or 70 |
| SourceVerification.MergeConfigIdempotent | src/services/SourceVerificationService.ts:18-24 | merging twice is merging once |
| SourceVerification.CountMatches | src/services/SourceVerificationService.ts:174-179 | there are never more matches than query words |
| SourceVerification.RelevanceScore | src/services/SourceVerificationService.ts:170-182 | the score is always a percentage, 0..100 |
| SourceVerification.CalculateRelevanceScore | src/services/SourceVerificationService.ts:170-182 | the counting loop gives the exact score formula, always within 0..100 |
| SourceVerification.RoundedPercentSpec | src/services/SourceVerificationService.ts:181 | the rounded percentage lies within one half of 100·m/n |
| SourceVerification.RoundedPercentAtMost100 | src/services/SourceVerificationService.ts:181 | with no more matches than words the percentage is at most 100 |
| SourceVerification.RelevanceScoreBounds | src/services/SourceVerificationService.ts:181 | the score is in 0..100 and the `Math.min` never cuts it |
| SourceVerification.CountMatchesAll | src/services/SourceVerificationService.ts:175-179 | every query word matches exactly when the count is the number of words |
| SourceVerification.CountMatchesNone | src/services/SourceVerificationService.ts:175-179 | no query word matches exactly when the count is 0 |
| SourceVerification.CountMatchesAppend | src/services/SourceVerificationService.ts:175-179 | repeated query words are counted once per occurrence |
| SourceVerification.RelevanceAllMatch | src/services/SourceVerificationService.ts:170-182 | the score is 100 when every query word occurs among the snippet words |
| SourceVerification.RelevanceNoMatch | src/services/SourceVerificationService.ts:170-182 | the score is 0 when no query word does |
| SourceVerification.MockResults | src/services/SourceVerificationService.ts:56-96 | each group has two results, the more relevant first |
| SourceVerification.MockTopic | src/services/SourceVerificationService.ts:56-69 | the climate group only for a query naming climate or global warming, the covid group only for one naming covid or pandemic |
| SourceVerification.ClimateFirst | src/services/SourceVerificationService.ts:56 | a query naming climate or global warming gets the climate results, whatever else it names |
| SourceVerification.CovidTopic | src/services/SourceVerificationService.ts:56-69 | the covid results come exactly when the query names covid or pandemic and neither climate word |
| SourceVerification.SliceEnd | src/services/SourceVerificationService.ts:98 | `slice` never goes past the list |
| SourceVerification.MockSearch | src/services/SourceVerificationService.ts:49-99 | the search gives at most two results, a prefix of the canned group |
| SourceVerification.MockSearchShape | src/services/SourceVerificationService.ts:98 | the search keeps a prefix of the canned results: min(2, limit) of them, or the back dropped for a negative limit |
| SourceVerification.MockSearchZeroLimit | src/services/SourceVerificationService.ts:98 | a zero or missing maximum behaves as 5 and gives both results |
| SourceVerification.MockSearchOrdered | src/services/SourceVerificationService.ts:57-98 | the relevance of the results never increases |
| SourceVerification.SearchAndVerifyClaims | src/services/SourceVerificationService.ts:27-41 | the loop builds exactly the map of the searches in order |
| SourceVerification.ClaimsMap | src/services/SourceVerificationService.ts:27-41 | every key of the map is one of the claims |
| SourceVerification.ClaimsMapKeys | src/services/SourceVerificationService.ts:30-38 | one entry per distinct claim |
| SourceVerification.ClaimsMapLastWins | src/services/SourceVerificationService.ts:30-38 | a claim's entry is its last search's results, or none if that search threw |
| SourceVerification.ClaimsMapTotalSearch | src/services/SourceVerificationService.ts:43-47 | with a search that never throws, as the mock search, every claim maps to its own results |
| Text.TrimStartSpec | src/services/OpenAIService.ts:205 | the start of `trim` removes exactly a whitespace prefix, and what is left starts with another character |
| Text.TrimEndSpec | src/services/OpenAIService.ts:205 | the end of `trim` removes exactly a whitespace suffix, and what is left ends with another character |
| Text.TrimSpec | src/hooks/useSummarizer.ts:131 | `trim` leaves a piece of the text with no whitespace at either end |
| Text.LowerOfUpper | src/components/FactCheck.tsx:70 | lower-casing after upper-casing is lower-casing |
| Text.FirstDigitRunNone | src/services/OpenAIService.ts:208-209 | `/(\d+)/` fails exactly when the line has no digit |
| Text.NatToStringReadBack | src/components/FactCheck.tsx:35 | a rendered number between digit-free text reads back as that number |
| Text.SplitJoinLines | src/services/OpenAIService.ts:195 | a report written line by line splits at '\n' back into its lines and one empty tail |
| Text.SplitJoin | src/services/OpenAIService.ts:195 | splitting joined separator-free parts gives the parts back |
| Text.JoinSplit | src/services/OpenAIService.ts:195 | joining the parts of a split gives the text back |
| Text.ReplaceFirstAt | src/components/FactCheck.tsx:187 | `replace` of a character changes only its first occurrence |

## Left out

- Browser input and output are left out: the Blob download, `alert` display (modelled as a log of alert texts), the scroll effect, React rendering, memoization and the batching of state updates.
- Network calls are left out: `callOpenAI`, the HTTP call of `factCheckSummary`, `verifyClaimsAgainstSources` and `verifySingleClaimAgainstSource`. Their results enter as an `Outcome` parameter.
- The Transformers.js `pipeline` and its loading are replaced by an abstract `Pipeline` object. Its load outcome, its call outcome and its load events are parameters.
- The unhandled rejection a failed load raises in the worker is modelled only as the absence of a closing message.
- The worker transport (`new Worker`, `postMessage`) is a message log; concurrent or interleaved requests are not modelled.
- `startFactCheck` is modelled as two halves around its await (`BeginFactCheck`, `CompleteFactCheck`), plus the run with nothing in between (`StartFactCheck`). Other updates landing during the await are not modelled beyond that split.
- `verifyClaimWithSources` is left out because it uses `Math.random`.
- The `setTimeout` delay of `mockSearch` is left out.
- The commented-out search clients (src/services/SourceVerificationService.ts:121-168) are left out.
- `encodeURIComponent` is a function parameter `encode`; its own behaviour, including its throwing on lone surrogates, is not modelled.
- `searchWeb` is abstracted into one outcome per claim (results, or `None` for a thrown error); `ClaimsMapTotalSearch` covers the mock search, which never throws on well-formed strings.
- `SourceVerification.MockSearch`: written as a function because its two pushes are straight-line code with no loop.
- `SourceVerification.RoundedPercent`: `Math.round((m / n) * 100)` is modelled as exact half-up rounding, floor((200m + n) / (2n)); floating-point ties may round differently.
- Progress values are `real`, so floating-point effects are not modelled.
- `parseInt` precision beyond 2^53 is not modelled; scores are unbounded natural numbers.
- Trimming, whitespace and case mapping are ASCII only; Unicode whitespace and case folding are not modelled.
- `SourceVerification.MergeConfig`: an explicit `undefined` in the given configuration overrides the default in JavaScript's spread. The model cannot tell it from an absent field, so it keeps the default.
- `SourceVerification.ClaimsMap`: the insertion order of the JavaScript `Map` is not modelled, only its contents.
- `FactCheckView.NeedsVerificationLabel`: states the label as `ToUpper("needs") + " " + ToUpper("verification")`. It does not evaluate the literal 'NEEDS VERIFICATION', because that evaluation is too costly for the verifier.
- `OpenAIService.SystemPrompt` and `OpenAIService.UserPrompt`: the rubric's and the request's own wording is stored as constants; the lemmas state the layout, not the wording.
- The optional `suggested_sources` and `category` fields are never filled by the parser; they are modelled as `None`.
- `FactCheckView.ReportTextReadBack`: the text read-back is stated only for reports whose fields hold no line break. A field with a line break spreads over several lines of the text.
- `FactCheckView.ReportTextHeaderReadBack`: the same no-line-break condition applies to the header read-back.
- `FactCheckView.BlockReadBack`: a negative claim confidence renders with a minus sign, which the digit-run reading drops, so its read-back is stated for confidence ≥ 0 only. The same holds for the score in `FactCheckView.HeaderReadBack`.
- `FactCheckView.ReportTextReadBack`: the recommendations and sources are placed in the report's lines (`ReportListsAt`) but are not read back from the split text.
- The default settings of both hooks come from a constants module that is not part of this model; they enter as constructor parameters.
- The `SourceVerificationResult` type and `parseSourceVerificationResponse` belong to the left-out network path.
- src/App.tsx, src/components/Summary.tsx and vite.config.ts are not part of this model: they are UI wiring and build configuration.

## Findings

| source | as written | input that shows it | evidently intended | confidence | as-written member | corrected member |
|---|---|---|---|---|---|---|
| src/summarization-worker.js:23-37 | the promise of a rejected model load is cached at line 23 and rethrown by every later `await` (lines 74 and 80), so the listener at line 37 throws and posts neither 'complete' nor 'error', for this request and every later one | a first request whose model load rejects, then any second request, even one for another model | close the request with an 'error' message and drop the rejected promise so that the next request loads again | not executed | SummarizationWorker.FailedLoadSilencesWorker | SummarizationWorker.FixedWorkerRecovers |
