# IRMS risk engine in Dafny

IRMS takes a source file, a change request and a code-modifying language
model, and decides whether the change may go to release. The decision logic
lives in a small core, and this project models that core with proofs:

- **Risk engine** (`modules/risk_assessor.py`, module `RiskEngine`).
  - Four component risks in [0, 1]: complexity, change volume, critical
    keywords in the change descriptions, and issue severity.
  - Their weighted total on a 0-100 scale.
  - The PASS/WARN/BLOCK gate and the list of advisories.
  - The per-run store of assessments, folded into a project verdict where the
    most restrictive gate wins.
- **Configuration** (`config/settings.py`, module `Settings`): the weights,
  the gate thresholds and the complexity thresholds.
- **Change detector** (`modules/change_detector.py`, module
  `ChangeDetector`). It computes diff statistics from the diff library's
  opcodes and a one-line summary of a unified diff. It also keeps the store of
  change analyses and renders it as HTML and as a truncated text report.
- **AI engine** (`modules/ai_engine.py`, module `AiEngine`). This covers:
  - parsing of the model's structured reply (code, change list, explanation);
  - the error fallback;
  - the issue list put into the prompt;
  - the line-count impact summary.
- **Code analyzer** (`modules/code_analyzer.py`, module `CodeAnalyzer`):
  - complexity ranks and per-file complexity aggregation;
  - the maintainability-index fallback;
  - the store of per-file results and its summary.
- **Language registry** (`modules/language_registry.py`, module
  `LanguageRegistry`): the extension-to-handler table and the display names.
- **Line counts** (`utils/ast_helper.py`, module `AstHelper`): blank, comment
  and code lines.

Shared modules:

- `Text` holds Python string semantics on `seq<char>`: `in`, `find`, `split`,
  `join`, `strip`, `lower`, `startswith`/`endswith` and decimal formatting.
- `Numbers` holds sums, means and `round(x, 2)`, taken as round-half-even on
  exact reals.
- `OrderedKeys` holds dictionary insertion order: a key sequence beside a map,
  where overwriting a key keeps its position.
- `Issues` holds the issue record and its severity read as a closed
  enumeration.
- `Wrappers` holds `Option` and `Result`.

The three stores become classes: `RiskAssessor`, `ChangeDetector` and
`CodeAnalyzer`. Each has a map field and a key-order field that its methods
update. The loops modelled as methods with invariants, proved against the
functions that specify them, are:

- the opcode loop of `_calculate_diff_stats`;
- the HTML loop of `get_diff_html`;
- the block loop of `_analyze_complexity`;
- the issue loop of `_format_issues`;
- `_parse_ai_response`.

The keyword loop of `_assess_critical_function_risk` and the early-return
loop of `get_handler_for_file` are recursive functions instead.

Work done outside the core is passed in as parameters:

- the diff library's opcodes and unified-diff lines;
- the complexity library's blocks;
- the maintainability index, or the fact that it raised;
- the detected issues;
- the language model's reply, or the failure of the call.

Two behaviours of the code are worth knowing:

- `_assess_change_volume_risk` has no zero guard. When `original_lines` is 0
  it divides by zero and `assess_risk` raises (modules/risk_assessor.py:96-103).
  The model returns `Failure(DivisionByZero)` and stores nothing.
- The gate is decided on the unrounded total, and the stored score is that
  total rounded to cents. A file stored with score 30.00 can therefore PASS;
  see `RiskEngine.GateUsesUnroundedTotal`.

## Model

| member | source | states |
|---|---|---|
| Settings.RiskWeightsSumToOne | config/settings.py:30-35 | the four risk weights add up to 1, so the weighted total stays on the 0-100 scale |
| Settings.RiskWeightsInUnitInterval | config/settings.py:30-35 | every weight lies in [0, 1] |
| Settings.GateThresholdsAscend | config/settings.py:37-41 | 0 < PASS threshold < WARN threshold < BLOCK threshold |
| Settings.ComplexityThresholdsAscend | config/settings.py:23-27 | the low, medium and high complexity thresholds ascend |
| RiskEngine.ComplexityRisk | modules/risk_assessor.py:74-89 | result in [0, 1]; an average of 20 or more saturates it at 1; it is 0 exactly when the average and the high-complexity count are both 0 (absent keys read as 0) |
| RiskEngine.ComplexityRiskMonotone | modules/risk_assessor.py:79-89 | a higher average and a higher high-complexity count never lower the complexity risk |
| RiskEngine.ChangeVolumeRisk | modules/risk_assessor.py:91-103 | fails exactly when original_lines is 0 (an absent key reads as 1); otherwise the result is in [0, 1], is 1 exactly when total changes reach the original line count, and is 0 exactly when nothing changed |
| RiskEngine.ChangeVolumeRiskMonotone | modules/risk_assessor.py:96-103 | with the same original size, more changes never lower the change-volume risk |
| RiskEngine.MentionsAnyIff | modules/risk_assessor.py:118 | `any(keyword in text ...)` holds exactly when some keyword occurs in the text |
| RiskEngine.IsCriticalChangeIff | modules/risk_assessor.py:110-118 | a change description is critical exactly when one of the ten keywords occurs in its lower-cased text |
| RiskEngine.CountTrue | modules/risk_assessor.py:115-119 | the count of critical changes is at most the number of changes; it is 0 exactly when no flag is set and equals the length exactly when every flag is set |
| RiskEngine.CountCritical | modules/risk_assessor.py:115-119 | the number of change descriptions that are critical (one flag per description, in order), never more than the number of changes |
| RiskEngine.Share | modules/risk_assessor.py:121-125 | the critical share is 0 for no changes, lies in [0, 1], is 0 exactly when no change is critical, and for a non-empty list is 1 exactly when all are |
| RiskEngine.ShareGrows | modules/risk_assessor.py:121-125 | appending a critical change never lowers the share |
| RiskEngine.CriticalFunctionRisk | modules/risk_assessor.py:105-125 | result in [0, 1]; 0 exactly when no description is critical; for a non-empty list 1 exactly when every description is critical |
| RiskEngine.CriticalFunctionRiskMonotone | modules/risk_assessor.py:105-125 | appending a critical change description never lowers the critical-function risk |
| RiskEngine.SeverityWeight | modules/risk_assessor.py:137-146 | every severity, including a missing or unrecognised label (read as 0.2), weighs between 0.1 and 1.0 |
| RiskEngine.SeverityWeightOrdered | modules/risk_assessor.py:137-143 | the weights follow the order info < low < medium < high < critical |
| RiskEngine.TotalSeverity | modules/risk_assessor.py:145-148 | the severity sum over n issues lies between 0.1 n and n |
| RiskEngine.IssueSeverityRisk | modules/risk_assessor.py:127-153 | 0 with no issues; otherwise the mean severity weight, in [0.1, 1] |
| RiskEngine.UniformSeverityTotal | modules/risk_assessor.py:145-148 | n issues of one severity add up to n times its weight |
| RiskEngine.UniformSeverityRisk | modules/risk_assessor.py:145-153 | when all issues share one severity, the issue risk is exactly that severity's weight |
| RiskEngine.WeightedTotal | modules/risk_assessor.py:39-45 | components in [0, 1] give a total in [0, 100] |
| RiskEngine.WeightedTotalExtremes | modules/risk_assessor.py:39-45 | all components at 1 give 100; all at 0 give 0 |
| RiskEngine.WeightedTotalMonotone | modules/risk_assessor.py:39-45 | raising any component never lowers the total |
| RiskEngine.GateDecision | modules/risk_assessor.py:155-167 | PASS exactly below 30; BLOCK exactly from 70 on; WARN in between |
| RiskEngine.GateDecisionMonotone | modules/risk_assessor.py:155-167 | a higher score never gives a less restrictive gate |
| RiskEngine.GateBoundaries | modules/risk_assessor.py:162-167 | 29.999 passes and 30 warns; 69.999 warns and 70 blocks |
| RiskEngine.AdviceTextKey | modules/risk_assessor.py:177-206 | each advisory text is at least ten characters, with the characters at three fixed positions given by its kind |
| RiskEngine.AdviceTextInjective | modules/risk_assessor.py:177-206 | different advisories have different texts |
| RiskEngine.BandAdviceMatchesGate | modules/risk_assessor.py:180-185 | the first advisory's risk band (below 30 / below 70 / otherwise) is the one the gate decision names |
| RiskEngine.CountSerious | modules/risk_assessor.py:196-198 | the number of medium, high and critical issues is at most the number of issues, and is 0 exactly when none is one of those |
| RiskEngine.Recommendations | modules/risk_assessor.py:169-206 | one to six advisories; the first is the risk band; the rest come in the source's fixed order without repeats; RecommendationTriggers and IssueAdviceTrigger say when each appears |
| RiskEngine.RecommendationTriggers | modules/risk_assessor.py:187-204 | "refactor" appears iff complexity risk > 0.7; "split release" iff change-volume risk > 0.5; both testing advisories iff total > 40 |
| RiskEngine.IssueAdviceTrigger | modules/risk_assessor.py:195-199 | an "address n issues" advisory appears exactly when n medium/high/critical issues exist and n > 0 |
| RiskEngine.AdviceText | modules/risk_assessor.py:177-206 | the text of each advisory, the issue advisory carrying the number of serious issues; AdviceTextInjective shows distinct advisories have distinct texts |
| RiskEngine.RenderHas | modules/risk_assessor.py:177-206 | an advisory's text is in the rendered list exactly when the advisory is in the list |
| RiskEngine.RenderedTriggers | modules/risk_assessor.py:187-204 | the rendered texts contain the refactor, split-release and two testing advisories exactly when their thresholds are crossed |
| RiskEngine.ScoreComponents | modules/risk_assessor.py:33-37 | the four components lie in [0, 1] |
| RiskEngine.TotalRisk | modules/risk_assessor.py:39-45 | the weighted total lies in [0, 100] |
| RiskEngine.Assess | modules/risk_assessor.py:14-72 | fails exactly when original_lines is 0; otherwise it keeps the filename, gates on the unrounded total, stores that total rounded to cents (within 0.005 of it and inside [0, 100]), stores each component as a percentage rounded to cents, and stores the texts of all the advisories for the total and the components, in order, the first naming the band of its gate |
| RiskEngine.StoredAdviceTriggers | modules/risk_assessor.py:33-72 | in a stored assessment, the refactor text is present iff the complexity risk exceeds 0.7, the split-release text iff the change-volume risk exceeds 0.5, and both testing texts iff the total exceeds 40 |
| RiskEngine.GateUsesUnroundedTotal | modules/risk_assessor.py:40-60 | a concrete file whose total is 29.99595: its stored score is 30.00 but its gate is PASS |
| RiskEngine.CountGate | modules/risk_assessor.py:216-220 | a gate count is at most the number of files, and is 0 exactly when no file has that gate |
| RiskEngine.GateCountsPartition | modules/risk_assessor.py:216-220 | the PASS, WARN and BLOCK counts add up to the number of files |
| RiskEngine.AverageInRange | modules/risk_assessor.py:213-214 | the rounded mean of scores in [0, 100] lies in [0, 100] |
| RiskEngine.Summarize | modules/risk_assessor.py:208-235 | nothing for no files; otherwise it counts every file; the PASS, WARN and BLOCK counts are the number of files with each gate and partition them; the overall gate is at least as restrictive as every file's and is held by some file; the average is the mean of the stored scores rounded to cents and stays in [0, 100] |
| RiskEngine.StoredGates | modules/risk_assessor.py:213-220 | the key-ordered listing of the store meets a gate, or keeps scores in range, exactly when the store does |
| RiskEngine.RiskAssessor.constructor | modules/risk_assessor.py:11-12 | the store starts empty |
| RiskEngine.RiskAssessor.AssessRisk | modules/risk_assessor.py:14-72 | returns Assess; on success it stores the assessment under its filename (replacing an earlier one, keeping key order); on failure the store is unchanged |
| RiskEngine.RiskAssessor.GetOverallAssessment | modules/risk_assessor.py:208-235 | nothing for an empty store; otherwise, over the stored assessments in key order: every file is counted; each gate count is the number of files with that gate; BLOCK iff some file blocks; PASS iff every file passes; the average is the rounded mean of the stored scores and stays in [0, 100] |
| ChangeDetector.Added | modules/change_detector.py:85-87 | the lines added by `insert` opcodes are never negative for well-ordered opcodes |
| ChangeDetector.Deleted | modules/change_detector.py:85-89 | the lines deleted by `delete` opcodes are never negative for well-ordered opcodes |
| ChangeDetector.Modified | modules/change_detector.py:85-91 | the lines modified by `replace` opcodes are never negative for well-ordered opcodes |
| ChangeDetector.CalculateDiffStats | modules/change_detector.py:73-100 | the loop over the opcodes gives the line counts of both sides, the added, deleted and modified totals as defined over all opcodes, and their sum |
| ChangeDetector.TotalChangedBounds | modules/change_detector.py:85-99 | for opcodes that tile both sides, every count is non-negative and the total change lies between the size difference and the sum of both sizes |
| ChangeDetector.AllEqualNoChanges | modules/change_detector.py:85-91 | only `equal` opcodes give no additions, deletions or modifications |
| ChangeDetector.ClassifyAgreesWithSummary | modules/change_detector.py:107-129 | the HTML renderer colours a line as added (removed) exactly when the summary counts it as an addition (deletion) |
| ChangeDetector.CountAdditions | modules/change_detector.py:107 | at most one addition per diff line |
| ChangeDetector.CountDeletions | modules/change_detector.py:108 | at most one deletion per diff line |
| ChangeDetector.SummaryCountsAgree | modules/change_detector.py:107-129 | the summary's counts equal the number of lines the renderer marks added and removed, and together never exceed the diff's length |
| ChangeDetector.SummarizeChanges | modules/change_detector.py:102-113 | "No changes detected" exactly for an empty diff; otherwise the summary starts "Modified n diff lines: +" with n the diff's length, and ends "a additions, -d deletions" with the counts of CountAdditions and CountDeletions |
| ChangeDetector.Classify | modules/change_detector.py:124-133 | the kind of a diff line: file headers (`+++`, `---`) before added (`+`), removed (`-`) and hunk (`@@`) lines; ClassifyAgreesWithSummary ties it to the summary's counts |
| ChangeDetector.LineDivsStep | modules/change_detector.py:123-133 | rendering one more line appends exactly its div |
| ChangeDetector.HtmlLines | modules/change_detector.py:120-136 | the container's opening tag, then one div per diff line in order (the opening tag of the line's kind, the line itself, `</div>`), then the closing tag |
| ChangeDetector.PyPrefix | modules/change_detector.py:153 | Python's `xs[:n]` is a prefix of `xs`; a non-negative n keeps min(n, len) elements, a negative n drops min(-n, len) elements from the end |
| ChangeDetector.ReportText | modules/change_detector.py:153-157 | the first max_lines lines (Python slicing) joined by newlines, with the omitted-lines note when the diff is longer; see the two lemmas below |
| ChangeDetector.ReportTextUntruncated | modules/change_detector.py:153-154 | with at most max_lines lines, the report is the diff joined by newlines |
| ChangeDetector.ReportTextTruncated | modules/change_detector.py:153-157 | with more lines, the report is the first max_lines lines and then the omitted-lines note with the exact remaining count |
| ChangeDetector.ChangeDetector.constructor | modules/change_detector.py:12-13 | the store starts empty |
| ChangeDetector.ChangeDetector.DetectTextDiff | modules/change_detector.py:35-71 | returns an analysis that keeps the filename and the diff; has_changes holds iff the texts differ; its statistics are both line counts and the added, deleted, modified and total counts over the opcodes; it carries the summary and is stored under the filename in key order |
| ChangeDetector.ChangeDetector.GetAllChanges | modules/change_detector.py:138-140 | the whole store as it stands at the call |
| ChangeDetector.ChangeDetector.GetDiffHtml | modules/change_detector.py:115-136 | the no-changes paragraph for an unknown file; otherwise the HTML lines of its stored diff joined by newlines, each diff line put into its div unescaped |
| ChangeDetector.ChangeDetector.FormatDiffForReport | modules/change_detector.py:142-159 | "No changes detected" for an unknown file or an empty diff; otherwise the report of its stored diff, with a default limit of 50 lines |
| AiEngine.SectionAfterSpec | modules/ai_engine.py:179-180 | `split(m)[1]` is the text right after the first marker, up to the next marker or the end, and does not contain the marker |
| AiEngine.SectionAfterIsSplit | modules/ai_engine.py:180 | the section after a marker is exactly the second piece of Python's `split` on that marker, which always exists when the marker occurs |
| AiEngine.Before | modules/ai_engine.py:190 | `split(m)[0]` is a prefix of the text that does not contain the marker and stops at the end or at an occurrence of it |
| AiEngine.ExtractModifiedCode | modules/ai_engine.py:179-186 | the stripped text between the first fence after the MODIFIED CODE marker and the next fence, preferring the python fence; the original code otherwise (see the two lemmas below) |
| AiEngine.ModifiedCodeDefaults | modules/ai_engine.py:172-186 | without the MODIFIED CODE marker, or without any fence after it, the original code is kept |
| AiEngine.FencedCodeIsClean | modules/ai_engine.py:181-186 | the extracted code contains no fence and is already stripped |
| AiEngine.ChangeLines | modules/ai_engine.py:194-197 | keeps at most every line; each kept line is stripped and starts with a digit or `-` |
| AiEngine.ChangeLinesAppend | modules/ai_engine.py:194-197 | filtering distributes over concatenation |
| AiEngine.ChangeLinesIdempotent | modules/ai_engine.py:194-197 | filtering the kept lines again changes nothing |
| AiEngine.ExtractChanges | modules/ai_engine.py:188-197 | ChangeLines of the stripped section after the CHANGES MADE marker, cut at the EXPLANATION marker; no changes without the marker |
| AiEngine.ExtractExplanation | modules/ai_engine.py:199-204 | the stripped section after the EXPLANATION marker; the whole reply without it |
| AiEngine.ParseAiResponse | modules/ai_engine.py:170-206 | always succeeds; code, changes and explanation are the extracted sections; the defaults hold when a marker is missing (original code, no changes, the whole reply); every change line is a numbered or bulleted line |
| AiEngine.Fallback | modules/ai_engine.py:79-86 | unsuccessful, keeps the source, has no changes, and the explanation starts "Error during AI analysis: " |
| AiEngine.AnalyzeAndModify | modules/ai_engine.py:64-86 | fails, naming the issue, exactly when the issue list for the prompt cannot be formatted (it is formatted before the call and outside the fallback); otherwise succeeds exactly for a non-empty reply and then parses it, while an empty reply or a failed call gives the fallback with the matching message |
| AiEngine.FormatIssues | modules/ai_engine.py:156-168 | "No issues detected." for no issues; fails exactly when one of the first ten issues has no severity, and names that issue; otherwise gives the header, the first ten numbered lines and the "more" line |
| AiEngine.IssueLinesStep | modules/ai_engine.py:162-163 | one more loop step appends exactly the next numbered issue line |
| AiEngine.FormattedIssues | modules/ai_engine.py:159-166 | the header line, the first ten issues numbered from 1, and the "... and n more issues." line when there are more |
| AiEngine.FormattedIssuesLineCount | modules/ai_engine.py:161-166 | for messages without newlines the text has 1 + min(n, 10) lines, plus one when n > 10 |
| AiEngine.ChangePercentage | modules/ai_engine.py:220 | the rounded percentage is non-negative, within 0.005 of changed / original * 100, and 0 when nothing changed |
| AiEngine.GetImpactSummary | modules/ai_engine.py:208-224 | line counts are newline counts + 1, so never 0 and the division is always defined; lines changed is their absolute difference; the number of changes is the list's length; the percentage is ChangePercentage of those counts |
| CodeAnalyzer.RankOf | modules/code_analyzer.py:149-160 | A iff <= 5, B iff in (5, 10], C iff in (10, 20], D iff in (20, 30], F iff > 30 |
| CodeAnalyzer.RankLabelInjective | modules/code_analyzer.py:149-160 | different ranks have different labels |
| CodeAnalyzer.RankMonotone | modules/code_analyzer.py:149-160 | a higher complexity never gets a better rank |
| CodeAnalyzer.HighCount | modules/code_analyzer.py:83 | the number of functions with complexity above 10 |
| CodeAnalyzer.AverageOf | modules/code_analyzer.py:75-81 | the mean complexity rounded to cents, 0 without functions |
| CodeAnalyzer.HighCountBounds | modules/code_analyzer.py:83 | the high-complexity count is at most the number of functions; 0 exactly when none is above 10; all of them exactly when every one is |
| CodeAnalyzer.AverageWithin | modules/code_analyzer.py:75-81 | the rounded average lies within any whole-number bounds of the complexities |
| CodeAnalyzer.AverageNonNegative | modules/code_analyzer.py:75-81 | the rounded average is never negative |
| CodeAnalyzer.ComplexityOf | modules/code_analyzer.py:61-90 | the empty report when the library raises; otherwise one ranked entry per block in order, their rounded average and the count above 10 |
| CodeAnalyzer.AnalyzeComplexity | modules/code_analyzer.py:61-90 | the loop gives ComplexityOf, with high count <= number of functions and a non-negative average |
| CodeAnalyzer.MaintainabilityIndex | modules/code_analyzer.py:49-58 | a numeric index rounded to within 0.005; 0 when the library gives a non-number or raises |
| CodeAnalyzer.MaintainabilityWithin | modules/code_analyzer.py:49-58 | an index in [0, 100] stays in [0, 100] after rounding |
| CodeAnalyzer.CalculateMetrics | modules/code_analyzer.py:45-59 | the line counts are those of the source, and partition its lines; the index is within 0.005 of a numeric library answer and 0 when the library fails |
| CodeAnalyzer.TotalIssuesBounds | modules/code_analyzer.py:167-170 | every file's issues are part of the total; the total is 0 exactly when no file has issues |
| CodeAnalyzer.Summary | modules/code_analyzer.py:162-182 | nothing for no results; otherwise the file count, the total issues, the mean of the per-file complexity averages rounded to cents, and the file names in key order |
| CodeAnalyzer.SummaryAverageWithin | modules/code_analyzer.py:172-180 | the summary average lies within any whole-number bounds of the per-file averages |
| CodeAnalyzer.SummaryFacts | modules/code_analyzer.py:172-180 | non-negative per-file averages give a non-negative summary average |
| CodeAnalyzer.CodeAnalyzer.constructor | modules/code_analyzer.py:19-20 | the store starts empty |
| CodeAnalyzer.CodeAnalyzer.AnalyzeFile | modules/code_analyzer.py:22-43 | the result keeps the filename and issues and holds the metrics and complexity of the source; it is stored under the filename in key order |
| CodeAnalyzer.CodeAnalyzer.GetAnalysisSummary | modules/code_analyzer.py:162-182 | nothing for an empty store; otherwise, over the stored results in key order: it counts every file, lists the keys in insertion order, gives the total of their issues (each file's issues within it) and the rounded mean of their complexity averages, which is never negative |
| LanguageRegistry.FirstMatch | modules/language_registry.py:40-53 | nothing exactly when no registered extension ends the name; otherwise the handler of the first entry whose extension does |
| LanguageRegistry.GetHandlerForFile | modules/language_registry.py:40-53 | nothing exactly when no registered extension ends the name; otherwise the handler of a registered extension that does |
| LanguageRegistry.RegistryKeys | modules/language_registry.py:14-37 | the table has 15 entries, whose keys are the listed extensions in order |
| LanguageRegistry.GetSupportedExtensions | modules/language_registry.py:56-63 | the 15 keys in insertion order, all distinct, each a dot followed by a dot-free name |
| LanguageRegistry.IsSupportedFile | modules/language_registry.py:66-76 | true exactly when some registered extension ends the name |
| LanguageRegistry.LastDot | modules/language_registry.py:66-76 | the index of the last dot, or -1, with no dot after it |
| LanguageRegistry.EndsWithExtension | modules/language_registry.py:40-53 | an extension ends a name exactly when it is the name's part from its last dot on |
| LanguageRegistry.NoExtensionEndsAnother | modules/language_registry.py:14-37 | no registered extension ends a different one |
| LanguageRegistry.MatchIsUnique | modules/language_registry.py:40-53 | a name with a registered extension gets that extension's handler, whatever the table order |
| LanguageRegistry.SupportedIffRegisteredSuffix | modules/language_registry.py:66-76 | a file is supported exactly when its last-dot part is a registered extension |
| LanguageRegistry.NameChainSuffixes | modules/language_registry.py:79-106 | each `endswith` test of the name chain is a comparison of the last-dot part with one extension |
| LanguageRegistry.GetLanguageName | modules/language_registry.py:79-106 | the display name equals a lookup on the name's last-dot part alone |
| LanguageRegistry.UnknownIffUnsupported | modules/language_registry.py:66-106 | "Unknown" is shown exactly for files no handler takes |
| LanguageRegistry.HandlerAgreesWithName | modules/language_registry.py:40-106 | a supported file's display name is one of its handler's languages |
| AstHelper.IsBlank | utils/ast_helper.py:122 | a line made of whitespace only |
| AstHelper.IsComment | utils/ast_helper.py:123 | a line whose first character after leading whitespace is `#` |
| AstHelper.BlankIffStripEmpty | utils/ast_helper.py:122 | a line is blank exactly when `strip()` leaves nothing |
| AstHelper.CommentIffStrippedHash | utils/ast_helper.py:123 | a line is a comment exactly when its stripped text starts with `#` |
| AstHelper.BlankIsNotComment | utils/ast_helper.py:122-124 | no line is both blank and a comment |
| AstHelper.ClassesPartition | utils/ast_helper.py:121-124 | the blank, comment and code counts add up to the number of lines |
| AstHelper.CountLinesOfCode | utils/ast_helper.py:109-131 | total is the number of newlines + 1; blank and comment counts are the lines of each class; `code` equals the number of code lines, is never negative, and the three add up to the total |
| Text.Split | utils/ast_helper.py:119 | Python's `str.split(sep)`: at least one piece; JoinSplit, SplitPieceFree and SplitCountsChar give its meaning |
| Text.JoinSplit | modules/ai_engine.py:180 | joining the pieces of a split with the separator gives the text back |
| Text.SplitPieceFree | modules/ai_engine.py:180 | no piece of a split contains the separator |
| Text.SplitCountsChar | modules/ai_engine.py:215-216 | splitting on one character gives one piece more than the number of its occurrences |
| Text.Strip | utils/ast_helper.py:122 | Python's `str.strip()` on ASCII whitespace: no longer than the text, neither starting nor ending with whitespace |
| Text.StripEmptyIff | utils/ast_helper.py:122 | stripping leaves nothing exactly when the text is all whitespace |
| Text.StripIdempotent | modules/ai_engine.py:195 | stripping twice is stripping once |
| Text.StripKeepsAbsence | modules/ai_engine.py:183 | stripping never creates an occurrence of a pattern |
| Text.Lower | modules/risk_assessor.py:117 | Python's `str.lower()` on ASCII letters: same length, each character lowered |
| Issues.ParseSeverity | modules/risk_assessor.py:146 | a missing key reads as Missing; a label outside the five known ones reads as Unrecognized |
| Issues.ParseSeverityRoundTrip | modules/risk_assessor.py:146 | reading a label and writing it back gives the label unchanged |

## Left out

- Reading files, walking directories, ingestion, the app and the command-line entry points: I/O outside the core.
- `detect_changes` only forwards to `detect_text_diff`, which is modelled.
- The diff library itself. `SequenceMatcher` opcodes, `splitlines` results and `unified_diff` lines are inputs to `ChangeDetector.ChangeDetector.DetectTextDiff`, which does not check that they belong to the two texts.
- The complexity and maintainability libraries (`cc_visit`, `mi_visit`). Their answers are inputs, and a raising call is an explicit case.
- `_detect_issues`, `_analyze_structure` and the AST walkers of `utils/ast_helper.py`. They work on the Python syntax tree, so the detected issues are an input and the structure section is not part of `FileAnalysis`.
- The language handlers themselves. A handler is one of four names.
- The language model: API key set-up, the client object and `generate_content`. The model's reply is a parameter that holds either the text or the failure message.
- `_build_analysis_prompt` beyond its issue list. The prompt also fills in the filename, the user query (twice), the source, the average complexity, the maintainability index, the issue count and the documentation context. The model keeps only the step that can fail, `_format_issues`, which runs before the model call and outside its `try`. Every issue producer of the repository sets a severity, so that failure is not reached by the application today.
- The `print` of the error in `analyze_and_modify`.
- Floating point. Scores, weights and averages are exact reals, and `round(x, 2)` rounds half to even on the exact value, so ties that binary floats would place off the tie are not modelled.
- `str.strip`, `str.lower` and `str.isdigit` cover ASCII whitespace, letters and digits only.
- The `try`/bare `except` around the split in `_parse_ai_response` never fires, because `split(...)[0]` always exists. The model keeps only the normal path.
- GetAllChanges: `self.changes.copy()` is a shallow copy, so the caller shares the nested analysis dictionaries with the store and could change them in place. The model's analyses are immutable values, so this aliasing is not captured.
- HTML escaping: a diff line goes into its `<div>` verbatim, as in the code; the model states this, and does not model what a browser makes of it.
- Unknown dictionary shapes: the model types each report field. An absent key is modelled where the source reads one with `.get` and a default, and is otherwise outside the model.
