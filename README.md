# Local AI service: a Dafny model of its deterministic core

This project models the decision and text-processing logic of the Python
"local AI service" (`local-ai-service/services`). The ML, operating-system and
network calls around that logic become inputs. The model covers five services:

- **Code generator.** It picks a prompt template by language and a generation
  profile by temperature. It post-processes generated code: trimming, a Python
  re-indenter that carries an indent counter, and a C-style semicolon fixer.
- **Code analyzer.** It computes line, comment and keyword metrics with a clamped
  maintainability score. It builds the pattern-result table and applies the
  language-specific suggestion rules. It ranks suggestions with a stable sort by
  `(priority == "high", confidence)` and keeps the first ten.
- **Health checker.** It applies threshold rules to the system sample, the model
  listing and the resource report, and ranks the four section statuses into one
  overall status. It derives recommendations from the sections and keeps a
  history bounded at 100 reports. The checker computes the performance section
  as the source writes it, reading the CPU temperature under the key
  "temperature". A corrected check, which reads the key the resource report
  actually uses, is modelled beside it (see "## Findings").
- **Performance monitor.** It keeps a history of samples bounded at 1000, serves a
  projected view of that history, and builds the health summary of a sample,
  including its trends.
- **Model manager.** It holds the registry of configured models as mutable records
  (`ModelInfo`) with load, unload, download, list, get and cleanup transitions.
  "Downloaded" is a set of ids and the outcome of the foreign loader is a parameter.

Files:

- `wrappers.dfy`: `Option`.
- `text.dfy`: the pieces of Python's `str` the service relies on (`isspace`, `strip`,
  `split('\n')`, `'\n'.join`, `lower`, `startswith`, `endswith`, `in`).
- `bounded.dfy`: append-and-truncate and Python's `h[-n:]` slicing.
- `status_rules.dfy`: the "each firing check overwrites the status and appends an
  issue" pattern that every health check follows.
- One file per service: `code_generator.dfy`, `code_analyzer.dfy`,
  `health_checker.dfy`, `performance_monitor.dfy`, `model_manager.dfy`.

Loops in the source are methods with loop invariants, proved against a
specification function. Objects whose fields the source updates are classes:
`PerformanceMonitor.Monitor`, `HealthChecker.Checker`, `ModelManager.ModelInfo`
and `ModelManager.Manager`.

## Model

All source paths are under `local-ai-service/services/`; the table abbreviates them to the file name.

| member | source | states |
|---|---|---|
| CodeGenerator.TemplateFor | local-ai-service/services/code_generator.py:193-200 | A known lower-cased language gets its own template. The generic "// Code Generation" title appears exactly when the language is absent or unknown, and then the whole template is the generic one. |
| CodeGenerator.FormatPrompt | local-ai-service/services/code_generator.py:140-202 | The formatted prompt opens with the chosen template's title line and contains "Task: " followed by the prompt verbatim. |
| CodeGenerator.RenderHolds | local-ai-service/services/code_generator.py:202 | Any filled template opens with its title line and contains the task text. |
| CodeGenerator.RenderLines | local-ai-service/services/code_generator.py:140-202 | Any template filled with a one-line prompt splits into its title, its task line, its footer and an empty piece after the final newline. |
| CodeGenerator.FormatPromptLines | local-ai-service/services/code_generator.py:140-202 | A one-line prompt yields exactly three newline-terminated lines. The second line contains "Task: " followed by the prompt verbatim. |
| CodeGenerator.TaskLineHoldsPrompt | local-ai-service/services/code_generator.py:202 | The task line of every template contains "Task: " followed by the prompt. |
| CodeGenerator.SelectProfile | local-ai-service/services/code_generator.py:208-213 | The profile is creative iff the temperature is truthy and at least 0.8. It is precise iff the temperature is truthy and at most 0.4. It is default otherwise, including for None and 0. |
| CodeGenerator.GetGenerationConfig | local-ai-service/services/code_generator.py:216-226 | `max_length` is the argument. The temperature is the caller's when truthy and the profile's otherwise. Every other field is copied from the selected profile. |
| CodeGenerator.FalsyTemperatureUsesDefault | local-ai-service/services/code_generator.py:208-218 | A missing or zero temperature gives the default profile with temperature 0.7. |
| CodeGenerator.Trimmed | local-ai-service/services/code_generator.py:234-243 | Before any language fix the text is empty exactly when the input is blank, and is the stripped input plus "\n" otherwise. |
| CodeGenerator.FixFor | local-ai-service/services/code_generator.py:246-253 | "python" (in any case) selects the re-indenter. "javascript", "java" and "cpp" select the C-style fixer. Every other language selects no fix. |
| CodeGenerator.LastLineNotBlank | local-ai-service/services/code_generator.py:237-239 | For stripped, non-empty text the last line is not blank, so the trailing-line loop removes nothing. |
| CodeGenerator.TrimmedJoin | local-ai-service/services/code_generator.py:237-243 | Splitting the stripped text and joining it back with a final newline gives the trimmed text. |
| CodeGenerator.PostProcessCode | local-ai-service/services/code_generator.py:230-255 | The result is the selected language fix applied to `Trimmed(code)`. |
| CodeGenerator.EmitLevel | local-ai-service/services/code_generator.py:270-272 | A dedent line is written 4 further out, never below 0. Any other line keeps the running indent. A multiple of 4 stays a multiple of 4. |
| CodeGenerator.LevelAfter | local-ai-service/services/code_generator.py:278-279 | A trailing ':' raises the running indent by 4 after the line. A multiple of 4 stays a multiple of 4. |
| CodeGenerator.IndentStep | local-ai-service/services/code_generator.py:263-279 | One line of the re-indenter keeps the running indent a multiple of 4. |
| CodeGenerator.Indent | local-ai-service/services/code_generator.py:257-281 | The re-indenter writes one line per input line and keeps the running indent a multiple of 4. |
| CodeGenerator.FixPythonIndentation | local-ai-service/services/code_generator.py:257-281 | The loop carrying `indent_level` computes `PythonIndented(code)`. |
| CodeGenerator.IndentAt | local-ai-service/services/code_generator.py:263-279 | A blank line i becomes "". Any other line i is `EmitLevel` spaces followed by its stripped text, where the indent reached before it is a multiple of 4. The dedent applies before the line is written and the ':' raise applies after. |
| CodeGenerator.IndentAtStep | local-ai-service/services/code_generator.py:263-279 | Output line i is the step taken on input line i from the indent reached before it. |
| CodeGenerator.IndentPrefix | local-ai-service/services/code_generator.py:263-276 | Re-indenting a prefix of the lines gives the same prefix of the output. |
| CodeGenerator.IndentNoNewlines | local-ai-service/services/code_generator.py:264-275 | Re-indenting never introduces a line break. |
| CodeGenerator.IndentStepStable | local-ai-service/services/code_generator.py:264-279 | A re-indented line re-indents to itself, with the same running indent after it. |
| CodeGenerator.IndentStable | local-ai-service/services/code_generator.py:257-281 | Re-indenting re-indented lines changes nothing, running indent included. |
| CodeGenerator.PythonIndentedLines | local-ai-service/services/code_generator.py:257-281 | The re-indented text has as many lines as the input, line k is re-indented line k, and re-indenting twice equals re-indenting once. |
| CodeGenerator.FixCLines | local-ai-service/services/code_generator.py:288-299 | One fixed line per input line, each fixed independently. |
| CodeGenerator.FixCStyleSyntax | local-ai-service/services/code_generator.py:283-301 | The loop appending to `fixed_lines` computes `CStyleFixed(code)`. |
| CodeGenerator.FixCLineBlank | local-ai-service/services/code_generator.py:289-292 | A fixed line is empty exactly when the input line is blank. |
| CodeGenerator.FixCLineForm | local-ai-service/services/code_generator.py:294-299 | A non-empty fixed line is stripped, and either ends in one of `{ } ; :` or starts with one of the six control prefixes. |
| CodeGenerator.FixCLineNoNewline | local-ai-service/services/code_generator.py:289-299 | Fixing a line never introduces a line break. |
| CodeGenerator.FixCLineShape | local-ai-service/services/code_generator.py:288-299 | Combines the three facts above for one line. |
| CodeGenerator.SemicolonTerminates | local-ai-service/services/code_generator.py:295-297 | A line that was given a semicolon ends in a terminator. |
| CodeGenerator.FixCLineStable | local-ai-service/services/code_generator.py:288-299 | Fixing a fixed line changes nothing. |
| CodeGenerator.FixCLinesShape | local-ai-service/services/code_generator.py:288-299 | Fixed lines of newline-free input are newline-free, and every non-empty one is well formed. |
| CodeGenerator.FixCLinesStable | local-ai-service/services/code_generator.py:288-299 | Fixing fixed lines changes nothing. |
| CodeGenerator.CStyleFixedLines | local-ai-service/services/code_generator.py:283-301 | The fixer keeps the line count. Every non-blank output line is stripped and terminated, or opens a control statement. Applying the fixer twice equals applying it once. |
| CodeAnalyzer.NonEmptyLinesMembers | local-ai-service/services/code_analyzer.py:122-126 | A line is a line of code iff it is a line of the input whose `strip()` is non-empty. |
| CodeAnalyzer.CollectNonEmpty | local-ai-service/services/code_analyzer.py:123 | The comprehension's result is the non-blank lines, in order. |
| CodeAnalyzer.CountComments | local-ai-service/services/code_analyzer.py:128-133 | The counter is the number of lines whose stripped text starts with one of the seven comment markers. |
| CodeAnalyzer.CountKeywords | local-ai-service/services/code_analyzer.py:139-141 | The inner loop adds one for each complexity keyword found in the lower-cased line. |
| CodeAnalyzer.CountComplexity | local-ai-service/services/code_analyzer.py:136-141 | The complexity is the keyword hits summed over the lines of code. |
| CodeAnalyzer.CalculateBasicMetrics | local-ai-service/services/code_analyzer.py:119-152 | Lines of code, comment lines, complexity, comment ratio and maintainability are each the corresponding specification function of the split text. |
| CodeAnalyzer.KeywordHits | local-ai-service/services/code_analyzer.py:139-141 | A line scores at most one point per keyword. |
| CodeAnalyzer.CommentRatio | local-ai-service/services/code_analyzer.py:149 | `comment_lines / max(1, loc)` is non-negative, at most 1 when there are no more comments than lines, and 0 when there are no comments. |
| CodeAnalyzer.Maintainability | local-ai-service/services/code_analyzer.py:144 | The score always lies in [0, 100]. It equals `100 - 2*complexity - loc/100` whenever that value is in the range, and is 0 below it. |
| CodeAnalyzer.CommentNotBlank | local-ai-service/services/code_analyzer.py:131-132 | A comment line is not blank. |
| CodeAnalyzer.CommentLinesBounded | local-ai-service/services/code_analyzer.py:123-133 | There are never more comment lines than lines of code. |
| CodeAnalyzer.ComplexityBounded | local-ai-service/services/code_analyzer.py:136-141 | The complexity is at most 10 per line of code. |
| CodeAnalyzer.MetricsBounds | local-ai-service/services/code_analyzer.py:119-152 | For any text the comment ratio lies in [0, 1] and is 0 without lines of code, and the complexity is at most 10 times the lines of code. |
| CodeAnalyzer.AnalyzeWithPatterns | local-ai-service/services/code_analyzer.py:154-164 | The result holds exactly the pattern names with a non-empty match list, each mapped to its matches. |
| CodeAnalyzer.LanguageSuggestions | local-ai-service/services/code_analyzer.py:306-339 | At most one suggestion, always of high priority, and none outside the three cases below. It is error handling iff the language is python with a bare `except`, security iff javascript with `eval`, and memory management iff cpp with a leak. |
| CodeAnalyzer.CollectedRules | local-ai-service/services/code_analyzer.py:275-299 | The model's own suggestions all carry confidence 0.75, so none equals a rule suggestion. Refactoring is suggested iff the maintainability score (100 when missing) is below 70, and documentation iff the comment ratio (0 when missing) is below 0.1. |
| CodeAnalyzer.CollectSuggestions | local-ai-service/services/code_analyzer.py:272-299 | The list is the rule, language and model suggestions, in that order. |
| CodeAnalyzer.Insert | local-ai-service/services/code_analyzer.py:302 | One insertion step of the sort adds exactly one element. |
| CodeAnalyzer.InsertPermutes | local-ai-service/services/code_analyzer.py:302 | Insertion adds the element to the multiset and nothing else. |
| CodeAnalyzer.InsertSorted | local-ai-service/services/code_analyzer.py:302 | Insertion into a sorted list keeps it sorted, and the head stays in place when the new element does not outrank it. |
| CodeAnalyzer.SortDesc | local-ai-service/services/code_analyzer.py:302 | The sort keeps the length. |
| CodeAnalyzer.SortDescCorrect | local-ai-service/services/code_analyzer.py:302 | The sort is a permutation ordered by non-increasing `(priority == "high", confidence)`, so every high item comes before the others. |
| CodeAnalyzer.WithKeyAppend | local-ai-service/services/code_analyzer.py:302 | Selecting the elements with one key distributes over concatenation. |
| CodeAnalyzer.OutrankedHasOtherKey | local-ai-service/services/code_analyzer.py:302 | No element of a sorted list outranked by x shares x's key. |
| CodeAnalyzer.InsertStable | local-ai-service/services/code_analyzer.py:302 | Insertion places x after every element with its key. |
| CodeAnalyzer.SortDescStable | local-ai-service/services/code_analyzer.py:302 | The sort is stable: elements with equal keys keep their insertion order. |
| CodeAnalyzer.StableStep | local-ai-service/services/code_analyzer.py:302 | Stability on a list extends to the list with one more element. |
| CodeAnalyzer.RankedPrefix | local-ai-service/services/code_analyzer.py:302-304 | The kept suggestions are the first min(10, n) of the ranking, sorted, and drawn from the collected ones. |
| CodeAnalyzer.PrefixSorted | local-ai-service/services/code_analyzer.py:304 | A prefix of a sorted list is sorted and holds a sub-multiset of its elements. |
| CodeAnalyzer.GenerateSuggestions | local-ai-service/services/code_analyzer.py:263-304 | min(10, n) suggestions, where n is the number collected. They are the front of `SortDesc` of all collected suggestions, so they are sorted by rank and drawn from the collected ones. `SortDescCorrect` and `SortDescStable` prove `SortDesc` a stable sort. |
| Text.LStrip | local-ai-service/services/code_generator.py:234 | `lstrip()` is a suffix that does not start with whitespace, and is empty iff the text is blank. Whitespace is Python's `isspace` set. |
| Text.RStrip | local-ai-service/services/code_generator.py:234 | `rstrip()` is a prefix that does not end with whitespace, and is empty iff the text is blank. |
| Text.Strip | local-ai-service/services/code_generator.py:234 | `strip()` is empty iff the text is blank. Otherwise it has no whitespace at either end. It is never longer than the text. |
| Text.LStripDropsBlank | local-ai-service/services/code_generator.py:234 | The prefix `lstrip()` removes is all whitespace. |
| Text.RStripDropsBlank | local-ai-service/services/code_generator.py:234 | The suffix `rstrip()` removes is all whitespace. |
| Text.StripIsBlankTrimmed | local-ai-service/services/code_generator.py:234 | `strip()` is a contiguous slice of the text, and everything before and after that slice is whitespace. |
| Text.StripChars | local-ai-service/services/code_generator.py:234 | `strip()` only removes characters. |
| Text.StripIndented | local-ai-service/services/code_generator.py:264-275 | Stripping an indented stripped line gives the line back. |
| Text.Spaces | local-ai-service/services/code_generator.py:275 | `' ' * n` is n spaces. |
| Text.Split | local-ai-service/services/code_analyzer.py:122 | `split('\n')` gives at least one piece, and no piece contains a newline. |
| Text.JoinSplit | local-ai-service/services/code_generator.py:237-243 | Joining the pieces of a split with newlines gives the text back. |
| Text.SplitJoin | local-ai-service/services/code_generator.py:281 | Splitting a join of newline-free pieces gives the pieces back. |
| Text.SplitLast | local-ai-service/services/code_generator.py:237-239 | The last piece of a split of text not ending in a newline is non-empty and ends with the text's last character. |
| Text.StartsWithAnyIff | local-ai-service/services/code_generator.py:296 | `s.startswith(tuple)` holds iff some prefix in the tuple starts `s`. |
| Text.EndsWithAnyIff | local-ai-service/services/code_generator.py:295 | `s.endswith(tuple)` holds iff some suffix in the tuple ends `s`. |
| Text.LowerChar | local-ai-service/services/code_generator.py:247 | `lower()` on one character maps A-Z to a-z and keeps every other character. |
| Text.ToLower | local-ai-service/services/code_generator.py:247 | `lower()` keeps the length and lowers each character. |
| Bounded.AppendBounded | local-ai-service/services/health_checker.py:64-67 | Appending to a bounded history and truncating keeps the bound and puts the new entry last. When the history was full exactly the oldest entry is dropped. |
| Bounded.Recent | local-ai-service/services/health_checker.py:399-404 | `history[-limit:] if limit else history` is a suffix of the history: the last `limit` entries for a positive limit, all of them for None or 0, and Python's slice for a negative limit. |
| StatusRules.Issues | local-ai-service/services/health_checker.py:88-118 | No more issues than checks. |
| StatusRules.IssuesCount | local-ai-service/services/health_checker.py:88-118 | One issue per firing check, and no issue iff no check fires. |
| StatusRules.IssuesMembers | local-ai-service/services/health_checker.py:88-118 | An issue is reported iff a check that fired carries it. |
| StatusRules.FinalStatusNoneFired | local-ai-service/services/health_checker.py:88 | With no check firing the initial status stays. |
| StatusRules.FinalStatusLastFired | local-ai-service/services/health_checker.py:88-118 | The status is that of the last check that fired. |
| StatusRules.RulesSnoc | local-ai-service/services/health_checker.py:91-118 | Each further check appends its issue when it fires and replaces the status. |
| HealthChecker.SystemSection | local-ai-service/services/health_checker.py:88-118 | The section is healthy iff no check fired, and otherwise warning or critical, with at most 4 issues. |
| HealthChecker.SystemIssuesInOrder | local-ai-service/services/health_checker.py:88-118 | At most one issue per resource, in the order CPU, memory, disk, process count, with the critical tier taking precedence over the warning tier. |
| HealthChecker.SystemStatusLastWins | local-ai-service/services/health_checker.py:88-118 | The status is set by the last check that fired, so a later warning overrides an earlier critical. |
| HealthChecker.CheckSystemHealth | local-ai-service/services/health_checker.py:81-118 | The step-by-step checks build `SystemSection(metrics)`. |
| HealthChecker.SystemHealthFacts | local-ai-service/services/health_checker.py:88-118 | A critical CPU with a memory warning ends at "warning" while still reporting "Critical CPU usage". |
| HealthChecker.LoadedCount | local-ai-service/services/health_checker.py:157-172 | `healthy_models` never exceeds the number of models. |
| HealthChecker.LoadedCountMeaning | local-ai-service/services/health_checker.py:160-172 | The count is 0 iff no entry is "loaded", and equals the total iff every entry is. |
| HealthChecker.ErrorSeenMeaning | local-ai-service/services/health_checker.py:173-175 | The error flag is set iff some entry is in "error". |
| HealthChecker.HealthPercentage | local-ai-service/services/health_checker.py:197 | The percentage lies in [0, 100]. For a non-empty listing it is 100 iff all models are loaded, and below 50 iff `healthy < total * 0.5`. |
| HealthChecker.DetailsKeys | local-ai-service/services/health_checker.py:160-169 | The details dictionary has exactly one key per listed model id. |
| HealthChecker.ModelSectionOf | local-ai-service/services/health_checker.py:153-199 | The status is not_available iff the listing is empty, and otherwise critical, warning or healthy. The details are keyed by the listed ids. The summary counts all listed models and at most as many loaded ones. |
| HealthChecker.ModelHealthSection | local-ai-service/services/health_checker.py:140-199 | Without a manager the section is not_available, with the single issue "Model manager not available" and no models. A degraded section always carries a summary. |
| HealthChecker.WalkListing | local-ai-service/services/health_checker.py:157-177 | The loop's counter, status, issues and details are the specification functions of the listing. |
| HealthChecker.CheckModelHealth | local-ai-service/services/health_checker.py:140-199 | The listing walk, the closing checks and the percentage build `ModelHealthSection(models)`. That function also covers the "not_available" section for a missing manager. Its statuses are characterised by `ModelStatusMeaning`. |
| HealthChecker.ModelSnoc | local-ai-service/services/health_checker.py:160-177 | Each entry adds to the count, the error flag, the issues and the details as the loop body does. |
| HealthChecker.ModelStatusMeaning | local-ai-service/services/health_checker.py:157-188 | The status is not_available iff there are no models, critical iff none is loaded, warning iff some are loaded but fewer than half or one is in error, and healthy otherwise. |
| HealthChecker.ListingHasNoErrors | local-ai-service/services/health_checker.py:171-177 | A listing whose statuses come from the model manager never takes the error branch. |
| HealthChecker.PerformanceIssuesInOrder | local-ai-service/services/health_checker.py:217-239 | One issue per firing check (temperature, memory pressure, disk) in that order. The status is warning iff one fires. |
| HealthChecker.PerformanceSectionWith | local-ai-service/services/health_checker.py:217-239 | For any temperature reading the section is healthy iff no check fired, and warning otherwise, with at most 3 issues. |
| HealthChecker.AssessPerformance | local-ai-service/services/health_checker.py:217-239 | The step-by-step checks build `PerformanceSectionWith` for the given temperature reading. |
| HealthChecker.CheckPerformanceHealthAsWritten | local-ai-service/services/health_checker.py:210-239 | The check as written: it builds `PerformanceSectionAsWritten`, reading the temperature under the key "temperature". |
| HealthChecker.CheckPerformanceHealth | local-ai-service/services/health_checker.py:210-239 | The corrected check: it builds `PerformanceSection`, reading the temperature under `cpu_temperature`, the key the resource report uses. |
| HealthChecker.PerformanceHealthFacts | local-ai-service/services/health_checker.py:217-239 | Under the corrected key: warning iff the CPU is above 80 degrees, memory above 85 or disk above 90. Healthy iff there are no issues. At most 3 issues. |
| HealthChecker.TemperatureKeyMismatch | local-ai-service/services/health_checker.py:220-225 | As written the temperature lookup never finds a reading in the monitor's report. A 95-degree reading leaves that section "healthy", while the corrected lookup gives "warning". |
| HealthChecker.MonitorReportAsWritten | local-ai-service/services/health_checker.py:220-239 | As written, a report from the performance monitor is judged on memory and disk alone: the issues are the memory-pressure and disk issues that fire, and the status is warning iff memory is above 85 or disk above 90, whatever the temperature. |
| HealthChecker.Priority | local-ai-service/services/health_checker.py:323-341 | critical 4, error 3, warning 2, not_available 1; every other status ranks 0, like healthy. |
| HealthChecker.MaxPriority | local-ai-service/services/health_checker.py:339-344 | An upper bound of the statuses' priorities that one of them attains (or 0). |
| HealthChecker.NameOfTable | local-ai-service/services/health_checker.py:323-348 | The table has exactly one status per priority 0 to 4. Any other priority finds none. |
| HealthChecker.OverallStatus | local-ai-service/services/health_checker.py:321-350 | The overall status is always one of the five table names. |
| HealthChecker.OverallStatusMeaning | local-ai-service/services/health_checker.py:321-350 | The overall status has the highest priority among the sections and is one of the five table names, never "unknown". It is "healthy" iff every section ranks 0, and one of the sections' own statuses otherwise. |
| HealthChecker.HighestPriority | local-ai-service/services/health_checker.py:332-344 | The running-maximum loop computes `MaxPriority`. |
| HealthChecker.StatusWithPriority | local-ai-service/services/health_checker.py:345-350 | The table scan returns the first name with that priority, and "unknown" when none has it. |
| HealthChecker.CalculateOverallStatus | local-ai-service/services/health_checker.py:321-350 | The result is `OverallStatus` of the four section statuses and is never "unknown". |
| HealthChecker.SystemAdvice | local-ai-service/services/health_checker.py:356-363 | At most 3 lines. |
| HealthChecker.SystemAdviceMeaning | local-ai-service/services/health_checker.py:356-363 | None unless the section is degraded. The CPU, memory and disk advice each appear iff the section is degraded and an issue mentions that word. |
| HealthChecker.ModelAdvice | local-ai-service/services/health_checker.py:365-369 | At most 2 lines. |
| HealthChecker.ModelAdviceMeaning | local-ai-service/services/health_checker.py:365-369 | Present iff the section is degraded. The logs advice appears iff it is degraded. The more-models advice appears iff it is degraded and the health percentage is below 50. |
| HealthChecker.PerformanceAdvice | local-ai-service/services/health_checker.py:371-375 | At most 2 lines. |
| HealthChecker.PerformanceAdviceMeaning | local-ai-service/services/health_checker.py:371-375 | Present iff the section is at warning. The optimisation advice appears iff it is at warning. The cooling advice appears iff it is at warning and an issue mentions "temperature". |
| HealthChecker.ServiceAdvice | local-ai-service/services/health_checker.py:377-382 | At most 2 lines. |
| HealthChecker.ServiceAdviceMeaning | local-ai-service/services/health_checker.py:377-382 | None unless the section is at warning. The restart advice appears iff it is at warning and an issue mentions "memory". The connectivity advice appears iff it is at warning and an issue mentions "response". |
| HealthChecker.GenerateRecommendations | local-ai-service/services/health_checker.py:352-389 | At most 9 recommendations: 3 system, 2 model, 2 performance and 2 service lines, since the two general notes come only when no advice does. |
| HealthChecker.GeneralNotesWhenHealthy | local-ai-service/services/health_checker.py:384-387 | The two general notes appear iff all four sections are healthy, and then they are the whole list. |
| HealthChecker.ModelLogsWhenDegraded | local-ai-service/services/health_checker.py:365-369 | The model-logs advice appears iff the model section is warning or critical. |
| HealthChecker.MentionedBy | local-ai-service/services/health_checker.py:356-363 | A reported issue containing a word makes the issues mention that word. |
| HealthChecker.SystemRuleMentioned | local-ai-service/services/health_checker.py:356-363 | A firing system check whose issue contains a word makes the section degraded and its issues mention that word. |
| HealthChecker.CpuAdviceFollowsReading | local-ai-service/services/health_checker.py:356-359 | CPU above 75 brings the CPU advice. |
| HealthChecker.MemoryAdviceFollowsReading | local-ai-service/services/health_checker.py:356-361 | Memory above 80 brings the memory advice. |
| HealthChecker.DiskAdviceFollowsReading | local-ai-service/services/health_checker.py:356-363 | Disk above 85 brings the disk advice. |
| HealthChecker.ProcessCountOnly | local-ai-service/services/health_checker.py:88-118 | With only the process count over its threshold, the section is a warning with that single issue. |
| HealthChecker.ProcessWarningNoAdvice | local-ai-service/services/health_checker.py:356-363 | The process-count issue names none of CPU, memory or disk, so it brings no system advice. |
| HealthChecker.ProcessCountGivesNoAdvice | local-ai-service/services/health_checker.py:88-118 | Too many processes alone makes the system section "warning" with no system advice at all. |
| HealthChecker.CoolingAdviceFollowsTemperature | local-ai-service/services/health_checker.py:371-375 | A CPU above 80 degrees, read under the corrected key, brings both the optimisation and the cooling advice. |
| HealthChecker.BelowHalf | local-ai-service/services/health_checker.py:186 | `healthy < total * 0.5` over the reals is the same as `2 * healthy < total` over the integers. |
| HealthChecker.PercentageBelowHalf | local-ai-service/services/health_checker.py:197 | The health percentage is below 50 iff fewer than half of the models are loaded. |
| HealthChecker.ModelAdviceFollowsSummary | local-ai-service/services/health_checker.py:365-369 | A degraded model section asks for more models iff fewer than half are loaded, and always for the logs. |
| HealthChecker.Checker.CheckHealth | local-ai-service/services/health_checker.py:28-67 | The report holds the four sections, with the performance section as written (temperature looked up under "temperature"), their overall status and their recommendations. The history keeps its newest 100 reports with the new one last, and drops exactly the oldest when full. |
| HealthChecker.Checker.GetHealthHistory | local-ai-service/services/health_checker.py:399-404 | A suffix of the history: the newest `limit` reports for a positive limit, and all of them for None or 0. |
| HealthChecker.Checker.RunSpecificCheck | local-ai-service/services/health_checker.py:406-417 | Each known type gives its own section, "performance" the one as written. Any other type gives an "error" section naming the type. |
| HealthChecker.Checker.Cleanup | local-ai-service/services/health_checker.py:419-422 | The history is empty. |
| HealthChecker.ReportStatusFacts | local-ai-service/services/health_checker.py:321-350 | A report's status is never "unknown". A missing model manager keeps it from being healthy. A critical system section makes it critical. |
| PerformanceMonitor.MetricsHistory | local-ai-service/services/performance_monitor.py:324-341 | One view per sample of the recent slice, in history order: the newest `limit` samples for a positive limit, and all of them for None or 0. |
| PerformanceMonitor.SystemResources | local-ai-service/services/performance_monitor.py:130-157 | The cpu dictionary has exactly the four keys `cpu_usage`, `cpu_cores`, `cpu_frequency` and `cpu_temperature`, the last holding the sensor reading. Memory and disk carry the sample's percentages. |
| PerformanceMonitor.SummaryRules | local-ai-service/services/performance_monitor.py:367-385 | Four checks, each raising the status to warning or critical. |
| PerformanceMonitor.TrendsOf | local-ai-service/services/performance_monitor.py:391-398 | Trends exist iff there are at least two recent readings. Each trend is positive iff the newest reading exceeds the oldest. |
| PerformanceMonitor.SummaryStatus | local-ai-service/services/performance_monitor.py:367-385 | Critical iff disk > 90 or cpu > 95. Otherwise warning iff cpu > 80 or memory > 85. Otherwise healthy. |
| PerformanceMonitor.SummaryIssuesInOrder | local-ai-service/services/performance_monitor.py:371-385 | One issue per firing check, in check order. |
| PerformanceMonitor.SummaryIssues | local-ai-service/services/performance_monitor.py:371-385 | At most 4 issues, none iff no threshold is crossed. A cpu above 95 reports "High CPU usage" first and "Critical CPU usage" last. |
| PerformanceMonitor.TrendsWindow | local-ai-service/services/performance_monitor.py:387-398 | Trends exist iff the history holds at least two samples. Each trend is the newest reading minus the oldest of the up-to-ten newest samples. |
| PerformanceMonitor.AssessSample | local-ai-service/services/performance_monitor.py:367-385 | The step-by-step checks give the last firing check's status and the firing checks' issues. |
| PerformanceMonitor.Monitor.RecordSample | local-ai-service/services/performance_monitor.py:309-314 | The sample is appended and the newest 1000 are kept in order. When the history was full exactly the oldest is dropped. |
| PerformanceMonitor.Monitor.GetPerformanceSummary | local-ai-service/services/performance_monitor.py:363-411 | Status and issues come from the four checks. Trends come from the ten newest samples. The readings are copied, and the uptime in hours is (timestamp - boot time) / 3600. |
| PerformanceMonitor.Monitor.Cleanup | local-ai-service/services/performance_monitor.py:413-416 | Monitoring stops and the history is empty. |
| ModelManager.DefaultConfigsDistinct | local-ai-service/services/model_manager.py:69-121 | The four default configurations have distinct ids, so they satisfy the `Manager` constructor's precondition. |
| ModelManager.QuantizationFor | local-ai-service/services/model_manager.py:213-224 | "4bit" selects the 4-bit config and "8bit" the 8-bit one. Anything else, None included, selects none. |
| ModelManager.ResolveDevice | local-ai-service/services/model_manager.py:205-207 | "auto" becomes "cuda" iff CUDA is available and "cpu" otherwise. Any other device is kept. |
| ModelManager.PlanFor | local-ai-service/services/model_manager.py:212-244 | Decoders load as causal LMs and everything else as sequence classifiers. CUDA gets the automatic device map and half precision. The model is moved to the device unless it is quantized on CUDA. |
| ModelManager.StatusName | local-ai-service/services/model_manager.py:136 | The status is loaded iff the model is loaded, downloaded iff it is downloaded but not loaded, and not_downloaded otherwise. |
| ModelManager.ModelInfo.constructor | local-ai-service/services/model_manager.py:27-42 | Each setting comes from the configuration or its documented default: name and repo default to the id, type "decoder", max length 512, no capabilities, size "unknown", device "auto". The record starts unloaded with no memory use. |
| ModelManager.ModelInfo.Release | local-ai-service/services/model_manager.py:286-299 | The record is unloaded, holds no model or tokenizer and uses no memory. Device and load time stay. |
| ModelManager.ModelInfo.MarkLoaded | local-ai-service/services/model_manager.py:246-256 | The record is loaded with the given objects, device, load time and memory use. |
| ModelManager.ModelInfo.MarkFailed | local-ai-service/services/model_manager.py:263-268 | The record is unloaded with no model or tokenizer. Device and load time stay. |
| ModelManager.Manager.constructor | local-ai-service/services/model_manager.py:47-59 | One fresh, unloaded record per configuration, in configuration order. The record filed under each id is built from that id's own configuration: name, description, repository, type, maximum length, capabilities, size, quantization and device, each with its `config.get` default. |
| ModelManager.Manager.ListModels | local-ai-service/services/model_manager.py:123-141 | One entry per configured model, in configuration order. Each entry carries the record's fields, its loaded/downloaded/not_downloaded status and its `is_loaded`. |
| ModelManager.Manager.DownloadModel | local-ai-service/services/model_manager.py:143-180 | An unknown id fails. A model already on disk succeeds unchanged unless forced. Otherwise the outcome is the download's, and a failed download leaves the model not downloaded. |
| ModelManager.Manager.UnloadModel | local-ai-service/services/model_manager.py:271-302 | An unknown id fails. An unloaded model succeeds with nothing changed. A loaded model succeeds, unloaded with no model or tokenizer and memory 0. No other record changes. |
| ModelManager.Manager.LoadModel | local-ai-service/services/model_manager.py:182-269 | An unknown or not-downloaded id fails and changes nothing. On success the record is loaded on the resolved device. On failure it is unloaded with no model or tokenizer. The loader is asked for `PlanFor` of the record. |
| ModelManager.Manager.GetModel | local-ai-service/services/model_manager.py:308-313 | A record is returned iff the id is configured and loaded, and it is that id's record. |
| ModelManager.Manager.Cleanup | local-ai-service/services/model_manager.py:315-321 | Afterwards no model is loaded or uses memory. Every record keeps its device and load time, as `unload_model` does. Records that were not loaded are untouched. |

## Left out

- Tokenisation, `model.generate`, decoding, `_calculate_confidence`, `_ai_powered_analysis`, `_generate_ai_suggestions` and `_parse_ai_analysis`: foreign ML calls. The model's own suggestions are an input list to `GenerateSuggestions`.
- `generate_code`, `analyze_code` and `explain_code` orchestration: they sequence foreign calls around the modelled helpers.
- `_load_analysis_patterns` and the regular-expression matching: `AnalyzeWithPatterns` takes the matches of each pattern as a function.
- psutil, sysfs and pynvml reads (`get_current_metrics`, `_get_cpu_temperature`, `_get_gpu_info`): samples and the temperature reading are inputs. The GPU, network and system entries of the resource report are not read by modelled code and are not represented.
- `_check_service_health` and `_get_uptime`: process RSS, sleep timing and the clock. The service section and the uptime are inputs to `CheckHealth`.
- Threads: `start_monitoring`, `stop_monitoring` and the sleeping loop. Only one history-update step (`RecordSample`) is modelled.
- `get_average_metrics`: float averaging over a time window, and it uses `timedelta` without importing it.
- Configuration files, `snapshot_download` and `shutil.rmtree`: "downloaded" is a set of ids and the download's success is a parameter.
- Timestamps and `isoformat`: sample timestamps are integers of seconds, and the report timestamp is not represented.
- The exception paths: the "error" sections of the system, model and performance checks, the error report of `check_health`, and the failing `unload_model`. They are raised only by foreign code. A load that fails after the record was marked loaded (while measuring memory) is modelled as failing before it, so the device keeps its old value.
- The echoed `metrics`, `resources` and `current_metrics` dictionaries inside the health sections: they only copy their inputs.
- `HealthChecker.__init__` writes `performance_monitor or performance_monitor`, so the module-level monitor never becomes the fallback. The model takes the monitor's readings as inputs, so this has no effect on it.
- Async execution: every operation is sequential.
- `Text.ToLower` lowers ASCII letters only, where Python's `lower()` also lowers other scripts.
- Float formatting of the temperature in its issue text is a parameter (`show`).
- HealthChecker.GenerateRecommendations: its own contract states only the length bound. Which lines appear is stated by the `*AdviceMeaning` lemmas and the lemmas listed next to it in the table.
- ModelManager.Manager.ListModels: the source iterates `self.models` in dictionary (insertion) order, modelled as the explicit `order` sequence.

## Findings

| source | as written | input that shows it | evidently intended | confidence | as-written member | corrected member |
|---|---|---|---|---|---|---|
| local-ai-service/services/health_checker.py:221-222 | The temperature check looks up `resources["cpu"]["temperature"]`, but `get_system_resources` (local-ai-service/services/performance_monitor.py:136-141) stores the reading under `cpu_temperature`, so the check never fires. The checker's reports and `run_specific_check("performance")` are modelled as written (`HealthChecker.CheckPerformanceHealthAsWritten`). | A report with a cpu temperature of 95 and memory and disk below their thresholds: the performance section is "healthy". | Read `cpu_temperature`, so that a reading above 80 gives "warning" and the "High CPU temperature" issue. | not executed | HealthChecker.TemperatureKeyMismatch | HealthChecker.CheckPerformanceHealth |
