# Bug-report migration and pull-request tooling, modelled in Dafny

This project models the deterministic routines of three groups of tools in the
skill-factory repository:

- **JIRA to GitHub bug migration.**
  - `field_validator.py` checks which bug-report fields a JIRA issue has.
  - The migrator's `report_generator.py` names report files.
  - `process_mm300.py` names the output of a batch export.
  - `jira_reader.py` turns a JIRA REST response into an issue record.
  - `microsoft_template.py` lays that record out as a GitHub bug report.
- **C# bug documentation.**
  - `bug_analyzer.py` reads a stack trace into a bug record: severity, frame and component.
  - It also suggests reproduction steps, a fix and the impact.
  - `jira_reporter.py` builds the JIRA issue payload.
  - The C# `report_generator.py` builds the markdown report's title, file name and JIRA line.
- **Azure DevOps and git pull-request tooling.**
  - `pr_reviewer.py` flags pattern matches in added lines, scores the change and groups comments.
  - `pr_manager.py` checks whether a pull request may merge.
  - `pr_creator.py` classifies commits, reads a diff, writes the title and summary, and suggests reviewers.
  - `pr_analytics.py` counts pull requests by status and size, and ranks reviewers and authors.

These tools contain no sensitive-data redaction or vault engine, and none is modelled.

The Dafny modules follow the Python files:

| module | models |
|---|---|
| `FieldValidator` | `field_validator.py` |
| `MigratorReport` | the migrator's `report_generator.py` |
| `Mm300` | `process_mm300.py` |
| `BugAnalyzer` | `bug_analyzer.py` |
| `JiraReporter` | `jira_reporter.py` |
| `CsharpReport` | the C# `report_generator.py` |
| `PrReviewer` | `pr_reviewer.py` |
| `PrManager` | `pr_manager.py` |
| `PrCreator` | `pr_creator.py` |
| `PrAnalytics` | `pr_analytics.py` |
| `JiraReader` | `jira_reader.py` |
| `MicrosoftTemplate` | `microsoft_template.py` |

Some modules are shared:

- `Py` holds the Python values the tools pass around: JSON-like values, and `Slot`, which tells an absent key from one present with `None`.
- `Text` holds the `str` methods the tools use.
- `Ranking` holds `defaultdict(int)` tallies, the stable `sorted(..., reverse=True)[:n]` cut and `max(d, key=d.get)`.
- `Severity`, `BugRecord` and `DiffLines` hold definitions the files share.

The validator and the reader keep state, so each is a class whose methods update that state. So is the JIRA issue builder. Loops in the source are methods with loop invariants. Each method is proved equal to a specification function, and the lemmas state the properties of that function. The one exception is `PrCreator.FirstOf`, the `list(set)[:n]` cut: set iteration order is left open, so it is proved only to return `n` distinct members of the set.

## Model

| member | source | states |
|---|---|---|
| FieldValidator.IsFieldPresent | generated-skills/jira-to-microsoft-bug-migrator/field_validator.py:170-184 | None is never present; a non-string is present exactly when it is truthy; a present string is truthy and at least three characters long |
| FieldValidator.HasEnvironmentInfo | generated-skills/jira-to-microsoft-bug-migrator/field_validator.py:186-226 | the OS and .NET checks, one loop over a pattern list: true exactly when the environment is truthy and some pattern of the list is found in it |
| FieldValidator.LabelInjective | generated-skills/jira-to-microsoft-bug-migrator/field_validator.py:88-168 | the thirteen field names the checks append are pairwise distinct |
| FieldValidator.RequiredChecks | generated-skills/jira-to-microsoft-bug-migrator/field_validator.py:88-142 | exactly nine required checks, made in the fixed source order |
| FieldValidator.RecommendedChecks | generated-skills/jira-to-microsoft-bug-migrator/field_validator.py:144-168 | exactly four recommended checks: Workaround, Related Issues, Screenshots, Root Cause |
| FieldValidator.SelectConcat | generated-skills/jira-to-microsoft-bug-migrator/field_validator.py:51-86 | running the required checks and then the recommended ones appends their names in that order |
| FieldValidator.NamesPartition | generated-skills/jira-to-microsoft-bug-migrator/field_validator.py:88-168 | every check appends one name to exactly one of the three lists, so the lists' lengths add up to the number of checks |
| FieldValidator.SelectUnique | generated-skills/jira-to-microsoft-bug-migrator/field_validator.py:88-168 | a check whose name no other check carries is listed exactly when its outcome selects that list |
| FieldValidator.NameLands | generated-skills/jira-to-microsoft-bug-migrator/field_validator.py:88-168 | a check with a unique name is in the list its outcome selects, and in no other |
| FieldValidator.AllCheckNames | generated-skills/jira-to-microsoft-bug-migrator/field_validator.py:88-168 | the thirteen checks carry the thirteen names of the check order, in that order |
| FieldValidator.CheckOrderFacts | generated-skills/jira-to-microsoft-bug-migrator/field_validator.py:88-168 | every name is checked once, with the nine required names first, and every label is a required field, an environment sub-field or a recommended field |
| FieldValidator.ValidationCovers | generated-skills/jira-to-microsoft-bug-migrator/field_validator.py:51-86 | after validation the present, missing-required and missing-recommended lists hold thirteen names between them |
| FieldValidator.EveryNameLands | generated-skills/jira-to-microsoft-bug-migrator/field_validator.py:88-168 | the present list holds each name exactly when its check passes; a failing check's name goes to missing-required when it is among the first nine checks, otherwise to missing-recommended |
| FieldValidator.EmptyEnvironmentMissing | generated-skills/jira-to-microsoft-bug-migrator/field_validator.py:121-136 | a falsy environment reports Environment, OS and .NET Version all missing |
| FieldValidator.SearchCommentsFound | generated-skills/jira-to-microsoft-bug-migrator/field_validator.py:235-239 | the comment loop answers true exactly when some comment mentions a workaround and every comment before it is a dictionary with a string body or none that does not mention one; later comments are never read |
| FieldValidator.SearchCommentsNone | generated-skills/jira-to-microsoft-bug-migrator/field_validator.py:235-241 | the comment loop answers false exactly when every comment is read and passed over |
| FieldValidator.WorkaroundAnswer | generated-skills/jira-to-microsoft-bug-migrator/field_validator.py:228-241 | true exactly for a present root cause or a comment list in which a mentioning comment is reached; false exactly when neither holds and the comments are a list read through or an empty dictionary or string; in every other case it raises |
| FieldValidator.WorkaroundLands | generated-skills/jira-to-microsoft-bug-migrator/field_validator.py:144-150 | when `_has_workaround` answers, Workaround is listed present exactly when the root cause is present or a mentioning comment is reached |
| FieldValidator.AppendBullets | generated-skills/jira-to-microsoft-bug-migrator/field_validator.py:251-252 | the loop appends one `  - name` line per field, in order |
| FieldValidator.RequiredSummaryLines | generated-skills/jira-to-microsoft-bug-migrator/field_validator.py:247-252 | the required half of the summary: the all-present line, or a count line followed by one bullet per missing field |
| FieldValidator.RecommendedSummaryLines | generated-skills/jira-to-microsoft-bug-migrator/field_validator.py:254-259 | the recommended half of the summary: the all-present line, or a count line followed by one bullet per missing field |
| FieldValidator.SummaryShape | generated-skills/jira-to-microsoft-bug-migrator/field_validator.py:243-261 | the summary opens with "All required fields present" exactly when nothing required is missing; otherwise it opens with the count and then lists every missing required field in order |
| FieldValidator.GitHubFieldValidator.constructor | generated-skills/jira-to-microsoft-bug-migrator/field_validator.py:39-49 | keeps the issue and starts with three empty lists |
| FieldValidator.GitHubFieldValidator.Record | generated-skills/jira-to-microsoft-bug-migrator/field_validator.py:91-94 | one check appends its name to the one list its outcome selects |
| FieldValidator.GitHubFieldValidator.AfterStep | generated-skills/jira-to-microsoft-bug-migrator/field_validator.py:91-94 | the lists after one more check, branch by branch |
| FieldValidator.GitHubFieldValidator.HasWorkaround | generated-skills/jira-to-microsoft-bug-migrator/field_validator.py:228-241 | the early-return loop gives exactly the answer or the exception that `WorkaroundAnswer` characterises |
| FieldValidator.GitHubFieldValidator.ValidateRequiredFields | generated-skills/jira-to-microsoft-bug-migrator/field_validator.py:88-142 | the lists after the nine required checks, appended to the old lists |
| FieldValidator.GitHubFieldValidator.ValidateRecommendedFields | generated-skills/jira-to-microsoft-bug-migrator/field_validator.py:144-168 | raises exactly when `_has_workaround` raises, with the lists unchanged; otherwise the lists after the four recommended checks, appended to the old lists |
| FieldValidator.GitHubFieldValidator.Validate | generated-skills/jira-to-microsoft-bug-migrator/field_validator.py:51-86 | the lists are cleared, so the new lists depend on the issue alone; the result is complete exactly when nothing required is missing and carries the totals 7 and 4; when `_has_workaround` raises, the exception leaves with only the required outcomes recorded |
| FieldValidator.GitHubFieldValidator.GenerateSummary | generated-skills/jira-to-microsoft-bug-migrator/field_validator.py:243-261 | the summary lines joined with newlines |
| MigratorReport.DashRuns | generated-skills/jira-to-microsoft-bug-migrator/report_generator.py:108 | the output holds only `[a-z0-9-]`, never two adjacent hyphens, is empty exactly when the input is, and starts with a hyphen exactly when the input starts with an unsafe character |
| MigratorReport.CollapseDashes | generated-skills/jira-to-microsoft-bug-migrator/report_generator.py:114 | the output never has two adjacent hyphens, is empty exactly when the input is, and keeps the first character |
| MigratorReport.CollapseKeepsSafe | generated-skills/jira-to-microsoft-bug-migrator/report_generator.py:114 | collapsing hyphen runs adds no character outside `[a-z0-9-]` |
| MigratorReport.CollapseNoop | generated-skills/jira-to-microsoft-bug-migrator/report_generator.py:114 | collapsing changes nothing when no two hyphens are adjacent |
| MigratorReport.StripDashKeeps | generated-skills/jira-to-microsoft-bug-migrator/report_generator.py:111 | stripping the edge hyphens of safe text without hyphen pairs gives a clean name |
| MigratorReport.SanitizeForFilename | generated-skills/jira-to-microsoft-bug-migrator/report_generator.py:90-116 | the result is clean: only `[a-z0-9-]`, no two adjacent hyphens, no hyphen at either end |
| MigratorReport.DashRunsNoop | generated-skills/jira-to-microsoft-bug-migrator/report_generator.py:108 | the run replacement changes nothing in safe text without hyphen pairs |
| MigratorReport.SanitizeIdempotent | generated-skills/jira-to-microsoft-bug-migrator/report_generator.py:90-116 | sanitising a sanitised name returns it unchanged |
| MigratorReport.CleanIsFixed | generated-skills/jira-to-microsoft-bug-migrator/report_generator.py:90-116 | every clean name is its own sanitised form |
| MigratorReport.BothPrefixesDropped | generated-skills/jira-to-microsoft-bug-migrator/report_generator.py:100-105 | a leading "[bug]" tag and then a leading "bug:" are both dropped, with the whitespace after each |
| MigratorReport.PrefixOrder | generated-skills/jira-to-microsoft-bug-migrator/report_generator.py:100-105 | the prefixes are removed in that order only: "bug: [bug] x" keeps its "[bug]" |
| MigratorReport.SummarySegment | generated-skills/jira-to-microsoft-bug-migrator/report_generator.py:79-84 | the segment is the first 60 characters of the sanitised summary, or all of it when it is shorter |
| MigratorReport.NameOf | generated-skills/jira-to-microsoft-bug-migrator/report_generator.py:86 | the name is the key, a hyphen, the timestamp, a hyphen, the segment and `.md`, and the segment is recoverable from the name |
| MigratorReport.SegmentClean | generated-skills/jira-to-microsoft-bug-migrator/report_generator.py:79-84 | the segment has at most 60 safe characters, no hyphen pair, and does not start with a hyphen |
| MigratorReport.FilenameShape | generated-skills/jira-to-microsoft-bug-migrator/report_generator.py:62-88 | the file name is `key-timestamp-segment.md`, whose segment has at most 60 safe characters and does not start with a hyphen |
| MigratorReport.SegmentMayEndInDash | generated-skills/jira-to-microsoft-bug-migrator/report_generator.py:79-84 | the cut follows the hyphen stripping, so some summaries give a segment that ends in a hyphen |
| Mm300.SanitizeFilename | process_mm300.py:9-11 | the first 50 characters, each lower-cased and kept when alphanumeric, `-` or `_`, and otherwise replaced by one hyphen |
| Mm300.OutputAlphabet | process_mm300.py:9-11 | every output character is alphanumeric, `-` or `_`, and none is upper-case |
| Mm300.SanitizeIdempotent | process_mm300.py:9-11 | sanitising twice gives the same name as sanitising once |
| Mm300.RunsNotCollapsed | process_mm300.py:9-11 | runs of replaced characters are not merged, and hyphens at the edges are kept |
| Mm300.OutputPath | process_mm300.py:35-37 | the path starts with `migrated-bugs/` and ends in `.md`; with slash-free key and timestamp it names a file directly in that folder |
| Severity.Parse | generated-skills/csharp-bug-documentation/report_generator.py:218-226 | a string parses to the level it names, or to nothing when it names no level |
| Severity.ParseName | generated-skills/csharp-bug-documentation/report_generator.py:218-226 | every level's name parses back to that level |
| BugRecord.Title | generated-skills/csharp-bug-documentation/report_generator.py:190-196 | "<type> in <class>.<method>": its prefix, its suffix and its length |
| CsharpReport.TitleDefaults | generated-skills/csharp-bug-documentation/report_generator.py:190-196 | absent keys give "Exception in unknown.unknown method" |
| CsharpReport.TitleOfNone | generated-skills/csharp-bug-documentation/report_generator.py:190-196 | keys present with None show as "None" and do not take the defaults |
| CsharpReport.Dashed | generated-skills/csharp-bug-documentation/report_generator.py:208 | same length; only `[a-z0-9-]`; a character is kept exactly when it is safe or a hyphen |
| CsharpReport.SafeName | generated-skills/csharp-bug-documentation/report_generator.py:203-209 | a non-empty name of safe characters with no two adjacent hyphens |
| CsharpReport.SafeNameEdges | generated-skills/csharp-bug-documentation/report_generator.py:203-209 | unlike the migrator's name, the safe name may start and end with a hyphen |
| CsharpReport.KeyPart | generated-skills/csharp-bug-documentation/report_generator.py:211-214 | the issue key when a non-empty one is given, "BUG" otherwise |
| CsharpReport.GenerateFilename | generated-skills/csharp-bug-documentation/report_generator.py:198-216 | the file name starts with the key part and the timestamp, and ends with the safe name and `.md` |
| CsharpReport.SeverityDescription | generated-skills/csharp-bug-documentation/report_generator.py:218-226 | the level's description, and "Unknown severity" exactly when the string names no level |
| CsharpReport.ActualBehavior | generated-skills/csharp-bug-documentation/report_generator.py:243-249 | exactly "The code throws `<type>`: " followed by the message and nothing else (prefix, suffix and total length), with the source's defaults for absent keys and "None" for present None values |
| CsharpReport.JiraLine | generated-skills/csharp-bug-documentation/report_generator.py:88-91 | a line exactly when a key is given: a link when a URL is also given, the bare key otherwise |
| BugAnalyzer.AnalyzedSeverity | generated-skills/csharp-bug-documentation/bug_analyzer.py:91-96 | Medium without an exception type or for a type not in the table; otherwise the table's level |
| BugAnalyzer.CriticalExactly | generated-skills/csharp-bug-documentation/bug_analyzer.py:16-31 | exactly four exception types make a bug critical |
| BugAnalyzer.SplitFrame | generated-skills/csharp-bug-documentation/bug_analyzer.py:120-125 | a frame exactly when the method path holds a dot; its class holds no dot and its method no parenthesis |
| BugAnalyzer.FrameRoundTrip | generated-skills/csharp-bug-documentation/bug_analyzer.py:120-125 | splitting `ns.Class.Method(args)` gives back the namespace, class and method it was joined from |
| BugAnalyzer.SplitSimple | generated-skills/csharp-bug-documentation/bug_analyzer.py:127-136 | the matched method is always recorded; a namespace and a class are recorded exactly when the path holds a dot, and then the class is dot-free and namespace, dot and class spell the path |
| BugAnalyzer.NamespaceComponentOf | generated-skills/csharp-bug-documentation/bug_analyzer.py:211-217 | the component a namespace names holds no dot |
| BugAnalyzer.PathComponentOf | generated-skills/csharp-bug-documentation/bug_analyzer.py:219-224 | the component a path names holds no slash or backslash |
| BugAnalyzer.DetermineComponent | generated-skills/csharp-bug-documentation/bug_analyzer.py:206-226 | a truthy namespace always gives a dot-free component; otherwise any component comes from a truthy file path and holds no slash |
| BugAnalyzer.NamespaceFirst | generated-skills/csharp-bug-documentation/bug_analyzer.py:206-226 | with a truthy namespace the file path plays no part |
| BugAnalyzer.NamespaceComponent | generated-skills/csharp-bug-documentation/bug_analyzer.py:214-216 | a dotted namespace gives its last part, or the part before it when the last is Services, Controllers or Models |
| BugAnalyzer.SinglePartNamespace | generated-skills/csharp-bug-documentation/bug_analyzer.py:214-217 | a namespace without a dot is the component itself |
| BugAnalyzer.PathComponent | generated-skills/csharp-bug-documentation/bug_analyzer.py:222-224 | a path of at least two segments gives the folder that holds the file |
| BugAnalyzer.GenerateReproductionSteps | generated-skills/csharp-bug-documentation/bug_analyzer.py:228-255 | three steps for a type with a dedicated step and two otherwise; the first names the method when one is known; the last observes the exception |
| BugAnalyzer.SuggestFix | generated-skills/csharp-bug-documentation/bug_analyzer.py:257-301 | a suggestion exactly for the exception types the source handles |
| BugAnalyzer.DetailedHaveFix | generated-skills/csharp-bug-documentation/bug_analyzer.py:228-301 | every type with a dedicated reproduction step also gets a fix suggestion |
| BugAnalyzer.DetermineImpact | generated-skills/csharp-bug-documentation/bug_analyzer.py:303-329 | three lines for Critical and High and two otherwise, with the Low lines for any other severity; one more line names a truthy component |
| JiraReporter.ContextOf | generated-skills/csharp-bug-documentation/jira_reporter.py:77-82 | each context is chosen exactly when its rule is the first that matches: null check, then collection modified, then division by zero |
| JiraReporter.CreateSummaryAsWritten | generated-skills/csharp-bug-documentation/jira_reporter.py:66-85 | raises exactly when the root cause is present with None |
| JiraReporter.NoneRootCauseCrashes | generated-skills/csharp-bug-documentation/jira_reporter.py:76-77 | the record the analyser returns for a parsed stack trace without code makes the summary raise |
| JiraReporter.CreateSummary | generated-skills/csharp-bug-documentation/jira_reporter.py:66-85 | at most 255 characters, a prefix of the headline followed by the chosen context suffix |
| JiraReporter.SummaryCorrected | generated-skills/csharp-bug-documentation/jira_reporter.py:66-85 | where the written code returns a summary the corrected one returns the same, and the corrected one returns one for every record |
| JiraReporter.ShortSummaryWhole | generated-skills/csharp-bug-documentation/jira_reporter.py:66-85 | a short headline is kept whole, followed by the suffix |
| JiraReporter.Priority | generated-skills/csharp-bug-documentation/jira_reporter.py:15-20 | Critical maps to Highest, the other levels to themselves, and anything else or an absent severity to Medium |
| JiraReporter.FormatIssuePayload | generated-skills/csharp-bug-documentation/jira_reporter.py:22-64 | raises KeyError exactly when the message is truthy and the exception-type key is absent (`_create_description`, line 115); otherwise a Bug with the fixed labels, a summary of at most 255 characters, a listed priority, and components exactly when the component is truthy |
| JiraReporter.MessageWithoutTypeRaises | generated-skills/csharp-bug-documentation/jira_reporter.py:114-117 | a dictionary with only a message raises; an empty one gets a payload |
| JiraReporter.FormatComment | generated-skills/csharp-bug-documentation/jira_reporter.py:198-216 | the text alone, or followed by the snippet in a C# code block when a snippet is given |
| JiraReporter.FormatStacktrace | generated-skills/csharp-bug-documentation/jira_reporter.py:293-304 | the trace wrapped in `{code:csharp}` and `{code}` |
| JiraReporter.StacktraceRoundTrip | generated-skills/csharp-bug-documentation/jira_reporter.py:293-304 | the inside of the block is the trace, unchanged |
| JiraReporter.JiraIssueBuilder.constructor | generated-skills/csharp-bug-documentation/jira_reporter.py:222-228 | keeps the project key and starts with no data, steps, fix or impact |
| JiraReporter.JiraIssueBuilder.WithBugData | generated-skills/csharp-bug-documentation/jira_reporter.py:230-233 | sets the bug data, keeps the other pieces and returns the builder itself |
| JiraReporter.JiraIssueBuilder.WithReproductionSteps | generated-skills/csharp-bug-documentation/jira_reporter.py:235-238 | sets the steps, keeps the other pieces and returns the builder itself |
| JiraReporter.JiraIssueBuilder.WithSuggestedFix | generated-skills/csharp-bug-documentation/jira_reporter.py:240-243 | sets the fix, keeps the other pieces and returns the builder itself |
| JiraReporter.JiraIssueBuilder.WithImpact | generated-skills/csharp-bug-documentation/jira_reporter.py:245-248 | sets the impact, keeps the other pieces and returns the builder itself |
| JiraReporter.JiraIssueBuilder.Build | generated-skills/csharp-bug-documentation/jira_reporter.py:250-258 | the payload of the stored pieces, or the KeyError of a stored record with a message and no exception type |
| PrReviewer.RuleSeveritiesListed | generated-skills/azure-devops-pr-manager/pr_reviewer.py:16-42 | every rule of the pattern table carries critical, high, medium or low |
| PrReviewer.MatchingSound | generated-skills/azure-devops-pr-manager/pr_reviewer.py:124-134 | every rule kept for a line is a table rule whose pattern occurs in the line |
| PrReviewer.AnalyzeFileChange | generated-skills/azure-devops-pr-manager/pr_reviewer.py:99-136 | no findings for a deleted file or an empty diff; otherwise the findings of the diff's lines, line by line |
| PrReviewer.ScanLine | generated-skills/azure-devops-pr-manager/pr_reviewer.py:117-134 | a line has findings only when it is an added line |
| PrReviewer.IssuesOf | generated-skills/azure-devops-pr-manager/pr_reviewer.py:125-134 | one finding per rule, in rule order, each built from its rule |
| PrReviewer.MatchLine | generated-skills/azure-devops-pr-manager/pr_reviewer.py:122-134 | one finding per rule whose pattern occurs in the added line's content, in table order |
| PrReviewer.LinePoints | generated-skills/azure-devops-pr-manager/pr_reviewer.py:117-134 | every finding of line `n` carries that line's number and points at an added line |
| PrReviewer.IssuesPointAtAddedLines | generated-skills/azure-devops-pr-manager/pr_reviewer.py:99-136 | every finding of the first `n` lines points at an added line among them, with its path and a matching rule |
| PrReviewer.IssuesInLineOrder | generated-skills/azure-devops-pr-manager/pr_reviewer.py:99-136 | findings come in line order, and none comes from past the lines read |
| PrReviewer.DiffCountsAppend | generated-skills/azure-devops-pr-manager/pr_reviewer.py:144-151 | counting two lists of changes one after the other adds their counts |
| PrReviewer.SizeOf | generated-skills/azure-devops-pr-manager/pr_reviewer.py:155-161 | small exactly below 100 changed lines, medium exactly from 100 to 499, large exactly from 500 |
| PrReviewer.SizeMonotone | generated-skills/azure-devops-pr-manager/pr_reviewer.py:155-161 | more changed lines never give a smaller size |
| PrReviewer.CalculateComplexity | generated-skills/azure-devops-pr-manager/pr_reviewer.py:138-169 | one file per change, the added and deleted lines of all diffs, their sum and its size |
| PrReviewer.CountLines | generated-skills/azure-devops-pr-manager/pr_reviewer.py:147-151 | the added and deleted lines of one diff |
| PrReviewer.TestCount | generated-skills/azure-devops-pr-manager/pr_reviewer.py:171-197 | the test files never outnumber the changes |
| PrReviewer.CheckTestCoverage | generated-skills/azure-devops-pr-manager/pr_reviewer.py:171-197 | test and source files add up to the changes, and there are tests exactly when a test file was changed |
| PrReviewer.Clamp | generated-skills/azure-devops-pr-manager/pr_reviewer.py:222 | the score is between 0 and 10, and unchanged when it already is |
| PrReviewer.CalculateQualityScore | generated-skills/azure-devops-pr-manager/pr_reviewer.py:199-222 | the deductions from 10, cut to an integer and clamped to 0..10 |
| PrReviewer.CleanScoresTen | generated-skills/azure-devops-pr-manager/pr_reviewer.py:199-222 | a pull request without findings, with tests and not large scores 10 |
| PrReviewer.RiskLevel | generated-skills/azure-devops-pr-manager/pr_reviewer.py:224-234 | high exactly with a critical finding or three high ones; otherwise medium exactly with a high finding or a large size |
| PrReviewer.RiskMonotone | generated-skills/azure-devops-pr-manager/pr_reviewer.py:224-234 | more findings never lower the risk |
| PrReviewer.GenerateRecommendations | generated-skills/azure-devops-pr-manager/pr_reviewer.py:266-292 | the recommendations are exactly the texts of the five (condition, text) rows whose condition holds, in the source's order; a critical finding puts the must-fix line first and a high risk puts the risk note last |
| PrReviewer.RecommendationsListed | generated-skills/azure-devops-pr-manager/pr_reviewer.py:266-292 | each of the five recommendations is made exactly when its condition holds: a critical finding, a high finding, no test file, a large change, a high risk |
| PrReviewer.GroupBySeverity | generated-skills/azure-devops-pr-manager/pr_reviewer.py:307-310 | each severity's findings, in their original order |
| PrReviewer.AppendComments | generated-skills/azure-devops-pr-manager/pr_reviewer.py:313-323 | one comment per finding of a group, appended in order |
| PrReviewer.GenerateReviewComments | generated-skills/azure-devops-pr-manager/pr_reviewer.py:294-325 | the comments of the findings grouped by severity, critical first and low last |
| PrReviewer.GroupedCount | generated-skills/azure-devops-pr-manager/pr_reviewer.py:294-325 | every finding with a listed severity gives exactly one comment, and the others give none |
| PrReviewer.TableIssuesAllListed | generated-skills/azure-devops-pr-manager/pr_reviewer.py:294-325 | no finding produced from the pattern table is dropped from the comments |
| PrManager.Approvals | generated-skills/azure-devops-pr-manager/pr_manager.py:20 | never more than the number of reviewers, and 0 exactly when no reviewer votes 10 |
| PrManager.FailedCount | generated-skills/azure-devops-pr-manager/pr_manager.py:32 | never more than the number of policies, and 0 exactly when no policy has failed |
| PrManager.Blockers | generated-skills/azure-devops-pr-manager/pr_manager.py:16-35 | each blocker is present exactly when its condition holds, approvals first and policies last; no blocker exactly when every condition is met |
| PrManager.ValidatePrReady | generated-skills/azure-devops-pr-manager/pr_manager.py:9-37 | raises exactly when the reviewers or the policies are None; otherwise ready exactly when there is no blocker, and the blockers are those of the counted approvals and failed policies |
| PrManager.CountApprovals | generated-skills/azure-devops-pr-manager/pr_manager.py:20 | the number of reviewers whose vote is 10 |
| PrManager.CountFailed | generated-skills/azure-devops-pr-manager/pr_manager.py:32 | the number of policies whose status is `failed` |
| PrManager.MoreApprovalsFewerBlockers | generated-skills/azure-devops-pr-manager/pr_manager.py:19-23 | one more reviewer never adds a blocker |
| Ranking.Bump | generated-skills/rrez-pr-mgr/pr_analytics.py:76 | adds one to the key's count and leaves every other count alone |
| Ranking.BumpTotal | generated-skills/rrez-pr-mgr/pr_analytics.py:76 | every `+= 1` adds exactly one to the total |
| Ranking.Insert | generated-skills/rrez-pr-mgr/pr_analytics.py:78 | inserting into a list in non-increasing order keeps it non-increasing and adds exactly that pair |
| Ranking.SortDesc | generated-skills/rrez-pr-mgr/pr_analytics.py:78 | the pairs in non-increasing count order, a permutation of the input |
| Ranking.TopRanked | generated-skills/rrez-pr-mgr/pr_analytics.py:78-79 | at most `n` pairs, by non-increasing count, each a counted key with its own count |
| Ranking.FirstMax | generated-skills/rrez-pr-mgr/pr_creator.py:214 | no key only for an empty tally; otherwise a counted key with the largest count |
| Ranking.MaxFromIsFirst | generated-skills/rrez-pr-mgr/pr_creator.py:214 | ties go to the earlier key: every key before the maximum has a smaller count |
| PrAnalytics.TopReviewers | generated-skills/rrez-pr-mgr/pr_analytics.py:69-79 | the top five of the reviewer tally |
| PrAnalytics.CountAll | generated-skills/rrez-pr-mgr/pr_analytics.py:74-76 | the inner loop counts every reviewer of a pull request into the tally |
| PrAnalytics.TopContributors | generated-skills/rrez-pr-mgr/pr_analytics.py:81-91 | the top five of the author tally |
| PrAnalytics.CalculateMetrics | generated-skills/rrez-pr-mgr/pr_analytics.py:12-28 | the no-data answer exactly for an empty list; otherwise the total, the three status counts, the three size counts and both top lists |
| PrAnalytics.StatusCountsBounded | generated-skills/rrez-pr-mgr/pr_analytics.py:19-21 | the three status counts together never exceed the number of pull requests |
| PrAnalytics.SizesPartition | generated-skills/rrez-pr-mgr/pr_analytics.py:56-60 | every pull request falls in exactly one size bucket, an absent size counting as 0 |
| PrAnalytics.ReviewerTotal | generated-skills/rrez-pr-mgr/pr_analytics.py:69-76 | the reviewer counts add up to the number of reviewer entries |
| PrAnalytics.AuthorTotal | generated-skills/rrez-pr-mgr/pr_analytics.py:81-87 | the author counts add up to the number of pull requests |
| PrAnalytics.TopListsRanked | generated-skills/rrez-pr-mgr/pr_analytics.py:78-90 | both top lists hold at most five names by non-increasing count, each reviewer and each author with its own count |
| PrCreator.BangBeforeColon | generated-skills/rrez-pr-mgr/pr_creator.py:79 | the `!` test holds exactly when a `!` comes before the first colon |
| PrCreator.KindTallyCounts | generated-skills/rrez-pr-mgr/pr_creator.py:55-71 | each kind is counted once per commit whose message matches its pattern |
| PrCreator.CountKindsStep | generated-skills/rrez-pr-mgr/pr_creator.py:61-71 | one commit adds one to a kind's count exactly when its message matches |
| PrCreator.HeaderFileAsWritten | generated-skills/rrez-pr-mgr/pr_creator.py:105-110 | as written: the text after the first `b/` anywhere in the header, up to whitespace |
| PrCreator.HeaderFileAsWrittenFirstB | generated-skills/rrez-pr-mgr/pr_creator.py:105-110 | as written, when the text after `diff --git a/` has no `b` before a `b/`, the file is the word after that `b/` |
| PrCreator.HeaderFileAsWrittenCutsPath | generated-skills/rrez-pr-mgr/pr_creator.py:105-110 | `diff --git a/lib/x.py b/lib/x.py` gives `x.py` |
| PrCreator.HeaderFile | generated-skills/rrez-pr-mgr/pr_creator.py:105-110 | a file exactly when the header holds ` b/`, and the file holds no whitespace |
| PrCreator.HeaderFileExample | generated-skills/rrez-pr-mgr/pr_creator.py:105-110 | the corrected reading of that header gives `lib/x.py` |
| PrCreator.HeaderFileIsNewPath | generated-skills/rrez-pr-mgr/pr_creator.py:105-110 | for `diff --git a/OLD b/NEW` with whitespace-free paths, the file is NEW, whatever OLD holds |
| PrCreator.AnalyzeDiff | generated-skills/rrez-pr-mgr/pr_creator.py:93-116 | the statistics of the diff's lines |
| PrCreator.DiffStatsCounts | generated-skills/rrez-pr-mgr/pr_creator.py:93-116 | each header that names a file adds one file; headers are never counted as added or deleted; files, additions and deletions together never exceed the lines |
| PrCreator.AnalyzeChanges | generated-skills/rrez-pr-mgr/pr_creator.py:31-91 | the commit count, the authors, the kind tally, the work items, and breaking exactly when some message announces it; diff statistics only for a truthy diff |
| PrCreator.AnalyzeCommits | generated-skills/rrez-pr-mgr/pr_creator.py:55-80 | the loop's authors, kind tally, work items and breaking flag |
| PrCreator.GenerateTitle | generated-skills/rrez-pr-mgr/pr_creator.py:355-402 | "Pull request" without commits; the first line cut to 100 characters for one commit; never longer than 100 characters or spread over two lines |
| PrCreator.TitleOfSeveral | generated-skills/rrez-pr-mgr/pr_creator.py:377-402 | with several commits, the primary kind's prefix, a space and 80 characters of the first line; 100 characters when that kind has no prefix or nothing was counted |
| PrCreator.SummaryShape | generated-skills/rrez-pr-mgr/pr_creator.py:208-249 | the primary kind's clause, then the commit clause; files only when some changed; a full stop, then the breaking note when there is one |
| PrCreator.Owners | generated-skills/rrez-pr-mgr/pr_creator.py:332 | at most one owner per token, none starting with `@` |
| PrCreator.RuleOf | generated-skills/rrez-pr-mgr/pr_creator.py:322-333 | a rule exactly for a stripped line that is not blank, not a comment and has two tokens; its pattern is the first token |
| PrCreator.ParseCodeowners | generated-skills/rrez-pr-mgr/pr_creator.py:318-335 | the rules of the content's lines, in order |
| PrCreator.MatchCodeowners | generated-skills/rrez-pr-mgr/pr_creator.py:337-346 | exactly the owners of the rules whose pattern matches the path |
| PrCreator.CodeownerPool | generated-skills/rrez-pr-mgr/pr_creator.py:293-297 | the owners of every changed file |
| PrCreator.CodeownersBranch | generated-skills/rrez-pr-mgr/pr_creator.py:293-297 | the owner pool for a non-empty CODEOWNERS text, nothing otherwise |
| PrCreator.TopBlameAuthors | generated-skills/rrez-pr-mgr/pr_creator.py:300-313 | the top authors of the blame tally |
| PrCreator.BlameBranch | generated-skills/rrez-pr-mgr/pr_creator.py:300-313 | the top blame authors when there is blame data, nothing otherwise |
| PrCreator.FirstOf | generated-skills/rrez-pr-mgr/pr_creator.py:316 | `n` distinct members of the pool |
| PrCreator.SuggestReviewers | generated-skills/rrez-pr-mgr/pr_creator.py:271-316 | distinct reviewers, all from the pool, as many as the pool and the limit allow |
| JiraReader.GetFrom | generated-skills/create-msft-bugreport/jira_reader.py:40 | `.get` succeeds exactly on an object, and gives the key's value or the default |
| JiraReader.ObjectsOf | generated-skills/create-msft-bugreport/jira_reader.py:100-106 | a list is visited exactly when every item is an object; None, booleans and numbers raise |
| JiraReader.ExtractUser | generated-skills/create-msft-bugreport/jira_reader.py:89-98 | a falsy user is the unknown user; an object gives its name, email and display name, which falls back to the name and then to "Unknown" |
| JiraReader.NamedOfAppend | generated-skills/create-msft-bugreport/jira_reader.py:100-106 | the filter keeps order: the names of a concatenation are those of its parts |
| JiraReader.NamedOfOne | generated-skills/create-msft-bugreport/jira_reader.py:100-106 | one entry gives its name exactly when the name is truthy |
| JiraReader.NamesOf | generated-skills/create-msft-bugreport/jira_reader.py:100-106 | succeeds exactly when the entries can be visited, and gives their truthy names |
| JiraReader.LinkEntries | generated-skills/create-msft-bugreport/jira_reader.py:179-197 | one entry per direction the link has, the inward one first and the outward one last |
| JiraReader.ExtractLinks | generated-skills/create-msft-bugreport/jira_reader.py:175-199 | the entries of the links, in order, or the first error |
| JiraReader.LinksOfStops | generated-skills/create-msft-bugreport/jira_reader.py:175-199 | once a link raises, every longer list of links raises with the same error |
| JiraReader.LinksCount | generated-skills/create-msft-bugreport/jira_reader.py:175-199 | every inward and every outward link gives exactly one entry |
| JiraReader.ExtractCustomFields | generated-skills/create-msft-bugreport/jira_reader.py:214-220 | exactly the `customfield_` keys whose value is not None, each with its value |
| JiraReader.ParseDescriptionSections | generated-skills/create-msft-bugreport/jira_reader.py:222-264 | a falsy description gives empty sections; a truthy non-string raises; otherwise every section is stripped text, and the description is kept as parsed |
| JiraReader.ConvertJiraMarkup | generated-skills/create-msft-bugreport/jira_reader.py:266-309 | falsy text comes back as it is; a truthy string gives a string; a truthy non-string raises |
| JiraReader.AttachmentsOf | generated-skills/create-msft-bugreport/jira_reader.py:108-119 | one attachment entry per attachment |
| JiraReader.CommentsOf | generated-skills/create-msft-bugreport/jira_reader.py:201-212 | one comment entry per comment |
| JiraReader.IssueFieldsOf | generated-skills/create-msft-bugreport/jira_reader.py:40-82 | the key is the response's own key or the reader's; the fields are an object |
| JiraReader.WithSections | generated-skills/create-msft-bugreport/jira_reader.py:84-85 | an error stays that error; a record gets the sections of its own description |
| JiraReader.Reader.constructor | generated-skills/create-msft-bugreport/jira_reader.py:18-27 | keeps the key upper-cased and starts with no raw or parsed data |
| JiraReader.Reader.ExtractIssueData | generated-skills/create-msft-bugreport/jira_reader.py:29-87 | keeps the response as raw data; the record with its sections or the first error; the parsed data is replaced by what was built before any error |
| JiraReader.AddSections | generated-skills/create-msft-bugreport/jira_reader.py:84-85 | the record with the sections of its description |
| JiraReader.IssueKeyFallback | generated-skills/create-msft-bugreport/jira_reader.py:44 | without a key in the response, the record's key is the reader's upper-cased key, which has no lower-case letter |
| MicrosoftTemplate.Subscript | generated-skills/create-msft-bugreport/microsoft_template.py:101-107 | `self.jira[k]` raises exactly for an absent key; None shows as "None" |
| MicrosoftTemplate.BaseUrl | generated-skills/create-msft-bugreport/microsoft_template.py:27-36 | a prefix of the URL without `/rest/api`, cut exactly where `/rest/api` first occurs, or the whole URL when it does not |
| MicrosoftTemplate.BuildJiraUrl | generated-skills/create-msft-bugreport/microsoft_template.py:27-36 | a marker without a URL; with one, it raises exactly when the key is absent, and otherwise gives the site followed by `/browse/` and the key |
| MicrosoftTemplate.NewTemplate | generated-skills/create-msft-bugreport/microsoft_template.py:15-25 | raises exactly when building the URL does; otherwise keeps the issue and validation with the built URL |
| MicrosoftTemplate.FindWorkaround | generated-skills/create-msft-bugreport/microsoft_template.py:370-379 | the loop with its early return gives the search's result |
| MicrosoftTemplate.WorkaroundFirst | generated-skills/create-msft-bugreport/microsoft_template.py:370-379 | the first comment that mentions a workaround, after comments that were passed over, is the one found |
| MicrosoftTemplate.WorkaroundSound | generated-skills/create-msft-bugreport/microsoft_template.py:370-379 | a found workaround is the body of a comment that mentions one, and every comment before it was passed over |
| MicrosoftTemplate.WorkaroundNone | generated-skills/create-msft-bugreport/microsoft_template.py:370-379 | nothing is found exactly when every comment is passed over |
| MicrosoftTemplate.SeverityDescription | generated-skills/create-msft-bugreport/microsoft_template.py:217-231 | the table entry of a known priority; the unknown-impact text otherwise, also for None |
| MicrosoftTemplate.MissingPriorityIsMedium | generated-skills/create-msft-bugreport/microsoft_template.py:219-231 | an absent priority gives the same severity section as Medium |
| MicrosoftTemplate.MissingFieldReason | generated-skills/create-msft-bugreport/microsoft_template.py:387-400 | the table reason of a known field; "Not available in JIRA" exactly for any other name |
| MicrosoftTemplate.FieldGroup | generated-skills/create-msft-bugreport/microsoft_template.py:333-348 | nothing exactly when no field is missing; otherwise the heading, one line per field and a blank line |
| MicrosoftTemplate.AppendFieldLines | generated-skills/create-msft-bugreport/microsoft_template.py:335-339 | appends one checklist line per field |
| MicrosoftTemplate.AppendFieldGroup | generated-skills/create-msft-bugreport/microsoft_template.py:333-348 | appends the group's lines |
| MicrosoftTemplate.FormatMissingFields | generated-skills/create-msft-bugreport/microsoft_template.py:327-348 | the section's lines joined with newlines |
| MicrosoftTemplate.FormatBlock | generated-skills/create-msft-bugreport/microsoft_template.py:124-154 | raises exactly for None; the placeholder for absent or blank text; otherwise the header and the stripped text |
| MicrosoftTemplate.EnvironmentText | generated-skills/create-msft-bugreport/microsoft_template.py:161 | raises exactly for a None environment; an absent one reads as empty, a present one is stripped |
| MicrosoftTemplate.BlockIgnoresSurroundingSpace | generated-skills/create-msft-bugreport/microsoft_template.py:124-154 | whitespace around a behaviour text never changes its section |
| MicrosoftTemplate.RemoveSubSectionsUnchanged | generated-skills/create-msft-bugreport/microsoft_template.py:113-120 | the description is left as it is exactly when no sub-section occurs in it |
| MicrosoftTemplate.DescriptionBody | generated-skills/create-msft-bugreport/microsoft_template.py:109-122 | the body is stripped: it neither starts nor ends with whitespace |
| MicrosoftTemplate.FormatDescription | generated-skills/create-msft-bugreport/microsoft_template.py:109-122 | the description section |
| MicrosoftTemplate.DescriptionOnlyStripped | generated-skills/create-msft-bugreport/microsoft_template.py:109-122 | when no sub-section occurs in it, the description is only stripped |
| MicrosoftTemplate.NullDescriptionCrashes | generated-skills/create-msft-bugreport/microsoft_template.py:109-122 | as written, the section raises exactly for a None description without a parsed description |
| MicrosoftTemplate.DescriptionAgrees | generated-skills/create-msft-bugreport/microsoft_template.py:109-122 | where the written code does not raise, it gives the corrected section |
| MicrosoftTemplate.HasCodeBlockAsWritten | generated-skills/create-msft-bugreport/microsoft_template.py:365-368 | as written, raises exactly for a None description |
| MicrosoftTemplate.HasCodeBlock | generated-skills/create-msft-bugreport/microsoft_template.py:365-368 | agrees with the written test wherever that does not raise |
| MicrosoftTemplate.MissingSection | generated-skills/create-msft-bugreport/microsoft_template.py:89-91 | the missing-information section exactly when a field is missing |
| MicrosoftTemplate.AppendWorkaround | generated-skills/create-msft-bugreport/microsoft_template.py:70-72 | appends the workaround section when its condition holds, or passes on the search's error |
| MicrosoftTemplate.AppendReferences | generated-skills/create-msft-bugreport/microsoft_template.py:74-84 | appends the related issues, screenshots and root cause sections |
| MicrosoftTemplate.AppendClosing | generated-skills/create-msft-bugreport/microsoft_template.py:86-97 | appends a rule, the missing-information section, another rule and the metadata |
| MicrosoftTemplate.GenerateMarkdown | generated-skills/create-msft-bugreport/microsoft_template.py:38-99 | the report's sections joined with newlines, or the first error |
| MicrosoftTemplate.Plan | generated-skills/create-msft-bugreport/microsoft_template.py:38-99 | each optional section appears exactly when its condition holds; the title comes first and the metadata last |
| MicrosoftTemplate.AssembledParts | generated-skills/create-msft-bugreport/microsoft_template.py:38-99 | sections whose pieces have the plan's parts have the plan's parts |
| MicrosoftTemplate.SectionsShape | generated-skills/create-msft-bugreport/microsoft_template.py:38-99 | a built report's sections, piece by piece |
| MicrosoftTemplate.PlannedSections | generated-skills/create-msft-bugreport/microsoft_template.py:38-99 | sections assembled from pieces with the plan's parts have the plan's parts |
| MicrosoftTemplate.ReportFollowsPlan | generated-skills/create-msft-bugreport/microsoft_template.py:38-99 | a built report has exactly the plan's sections for the issue's conditions |
| MicrosoftTemplate.ReportErrors | generated-skills/create-msft-bugreport/microsoft_template.py:38-99 | building the report, with the corrected description, raises exactly when the summary or key is absent, a behaviour text or the environment is None, or the workaround search raises |
| MicrosoftTemplate.GenerateGithubBugReport | generated-skills/create-msft-bugreport/microsoft_template.py:403-432 | the construction's error, or the markdown of the built template |

## Left out

- **Regular expressions.** Each pattern search is a function parameter:
  - the validator's OS and .NET patterns;
  - the pull-request review patterns and test-path patterns;
  - the commit-kind and work-item patterns;
  - the CODEOWNERS glob;
  - the description-section searches;
  - the wiki-markup rewrites.

  Where a property depends on what a regular expression does, the model states it for the text the expression sees. The hand-written sanitisers are modelled exactly. The diff header reading is modelled twice: as written (`PrCreator.HeaderFileAsWritten`) and corrected (`PrCreator.HeaderFile`).
- **Side effects outside the data.**
  - The clock is a timestamp parameter.
  - Files, directories, attachment downloads, CLI entry points and HTTP calls are not modelled.
- **Formatters of the GitHub template.** These formatters (title, source, steps, behaviour, environment, stack trace, related issues, screenshots, root cause, metadata) build text from issue fields. They are taken as already rendered, in `Rendered`. The model keeps which section each formatter produces and its order. Of the error paths that the issue dictionary built by `jira_reader.py` can reach, it keeps: an absent summary or key, a None behaviour text, a None environment (kept by `jira_reader.py` line 73 and rejected by `.strip()` at `microsoft_template.py` line 161), and the workaround search. It does not keep two, because the attachment and component lists are taken as rendered:
  - `{size:,}` in `_format_screenshots` (`microsoft_template.py` lines 284, 287 and 302) raises for an attachment whose size is None (TypeError) or a string (ValueError), which `jira_reader.py` line 114 passes on as JIRA sent it;
  - `', '.join(components)` in `_format_environment` (`microsoft_template.py` line 181) raises for a truthy component name that is not a string, which `jira_reader.py` line 106 keeps.

  The members these two affect are listed below under their own names. `_format_description`, the behaviour blocks, `_format_severity` and `_format_missing_fields` are modelled.
- **Descriptions from a clock or markup.** The C# report's description and `_create_description` in `jira_reporter.py` read the clock and paste fields. Their text is a parameter of `Build` and `FormatIssuePayload`. The one exception `_create_description` can raise on a record of strings and None is kept: `bug_data['exception_type']` at `jira_reporter.py` line 115, reached when the message is truthy and the key is absent.
- **Values outside the model.**
  - Non-string JSON values are kept as values, with no arithmetic on them.
  - Float arithmetic is left out: the validator's `completeness_score`, the reviewer's `test_ratio` (`test_files / max(source_files, 1)` in `pr_reviewer.py`, which `PrReviewer.CheckTestCoverage` leaves out of its counts), and the analytics percentages and cycle times. The cycle times' date parsing goes with them; its exceptions are listed on the `PrAnalytics.CalculateMetrics` line below.
  - `_calculate_quality_score` is modelled in tenths of a point, on exact arithmetic (see the `PrReviewer.CalculateQualityScore` line below).
- **Text.**
  - Case mapping and `isalnum` are ASCII only. Whitespace is the full `str.isspace` set, which `Text.IsSpace` lists.
  - `str.replace` in `_format_description` is modelled one sub-section at a time, as in the source's loop.
- PrCreator.SuggestReviewers: `list(set)[:n]` depends on the set's iteration order. The contract states which names may be chosen and how many, not which ones are.
- PrCreator.AnalyzeChanges: the author and work-item lists are kept as sets; the order `list(set)` gives them is left open.
- Ranking.SortDesc: the sort is stable by construction, but the contract states order and permutation only.
- FieldValidator.HasEnvironmentInfo: the environment must be a string or falsy. A truthy non-string raises in `re.search`, and that error path is not modelled. The same precondition, `EnvironmentOk`, sits on every member that runs the environment checks, so none of them models that exception: `FieldValidator.RequiredChecks`, `FieldValidator.AllChecks`, `FieldValidator.AllCheckNames`, `FieldValidator.ValidationCovers`, `FieldValidator.EveryNameLands`, `FieldValidator.EmptyEnvironmentMissing`, `FieldValidator.WorkaroundLands`, `FieldValidator.GitHubFieldValidator.ValidateRequiredFields` and `FieldValidator.GitHubFieldValidator.Validate`.
- PrCreator.MatchCodeowners: `_matches_pattern`'s glob-to-regex translation is a parameter.
- PrReviewer.CheckTestCoverage: the five test-path patterns are one predicate parameter.
- PrReviewer.CalculateQualityScore: the source subtracts 2, 1, 0.5 and 0.2 from a binary float and truncates with `int()`; the model subtracts exact tenths. The two can differ by one: one critical finding followed by five low ones leaves 6.999999999999999 in IEEE doubles, so the source returns 6 where the model returns 7. Accumulated rounding is not modelled.
- JiraReporter.FormatIssuePayload: the summary is the corrected `CreateSummary`, so a record whose `root_cause` is None gets a payload, where the source raises at `jira_reporter.py` line 77 (the first row under "## Findings"). When such a record also has a message and no exception type, the source's first exception is that AttributeError, and the model's is the later KeyError of `_create_description`. The written behaviour is `CreateSummaryAsWritten`.
- JiraReporter.JiraIssueBuilder.Build: builds on `FormatIssuePayload`, so the same None `root_cause` gives a payload instead of the source's exception.
- PrCreator.AnalyzeDiff: file names are read with the corrected `HeaderFile`, so `diff --git a/lib/x.py b/lib/x.py` lists `lib/x.py` where the source lists `x.py` (the second row under "## Findings"). The written reading is `HeaderFileAsWritten`.
- PrCreator.AnalyzeChanges: its diff statistics come from `AnalyzeDiff` and carry the same corrected file names.
- MicrosoftTemplate.GenerateMarkdown: the description section and the code-block test are the corrected `DescriptionSection` and `HasCodeBlock`, so an issue with a null description and a falsy `description_parsed` gets a report, where the source raises at `microsoft_template.py` lines 120 and 368 (the third row under "## Findings"). The same holds for `Plan`, `SectionsShape`, `PlannedSections` and `ReportFollowsPlan`, which describe that report. The written behaviour is `DescriptionAsWritten` and `HasCodeBlockAsWritten`. The environment and screenshot sections are taken as rendered, so a None or string attachment size and a non-string component name give a report, where the source raises at `microsoft_template.py` lines 284, 287, 302 and 181 (TypeError for a None size or a non-string name, ValueError for a string size).
- MicrosoftTemplate.ReportErrors: its error cases are those of the corrected report; the null-description exception of the written code is not among them. Nor are the exceptions of an attachment size that is None or a string (`microsoft_template.py` lines 284, 287, 302) and of a non-string component name (line 181): those sections are taken as rendered.
- MicrosoftTemplate.GenerateGithubBugReport: returns `GenerateMarkdown`'s report, so a null description does not raise, and neither do a None or string attachment size or a non-string component name.
- PrAnalytics.CalculateMetrics: pull-request records use `Option`, so a key present with None cannot be represented. In the source, `pr.get('createdBy', {}).get(...)`, `pr.get('lines_changed', 0) < 100` and iterating `pr.get('reviewers', [])` raise on such a value. The same holds for the commit records of `PrCreator` (`commit.get('message', '')` at `pr_creator.py` lines 56 and 163, and `commits[0].get('message', '')` at line 397) and for `PrReviewer`'s file changes (`change.get('item', {}).get('path', ...)`). Its metrics also leave out the cycle times, and with them their exceptions. For a completed pull request with both dates truthy, `_calculate_cycle_times` (`pr_analytics.py` lines 41-43, called at line 22) raises where the model returns metrics:
  - ValueError for a date that is not an ISO 8601 string;
  - AttributeError for a truthy date that is not a string;
  - TypeError for a naive date subtracted from an aware one.
- `analyze_pull_request`, `_identify_positives` and `_format_comment_message` assemble text from the modelled parts and are not modelled separately.
- `_apply_template` and `generate_description` fill a text template and are not modelled.
- `_analyze_code` in `bug_analyzer.py` is regex scanning and is not modelled. Its results enter as fields of the bug record.
- `export_mm300_github.py` is not part of this model.

## Findings

| source | as written | input that shows it | evidently intended | confidence | as-written member | corrected member |
|---|---|---|---|---|---|---|
| generated-skills/csharp-bug-documentation/jira_reporter.py:76-77 | `bug_data.get('root_cause', '').lower()` raises when the key holds None, which `analyze` leaves unless code analysis found a cause | the analyser's record for a parsed stack trace with no code: `root_cause` is None | treat None as no root cause | not executed | JiraReporter.NoneRootCauseCrashes | JiraReporter.SummaryCorrected |
| generated-skills/rrez-pr-mgr/pr_creator.py:107 | the pattern `b/(.*?)`, ended by whitespace or the end of the line, takes the first `b/` anywhere in the header | `diff --git a/lib/x.py b/lib/x.py` gives `x.py` | the new-file path after ` b/` | not executed | PrCreator.HeaderFileAsWrittenCutsPath | PrCreator.HeaderFileIsNewPath |
| generated-skills/create-msft-bugreport/microsoft_template.py:109-122 | with a falsy `description_parsed`, a None description reaches `description.strip()` and raises; `_has_code_block` raises the same way at line 368 | a JIRA issue whose description field is null: `jira_reader.py` line 50 keeps the None, and lines 233-240 leave `description_parsed` None too | read None as an empty description | not executed | MicrosoftTemplate.NullDescriptionCrashes | MicrosoftTemplate.DescriptionAgrees |
