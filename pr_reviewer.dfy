/** The pull-request reviewer of the Azure DevOps tools: diff line counts,
    complexity buckets, pattern findings per added line, test coverage counts,
    the quality score, the risk level, recommendations and the regrouping of
    findings into review comments. */
module PrReviewer {
  import opened Py
  import opened Text
  import opened DiffLines

  /** A finding's severity; the pattern table uses the first four only. */
  datatype IssueSeverity = Critical | High | Medium | Low | Other(name: string)

  /** One entry of the pattern tables: the regular expression, the category,
      the severity and the message. */
  datatype Rule = Rule(regex: string, category: string, severity: IssueSeverity, message: string)

  const SecurityRules: seq<Rule> := [
    Rule("eval\\s*\\(", "security", High, "Use of eval() is dangerous - consider safer alternatives"),
    Rule("exec\\s*\\(", "security", High, "Use of exec() is dangerous - consider safer alternatives"),
    Rule("os\\.system\\s*\\(", "security", High, "Use subprocess module instead of os.system()"),
    Rule("shell=True", "security", High, "Avoid shell=True in subprocess calls"),
    Rule("password\\s*=\\s*[\"'][\\w]+[\"']", "security", Critical, "Hardcoded password detected"),
    Rule("api[_-]?key\\s*=\\s*[\"'][\\w]+[\"']", "security", Critical, "Hardcoded API key detected"),
    Rule("SELECT.*\\+.*FROM", "security", Critical, "Potential SQL injection - use parameterized queries"),
    Rule("innerHTML\\s*=", "security", Medium, "Potential XSS vulnerability - use textContent or sanitize")]

  const QualityRules: seq<Rule> := [
    Rule("TODO|FIXME|XXX|HACK", "quality", Low, "TODO/FIXME comment - consider addressing before merging"),
    Rule("console\\.log\\(", "quality", Low, "Remove console.log before merging"),
    Rule("print\\s*\\(.*#.*debug", "quality", Low, "Remove debug print statement"),
    Rule("debugger;", "quality", Medium, "Remove debugger statement"),
    Rule("except:\\s*pass", "quality", Medium, "Empty except clause - add error handling"),
    Rule("catch\\s*\\(\\w+\\)\\s*{\\s*}", "quality", Medium, "Empty catch block - add error handling")]

  const PerformanceRules: seq<Rule> := [
    Rule("for\\s+\\w+\\s+in.*:.*for\\s+\\w+\\s+in", "performance", Medium, "Nested loops - consider optimization"),
    Rule("\\.find\\(.*\\).*for\\s+\\w+\\s+in", "performance", Medium, "find() in loop - inefficient, use filter() or dict"),
    Rule("SELECT\\s+\\*\\s+FROM", "performance", Low, "SELECT * is inefficient - specify needed columns")]

  /** Security first, then quality, then performance. */
  const AllRules: seq<Rule> := SecurityRules + QualityRules + PerformanceRules

  /** Every rule of the table carries one of the four listed severities. */
  lemma RuleSeveritiesListed()
    ensures forall r <- AllRules :: !r.severity.Other?
  {
  }

  /** A changed file: its path (None when the item has none), its change type
      ('edit' when absent) and its diff text ('' when absent). */
  datatype Change = Change(path: Option<string>, changeType: string, diff: string)

  /** `re.search(pattern, text, re.IGNORECASE)`: whether the pattern occurs in the text. */
  type Matcher = (string, string) -> bool

  datatype Issue = Issue(
    filePath: string,
    line: nat,
    category: string,
    severity: IssueSeverity,
    message: string,
    snippet: string)

  /** The rules whose pattern occurs in the line, in table order. */
  function Matching(rules: seq<Rule>, content: string, matches: Matcher): (ms: seq<Rule>)
    ensures |ms| <= |rules|
    decreases |rules|
  {
    if rules == [] then []
    else
      var r := rules[|rules| - 1];
      Matching(rules[..|rules| - 1], content, matches) + (if matches(r.regex, content) then [r] else [])
  }

  /** Every rule `Matching` keeps is a rule of the table whose pattern occurs in the content. */
  lemma {:induction false} MatchingSound(rules: seq<Rule>, content: string, matches: Matcher)
    ensures forall r <- Matching(rules, content, matches) :: r in rules && matches(r.regex, content)
    decreases |rules|
  {
    if rules != [] {
      var front := rules[..|rules| - 1];
      MatchingSound(front, content, matches);
      assert forall r <- front :: r in rules;
    }
  }

  function IssueOf(path: string, num: nat, content: string, r: Rule): Issue {
    Issue(path, num, r.category, r.severity, r.message, Strip(content))
  }

  /** One finding per rule, in rule order. */
  function IssuesOf(path: string, num: nat, content: string, rules: seq<Rule>): (issues: seq<Issue>)
    ensures |issues| == |rules|
    ensures forall k :: 0 <= k < |rules| ==> issues[k] == IssueOf(path, num, content, rules[k])
  {
    seq(|rules|, k requires 0 <= k < |rules| => IssueOf(path, num, content, rules[k]))
  }

  /** The findings of line number `num` (counted from 1): one per matching
      rule when the line is an added line, none otherwise. */
  function LineIssues(path: string, num: nat, line: string, rules: seq<Rule>, matches: Matcher): seq<Issue> {
    if StartsWith(line, "+") then IssuesOf(path, num, line[1..], Matching(rules, line[1..], matches))
    else []
  }

  /** The findings of the first `n` lines. */
  function IssuesUpTo(path: string, lines: seq<string>, n: nat, rules: seq<Rule>, matches: Matcher): seq<Issue>
    requires n <= |lines|
  {
    if n == 0 then []
    else IssuesUpTo(path, lines, n - 1, rules, matches) + LineIssues(path, n, lines[n - 1], rules, matches)
  }

  /** The findings of a changed file: none for a deleted file or an empty diff. */
  function FileIssues(change: Change, rules: seq<Rule>, matches: Matcher): seq<Issue> {
    if change.changeType == "delete" || change.diff == [] then []
    else
      var lines := Split(change.diff, '\n');
      IssuesUpTo(change.path.GetOr("unknown"), lines, |lines|, rules, matches)
  }

  /** `_analyze_file_change`; `rules` is the review pattern table, `AllRules`. */
  method AnalyzeFileChange(change: Change, rules: seq<Rule>, matches: Matcher) returns (issues: seq<Issue>)
    ensures issues == FileIssues(change, rules, matches)
  {
    issues := [];
    var path := change.path.GetOr("unknown");
    if change.changeType == "delete" {
      return;
    }
    if change.diff == [] {
      return;
    }
    var lines := Split(change.diff, '\n');
    var n := 0;
    while n < |lines|
      invariant 0 <= n <= |lines|
      invariant issues == IssuesUpTo(path, lines, n, rules, matches)
    {
      var found := ScanLine(path, n + 1, lines[n], rules, matches);
      issues := issues + found;
      n := n + 1;
      UpToStep(path, lines, n, rules, matches);
    }
  }

  /** The findings of one line of the diff: none unless it is an added line. */
  method ScanLine(path: string, num: nat, line: string, rules: seq<Rule>, matches: Matcher)
    returns (found: seq<Issue>)
    ensures found == LineIssues(path, num, line, rules, matches)
  {
    found := [];
    if StartsWith(line, "+") {
      found := MatchLine(path, num, line[1..], rules, matches);
    }
  }

  /** The inner loop of `_analyze_file_change`: one finding per rule whose
      pattern occurs in the added line's content. */
  method MatchLine(path: string, num: nat, content: string, rules: seq<Rule>, matches: Matcher)
    returns (found: seq<Issue>)
    ensures found == IssuesOf(path, num, content, Matching(rules, content, matches))
  {
    found := [];
    var j := 0;
    while j < |rules|
      invariant 0 <= j <= |rules|
      invariant found == IssuesOf(path, num, content, Matching(rules[..j], content, matches))
    {
      var r := rules[j];
      MatchingStep(rules, j, content, matches);
      IssuesOfAppend(path, num, content, Matching(rules[..j], content, matches),
                     if matches(r.regex, content) then [r] else []);
      if matches(r.regex, content) {
        found := found + [IssueOf(path, num, content, r)];
      }
      j := j + 1;
    }
    assert rules[..j] == rules;
  }

  lemma MatchingStep(rules: seq<Rule>, j: nat, content: string, matches: Matcher)
    requires j < |rules|
    ensures Matching(rules[..j + 1], content, matches)
            == Matching(rules[..j], content, matches) + (if matches(rules[j].regex, content) then [rules[j]] else [])
  {
    assert rules[..j + 1][..j] == rules[..j];
  }

  lemma IssuesOfAppend(path: string, num: nat, content: string, a: seq<Rule>, b: seq<Rule>)
    ensures IssuesOf(path, num, content, a + b) == IssuesOf(path, num, content, a) + IssuesOf(path, num, content, b)
  {
  }

  /** Finding `i` points at an added line of `lines` (numbered from 1), in the
      file `path`, and comes from a rule of the table whose pattern occurs in it. */
  predicate PointsAt(i: Issue, path: string, lines: seq<string>, rules: seq<Rule>, matches: Matcher) {
    1 <= i.line <= |lines| && StartsWith(lines[i.line - 1], "+") && i.filePath == path
    && i.snippet == Strip(lines[i.line - 1][1..])
    && exists r <- rules :: matches(r.regex, lines[i.line - 1][1..])
         && i.category == r.category && i.severity == r.severity && i.message == r.message
  }

  /** The findings of line `n` all carry that line's number and point at it. */
  lemma LinePoints(path: string, lines: seq<string>, n: nat, rules: seq<Rule>, matches: Matcher)
    requires 1 <= n <= |lines|
    ensures forall i <- LineIssues(path, n, lines[n - 1], rules, matches) ::
              i.line == n && PointsAt(i, path, lines, rules, matches)
  {
    var line := lines[n - 1];
    if StartsWith(line, "+") {
      var ms := Matching(rules, line[1..], matches);
      MatchingSound(rules, line[1..], matches);
      forall i <- LineIssues(path, n, line, rules, matches)
        ensures i.line == n && PointsAt(i, path, lines, rules, matches)
      {
        var k :| 0 <= k < |ms| && i == IssueOf(path, n, line[1..], ms[k]);
        assert ms[k] in ms;
      }
    }
  }

  /** Every finding of the first `n` lines points at an added line among them. */
  lemma {:induction false} IssuesPointAtAddedLines(path: string, lines: seq<string>, n: nat, rules: seq<Rule>, matches: Matcher)
    requires n <= |lines|
    ensures forall i <- IssuesUpTo(path, lines, n, rules, matches) :: PointsAt(i, path, lines, rules, matches)
  {
    if n > 0 {
      IssuesPointAtAddedLines(path, lines, n - 1, rules, matches);
      LinePoints(path, lines, n, rules, matches);
      UpToMembers(path, lines, n, rules, matches);
    }
  }

  /** The findings of line `n` carry that line's number. */
  lemma LineNumbered(path: string, n: nat, line: string, rules: seq<Rule>, matches: Matcher)
    ensures forall i <- LineIssues(path, n, line, rules, matches) :: i.line == n
  {
  }

  /** A finding of the first `n` lines is one of the first `n - 1` lines or one of line `n`. */
  lemma UpToMembers(path: string, lines: seq<string>, n: nat, rules: seq<Rule>, matches: Matcher)
    requires 1 <= n <= |lines|
    ensures forall i <- IssuesUpTo(path, lines, n, rules, matches) ::
              i in IssuesUpTo(path, lines, n - 1, rules, matches) || i in LineIssues(path, n, lines[n - 1], rules, matches)
  {
  }

  /** The findings are in non-decreasing line order. */
  predicate InLineOrder(issues: seq<Issue>) {
    forall a, b :: 0 <= a < b < |issues| ==> issues[a].line <= issues[b].line
  }

  /** Findings come in line order, none past the lines read. */
  lemma {:induction false} IssuesInLineOrder(path: string, lines: seq<string>, n: nat, rules: seq<Rule>, matches: Matcher)
    requires n <= |lines|
    ensures InLineOrder(IssuesUpTo(path, lines, n, rules, matches))
    ensures forall i <- IssuesUpTo(path, lines, n, rules, matches) :: i.line <= n
  {
    if n > 0 {
      IssuesInLineOrder(path, lines, n - 1, rules, matches);
      LineNumbered(path, n, lines[n - 1], rules, matches);
      UpToStep(path, lines, n, rules, matches);
      SortedAppend(IssuesUpTo(path, lines, n - 1, rules, matches), LineIssues(path, n, lines[n - 1], rules, matches),
                   IssuesUpTo(path, lines, n, rules, matches), n);
    }
  }

  lemma UpToStep(path: string, lines: seq<string>, n: nat, rules: seq<Rule>, matches: Matcher)
    requires 1 <= n <= |lines|
    ensures IssuesUpTo(path, lines, n, rules, matches)
            == IssuesUpTo(path, lines, n - 1, rules, matches) + LineIssues(path, n, lines[n - 1], rules, matches)
  {
  }

  /** Findings of line `n` after findings in line order up to line `n - 1` keep the order. */
  lemma SortedAppend(front: seq<Issue>, here: seq<Issue>, all: seq<Issue>, n: nat)
    requires all == front + here
    requires InLineOrder(front)
    requires forall i <- front :: i.line <= n - 1
    requires forall i <- here :: i.line == n
    ensures InLineOrder(all)
    ensures forall i <- all :: i.line <= n
  {
    forall a, b | 0 <= a < b < |all| ensures all[a].line <= all[b].line {
      if b >= |front| {
        assert all[b] in here;
        if a < |front| {
          assert all[a] in front;
        } else {
          assert all[a] in here;
        }
      }
    }
  }


  /** The added and deleted lines of one diff. */
  function LineCounts(lines: seq<string>): (counts: (nat, nat))
    ensures counts.0 + counts.1 <= |lines|
  {
    if lines == [] then (0, 0)
    else
      var c := LineCounts(lines[..|lines| - 1]);
      var line := lines[|lines| - 1];
      if IsAddition(line) then (c.0 + 1, c.1)
      else if IsDeletion(line) then (c.0, c.1 + 1)
      else c
  }

  /** The added and deleted lines of all diffs. */
  function DiffCounts(changes: seq<Change>): (nat, nat) {
    if changes == [] then (0, 0)
    else
      var c := DiffCounts(changes[..|changes| - 1]);
      var d := LineCounts(Split(changes[|changes| - 1].diff, '\n'));
      (c.0 + d.0, c.1 + d.1)
  }

  /** Counting two lists of changes one after the other adds their counts. */
  lemma {:induction false} DiffCountsAppend(a: seq<Change>, b: seq<Change>)
    ensures DiffCounts(a + b).0 == DiffCounts(a).0 + DiffCounts(b).0
    ensures DiffCounts(a + b).1 == DiffCounts(a).1 + DiffCounts(b).1
    decreases |b|
  {
    if b == [] {
      assert a + b == a;
    } else {
      DiffCountsAppend(a, b[..|b| - 1]);
      assert (a + b)[..|a + b| - 1] == a + b[..|b| - 1];
    }
  }

  lemma DiffCountsStep(changes: seq<Change>, i: nat)
    requires i < |changes|
    ensures DiffCounts(changes[..i + 1]).0 == DiffCounts(changes[..i]).0 + LineCounts(Split(changes[i].diff, '\n')).0
    ensures DiffCounts(changes[..i + 1]).1 == DiffCounts(changes[..i]).1 + LineCounts(Split(changes[i].diff, '\n')).1
  {
    assert changes[..i + 1][..i] == changes[..i];
  }

  datatype Size = Small | Moderate | Large

  /** 'small' below 100 changed lines, 'medium' below 500, 'large' otherwise. */
  function SizeOf(total: nat): (s: Size)
    ensures s == Small <==> total < 100
    ensures s == Moderate <==> 100 <= total < 500
    ensures s == Large <==> total >= 500
  {
    if total < 100 then Small else if total < 500 then Moderate else Large
  }

  function Rank(s: Size): nat {
    match s
    case Small => 0
    case Moderate => 1
    case Large => 2
  }

  /** More changed lines never make a smaller bucket. */
  lemma SizeMonotone(a: nat, b: nat)
    requires a <= b
    ensures Rank(SizeOf(a)) <= Rank(SizeOf(b))
  {
  }

  datatype Complexity = Complexity(filesChanged: nat, additions: nat, deletions: nat, totalChanges: nat, size: Size)

  /** `_calculate_complexity`. */
  method CalculateComplexity(changes: seq<Change>) returns (c: Complexity)
    ensures c.filesChanged == |changes|
    ensures c.additions == DiffCounts(changes).0 && c.deletions == DiffCounts(changes).1
    ensures c.totalChanges == c.additions + c.deletions
    ensures c.size == SizeOf(c.totalChanges)
  {
    var additions := 0;
    var deletions := 0;
    var i := 0;
    while i < |changes|
      invariant 0 <= i <= |changes|
      invariant (additions, deletions) == DiffCounts(changes[..i])
    {
      var d := CountLines(Split(changes[i].diff, '\n'));
      DiffCountsStep(changes, i);
      additions := additions + d.0;
      deletions := deletions + d.1;
      i := i + 1;
    }
    assert changes[..i] == changes;
    var total := additions + deletions;
    c := Complexity(|changes|, additions, deletions, total, SizeOf(total));
  }

  /** The inner loop of `_calculate_complexity`: the added and deleted lines of one diff. */
  method CountLines(lines: seq<string>) returns (counts: (nat, nat))
    ensures counts == LineCounts(lines)
  {
    var additions, deletions := 0, 0;
    var j := 0;
    while j < |lines|
      invariant 0 <= j <= |lines|
      invariant (additions, deletions) == LineCounts(lines[..j])
    {
      assert lines[..j + 1][..j] == lines[..j];
      if IsAddition(lines[j]) {
        additions := additions + 1;
      } else if IsDeletion(lines[j]) {
        deletions := deletions + 1;
      }
      j := j + 1;
    }
    assert lines[..j] == lines;
    counts := (additions, deletions);
  }

  /** The number of changes whose path the test-path patterns match. */
  function TestCount(changes: seq<Change>, isTestPath: string -> bool): (n: nat)
    ensures n <= |changes|
  {
    if changes == [] then 0
    else TestCount(changes[..|changes| - 1], isTestPath)
         + (if isTestPath(changes[|changes| - 1].path.GetOr("")) then 1 else 0)
  }

  datatype Coverage = Coverage(hasTests: bool, testFiles: nat, sourceFiles: nat)

  /** `_check_test_coverage`, with the five path patterns as one predicate. */
  method CheckTestCoverage(changes: seq<Change>, isTestPath: string -> bool) returns (c: Coverage)
    ensures c.testFiles == TestCount(changes, isTestPath)
    ensures c.testFiles + c.sourceFiles == |changes|
    ensures c.hasTests <==> c.testFiles > 0
  {
    var testFiles := 0;
    var sourceFiles := 0;
    var i := 0;
    while i < |changes|
      invariant 0 <= i <= |changes|
      invariant testFiles == TestCount(changes[..i], isTestPath)
      invariant testFiles + sourceFiles == i
    {
      assert changes[..i + 1][..i] == changes[..i];
      if isTestPath(changes[i].path.GetOr("")) {
        testFiles := testFiles + 1;
      } else {
        sourceFiles := sourceFiles + 1;
      }
      i := i + 1;
    }
    assert changes[..i] == changes;
    c := Coverage(testFiles > 0, testFiles, sourceFiles);
  }

  /** The number of findings with the given severity. */
  function Count(issues: seq<Issue>, s: IssueSeverity): (n: nat)
    ensures n <= |issues|
  {
    if issues == [] then 0
    else Count(issues[..|issues| - 1], s) + (if issues[|issues| - 1].severity == s then 1 else 0)
  }

  lemma {:induction false} CountAppend(a: seq<Issue>, b: seq<Issue>, s: IssueSeverity)
    ensures Count(a + b, s) == Count(a, s) + Count(b, s)
    decreases |b|
  {
    if b == [] {
      assert a + b == a;
    } else {
      CountAppend(a, b[..|b| - 1], s);
      assert (a + b)[..|a + b| - 1] == a + b[..|b| - 1];
    }
  }

  /** `max(0, min(10, score))`. */
  function Clamp(score: int): (r: int)
    ensures 0 <= r <= 10
    ensures 0 <= score <= 10 ==> r == score
  {
    if score < 0 then 0 else if score > 10 then 10 else score
  }

  /** `int(x)` for x given in tenths: truncation toward zero. */
  function TruncTenths(tenths: int): int {
    if tenths >= 0 then tenths / 10 else -((-tenths) / 10)
  }

  /** The deduction of one finding, in tenths of a point. */
  function Deduction(s: IssueSeverity): nat {
    match s
    case Critical => 20
    case High => 10
    case Medium => 5
    case Low => 2
    case Other(_) => 0
  }

  /** The score before clamping, in tenths, with exact arithmetic. */
  function RawTenths(issues: seq<Issue>, hasTests: bool, size: Size): int {
    100 - TotalDeduction(issues) + (if hasTests then 10 else 0) - (if size == Large then 10 else 0)
  }

  function TotalDeduction(issues: seq<Issue>): nat {
    if issues == [] then 0 else TotalDeduction(issues[..|issues| - 1]) + Deduction(issues[|issues| - 1].severity)
  }

  /** `_calculate_quality_score`, with the score kept in tenths of a point. */
  method CalculateQualityScore(issues: seq<Issue>, hasTests: bool, size: Size) returns (score: int)
    ensures 0 <= score <= 10
    ensures score == Clamp(TruncTenths(RawTenths(issues, hasTests, size)))
  {
    var tenths := 100;
    var i := 0;
    while i < |issues|
      invariant 0 <= i <= |issues|
      invariant tenths == 100 - TotalDeduction(issues[..i])
    {
      assert issues[..i + 1][..i] == issues[..i];
      var s := issues[i].severity;
      if s == Critical {
        tenths := tenths - 20;
      } else if s == High {
        tenths := tenths - 10;
      } else if s == Medium {
        tenths := tenths - 5;
      } else if s == Low {
        tenths := tenths - 2;
      }
      i := i + 1;
    }
    assert issues[..i] == issues;
    if hasTests {
      tenths := tenths + 10;
    }
    if size == Large {
      tenths := tenths - 10;
    }
    score := Clamp(TruncTenths(tenths));
  }

  /** A pull request without findings, with tests and not large, scores full marks. */
  lemma CleanScoresTen(size: Size)
    requires size != Large
    ensures Clamp(TruncTenths(RawTenths([], true, size))) == 10
  {
  }

  datatype Risk = LowRisk | MediumRisk | HighRisk

  /** `_determine_risk_level`. */
  function RiskLevel(issues: seq<Issue>, size: Size): (r: Risk)
    ensures r == HighRisk <==> Count(issues, Critical) > 0 || Count(issues, High) >= 3
    ensures r == MediumRisk <==> !(Count(issues, Critical) > 0 || Count(issues, High) >= 3)
                                 && (Count(issues, High) > 0 || size == Large)
  {
    if Count(issues, Critical) > 0 || Count(issues, High) >= 3 then HighRisk
    else if Count(issues, High) > 0 || size == Large then MediumRisk
    else LowRisk
  }

  function RiskRank(r: Risk): nat {
    match r
    case LowRisk => 0
    case MediumRisk => 1
    case HighRisk => 2
  }

  /** More findings never lower the risk. */
  lemma RiskMonotone(issues: seq<Issue>, more: seq<Issue>, size: Size)
    ensures RiskRank(RiskLevel(issues, size)) <= RiskRank(RiskLevel(issues + more, size))
  {
    CountAppend(issues, more, Critical);
    CountAppend(issues, more, High);
  }

  const MustFixPrefix := "**MUST FIX**: "
  const AddTests := "Add tests to verify functionality"
  const BreakDown := "Consider breaking down large PR into smaller, focused changes"
  const HighRiskNote := "High-risk PR - request additional reviewer or security review"

  function CriticalNote(n: nat): string {
    MustFixPrefix + NatToString(n) + " critical security issue(s) before merging"
  }

  function HighNote(n: nat): string {
    "Fix " + NatToString(n) + " high-priority issue(s)"
  }

  /** The five recommendations `_generate_recommendations` can make, each with
      the condition under which it is made, in the order they are considered. */
  function RecommendationTable(issues: seq<Issue>, coverage: Coverage, size: Size): seq<(bool, string)> {
    [(Count(issues, Critical) > 0, CriticalNote(Count(issues, Critical))),
     (Count(issues, High) > 0, HighNote(Count(issues, High))),
     (!coverage.hasTests, AddTests),
     (size == Large, BreakDown),
     (RiskLevel(issues, size) == HighRisk, HighRiskNote)]
  }

  /** The texts of the rows whose condition holds, in table order. */
  function Made(rows: seq<(bool, string)>): seq<string> {
    if rows == [] then [] else (if rows[0].0 then [rows[0].1] else []) + Made(rows[1..])
  }

  /** Considering one more row appends its text when its condition holds. */
  lemma {:induction false} MadeSnoc(rows: seq<(bool, string)>, row: (bool, string))
    ensures Made(rows + [row]) == Made(rows) + (if row.0 then [row.1] else [])
    decreases |rows|
  {
    if rows == [] {
      assert [row][1..] == [];
    } else {
      MadeSnoc(rows[1..], row);
      assert (rows + [row])[1..] == rows[1..] + [row];
      assert (rows + [row])[0] == rows[0];
      var head := if rows[0].0 then [rows[0].1] else [];
      assert head + (Made(rows[1..]) + (if row.0 then [row.1] else []))
             == (head + Made(rows[1..])) + (if row.0 then [row.1] else []);
    }
  }

  /** A row whose text no other row carries is made exactly when its condition holds. */
  lemma {:induction false} MadeUnique(rows: seq<(bool, string)>, i: nat)
    requires i < |rows|
    requires forall j :: 0 <= j < |rows| && j != i ==> rows[j].1 != rows[i].1
    ensures rows[i].1 in Made(rows) <==> rows[i].0
    decreases |rows|
  {
    if i == 0 {
      MadeAbsent(rows[1..], rows[0].1);
    } else {
      MadeUnique(rows[1..], i - 1);
    }
  }

  /** A text no row carries is never made. */
  lemma {:induction false} MadeAbsent(rows: seq<(bool, string)>, t: string)
    requires forall j :: 0 <= j < |rows| ==> rows[j].1 != t
    ensures t !in Made(rows)
    decreases |rows|
  {
    if rows != [] {
      MadeAbsent(rows[1..], t);
    }
  }

  /** `_generate_recommendations`, for an analysis whose risk level was set by
      `_determine_risk_level`: the table's texts whose condition holds, in order. */
  method GenerateRecommendations(issues: seq<Issue>, coverage: Coverage, size: Size)
    returns (recs: seq<string>)
    ensures recs == Made(RecommendationTable(issues, coverage, size))
    ensures |recs| == (if Count(issues, Critical) > 0 then 1 else 0) + (if Count(issues, High) > 0 then 1 else 0)
                      + (if !coverage.hasTests then 1 else 0) + (if size == Large then 1 else 0)
                      + (if RiskLevel(issues, size) == HighRisk then 1 else 0)
    ensures Count(issues, Critical) > 0 ==> recs[0] == CriticalNote(Count(issues, Critical))
    ensures RiskLevel(issues, size) == HighRisk ==> |recs| >= 2 && recs[|recs| - 1] == HighRiskNote
  {
    ghost var table := RecommendationTable(issues, coverage, size);
    recs := [];
    var critical := Count(issues, Critical);
    if critical > 0 {
      recs := recs + [CriticalNote(critical)];
    }
    MadeSnoc([], table[0]);
    assert [] + [table[0]] == table[..1];
    var high := Count(issues, High);
    if high > 0 {
      recs := recs + [HighNote(high)];
    }
    MadeSnoc(table[..1], table[1]);
    assert table[..1] + [table[1]] == table[..2];
    if !coverage.hasTests {
      recs := recs + [AddTests];
    }
    MadeSnoc(table[..2], table[2]);
    assert table[..2] + [table[2]] == table[..3];
    if size == Large {
      recs := recs + [BreakDown];
    }
    MadeSnoc(table[..3], table[3]);
    assert table[..3] + [table[3]] == table[..4];
    if RiskLevel(issues, size) == HighRisk {
      recs := recs + [HighRiskNote];
    }
    MadeSnoc(table[..4], table[4]);
    assert table[..4] + [table[4]] == table;
  }

  /** Each recommendation is made exactly when its condition holds: the
      critical and high counts, the missing tests, the large size and the high risk. */
  lemma RecommendationsListed(issues: seq<Issue>, coverage: Coverage, size: Size)
    ensures var recs := Made(RecommendationTable(issues, coverage, size));
            var c, h := Count(issues, Critical), Count(issues, High);
            (CriticalNote(c) in recs <==> c > 0)
            && (HighNote(h) in recs <==> h > 0)
            && (AddTests in recs <==> !coverage.hasTests)
            && (BreakDown in recs <==> size == Large)
            && (HighRiskNote in recs <==> RiskLevel(issues, size) == HighRisk)
  {
    var table := RecommendationTable(issues, coverage, size);
    var c, h := Count(issues, Critical), Count(issues, High);
    // The five texts end in different characters.
    var lasts := [Last(CriticalNote(c)), Last(HighNote(h)), Last(AddTests), Last(BreakDown), Last(HighRiskNote)];
    assert lasts == ['g', ')', 'y', 's', 'w'];
    forall i, j | 0 <= i < 5 && 0 <= j < 5 && i != j ensures table[j].1 != table[i].1 {
      assert Last(table[i].1) == lasts[i] && Last(table[j].1) == lasts[j];
    }
    MadeUnique(table, 0);
    MadeUnique(table, 1);
    MadeUnique(table, 2);
    MadeUnique(table, 3);
    MadeUnique(table, 4);
  }

  /** The findings of one severity, in their original order. */
  function Of(issues: seq<Issue>, s: IssueSeverity): (r: seq<Issue>)
    ensures |r| == Count(issues, s)
    ensures forall i <- r :: i in issues && i.severity == s
  {
    if issues == [] then []
    else
      var last := issues[|issues| - 1];
      Of(issues[..|issues| - 1], s) + (if last.severity == s then [last] else [])
  }

  /** The comment order of the severities. */
  const CommentOrder: seq<IssueSeverity> := [Critical, High, Medium, Low]

  /** The findings regrouped by severity in the given order, each group stable. */
  function Grouped(issues: seq<Issue>, order: seq<IssueSeverity>): seq<Issue> {
    if order == [] then [] else Grouped(issues, order[..|order| - 1]) + Of(issues, order[|order| - 1])
  }

  lemma GroupedStep(issues: seq<Issue>, order: seq<IssueSeverity>, k: nat)
    requires k < |order|
    ensures Grouped(issues, order[..k + 1]) == Grouped(issues, order[..k]) + Of(issues, order[k])
  {
    assert order[..k + 1][..k] == order[..k];
  }

  /** A review comment; `message` is the rendered text of the finding. */
  datatype Comment = Comment(filePath: string, line: nat, category: string, severity: IssueSeverity,
                             message: string, commentType: string)

  function CommentOf(i: Issue, format: Issue -> string): Comment {
    Comment(i.filePath, i.line, i.category, i.severity, format(i), "text")
  }

  function CommentsOf(issues: seq<Issue>, format: Issue -> string): (cs: seq<Comment>)
    ensures |cs| == |issues|
    ensures forall k :: 0 <= k < |issues| ==> cs[k] == CommentOf(issues[k], format)
  {
    seq(|issues|, k requires 0 <= k < |issues| => CommentOf(issues[k], format))
  }

  /** The bucket of a severity in the grouping dictionary, empty when absent. */
  function Bucket(buckets: map<IssueSeverity, seq<Issue>>, s: IssueSeverity): seq<Issue> {
    if s in buckets then buckets[s] else []
  }

  /** `generate_review_comments`: the findings grouped by severity, critical
      first and low last, with findings of any other severity dropped. */
  method GenerateReviewComments(issues: seq<Issue>, format: Issue -> string) returns (comments: seq<Comment>)
    ensures comments == CommentsOf(Grouped(issues, CommentOrder), format)
  {
    var buckets := GroupBySeverity(issues);
    comments := [];
    var k := 0;
    while k < |CommentOrder|
      invariant 0 <= k <= |CommentOrder|
      invariant comments == CommentsOf(Grouped(issues, CommentOrder[..k]), format)
    {
      var s := CommentOrder[k];
      GroupedStep(issues, CommentOrder, k);
      assert Bucket(buckets, s) == Of(issues, s);
      CommentsOfAppend(Grouped(issues, CommentOrder[..k]), Of(issues, s), format);
      comments := AppendComments(comments, Bucket(buckets, s), format);
      k := k + 1;
    }
    assert CommentOrder[..k] == CommentOrder;
  }

  /** The first loop of `generate_review_comments`: a dictionary from each
      severity to its findings, in their original order. */
  method GroupBySeverity(issues: seq<Issue>) returns (buckets: map<IssueSeverity, seq<Issue>>)
    ensures forall s :: Bucket(buckets, s) == Of(issues, s)
  {
    buckets := map[];
    var i := 0;
    while i < |issues|
      invariant 0 <= i <= |issues|
      invariant forall s :: Bucket(buckets, s) == Of(issues[..i], s)
    {
      assert issues[..i + 1][..i] == issues[..i];
      var s := issues[i].severity;
      buckets := buckets[s := Bucket(buckets, s) + [issues[i]]];
      i := i + 1;
    }
    assert issues[..i] == issues;
  }

  /** The inner loop of `generate_review_comments`: one comment per finding of a group. */
  method AppendComments(comments: seq<Comment>, group: seq<Issue>, format: Issue -> string)
    returns (out: seq<Comment>)
    ensures out == comments + CommentsOf(group, format)
  {
    out := comments;
    var j := 0;
    while j < |group|
      invariant 0 <= j <= |group|
      invariant out == comments + CommentsOf(group[..j], format)
    {
      assert CommentsOf(group[..j + 1], format) == CommentsOf(group[..j], format) + [CommentOf(group[j], format)];
      out := out + [CommentOf(group[j], format)];
      j := j + 1;
    }
    assert group[..j] == group;
  }

  lemma CommentsOfAppend(a: seq<Issue>, b: seq<Issue>, format: Issue -> string)
    ensures CommentsOf(a + b, format) == CommentsOf(a, format) + CommentsOf(b, format)
  {
  }

  /** Every finding with one of the four listed severities becomes exactly
      one comment, and the others none. */
  lemma GroupedCount(issues: seq<Issue>)
    ensures |Grouped(issues, CommentOrder)| == |issues| - CountOther(issues)
  {
    GroupedFour(issues);
    SeverityCountsAddUp(issues);
  }

  lemma GroupedFour(issues: seq<Issue>)
    ensures Grouped(issues, CommentOrder)
            == Of(issues, Critical) + Of(issues, High) + Of(issues, Medium) + Of(issues, Low)
  {
    var o := CommentOrder;
    assert o[..4] == o;
    assert o[..3] == [Critical, High, Medium] && o[..3][..2] == [Critical, High];
    assert o[..3][..2][..1] == [Critical] && [Critical][..0] == [];
    assert Grouped(issues, [Critical]) == Of(issues, Critical);
    assert Grouped(issues, [Critical, High]) == Of(issues, Critical) + Of(issues, High);
  }

  /** The number of findings with a severity outside the four listed ones. */
  function CountOther(issues: seq<Issue>): (n: nat)
    ensures n <= |issues|
  {
    if issues == [] then 0
    else CountOther(issues[..|issues| - 1]) + (if issues[|issues| - 1].severity.Other? then 1 else 0)
  }

  lemma {:induction false} SeverityCountsAddUp(issues: seq<Issue>)
    ensures Count(issues, Critical) + Count(issues, High) + Count(issues, Medium) + Count(issues, Low)
            + CountOther(issues) == |issues|
  {
    if issues != [] {
      SeverityCountsAddUp(issues[..|issues| - 1]);
    }
  }

  /** Findings produced from the pattern table are never dropped. */
  lemma {:induction false} TableIssuesAllListed(path: string, lines: seq<string>, n: nat, rules: seq<Rule>, matches: Matcher)
    requires n <= |lines|
    requires forall r <- rules :: !r.severity.Other?
    ensures CountOther(IssuesUpTo(path, lines, n, rules, matches)) == 0
  {
    if n > 0 {
      TableIssuesAllListed(path, lines, n - 1, rules, matches);
      LineNotOther(path, n, lines[n - 1], rules, matches);
      OtherAppend(IssuesUpTo(path, lines, n - 1, rules, matches), LineIssues(path, n, lines[n - 1], rules, matches));
    }
  }

  /** A line's findings carry severities of the table's rules. */
  lemma LineNotOther(path: string, n: nat, line: string, rules: seq<Rule>, matches: Matcher)
    requires forall r <- rules :: !r.severity.Other?
    ensures forall i <- LineIssues(path, n, line, rules, matches) :: !i.severity.Other?
  {
    if StartsWith(line, "+") {
      var ms := Matching(rules, line[1..], matches);
      MatchingSound(rules, line[1..], matches);
      var issues := IssuesOf(path, n, line[1..], ms);
      forall k | 0 <= k < |issues| ensures !issues[k].severity.Other? {
        assert ms[k] in ms;
      }
    }
  }

  lemma {:induction false} OtherAppend(a: seq<Issue>, b: seq<Issue>)
    requires forall i <- b :: !i.severity.Other?
    ensures CountOther(a + b) == CountOther(a)
    decreases |b|
  {
    if b == [] {
      assert a + b == a;
    } else {
      assert b[|b| - 1] in b;
      OtherAppend(a, b[..|b| - 1]);
      assert (a + b)[..|a + b| - 1] == a + b[..|b| - 1];
    }
  }
}
