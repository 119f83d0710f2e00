/** The file name, title and lookup rules of the C# bug report generator. */
module CsharpReport {
  import opened Py
  import opened Text
  import opened Severity
  import opened BugRecord
  import MigratorReport

  /** `_create_title`, with the defaults of absent keys. */
  function CreateTitle(bug: BugData): string {
    Headline(bug)
  }

  /** The defaults apply to absent keys only. */
  lemma TitleDefaults()
    ensures CreateTitle(NoKeys) == "Exception in unknown.unknown method"
  {
  }

  /** A key present with None shows as "None". */
  lemma TitleOfNone()
    ensures CreateTitle(AllNone) == "None in None.None"
  {
  }

  /** `re.sub(r'[^a-z0-9-]', '-', s)`: every other character becomes a hyphen. */
  function Dashed(s: string): (r: string)
    ensures |r| == |s|
    ensures MigratorReport.SafeChars(r)
    ensures forall i :: 0 <= i < |s| ==> (r[i] == s[i] <==> MigratorReport.IsSafe(s[i]) || s[i] == '-')
  {
    seq(|s|, i requires 0 <= i < |s| => if MigratorReport.IsSafe(s[i]) || s[i] == '-' then s[i] else '-')
  }

  /** The safe name: lower-cased "<exception_type>-<class_name>", every other
      character replaced by a hyphen and hyphen runs collapsed. */
  function SafeName(bug: BugData): (r: string)
    ensures MigratorReport.SafeChars(r) && MigratorReport.NoDoubleDash(r)
    ensures |r| >= 1
  {
    var joined := SlotText(bug.exceptionType, "exception") + "-" + SlotText(bug.className, "unknown");
    MigratorReport.CollapseKeepsSafe(Dashed(Lower(joined)));
    MigratorReport.CollapseDashes(Dashed(Lower(joined)))
  }

  /** Unlike the migrator's sanitiser, the safe name may start and end with a hyphen. */
  lemma SafeNameEdges()
    ensures SafeName(NoKeys.(exceptionType := Has("!E"), className := Has("C!"))) == "-e-c-"
  {
    var d := Dashed(Lower("!E" + "-" + "C!"));
    assert d == "-e-c-";
    MigratorReport.CollapseNoop(d);
  }

  /** `_generate_filename` with the timestamp given by the caller: the issue
      key when one is given, "BUG" otherwise. */
  function GenerateFilename(bug: BugData, jiraIssueKey: Option<string>, timestamp: string): (name: string)
    ensures StartsWith(name, KeyPart(jiraIssueKey) + "-" + timestamp + "-")
    ensures EndsWith(name, "-" + SafeName(bug) + ".md")
  {
    var head := KeyPart(jiraIssueKey) + "-" + timestamp;
    var tail := "-" + SafeName(bug) + ".md";
    Affixes(head + "-", SafeName(bug) + ".md");
    Affixes(head, tail);
    assert head + "-" + (SafeName(bug) + ".md") == head + tail;
    head + tail
  }

  /** The name's first part: the issue key when one is given, "BUG" otherwise. */
  function KeyPart(jiraIssueKey: Option<string>): (k: string)
    ensures TruthyText(jiraIssueKey) ==> k == jiraIssueKey.value
    ensures !TruthyText(jiraIssueKey) ==> k == "BUG"
  {
    if TruthyText(jiraIssueKey) then jiraIssueKey.value else "BUG"
  }

  const UnknownSeverity := "Unknown severity"

  /** The description of a known severity level. */
  function LevelDescription(l: Level): string {
    match l
    case Critical => "Application crash or complete service disruption"
    case High => "Feature unavailable or severely degraded"
    case Medium => "Reduced functionality, workaround available"
    case Low => "Minor inconvenience or cosmetic issue"
  }

  /** `_get_severity_description`: the table entry, or "Unknown severity". */
  function SeverityDescription(severity: string): (d: string)
    ensures d == UnknownSeverity <==> Parse(severity).None?
    ensures Parse(severity).Some? ==> d == LevelDescription(Parse(severity).value)
  {
    match Parse(severity)
    case Some(l) => LevelDescription(l)
    case None => UnknownSeverity
  }

  /** `_get_actual_behavior`: "The code throws `<type>`: <message>". */
  function ActualBehavior(bug: BugData): (r: string)
    ensures StartsWith(r, "The code throws `" + SlotText(bug.exceptionType, "exception") + "`: ")
    ensures EndsWith(r, SlotText(bug.message, "An error occurred"))
    ensures |r| == |"The code throws `" + SlotText(bug.exceptionType, "exception") + "`: "|
                   + |SlotText(bug.message, "An error occurred")|
  {
    var head := "The code throws `" + SlotText(bug.exceptionType, "exception") + "`: ";
    var m := SlotText(bug.message, "An error occurred");
    Affixes(head, m);
    head + m
  }

  /** The JIRA line of the report: a link when both key and URL are given,
      the bare key when only the key is, and no line without a key. */
  function JiraLine(jiraIssueKey: Option<string>, jiraUrl: Option<string>): (line: Option<string>)
    ensures line.Some? <==> TruthyText(jiraIssueKey)
    ensures line.Some? ==> StartsWith(line.value, "**JIRA Issue**: ") && EndsWith(line.value, "\n")
    ensures line.Some? && TruthyText(jiraUrl) ==>
              line.value == "**JIRA Issue**: [" + jiraIssueKey.value + "](" + jiraUrl.value + ")\n"
    ensures line.Some? && !TruthyText(jiraUrl) ==>
              line.value == "**JIRA Issue**: " + jiraIssueKey.value + "\n"
  {
    if TruthyText(jiraIssueKey) && TruthyText(jiraUrl) then
      Some("**JIRA Issue**: [" + jiraIssueKey.value + "](" + jiraUrl.value + ")\n")
    else if TruthyText(jiraIssueKey) then
      Some("**JIRA Issue**: " + jiraIssueKey.value + "\n")
    else None
  }
}
