/** The JIRA issue formatter of the C# bug documentation tools: the summary
    line, the issue payload, comments, the stack-trace block and the builder. */
module JiraReporter {
  import opened Py
  import opened Text
  import opened Severity
  import opened BugRecord

  /** JIRA's limit on the summary length. */
  const SummaryLimit := 255

  /** The short context appended to the summary, chosen from the root cause. */
  datatype Context = NullCheck | CollectionModified | DivisionByZero | NoContext {
    function Suffix(): string {
      match this
      case NullCheck => " - missing null check"
      case CollectionModified => " - collection modified during iteration"
      case DivisionByZero => " - division by zero"
      case NoContext => ""
    }
  }

  /** The first rule that matches the lower-cased root cause: a null check,
      then a collection that was modified, then a division by zero. */
  function ContextOf(lowered: string): (c: Context)
    ensures c == NullCheck <==> Contains(lowered, "null check")
    ensures c == CollectionModified <==>
              !Contains(lowered, "null check") && Contains(lowered, "collection") && Contains(lowered, "modified")
    ensures c == DivisionByZero <==>
              !Contains(lowered, "null check") && !(Contains(lowered, "collection") && Contains(lowered, "modified"))
              && Contains(lowered, "division by zero")
  {
    if Contains(lowered, "null check") then NullCheck
    else if Contains(lowered, "collection") && Contains(lowered, "modified") then CollectionModified
    else if Contains(lowered, "division by zero") then DivisionByZero
    else NoContext
  }

  /** `_create_summary` as written: `bug_data.get('root_cause', '').lower()`
      raises when the key is present with None, which is what `analyze`
      leaves when it found no root cause. */
  function CreateSummaryAsWritten(bug: BugData): (r: Result<string>)
    ensures r.Err? <==> bug.rootCause.Null?
  {
    match bug.rootCause.Get(Some(""))
    case None => Err(AttributeError("'NoneType' object has no attribute 'lower'"))
    case Some(root) => Ok(Take(Headline(bug) + ContextOf(Lower(root)).Suffix(), SummaryLimit))
  }

  /** The record the analyser returns for a stack trace it parsed but no code. */
  lemma NoneRootCauseCrashes()
    ensures CreateSummaryAsWritten(AllNone.(exceptionType := Has("NullReferenceException"))).Err?
  {
  }

  /** `_create_summary` with a None root cause read as no root cause: the
      headline plus at most one context suffix, cut to 255 characters. */
  function CreateSummary(bug: BugData): (summary: string)
    ensures |summary| <= SummaryLimit
    ensures StartsWith(Headline(bug) + ContextOf(Lower(RootCauseText(bug))).Suffix(), summary)
  {
    var full := Headline(bug) + ContextOf(Lower(RootCauseText(bug))).Suffix();
    Take(full, SummaryLimit)
  }

  /** The root cause as text, with both an absent key and None read as empty. */
  function RootCauseText(bug: BugData): string {
    match bug.rootCause
    case Has(s) => s
    case _ => ""
  }

  /** Wherever the written code returns a summary the corrected one returns
      the same, and it returns one for every record. */
  lemma SummaryCorrected(bug: BugData)
    ensures CreateSummaryAsWritten(bug).Ok? ==> CreateSummaryAsWritten(bug).value == CreateSummary(bug)
    ensures CreateSummaryAsWritten(bug.(rootCause := if bug.rootCause.Null? then Missing else bug.rootCause)).value
            == CreateSummary(bug)
  {
  }

  /** A short headline is kept whole, followed by the suffix. */
  lemma ShortSummaryWhole(bug: BugData)
    requires |Headline(bug)| + 39 <= SummaryLimit
    ensures CreateSummary(bug) == Headline(bug) + ContextOf(Lower(RootCauseText(bug))).Suffix()
  {
  }

  /** `PRIORITY_MAP.get(bug_data.get('severity', 'Medium'), 'Medium')`. */
  function Priority(severity: Slot<string>): (p: string)
    ensures severity.Has? && Parse(severity.value) == Some(Critical) ==> p == "Highest"
    ensures severity.Has? && Parse(severity.value).Some? && Parse(severity.value) != Some(Critical) ==>
              p == severity.value
    ensures severity.Has? && Parse(severity.value).None? ==> p == "Medium"
    ensures !severity.Has? ==> p == "Medium"
    ensures p in {"Highest", "High", "Medium", "Low"}
  {
    var level := match severity
                 case Missing => Some(Medium)
                 case Null => None
                 case Has(s) => Parse(s);
    if level == Some(Critical) then "Highest"
    else if level.Some? then level.value.Name()
    else "Medium"
  }

  /** The JIRA issue payload. */
  datatype Payload = Payload(
    projectKey: string,
    issueType: string,
    summary: string,
    description: string,
    priority: string,
    labels: seq<string>,
    components: Option<seq<string>>)

  const Labels: seq<string> := ["csharp", "bug", "automated"]

  /** `_create_description` writes `bug_data['exception_type']` when the
      message is truthy, so a record with a message and no exception-type
      key raises KeyError. Its other subscripts sit behind a truthy `.get`
      of the same key. */
  predicate DescriptionRaises(bug: BugData) {
    bug.message.TruthyBy(s => s != []) && bug.exceptionType.Missing?
  }

  /** `format_issue_payload`, with the description's text rendered by the
      caller: the KeyError of `_create_description`, or the payload. */
  function FormatIssuePayload(bug: BugData, projectKey: string, description: string): (r: Result<Payload>)
    ensures r.Err? <==> DescriptionRaises(bug)
    ensures r.Err? ==> r.error == KeyError("exception_type")
    ensures r.Ok? ==> r.value.projectKey == projectKey && r.value.description == description
    ensures r.Ok? ==> r.value.issueType == "Bug" && r.value.labels == Labels
    ensures r.Ok? ==> |r.value.summary| <= SummaryLimit
    ensures r.Ok? ==> r.value.priority in {"Highest", "High", "Medium", "Low"}
    ensures r.Ok? ==> (r.value.components.Some? <==> bug.component.TruthyBy(s => s != []))
    ensures r.Ok? && r.value.components.Some? ==> r.value.components.value == [bug.component.value]
  {
    if bug.message.Has? && bug.message.value != [] && bug.exceptionType.Missing? then
      Err(KeyError("exception_type"))
    else
      Ok(Payload(projectKey, "Bug", CreateSummary(bug), description, Priority(bug.severity), Labels,
                 if bug.component.Has? && bug.component.value != [] then Some([bug.component.value]) else None))
  }

  /** The analyser always sets the exception-type key, so its records never
      reach that KeyError; a bare dictionary with a message does. */
  lemma MessageWithoutTypeRaises(projectKey: string, description: string)
    ensures FormatIssuePayload(NoKeys.(message := Has("boom")), projectKey, description).Err?
    ensures FormatIssuePayload(NoKeys, projectKey, description).Ok?
  {
  }

  /** `format_comment`: the text, then the snippet in a C# code block when one is given. */
  function FormatComment(commentText: string, codeSnippet: Option<string>): (r: string)
    ensures !TruthyText(codeSnippet) ==> r == commentText
    ensures TruthyText(codeSnippet) ==> r == commentText + "\n\n{code:csharp}\n" + codeSnippet.value + "\n{code}"
  {
    var parts := if TruthyText(codeSnippet) then [commentText, "\n{code:csharp}", codeSnippet.value, "{code}"]
                 else [commentText];
    JoinFour(commentText, "\n{code:csharp}", codeSnippet.GetOr(""), "{code}");
    Join(parts, "\n")
  }

  lemma JoinFour(a: string, b: string, c: string, d: string)
    ensures Join([a, b, c, d], "\n") == a + "\n" + b + "\n" + c + "\n" + d
  {
    assert [a, b, c, d][1..] == [b, c, d];
    assert [b, c, d][1..] == [c, d];
    assert [c, d][1..] == [d];
    assert Join([c, d], "\n") == c + "\n" + d;
    assert Join([b, c, d], "\n") == b + "\n" + (c + "\n" + d);
  }

  const CodeOpen := "{code:csharp}\n"
  const CodeClose := "\n{code}"

  /** `format_stacktrace_for_jira`: the trace inside a C# code block. */
  function FormatStacktrace(stacktrace: string): (r: string)
    ensures StartsWith(r, CodeOpen) && EndsWith(r, CodeClose)
    ensures |r| == |stacktrace| + |CodeOpen| + |CodeClose|
  {
    Affixes(CodeOpen + stacktrace, CodeClose);
    Affixes(CodeOpen, stacktrace + CodeClose);
    assert CodeOpen + stacktrace + CodeClose == CodeOpen + (stacktrace + CodeClose);
    CodeOpen + stacktrace + CodeClose
  }

  /** The text inside a code block. */
  function CodeBody(block: string): string
    requires |block| >= |CodeOpen| + |CodeClose|
  {
    block[|CodeOpen|..|block| - |CodeClose|]
  }

  /** The block gives the trace back unchanged. */
  lemma StacktraceRoundTrip(stacktrace: string)
    ensures CodeBody(FormatStacktrace(stacktrace)) == stacktrace
  {
    var r := FormatStacktrace(stacktrace);
    assert r == CodeOpen + stacktrace + CodeClose;
    assert r[|CodeOpen|..|r| - |CodeClose|] == stacktrace;
  }

  /** `JiraIssueBuilder`: collects the pieces of an issue, then builds its payload. */
  class JiraIssueBuilder {
    const projectKey: string
    var bugData: BugData
    var reproductionSteps: seq<string>
    var suggestedFix: Option<string>
    var impact: seq<string>

    constructor (projectKey: string)
      ensures this.projectKey == projectKey
      ensures bugData == NoKeys
      ensures reproductionSteps == [] && suggestedFix == None && impact == []
    {
      this.projectKey := projectKey;
      bugData := NoKeys;
      reproductionSteps := [];
      suggestedFix := None;
      impact := [];
    }

    method WithBugData(bug: BugData) returns (self: JiraIssueBuilder)
      modifies this
      ensures self == this && bugData == bug
      ensures reproductionSteps == old(reproductionSteps) && suggestedFix == old(suggestedFix)
      ensures impact == old(impact)
    {
      bugData := bug;
      self := this;
    }

    method WithReproductionSteps(steps: seq<string>) returns (self: JiraIssueBuilder)
      modifies this
      ensures self == this && reproductionSteps == steps
      ensures bugData == old(bugData) && suggestedFix == old(suggestedFix) && impact == old(impact)
    {
      reproductionSteps := steps;
      self := this;
    }

    method WithSuggestedFix(fix: string) returns (self: JiraIssueBuilder)
      modifies this
      ensures self == this && suggestedFix == Some(fix)
      ensures bugData == old(bugData) && reproductionSteps == old(reproductionSteps)
      ensures impact == old(impact)
    {
      suggestedFix := Some(fix);
      self := this;
    }

    method WithImpact(impact: seq<string>) returns (self: JiraIssueBuilder)
      modifies this
      ensures self == this && this.impact == impact
      ensures bugData == old(bugData) && reproductionSteps == old(reproductionSteps)
      ensures suggestedFix == old(suggestedFix)
    {
      this.impact := impact;
      self := this;
    }

    /** `build`: the payload of the stored pieces; `describe` stands for the
        description renderer, which reads the clock. */
    method Build(describe: (BugData, seq<string>, Option<string>, seq<string>) -> string) returns (r: Result<Payload>)
      ensures r == FormatIssuePayload(bugData, projectKey,
                                      describe(bugData, reproductionSteps, suggestedFix, impact))
      ensures r.Err? <==> DescriptionRaises(bugData)
    {
      r := FormatIssuePayload(bugData, projectKey, describe(bugData, reproductionSteps, suggestedFix, impact));
    }
  }
}
