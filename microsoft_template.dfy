/** The GitHub bug-report template filled from a parsed JIRA issue and the
    field validator's result: the JIRA browse URL, the workaround search over
    the comments, the severity and missing-field tables, the behaviour and
    description sections, and which sections the report contains. */
module MicrosoftTemplate {
  import opened Py
  import opened Text

  /** One comment of the parsed issue; the template reads only its body. */
  datatype Comment = Comment(body: Slot<string>)

  /** The keys of the parsed issue dictionary that the template reads. */
  datatype Issue = Issue(
    issueKey: Slot<string>,
    selfUrl: Slot<string>,
    summary: Slot<string>,
    description: Slot<string>,
    descriptionParsed: Slot<string>,
    stepsToReproduce: Slot<string>,
    expectedBehavior: Slot<string>,
    actualBehavior: Slot<string>,
    environment: Slot<string>,
    rootCause: Slot<string>,
    priority: Slot<string>,
    comments: Slot<seq<Comment>>,
    links: Slot<seq<Json>>,
    attachments: Slot<seq<Json>>)

  /** The two lists of the validation result that the template reads. */
  datatype Validation = Validation(missingRequired: seq<string>, missingRecommended: seq<string>)

  /** A template: the issue, the validation result and the JIRA URL built once
      when the template is constructed. */
  datatype Template = Template(jira: Issue, validation: Validation, jiraUrl: string)

  /** `bool(self.jira.get(k))` for a key holding a string or None. */
  predicate TruthyString(s: Slot<string>) {
    s.Has? && s.value != []
  }

  /** `bool(self.jira.get(k))` for a key holding a list or None. */
  predicate NonEmptyList(s: Slot<seq<Json>>) {
    s.Has? && s.value != []
  }

  /** `self.jira.get(k, '')` for a key holding a string or None. */
  function TextOrNone(s: Slot<string>): Option<string> {
    s.Get(Some(""))
  }

  /** `self.jira[k]` inside an f-string: a KeyError when the key is absent. */
  function Subscript(s: Slot<string>, key: string): (r: Result<string>)
    ensures r.Err? <==> s.Missing?
    ensures s.Has? ==> r == Ok(s.value)
    ensures s.Null? ==> r == Ok("None")
  {
    match s
    case Missing => Err(KeyError(key))
    case Null => Ok("None")
    case Has(v) => Ok(v)
  }

  // ---------------------------------------------------------------- JIRA URL

  const RestApi := "/rest/api"
  const NoJiraUrl := "[JIRA URL not available]"

  /** `self_url.split('/rest/api')[0]`: the site part of a REST resource URL. */
  function BaseUrl(selfUrl: string): (base: string)
    ensures StartsWith(selfUrl, base)
    ensures base == selfUrl <==> !Contains(selfUrl, RestApi)
    ensures base != selfUrl ==> OccursAt(selfUrl, RestApi, |base|)
    ensures !Contains(base, RestApi)
  {
    var base := PrefixBefore(selfUrl, RestApi);
    assert selfUrl[..|base|] == base;
    base
  }

  /** The browse URL of the issue: the site of its REST URL followed by
      "/browse/" and the key, or a marker when the issue has no REST URL. */
  function BuildJiraUrl(jira: Issue): (r: Result<string>)
    ensures !TruthyString(jira.selfUrl) ==> r == Ok(NoJiraUrl)
    ensures TruthyString(jira.selfUrl) ==> (r.Err? <==> jira.issueKey.Missing?)
    ensures TruthyString(jira.selfUrl) && jira.issueKey.Has? ==>
              r == Ok(BaseUrl(jira.selfUrl.value) + "/browse/" + jira.issueKey.value)
  {
    if TruthyString(jira.selfUrl) then
      var key :- Subscript(jira.issueKey, "issue_key");
      Ok(BaseUrl(jira.selfUrl.value) + "/browse/" + key)
    else Ok(NoJiraUrl)
  }

  /** The constructor: keeps the issue and the validation and builds the URL,
      which raises exactly when building the URL raises. */
  function NewTemplate(jira: Issue, validation: Validation): (r: Result<Template>)
    ensures r.Err? <==> BuildJiraUrl(jira).Err?
    ensures r.Ok? ==> r.value.jira == jira && r.value.validation == validation
                      && BuildJiraUrl(jira) == Ok(r.value.jiraUrl)
  {
    var url :- BuildJiraUrl(jira);
    Ok(Template(jira, validation, url))
  }

  // ---------------------------------------------------------------- workaround

  const NoneLower := AttributeError("'NoneType' object has no attribute 'lower'")
  const NotIterable := TypeError("'NoneType' object is not iterable")

  /** `'workaround' in body.lower()`. */
  predicate MentionsWorkaround(body: string) {
    Contains(Lower(body), "workaround")
  }

  /** A comment the search reads past: no body, or a body with no workaround. */
  predicate PassesOver(c: Comment) {
    c.body.Missing? || (c.body.Has? && !MentionsWorkaround(c.body.value))
  }

  /** The body of the first comment that mentions a workaround; a None body
      met first raises. */
  function WorkaroundIn(comments: seq<Comment>): Result<Option<string>>
    decreases |comments|
  {
    if comments == [] then Ok(None)
    else
      match comments[0].body
      case Null => Err(NoneLower)
      case Missing => WorkaroundIn(comments[1..])
      case Has(b) => if MentionsWorkaround(b) then Ok(Some(b)) else WorkaroundIn(comments[1..])
  }

  /** The workaround search over the issue's comments (none when absent). */
  function WorkaroundOf(jira: Issue): Result<Option<string>> {
    match jira.comments
    case Missing => Ok(None)
    case Null => Err(NotIterable)
    case Has(cs) => WorkaroundIn(cs)
  }

  /** `_find_workaround_in_comments`: the loop with its early return. */
  method FindWorkaround(jira: Issue) returns (r: Result<Option<string>>)
    ensures r == WorkaroundOf(jira)
  {
    var comments: seq<Comment>;
    match jira.comments {
      case Missing => comments := [];
      case Null => return Err(NotIterable);
      case Has(cs) => comments := cs;
    }
    var i := 0;
    while i < |comments|
      invariant 0 <= i <= |comments|
      invariant WorkaroundOf(jira) == WorkaroundIn(comments[i..])
    {
      assert comments[i..][1..] == comments[i + 1..];
      var comment := comments[i];
      if comment.body.Null? {
        return Err(NoneLower);
      }
      var body := if comment.body.Has? then comment.body.value else "";
      assert !MentionsWorkaround("") by {
        assert forall j :: !OccursAt(Lower(""), "workaround", j);
      }
      if MentionsWorkaround(body) {
        return Ok(Some(body));
      }
      i := i + 1;
    }
    assert comments[i..] == [];
    return Ok(None);
  }

  /** The first comment that mentions a workaround, with every comment before
      it passed over, is the one the search returns. */
  lemma {:induction false} WorkaroundFirst(comments: seq<Comment>, i: nat)
    requires i < |comments| && comments[i].body.Has? && MentionsWorkaround(comments[i].body.value)
    requires forall k :: 0 <= k < i ==> PassesOver(comments[k])
    ensures WorkaroundIn(comments) == Ok(Some(comments[i].body.value))
    decreases i
  {
    if i > 0 {
      WorkaroundFirst(comments[1..], i - 1);
    }
  }

  /** A returned workaround is the body of a comment that mentions one, and
      every comment before it was passed over. */
  lemma {:induction false} WorkaroundSound(comments: seq<Comment>, b: string)
    requires WorkaroundIn(comments) == Ok(Some(b))
    ensures exists i :: 0 <= i < |comments| && comments[i].body == Has(b) && MentionsWorkaround(b)
                        && forall k :: 0 <= k < i ==> PassesOver(comments[k])
    decreases |comments|
  {
    if comments[0].body != Has(b) || !MentionsWorkaround(b) {
      WorkaroundSound(comments[1..], b);
      var i :| 0 <= i < |comments[1..]| && comments[1..][i].body == Has(b) && MentionsWorkaround(b)
               && forall k :: 0 <= k < i ==> PassesOver(comments[1..][k]);
      assert comments[i + 1].body == Has(b);
      assert forall k :: 0 <= k < i + 1 ==> PassesOver(comments[k]) by {
        forall k | 0 <= k < i + 1 ensures PassesOver(comments[k]) {
          if k > 0 {
            assert comments[k] == comments[1..][k - 1];
          }
        }
      }
    } else {
      assert comments[0].body == Has(b);
    }
  }

  /** The search finds nothing exactly when it passes over every comment. */
  lemma {:induction false} WorkaroundNone(comments: seq<Comment>)
    ensures WorkaroundIn(comments) == Ok(None) <==> forall k :: 0 <= k < |comments| ==> PassesOver(comments[k])
    decreases |comments|
  {
    if comments != [] {
      WorkaroundNone(comments[1..]);
      assert forall k :: 1 <= k < |comments| ==> comments[k] == comments[1..][k - 1];
    }
  }

  // ---------------------------------------------------------------- severity

  const CriticalImpact := "Critical - System crash or complete service disruption"
  const MediumImpact := "Medium - Reduced functionality, workaround available"
  const UnknownImpact := "Medium - Impact unknown"

  /** The impact text of each known priority name. */
  const SeverityTable: map<string, string> := map[
    "Highest" := CriticalImpact,
    "Critical" := CriticalImpact,
    "High" := "High - Feature unavailable or severely degraded",
    "Medium" := MediumImpact,
    "Low" := "Low - Minor inconvenience or cosmetic issue"]

  /** `self.jira.get('priority', 'Medium')`: a missing priority counts as Medium. */
  function PriorityOf(jira: Issue): (p: Option<string>)
    ensures jira.priority.Missing? ==> p == Some("Medium")
  {
    jira.priority.Get(Some("Medium"))
  }

  /** The impact text: the table entry of a known priority, otherwise the
      unknown-impact text (also for a None priority). */
  function SeverityDescription(priority: Option<string>): (r: string)
    ensures priority.Some? && priority.value in SeverityTable ==> r == SeverityTable[priority.value]
    ensures priority.None? || priority.value !in SeverityTable ==> r == UnknownImpact
  {
    if priority.Some? && priority.value in SeverityTable then SeverityTable[priority.value]
    else UnknownImpact
  }

  /** The severity section: the priority in bold and its impact text. */
  function FormatSeverity(jira: Issue): string {
    "## Severity\n\n**" + Shown(PriorityOf(jira)) + "** - " + SeverityDescription(PriorityOf(jira)) + "\n"
  }

  /** An issue without a priority gets the same severity section as one whose
      priority is Medium, and that section uses Medium's table entry. */
  lemma MissingPriorityIsMedium(jira: Issue)
    requires jira.priority.Missing?
    ensures FormatSeverity(jira) == FormatSeverity(jira.(priority := Has("Medium")))
    ensures SeverityDescription(PriorityOf(jira)) == MediumImpact
  {
  }

  // ---------------------------------------------------------------- missing fields

  const NotAvailable := "Not available in JIRA"
  const EnvironmentReason := "Not specified in JIRA Environment field"
  const DescriptionReason := "Not documented in JIRA description"

  /** Why each known field can be missing. */
  const Reasons: map<string, string> := map[
    "OS" := EnvironmentReason,
    ".NET Version" := EnvironmentReason,
    "Steps to Reproduce" := DescriptionReason,
    "Expected Behavior" := DescriptionReason,
    "Actual Behavior" := DescriptionReason,
    "Workaround" := "No workaround documented in JIRA",
    "Related Issues" := "No issue links found in JIRA",
    "Screenshots" := "No attachments found in JIRA",
    "Root Cause" := "Root cause analysis not documented"]

  /** The reason of a known field; any other name gets "Not available in
      JIRA", which is no known field's reason. */
  function MissingFieldReason(field: string): (r: string)
    ensures field in Reasons ==> r == Reasons[field]
    ensures r == NotAvailable <==> field !in Reasons
  {
    if field in Reasons then Reasons[field] else NotAvailable
  }

  const MissingHeading := "## \U{26A0}\U{FE0F} Missing Information\n"
  const RequiredHeading := "### Required Fields (Update Before Creating GitHub Issue)"
  const RecommendedHeading := "### Recommended Fields (Should Complete)"

  /** The checklist line of one missing field; required fields carry a warning sign. */
  function FieldLine(field: string, required: bool): string {
    (if required then "- [ ] \U{26A0}\U{FE0F} **" else "- [ ] **") + field + "**: " + MissingFieldReason(field)
  }

  /** One checklist line per field, in order. */
  function FieldLines(fields: seq<string>, required: bool): (r: seq<string>)
    ensures |r| == |fields|
    ensures forall i :: 0 <= i < |fields| ==> r[i] == FieldLine(fields[i], required)
  {
    seq(|fields|, i requires 0 <= i < |fields| => FieldLine(fields[i], required))
  }

  /** A heading, the lines and a blank line, or nothing when no field is missing. */
  function FieldGroup(heading: string, fields: seq<string>, required: bool): (r: seq<string>)
    ensures fields == [] <==> r == []
    ensures fields != [] ==> |r| == |fields| + 2 && r[0] == heading && r[|r| - 1] == []
                             && r[1..|r| - 1] == FieldLines(fields, required)
  {
    if fields == [] then [] else [heading] + FieldLines(fields, required) + [""]
  }

  /** The lines of the missing-information section. */
  function MissingFieldsLines(v: Validation): seq<string> {
    [MissingHeading]
    + FieldGroup(RequiredHeading, v.missingRequired, true)
    + FieldGroup(RecommendedHeading, v.missingRecommended, false)
  }

  /** Appends one checklist line per field (the loop of the source). */
  method AppendFieldLines(lines: seq<string>, fields: seq<string>, required: bool) returns (r: seq<string>)
    ensures r == lines + FieldLines(fields, required)
  {
    r := lines;
    for i := 0 to |fields|
      invariant r == lines + FieldLines(fields[..i], required)
    {
      assert fields[..i + 1] == fields[..i] + [fields[i]];
      r := r + [FieldLine(fields[i], required)];
    }
    assert fields[..|fields|] == fields;
  }

  /** Appends a heading, the checklist lines and a blank line, when any field
      of the group is missing. */
  method AppendFieldGroup(lines: seq<string>, heading: string, fields: seq<string>, required: bool)
    returns (r: seq<string>)
    ensures r == lines + FieldGroup(heading, fields, required)
  {
    if fields == [] {
      r := lines;
      assert r == lines + [];
    } else {
      var group := FieldLines(fields, required);
      r := AppendFieldLines(lines + [heading], fields, required);
      r := r + [""];
      assert r == lines + ([heading] + group + [""]);
    }
  }

  /** `_format_missing_fields`. */
  method FormatMissingFields(v: Validation) returns (r: string)
    ensures r == Join(MissingFieldsLines(v), "\n")
  {
    var lines := AppendFieldGroup([MissingHeading], RequiredHeading, v.missingRequired, true);
    lines := AppendFieldGroup(lines, RecommendedHeading, v.missingRecommended, false);
    r := Join(lines, "\n");
  }

  // ---------------------------------------------------------------- behaviour sections

  const StepsHeader := "## Steps to Reproduce\n\n"
  const StepsPlaceholder := "## Steps to Reproduce\n\n\U{26A0}\U{FE0F} **UPDATE REQUIRED** - Steps not provided in JIRA\n\n[TODO: Add steps to reproduce]\n"
  const ExpectedHeader := "## Expected Behavior\n\n"
  const ExpectedPlaceholder := "## Expected Behavior\n\n\U{26A0}\U{FE0F} **UPDATE REQUIRED** - Expected behavior not specified in JIRA\n\n[TODO: Describe expected behavior]\n"
  const ActualHeader := "## Actual Behavior\n\n"
  const ActualPlaceholder := "## Actual Behavior\n\n\U{26A0}\U{FE0F} **UPDATE REQUIRED** - Actual behavior not specified in JIRA\n\n[TODO: Describe actual behavior]\n"
  const NoneStrip := AttributeError("'NoneType' object has no attribute 'strip'")

  /** A behaviour section: the placeholder when the stripped text is blank,
      otherwise the header and the stripped text (a text already laid out as
      a list is shown the same way); a None text raises. */
  function FormatBlock(text: Slot<string>, header: string, placeholder: string): (r: Result<string>)
    ensures r.Err? <==> text.Null?
    ensures text.Missing? || (text.Has? && Strip(text.value) == []) ==> r == Ok(placeholder)
    ensures text.Has? && Strip(text.value) != [] ==> r == Ok(header + Strip(text.value) + "\n")
  {
    match text
    case Null => Err(NoneStrip)
    case Missing => Ok(placeholder)
    case Has(s) =>
      var body := Strip(s);
      if body == [] then Ok(placeholder) else Ok(header + body + "\n")
  }

  /** Whitespace around a behaviour text never changes its section. */
  lemma BlockIgnoresSurroundingSpace(s: string, header: string, placeholder: string)
    ensures FormatBlock(Has(s), header, placeholder) == FormatBlock(Has(Strip(s)), header, placeholder)
  {
    StripOfStripped(Strip(s));
  }

  function FormatSteps(jira: Issue): Result<string> {
    FormatBlock(jira.stepsToReproduce, StepsHeader, StepsPlaceholder)
  }

  function FormatExpected(jira: Issue): Result<string> {
    FormatBlock(jira.expectedBehavior, ExpectedHeader, ExpectedPlaceholder)
  }

  function FormatActual(jira: Issue): Result<string> {
    FormatBlock(jira.actualBehavior, ActualHeader, ActualPlaceholder)
  }

  /** `self.jira.get('environment', '').strip()`, the text the environment
      section is built from; a None environment raises. */
  function EnvironmentText(jira: Issue): (r: Result<string>)
    ensures r.Err? <==> jira.environment.Null?
    ensures jira.environment.Missing? ==> r == Ok("")
    ensures jira.environment.Has? ==> r == Ok(Strip(jira.environment.value))
  {
    match jira.environment
    case Null => Err(NoneStrip)
    case Missing => Ok("")
    case Has(s) => Ok(Strip(s))
  }

  // ---------------------------------------------------------------- description

  const DescriptionHeader := "## Description\n\n"

  /** `description_parsed or description`: None when both are falsy and the
      description is None. */
  function DescriptionStart(jira: Issue): Option<string> {
    if TruthyString(jira.descriptionParsed) then Some(jira.descriptionParsed.value)
    else TextOrNone(jira.description)
  }

  /** The sub-section texts cut out of the description, in the source's order. */
  function SubSections(jira: Issue): seq<Option<string>> {
    [TextOrNone(jira.stepsToReproduce), TextOrNone(jira.expectedBehavior),
     TextOrNone(jira.actualBehavior), TextOrNone(jira.rootCause)]
  }

  /** A sub-section text that is non-empty and occurs in the description. */
  predicate Removes(d: string, c: Option<string>) {
    TruthyText(c) && Contains(d, c.value)
  }

  /** The loop over the sub-sections: each one that occurs is replaced by ''. */
  function RemoveSubSections(d: string, cs: seq<Option<string>>): (r: string)
    ensures |r| <= |d|
    decreases |cs|
  {
    if cs == [] then d
    else if Removes(d, cs[0]) then
      RemoveAllUnchanged(d, cs[0].value);
      RemoveSubSections(Replace(d, cs[0].value, ""), cs[1..])
    else RemoveSubSections(d, cs[1..])
  }

  /** The description is left as it is exactly when none of the sub-sections
      occurs in it. */
  lemma {:induction false} RemoveSubSectionsUnchanged(d: string, cs: seq<Option<string>>)
    ensures RemoveSubSections(d, cs) == d <==> forall i :: 0 <= i < |cs| ==> !Removes(d, cs[i])
    decreases |cs|
  {
    if cs != [] {
      if Removes(d, cs[0]) {
        RemoveShrinks(d, cs[0].value);
      } else {
        RemoveSubSectionsUnchanged(d, cs[1..]);
        assert forall i :: 1 <= i < |cs| ==> cs[i] == cs[1..][i - 1];
      }
    }
  }

  /** The body of the description section, reading a None description as
      empty: stripped, so it neither starts nor ends with whitespace. */
  function DescriptionBody(jira: Issue): (body: string)
    ensures Strip(body) == body
  {
    var body := Strip(RemoveSubSections(DescriptionStart(jira).GetOr(""), SubSections(jira)));
    StripOfStripped(body);
    body
  }

  /** The description section, reading a None description as empty. */
  function DescriptionSection(jira: Issue): string {
    DescriptionHeader + DescriptionBody(jira) + "\n"
  }

  /** `_format_description`, reading a None description as empty. */
  method FormatDescription(jira: Issue) returns (r: string)
    ensures r == DescriptionSection(jira)
  {
    var description := DescriptionStart(jira).GetOr("");
    var sections := SubSections(jira);
    for i := 0 to |sections|
      invariant RemoveSubSections(DescriptionStart(jira).GetOr(""), sections)
                == RemoveSubSections(description, sections[i..])
    {
      assert sections[i..][1..] == sections[i + 1..];
      var content := sections[i];
      if TruthyText(content) && Contains(description, content.value) {
        description := Replace(description, content.value, "");
      }
    }
    description := Strip(description);
    r := DescriptionHeader + description + "\n";
  }

  /** When no sub-section occurs in it, the description is only stripped. */
  lemma DescriptionOnlyStripped(jira: Issue)
    requires DescriptionStart(jira).Some?
    requires forall i :: 0 <= i < 4 ==> !Removes(DescriptionStart(jira).value, SubSections(jira)[i])
    ensures DescriptionBody(jira) == Strip(DescriptionStart(jira).value)
  {
    RemoveSubSectionsUnchanged(DescriptionStart(jira).value, SubSections(jira));
  }

  /** Some sub-section text is non-empty: `section_content in description` is evaluated. */
  predicate SomeSubSection(jira: Issue) {
    TruthyString(jira.stepsToReproduce) || TruthyString(jira.expectedBehavior)
    || TruthyString(jira.actualBehavior) || TruthyString(jira.rootCause)
  }

  /** `_format_description` as written: `in` and `strip()` on a None description raise. */
  function DescriptionAsWritten(jira: Issue): (r: Result<string>) {
    match DescriptionStart(jira)
    case Some(d) => Ok(DescriptionHeader + Strip(RemoveSubSections(d, SubSections(jira))) + "\n")
    case None =>
      if SomeSubSection(jira) then Err(TypeError("argument of type 'NoneType' is not iterable"))
      else Err(NoneStrip)
  }

  /** As written, the section raises exactly for an issue whose description is
      None and whose parsed description is falsy. */
  lemma NullDescriptionCrashes(jira: Issue)
    ensures DescriptionAsWritten(jira).Err? <==> jira.description.Null? && !TruthyString(jira.descriptionParsed)
  {
  }

  /** Where the written code does not raise, it agrees with the corrected section. */
  lemma DescriptionAgrees(jira: Issue)
    requires DescriptionAsWritten(jira).Ok?
    ensures DescriptionAsWritten(jira) == Ok(DescriptionSection(jira))
  {
  }

  /** `'```' in self.jira.get('description', '')` as written: raises on a None description. */
  function HasCodeBlockAsWritten(jira: Issue): (r: Result<bool>)
    ensures r.Err? <==> jira.description.Null?
  {
    match jira.description
    case Null => Err(TypeError("argument of type 'NoneType' is not iterable"))
    case Missing => Ok(Contains("", "```"))
    case Has(d) => Ok(Contains(d, "```"))
  }

  /** Whether the description holds a fenced code block, reading None as empty. */
  function HasCodeBlock(jira: Issue): (r: bool)
    ensures HasCodeBlockAsWritten(jira).Ok? ==> HasCodeBlockAsWritten(jira) == Ok(r)
  {
    Contains(TextOrNone(jira.description).GetOr(""), "```")
  }

  // ---------------------------------------------------------------- the report

  /** Which formatter produced a section of the report. */
  datatype Part =
    | Title | Source | Description | Steps | Expected | Actual | Environment | StackTrace
    | Severity | Workaround | RelatedIssues | Screenshots | RootCause | Separator
    | MissingInformation | Metadata

  datatype Section = Section(part: Part, text: string)

  /** The sections whose formatters are not part of this model, already rendered. */
  datatype Rendered = Rendered(environment: string, stackTrace: string, relatedIssues: string,
                               screenshots: string, metadata: string)

  const Rule := "\n---\n"
  const WorkaroundTodo := "## Workaround\n\n[TODO: Document workaround if available]\n"

  function FormatTitle(jira: Issue): Result<string> {
    var summary :- Subscript(jira.summary, "summary");
    Ok("# [BUG] " + summary + "\n")
  }

  function FormatSource(t: Template): Result<string> {
    var key :- Subscript(t.jira.issueKey, "issue_key");
    Ok("**Source**: Migrated from JIRA [" + key + "](" + t.jiraUrl + ")\n")
  }

  function FormatWorkaround(found: Option<string>): string {
    if TruthyText(found) then "## Workaround\n\n" + found.value + "\n" else WorkaroundTodo
  }

  function FormatRootCause(rootCause: string): string {
    var body := Strip(rootCause);
    if body == [] then "" else "## Root Cause Analysis\n\n" + body + "\n"
  }

  /** Title, source link, description, the three behaviour sections and the environment. */
  function HeadSections(t: Template, other: Rendered): Result<seq<Section>> {
    var title :- FormatTitle(t.jira);
    var source :- FormatSource(t);
    var steps :- FormatSteps(t.jira);
    var expected :- FormatExpected(t.jira);
    var actual :- FormatActual(t.jira);
    var environment :- EnvironmentText(t.jira);
    Ok([Section(Title, title), Section(Source, source), Section(Description, DescriptionSection(t.jira)),
        Section(Steps, steps), Section(Expected, expected), Section(Actual, actual),
        Section(Environment, other.environment)])
  }

  /** The workaround section when there is a root cause or a workaround comment. */
  function WorkaroundSections(jira: Issue): Result<seq<Section>> {
    var found :- WorkaroundOf(jira);
    if TruthyString(jira.rootCause) || TruthyText(found) then Ok([Section(Workaround, FormatWorkaround(found))])
    else Ok([])
  }

  /** Related issues, screenshots and root cause, each when the issue has one. */
  function ReferenceSections(t: Template, other: Rendered): seq<Section> {
    (if NonEmptyList(t.jira.links) then [Section(RelatedIssues, other.relatedIssues)] else [])
    + (if NonEmptyList(t.jira.attachments) then [Section(Screenshots, other.screenshots)] else [])
    + (if TruthyString(t.jira.rootCause) then [Section(RootCause, FormatRootCause(t.jira.rootCause.value))] else [])
  }

  /** A rule, the missing-information section when a field is missing, a
      second rule and the metadata. */
  function ClosingSections(t: Template, other: Rendered): seq<Section> {
    [Section(Separator, Rule)] + MissingSection(t.validation)
    + [Section(Separator, Rule), Section(Metadata, other.metadata)]
  }

  /** The missing-information section, when the validation lists a missing field. */
  function MissingSection(v: Validation): (r: seq<Section>)
    ensures Parts(r) == Optional(v.missingRequired != [] || v.missingRecommended != [], MissingInformation)
  {
    if v.missingRequired != [] || v.missingRecommended != []
    then [Section(MissingInformation, Join(MissingFieldsLines(v), "\n"))] else []
  }

  /** The sections of the report in order, or the exception raised building them. */
  function SectionsOf(t: Template, other: Rendered): Result<seq<Section>> {
    var head :- HeadSections(t, other);
    var trace := if HasCodeBlock(t.jira) then [Section(StackTrace, other.stackTrace)] else [];
    var workaround :- WorkaroundSections(t.jira);
    Ok(head + trace + [Section(Severity, FormatSeverity(t.jira))] + workaround
       + ReferenceSections(t, other) + ClosingSections(t, other))
  }

  function Texts(sections: seq<Section>): seq<string> {
    seq(|sections|, i requires 0 <= i < |sections| => sections[i].text)
  }

  /** Which formatter produced each section, in order. */
  function Parts(sections: seq<Section>): (parts: seq<Part>)
    ensures |parts| == |sections|
  {
    seq(|sections|, i requires 0 <= i < |sections| => sections[i].part)
  }

  /** The report: its sections joined by newlines. */
  function Markdown(t: Template, other: Rendered): Result<string> {
    var sections :- SectionsOf(t, other);
    Ok(Join(Texts(sections), "\n"))
  }

  /** Appends the workaround section when there is a root cause or a
      workaround comment; the search's exception is passed on. */
  method AppendWorkaround(sections: seq<Section>, jira: Issue) returns (r: Result<seq<Section>>)
    ensures WorkaroundSections(jira).Err? ==> r == WorkaroundSections(jira).PropagateFailure()
    ensures WorkaroundSections(jira).Ok? ==> r == Ok(sections + WorkaroundSections(jira).value)
  {
    var wanted := TruthyString(jira.rootCause);
    if !wanted {
      var found :- FindWorkaround(jira);
      wanted := TruthyText(found);
    }
    if wanted {
      var found :- FindWorkaround(jira);
      return Ok(sections + [Section(Workaround, FormatWorkaround(found))]);
    }
    assert sections + [] == sections;
    return Ok(sections);
  }

  /** Appends the related issues, screenshots and root cause sections. */
  method AppendReferences(sections: seq<Section>, t: Template, other: Rendered) returns (r: seq<Section>)
    ensures r == sections + ReferenceSections(t, other)
  {
    r := sections;
    if NonEmptyList(t.jira.links) {
      r := r + [Section(RelatedIssues, other.relatedIssues)];
    }
    if NonEmptyList(t.jira.attachments) {
      r := r + [Section(Screenshots, other.screenshots)];
    }
    if TruthyString(t.jira.rootCause) {
      r := r + [Section(RootCause, FormatRootCause(t.jira.rootCause.value))];
    }
  }

  /** Appends the rules, the missing-information section and the metadata. */
  method AppendClosing(sections: seq<Section>, t: Template, other: Rendered) returns (r: seq<Section>)
    ensures r == sections + ClosingSections(t, other)
  {
    r := sections + [Section(Separator, Rule)];
    if t.validation.missingRequired != [] || t.validation.missingRecommended != [] {
      var missing := FormatMissingFields(t.validation);
      r := r + [Section(MissingInformation, missing)];
    }
    r := r + [Section(Separator, Rule), Section(Metadata, other.metadata)];
  }

  /** `generate_markdown`: appends each section in turn. */
  method GenerateMarkdown(t: Template, other: Rendered) returns (r: Result<string>)
    ensures r == Markdown(t, other)
  {
    var jira := t.jira;
    var title :- FormatTitle(jira);
    var source :- FormatSource(t);
    var description := FormatDescription(jira);
    var steps :- FormatSteps(jira);
    var expected :- FormatExpected(jira);
    var actual :- FormatActual(jira);
    var environment :- EnvironmentText(jira);
    var sections := [Section(Title, title), Section(Source, source), Section(Description, description),
                     Section(Steps, steps), Section(Expected, expected), Section(Actual, actual),
                     Section(Environment, other.environment)];
    assert HeadSections(t, other) == Ok(sections);
    ghost var head := sections;
    if HasCodeBlock(jira) {
      sections := sections + [Section(StackTrace, other.stackTrace)];
    }
    sections := sections + [Section(Severity, FormatSeverity(jira))];
    ghost var middle := sections;
    assert middle == head + (if HasCodeBlock(jira) then [Section(StackTrace, other.stackTrace)] else [])
                     + [Section(Severity, FormatSeverity(jira))];
    sections :- AppendWorkaround(sections, jira);
    ghost var workaround := WorkaroundSections(jira).value;
    sections := AppendReferences(sections, t, other);
    sections := AppendClosing(sections, t, other);
    assert sections == middle + workaround + ReferenceSections(t, other) + ClosingSections(t, other);
    assert SectionsOf(t, other) == Ok(sections);
    return Ok(Join(Texts(sections), "\n"));
  }

  /** A part present only when its condition holds. */
  function Optional(condition: bool, part: Part): (parts: seq<Part>)
    ensures forall p :: p in parts <==> condition && p == part
  {
    if condition then [part] else []
  }

  /** The sections every report starts with. */
  function FixedParts(): (parts: seq<Part>)
    ensures StackTrace !in parts && Workaround !in parts && RelatedIssues !in parts
    ensures Screenshots !in parts && RootCause !in parts && MissingInformation !in parts
    ensures |parts| == 7 && parts[0] == Title
  {
    [Title, Source, Description, Steps, Expected, Actual, Environment]
  }

  /** The fixed sections, the stack trace when there is a code block, and the severity. */
  function FrontParts(codeBlock: bool): (parts: seq<Part>)
    ensures StackTrace in parts <==> codeBlock
    ensures Workaround !in parts && RelatedIssues !in parts && Screenshots !in parts
    ensures RootCause !in parts && MissingInformation !in parts
    ensures |parts| > 0 && parts[0] == Title
  {
    FixedParts() + Optional(codeBlock, StackTrace) + [Severity]
  }

  /** The workaround, related issues, screenshots and root cause, each when its condition holds. */
  function MiddleParts(workaround: bool, links: bool, attachments: bool, rootCause: bool): (parts: seq<Part>)
    ensures Workaround in parts <==> workaround
    ensures RelatedIssues in parts <==> links
    ensures Screenshots in parts <==> attachments
    ensures RootCause in parts <==> rootCause
    ensures StackTrace !in parts && MissingInformation !in parts
  {
    Optional(workaround, Workaround) + Optional(links, RelatedIssues)
    + Optional(attachments, Screenshots) + Optional(rootCause, RootCause)
  }

  /** The missing-information section between two rules, and the metadata last. */
  function BackParts(missing: bool): (parts: seq<Part>)
    ensures MissingInformation in parts <==> missing
    ensures StackTrace !in parts && Workaround !in parts && RelatedIssues !in parts
    ensures Screenshots !in parts && RootCause !in parts
    ensures |parts| > 0 && parts[|parts| - 1] == Metadata
  {
    [Separator] + Optional(missing, MissingInformation) + [Separator, Metadata]
  }

  /** Which sections a report has, in order, given the conditions the
      source tests: each optional section appears exactly when its condition
      holds, between the title first and the metadata last. */
  function Plan(codeBlock: bool, workaround: bool, links: bool, attachments: bool,
                rootCause: bool, missing: bool): (parts: seq<Part>)
    ensures StackTrace in parts <==> codeBlock
    ensures Workaround in parts <==> workaround
    ensures RelatedIssues in parts <==> links
    ensures Screenshots in parts <==> attachments
    ensures RootCause in parts <==> rootCause
    ensures MissingInformation in parts <==> missing
    ensures |parts| > 1 && parts[0] == Title && parts[|parts| - 1] == Metadata
  {
    FrontParts(codeBlock) + MiddleParts(workaround, links, attachments, rootCause) + BackParts(missing)
  }

  lemma PartsAppend(a: seq<Section>, b: seq<Section>)
    ensures Parts(a + b) == Parts(a) + Parts(b)
  {
  }

  lemma HeadParts(t: Template, other: Rendered)
    requires HeadSections(t, other).Ok?
    ensures Parts(HeadSections(t, other).value) == FixedParts()
  {
  }

  lemma WorkaroundParts(jira: Issue)
    requires WorkaroundSections(jira).Ok?
    ensures WorkaroundOf(jira).Ok?
    ensures Parts(WorkaroundSections(jira).value)
            == Optional(TruthyString(jira.rootCause) || TruthyText(WorkaroundOf(jira).value), Workaround)
  {
  }

  lemma ReferenceParts(t: Template, other: Rendered)
    ensures Parts(ReferenceSections(t, other))
            == Optional(NonEmptyList(t.jira.links), RelatedIssues)
               + Optional(NonEmptyList(t.jira.attachments), Screenshots)
               + Optional(TruthyString(t.jira.rootCause), RootCause)
  {
  }

  lemma ClosingParts(t: Template, other: Rendered)
    ensures Parts(ClosingSections(t, other))
            == BackParts(t.validation.missingRequired != [] || t.validation.missingRecommended != [])
  {
    BackAssembled(MissingSection(t.validation),
                  t.validation.missingRequired != [] || t.validation.missingRecommended != [], other.metadata);
  }

  lemma BackAssembled(missingSection: seq<Section>, missing: bool, metadata: string)
    requires Parts(missingSection) == Optional(missing, MissingInformation)
    ensures Parts([Section(Separator, Rule)] + missingSection + [Section(Separator, Rule), Section(Metadata, metadata)])
            == BackParts(missing)
  {
    PartsAppend([Section(Separator, Rule)], missingSection);
    PartsAppend([Section(Separator, Rule)] + missingSection, [Section(Separator, Rule), Section(Metadata, metadata)]);
  }

  lemma FrontAssembled(head: seq<Section>, trace: seq<Section>, severity: seq<Section>, codeBlock: bool)
    requires Parts(head) == FixedParts()
    requires Parts(trace) == Optional(codeBlock, StackTrace)
    requires Parts(severity) == [Severity]
    ensures Parts(head + trace + severity) == FrontParts(codeBlock)
  {
    PartsAppend(head, trace);
    PartsAppend(head + trace, severity);
  }

  lemma MiddleAssembled(found: seq<Section>, references: seq<Section>,
                        workaround: bool, links: bool, attachments: bool, rootCause: bool)
    requires Parts(found) == Optional(workaround, Workaround)
    requires Parts(references) == Optional(links, RelatedIssues) + Optional(attachments, Screenshots)
                                  + Optional(rootCause, RootCause)
    ensures Parts(found + references) == MiddleParts(workaround, links, attachments, rootCause)
  {
    PartsAppend(found, references);
  }

  /** Sections whose parts are the plan's, piece by piece, have the plan's parts. */
  lemma AssembledParts(front: seq<Section>, middle: seq<Section>, back: seq<Section>,
                       codeBlock: bool, workaround: bool, links: bool, attachments: bool,
                       rootCause: bool, missing: bool)
    requires Parts(front) == FrontParts(codeBlock)
    requires Parts(middle) == MiddleParts(workaround, links, attachments, rootCause)
    requires Parts(back) == BackParts(missing)
    ensures Parts(front + middle + back) == Plan(codeBlock, workaround, links, attachments, rootCause, missing)
  {
    PartsAppend(front, middle);
    PartsAppend(front + middle, back);
  }

  /** The sections of a built report, piece by piece. */
  lemma SectionsShape(t: Template, other: Rendered)
    requires SectionsOf(t, other).Ok?
    ensures HeadSections(t, other).Ok? && WorkaroundSections(t.jira).Ok?
    ensures SectionsOf(t, other).value
            == HeadSections(t, other).value
               + (if HasCodeBlock(t.jira) then [Section(StackTrace, other.stackTrace)] else [])
               + [Section(Severity, FormatSeverity(t.jira))]
               + (WorkaroundSections(t.jira).value + ReferenceSections(t, other))
               + ClosingSections(t, other)
  {
  }

  /** Sections assembled from pieces with the plan's parts have the plan's parts. */
  lemma PlannedSections(sections: seq<Section>, head: seq<Section>, trace: seq<Section>,
                        severity: seq<Section>, found: seq<Section>, references: seq<Section>,
                        closing: seq<Section>, codeBlock: bool, workaround: bool, links: bool,
                        attachments: bool, rootCause: bool, missing: bool)
    requires sections == head + trace + severity + (found + references) + closing
    requires Parts(head) == FixedParts()
    requires Parts(trace) == Optional(codeBlock, StackTrace)
    requires Parts(severity) == [Severity]
    requires Parts(found) == Optional(workaround, Workaround)
    requires Parts(references) == Optional(links, RelatedIssues) + Optional(attachments, Screenshots)
                                  + Optional(rootCause, RootCause)
    requires Parts(closing) == BackParts(missing)
    ensures Parts(sections) == Plan(codeBlock, workaround, links, attachments, rootCause, missing)
  {
    FrontAssembled(head, trace, severity, codeBlock);
    MiddleAssembled(found, references, workaround, links, attachments, rootCause);
    AssembledParts(head + trace + severity, found + references, closing,
                   codeBlock, workaround, links, attachments, rootCause, missing);
  }

  /** A report that is built has exactly the sections of the plan for the
      issue: a stack trace when the description holds a code block, a
      workaround when there is a root cause or a workaround comment, related
      issues, screenshots and root cause when the issue has them, and the
      missing-information section when the validation lists a missing field. */
  lemma ReportFollowsPlan(t: Template, other: Rendered)
    requires SectionsOf(t, other).Ok?
    ensures WorkaroundOf(t.jira).Ok?
    ensures Parts(SectionsOf(t, other).value)
            == Plan(HasCodeBlock(t.jira),
                    TruthyString(t.jira.rootCause) || TruthyText(WorkaroundOf(t.jira).value),
                    NonEmptyList(t.jira.links), NonEmptyList(t.jira.attachments),
                    TruthyString(t.jira.rootCause),
                    t.validation.missingRequired != [] || t.validation.missingRecommended != [])
  {
    var jira := t.jira;
    SectionsShape(t, other);
    HeadParts(t, other);
    WorkaroundParts(jira);
    ReferenceParts(t, other);
    ClosingParts(t, other);
    PlannedSections(SectionsOf(t, other).value, HeadSections(t, other).value,
                    if HasCodeBlock(jira) then [Section(StackTrace, other.stackTrace)] else [],
                    [Section(Severity, FormatSeverity(jira))],
                    WorkaroundSections(jira).value, ReferenceSections(t, other), ClosingSections(t, other),
                    HasCodeBlock(jira), TruthyString(jira.rootCause) || TruthyText(WorkaroundOf(jira).value),
                    NonEmptyList(jira.links), NonEmptyList(jira.attachments), TruthyString(jira.rootCause),
                    t.validation.missingRequired != [] || t.validation.missingRecommended != []);
  }

  /** Building the report raises exactly when the summary or the key is
      absent, a behaviour text or the environment is None, or the workaround
      search raises. */
  lemma ReportErrors(t: Template, other: Rendered)
    ensures SectionsOf(t, other).Err?
            <==> t.jira.summary.Missing? || t.jira.issueKey.Missing?
                 || t.jira.stepsToReproduce.Null? || t.jira.expectedBehavior.Null?
                 || t.jira.actualBehavior.Null? || t.jira.environment.Null?
                 || WorkaroundOf(t.jira).Err?
  {
  }

  /** `generate_github_bug_report`: construct the template, then generate. */
  method GenerateGithubBugReport(jira: Issue, validation: Validation, other: Rendered) returns (r: Result<string>)
    ensures NewTemplate(jira, validation).Err? ==> r == NewTemplate(jira, validation).PropagateFailure()
    ensures NewTemplate(jira, validation).Ok? ==> r == Markdown(NewTemplate(jira, validation).value, other)
  {
    var t :- NewTemplate(jira, validation);
    r := GenerateMarkdown(t, other);
  }
}
