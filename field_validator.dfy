/** Completeness validation of a migrated JIRA issue against the GitHub bug
    template: each of thirteen named checks puts its name into exactly one of
    the lists `presentFields`, `missingRequired` and `missingRecommended`. */
module FieldValidator {
  import opened Py
  import opened Text

  const RequiredFields: seq<string> :=
    ["Title", "Description", "Steps to Reproduce", "Expected Behavior", "Actual Behavior", "Environment", "Severity"]
  const RecommendedFields: seq<string> := ["Workaround", "Related Issues", "Screenshots", "Root Cause"]
  const EnvironmentSubfields: seq<string> := ["OS", ".NET Version"]

  /** `jira.get(k, '')`, the lookup every text check starts from. */
  function Field(jira: map<string, Json>, k: string): Json {
    Get(jira, k, JStr(""))
  }

  /** A value has meaningful content: never None, a string only when at least
      three characters remain after stripping, a list or dict only when
      non-empty, anything else by truthiness. */
  function IsFieldPresent(v: Json): (present: bool)
    ensures present ==> Truthy(v)
    ensures v.JNull? ==> !present
    ensures !v.JStr? ==> (present <==> Truthy(v))
    ensures v.JStr? && present ==> |v.s| >= 3
  {
    match v
    case JNull => false
    case JStr(s) => |Strip(s)| >= 3
    case JArr(xs) => |xs| > 0
    case JObj(m) => |m| > 0
    case _ => Truthy(v)
  }

  /** The patterns `_has_os_info` searches for, in order. */
  const OsPatterns: seq<string> :=
    [@"(?:os|operating system)[:\s]*(\w+)", @"\bwindows\b", @"\blinux\b", @"\bmac\b", @"\bmacos\b", @"\bubuntu\b"]

  /** The patterns `_has_dotnet_version` searches for, in order. */
  const DotnetPatterns: seq<string> := [@"\.net\s+[\d\.]+", @"framework\s+[\d\.]+", @"core\s+[\d\.]+", @"runtime\s+[\d\.]+"]

  /** What `_has_os_info` and `_has_dotnet_version` answer: a truthy environment
      text in which `search` (a case-insensitive `re.search`) finds one of the patterns. */
  predicate EnvironmentInfo(env: Json, patterns: seq<string>, search: (string, string) -> bool)
    requires FalsyOrText(env)
  {
    Truthy(env) && exists p <- patterns :: search(p, env.s)
  }

  /** `_has_os_info` and `_has_dotnet_version`, which differ only in their pattern
      lists: false for a falsy environment, otherwise true at the first pattern found. */
  method HasEnvironmentInfo(env: Json, patterns: seq<string>, search: (string, string) -> bool) returns (has: bool)
    requires FalsyOrText(env)
    ensures has <==> Truthy(env) && exists p <- patterns :: search(p, env.s)
  {
    if !Truthy(env) {
      return false;
    }
    var i := 0;
    while i < |patterns|
      invariant 0 <= i <= |patterns|
      invariant forall k :: 0 <= k < i ==> !search(patterns[k], env.s)
    {
      if search(patterns[i], env.s) {
        return true;
      }
      i := i + 1;
    }
    return false;
  }

  /** The environment value is one the OS and .NET checks can search. */
  predicate EnvironmentOk(jira: map<string, Json>) {
    FalsyOrText(Field(jira, "environment"))
  }

  /** `comment.get('body', '').lower()`: the body's text, or the exception raised
      for a comment that is no dictionary or whose body is no string. */
  function CommentBody(c: Json): Result<string> {
    if !c.JObj? then Err(AttributeError("get"))
    else if "body" !in c.fields then Ok("")
    else if c.fields["body"].JStr? then Ok(c.fields["body"].s)
    else Err(AttributeError("lower"))
  }

  /** A comment the loop reads and that mentions a workaround. */
  predicate Mentions(c: Json) {
    CommentBody(c).Ok? && Contains(Lower(CommentBody(c).value), "workaround")
  }

  /** A comment the loop reads and passes over. */
  predicate PassesOver(c: Json) {
    CommentBody(c).Ok? && !Contains(Lower(CommentBody(c).value), "workaround")
  }

  /** The comment loop of `_has_workaround` over a list: true at the first comment
      mentioning a workaround, the exception of an unreadable comment before it,
      false when every comment is passed over. */
  function SearchComments(cs: seq<Json>): Result<bool> {
    if cs == [] then Ok(false)
    else
      var body :- CommentBody(cs[0]);
      if Contains(Lower(body), "workaround") then Ok(true) else SearchComments(cs[1..])
  }

  /** `for comment in jira.get('comments', [])`: a list is searched; an empty
      dictionary or string is iterated zero times; the items of a non-empty one are
      strings, which have no `get`; None, booleans and numbers are not iterable. */
  function CommentsSearch(comments: Json): Result<bool> {
    match comments
    case JArr(cs) => SearchComments(cs)
    case JObj(m) => if |m| == 0 then Ok(false) else Err(AttributeError("get"))
    case JStr(s) => if s == [] then Ok(false) else Err(AttributeError("get"))
    case _ => Err(TypeError("not iterable"))
  }

  /** What `_has_workaround` answers or raises: the comments are only read when
      there is no root cause. */
  function WorkaroundOf(jira: map<string, Json>): Result<bool> {
    if IsFieldPresent(Field(jira, "root_cause")) then Ok(true)
    else CommentsSearch(Get(jira, "comments", JArr([])))
  }

  /** The comment loop answers true exactly when some comment mentions a workaround
      and every comment before it is passed over; later comments are never read. */
  lemma SearchCommentsFound(cs: seq<Json>)
    ensures SearchComments(cs) == Ok(true) <==>
            exists i :: 0 <= i < |cs| && Mentions(cs[i]) && forall k :: 0 <= k < i ==> PassesOver(cs[k])
  {
    if SearchComments(cs) == Ok(true) {
      FoundHasWitness(cs);
    }
    if exists i :: 0 <= i < |cs| && Mentions(cs[i]) && forall k :: 0 <= k < i ==> PassesOver(cs[k]) {
      var i :| 0 <= i < |cs| && Mentions(cs[i]) && forall k :: 0 <= k < i ==> PassesOver(cs[k]);
      WitnessFound(cs, i);
    }
  }

  /** A true answer comes from a mentioning comment reached by the loop. */
  lemma {:induction false} FoundHasWitness(cs: seq<Json>)
    requires SearchComments(cs) == Ok(true)
    ensures exists i :: 0 <= i < |cs| && Mentions(cs[i]) && forall k :: 0 <= k < i ==> PassesOver(cs[k])
    decreases |cs|
  {
    if !Mentions(cs[0]) {
      FoundHasWitness(cs[1..]);
      var i :| 0 <= i < |cs[1..]| && Mentions(cs[1..][i]) && forall k :: 0 <= k < i ==> PassesOver(cs[1..][k]);
      assert Mentions(cs[i + 1]);
      assert forall k :: 1 <= k < i + 1 ==> cs[k] == cs[1..][k - 1];
    }
  }

  /** A mentioning comment reached by the loop makes it answer true. */
  lemma {:induction false} WitnessFound(cs: seq<Json>, i: nat)
    requires i < |cs| && Mentions(cs[i]) && forall k :: 0 <= k < i ==> PassesOver(cs[k])
    ensures SearchComments(cs) == Ok(true)
    decreases i
  {
    if i > 0 {
      assert PassesOver(cs[0]);
      assert forall k :: 0 <= k < i - 1 ==> cs[1..][k] == cs[k + 1];
      WitnessFound(cs[1..], i - 1);
    }
  }

  /** The comment loop answers false exactly when every comment is passed over. */
  lemma {:induction false} SearchCommentsNone(cs: seq<Json>)
    ensures SearchComments(cs) == Ok(false) <==> forall k :: 0 <= k < |cs| ==> PassesOver(cs[k])
    decreases |cs|
  {
    if cs != [] {
      SearchCommentsNone(cs[1..]);
      if forall k :: 0 <= k < |cs| ==> PassesOver(cs[k]) {
        assert forall k :: 0 <= k < |cs[1..]| ==> PassesOver(cs[1..][k]) by {
          forall k | 0 <= k < |cs[1..]| ensures PassesOver(cs[1..][k]) {
            assert cs[1..][k] == cs[k + 1];
          }
        }
      }
      if SearchComments(cs) == Ok(false) {
        forall k | 0 <= k < |cs| ensures PassesOver(cs[k]) {
          if k > 0 {
            assert cs[1..][k - 1] == cs[k];
          }
        }
      }
    }
  }

  /** `_has_workaround` answers true exactly for a present root cause or a comment
      list with a mentioning comment reached, and false exactly when neither holds
      and the comments are a list read through or an empty dictionary or string. */
  lemma WorkaroundAnswer(jira: map<string, Json>)
    ensures var comments := Get(jira, "comments", JArr([]));
            (WorkaroundOf(jira) == Ok(true) <==>
               IsFieldPresent(Field(jira, "root_cause"))
               || (comments.JArr? && exists i :: 0 <= i < |comments.items| && Mentions(comments.items[i])
                                                && forall k :: 0 <= k < i ==> PassesOver(comments.items[k])))
            && (WorkaroundOf(jira) == Ok(false) <==>
               !IsFieldPresent(Field(jira, "root_cause"))
               && ((comments.JArr? && forall k :: 0 <= k < |comments.items| ==> PassesOver(comments.items[k]))
                   || comments == JObj(map[]) || comments == JStr("")))
  {
    var comments := Get(jira, "comments", JArr([]));
    if comments.JArr? {
      SearchCommentsFound(comments.items);
      SearchCommentsNone(comments.items);
    }
  }

  /** The thirteen names the validator reports. */
  datatype FieldName =
    | Title | Description | StepsToReproduce | ExpectedBehavior | ActualBehavior | Environment
    | OS | DotNetVersion | Severity
    | Workaround | RelatedIssues | Screenshots | RootCause
  {
    /** The name as it appears in the lists. */
    function Label(): string {
      match this
      case Title => "Title"
      case Description => "Description"
      case StepsToReproduce => "Steps to Reproduce"
      case ExpectedBehavior => "Expected Behavior"
      case ActualBehavior => "Actual Behavior"
      case Environment => "Environment"
      case OS => "OS"
      case DotNetVersion => ".NET Version"
      case Severity => "Severity"
      case Workaround => "Workaround"
      case RelatedIssues => "Related Issues"
      case Screenshots => "Screenshots"
      case RootCause => "Root Cause"
    }

    /** A required field (or environment sub-field), as opposed to a recommended one. */
    predicate Required() {
      !(Workaround? || RelatedIssues? || Screenshots? || RootCause?)
    }
  }

  /** Distinct names have distinct labels. */
  lemma LabelInjective(a: FieldName, b: FieldName)
    requires a != b
    ensures a.Label() != b.Label()
  {
    var x, y := a.Label(), b.Label();
    if |x| == |y| {
      assert x[0] != y[0];
    }
  }

  /** One named check of the template and its outcome. */
  datatype Check = Check(name: FieldName, present: bool)

  /** The nine required checks, in the order they are made. */
  function RequiredChecks(jira: map<string, Json>, search: (string, string) -> bool): (cs: seq<Check>)
    requires EnvironmentOk(jira)
    ensures |cs| == 9 && forall i :: 0 <= i < 9 ==> cs[i].name == CheckOrder[i]
  {
    var env := Field(jira, "environment");
    [Check(Title, IsFieldPresent(Field(jira, "summary")))]
    + [Check(Description, IsFieldPresent(Field(jira, "description")))]
    + [Check(StepsToReproduce, IsFieldPresent(Field(jira, "steps_to_reproduce")))]
    + [Check(ExpectedBehavior, IsFieldPresent(Field(jira, "expected_behavior")))]
    + [Check(ActualBehavior, IsFieldPresent(Field(jira, "actual_behavior")))]
    + [Check(Environment, IsFieldPresent(env))]
    + [Check(OS, EnvironmentInfo(env, OsPatterns, search))]
    + [Check(DotNetVersion, EnvironmentInfo(env, DotnetPatterns, search))]
    + [Check(Severity, IsFieldPresent(Field(jira, "priority")))]
  }

  /** The four recommended checks, in the order they are made, given what
      `_has_workaround` answered. */
  function RecommendedChecks(jira: map<string, Json>, workaround: bool): (cs: seq<Check>)
    ensures |cs| == 4 && forall i :: 0 <= i < 4 ==> cs[i].name == CheckOrder[9 + i]
  {
    [Check(Workaround, workaround)]
    + [Check(RelatedIssues, Truthy(Get(jira, "links", JNull)))]
    + [Check(Screenshots, Truthy(Get(jira, "attachments", JNull)))]
    + [Check(RootCause, IsFieldPresent(Field(jira, "root_cause")))]
  }

  function AllChecks(jira: map<string, Json>, search: (string, string) -> bool, workaround: bool): seq<Check>
    requires EnvironmentOk(jira)
  {
    RequiredChecks(jira, search) + RecommendedChecks(jira, workaround)
  }

  predicate IsPresent(c: Check) { c.present }
  predicate IsMissingRequired(c: Check) { !c.present && c.name.Required() }
  predicate IsMissingRecommended(c: Check) { !c.present && !c.name.Required() }

  /** The labels of the checks that `keep` selects, in order. */
  function Select(cs: seq<Check>, keep: Check -> bool): seq<string> {
    if cs == [] then []
    else (if keep(cs[0]) then [cs[0].name.Label()] else []) + Select(cs[1..], keep)
  }

  function PresentNames(cs: seq<Check>): seq<string> { Select(cs, IsPresent) }
  function MissingRequiredNames(cs: seq<Check>): seq<string> { Select(cs, IsMissingRequired) }
  function MissingRecommendedNames(cs: seq<Check>): seq<string> { Select(cs, IsMissingRecommended) }

  /** Selecting from two halves appends the selected names in order. */
  lemma {:induction false} SelectConcat(a: seq<Check>, b: seq<Check>, keep: Check -> bool)
    ensures Select(a + b, keep) == Select(a, keep) + Select(b, keep)
    decreases |a|
  {
    if a == [] {
      assert a + b == b;
    } else {
      SelectConcat(a[1..], b, keep);
      assert (a + b)[1..] == a[1..] + b;
      assert (a + b)[0] == a[0];
    }
  }

  /** Selecting from one more check appends its label when `keep` selects it. */
  lemma SelectOne(done: seq<Check>, c: Check, keep: Check -> bool)
    ensures Select(done + [c], keep) == if keep(c) then Select(done, keep) + [c.name.Label()] else Select(done, keep)
  {
    SelectConcat(done, [c], keep);
    assert [c][1..] == [];
    assert Select(done, keep) + [] == Select(done, keep);
  }

  /** Every check lands in exactly one of the three lists. */
  lemma {:induction false} NamesPartition(cs: seq<Check>)
    ensures |PresentNames(cs)| + |MissingRequiredNames(cs)| + |MissingRecommendedNames(cs)| == |cs|
    decreases |cs|
  {
    if cs != [] {
      NamesPartition(cs[1..]);
    }
  }

  /** A name that no check carries is never selected. */
  lemma {:induction false} SelectNone(cs: seq<Check>, keep: Check -> bool, n: FieldName)
    requires forall c <- cs :: c.name != n
    ensures n.Label() !in Select(cs, keep)
    decreases |cs|
  {
    if cs != [] {
      assert cs[0] in cs;
      LabelInjective(cs[0].name, n);
      assert forall c <- cs[1..] :: c in cs;
      SelectNone(cs[1..], keep, n);
    }
  }

  /** A check whose name no other check carries is selected exactly when `keep` holds of it. */
  lemma {:induction false} SelectUnique(cs: seq<Check>, keep: Check -> bool, i: nat)
    requires i < |cs|
    requires forall j :: 0 <= j < |cs| && j != i ==> cs[j].name != cs[i].name
    ensures cs[i].name.Label() in Select(cs, keep) <==> keep(cs[i])
    decreases |cs|
  {
    if i == 0 {
      forall c | c in cs[1..] ensures c.name != cs[0].name {
        var j :| 0 <= j < |cs[1..]| && cs[1..][j] == c;
        assert cs[j + 1] == c;
      }
      SelectNone(cs[1..], keep, cs[0].name);
    } else {
      SelectUnique(cs[1..], keep, i - 1);
    }
  }

  /** With that check's name unique, it is in the list its outcome selects and in no other. */
  lemma NameLands(cs: seq<Check>, i: nat)
    requires i < |cs|
    requires forall j :: 0 <= j < |cs| && j != i ==> cs[j].name != cs[i].name
    ensures cs[i].name.Label() in PresentNames(cs) <==> cs[i].present
    ensures cs[i].name.Label() in MissingRequiredNames(cs) <==> !cs[i].present && cs[i].name.Required()
    ensures cs[i].name.Label() in MissingRecommendedNames(cs) <==> !cs[i].present && !cs[i].name.Required()
  {
    SelectUnique(cs, IsPresent, i);
    SelectUnique(cs, IsMissingRequired, i);
    SelectUnique(cs, IsMissingRecommended, i);
  }

  /** The order in which the thirteen names are checked. */
  const CheckOrder: seq<FieldName> :=
    [Title, Description, StepsToReproduce, ExpectedBehavior, ActualBehavior, Environment, OS, DotNetVersion, Severity,
     Workaround, RelatedIssues, Screenshots, RootCause]

  /** The thirteen checks carry the names of `CheckOrder`, in that order. */
  lemma AllCheckNames(jira: map<string, Json>, search: (string, string) -> bool, workaround: bool)
    requires EnvironmentOk(jira)
    ensures var cs := AllChecks(jira, search, workaround);
            |cs| == 13 && forall i :: 0 <= i < 13 ==> cs[i].name == CheckOrder[i]
  {
  }

  /** Every name is checked once, the nine required ones first, and the labels
      are the required fields, the environment sub-fields and the recommended fields. */
  lemma CheckOrderFacts()
    ensures forall i, j :: 0 <= i < j < |CheckOrder| ==> CheckOrder[i] != CheckOrder[j]
    ensures forall i :: 0 <= i < |CheckOrder| ==> (CheckOrder[i].Required() <==> i < 9)
    ensures forall n: FieldName :: n.Label() in RequiredFields + EnvironmentSubfields + RecommendedFields
  {
  }

  /** After validation the three lists hold thirteen names between them. */
  lemma ValidationCovers(jira: map<string, Json>, search: (string, string) -> bool, workaround: bool)
    requires EnvironmentOk(jira)
    ensures var cs := AllChecks(jira, search, workaround);
            |PresentNames(cs)| + |MissingRequiredNames(cs)| + |MissingRecommendedNames(cs)| == 13
  {
    AllCheckNames(jira, search, workaround);
    NamesPartition(AllChecks(jira, search, workaround));
  }

  /** Each of the thirteen names lands in the list its own check selects and in no other. */
  lemma EveryNameLands(jira: map<string, Json>, search: (string, string) -> bool, workaround: bool, i: nat)
    requires EnvironmentOk(jira) && i < 13
    ensures var cs := AllChecks(jira, search, workaround);
            (cs[i].name.Label() in PresentNames(cs) <==> cs[i].present)
            && (cs[i].name.Label() in MissingRequiredNames(cs) <==> !cs[i].present && i < 9)
            && (cs[i].name.Label() in MissingRecommendedNames(cs) <==> !cs[i].present && i >= 9)
  {
    AllCheckNames(jira, search, workaround);
    CheckOrderFacts();
    NameLands(AllChecks(jira, search, workaround), i);
  }

  /** An empty environment text reports the environment and both of its sub-fields missing. */
  lemma EmptyEnvironmentMissing(jira: map<string, Json>, search: (string, string) -> bool, workaround: bool)
    requires EnvironmentOk(jira)
    requires !Truthy(Field(jira, "environment"))
    ensures "Environment" in MissingRequiredNames(AllChecks(jira, search, workaround))
    ensures "OS" in MissingRequiredNames(AllChecks(jira, search, workaround))
    ensures ".NET Version" in MissingRequiredNames(AllChecks(jira, search, workaround))
  {
    var cs := AllChecks(jira, search, workaround);
    EveryNameLands(jira, search, workaround, 5);
    EveryNameLands(jira, search, workaround, 6);
    EveryNameLands(jira, search, workaround, 7);
  }

  /** With `_has_workaround` answering, Workaround is reported present exactly when
      the root cause is present or a comment mentioning a workaround is reached. */
  lemma WorkaroundLands(jira: map<string, Json>, search: (string, string) -> bool)
    requires EnvironmentOk(jira)
    ensures var comments := Get(jira, "comments", JArr([]));
            WorkaroundOf(jira).Ok? ==>
              ("Workaround" in PresentNames(AllChecks(jira, search, WorkaroundOf(jira).value)) <==>
                 IsFieldPresent(Field(jira, "root_cause"))
                 || (comments.JArr? && exists i :: 0 <= i < |comments.items| && Mentions(comments.items[i])
                                                  && forall k :: 0 <= k < i ==> PassesOver(comments.items[k])))
  {
    if WorkaroundOf(jira).Ok? {
      EveryNameLands(jira, search, WorkaroundOf(jira).value, 9);
      WorkaroundAnswer(jira);
    }
  }

  /** The result of `validate` (without the floating-point completeness score). */
  datatype Validation = Validation(
    missingRequired: seq<string>,
    missingRecommended: seq<string>,
    presentFields: seq<string>,
    isComplete: bool,
    totalRequired: nat,
    totalRecommended: nat)

  /** The summary lines for the two missing lists. */
  function SummaryLines(missingRequired: seq<string>, missingRecommended: seq<string>): seq<string> {
    RequiredSummary(missingRequired) + RecommendedSummary(missingRecommended)
  }

  function RequiredSummary(missingRequired: seq<string>): seq<string> {
    if missingRequired == [] then ["\U{2713} All required fields present"]
    else ["\U{26A0}\U{FE0F} " + NatToString(|missingRequired|) + " required fields missing:"] + Bullets(missingRequired)
  }

  function RecommendedSummary(missingRecommended: seq<string>): seq<string> {
    if missingRecommended == [] then ["\U{2713} All recommended fields present"]
    else ["  " + NatToString(|missingRecommended|) + " recommended fields missing:"] + Bullets(missingRecommended)
  }

  /** One `  - name` line per field. */
  function Bullets(fields: seq<string>): (lines: seq<string>)
    ensures |lines| == |fields|
    ensures forall i :: 0 <= i < |fields| ==> lines[i] == "  - " + fields[i]
  {
    seq(|fields|, i requires 0 <= i < |fields| => "  - " + fields[i])
  }

  /** The loops of `generate_summary`: one `  - name` line per field, appended. */
  method AppendBullets(lines: seq<string>, fields: seq<string>) returns (out: seq<string>)
    ensures out == lines + Bullets(fields)
  {
    out := lines;
    var i := 0;
    while i < |fields|
      invariant 0 <= i <= |fields|
      invariant out == lines + Bullets(fields[..i])
    {
      assert Bullets(fields[..i + 1]) == Bullets(fields[..i]) + ["  - " + fields[i]];
      out := out + ["  - " + fields[i]];
      i := i + 1;
    }
    assert fields[..i] == fields;
  }

  /** The required half of `generate_summary`. */
  method RequiredSummaryLines(missingRequired: seq<string>) returns (lines: seq<string>)
    ensures lines == RequiredSummary(missingRequired)
  {
    if missingRequired == [] {
      lines := ["\U{2713} All required fields present"];
    } else {
      lines := AppendBullets(["\U{26A0}\U{FE0F} " + NatToString(|missingRequired|) + " required fields missing:"],
                             missingRequired);
    }
  }

  /** The recommended half of `generate_summary`. */
  method RecommendedSummaryLines(missingRecommended: seq<string>) returns (lines: seq<string>)
    ensures lines == RecommendedSummary(missingRecommended)
  {
    if missingRecommended == [] {
      lines := ["\U{2713} All recommended fields present"];
    } else {
      lines := AppendBullets(["  " + NatToString(|missingRecommended|) + " recommended fields missing:"],
                             missingRecommended);
    }
  }

  /** The summary opens with "All required fields present" exactly when nothing
      required is missing, and otherwise lists every missing required field,
      in order, right after its count. */
  lemma SummaryShape(missingRequired: seq<string>, missingRecommended: seq<string>)
    ensures var lines := SummaryLines(missingRequired, missingRecommended);
            |lines| >= 2
            && (lines[0] == "\U{2713} All required fields present" <==> missingRequired == [])
            && (missingRequired != [] ==>
                  lines[0] == "\U{26A0}\U{FE0F} " + NatToString(|missingRequired|) + " required fields missing:"
                  && forall i :: 0 <= i < |missingRequired| ==> lines[1 + i] == "  - " + missingRequired[i])
  {
    var lines := SummaryLines(missingRequired, missingRecommended);
    if missingRequired != [] {
      var head := "\U{26A0}\U{FE0F} " + NatToString(|missingRequired|) + " required fields missing:";
      assert lines[0] == head;
      assert head[0] != "\U{2713} All required fields present"[0];
    }
  }

  class GitHubFieldValidator {
    const jira: map<string, Json>
    var missingRequired: seq<string>
    var missingRecommended: seq<string>
    var presentFields: seq<string>

    constructor (jiraData: map<string, Json>)
      ensures jira == jiraData
      ensures missingRequired == [] && missingRecommended == [] && presentFields == []
    {
      jira := jiraData;
      missingRequired := [];
      missingRecommended := [];
      presentFields := [];
    }

    /** The three lists, as a value. */
    function Lists(): (seq<string>, seq<string>, seq<string>)
      reads this
    {
      (presentFields, missingRequired, missingRecommended)
    }

    /** `base` followed by the outcomes of the checks `done`. */
    static function After(base: (seq<string>, seq<string>, seq<string>), done: seq<Check>): (seq<string>, seq<string>, seq<string>) {
      (base.0 + PresentNames(done), base.1 + MissingRequiredNames(done), base.2 + MissingRecommendedNames(done))
    }

    /** One `if ...: present_fields.append(name) else: missing_*.append(name)`. */
    method Record(c: Check, ghost base: (seq<string>, seq<string>, seq<string>), ghost done: seq<Check>)
      requires Lists() == After(base, done)
      modifies this
      ensures Lists() == After(base, done + [c])
    {
      AfterStep(base, done, c);
      var shown := c.name.Label();
      if c.present {
        presentFields := presentFields + [shown];
      } else if c.name.Required() {
        missingRequired := missingRequired + [shown];
      } else {
        missingRecommended := missingRecommended + [shown];
      }
    }

    /** The outcome of one more check appends its label to the one list it selects. */
    static lemma AfterStep(base: (seq<string>, seq<string>, seq<string>), done: seq<Check>, c: Check)
      ensures var l, shown := After(base, done), c.name.Label();
              After(base, done + [c])
              == if c.present then (l.0 + [shown], l.1, l.2)
                 else if c.name.Required() then (l.0, l.1 + [shown], l.2)
                 else (l.0, l.1, l.2 + [shown])
    {
      SelectOne(done, c, IsPresent);
      SelectOne(done, c, IsMissingRequired);
      SelectOne(done, c, IsMissingRecommended);
      var shown := c.name.Label();
      assert base.0 + (PresentNames(done) + [shown]) == (base.0 + PresentNames(done)) + [shown];
      assert base.1 + (MissingRequiredNames(done) + [shown]) == (base.1 + MissingRequiredNames(done)) + [shown];
      assert base.2 + (MissingRecommendedNames(done) + [shown]) == (base.2 + MissingRecommendedNames(done)) + [shown];
    }

    /** `_has_workaround`: the root cause, else the loop over the comments with
        its early return. */
    method HasWorkaround() returns (found: Result<bool>)
      ensures found == WorkaroundOf(jira)
    {
      if IsFieldPresent(Field(jira, "root_cause")) {
        return Ok(true);
      }
      var comments := Get(jira, "comments", JArr([]));
      match comments {
        case JArr(cs) =>
          var i := 0;
          while i < |cs|
            invariant 0 <= i <= |cs|
            invariant SearchComments(cs[i..]) == SearchComments(cs)
          {
            assert cs[i..][1..] == cs[i + 1..];
            if !cs[i].JObj? {
              return Err(AttributeError("get"));
            }
            var body := Get(cs[i].fields, "body", JStr(""));
            if !body.JStr? {
              return Err(AttributeError("lower"));
            }
            if Contains(Lower(body.s), "workaround") {
              return Ok(true);
            }
            i := i + 1;
          }
          return Ok(false);
        case JObj(m) =>
          found := if |m| == 0 then Ok(false) else Err(AttributeError("get"));
        case JStr(t) =>
          found := if t == [] then Ok(false) else Err(AttributeError("get"));
        case _ =>
          found := Err(TypeError("not iterable"));
      }
    }

    /** `_validate_required_fields`: the nine required checks, in order. */
    method ValidateRequiredFields(search: (string, string) -> bool)
      requires EnvironmentOk(jira)
      modifies this
      ensures Lists() == After(old(Lists()), RequiredChecks(jira, search))
    {
      ghost var base := Lists();
      ghost var done: seq<Check> := [];
      assert PresentNames([]) == [] && MissingRequiredNames([]) == [] && MissingRecommendedNames([]) == [];
      assert base.0 + [] == base.0 && base.1 + [] == base.1 && base.2 + [] == base.2;
      var c := Check(Title, IsFieldPresent(Field(jira, "summary")));
      Record(c, base, done); assert done + [c] == [c]; done := [c];
      c := Check(Description, IsFieldPresent(Field(jira, "description")));
      Record(c, base, done); done := done + [c];
      c := Check(StepsToReproduce, IsFieldPresent(Field(jira, "steps_to_reproduce")));
      Record(c, base, done); done := done + [c];
      c := Check(ExpectedBehavior, IsFieldPresent(Field(jira, "expected_behavior")));
      Record(c, base, done); done := done + [c];
      c := Check(ActualBehavior, IsFieldPresent(Field(jira, "actual_behavior")));
      Record(c, base, done); done := done + [c];
      var envText := Field(jira, "environment");
      c := Check(Environment, IsFieldPresent(envText));
      Record(c, base, done); done := done + [c];
      var has := HasEnvironmentInfo(envText, OsPatterns, search);
      c := Check(OS, has);
      Record(c, base, done); done := done + [c];
      has := HasEnvironmentInfo(envText, DotnetPatterns, search);
      c := Check(DotNetVersion, has);
      Record(c, base, done); done := done + [c];
      c := Check(Severity, IsFieldPresent(Field(jira, "priority")));
      Record(c, base, done); done := done + [c];
    }

    /** `_validate_recommended_fields`: the four recommended checks, in order;
        an exception of `_has_workaround` leaves before anything is appended. */
    method ValidateRecommendedFields() returns (outcome: Result<()>)
      modifies this
      ensures outcome.Err? <==> WorkaroundOf(jira).Err?
      ensures outcome.Err? ==> outcome.error == WorkaroundOf(jira).error && Lists() == old(Lists())
      ensures outcome.Ok? ==> Lists() == After(old(Lists()), RecommendedChecks(jira, WorkaroundOf(jira).value))
    {
      var workaround := HasWorkaround();
      if workaround.Err? {
        return Err(workaround.error);
      }
      ghost var base := Lists();
      ghost var done: seq<Check> := [];
      assert PresentNames([]) == [] && MissingRequiredNames([]) == [] && MissingRecommendedNames([]) == [];
      assert base.0 + [] == base.0 && base.1 + [] == base.1 && base.2 + [] == base.2;
      var c := Check(Workaround, workaround.value);
      Record(c, base, done); assert done + [c] == [c]; done := [c];
      c := Check(RelatedIssues, Truthy(Get(jira, "links", JNull)));
      Record(c, base, done); done := done + [c];
      c := Check(Screenshots, Truthy(Get(jira, "attachments", JNull)));
      Record(c, base, done); done := done + [c];
      c := Check(RootCause, IsFieldPresent(Field(jira, "root_cause")));
      Record(c, base, done); done := done + [c];
      return Ok(());
    }

    /** `validate`: clears the lists, then runs the required and the recommended
        checks. The new lists depend on the issue alone, never on the old lists,
        so validating twice gives the same result. When `_has_workaround` raises,
        the exception leaves `validate` with the required outcomes recorded. */
    method Validate(search: (string, string) -> bool) returns (r: Result<Validation>)
      requires EnvironmentOk(jira)
      modifies this
      ensures WorkaroundOf(jira).Err? ==>
                r == Err(WorkaroundOf(jira).error) && Lists() == After(([], [], []), RequiredChecks(jira, search))
      ensures WorkaroundOf(jira).Ok? ==>
                var cs := AllChecks(jira, search, WorkaroundOf(jira).value);
                presentFields == PresentNames(cs)
                && missingRequired == MissingRequiredNames(cs)
                && missingRecommended == MissingRecommendedNames(cs)
                && r == Ok(Validation(missingRequired, missingRecommended, presentFields, missingRequired == [],
                                      |RequiredFields|, |RecommendedFields|))
    {
      missingRequired := [];
      missingRecommended := [];
      presentFields := [];
      ValidateRequiredFields(search);
      var outcome := ValidateRecommendedFields();
      if outcome.Err? {
        return Err(outcome.error);
      }
      ghost var req, rec := RequiredChecks(jira, search), RecommendedChecks(jira, WorkaroundOf(jira).value);
      assert [] + PresentNames(req) == PresentNames(req);
      assert [] + MissingRequiredNames(req) == MissingRequiredNames(req);
      assert [] + MissingRecommendedNames(req) == MissingRecommendedNames(req);
      SelectConcat(req, rec, IsPresent);
      SelectConcat(req, rec, IsMissingRequired);
      SelectConcat(req, rec, IsMissingRecommended);
      r := Ok(Validation(missingRequired, missingRecommended, presentFields, |missingRequired| == 0,
                         |RequiredFields|, |RecommendedFields|));
    }

    /** `generate_summary`, line by line, joined with newlines. */
    method GenerateSummary() returns (text: string)
      ensures text == Join(SummaryLines(missingRequired, missingRecommended), "\n")
    {
      var required := RequiredSummaryLines(missingRequired);
      var recommended := RecommendedSummaryLines(missingRecommended);
      var lines := required + recommended;
      text := Join(lines, "\n");
    }
  }
}
