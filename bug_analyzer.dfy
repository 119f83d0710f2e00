/** The deterministic rules of the C# bug analyser: severity lookup,
    stack-frame splitting, component derivation, reproduction steps,
    impact lines and the choice of suggested fix. */
module BugAnalyzer {
  import opened Py
  import opened Text
  import opened Severity

  /** The severity of each exception type the analyser knows. */
  const ExceptionSeverity: map<string, Level> := map[
    "NullReferenceException" := High,
    "OutOfMemoryException" := Critical,
    "StackOverflowException" := Critical,
    "InvalidOperationException" := High,
    "ArgumentNullException" := High,
    "ArgumentException" := Medium,
    "IndexOutOfRangeException" := High,
    "DivideByZeroException" := High,
    "FileNotFoundException" := Medium,
    "IOException" := Medium,
    "UnauthorizedAccessException" := High,
    "TimeoutException" := Medium,
    "SqlException" := Critical,
    "DbUpdateException" := Critical]

  /** The severity `analyze` settles on: 'Medium' unless an exception type was
      found, then the table entry or 'Medium' for a type not in the table. */
  function AnalyzedSeverity(exceptionType: Option<string>): (l: Level)
    ensures !TruthyText(exceptionType) ==> l == Medium
    ensures TruthyText(exceptionType) && exceptionType.value !in ExceptionSeverity ==> l == Medium
    ensures TruthyText(exceptionType) && exceptionType.value in ExceptionSeverity ==>
              l == ExceptionSeverity[exceptionType.value]
  {
    if TruthyText(exceptionType) && exceptionType.value in ExceptionSeverity then
      ExceptionSeverity[exceptionType.value]
    else Medium
  }

  const CriticalTypes: set<string> :=
    {"OutOfMemoryException", "StackOverflowException", "SqlException", "DbUpdateException"}

  /** Exactly four exception types make a bug critical. */
  lemma CriticalExactly(t: string)
    ensures AnalyzedSeverity(Some(t)) == Critical <==> t in CriticalTypes
  {
    if t in CriticalTypes {
      assert t in ExceptionSeverity;
    }
  }

  /** A frame name split into namespace, class and method. */
  datatype Frame = Frame(namespace: Option<string>, className: string, methodName: string)

  /** The method part of "Method(args)": the text before the first '('. */
  function MethodOf(s: string): (m: string)
    ensures StartsWith(s, m) && '(' !in m
  {
    var m := Split(s, '(')[0];
    SplitFirst(s, '(');
    m
  }

  /** The split of "namespace.Class.Method(args) in file:line": `rsplit('.', 1)`
      on the frame name, then the class is the last dotted part of the front
      and the namespace the rest of it, or None when the front has no dot. */
  function SplitFrame(fullMethod: string): (r: Option<Frame>)
    ensures r.None? <==> '.' !in fullMethod
    ensures r.Some? ==> '.' !in r.value.className && '(' !in r.value.methodName
  {
    var parts := Split(fullMethod, '.');
    var n := |parts|;
    if n < 2 then
      assert fullMethod == Join(parts, ".") by { JoinSplit(fullMethod, '.'); }
      None
    else
      DotInSplit(fullMethod, parts);
      var ns := if n >= 3 then Some(Join(parts[..n - 2], ".")) else None;
      Some(Frame(ns, parts[n - 2], MethodOf(parts[n - 1])))
  }

  /** A string that splits into two or more pieces holds the separator. */
  lemma DotInSplit(s: string, parts: seq<string>)
    requires parts == Split(s, '.') && |parts| >= 2
    ensures '.' in s
  {
    JoinSplit(s, '.');
    assert Join(parts, ".") == parts[0] + "." + Join(parts[1..], ".");
    assert Join(parts, ".")[|parts[0]|] == '.';
  }

  /** Joining dot-free names with dots and splitting the frame name gives them back. */
  lemma FrameRoundTrip(nsParts: seq<string>, cls: string, m: string, args: string)
    requires forall p <- nsParts :: '.' !in p
    requires '.' !in cls && '.' !in m && '(' !in m && '.' !in args
    ensures SplitFrame(Join(nsParts + [cls, m + "(" + args], "."))
            == Some(Frame(if nsParts == [] then None else Some(Join(nsParts, ".")), cls, m))
  {
    var last := m + "(" + args;
    var parts := nsParts + [cls, last];
    assert '.' !in last;
    forall p <- parts ensures '.' !in p {
      if p !in nsParts {
        assert p == cls || p == last;
      }
    }
    SplitJoin(parts, '.');
    assert parts[..|parts| - 2] == nsParts;
    assert parts[|parts| - 2] == cls;
    assert parts[|parts| - 1] == last;
    MethodOfCall(m, args);
  }

  /** The method part of "m(args)" is `m`. */
  lemma MethodOfCall(m: string, args: string)
    requires '(' !in m
    ensures MethodOf(m + "(" + args) == m
  {
    SplitPrefix(m, "(" + args, '(');
    assert ("(" + args)[1..] == args;
    assert Split("(" + args, '(') == [[]] + Split(args, '(');
    assert m + [] == m;
    assert m + "(" + args == m + ("(" + args);
  }

  /** What the simpler "at namespace.Class.Method(...)" form records: the method
      always, and the namespace and the class only when the path holds a dot. */
  datatype SimpleFrame = SimpleFrame(methodName: string, owner: Option<(string, string)>)

  /** The simpler form: the method comes from the match; the class is the last
      dotted part of the path and the namespace the rest of it. */
  function SplitSimple(fullPath: string, methodName: string): (r: SimpleFrame)
    ensures r.methodName == methodName
    ensures r.owner.None? <==> '.' !in fullPath
    ensures r.owner.Some? ==> '.' !in r.owner.value.1 && fullPath == r.owner.value.0 + "." + r.owner.value.1
  {
    var parts := Split(fullPath, '.');
    var n := |parts|;
    JoinSplit(fullPath, '.');
    if n < 2 then
      SimpleFrame(methodName, None)
    else
      DotInSplit(fullPath, parts);
      assert parts == parts[..n - 1] + [parts[n - 1]];
      JoinSnoc(parts[..n - 1], parts[n - 1], ".");
      assert parts[n - 1] in parts;
      SimpleFrame(methodName, Some((Join(parts[..n - 1], "."), parts[n - 1])))
  }

  /** Class and method names that `_determine_component` skips in favour of the part before. */
  const GenericParts: set<string> := {"Services", "Controllers", "Models"}

  /** `file_path.replace('\\', '/')`. */
  function NormalizeSlashes(s: string): (r: string)
    ensures |r| == |s| && '\\' !in r
    ensures forall i :: 0 <= i < |s| ==> r[i] == if s[i] == '\\' then '/' else s[i]
  {
    seq(|s|, i requires 0 <= i < |s| => if s[i] == '\\' then '/' else s[i])
  }

  /** The component a namespace names. */
  function NamespaceComponentOf(namespace: string): (c: string)
    ensures '.' !in c
  {
    var parts := Split(namespace, '.');
    var n := |parts|;
    assert parts[n - 1] in parts;
    if n >= 2 then
      assert parts[n - 2] in parts;
      if parts[n - 1] !in GenericParts then parts[n - 1] else parts[n - 2]
    else parts[0]
  }

  /** The component a file path names: the folder holding the file, if any. */
  function PathComponentOf(filePath: string): (c: Option<string>)
    ensures c.Some? ==> '/' !in c.value && '\\' !in c.value
  {
    var parts := Split(NormalizeSlashes(filePath), '/');
    var n := |parts|;
    if n >= 2 then
      assert parts[n - 2] in parts;
      NoCharInSplit(NormalizeSlashes(filePath), '/', '\\');
      Some(parts[n - 2])
    else None
  }

  /** `_determine_component`: from the namespace when it is truthy, from the
      file path otherwise, and None when neither gives one. */
  function DetermineComponent(namespace: Option<string>, filePath: Option<string>): (c: Option<string>)
    ensures TruthyText(namespace) ==> c.Some? && '.' !in c.value
    ensures !TruthyText(namespace) && c.Some? ==> TruthyText(filePath) && '/' !in c.value && '\\' !in c.value
  {
    if TruthyText(namespace) then Some(NamespaceComponentOf(namespace.value))
    else if TruthyText(filePath) then PathComponentOf(filePath.value)
    else None
  }

  /** A character absent from the string is absent from every piece of its split. */
  lemma {:induction false} NoCharInSplit(s: string, sep: char, c: char)
    requires c !in s
    ensures forall p <- Split(s, sep) :: c !in p
    decreases |s|
  {
    if s != [] {
      NoCharInSplit(s[1..], sep, c);
    }
  }

  /** With a truthy namespace the file path plays no part. */
  lemma NamespaceFirst(namespace: Option<string>, filePath: Option<string>)
    requires TruthyText(namespace)
    ensures DetermineComponent(namespace, filePath) == DetermineComponent(namespace, None)
  {
  }

  /** A dotted namespace yields its last part, or the one before when the
      last is Services, Controllers or Models. */
  lemma NamespaceComponent(parts: seq<string>, filePath: Option<string>)
    requires |parts| >= 2
    requires forall p <- parts :: '.' !in p
    ensures var n := |parts|;
            DetermineComponent(Some(Join(parts, ".")), filePath)
            == Some(if parts[n - 1] in GenericParts then parts[n - 2] else parts[n - 1])
  {
    var namespace := Join(parts, ".");
    JoinHasSeparator(parts, ".");
    SplitJoin(parts, '.');
    NamespaceOfParts(namespace, parts);
    assert TruthyText(Some(namespace));
  }

  lemma NamespaceOfParts(namespace: string, parts: seq<string>)
    requires Split(namespace, '.') == parts && |parts| >= 2
    ensures var n := |parts|;
            NamespaceComponentOf(namespace) == if parts[n - 1] in GenericParts then parts[n - 2] else parts[n - 1]
  {
  }

  /** Two or more pieces joined with a non-empty separator make a non-empty string. */
  lemma JoinHasSeparator(parts: seq<string>, sep: string)
    requires |parts| >= 2 && sep != []
    ensures Join(parts, sep) != []
  {
    assert Join(parts, sep) == parts[0] + sep + Join(parts[1..], sep);
  }

  /** A namespace without a dot is the component itself. */
  lemma SinglePartNamespace(namespace: string, filePath: Option<string>)
    requires namespace != [] && '.' !in namespace
    ensures DetermineComponent(Some(namespace), filePath) == Some(namespace)
  {
    SplitJoin([namespace], '.');
  }

  /** A path of at least two segments yields the folder holding the file. */
  lemma PathComponent(segments: seq<string>)
    requires |segments| >= 2
    requires forall p <- segments :: '/' !in p && '\\' !in p
    ensures DetermineComponent(None, Some(Join(segments, "/"))) == Some(segments[|segments| - 2])
  {
    var path := Join(segments, "/");
    NoBackslashJoin(segments);
    NormalizeKeeps(path);
    SplitJoin(segments, '/');
    PathOfSegments(path, segments);
    JoinHasSeparator(segments, "/");
    assert TruthyText(Some(path));
  }

  lemma PathOfSegments(path: string, segments: seq<string>)
    requires Split(NormalizeSlashes(path), '/') == segments && |segments| >= 2
    ensures PathComponentOf(path) == Some(segments[|segments| - 2])
  {
  }

  /** A path without backslashes is already normalised. */
  lemma NormalizeKeeps(s: string)
    requires '\\' !in s
    ensures NormalizeSlashes(s) == s
  {
  }

  lemma {:induction false} NoBackslashJoin(segments: seq<string>)
    requires forall p <- segments :: '\\' !in p
    ensures '\\' !in Join(segments, "/")
    decreases |segments|
  {
    if |segments| >= 2 {
      NoBackslashJoin(segments[1..]);
    }
  }

  /** The exception types whose reproduction gets a dedicated middle step. */
  const DetailedTypes: set<string> :=
    {"NullReferenceException", "InvalidOperationException", "DivideByZeroException"}

  /** `generate_reproduction_steps`. */
  method GenerateReproductionSteps(exceptionType: string, methodName: Option<string>)
    returns (steps: seq<string>)
    ensures |steps| == if exceptionType in DetailedTypes then 3 else 2
    ensures steps[0] == if TruthyText(methodName) then "Call the " + methodName.value + " method"
                        else "Execute the affected code"
    ensures steps[|steps| - 1] == "Observe " + exceptionType
  {
    steps := [];
    if TruthyText(methodName) {
      steps := steps + ["Call the " + methodName.value + " method"];
    } else {
      steps := steps + ["Execute the affected code"];
    }
    // Each dedicated branch ends by observing the type it checked for.
    if exceptionType == "NullReferenceException" {
      steps := steps + ["Pass null or uninitialized object as parameter"];
      steps := steps + ["Observe " + exceptionType];
    } else if exceptionType == "InvalidOperationException" {
      steps := steps + ["Modify the collection during iteration"];
      steps := steps + ["Observe " + exceptionType];
    } else if exceptionType == "DivideByZeroException" {
      steps := steps + ["Provide zero as divisor"];
      steps := steps + ["Observe " + exceptionType];
    } else {
      steps := steps + ["Observe " + exceptionType];
    }
  }

  /** Which of the four code suggestions `suggest_fix` returns. */
  datatype FixKind = NullCheck | CopyBeforeIterating | ZeroCheck | BoundsCheck

  const FixedTypes: set<string> := DetailedTypes + {"IndexOutOfRangeException"}

  /** `suggest_fix`, reduced to which suggestion it picks. */
  function SuggestFix(exceptionType: string): (fix: Option<FixKind>)
    ensures fix.Some? <==> exceptionType in FixedTypes
  {
    if exceptionType == "NullReferenceException" then Some(NullCheck)
    else if exceptionType == "InvalidOperationException" then Some(CopyBeforeIterating)
    else if exceptionType == "DivideByZeroException" then Some(ZeroCheck)
    else if exceptionType == "IndexOutOfRangeException" then Some(BoundsCheck)
    else None
  }

  /** Every type with a dedicated reproduction step also gets a fix suggestion. */
  lemma DetailedHaveFix(exceptionType: string)
    requires exceptionType in DetailedTypes
    ensures SuggestFix(exceptionType).Some?
  {
  }

  /** `determine_impact`: three lines for Critical and High, two otherwise
      (any severity other than Critical, High and Medium gets the Low lines), and one more naming a
      truthy component. */
  method DetermineImpact(severity: string, component: Option<string>) returns (impacts: seq<string>)
    ensures |impacts| == (if severity == "Critical" || severity == "High" then 3 else 2)
                         + (if TruthyText(component) then 1 else 0)
    ensures TruthyText(component) ==> impacts[|impacts| - 1] == component.value + " component affected"
    ensures severity != "Critical" && severity != "High" && severity != "Medium" ==>
              impacts[..2] == ["Minor inconvenience", "Cosmetic or edge case issue"]
  {
    impacts := [];
    if severity == "Critical" {
      impacts := impacts + ["Application crash or complete service disruption"];
      impacts := impacts + ["Potential data loss or corruption"];
      impacts := impacts + ["Immediate user impact"];
    } else if severity == "High" {
      impacts := impacts + ["Feature unavailable or severely degraded"];
      impacts := impacts + ["Significant user experience impact"];
      impacts := impacts + ["Potential for data inconsistency"];
    } else if severity == "Medium" {
      impacts := impacts + ["Reduced functionality"];
      impacts := impacts + ["User workaround available"];
    } else {
      impacts := impacts + ["Minor inconvenience"];
      impacts := impacts + ["Cosmetic or edge case issue"];
    }
    if TruthyText(component) {
      impacts := impacts + [component.value + " component affected"];
    }
  }
}
