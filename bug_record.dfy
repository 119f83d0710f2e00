/** The bug dictionary the C# analyser produces and the report and JIRA
    formatters read, and the "<type> in <class>.<method>" headline they share. */
module BugRecord {
  import opened Py
  import opened Text

  /** The keys the formatters read. Each is absent, present with None, or
      present with a string. */
  datatype BugData = BugData(
    exceptionType: Slot<string>,
    className: Slot<string>,
    methodName: Slot<string>,
    message: Slot<string>,
    severity: Slot<string>,
    rootCause: Slot<string>,
    component: Slot<string>)

  /** A dictionary without any of these keys. */
  const NoKeys := BugData(Missing, Missing, Missing, Missing, Missing, Missing, Missing)

  /** Every key present with None, as `analyze` leaves what it could not find. */
  const AllNone := BugData(Null, Null, Null, Null, Null, Null, Null)

  /** "<exception_type> in <class_name>.<method>". */
  function Title(e: string, c: string, m: string): (t: string)
    ensures StartsWith(t, e + " in " + c + ".") && EndsWith(t, "." + m)
    ensures |t| == |e| + |c| + |m| + 5
  {
    var head := e + " in " + c;
    Affixes(head + ".", m);
    Affixes(head, "." + m);
    assert head + "." + m == head + ("." + m);
    head + "." + m
  }

  /** The headline with the defaults `.get` supplies for absent keys. */
  function Headline(bug: BugData): string {
    Title(SlotText(bug.exceptionType, "Exception"), SlotText(bug.className, "unknown"),
          SlotText(bug.methodName, "unknown method"))
  }
}
