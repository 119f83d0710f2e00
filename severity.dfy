/** The four severity names shared by the C# bug documentation tools. */
module Severity {
  import opened Py

  datatype Level = Critical | High | Medium | Low {
    function Name(): string {
      match this
      case Critical => "Critical"
      case High => "High"
      case Medium => "Medium"
      case Low => "Low"
    }
  }

  /** The level a severity string names, if it names one. */
  function Parse(s: string): (r: Option<Level>)
    ensures r.Some? ==> r.value.Name() == s
    ensures r.None? ==> forall l: Level :: l.Name() != s
  {
    if s == "Critical" then Some(Critical)
    else if s == "High" then Some(High)
    else if s == "Medium" then Some(Medium)
    else if s == "Low" then Some(Low)
    else None
  }

  /** Every level's name parses back to that level. */
  lemma ParseName(l: Level)
    ensures Parse(l.Name()) == Some(l)
  {
  }
}
