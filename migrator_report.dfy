/** The report file name of the JIRA-to-GitHub migrator: the issue key, a
    timestamp and a sanitised summary. */
module MigratorReport {
  import opened Text

  /** The characters `[a-z0-9]` that survive sanitising. */
  predicate IsSafe(c: char) { IsLower(c) || IsDigit(c) }

  predicate NotSafe(c: char) { !IsSafe(c) }
  predicate IsDash(c: char) { c == '-' }

  /** Only `[a-z0-9]` and `-`. */
  predicate SafeChars(s: string) {
    forall i :: 0 <= i < |s| ==> IsSafe(s[i]) || s[i] == '-'
  }

  /** Positions `i` and `i + 1` both hold a hyphen. */
  predicate DashPair(s: string, i: int)
    requires 0 <= i < |s| - 1
  {
    s[i] == '-' && s[i + 1] == '-'
  }

  /** No two adjacent hyphens. */
  predicate NoDoubleDash(s: string) {
    forall i :: 0 <= i < |s| - 1 ==> !DashPair(s, i)
  }

  /** Neither the first nor the last character is a hyphen. */
  predicate NoEdgeDash(s: string) {
    s == [] || (s[0] != '-' && s[|s| - 1] != '-')
  }

  /** What the sanitiser promises of its output. */
  predicate Clean(s: string) {
    SafeChars(s) && NoDoubleDash(s) && NoEdgeDash(s)
  }

  lemma ConsNoDoubleDash(c: char, r: string)
    requires NoDoubleDash(r)
    requires c != '-' || r == [] || r[0] != '-'
    ensures NoDoubleDash([c] + r)
  {
    var t := [c] + r;
    forall i | 0 <= i < |t| - 1 ensures !DashPair(t, i) {
      if i > 0 {
        assert !DashPair(r, i - 1);
      }
    }
  }

  lemma SliceKeeps(s: string, a: nat, b: nat)
    requires a <= b <= |s|
    ensures SafeChars(s) ==> SafeChars(s[a..b])
    ensures NoDoubleDash(s) ==> NoDoubleDash(s[a..b])
  {
    var t := s[a..b];
    if NoDoubleDash(s) {
      forall i | 0 <= i < |t| - 1 ensures !DashPair(t, i) {
        assert !DashPair(s, a + i);
      }
    }
    if SafeChars(s) {
      forall i | 0 <= i < |t| ensures IsSafe(t[i]) || t[i] == '-' {
        assert t[i] == s[a + i];
      }
    }
  }

  /** `re.sub(r'^\[bug\]\s*', '', text)` on lower-cased text. */
  function DropBugTag(s: string): string {
    if StartsWith(s, "[bug]") then TrimLeft(s[5..], IsSpace) else s
  }

  /** `re.sub(r'^bug:\s*', '', text)` on lower-cased text. */
  function DropBugColon(s: string): string {
    if StartsWith(s, "bug:") then TrimLeft(s[4..], IsSpace) else s
  }

  /** `re.sub(r'[^a-z0-9]+', '-', text)`: every maximal run of other characters
      becomes one hyphen. */
  function DashRuns(s: string): (r: string)
    ensures SafeChars(r) && NoDoubleDash(r)
    ensures r == [] <==> s == []
    ensures r != [] ==> (r[0] == '-' <==> !IsSafe(s[0]))
    decreases |s|
  {
    if s == [] then []
    else if IsSafe(s[0]) then
      var rest := DashRuns(s[1..]);
      ConsNoDoubleDash(s[0], rest);
      [s[0]] + rest
    else
      var run := TrimLeft(s[1..], NotSafe);
      var rest := DashRuns(run);
      ConsNoDoubleDash('-', rest);
      "-" + rest
  }

  /** `re.sub(r'-+', '-', text)`: every run of hyphens becomes one. */
  function CollapseDashes(s: string): (r: string)
    ensures NoDoubleDash(r)
    ensures r == [] <==> s == []
    ensures r != [] ==> r[0] == s[0]
    decreases |s|
  {
    if s == [] then []
    else if s[0] == '-' then
      var rest := CollapseDashes(TrimLeft(s[1..], IsDash));
      ConsNoDoubleDash('-', rest);
      "-" + rest
    else
      var rest := CollapseDashes(s[1..]);
      ConsNoDoubleDash(s[0], rest);
      [s[0]] + rest
  }

  lemma ConsSafe(c: char, r: string)
    requires IsSafe(c) || c == '-'
    requires SafeChars(r)
    ensures SafeChars([c] + r)
  {
  }

  /** Collapsing introduces no character that was not there. */
  lemma {:induction false} CollapseKeepsSafe(s: string)
    requires SafeChars(s)
    ensures SafeChars(CollapseDashes(s))
    decreases |s|
  {
    if s != [] {
      if s[0] == '-' {
        var t := TrimLeft(s[1..], IsDash);
        TrimKeepsSafe(s);
        CollapseKeepsSafe(t);
        CollapseDashStep(s);
        ConsSafe('-', CollapseDashes(t));
      } else {
        SliceKeeps(s, 1, |s|);
        assert s[1..|s|] == s[1..];
        CollapseKeepsSafe(s[1..]);
        CollapseCharStep(s);
        ConsSafe(s[0], CollapseDashes(s[1..]));
      }
    }
  }

  lemma TrimKeepsSafe(s: string)
    requires SafeChars(s) && s != []
    ensures SafeChars(TrimLeft(s[1..], IsDash))
  {
    var t := TrimLeft(s[1..], IsDash);
    SliceKeeps(s, |s| - |t|, |s|);
    assert s[|s| - |t|..|s|] == t;
  }

  lemma CollapseDashStep(s: string)
    requires s != [] && s[0] == '-'
    ensures CollapseDashes(s) == "-" + CollapseDashes(TrimLeft(s[1..], IsDash))
  {
  }

  lemma CollapseCharStep(s: string)
    requires s != [] && s[0] != '-'
    ensures CollapseDashes(s) == [s[0]] + CollapseDashes(s[1..])
  {
  }

  /** The tail of a string without double hyphens has none either. */
  lemma TailNoDoubleDash(s: string)
    requires NoDoubleDash(s) && s != []
    ensures NoDoubleDash(s[1..])
    ensures |s| >= 2 ==> !(s[0] == '-' && s[1] == '-')
  {
    SliceKeeps(s, 1, |s|);
    assert s[1..|s|] == s[1..];
    if |s| >= 2 {
      assert !DashPair(s, 0);
    }
  }

  /** Collapsing changes nothing where no two hyphens are adjacent. */
  lemma {:induction false} CollapseNoop(s: string)
    requires NoDoubleDash(s)
    ensures CollapseDashes(s) == s
    decreases |s|
  {
    if s != [] {
      TailNoDoubleDash(s);
      CollapseNoop(s[1..]);
      if s[0] == '-' {
        assert TrimLeft(s[1..], IsDash) == s[1..];
      }
      assert [s[0]] + s[1..] == s;
    }
  }

  /** `text.strip('-')`. */
  function StripDashes(s: string): string {
    Trim(s, IsDash)
  }

  /** Hyphen-stripping keeps a slice, so the character and adjacency properties survive. */
  lemma StripDashKeeps(s: string)
    requires SafeChars(s) && NoDoubleDash(s)
    ensures Clean(StripDashes(s))
  {
    var l := TrimLeft(s, IsDash);
    TrimLeftKeeps(s);
    TrimRightKeeps(l);
  }

  lemma TrimLeftKeeps(s: string)
    requires SafeChars(s) && NoDoubleDash(s)
    ensures var l := TrimLeft(s, IsDash);
            SafeChars(l) && NoDoubleDash(l) && (l == [] || l[0] != '-')
  {
    var l := TrimLeft(s, IsDash);
    SliceKeeps(s, |s| - |l|, |s|);
    assert s[|s| - |l|..|s|] == l;
  }

  lemma TrimRightKeeps(l: string)
    requires SafeChars(l) && NoDoubleDash(l) && (l == [] || l[0] != '-')
    ensures Clean(TrimRight(l, IsDash))
  {
    var r := TrimRight(l, IsDash);
    SliceKeeps(l, 0, |r|);
    assert l[0..|r|] == r;
    if r != [] {
      assert r[0] == l[0];
    }
  }

  /** `_sanitize_for_filename`. */
  function SanitizeForFilename(text: string): (r: string)
    ensures Clean(r)
  {
    var d := DashRuns(Unprefixed(text));
    var s := StripDashes(d);
    StripDashKeeps(d);
    CollapseNoop(s);
    CollapseDashes(s)
  }

  /** Hyphen runs of length one come out of `DashRuns` as they went in. */
  lemma {:induction false} DashRunsNoop(s: string)
    requires SafeChars(s) && NoDoubleDash(s)
    ensures DashRuns(s) == s
    decreases |s|
  {
    if s != [] {
      TailNoDoubleDash(s);
      SliceKeeps(s, 1, |s|);
      DashRunsNoop(s[1..]);
      if !IsSafe(s[0]) {
        assert s[1..] == [] || IsSafe(s[1..][0]);
        assert TrimLeft(s[1..], NotSafe) == s[1..];
      }
      assert [s[0]] + s[1..] == s;
    }
  }

  /** Sanitising an already sanitised name returns it unchanged. */
  lemma SanitizeIdempotent(text: string)
    ensures SanitizeForFilename(SanitizeForFilename(text)) == SanitizeForFilename(text)
  {
    CleanIsFixed(SanitizeForFilename(text));
  }

  /** A name with the three output properties is its own sanitised form. */
  lemma CleanIsFixed(s: string)
    requires Clean(s)
    ensures SanitizeForFilename(s) == s
  {
    UnprefixedOfSafe(s);
    DashRunsNoop(s);
    StripDashesOfEdgeless(s);
    CollapseNoop(s);
  }

  /** Safe text has no upper case and neither prefix. */
  lemma UnprefixedOfSafe(s: string)
    requires SafeChars(s)
    ensures Unprefixed(s) == s
  {
    assert forall i :: 0 <= i < |s| ==> s[i] in s;
    assert Lower(s) == s;
    assert !StartsWith(s, "[bug]") by {
      if s != [] { assert s[0] in s; }
    }
    assert !StartsWith(s, "bug:") by {
      if |s| >= 4 { assert s[3] in s; }
    }
  }

  lemma StripDashesOfEdgeless(s: string)
    requires NoEdgeDash(s)
    ensures StripDashes(s) == s
  {
    if s != [] {
      assert !IsDash(s[0]) && !IsDash(s[|s| - 1]);
      assert TrimLeft(s, IsDash) == s;
      assert TrimRight(s, IsDash) == s;
    }
  }

  /** The text after lower-casing and prefix removal, before any character is replaced. */
  function Unprefixed(text: string): string {
    DropBugColon(DropBugTag(Lower(text)))
  }

  lemma LowerAppend(a: string, b: string)
    ensures Lower(a + b) == Lower(a) + Lower(b)
  {
    assert forall i :: 0 <= i < |a + b| ==> Lower(a + b)[i] == (Lower(a) + Lower(b))[i];
  }

  lemma TrimSpaceCons(x: string)
    ensures TrimLeft([' '] + x, IsSpace) == TrimLeft(x, IsSpace)
  {
    assert ([' '] + x)[1..] == x;
  }

  lemma TrimNonSpace(x: string)
    requires x != [] && !IsSpace(x[0])
    ensures TrimLeft(x, IsSpace) == x
  {
  }

  lemma LowerFixed(s: string)
    requires forall i :: 0 <= i < |s| ==> !IsUpper(s[i])
    ensures Lower(s) == s
  {
  }

  lemma TagDropped(m: string)
    requires m != [] && !IsSpace(m[0])
    ensures DropBugTag("[bug] " + m) == m
  {
    var l := "[bug] " + m;
    assert l[..5] == "[bug]";
    assert l[5..] == [' '] + m;
    TrimSpaceCons(m);
    TrimNonSpace(m);
  }

  lemma ColonDropped(x: string)
    ensures DropBugColon("bug: " + x) == TrimLeft(x, IsSpace)
  {
    var m := "bug: " + x;
    assert m[..4] == "bug:";
    assert m[4..] == [' '] + x;
    TrimSpaceCons(x);
  }

  /** A leading "[bug]" tag and then a leading "bug:" are both dropped, with
      the whitespace after each. */
  lemma BothPrefixesDropped(rest: string)
    ensures Unprefixed("[bug] bug: " + rest) == TrimLeft(Lower(rest), IsSpace)
  {
    var lr := Lower(rest);
    LowerAppend("[bug] bug: ", rest);
    LowerFixed("[bug] bug: ");
    assert Lower("[bug] bug: " + rest) == "[bug] " + ("bug: " + lr);
    TagDropped("bug: " + lr);
    ColonDropped(lr);
  }

  /** The prefixes are removed in that order only: "[bug]" after "bug:" stays. */
  lemma PrefixOrder()
    ensures Unprefixed("bug: [bug] x") == "[bug] x"
  {
    LowerFixed("bug: [bug] x");
    NoTagFirst("bug: [bug] x");
    assert "bug: [bug] x" == "bug: " + "[bug] x";
    ColonThenWord("[bug] x");
  }

  lemma NoTagFirst(l: string)
    requires l != [] && l[0] != '['
    ensures DropBugTag(l) == l
  {
  }

  lemma ColonThenWord(x: string)
    requires x != [] && !IsSpace(x[0])
    ensures DropBugColon("bug: " + x) == x
  {
    ColonDropped(x);
    TrimNonSpace(x);
  }

  /** The longest summary segment kept in the file name. */
  const MaxSummaryLength := 60

  /** The summary part of the file name: the sanitised summary, cut to 60
      characters after the hyphens were stripped. */
  function SummarySegment(summary: string): (seg: string)
    ensures |seg| == if |SanitizeForFilename(summary)| < MaxSummaryLength then |SanitizeForFilename(summary)| else MaxSummaryLength
    ensures forall i :: 0 <= i < |seg| ==> seg[i] == SanitizeForFilename(summary)[i]
  {
    var safe := SanitizeForFilename(summary);
    if |safe| > MaxSummaryLength then safe[..MaxSummaryLength] else safe
  }

  /** `{issue_key}-{timestamp}-{segment}.md`. */
  function NameOf(issueKey: string, timestamp: string, segment: string): (name: string)
    ensures |name| == |issueKey| + |timestamp| + |segment| + 5
    ensures StartsWith(name, issueKey + "-" + timestamp + "-")
    ensures EndsWith(name, ".md")
    ensures name[|issueKey| + |timestamp| + 2..|name| - 3] == segment
  {
    var head := issueKey + "-" + timestamp + "-";
    var name := head + segment + ".md";
    assert name[..|head|] == head;
    assert name[|head|..|name| - 3] == segment;
    name
  }

  /** `_generate_filename`, with the timestamp given by the caller. */
  function GenerateFilename(issueKey: string, timestamp: string, summary: string): string {
    NameOf(issueKey, timestamp, SummarySegment(summary))
  }

  /** The summary segment keeps the character and hyphen properties of the
      sanitised text and never starts with a hyphen; only its end may hold one. */
  lemma SegmentClean(summary: string)
    ensures |SummarySegment(summary)| <= MaxSummaryLength
    ensures SafeChars(SummarySegment(summary)) && NoDoubleDash(SummarySegment(summary))
    ensures SummarySegment(summary) == [] || SummarySegment(summary)[0] != '-'
  {
    var safe := SanitizeForFilename(summary);
    var seg := SummarySegment(summary);
    assert safe[0..|seg|] == seg;
    SliceKeeps(safe, 0, |seg|);
  }

  /** The generated name: key, timestamp, a segment of at most 60 safe
      characters that does not start with a hyphen, and `.md`. */
  lemma FilenameShape(issueKey: string, timestamp: string, summary: string)
    ensures var name := GenerateFilename(issueKey, timestamp, summary);
            var seg := name[|issueKey| + |timestamp| + 2..|name| - 3];
            StartsWith(name, issueKey + "-" + timestamp + "-") && EndsWith(name, ".md") &&
            |seg| <= MaxSummaryLength && SafeChars(seg) && NoDoubleDash(seg) &&
            (seg == [] || seg[0] != '-')
  {
    SegmentClean(summary);
  }

  /** Because the cut follows the hyphen stripping, the segment can end in a hyphen. */
  lemma SegmentMayEndInDash()
    ensures exists summary :: EndsWith(SummarySegment(summary), "-")
  {
    var w := seq(59, i => 'a');
    var summary := w + "-b";
    assert Clean(summary) by {
      assert forall i :: 0 <= i < |summary| ==> summary[i] == (if i == 59 then '-' else if i == 60 then 'b' else 'a');
    }
    CleanIsFixed(summary);
    assert SummarySegment(summary) == summary[..60];
    assert EndsWith(SummarySegment(summary), "-");
  }
}
