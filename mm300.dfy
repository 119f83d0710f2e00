/** The file-name helper of the MM-300 processing script. */
module Mm300 {
  import opened Text

  /** Characters kept as they are: alphanumerics, `-` and `_`. */
  predicate Kept(c: char) { IsAlnum(c) || c == '-' || c == '_' }

  const MaxLength := 50

  /** `sanitize_filename`: lower-case, replace every other character by `-`
      (one for one, runs are not merged) and keep the first 50 characters. */
  function SanitizeFilename(text: string): (r: string)
    ensures |r| == if |text| < MaxLength then |text| else MaxLength
    ensures forall i :: 0 <= i < |r| ==>
              r[i] == if Kept(LowerChar(text[i])) then LowerChar(text[i]) else '-'
  {
    var mapped := seq(|text|, i requires 0 <= i < |text| =>
                        var c := LowerChar(text[i]); if Kept(c) then c else '-');
    Take(mapped, MaxLength)
  }

  /** Every output character is alphanumeric, `-` or `_`, and never upper-case. */
  lemma OutputAlphabet(text: string)
    ensures forall c <- SanitizeFilename(text) :: Kept(c) && !IsUpper(c)
  {
    var r := SanitizeFilename(text);
    forall c | c in r ensures Kept(c) && !IsUpper(c) {
      var i :| 0 <= i < |r| && r[i] == c;
    }
  }

  /** Sanitising twice gives the same name as sanitising once. */
  lemma SanitizeIdempotent(text: string)
    ensures SanitizeFilename(SanitizeFilename(text)) == SanitizeFilename(text)
  {
    var r := SanitizeFilename(text);
    OutputAlphabet(text);
    forall i | 0 <= i < |r| ensures LowerChar(r[i]) == r[i] && Kept(r[i]) {
      assert r[i] in r;
    }
  }

  /** Runs of replaced characters are not merged, and edge hyphens are kept. */
  lemma RunsNotCollapsed()
    ensures SanitizeFilename("a  b") == "a--b"
    ensures SanitizeFilename(" x!") == "-x-"
  {
    assert SanitizeFilename("a  b")[1] == '-';
    assert SanitizeFilename(" x!")[0] == '-';
  }

  /** The output path: `migrated-bugs/` then key, timestamp and sanitised title. */
  function OutputPath(issueKey: string, timestamp: string, title: string): (path: string)
    ensures StartsWith(path, "migrated-bugs/") && EndsWith(path, ".md")
    ensures '/' !in issueKey && '/' !in timestamp ==> '/' !in path[14..]
  {
    var name := issueKey + "-" + timestamp + "-" + SanitizeFilename(title) + ".md";
    OutputAlphabet(title);
    assert '/' !in SanitizeFilename(title);
    assert ("migrated-bugs/" + name)[14..] == name;
    "migrated-bugs/" + name
  }
}
