/** `PRCreator`: commit and diff analysis, CODEOWNERS parsing, reviewer
    suggestion, and the title and summary of a new pull request. */
module PrCreator {
  import opened Py
  import opened Text
  import opened DiffLines
  import opened Ranking

  /** The conventional-commit kinds, in the order their patterns are tried. */
  datatype ChangeType = Feature | Fix | Docs | Refactor | Test

  /** A commit; `None` is an absent key. */
  datatype Commit = Commit(message: Option<string>, author: Option<string>)

  /** `re.compile(r'<kind>(\([\w-]+\))?:', re.IGNORECASE).search(message)`. */
  type KindMatcher = (ChangeType, string) -> bool

  /** The union of `findall` over the three work-item patterns. */
  type WorkItemFinder = string -> set<string>

  function MessageOf(c: Commit): string { c.message.GetOr("") }
  function AuthorOf(c: Commit): string { c.author.GetOr("Unknown") }

  // ---------------------------------------------------------------- commits

  /** `'BREAKING CHANGE' in message or '!' in message.split(':')[0]`. */
  predicate IsBreaking(message: string) {
    Contains(message, "BREAKING CHANGE") || '!' in Split(message, ':')[0]
  }

  /** The `!` test reads the text before the first colon. */
  lemma BangBeforeColon(message: string)
    ensures '!' in Split(message, ':')[0]
            <==> exists i :: 0 <= i < |message| && message[i] == '!' && ':' !in message[..i]
  {
    if '!' in Split(message, ':')[0] {
      BangFound(message);
    }
    if exists i :: 0 <= i < |message| && message[i] == '!' && ':' !in message[..i] {
      var i :| 0 <= i < |message| && message[i] == '!' && ':' !in message[..i];
      BangKept(message, i);
    }
  }

  lemma BangFound(message: string)
    requires '!' in Split(message, ':')[0]
    ensures exists i :: 0 <= i < |message| && message[i] == '!' && ':' !in message[..i]
  {
    var first := Split(message, ':')[0];
    SplitFirst(message, ':');
    assert message[..|first|] == first;
    var i :| 0 <= i < |first| && first[i] == '!';
    assert message[..i] == first[..i];
    forall k | 0 <= k < i ensures message[..i][k] != ':' {
      assert first[k] in first;
    }
    assert message[i] == '!';
    assert ':' !in message[..i];
  }

  lemma BangKept(message: string, i: int)
    requires 0 <= i < |message| && message[i] == '!' && ':' !in message[..i]
    ensures '!' in Split(message, ':')[0]
  {
    var first := Split(message, ':')[0];
    SplitFirst(message, ':');
    assert message[..|first|] == first;
    forall k | 0 <= k <= i ensures message[k] != ':' {
      if k < i {
        assert message[..i][k] == message[k];
      }
    }
    assert i < |first|;
    assert first[i] == '!';
  }

  /** `change_types[kind] += 1` when the kind's pattern occurs. */
  function BumpIf(t: Tally<ChangeType>, kind: ChangeType, message: string, isKind: KindMatcher): (r: Tally<ChangeType>)
    requires Valid(t)
    ensures Valid(r)
  {
    if isKind(kind, message) then Bump(t, kind) else t
  }

  /** The five pattern tests of one commit, in source order. */
  function CountKinds(t: Tally<ChangeType>, message: string, isKind: KindMatcher): (r: Tally<ChangeType>)
    requires Valid(t)
    ensures Valid(r)
  {
    var t1 := BumpIf(t, Feature, message, isKind);
    var t2 := BumpIf(t1, Fix, message, isKind);
    var t3 := BumpIf(t2, Docs, message, isKind);
    var t4 := BumpIf(t3, Refactor, message, isKind);
    BumpIf(t4, Test, message, isKind)
  }

  /** `change_types` after the commit loop. */
  function KindTally(commits: seq<Commit>, isKind: KindMatcher): (r: Tally<ChangeType>)
    ensures Valid(r)
  {
    if commits == [] then Empty()
    else CountKinds(KindTally(commits[..|commits| - 1], isKind), MessageOf(commits[|commits| - 1]), isKind)
  }

  /** The number of commits whose message matches a kind's pattern. */
  function KindCount(commits: seq<Commit>, kind: ChangeType, isKind: KindMatcher): (n: nat)
    ensures n <= |commits|
  {
    if commits == [] then 0
    else KindCount(commits[..|commits| - 1], kind, isKind) + (if isKind(kind, MessageOf(commits[|commits| - 1])) then 1 else 0)
  }

  /** Each kind is counted once per commit whose message matches its pattern. */
  lemma {:induction false} KindTallyCounts(commits: seq<Commit>, kind: ChangeType, isKind: KindMatcher)
    ensures CountOf(KindTally(commits, isKind), kind) == KindCount(commits, kind, isKind)
  {
    if commits != [] {
      KindTallyCounts(commits[..|commits| - 1], kind, isKind);
      CountKindsStep(KindTally(commits[..|commits| - 1], isKind), MessageOf(commits[|commits| - 1]), kind, isKind);
    }
  }

  /** One commit adds one to a kind's count exactly when its message matches. */
  lemma CountKindsStep(t: Tally<ChangeType>, message: string, kind: ChangeType, isKind: KindMatcher)
    requires Valid(t)
    ensures CountOf(CountKinds(t, message, isKind), kind) == CountOf(t, kind) + (if isKind(kind, message) then 1 else 0)
  {
    var t1 := BumpIf(t, Feature, message, isKind);
    var t2 := BumpIf(t1, Fix, message, isKind);
    var t3 := BumpIf(t2, Docs, message, isKind);
    var t4 := BumpIf(t3, Refactor, message, isKind);
    BumpIfCount(t, Feature, message, kind, isKind);
    BumpIfCount(t1, Fix, message, kind, isKind);
    BumpIfCount(t2, Docs, message, kind, isKind);
    BumpIfCount(t3, Refactor, message, kind, isKind);
    BumpIfCount(t4, Test, message, kind, isKind);
  }

  lemma BumpIfCount(t: Tally<ChangeType>, k: ChangeType, message: string, kind: ChangeType, isKind: KindMatcher)
    requires Valid(t)
    ensures CountOf(BumpIf(t, k, message, isKind), kind) == CountOf(t, kind) + (if k == kind && isKind(k, message) then 1 else 0)
  {
  }

  /** The work items of the commits. */
  function WorkItemsOf(commits: seq<Commit>, find: WorkItemFinder): set<string> {
    if commits == [] then {}
    else WorkItemsOf(commits[..|commits| - 1], find) + find(MessageOf(commits[|commits| - 1]))
  }

  // ---------------------------------------------------------------- diff

  /** `re.search(r'b/(.*?)(?:\s|$)', line).group(1)` as written: the text
      after the FIRST `b/` of the header, up to whitespace. The first `b/`
      can sit inside the old path (`a/lib/x.py`). */
  function HeaderFileAsWritten(line: string): (file: Option<string>)
    ensures file.None? <==> !Contains(line, "b/")
  {
    match Find(line, "b/")
    case None => None
    case Some(j) => Some(Word(line[j + 2..]))
  }

  /** A character other than the first of `sub` cannot start an occurrence of it. */
  lemma FirstCharBlocks(s: string, sub: string, j: int)
    requires sub != [] && 0 <= j < |s| && s[j] != sub[0]
    ensures !OccursAt(s, sub, j)
  {
    if j + |sub| <= |s| {
      assert s[j..j + |sub|][0] == s[j];
    }
  }

  /** As written, the first `b/` wins: when the text after `diff --git a/`
      has no `b` before a `b/`, the file is the word after that `b/`. */
  lemma HeaderFileAsWrittenFirstB(lead: string, tail: string)
    requires 'b' !in lead
    ensures HeaderFileAsWritten("diff --git a/" + lead + "b/" + tail) == Some(Word(tail))
  {
    var prefix := "diff --git a/";
    var head := prefix + lead;
    var line := head + "b/" + tail;
    assert line[|head|..|head| + 2] == "b/";
    assert forall k :: 0 <= k < |prefix| ==> prefix[k] != 'b';
    forall j | 0 <= j < |head| ensures !OccursAt(line, "b/", j) {
      assert line[j] == head[j];
      if j < |prefix| {
        assert head[j] == prefix[j];
      } else {
        assert head[j] == lead[j - |prefix|];
      }
      FirstCharBlocks(line, "b/", j);
    }
    FindAt(line, "b/", |head|);
    assert line[|head| + 2..] == tail;
  }

  /** The header `diff --git a/lib/x.py b/lib/x.py` yields `x.py` as written,
      where the new path `lib/x.py` is meant. */
  lemma HeaderFileAsWrittenCutsPath()
    ensures HeaderFileAsWritten("diff --git a/lib/x.py b/lib/x.py") == Some("x.py")
  {
    var line := "diff --git a/lib/x.py b/lib/x.py";
    var tail := "x.py b/lib/x.py";
    assert line == "diff --git a/" + "li" + "b/" + tail;
    HeaderFileAsWrittenFirstB("li", tail);
    WordOfTail();
  }

  /** The word of the text after the first `b/` of that header. */
  lemma WordOfTail()
    ensures Word("x.py b/lib/x.py") == "x.py"
  {
    assert "x.py b/lib/x.py" == "x.py" + " b/lib/x.py";
    WordOf("x.py", " b/lib/x.py");
  }

  /** The corrected reading of the same header gives the whole new path. */
  lemma HeaderFileExample()
    ensures HeaderFile("diff --git a/lib/x.py b/lib/x.py") == Some("lib/x.py")
  {
    assert "diff --git a/lib/x.py b/lib/x.py" == "diff --git a/" + "lib/x.py" + " b/" + "lib/x.py";
    HeaderFileIsNewPath("lib/x.py", "lib/x.py");
  }

  /** The word of a space-free text followed by a space. */
  lemma WordOf(w: string, rest: string)
    requires forall c <- w :: !IsSpace(c)
    requires rest != [] && IsSpace(rest[0])
    ensures Word(w + rest) == w
    decreases |w|
  {
    if w != [] {
      assert (w + rest)[1..] == w[1..] + rest;
      WordOf(w[1..], rest);
    }
  }

  /** The intended reading: the path after ` b/`, the new-file side of the header. */
  function HeaderFile(line: string): (file: Option<string>)
    ensures file.None? <==> !Contains(line, " b/")
    ensures file.Some? ==> forall c <- file.value :: !IsSpace(c)
  {
    match Find(line, " b/")
    case None => None
    case Some(j) => Some(Word(line[j + 3..]))
  }

  /** For a header `diff --git a/OLD b/NEW` with whitespace-free paths, the
      file is NEW, whatever OLD contains. */
  lemma HeaderFileIsNewPath(oldPath: string, newPath: string)
    requires forall c <- oldPath :: !IsSpace(c)
    requires forall c <- newPath :: !IsSpace(c)
    ensures HeaderFile("diff --git a/" + oldPath + " b/" + newPath) == Some(newPath)
  {
    var head := "diff --git a/" + oldPath;
    var line := head + " b/" + newPath;
    assert OccursAt(line, " b/", |head|);
    forall j | 0 <= j < |head| ensures !OccursAt(line, " b/", j) {
      if j < 13 {
        assert line[..13] == "diff --git a/";
        assert line[j] == "diff --git a/"[j];
        if j == 4 || j == 10 {
          assert line[j + 1] == "diff --git a/"[j + 1];
          assert line[j..j + 3][1] == line[j + 1];
        } else {
          FirstCharBlocks(line, " b/", j);
        }
      } else {
        assert line[j] == oldPath[j - 13];
        assert oldPath[j - 13] in oldPath;
        FirstCharBlocks(line, " b/", j);
      }
    }
    FindAt(line, " b/", |head|);
    assert line[|head| + 3..] == newPath;
    WordAll(newPath);
  }

  /** The word of a whitespace-free text is all of it. */
  lemma WordAll(w: string)
    requires forall c <- w :: !IsSpace(c)
    ensures Word(w) == w
    decreases |w|
  {
    if w != [] {
      WordAll(w[1..]);
    }
  }

  datatype DiffStats = DiffStats(changedFiles: seq<string>, additions: nat, deletions: nat)

  /** The effect of one diff line. */
  function DiffStep(d: DiffStats, line: string): DiffStats {
    if StartsWith(line, "diff --git") then
      match HeaderFile(line)
      case Some(f) => d.(changedFiles := d.changedFiles + [f])
      case None => d
    else if IsAddition(line) then d.(additions := d.additions + 1)
    else if IsDeletion(line) then d.(deletions := d.deletions + 1)
    else d
  }

  /** The statistics of the first lines of a diff. */
  function DiffStatsOf(lines: seq<string>): DiffStats {
    if lines == [] then DiffStats([], 0, 0) else DiffStep(DiffStatsOf(lines[..|lines| - 1]), lines[|lines| - 1])
  }

  /** `_analyze_diff`, with the file name read after ` b/`. */
  method AnalyzeDiff(diff: string) returns (stats: DiffStats)
    ensures stats == DiffStatsOf(Split(diff, '\n'))
  {
    var lines := Split(diff, '\n');
    stats := DiffStats([], 0, 0);
    var i := 0;
    while i < |lines|
      invariant 0 <= i <= |lines|
      invariant stats == DiffStatsOf(lines[..i])
    {
      assert lines[..i + 1][..i] == lines[..i];
      var line := lines[i];
      if StartsWith(line, "diff --git") {
        var file := HeaderFile(line);
        if file.Some? {
          stats := stats.(changedFiles := stats.changedFiles + [file.value]);
        }
      } else if IsAddition(line) {
        stats := stats.(additions := stats.additions + 1);
      } else if IsDeletion(line) {
        stats := stats.(deletions := stats.deletions + 1);
      }
      i := i + 1;
    }
    assert lines[..i] == lines;
  }

  /** The number of header lines that name a file. */
  function HeaderCount(lines: seq<string>): nat {
    if lines == [] then 0
    else
      var line := lines[|lines| - 1];
      HeaderCount(lines[..|lines| - 1])
      + (if StartsWith(line, "diff --git") && Contains(line, " b/") then 1 else 0)
  }

  /** Each header naming a file adds exactly one file; header lines are
      never counted as added or deleted, so the three counts together never
      exceed the number of lines. */
  lemma {:induction false} DiffStatsCounts(lines: seq<string>)
    ensures |DiffStatsOf(lines).changedFiles| == HeaderCount(lines)
    ensures |DiffStatsOf(lines).changedFiles| + DiffStatsOf(lines).additions + DiffStatsOf(lines).deletions <= |lines|
  {
    if lines != [] {
      DiffStatsCounts(lines[..|lines| - 1]);
    }
  }

  // ---------------------------------------------------------------- analysis

  datatype Analysis = Analysis(
    commitCount: nat,
    authors: set<string>,
    changeTypes: Tally<ChangeType>,
    workItems: set<string>,
    changedFiles: seq<string>,
    additions: nat,
    deletions: nat,
    breaking: bool)

  /** The authors of the commits, as a set. */
  function AuthorsOf(commits: seq<Commit>): (authors: set<string>)
    ensures authors == set c | c in commits :: AuthorOf(c)
  {
    if commits == [] then {}
    else
      var front := commits[..|commits| - 1];
      assert commits == front + [commits[|commits| - 1]];
      AuthorsOf(front) + {AuthorOf(commits[|commits| - 1])}
  }

  /** Some commit message announces a breaking change. */
  function AnyBreaking(commits: seq<Commit>): (b: bool)
    ensures b <==> exists c <- commits :: IsBreaking(MessageOf(c))
  {
    if commits == [] then false
    else
      var front := commits[..|commits| - 1];
      assert commits == front + [commits[|commits| - 1]];
      AnyBreaking(front) || IsBreaking(MessageOf(commits[|commits| - 1]))
  }

  /** `analyze_changes`; the author and work-item lists are kept as sets. */
  method AnalyzeChanges(commits: seq<Commit>, diff: Option<string>, isKind: KindMatcher, find: WorkItemFinder)
    returns (a: Analysis)
    ensures a.commitCount == |commits|
    ensures a.authors == set c | c in commits :: AuthorOf(c)
    ensures a.changeTypes == KindTally(commits, isKind)
    ensures a.workItems == WorkItemsOf(commits, find)
    ensures a.breaking <==> exists c <- commits :: IsBreaking(MessageOf(c))
    ensures TruthyText(diff) ==> var d := DiffStatsOf(Split(diff.value, '\n'));
              a.changedFiles == d.changedFiles && a.additions == d.additions && a.deletions == d.deletions
    ensures !TruthyText(diff) ==> a.changedFiles == [] && a.additions == 0 && a.deletions == 0
  {
    var authors, kinds, workItems, breaking := AnalyzeCommits(commits, isKind, find);
    a := Analysis(|commits|, authors, kinds, workItems, [], 0, 0, breaking);
    if diff.Some? && diff.value != [] {
      var d := AnalyzeDiff(diff.value);
      a := a.(changedFiles := d.changedFiles, additions := d.additions, deletions := d.deletions);
    }
  }

  /** The commit loop of `analyze_changes`. */
  method AnalyzeCommits(commits: seq<Commit>, isKind: KindMatcher, find: WorkItemFinder)
    returns (authors: set<string>, kinds: Tally<ChangeType>, workItems: set<string>, breaking: bool)
    ensures authors == AuthorsOf(commits)
    ensures kinds == KindTally(commits, isKind)
    ensures workItems == WorkItemsOf(commits, find)
    ensures breaking == AnyBreaking(commits)
  {
    authors := {};
    kinds := Empty();
    workItems := {};
    breaking := false;
    var i := 0;
    while i < |commits|
      invariant 0 <= i <= |commits|
      invariant authors == AuthorsOf(commits[..i])
      invariant kinds == KindTally(commits[..i], isKind)
      invariant workItems == WorkItemsOf(commits[..i], find)
      invariant breaking == AnyBreaking(commits[..i])
    {
      assert commits[..i + 1][..i] == commits[..i];
      var message := MessageOf(commits[i]);
      authors := authors + {AuthorOf(commits[i])};
      kinds := CountKinds(kinds, message, isKind);
      workItems := workItems + find(message);
      if IsBreaking(message) {
        breaking := true;
      }
      i := i + 1;
    }
    assert commits[..i] == commits;
  }

  // ---------------------------------------------------------------- title and summary

  /** `message.split('\n')[0]`. */
  function FirstLine(message: string): (line: string)
    ensures '\n' !in line
    ensures StartsWith(message, line)
  {
    SplitFirst(message, '\n');
    Split(message, '\n')[0]
  }

  /** The title prefix of the primary kind; `test` and others have none. */
  function TitlePrefix(kind: ChangeType): (prefix: string)
    ensures |prefix| <= 9
    ensures '\n' !in prefix
  {
    match kind
    case Feature => "feat:"
    case Fix => "fix:"
    case Refactor => "refactor:"
    case Docs => "docs:"
    case Test => ""
  }

  /** The title of several commits from the first commit's first line and
      the primary kind: the prefix, a space and 80 characters, or 100
      characters without a prefix. */
  function SeveralTitle(first: string, primary: Option<ChangeType>): (title: string)
    requires '\n' !in first
    ensures |title| <= 100
    ensures '\n' !in title
  {
    var prefix := if primary.Some? then TitlePrefix(primary.value) else "";
    assert forall c <- Take(first, 80) :: c in first;
    assert forall c <- Take(first, 100) :: c in first;
    if prefix != [] then prefix + " " + Take(first, 80) else Take(first, 100)
  }

  /** `generate_title`; `kinds` is the given analysis's `change_types`, or
      `None` when the commits are to be analysed here. */
  function GenerateTitle(commits: seq<Commit>, kinds: Option<Tally<ChangeType>>, isKind: KindMatcher): (title: string)
    requires kinds.Some? ==> Valid(kinds.value)
    ensures commits == [] ==> title == "Pull request"
    ensures |commits| == 1 ==> title == Take(FirstLine(MessageOf(commits[0])), 100)
    ensures |title| <= 100
    ensures '\n' !in title
  {
    if commits == [] then "Pull request"
    else
      var first := FirstLine(MessageOf(commits[0]));
      assert forall c <- Take(first, 100) :: c in first;
      if |commits| == 1 then Take(first, 100)
      else SeveralTitle(first, FirstMax(if kinds.Some? then kinds.value else KindTally(commits, isKind)))
  }

  /** With several commits and a feature, fix, refactor or docs majority,
      the title is that kind's prefix, a space and the first 80 characters of
      the first commit's first line; otherwise the first 100 characters. */
  lemma TitleOfSeveral(commits: seq<Commit>, t: Tally<ChangeType>, isKind: KindMatcher)
    requires |commits| >= 2 && Valid(t)
    ensures var first := FirstLine(MessageOf(commits[0]));
            var title := GenerateTitle(commits, Some(t), isKind);
            match FirstMax(t)
            case Some(k) =>
              if k != Test then StartsWith(title, TitlePrefix(k) + " ") && EndsWith(title, Take(first, 80))
              else title == Take(first, 100)
            case None => title == Take(first, 100)
  {
    var first := FirstLine(MessageOf(commits[0]));
    if FirstMax(t).Some? && FirstMax(t).value != Test {
      Affixes(TitlePrefix(FirstMax(t).value) + " ", Take(first, 80));
    }
  }

  /** The opening clause of the summary for the primary kind. */
  function Opening(primary: Option<ChangeType>): string {
    match primary
    case Some(Feature) => "This PR adds new features"
    case Some(Fix) => "This PR fixes bugs"
    case Some(Refactor) => "This PR refactors code"
    case Some(Docs) => "This PR updates documentation"
    case _ => "This PR makes changes"
  }

  const BreakingNote := " \U{26A0}\U{FE0F} Contains breaking changes."

  /** The commit clause: `in 1 commit` for exactly one commit, else `across N commits`. */
  function CommitClause(commitCount: nat): string {
    if commitCount == 1 then "in 1 commit" else "across " + NatToString(commitCount) + " commits"
  }

  /** The file clause, present when some file changed. */
  function FilesClause(fileCount: nat): string {
    "affecting " + NatToString(fileCount) + " file(s)"
  }

  /** `_generate_summary`. */
  function GenerateSummary(a: Analysis): (summary: string)
    requires Valid(a.changeTypes)
  {
    var parts := [Opening(FirstMax(a.changeTypes)), CommitClause(a.commitCount)]
                 + (if |a.changedFiles| > 0 then [FilesClause(|a.changedFiles|)] else []);
    Join(parts, " ") + "." + (if a.breaking then BreakingNote else "")
  }

  /** The summary opens with the primary kind's clause, then the commit
      clause; it mentions files only when some changed; its sentence ends
      with `.`, followed by the breaking-change note exactly when there is one. */
  lemma SummaryShape(a: Analysis)
    requires Valid(a.changeTypes)
    ensures var s := GenerateSummary(a);
            var head := Opening(FirstMax(a.changeTypes)) + " " + CommitClause(a.commitCount);
            StartsWith(s, head)
            && (|a.changedFiles| == 0 ==> s == head + "." + (if a.breaking then BreakingNote else ""))
            && (|a.changedFiles| > 0 ==>
                  s == head + " " + FilesClause(|a.changedFiles|) + "." + (if a.breaking then BreakingNote else ""))
  {
    var opening := Opening(FirstMax(a.changeTypes));
    var clause := CommitClause(a.commitCount);
    var note := if a.breaking then BreakingNote else "";
    if |a.changedFiles| > 0 {
      var files := FilesClause(|a.changedFiles|);
      assert [opening, clause] + [files] == [opening, clause, files];
      SentenceOfThree(opening, clause, files, note);
    } else {
      assert [opening, clause] + [] == [opening, clause];
      SentenceOfTwo(opening, clause, note);
    }
  }

  lemma SentenceOfTwo(a: string, b: string, note: string)
    ensures Join([a, b], " ") + "." + note == a + " " + b + "." + note
    ensures StartsWith(Join([a, b], " ") + "." + note, a + " " + b)
  {
    assert [a, b][1..] == [b];
    assert a + " " + b + "." + note == (a + " " + b) + ("." + note);
    Affixes(a + " " + b, "." + note);
  }

  lemma SentenceOfThree(a: string, b: string, c: string, note: string)
    ensures Join([a, b, c], " ") + "." + note == a + " " + b + " " + c + "." + note
    ensures StartsWith(Join([a, b, c], " ") + "." + note, a + " " + b)
  {
    assert [a, b, c][1..] == [b, c];
    SentenceOfTwo(b, c, note);
    assert Join([a, b, c], " ") == a + " " + (b + " " + c);
    assert a + " " + (b + " " + c) + "." + note == a + " " + b + " " + c + "." + note;
    assert a + " " + b + " " + c + "." + note == (a + " " + b) + (" " + c + "." + note);
    Affixes(a + " " + b, " " + c + "." + note);
  }

  // ---------------------------------------------------------------- reviewers

  /** A CODEOWNERS rule: a path pattern and its owners without the `@`. */
  datatype OwnerRule = OwnerRule(pattern: string, owners: seq<string>)

  predicate IsAt(c: char) { c == '@' }

  /** `[o.lstrip('@') for o in parts if o.startswith('@')]`. */
  function Owners(parts: seq<string>): (owners: seq<string>)
    ensures |owners| <= |parts|
    ensures forall o <- owners :: o == [] || o[0] != '@'
  {
    if parts == [] then []
    else
      var last := parts[|parts| - 1];
      Owners(parts[..|parts| - 1]) + (if StartsWith(last, "@") then [TrimLeft(last, IsAt)] else [])
  }

  /** The rule of one CODEOWNERS line, if it has one. */
  function RuleOf(line: string): (rule: Option<OwnerRule>)
    ensures rule.Some? <==>
              var s := Strip(line); s != [] && !StartsWith(s, "#") && |Tokens(s)| >= 2
    ensures rule.Some? ==> rule.value.pattern == Tokens(Strip(line))[0]
                           && forall c <- rule.value.pattern :: !IsSpace(c)
  {
    var s := Strip(line);
    if s == [] || StartsWith(s, "#") then None
    else
      var parts := Tokens(s);
      if |parts| >= 2 then
        assert parts[0] in parts;
        Some(OwnerRule(parts[0], Owners(parts[1..])))
      else None
  }

  /** The rules of the first lines, in order. */
  function RulesOf(lines: seq<string>): (rules: seq<OwnerRule>)
    ensures |rules| <= |lines|
  {
    if lines == [] then []
    else
      var r := RuleOf(lines[|lines| - 1]);
      RulesOf(lines[..|lines| - 1]) + (if r.Some? then [r.value] else [])
  }

  /** `_parse_codeowners`. */
  method ParseCodeowners(content: string) returns (rules: seq<OwnerRule>)
    ensures rules == RulesOf(Split(content, '\n'))
  {
    var lines := Split(content, '\n');
    rules := [];
    var i := 0;
    while i < |lines|
      invariant 0 <= i <= |lines|
      invariant rules == RulesOf(lines[..i])
    {
      RulesOfStep(lines, i);
      var line := Strip(lines[i]);
      if line == [] || StartsWith(line, "#") {
        i := i + 1;
        continue;
      }
      var parts := Tokens(line);
      if |parts| >= 2 {
        rules := rules + [OwnerRule(parts[0], Owners(parts[1..]))];
      }
      i := i + 1;
    }
    assert lines[..i] == lines;
  }

  lemma RulesOfStep(lines: seq<string>, i: nat)
    requires i < |lines|
    ensures var r := RuleOf(lines[i]);
            RulesOf(lines[..i + 1]) == RulesOf(lines[..i]) + (if r.Some? then [r.value] else [])
  {
    assert lines[..i + 1][..i] == lines[..i];
  }

  /** `re.match(pattern_regex, file_path)` after the glob-to-regex rewrite. */
  type PatternMatcher = (string, string) -> bool

  /** `_match_codeowners`: the owners of every rule whose pattern matches. */
  function MatchCodeowners(path: string, rules: seq<OwnerRule>, matches: PatternMatcher): (owners: set<string>)
    ensures forall o <- owners :: exists r <- rules :: matches(path, r.pattern) && o in r.owners
    ensures forall r <- rules | matches(path, r.pattern) :: forall o <- r.owners :: o in owners
  {
    if rules == [] then {}
    else
      var r := rules[|rules| - 1];
      assert forall q <- rules[..|rules| - 1] :: q in rules;
      assert forall q <- rules :: q in rules[..|rules| - 1] || q == r;
      MatchCodeowners(path, rules[..|rules| - 1], matches) + (if matches(path, r.pattern) then set o <- r.owners else {})
  }

  /** The CODEOWNERS reviewers of the changed files. */
  function OwnerReviewers(files: seq<string>, rules: seq<OwnerRule>, matches: PatternMatcher): set<string> {
    if files == [] then {}
    else OwnerReviewers(files[..|files| - 1], rules, matches) + MatchCodeowners(files[|files| - 1], rules, matches)
  }

  /** The blame authors of the changed files, one count per (file, author line). */
  function BlameTally(files: seq<string>, blame: map<string, seq<string>>): (t: Tally<string>)
    ensures Valid(t)
  {
    if files == [] then Empty()
    else BumpAll(BlameTally(files[..|files| - 1], blame), if files[|files| - 1] in blame then blame[files[|files| - 1]] else [])
  }

  function BumpAll(t: Tally<string>, authors: seq<string>): (r: Tally<string>)
    requires Valid(t)
    ensures Valid(r)
  {
    if authors == [] then t else Bump(BumpAll(t, authors[..|authors| - 1]), authors[|authors| - 1])
  }

  /** The names of the top blame authors, at most `maxReviewers` of them (a
      negative limit drops that many from the end, as a slice does). */
  function BlameReviewers(files: seq<string>, blame: map<string, seq<string>>, maxReviewers: int): set<string> {
    var top := Take(SortDesc(Items(BlameTally(files, blame))), maxReviewers);
    set p <- top :: p.0
  }

  /** The reviewer pool before the final cut. */
  function ReviewerPool(files: seq<string>, codeowners: Option<string>, blame: Option<map<string, seq<string>>>,
                        maxReviewers: int, matches: PatternMatcher): set<string>
  {
    (if TruthyText(codeowners) then OwnerReviewers(files, RulesOf(Split(codeowners.value, '\n')), matches) else {})
    + (if blame.Some? && |blame.value| > 0 then BlameReviewers(files, blame.value, maxReviewers) else {})
  }

  /** The length of `list(pool)[:maxReviewers]`. */
  function Limit(size: nat, maxReviewers: int): nat {
    if maxReviewers >= 0 then (if size < maxReviewers then size else maxReviewers)
    else if size + maxReviewers < 0 then 0 else size + maxReviewers
  }

  /** `suggest_reviewers`. The pool is a set, so which names survive the cut
      depends on the set's iteration order, which is left open here. */
  method SuggestReviewers(files: seq<string>, codeowners: Option<string>, blame: Option<map<string, seq<string>>>,
                          maxReviewers: int, matches: PatternMatcher)
    returns (reviewers: seq<string>)
    ensures Distinct(reviewers)
    ensures forall r <- reviewers :: r in ReviewerPool(files, codeowners, blame, maxReviewers, matches)
    ensures |reviewers| == Limit(|ReviewerPool(files, codeowners, blame, maxReviewers, matches)|, maxReviewers)
  {
    var owners := CodeownersBranch(files, codeowners, matches);
    var authors := BlameBranch(files, blame, maxReviewers);
    var pool := owners + authors;
    reviewers := FirstOf(pool, Limit(|pool|, maxReviewers));
  }

  /** The CODEOWNERS branch of `suggest_reviewers`: taken when the file's text is not empty. */
  method CodeownersBranch(files: seq<string>, codeowners: Option<string>, matches: PatternMatcher)
    returns (owners: set<string>)
    ensures owners == if TruthyText(codeowners) then OwnerReviewers(files, RulesOf(Split(codeowners.value, '\n')), matches) else {}
  {
    owners := {};
    if codeowners.Some? && codeowners.value != [] {
      var rules := ParseCodeowners(codeowners.value);
      owners := CodeownerPool(files, rules, matches);
    }
  }

  /** The blame branch of `suggest_reviewers`: taken when there is blame data. */
  method BlameBranch(files: seq<string>, blame: Option<map<string, seq<string>>>, maxReviewers: int)
    returns (authors: set<string>)
    ensures authors == if blame.Some? && |blame.value| > 0 then BlameReviewers(files, blame.value, maxReviewers) else {}
  {
    authors := {};
    if blame.Some? && |blame.value| > 0 {
      authors := TopBlameAuthors(files, blame.value, maxReviewers);
    }
  }

  /** The CODEOWNERS loop of `suggest_reviewers`. */
  method CodeownerPool(files: seq<string>, rules: seq<OwnerRule>, matches: PatternMatcher) returns (pool: set<string>)
    ensures pool == OwnerReviewers(files, rules, matches)
  {
    pool := {};
    var i := 0;
    while i < |files|
      invariant 0 <= i <= |files|
      invariant pool == OwnerReviewers(files[..i], rules, matches)
    {
      assert files[..i + 1][..i] == files[..i];
      pool := pool + MatchCodeowners(files[i], rules, matches);
      i := i + 1;
    }
    assert files[..i] == files;
  }

  /** The blame branch of `suggest_reviewers`: the top authors by count. */
  method TopBlameAuthors(files: seq<string>, blame: map<string, seq<string>>, maxReviewers: int)
    returns (authors: set<string>)
    ensures authors == BlameReviewers(files, blame, maxReviewers)
  {
    var counts := CountBlame(files, blame);
    var top := Take(SortDesc(Items(counts)), maxReviewers);
    authors := set p <- top :: p.0;
  }

  /** The author loop of `suggest_reviewers`. */
  method CountBlame(files: seq<string>, blame: map<string, seq<string>>) returns (counts: Tally<string>)
    ensures counts == BlameTally(files, blame)
  {
    counts := Empty();
    var i := 0;
    while i < |files|
      invariant 0 <= i <= |files|
      invariant counts == BlameTally(files[..i], blame)
    {
      assert files[..i + 1][..i] == files[..i];
      var authors := if files[i] in blame then blame[files[i]] else [];
      counts := CountAuthors(counts, authors);
      i := i + 1;
    }
    assert files[..i] == files;
  }

  /** The inner loop: one count per author line of a file. */
  method CountAuthors(counts: Tally<string>, authors: seq<string>) returns (r: Tally<string>)
    requires Valid(counts)
    ensures r == BumpAll(counts, authors)
  {
    r := counts;
    var j := 0;
    while j < |authors|
      invariant 0 <= j <= |authors|
      invariant r == BumpAll(counts, authors[..j])
    {
      assert authors[..j + 1][..j] == authors[..j];
      r := Bump(r, authors[j]);
      j := j + 1;
    }
    assert authors[..j] == authors;
  }

  /** `list(pool)[:n]`: `n` distinct members of the pool, in an unspecified order. */
  method FirstOf(pool: set<string>, n: nat) returns (names: seq<string>)
    requires n <= |pool|
    ensures Distinct(names) && |names| == n
    ensures forall x <- names :: x in pool
  {
    names := [];
    var rest := pool;
    while |names| < n
      invariant Distinct(names) && |names| <= n
      invariant rest == pool - set x <- names
      invariant |rest| == |pool| - |names|
      invariant forall x <- names :: x in pool
      decreases n - |names|
    {
      var x :| x in rest;
      names := names + [x];
      rest := rest - {x};
    }
  }
}
