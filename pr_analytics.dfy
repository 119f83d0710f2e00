/** `PRAnalytics.calculate_metrics`: status counts, the size distribution
    and the top reviewers and contributors of a list of pull requests. */
module PrAnalytics {
  import opened Py
  import opened Ranking

  /** A person record; only `displayName` is read. */
  datatype Person = Person(displayName: Option<string>)

  /** The fields of a pull request the metrics read; `None` is an absent key. */
  datatype Pr = Pr(status: Option<string>, linesChanged: Option<int>,
                   reviewers: Option<seq<Person>>, createdBy: Option<Person>)

  datatype Metrics =
    | NoPrs
    | Metrics(totalPrs: nat, completed: nat, active: nat, abandoned: nat,
              small: nat, medium: nat, large: nat,
              topReviewers: seq<(string, nat)>, topContributors: seq<(string, nat)>)

  const NoPrsError := "No PRs to analyze"
  const TopCount := 5

  /** `sum(1 for pr in prs if pr.get('status') == status)`. */
  function StatusCount(prs: seq<Pr>, status: string): (n: nat)
    ensures n <= |prs|
  {
    if prs == [] then 0
    else StatusCount(prs[..|prs| - 1], status) + (if prs[|prs| - 1].status == Some(status) then 1 else 0)
  }

  /** `pr.get('lines_changed', 0)`. */
  function LinesChanged(pr: Pr): int { pr.linesChanged.GetOr(0) }

  predicate IsSmall(pr: Pr) { LinesChanged(pr) < 100 }
  predicate IsMedium(pr: Pr) { 100 <= LinesChanged(pr) < 500 }
  predicate IsLarge(pr: Pr) { LinesChanged(pr) >= 500 }

  /** The number of pull requests in a size bucket. */
  function CountWhere(prs: seq<Pr>, bucket: Pr -> bool): (n: nat)
    ensures n <= |prs|
  {
    if prs == [] then 0
    else CountWhere(prs[..|prs| - 1], bucket) + (if bucket(prs[|prs| - 1]) then 1 else 0)
  }

  /** `reviewer.get('displayName', 'Unknown')`. */
  function NameOf(p: Person): string { p.displayName.GetOr("Unknown") }

  /** `pr.get('createdBy', {}).get('displayName', 'Unknown')`. */
  function AuthorOf(pr: Pr): string {
    match pr.createdBy
    case None => "Unknown"
    case Some(p) => NameOf(p)
  }

  /** `pr.get('reviewers', [])`. */
  function ReviewersOf(pr: Pr): seq<Person> { pr.reviewers.GetOr([]) }

  /** Counting every reviewer of a list, in order, into a tally. */
  function CountReviewers(t: Tally<string>, rs: seq<Person>): (r: Tally<string>)
    requires Valid(t)
    ensures Valid(r)
  {
    if rs == [] then t else Bump(CountReviewers(t, rs[..|rs| - 1]), NameOf(rs[|rs| - 1]))
  }

  /** The reviewer counts after the loop of `_calculate_top_reviewers`. */
  function ReviewerTally(prs: seq<Pr>): (r: Tally<string>)
    ensures Valid(r)
  {
    if prs == [] then Empty() else CountReviewers(ReviewerTally(prs[..|prs| - 1]), ReviewersOf(prs[|prs| - 1]))
  }

  /** The author counts after the loop of `_calculate_top_contributors`. */
  function AuthorTally(prs: seq<Pr>): (r: Tally<string>)
    ensures Valid(r)
  {
    if prs == [] then Empty() else Bump(AuthorTally(prs[..|prs| - 1]), AuthorOf(prs[|prs| - 1]))
  }

  /** The number of reviewer entries over all pull requests. */
  function ReviewerEntries(prs: seq<Pr>): nat {
    if prs == [] then 0 else ReviewerEntries(prs[..|prs| - 1]) + |ReviewersOf(prs[|prs| - 1])|
  }

  /** `_calculate_top_reviewers`. */
  method TopReviewers(prs: seq<Pr>) returns (top: seq<(string, nat)>)
    ensures top == Top(ReviewerTally(prs), TopCount)
  {
    var counts: Tally<string> := Empty();
    var i := 0;
    while i < |prs|
      invariant 0 <= i <= |prs|
      invariant counts == ReviewerTally(prs[..i])
    {
      assert prs[..i + 1][..i] == prs[..i];
      counts := CountAll(counts, ReviewersOf(prs[i]));
      i := i + 1;
    }
    assert prs[..i] == prs;
    top := Top(counts, TopCount);
  }

  /** The inner loop of `_calculate_top_reviewers`. */
  method CountAll(counts: Tally<string>, rs: seq<Person>) returns (r: Tally<string>)
    requires Valid(counts)
    ensures r == CountReviewers(counts, rs)
  {
    r := counts;
    var j := 0;
    while j < |rs|
      invariant 0 <= j <= |rs|
      invariant r == CountReviewers(counts, rs[..j])
    {
      assert rs[..j + 1][..j] == rs[..j];
      r := Bump(r, NameOf(rs[j]));
      j := j + 1;
    }
    assert rs[..j] == rs;
  }

  /** `_calculate_top_contributors`. */
  method TopContributors(prs: seq<Pr>) returns (top: seq<(string, nat)>)
    ensures top == Top(AuthorTally(prs), TopCount)
  {
    var counts: Tally<string> := Empty();
    var i := 0;
    while i < |prs|
      invariant 0 <= i <= |prs|
      invariant counts == AuthorTally(prs[..i])
    {
      assert prs[..i + 1][..i] == prs[..i];
      counts := Bump(counts, AuthorOf(prs[i]));
      i := i + 1;
    }
    assert prs[..i] == prs;
    top := Top(counts, TopCount);
  }

  /** `calculate_metrics`, without the cycle times and the percentages. */
  method CalculateMetrics(prs: seq<Pr>) returns (m: Metrics)
    ensures m.NoPrs? <==> prs == []
    ensures m.Metrics? ==>
              m.totalPrs == |prs|
              && m.completed == StatusCount(prs, "completed")
              && m.active == StatusCount(prs, "active")
              && m.abandoned == StatusCount(prs, "abandoned")
              && m.small == CountWhere(prs, IsSmall)
              && m.medium == CountWhere(prs, IsMedium)
              && m.large == CountWhere(prs, IsLarge)
              && m.topReviewers == Top(ReviewerTally(prs), TopCount)
              && m.topContributors == Top(AuthorTally(prs), TopCount)
  {
    if prs == [] {
      return NoPrs;
    }
    var reviewers := TopReviewers(prs);
    var contributors := TopContributors(prs);
    m := Metrics(|prs|, StatusCount(prs, "completed"), StatusCount(prs, "active"), StatusCount(prs, "abandoned"),
                 CountWhere(prs, IsSmall), CountWhere(prs, IsMedium), CountWhere(prs, IsLarge),
                 reviewers, contributors);
  }

  /** A pull request has at most one status, so the three status counts
      never exceed the number of pull requests. */
  lemma {:induction false} StatusCountsBounded(prs: seq<Pr>)
    ensures StatusCount(prs, "completed") + StatusCount(prs, "active") + StatusCount(prs, "abandoned") <= |prs|
  {
    if prs != [] {
      StatusCountsBounded(prs[..|prs| - 1]);
    }
  }

  /** Every pull request falls in exactly one size bucket, an absent
      `lines_changed` counting as 0. */
  lemma {:induction false} SizesPartition(prs: seq<Pr>)
    ensures CountWhere(prs, IsSmall) + CountWhere(prs, IsMedium) + CountWhere(prs, IsLarge) == |prs|
  {
    if prs != [] {
      SizesPartition(prs[..|prs| - 1]);
    }
  }

  lemma {:induction false} CountReviewersTotal(t: Tally<string>, rs: seq<Person>)
    requires Valid(t)
    ensures Total(CountReviewers(t, rs)) == Total(t) + |rs|
  {
    if rs != [] {
      CountReviewersTotal(t, rs[..|rs| - 1]);
      BumpTotal(CountReviewers(t, rs[..|rs| - 1]), NameOf(rs[|rs| - 1]));
    }
  }

  /** Each reviewer entry adds exactly one to the reviewer counts. */
  lemma {:induction false} ReviewerTotal(prs: seq<Pr>)
    ensures Total(ReviewerTally(prs)) == ReviewerEntries(prs)
  {
    if prs != [] {
      ReviewerTotal(prs[..|prs| - 1]);
      CountReviewersTotal(ReviewerTally(prs[..|prs| - 1]), ReviewersOf(prs[|prs| - 1]));
    }
  }

  /** Before the cut to five, the author counts add up to the number of pull requests. */
  lemma {:induction false} AuthorTotal(prs: seq<Pr>)
    ensures Total(AuthorTally(prs)) == |prs|
  {
    if prs != [] {
      AuthorTotal(prs[..|prs| - 1]);
      BumpTotal(AuthorTally(prs[..|prs| - 1]), AuthorOf(prs[|prs| - 1]));
    }
  }

  /** The top lists hold at most five names, by non-increasing count, each
      with its own count. */
  lemma TopListsRanked(prs: seq<Pr>)
    ensures |Top(ReviewerTally(prs), TopCount)| <= TopCount && NonIncreasing(Top(ReviewerTally(prs), TopCount))
    ensures |Top(AuthorTally(prs), TopCount)| <= TopCount && NonIncreasing(Top(AuthorTally(prs), TopCount))
    ensures forall p <- Top(ReviewerTally(prs), TopCount) :: p.1 == CountOf(ReviewerTally(prs), p.0)
    ensures forall p <- Top(AuthorTally(prs), TopCount) :: p.1 == CountOf(AuthorTally(prs), p.0)
  {
    TopRanked(ReviewerTally(prs), TopCount);
    TopRanked(AuthorTally(prs), TopCount);
  }
}
