/** `PRManager.validate_pr_ready`: the merge-readiness check of a pull request. */
module PrManager {
  import opened Py
  import opened Text

  /** A reviewer entry; only its `vote` is looked at (10 means approved). */
  datatype Reviewer = Reviewer(vote: Slot<int>)

  /** A policy entry; only its `status` is looked at. */
  datatype Policy = Policy(status: Slot<string>)

  /** The fields of the pull-request record the check reads. A present
      `None` list cannot be iterated. */
  datatype PrData = PrData(reviewers: Slot<seq<Reviewer>>, mergeStatus: Slot<string>, policies: Slot<seq<Policy>>)

  datatype Readiness = Readiness(ready: bool, blockers: seq<string>)

  const ApprovedVote := 10
  const ConflictBlocker := "Merge conflicts must be resolved"

  predicate Approves(r: Reviewer) { r.vote == Has(ApprovedVote) }
  predicate HasFailed(p: Policy) { p.status == Has("failed") }

  /** The number of reviewers whose vote is exactly 10. */
  function Approvals(rs: seq<Reviewer>): (n: nat)
    ensures n <= |rs|
    ensures n == 0 <==> forall r <- rs :: !Approves(r)
  {
    if rs == [] then 0
    else
      var last := rs[|rs| - 1];
      assert forall r <- rs :: r in rs[..|rs| - 1] || r == last;
      Approvals(rs[..|rs| - 1]) + (if Approves(last) then 1 else 0)
  }

  /** The number of policies whose status is `failed`. */
  function FailedCount(ps: seq<Policy>): (n: nat)
    ensures n <= |ps|
    ensures n == 0 <==> forall p <- ps :: !HasFailed(p)
  {
    if ps == [] then 0
    else
      var last := ps[|ps| - 1];
      assert forall p <- ps :: p in ps[..|ps| - 1] || p == last;
      FailedCount(ps[..|ps| - 1]) + (if HasFailed(last) then 1 else 0)
  }

  function ApprovalBlocker(shortfall: int): string {
    "Need " + IntToString(shortfall) + " more approval(s)"
  }

  function PolicyBlocker(failed: nat): string {
    NatToString(failed) + " policy check(s) failed"
  }

  /** The blockers in the order they are checked: approvals, merge conflicts,
      failed policies. Each is present exactly when its condition holds. */
  function Blockers(approvals: nat, required: int, mergeStatus: Slot<string>, failed: nat): (bs: seq<string>)
    ensures |bs| <= 3
    ensures approvals < required <==> ApprovalBlocker(required - approvals) in bs
    ensures approvals < required ==> bs[0] == ApprovalBlocker(required - approvals)
    ensures mergeStatus == Has("conflicts") <==> ConflictBlocker in bs
    ensures failed > 0 <==> PolicyBlocker(failed) in bs
    ensures failed > 0 ==> bs[|bs| - 1] == PolicyBlocker(failed)
    ensures bs == [] <==> approvals >= required && mergeStatus != Has("conflicts") && failed == 0
  {
    var a := if approvals < required then [ApprovalBlocker(required - approvals)] else [];
    var c := if mergeStatus == Has("conflicts") then [ConflictBlocker] else [];
    var p := if failed > 0 then [PolicyBlocker(failed)] else [];
    assert approvals < required ==> ApprovalBlocker(required - approvals)[0] == 'N';
    assert ConflictBlocker[0] == 'M';
    assert failed > 0 ==> IsDigit(PolicyBlocker(failed)[0]);
    assert approvals < required ==> ApprovalBlocker(required - approvals) !in c + p;
    assert ConflictBlocker !in a + p;
    assert failed > 0 ==> PolicyBlocker(failed) !in a + c;
    a + c + p
  }

  /** `validate_pr_ready`. `requiredChecks` is accepted and never read. A
      present `None` reviewer or policy list raises a TypeError when iterated. */
  method ValidatePrReady(pr: PrData, requiredReviews: int, requiredChecks: Option<seq<string>>)
    returns (result: Result<Readiness>)
    ensures result.Err? <==> pr.reviewers.Null? || pr.policies.Null?
    ensures result.Ok? ==> (result.value.ready <==> result.value.blockers == [])
    ensures result.Ok? ==>
              var reviewers := pr.reviewers.Get(Some([])).value;
              var policies := pr.policies.Get(Some([])).value;
              result.value.blockers
              == Blockers(Approvals(reviewers), requiredReviews, pr.mergeStatus, FailedCount(policies))
  {
    var ready := true;
    var blockers: seq<string> := [];

    if pr.reviewers.Null? {
      return Err(TypeError("'NoneType' object is not iterable"));
    }
    var approvals := CountApprovals(pr.reviewers.Get(Some([])).value);
    if approvals < requiredReviews {
      ready := false;
      blockers := blockers + [ApprovalBlocker(requiredReviews - approvals)];
    }

    if pr.mergeStatus == Has("conflicts") {
      ready := false;
      blockers := blockers + [ConflictBlocker];
    }

    if pr.policies.Null? {
      return Err(TypeError("'NoneType' object is not iterable"));
    }
    var failed := CountFailed(pr.policies.Get(Some([])).value);
    if failed > 0 {
      ready := false;
      blockers := blockers + [PolicyBlocker(failed)];
    }
    assert ready <==> blockers == [];
    result := Ok(Readiness(ready, blockers));
  }

  /** `sum(1 for r in reviewers if r.get('vote') == 10)`. */
  method CountApprovals(reviewers: seq<Reviewer>) returns (approvals: nat)
    ensures approvals == Approvals(reviewers)
  {
    approvals := 0;
    var i := 0;
    while i < |reviewers|
      invariant 0 <= i <= |reviewers|
      invariant approvals == Approvals(reviewers[..i])
    {
      assert reviewers[..i + 1][..i] == reviewers[..i];
      if reviewers[i].vote == Has(ApprovedVote) {
        approvals := approvals + 1;
      }
      i := i + 1;
    }
    assert reviewers[..i] == reviewers;
  }

  /** The length of `[p for p in policies if p.get('status') == 'failed']`. */
  method CountFailed(policies: seq<Policy>) returns (failed: nat)
    ensures failed == FailedCount(policies)
  {
    failed := 0;
    var j := 0;
    while j < |policies|
      invariant 0 <= j <= |policies|
      invariant failed == FailedCount(policies[..j])
    {
      assert policies[..j + 1][..j] == policies[..j];
      if policies[j].status == Has("failed") {
        failed := failed + 1;
      }
      j := j + 1;
    }
    assert policies[..j] == policies;
  }

  /** Approvals only ever remove the approval blocker: one more approving
      reviewer never adds a blocker. */
  lemma {:induction false} MoreApprovalsFewerBlockers(rs: seq<Reviewer>, extra: Reviewer, required: int,
                                                      mergeStatus: Slot<string>, failed: nat)
    ensures |Blockers(Approvals(rs + [extra]), required, mergeStatus, failed)|
            <= |Blockers(Approvals(rs), required, mergeStatus, failed)|
  {
    assert (rs + [extra])[..|rs + [extra]| - 1] == rs;
  }
}
