// The pull-request review store: a submitted request is reviewed automatically against
// the lint and test thresholds, a reviewer may override the verdict afterwards, and every
// review appends one comment.

module PrReview {
  import opened Wrappers
  import opened Models
  import Store
  import Lists
  import Text

  const LintThreshold := 90

  /** What `evaluatePullRequest` returns. */
  datatype Verdict = Verdict(shouldApprove: bool, reason: string)

  const TestsFailingReason := "Tests are not passing. Please fix failing tests before resubmitting."
  /** The approval text as the service stores it, with `≥` written as the three characters of its mis-decoded UTF-8 bytes. */
  const ApprovalReason := "Automatic approval: Code meets all quality standards (lint score \U{00E2}\U{2030}\U{00A5} 90, tests passing)"
  const FallbackReason := "Pull request does not meet approval criteria"

  /** `Lint score ${lintScore} is below threshold of ${lintThreshold}` */
  function LintReason(lintScore: int): (r: string)
    ensures Text.StartsWith(r, "Lint score ")
  {
    "Lint score " + Text.IntToString(lintScore) + " is below threshold of " + Text.IntToString(LintThreshold)
  }

  function PrKey(pr: PullRequest): string { pr.id }

  /**
   * `evaluatePullRequest`: approval exactly when the lint score reaches the threshold and the
   * tests pass; a lint failure is reported whatever the tests say.
   */
  function Evaluate(pr: PullRequest): (v: Verdict)
    ensures v.shouldApprove <==> pr.lintScore >= LintThreshold && pr.testsPassed
    ensures pr.lintScore < LintThreshold ==> v.reason == LintReason(pr.lintScore)
    ensures pr.lintScore >= LintThreshold && !pr.testsPassed ==> v.reason == TestsFailingReason
    ensures v.shouldApprove ==> v.reason == ApprovalReason
  {
    var minLintScore := pr.lintScore >= LintThreshold;
    var testsPass := pr.testsPassed;
    if !minLintScore then Verdict(false, LintReason(pr.lintScore))
    else if !testsPass then Verdict(false, TestsFailingReason)
    else if minLintScore && testsPass then Verdict(true, ApprovalReason)
    else Verdict(false, FallbackReason)
  }

  /** The request after a review with the given decision and comment. */
  function Reviewed(pr: PullRequest, approved: bool, comment: string, now: int): PullRequest {
    pr.(status := if approved then Approved else Rejected,
        codeReviewComments := pr.codeReviewComments + [comment],
        updatedAt := now)
  }

  /** The automatic review of one request. */
  function AutoReviewed(now: int): PullRequest -> PullRequest {
    (pr: PullRequest) => var v := Evaluate(pr); Reviewed(pr, v.shouldApprove, v.reason, now)
  }

  /** The manual review of one request. */
  function ManuallyReviewed(approved: bool, comment: string, now: int): PullRequest -> PullRequest {
    (pr: PullRequest) => Reviewed(pr, approved, comment, now)
  }

  /** The new request `submitPullRequest` pushes: the fields supplied, a fresh id, pending. */
  function NewRequest(draft: PullRequest, freshId: string, now: int): PullRequest {
    draft.(id := freshId, status := Pending, updatedAt := now)
  }

  /** The list after `autoReviewAndUpdatePr(prId)`. */
  function AfterAutoReview(prs: seq<PullRequest>, prId: string, now: int): seq<PullRequest> {
    Store.Replace(prs, PrKey, prId, AutoReviewed(now))
  }

  /** The list after `manualReview(prId, approved, comment)`. */
  function AfterManualReview(prs: seq<PullRequest>, prId: string, approved: bool, comment: string, now: int): seq<PullRequest> {
    Store.Replace(prs, PrKey, prId, ManuallyReviewed(approved, comment, now))
  }

  /** The list after `submitPullRequest(draft)`. */
  function AfterSubmit(prs: seq<PullRequest>, draft: PullRequest, freshId: string, now: int): seq<PullRequest> {
    AfterAutoReview(prs + [NewRequest(draft, freshId, now)], freshId, now)
  }

  /** The callback `(pr) => pr.status === status`. */
  function HasStatus(status: PrStatus): PullRequest -> bool {
    (pr: PullRequest) => pr.status == status
  }

  class PrReviewService {
    var pullRequests: seq<PullRequest>

    constructor(initial: seq<PullRequest>)
      ensures pullRequests == initial
    {
      pullRequests := initial;
    }

    method GetPullRequestById(id: string) returns (pr: Option<PullRequest>)
      ensures pr == Store.Lookup(pullRequests, PrKey, id)
    {
      pr := Store.Lookup(pullRequests, PrKey, id);
    }

    method SubmitPullRequest(draft: PullRequest, freshId: string, now: int)
      modifies this
      ensures pullRequests == AfterSubmit(old(pullRequests), draft, freshId, now)
    {
      pullRequests := pullRequests + [NewRequest(draft, freshId, now)];
      AutoReviewAndUpdatePr(freshId, now);
    }

    method AutoReviewAndUpdatePr(prId: string, now: int)
      modifies this
      ensures pullRequests == AfterAutoReview(old(pullRequests), prId, now)
    {
      var pr := GetPullRequestById(prId);
      if pr.None? {
        return;
      }
      var v := Evaluate(pr.value);
      var updated := Reviewed(pr.value, v.shouldApprove, v.reason, now);
      var index := Store.Position(pullRequests, PrKey, prId);
      if index != -1 {
        pullRequests := pullRequests[index := updated];
      }
    }

    method ManualReview(prId: string, approved: bool, comment: string, now: int)
      modifies this
      ensures pullRequests == AfterManualReview(old(pullRequests), prId, approved, comment, now)
    {
      var pr := GetPullRequestById(prId);
      if pr.None? {
        return;
      }
      var updated := Reviewed(pr.value, approved, comment, now);
      var index := Store.Position(pullRequests, PrKey, prId);
      if index != -1 {
        pullRequests := pullRequests[index := updated];
      }
    }

    method GetPendingReviews() returns (prs: seq<PullRequest>)
      ensures prs == Lists.Filter(pullRequests, HasStatus(Pending))
    {
      prs := Lists.Filter(pullRequests, HasStatus(Pending));
    }

    method GetApprovedPrs() returns (prs: seq<PullRequest>)
      ensures prs == Lists.Filter(pullRequests, HasStatus(Approved))
    {
      prs := Lists.Filter(pullRequests, HasStatus(Approved));
    }

    method GetRejectedPrs() returns (prs: seq<PullRequest>)
      ensures prs == Lists.Filter(pullRequests, HasStatus(Rejected))
    {
      prs := Lists.Filter(pullRequests, HasStatus(Rejected));
    }
  }

  // ---------------------------------------------------------------- properties

  /** The fixed reasons differ from one another. */
  lemma FixedReasonsDistinct()
    ensures FallbackReason != TestsFailingReason && FallbackReason != ApprovalReason
  {
  }

  /** The last branch of the evaluation is never taken: its reason is never given. */
  lemma FallbackUnreachable(pr: PullRequest)
    ensures Evaluate(pr).reason != FallbackReason
  {
    FixedReasonsDistinct();
    if pr.lintScore < LintThreshold {
      assert Evaluate(pr).reason[0] == 'L';
    }
  }

  /**
   * A request submitted under an id nobody else carries is pushed last and comes out of the
   * submission approved or rejected, never pending, with exactly one more comment, the
   * evaluation's reason; every earlier request is left as it was.
   */
  lemma SubmitResolves(prs: seq<PullRequest>, draft: PullRequest, freshId: string, now: int)
    requires Store.Lookup(prs, PrKey, freshId).None?
    ensures var r := AfterSubmit(prs, draft, freshId, now);
      var v := Evaluate(NewRequest(draft, freshId, now));
      && |r| == |prs| + 1
      && r[..|prs|] == prs
      && r[|prs|].id == freshId
      && r[|prs|].status != Pending
      && (r[|prs|].status == Approved <==> v.shouldApprove)
      && r[|prs|].codeReviewComments == draft.codeReviewComments + [v.reason]
  {
    var s := prs + [NewRequest(draft, freshId, now)];
    assert s[|prs|].id == freshId;
    assert Store.Position(s, PrKey, freshId) == |prs|;
  }

  /**
   * When the fresh id is already taken, the lookup finds the older request: that one is
   * reviewed again and the new request stays pending.
   */
  lemma SubmitCollision(prs: seq<PullRequest>, draft: PullRequest, freshId: string, now: int)
    requires Store.Lookup(prs, PrKey, freshId).Some?
    ensures var r := AfterSubmit(prs, draft, freshId, now);
      && |r| == |prs| + 1
      && r[|prs|] == NewRequest(draft, freshId, now)
      && r[|prs|].status == Pending
      && r[..|prs|] == AfterAutoReview(prs, freshId, now)
  {
    var s := prs + [NewRequest(draft, freshId, now)];
    var k := Store.Position(prs, PrKey, freshId);
    assert s[k] == prs[k];
    assert Store.Position(s, PrKey, freshId) == k;
    var r := AfterSubmit(prs, draft, freshId, now);
    assert r[..|prs|] == AfterAutoReview(prs, freshId, now) by {
      assert forall j :: 0 <= j < |prs| ==> r[j] == AfterAutoReview(prs, freshId, now)[j];
    }
  }

  /**
   * A manual review of an unknown id changes nothing. Otherwise it sets the status from the
   * decision alone, whatever the status was, appends the comment, and changes no other request.
   */
  lemma ManualReviewEffect(prs: seq<PullRequest>, prId: string, approved: bool, comment: string, now: int)
    ensures var r := AfterManualReview(prs, prId, approved, comment, now);
      && |r| == |prs|
      && (match Store.Lookup(prs, PrKey, prId)
          case None => r == prs
          case Some(pr) =>
            var k := Store.Position(prs, PrKey, prId);
            && r[k].status == (if approved then Approved else Rejected)
            && r[k].codeReviewComments == pr.codeReviewComments + [comment]
            && r[k].id == pr.id && r[k].lintScore == pr.lintScore && r[k].testsPassed == pr.testsPassed
            && forall j :: 0 <= j < |prs| && j != k ==> r[j] == prs[j])
  {
  }

  /** Every request's comments after a change start with its comments before: comments are only ever added. */
  predicate CommentsExtend(before: seq<PullRequest>, after: seq<PullRequest>) {
    && |before| <= |after|
    && forall j :: 0 <= j < |before| ==> before[j].codeReviewComments <= after[j].codeReviewComments
  }

  /** Reviews add exactly one comment to the reviewed request and remove none anywhere. */
  lemma ReviewsOnlyAddComments(prs: seq<PullRequest>, prId: string, approved: bool, comment: string, now: int)
    ensures CommentsExtend(prs, AfterAutoReview(prs, prId, now))
    ensures CommentsExtend(prs, AfterManualReview(prs, prId, approved, comment, now))
  {
    var k := Store.Position(prs, PrKey, prId);
    var a := AfterAutoReview(prs, prId, now);
    var m := AfterManualReview(prs, prId, approved, comment, now);
    if k >= 0 {
      assert prs[k].codeReviewComments <= prs[k].codeReviewComments + [Evaluate(prs[k]).reason];
      assert prs[k].codeReviewComments <= prs[k].codeReviewComments + [comment];
    }
  }

  /** A submission keeps every earlier request's comments too. */
  lemma SubmitOnlyAddsComments(prs: seq<PullRequest>, draft: PullRequest, freshId: string, now: int)
    ensures CommentsExtend(prs, AfterSubmit(prs, draft, freshId, now))
  {
    var s := prs + [NewRequest(draft, freshId, now)];
    ReviewsOnlyAddComments(s, freshId, false, "", now);
    assert forall j :: 0 <= j < |prs| ==> s[j] == prs[j];
  }

  /** The pending, approved and rejected lists share out the requests: together they hold each one exactly once. */
  lemma {:induction false} StatusListsPartition(prs: seq<PullRequest>)
    ensures |Lists.Filter(prs, HasStatus(Pending))| + |Lists.Filter(prs, HasStatus(Approved))|
          + |Lists.Filter(prs, HasStatus(Rejected))| == |prs|
  {
    if prs != [] {
      StatusListsPartition(prs[1..]);
    }
  }

  /** No request is on two of the lists. */
  lemma StatusListsDisjoint(prs: seq<PullRequest>)
    ensures forall x :: x in Lists.Filter(prs, HasStatus(Pending)) ==> x !in Lists.Filter(prs, HasStatus(Approved)) && x !in Lists.Filter(prs, HasStatus(Rejected))
    ensures forall x :: x in Lists.Filter(prs, HasStatus(Approved)) ==> x !in Lists.Filter(prs, HasStatus(Rejected))
  {
    var p := Lists.Filter(prs, HasStatus(Pending));
    var a := Lists.Filter(prs, HasStatus(Approved));
    var r := Lists.Filter(prs, HasStatus(Rejected));
    assert forall x :: x in p ==> x.status == Pending by {
      forall x | x in p ensures x.status == Pending { var j :| 0 <= j < |p| && p[j] == x; }
    }
    assert forall x :: x in a ==> x.status == Approved by {
      forall x | x in a ensures x.status == Approved { var j :| 0 <= j < |a| && a[j] == x; }
    }
    assert forall x :: x in r ==> x.status == Rejected by {
      forall x | x in r ensures x.status == Rejected { var j :| 0 <= j < |r| && r[j] == x; }
    }
  }
}
