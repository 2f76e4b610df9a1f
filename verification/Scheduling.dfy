/** When the next check is due, and when a check may end the bounded window. */
module Scheduling {
  import opened Wrappers
  import Confirmation
  import opened Records
  import opened Lifecycle
  import opened Contract
  import opened Traces
  import opened Counting

  predicate HasResult(r: Record) {
    r.state == AWAITING_PROOF || IsTerminal(r.state)
  }

  predicate IsScheduled(r: Record) {
    && r.history != []
    && (r.attempts != [] ==>
          && Last(r.attempts).checkedAt <= Last(r.history).at
          && Last(r.attempts).checkCount <= r.checkCount
          && (r.state == VERIFYING ==> Last(r.attempts).checkCount < r.checkCount))
    && (HasResult(r) ==>
          && r.attempts != []
          && Last(r.attempts).checkCount == r.checkCount
          && Last(r.attempts).checkedAt == Last(r.history).at
          && r.verifiedAt == Some(Last(r.attempts).checkedAt)
          && r.verification == Some(Last(r.attempts).result)
          && r.evidence == Some(Last(r.attempts).evidence)
          && r.state == TerminalStateFor(Last(r.attempts).result.verdict))
    && (r.nextCheckAt.Some? ==> r.state == AWAITING_PROOF)
    && (r.state == AWAITING_PROOF && r.checkCount < r.maxChecks ==>
          r.nextCheckAt == Some(Last(r.attempts).checkedAt + CHECK_INTERVAL * r.checkCount))
    && (r.checkCount >= r.maxChecks ==> r.nextCheckAt.None?)
  }

  lemma SchedulingIsKept(v: Confirmation.Verifier, a: Record, op: Op, b: Record)
    requires IsScheduled(a)
    requires StartsFrom(v, a, op) && SameLifecycle(LifecycleAfter(v, a, op), b)
    requires IsWalk(b.history)
    ensures IsScheduled(b)
  {
    hide Confirmation.VerifyAttestation, CancelActionDigest, ReceiptFor, EvidenceFor, Judge, RecheckRefusal;
    if op.Recheck? {
      RecheckStarts(a, op.at, op.scheduledFor, op.force);
    }
    if !IsMetadata(op) {
      assert b.history[..|a.history|] == a.history;
      assert b.history[|b.history| - 2].at <= Last(b.history).at;
    }
  }

  /** What a claim from AWAITING_PROOF guarantees to a check that may end the window. */
  predicate MayEndWindow(claimed: Record, at: int) {
    && claimed.attempts != []
    && claimed.checkCount >= claimed.maxChecks
    && Last(claimed.attempts).checkCount == claimed.maxChecks - 1
    && Last(claimed.attempts).checkedAt + CHECK_INTERVAL * (claimed.maxChecks - 1) <= at
  }

  /** A read-back recorded as eligible comes a full interval after the attempt before the last one. */
  lemma EligibleChecksMayEndWindow(v: Confirmation.Verifier, before: Record, claim: Op, claimed: Record, op: Op)
    requires IsScheduled(before)
    requires StartsFrom(v, before, claim) && SameLifecycle(LifecycleAfter(v, before, claim), claimed)
    requires op.RecordCheck? && FollowsClaim(before, claim, op)
    ensures op.eligible ==> MayEndWindow(claimed, op.at)
    ensures claim.Recheck? ==> op.at == Last(claimed.history).at
  {
    hide Confirmation.VerifyAttestation, CancelActionDigest, ReceiptFor, EvidenceFor;
  }
}
