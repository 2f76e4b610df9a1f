/** Every recorded attempt is what the verifier says about its evidence. */
module Attempts {
  import opened Wrappers
  import opened Models
  import opened Outcomes
  import opened Verifier
  import Confirmation
  import opened Records
  import opened Lifecycle
  import opened Traces
  import opened Counting
  import opened Scheduling

  /** The verdict on an attempt, given the charge that it was judged by. */
  function Rejudged(r: Record, a: Attempt, violation: Option<OutcomeViolation>): VerificationResult
    requires r.claim.Some?
  {
    VerifyCancellation(r.claim.value, a.evidence, a.eligible && a.checkCount >= r.maxChecks, violation,
                       ExpectationOf(r, a.attemptId, a.checkedAt))
  }

  predicate IsJudgedBy(r: Record, a: Attempt, w: OutcomeViolation) {
    r.claim.Some? && a.violationId == Some(w.violationId) && w.observedAt <= a.checkedAt
    && a.result == Rejudged(r, a, Some(w))
  }

  ghost predicate IsJudgedSoundly(r: Record, a: Attempt) {
    && r.claim.Some?
    && IsValidEvidence(a.evidence)
    && (a.violationId.None? ==> a.result == Rejudged(r, a, None))
    && (a.violationId.Some? ==> exists w :: w in r.violations && IsJudgedBy(r, a, w))
  }

  /** An eligible attempt uses the last check, a full interval after the attempt before it. */
  predicate EndsWindow(r: Record, i: nat)
    requires i < |r.attempts|
  {
    r.attempts[i].eligible ==>
      && 1 <= i
      && r.attempts[i].checkCount >= r.maxChecks
      && r.attempts[i - 1].checkCount == r.maxChecks - 1
      && r.attempts[i - 1].checkedAt + CHECK_INTERVAL * (r.maxChecks - 1) <= r.attempts[i].checkedAt
  }

  ghost predicate HasSoundAttempts(r: Record) {
    && (r.claim.Some? ==> IsValidReceipt(r.claim.value))
    && (forall i :: 0 <= i < |r.attempts| ==> IsJudgedSoundly(r, r.attempts[i]))
    && (forall i :: 0 <= i < |r.attempts| ==> EndsWindow(r, i))
  }

  lemma EvidenceIsAlwaysValid(seen: Reply<Evidence>, target: ResourceIdentity, attemptId: string)
    requires target.digest.TargetDigest? && !IsBlank(attemptId)
    ensures IsValidEvidence(EvidenceFor(seen, target, attemptId))
  {
  }

  lemma ReceiptIsAlwaysValid(answer: Reply<ActionReceipt>, freshId: string)
    requires !IsBlank(freshId)
    ensures IsValidReceipt(ReceiptFor(answer, freshId))
  {
  }

  /** Violations are only ever added, so an attempt judged soundly stays so. */
  lemma JudgementsLast(a: Record, b: Record, x: Attempt)
    requires IsJudgedSoundly(a, x)
    requires b.claim == a.claim && b.maxChecks == a.maxChecks && b.contract == a.contract
    requires b.target == a.target && b.ownerId == a.ownerId && b.resolutionId == a.resolutionId
    requires a.violations <= b.violations
    ensures IsJudgedSoundly(b, x)
  {
    hide VerifyCancellation, IsValidEvidence;
    if x.violationId.Some? {
      var w :| w in a.violations && IsJudgedBy(a, x, w);
      assert w in b.violations && IsJudgedBy(b, x, w);
    }
  }

  lemma NewAttemptIsSound(a: Record, op: Op)
    requires op.RecordCheck? && a.claim.Some? && a.target.digest.TargetDigest? && !IsBlank(op.attemptId)
    ensures IsJudgedSoundly(a, AttemptFor(a, op))
  {
    hide VerifyCancellation, IsValidEvidence;
    var x := AttemptFor(a, op);
    EvidenceIsAlwaysValid(op.seen, a.target, op.attemptId);
    var w := LatestViolation(a.violations, op.at);
    if w.Some? {
      assert w.value in a.violations && IsJudgedBy(a, x, w.value);
    }
  }

  lemma AttemptsStaySound(v: Confirmation.Verifier, a: Record, op: Op, b: Record)
    requires HasSoundAttempts(a) && IsCounted(a)
    requires StartsFrom(v, a, op) && SameLifecycle(LifecycleAfter(v, a, op), b)
    requires a.violations <= b.violations && HasFreshIds(op, a)
    requires a.target.digest.TargetDigest?
    requires op.RecordCheck? && op.eligible ==> MayEndWindow(a, op.at)
    ensures HasSoundAttempts(b)
  {
    hide Confirmation.VerifyAttestation, CancelActionDigest, ReceiptFor, EvidenceFor, Judge, IsValidEvidence;
    hide VerifyCancellation, IsJudgedSoundly, IsValidReceipt, RecheckRefusal, AttemptFor;
    if op.FirstClaim? {
      ReceiptIsAlwaysValid(op.answer, op.freshId);
    } else {
      forall i | 0 <= i < |a.attempts|
        ensures IsJudgedSoundly(b, a.attempts[i])
      {
        JudgementsLast(a, b, a.attempts[i]);
      }
      if op.RecordCheck? {
        NewAttemptIsSound(a, op);
        JudgementsLast(a, b, AttemptFor(a, op));
        AttemptFields(a, op);
        WindowsAreKept(a, AttemptFor(a, op), b);
      } else {
        assert forall i :: 0 <= i < |a.attempts| ==> EndsWindow(a, i) && b.attempts[i] == a.attempts[i];
        assert forall i :: 0 <= i < |b.attempts| ==> EndsWindow(b, i);
      }
    }
  }

  lemma WindowsAreKept(a: Record, x: Attempt, b: Record)
    requires forall i :: 0 <= i < |a.attempts| ==> EndsWindow(a, i)
    requires b.attempts == a.attempts + [x] && b.maxChecks == a.maxChecks
    requires x.checkCount == a.checkCount
    requires x.eligible ==> MayEndWindow(a, x.checkedAt)
    ensures forall i :: 0 <= i < |b.attempts| ==> EndsWindow(b, i)
  {
    forall i | 0 <= i < |b.attempts| ensures EndsWindow(b, i) {
      if i < |a.attempts| {
        assert EndsWindow(a, i);
      }
    }
  }

  lemma AttemptFields(a: Record, op: Op)
    requires op.RecordCheck? && a.claim.Some?
    ensures var x := AttemptFor(a, op);
            x.checkedAt == op.at && x.checkCount == a.checkCount && x.eligible == op.eligible
            && x.attemptId == op.attemptId
  {
  }
}
