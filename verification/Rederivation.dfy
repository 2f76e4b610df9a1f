/** Every stored attempt can be judged again from the stored row alone, with the same result. */
module Rederivation {
  import opened Wrappers
  import opened Models
  import opened Outcomes
  import opened Verifier
  import Confirmation
  import opened Records
  import opened Lifecycle
  import opened Contract
  import opened Traces
  import opened Counting
  import opened Scheduling
  import opened Attempts
  import opened Recoveries
  import opened Attention
  import opened Invariants
  import opened Saving

  /** The charge an attempt names is stored, and judging by it gives the stored result. */
  predicate IsRederivable(r: Record, a: Attempt) {
    && r.claim.Some?
    && (a.violationId.Some? ==> ViolationById(r.violations, a.violationId).Some?)
    && a.result == Rejudged(r, a, ViolationById(r.violations, a.violationId))
  }

  predicate HasRederivableAttempts(r: Record) {
    forall i :: 0 <= i < |r.attempts| ==> IsRederivable(r, r.attempts[i])
  }

  lemma RederivingIsKept(a: Record, b: Record, x: Attempt)
    requires IsRederivable(a, x)
    requires b.claim == a.claim && b.maxChecks == a.maxChecks && b.contract == a.contract
    requires b.target == a.target && b.ownerId == a.ownerId && b.resolutionId == a.resolutionId
    requires a.violations <= b.violations
    ensures IsRederivable(b, x)
  {
    hide VerifyCancellation, ViolationById;
    if x.violationId.Some? {
      FirstMatchStays(a.violations, b.violations, x.violationId);
    } else {
      NoneNamesNone(a.violations);
      NoneNamesNone(b.violations);
    }
  }

  lemma NoneNamesNone(vs: seq<OutcomeViolation>)
    ensures ViolationById(vs, None).None?
  {
  }

  lemma NewAttemptIsRederivable(a: Record, op: Op)
    requires op.RecordCheck? && a.claim.Some? && IsBound(a) && HasTrackedViolations(a)
    requires IsTraceable(a.violations, op.at)
    ensures IsRederivable(a, AttemptFor(a, op))
  {
    hide IsValidEvidence, IsAcceptedReceipt, EvidenceFor, RecoveryActionDigest, DemoResourceIdentity, IsBoundRecovery;
    hide IsCorrelatedViolation, IsCorrelatedEvidence;
    var x := AttemptFor(a, op);
    var latest := LatestViolation(a.violations, op.at);
    if latest.Some? {
      var w := latest.value;
      var found := ViolationById(a.violations, Some(w.violationId)).value;
      ViolationIsCorrelated(a, w, op.attemptId, op.at);
      ViolationIsCorrelated(a, found, op.attemptId, op.at);
    } else {
      NoneNamesNone(a.violations);
    }
  }

  lemma RederivabilityIsKept(v: Confirmation.Verifier, a: Record, op: Op, b: Record)
    requires HasRederivableAttempts(a) && IsSound(a) && IsValid(a)
    requires Advances(v, a, op, b)
    ensures HasRederivableAttempts(b)
  {
    hide IsValid, IsCounted, IsScheduled, HasSoundAttempts, HasOrderlyRecoveries, HasDistinctAttention, HasTrackedViolations;
    hide Outcome, HasFreshIds, IsChargeFreeWhenVerified, IsRederivable, IsTraceable, IsWritten;
    hide Confirmation.VerifyAttestation, CancelActionDigest, ReceiptFor, AttemptFor, RecheckRefusal;
    LifecycleOf(v, a, op, b);
    ViolationsGrow(v, a, op, b);
    NoAttemptsBeforeClaim(a);
    forall i | 0 <= i < |a.attempts|
      ensures !op.FirstClaim? ==> IsRederivable(b, a.attempts[i])
    {
      if !op.FirstClaim? {
        assert IsRederivable(a, a.attempts[i]);
        RederivingIsKept(a, b, a.attempts[i]);
      }
    }
    if op.RecordCheck? {
      PartsOf(a);
      OutcomeIsValid(v, a, op, Outcome(v, op, a).value);
      NewAttemptIsRederivable(a, op);
      RederivingIsKept(a, b, AttemptFor(a, op));
    }
  }

  lemma NoAttemptsBeforeClaim(a: Record)
    requires IsCounted(a)
    ensures a.state == EXECUTING ==> a.attempts == []
  {
  }

  lemma {:induction false} TraceRowsAreRederivable(v: Confirmation.Verifier, tr: Trace, i: nat)
    requires IsTrace(v, tr) && i < |tr.rows|
    ensures HasRederivableAttempts(tr.rows[i])
    decreases i
  {
    hide IsValid, Advances, IsNewRecord, FollowsClaim, IsSound, IsRederivable;
    if i == 0 {
      NewRecordIsValid(tr.rows[0]);
    } else {
      TraceRowsAreRederivable(v, tr, i - 1);
      TraceRowsAreSound(v, tr, i - 1);
      TraceRowsAreValid(v, tr, i - 1);
      assert IsStep(v, tr, i - 1);
      RederivabilityIsKept(v, tr.rows[i - 1], tr.ops[i - 1], tr.rows[i]);
    }
  }
}
