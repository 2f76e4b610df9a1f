/** What the two terminal states rest on, in every row that any trace stores. */
module Verdicts {
  import opened Wrappers
  import opened Models
  import opened Outcomes
  import opened Verifier
  import Confirmation
  import opened Records
  import opened Lifecycle
  import opened Contract
  import opened Traces
  import opened Counting
  import opened Scheduling
  import opened Attempts
  import opened Recoveries
  import opened Invariants
  import opened Saving
  import opened Growth

  /** The expectation that the last check of a record was judged against. */
  function LastExpectation(r: Record): Expectation
    requires r.attempts != []
  {
    ExpectationOf(r, Last(r.attempts).attemptId, Last(r.attempts).checkedAt)
  }

  /** Fresh independent proof for this target and this attempt, and no charge by the time of the check. */
  predicate RestsOnProof(r: Record) {
    && r.claim.Some? && r.attempts != [] && r.evidence == Some(Last(r.attempts).evidence)
    && IsProofOfCancellation(r.claim.value, Last(r.attempts).evidence, LastExpectation(r))
    && forall i :: 0 <= i < |r.violations| ==> Last(r.attempts).checkedAt < r.violations[i].observedAt
  }

  /** A stored charge between the deadline and the check, at most seven days old. */
  predicate RestsOnCharge(r: Record, w: OutcomeViolation) {
    && r.attempts != [] && r.contract.Some? && r.contract.value.deadlineAt.Some?
    && w in r.violations
    && r.contract.value.deadlineAt.value <= w.observedAt <= Last(r.attempts).checkedAt
    && Last(r.attempts).checkedAt - w.observedAt <= MAX_VIOLATION_AGE
  }

  /** The budget is used up, the subscription still renews, and the last check came a full interval late. */
  predicate RestsOnWindow(r: Record) {
    && |r.attempts| >= 2 && r.claim.Some?
    && r.checkCount == r.maxChecks
    && var last := r.attempts[|r.attempts| - 1];
       var previous := r.attempts[|r.attempts| - 2];
       && r.evidence == Some(last.evidence)
       && IsProofOfRenewal(r.claim.value, last.evidence, LastExpectation(r))
       && previous.checkCount == r.maxChecks - 1
       && previous.checkedAt + CHECK_INTERVAL * (r.maxChecks - 1) <= last.checkedAt
  }

  lemma VerifiedRowRestsOnProof(r: Record)
    requires IsScheduled(r) && HasSoundAttempts(r) && IsChargeFreeWhenVerified(r)
    requires r.state == VERIFIED
    ensures RestsOnProof(r)
  {
    hide VerifyCancellation, IsProofOfCancellation, EndsWindow;
    var x := Last(r.attempts);
    assert IsJudgedSoundly(r, r.attempts[|r.attempts| - 1]);
    assert forall w :: w in r.violations ==> !IsJudgedBy(r, x, w);
    PassExactlyForProof(r.claim.value, x.evidence, x.eligible && x.checkCount >= r.maxChecks, None, LastExpectation(r));
  }

  lemma NotCompletedRowRestsOnRefutation(r: Record)
    requires IsScheduled(r) && HasSoundAttempts(r) && IsCounted(r) && HasValidBudget(r)
    requires r.state == NOT_COMPLETED
    ensures RestsOnWindow(r) || exists w :: RestsOnCharge(r, w)
  {
    hide VerifyCancellation, IsFreshEvidence, IsAcceptedReceipt, IsCorrelatedEvidence;
    var x := r.attempts[|r.attempts| - 1];
    assert IsJudgedSoundly(r, x);
    assert EndsWindow(r, |r.attempts| - 1);
    var w: Option<OutcomeViolation> := None;
    if x.violationId.Some? {
      var y :| y in r.violations && IsJudgedBy(r, x, y);
      w := Some(y);
    }
    FailExactlyForRefutation(r.claim.value, x.evidence, x.eligible && x.checkCount >= r.maxChecks, w, LastExpectation(r));
    if w.Some? {
      assert RestsOnCharge(r, w.value);
    }
  }

  /** Every stored VERIFIED row rests on proof, whatever the provider claimed and however the writers interleaved. */
  lemma VerifiedRestsOnProof(v: Confirmation.Verifier, tr: Trace, i: nat)
    requires IsTrace(v, tr) && i < |tr.rows| && tr.rows[i].state == VERIFIED
    ensures RestsOnProof(tr.rows[i])
    ensures tr.rows[i].evidence.value.freshness.Some? && tr.rows[i].evidence.value.freshness.value <= MAX_EVIDENCE_AGE_SECONDS
  {
    hide IsTrace, IsCounted, HasOrderlyRecoveries, HasTrackedViolations, HasSoundAttempts, IsScheduled;
    hide IsCorrelatedEvidence, IsAcceptedReceipt, IsValidEvidence;
    TraceRowsAreSound(v, tr, i);
    VerifiedRowRestsOnProof(tr.rows[i]);
  }

  /** Every stored NOT_COMPLETED row rests on a correlated charge or on the whole bounded window. */
  lemma NotCompletedRestsOnRefutation(v: Confirmation.Verifier, tr: Trace, i: nat)
    requires IsTrace(v, tr) && i < |tr.rows| && tr.rows[i].state == NOT_COMPLETED
    ensures RestsOnWindow(tr.rows[i]) || exists w :: RestsOnCharge(tr.rows[i], w)
  {
    hide IsTrace, IsCounted, HasOrderlyRecoveries, HasTrackedViolations, HasSoundAttempts, IsScheduled;
    hide RestsOnWindow, RestsOnCharge, HasValidPhase, HasValidSchedule, IsBound;
    TraceRowsAreSound(v, tr, i);
    TraceRowsAreValid(v, tr, i);
    NotCompletedRowRestsOnRefutation(tr.rows[i]);
  }

  /**
    Once a charge is stored, no check made at or after it is ever stored as VERIFIED, even if that check
    was already in flight when the charge was recorded.
   */
  lemma ChargeRulesOutVerified(v: Confirmation.Verifier, tr: Trace, i: nat, j: nat, w: OutcomeViolation)
    requires IsTrace(v, tr) && i <= j < |tr.rows|
    requires w in tr.rows[i].violations && tr.rows[j].state == VERIFIED
    ensures RestsOnProof(tr.rows[j]) && Last(tr.rows[j].attempts).checkedAt < w.observedAt
  {
    hide IsTrace, IsProofOfCancellation;
    LaterRowsExtend(v, tr, i, j);
    VerifiedRestsOnProof(v, tr, j);
  }

  /** In a terminal row every support follow-up is settled, and it counts as completed only with VERIFIED. */
  lemma FollowupsAreSettled(v: Confirmation.Verifier, tr: Trace, i: nat, n: nat)
    requires IsTrace(v, tr) && i < |tr.rows| && n < |tr.rows[i].recoveries| && IsFollowup(tr.rows[i].recoveries[n])
    ensures tr.rows[i].recoveries[n].state == Completed ==> tr.rows[i].state == VERIFIED
    ensures IsTerminal(tr.rows[i].state) ==>
              tr.rows[i].recoveries[n].state != Executing && tr.rows[i].recoveries[n].state != Verifying
  {
    hide Advances, IsNewRecord, FollowsClaim;
    RowHasOrder(v, tr, i);
    assert SuitsState(tr.rows[i].recoveries[n], tr.rows[i].state);
  }
  // ----- when a check ends a resolution

  lemma JudgementIsExact(a: Record, op: Op)
    requires IsBound(a) && HasTrackedViolations(a) && op.RecordCheck? && a.claim.Some?
    ensures var x := AttemptFor(a, op);
            var w, expected := LatestViolation(a.violations, op.at), ExpectationOf(a, op.attemptId, op.at);
            && (x.result.verdict == PASS <==> w.None? && IsProofOfCancellation(a.claim.value, x.evidence, expected))
            && (x.result.verdict == FAIL <==>
                  if w.Some? then op.at - w.value.observedAt <= MAX_VIOLATION_AGE
                  else op.eligible && a.checkCount >= a.maxChecks && IsProofOfRenewal(a.claim.value, x.evidence, expected))
  {
    hide VerifyCancellation, IsProofOfCancellation, EvidenceFor, IsBound, HasTrackedViolations, IsCorrelatedViolation;
    hide IsReliable, IsLateCharge, ExpectationOf;
    var x := AttemptFor(a, op);
    var w, expected := LatestViolation(a.violations, op.at), ExpectationOf(a, op.attemptId, op.at);
    var last := op.eligible && a.checkCount >= a.maxChecks;
    PassExactlyForProof(a.claim.value, x.evidence, last, w, expected);
    FailExactlyForRefutation(a.claim.value, x.evidence, last, w, expected);
    if w.Some? {
      LateChargesAreCorrelated(w.value, expected);
      ViolationIsCorrelated(a, w.value, op.attemptId, op.at);
    }
  }

  /**
    A stored check leaves VERIFIED exactly for proof of cancellation while no charge was observed by then; it
    leaves NOT_COMPLETED exactly if the latest charge observed by then is at most seven days old, whatever
    receipt and read-back say and however many checks are left, or, with no charge, if the eligible last check
    has proof of renewal.
   */
  lemma ChecksDecideExactly(v: Confirmation.Verifier, tr: Trace, i: nat)
    requires IsTrace(v, tr) && i < |tr.ops| && tr.ops[i].RecordCheck?
    ensures var a, op, b := tr.rows[i], tr.ops[i], tr.rows[i + 1];
            var w, expected := LatestViolation(a.violations, op.at), ExpectationOf(a, op.attemptId, op.at);
            && a.claim.Some? && b.evidence == Some(EvidenceFor(op.seen, a.target, op.attemptId))
            && (b.state == VERIFIED <==>
                  w.None? && IsProofOfCancellation(a.claim.value, b.evidence.value, expected))
            && (b.state == NOT_COMPLETED <==>
                  if w.Some? then op.at - w.value.observedAt <= MAX_VIOLATION_AGE
                  else op.eligible && a.checkCount >= a.maxChecks
                       && IsProofOfRenewal(a.claim.value, b.evidence.value, expected))
  {
    hide Advances, IsNewRecord, FollowsClaim, IsProofOfCancellation, IsProofOfRenewal, Judge, ExpectationOf;
    hide EvidenceFor, HasValidPhase, HasValidHistory, HasValidAttempts, HasSoundAttempts, IsScheduled, IsCounted;
    hide HasOrderlyRecoveries, IsBound, HasTrackedViolations, LatestViolation;
    assert IsStep(v, tr, i);
    var a, op, b := tr.rows[i], tr.ops[i], tr.rows[i + 1];
    TraceRowsAreValid(v, tr, i);
    TraceRowsAreSound(v, tr, i);
    LifecycleOf(v, a, op, b);
    JudgementIsExact(a, op);
  }
}
