/** Schedules along a trace: tokens are used once, and failure cannot be declared early. */
module Timing {
  import opened Wrappers
  import opened Models
  import opened Verifier
  import Confirmation
  import opened Records
  import opened Lifecycle
  import opened Contract
  import opened Traces
  import opened Counting
  import opened Scheduling
  import opened Attempts
  import opened Invariants
  import opened Growth
  import opened Verdicts

  lemma SchedulesMoveOn(a: Record, b: Record)
    requires IsScheduled(a) && IsScheduled(b) && Extends(a, b)
    requires HasValidAttempts(b.attempts, b.checkCount)
    requires a.nextCheckAt.Some? && b.nextCheckAt.Some?
    ensures if a.checkCount == b.checkCount then b.nextCheckAt == a.nextCheckAt
            else a.nextCheckAt.value + CHECK_INTERVAL <= b.nextCheckAt.value
  {
    hide IsWalk;
    assert b.attempts[|a.attempts| - 1] == Last(a.attempts);
  }

  /**
    Along a trace the schedule stays as it is until the next check is claimed, and then moves on by at
    least five minutes, forced checks included.
   */
  lemma SchedulesAreFiveMinutesApart(v: Confirmation.Verifier, tr: Trace, i: nat, j: nat)
    requires IsTrace(v, tr) && i <= j < |tr.rows|
    requires tr.rows[i].nextCheckAt.Some? && tr.rows[j].nextCheckAt.Some?
    ensures if tr.rows[i].checkCount == tr.rows[j].checkCount then tr.rows[j].nextCheckAt == tr.rows[i].nextCheckAt
            else tr.rows[i].nextCheckAt.value + CHECK_INTERVAL <= tr.rows[j].nextCheckAt.value
  {
    hide IsTrace, IsScheduled, Extends, HasValidAttempts, HasValidPhase, IsCounted, HasSoundAttempts;
    TraceRowsAreSound(v, tr, i);
    TraceRowsAreSound(v, tr, j);
    TraceRowsAreValid(v, tr, j);
    LaterRowsExtend(v, tr, i, j);
    SchedulesMoveOn(tr.rows[i], tr.rows[j]);
  }

  lemma ClaimCountsUp(v: Confirmation.Verifier, a: Record, op: Op, b: Record)
    requires op.Recheck? && Advances(v, a, op, b)
    ensures b.checkCount == a.checkCount + 1
    ensures op.scheduledFor.Some? && a.state == AWAITING_PROOF ==> a.nextCheckAt == op.scheduledFor
  {
    hide IsValid, Outcome, HasFreshIds, IsWritten, HasRunningRecovery;
    LifecycleOf(v, a, op, b);
  }

  /** A schedule token that claimed a check from AWAITING_PROOF can never claim another one. */
  lemma ScheduleTokensAreUsedOnce(v: Confirmation.Verifier, tr: Trace, i: nat, j: nat)
    requires IsTrace(v, tr) && i < j < |tr.ops|
    requires tr.ops[i].Recheck? && tr.ops[i].scheduledFor.Some? && tr.rows[i].state == AWAITING_PROOF
    ensures !(tr.ops[j].Recheck? && tr.ops[j].scheduledFor == tr.ops[i].scheduledFor && tr.rows[j].state == AWAITING_PROOF)
  {
    hide Advances, IsNewRecord, FollowsClaim, Extends;
    assert IsStep(v, tr, i);
    ClaimCountsUp(v, tr.rows[i], tr.ops[i], tr.rows[i + 1]);
    LaterRowsExtend(v, tr, i + 1, j);
    CountsGrow(tr.rows[i + 1], tr.rows[j]);
    if tr.ops[j].Recheck? && tr.rows[j].nextCheckAt.Some? {
      SchedulesAreFiveMinutesApart(v, tr, i, j);
    }
    if tr.ops[j].Recheck? {
      assert IsStep(v, tr, j);
      ClaimCountsUp(v, tr.rows[j], tr.ops[j], tr.rows[j + 1]);
    }
  }

  /** A token that was due once and that a later check has superseded claims nothing any more. */
  lemma SupersededTokensAreRefused(v: Confirmation.Verifier, tr: Trace, i: nat, j: nat)
    requires IsTrace(v, tr) && i <= j < |tr.ops|
    requires tr.rows[i].nextCheckAt.Some? && tr.rows[i].checkCount < tr.rows[j].checkCount
    ensures !(tr.ops[j].Recheck? && tr.ops[j].scheduledFor == tr.rows[i].nextCheckAt && tr.rows[j].state == AWAITING_PROOF)
  {
    hide Advances, IsNewRecord, FollowsClaim;
    if tr.ops[j].Recheck? {
      assert IsStep(v, tr, j);
      ClaimCountsUp(v, tr.rows[j], tr.ops[j], tr.rows[j + 1]);
      if tr.rows[j].nextCheckAt.Some? {
        SchedulesAreFiveMinutesApart(v, tr, i, j);
      }
    }
  }

  lemma CountsGrow(a: Record, b: Record)
    requires Extends(a, b)
    ensures a.checkCount <= b.checkCount
  {
  }

  // ----- the bounded window, when nobody forces a check

  predicate IsUnforced(op: Op) {
    op.Recheck? ==> !op.force
  }

  ghost predicate IsUnforcedUpTo(tr: Trace, n: nat)
    requires n <= |tr.ops|
  {
    forall k :: 0 <= k < n ==> IsUnforced(tr.ops[k])
  }

  /** When the first check was claimed. */
  function FirstClaimAt(r: Record): int
    requires |r.history| > 3
  {
    r.history[3].at
  }

  /** The time that `n` intervals take. */
  function Intervals(n: int): int {
    CHECK_INTERVAL * n
  }

  /** Every claim and every attempt comes at least five minutes after the one before. */
  predicate IsPaced(r: Record) {
    && (r.checkCount >= 1 ==>
          && |r.history| > 3 && r.history[3].state == VERIFYING
          && LastEntry(r.history, VERIFYING).Some?
          && FirstClaimAt(r) + Intervals(r.checkCount - 1) <= LastEntry(r.history, VERIFYING).value)
    && (forall i :: 0 <= i < |r.attempts| ==>
          && |r.history| > 3
          && FirstClaimAt(r) + Intervals(r.attempts[i].checkCount - 1) <= r.attempts[i].checkedAt)
  }

  /** The time constraints that an unforced claim meets. */
  lemma UnforcedClaimsWait(a: Record, op: Op)
    requires op.Recheck? && !op.force
    requires RecheckRefusal(a, op.at, op.scheduledFor, op.force).None?
    requires IsScheduled(a) && a.maxChecks == MAX_VERIFICATION_CHECKS && 1 <= a.checkCount
    requires Last(a.history).at <= a.updatedAt
    requires LastEntry(a.history, VERIFYING).Some?
    requires a.state == VERIFYING ==> Last(a.history).state == VERIFYING
    requires a.state == AWAITING_PROOF ==> a.verifiedAt.Some? && LastEntry(a.history, VERIFYING).value <= a.verifiedAt.value
    ensures LastEntry(a.history, VERIFYING).value + CHECK_INTERVAL <= op.at
  {
    hide HasRunningRecovery;
  }

  lemma PaceOfClaim(a: Record, op: Op, b: Record)
    requires IsPaced(a) && IsCounted(a)
    requires (op.FirstClaim? && a.state == EXECUTING) || (op.Recheck? && 1 <= a.checkCount)
    requires op.Recheck? ==> LastEntry(a.history, VERIFYING).Some?
                             && LastEntry(a.history, VERIFYING).value + CHECK_INTERVAL <= op.at
    requires b.checkCount == a.checkCount + 1 && b.attempts == a.attempts
    requires b.history == a.history + [Transition(VERIFYING, op.at, None, None)]
    ensures IsPaced(b)
  {
    HistoryPlusOne(a.history, Transition(VERIFYING, op.at, None, None));
    assert op.Recheck? ==> b.history[3] == a.history[3];
  }

  lemma PaceOfCheck(a: Record, x: Attempt, b: Record, t: Transition)
    requires IsPaced(a) && IsCounted(a) && a.state == VERIFYING
    requires b.checkCount == a.checkCount && b.attempts == a.attempts + [x] && b.history == a.history + [t]
    requires t.state != VERIFYING && x.checkCount == a.checkCount
    requires LastEntry(b.history, VERIFYING).Some? && LastEntry(b.history, VERIFYING).value <= x.checkedAt
    ensures IsPaced(b)
  {
    HistoryPlusOne(a.history, t);
    assert b.history[3] == a.history[3];
  }

  lemma PaceIsKept(v: Confirmation.Verifier, a: Record, op: Op, b: Record)
    requires IsPaced(a) && IsValid(a) && IsCounted(a) && IsScheduled(a)
    requires Advances(v, a, op, b) && IsUnforced(op)
    ensures IsPaced(b)
  {
    hide IsPaced, IsScheduled, IsCounted, Outcome, IsWritten, HasFreshIds, IsBound, HasValidAttempts, IsConfirmed;
    hide RecheckRefusal, AttestationFor, ReceiptFor, AttemptFor, Recomputed;
    LifecycleOf(v, a, op, b);
    AdvanceKeepsIdentity(v, a, op, b);
    if op.FirstClaim? {
      PaceOfClaim(a, op, b);
    } else if op.Recheck? {
      CountedRecheck(a, op.at, op.scheduledFor, op.force);
      UnforcedClaimsWait(a, op);
      PaceOfClaim(a, op, b);
    } else if op.RecordCheck? {
      AttemptFields(a, op);
      PaceOfCheck(a, AttemptFor(a, op), b, Last(b.history));
    } else {
      UnstartedIsEmpty(a);
      PaceOfOthers(a, b);
    }
  }

  lemma UnstartedIsEmpty(a: Record)
    requires IsCounted(a)
    ensures a.state == AWAITING_CONFIRMATION ==> a.checkCount == 0 && a.attempts == []
  {
  }

  lemma CountedRecheck(a: Record, now: int, scheduledFor: Option<int>, force: bool)
    requires IsCounted(a) && RecheckRefusal(a, now, scheduledFor, force).None?
    requires |a.attempts| <= a.checkCount
    requires IsScheduled(a)
    ensures a.state == AWAITING_PROOF || a.state == VERIFYING
    ensures 1 <= a.checkCount && a.maxChecks == MAX_VERIFICATION_CHECKS
    ensures a.state == AWAITING_PROOF ==> a.verifiedAt.Some?
  {
    hide HasRunningRecovery;
  }

  lemma PaceOfOthers(a: Record, b: Record)
    requires IsPaced(a)
    requires b.checkCount == a.checkCount && b.attempts == a.attempts
    requires b.history == a.history
             || (a.checkCount == 0 && a.attempts == [] && a.history <= b.history)
    ensures IsPaced(b)
  {
    hide LastEntry, Intervals, FirstClaimAt;
    if b.history == a.history {
      forall i | 0 <= i < |b.attempts|
        ensures |b.history| > 3
        ensures FirstClaimAt(b) + Intervals(b.attempts[i].checkCount - 1) <= b.attempts[i].checkedAt
      {
        assert a.attempts[i] == b.attempts[i];
        StartIsInHistory(a, b);
      }
      if b.checkCount >= 1 {
        StartIsInHistory(a, b);
      }
    }
  }

  lemma StartIsInHistory(a: Record, b: Record)
    requires |a.history| > 3 && b.history == a.history
    ensures FirstClaimAt(b) == FirstClaimAt(a)
  {
  }

  lemma NewRecordIsPaced(r: Record)
    requires IsNewRecord(r)
    ensures IsPaced(r)
  {
    NewRecordIsValid(r);
  }

  lemma {:induction false} UnforcedRowsArePaced(v: Confirmation.Verifier, tr: Trace, i: nat)
    requires IsTrace(v, tr) && i < |tr.rows| && IsUnforcedUpTo(tr, i)
    ensures IsPaced(tr.rows[i])
    decreases i
  {
    hide IsValid, Advances, IsNewRecord, FollowsClaim, IsPaced, IsCounted, IsScheduled, HasSoundAttempts, IsUnforced;
    if i == 0 {
      NewRecordIsPaced(tr.rows[0]);
    } else {
      UnforcedRowsArePaced(v, tr, i - 1);
      TraceRowsAreValid(v, tr, i - 1);
      TraceRowsAreSound(v, tr, i - 1);
      assert IsStep(v, tr, i - 1);
      assert IsUnforced(tr.ops[i - 1]);
      PaceIsKept(v, tr.rows[i - 1], tr.ops[i - 1], tr.rows[i]);
    }
  }

  /**
    When no check is forced, failure without a charge comes at least 25 minutes after the first check
    was claimed, whichever checks were interrupted and resumed.
   */
  lemma FailureTakesTwentyFiveMinutes(v: Confirmation.Verifier, tr: Trace, i: nat)
    requires IsTrace(v, tr) && i < |tr.rows| && IsUnforcedUpTo(tr, i)
    requires tr.rows[i].state == NOT_COMPLETED && !exists w :: RestsOnCharge(tr.rows[i], w)
    ensures |tr.rows[i].history| > 3 && tr.rows[i].history[3].state == VERIFYING
    ensures FirstClaimAt(tr.rows[i]) + 25 * MINUTE <= Last(tr.rows[i].history).at
  {
    hide IsTrace, RestsOnCharge, IsUnforcedUpTo, HasSoundAttempts, IsFreshEvidence, IsCorrelatedEvidence, IsAcceptedReceipt;
    NotCompletedRestsOnRefutation(v, tr, i);
    UnforcedRowsArePaced(v, tr, i);
    TraceRowsAreSound(v, tr, i);
    var r := tr.rows[i];
    assert FirstClaimAt(r) + CHECK_INTERVAL * (r.attempts[|r.attempts| - 2].checkCount - 1)
           <= r.attempts[|r.attempts| - 2].checkedAt;
  }

  // ----- the length of a stored row

  /** Once started, a history has three entries, one for each claim and one for each attempt: eleven at most. */
  lemma HistoriesAreBounded(v: Confirmation.Verifier, tr: Trace, i: nat)
    requires IsTrace(v, tr) && i < |tr.rows|
    ensures Entries(tr.rows[i].history, VERIFYING) == tr.rows[i].checkCount <= MAX_VERIFICATION_CHECKS
    ensures HasStarted(tr.rows[i]) ==> |tr.rows[i].history| == 3 + tr.rows[i].checkCount + |tr.rows[i].attempts|
    ensures |tr.rows[i].history| <= 11
  {
    hide IsTrace, HasValidPhase, HasValidSchedule, IsBound, HasSoundAttempts;
    TraceRowsAreValid(v, tr, i);
    TraceRowsAreSound(v, tr, i);
  }
}
