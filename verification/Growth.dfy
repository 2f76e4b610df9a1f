/** Later rows of a trace extend earlier ones. */
module Growth {
  import opened Outcomes
  import Confirmation
  import opened Records
  import opened Lifecycle
  import opened Contract
  import opened Traces
  import opened Counting
  import opened Recoveries
  import opened Invariants

  /** What never changes, and what is only ever appended to. */
  predicate Extends(a: Record, b: Record) {
    && b.ownerId == a.ownerId && b.resolutionId == a.resolutionId && b.intent == a.intent
    && b.providerMode == a.providerMode && b.target == a.target && b.contract == a.contract
    && b.createdAt == a.createdAt && b.maxChecks == a.maxChecks
    && a.history <= b.history
    && a.attempts <= b.attempts
    && a.violations <= b.violations
    && a.checkCount <= b.checkCount
    && (a.confirmedAt.Some? ==> b.confirmedAt == a.confirmedAt)
    && (a.claim.Some? ==> b.claim == a.claim)
  }

  lemma LifecycleExtends(v: Confirmation.Verifier, a: Record, op: Op, b: Record)
    requires StartsFrom(v, a, op) && SameLifecycle(LifecycleAfter(v, a, op), b)
    requires a.violations <= b.violations
    requires a.state == AWAITING_CONFIRMATION ==> a.confirmedAt.None?
    requires a.state == EXECUTING ==> a.claim.None?
    ensures Extends(a, b) && |b.history| <= |a.history| + 1
  {
    hide Confirmation.VerifyAttestation, CancelActionDigest, ReceiptFor, AttemptFor;
  }

  lemma AdvanceExtends(v: Confirmation.Verifier, a: Record, op: Op, b: Record)
    requires IsValid(a) && HasTrackedViolations(a) && Advances(v, a, op, b)
    ensures Extends(a, b) && |b.history| <= |a.history| + 1
  {
    hide Outcome, StartsFrom, LifecycleAfter, IsWritten, HasFreshIds, HasTrackedViolations, IsConfirmed, HasExecuted;
    LifecycleOf(v, a, op, b);
    ViolationsGrow(v, a, op, b);
    LifecycleExtends(v, a, op, b);
  }

  lemma ExtendsIsTransitive(a: Record, b: Record, c: Record)
    requires Extends(a, b) && Extends(b, c)
    ensures Extends(a, c)
  {
  }

  /**
    For two stored versions the earlier history is a prefix of the later one, which is longer by no
    more than the number of saves in between.
   */
  lemma {:induction false} LaterRowsExtend(v: Confirmation.Verifier, tr: Trace, i: nat, j: nat)
    requires IsTrace(v, tr) && i <= j < |tr.rows|
    ensures Extends(tr.rows[i], tr.rows[j])
    ensures |tr.rows[j].history| - |tr.rows[i].history| <= j - i
    decreases j
  {
    hide IsValid, Advances, IsNewRecord, FollowsClaim, IsSound, Extends;
    if i == j {
      ExtendsItself(tr.rows[i]);
    } else {
      LaterRowsExtend(v, tr, i, j - 1);
      TraceRowsAreSound(v, tr, j - 1);
      TraceRowsAreValid(v, tr, j - 1);
      SoundHasTracked(tr.rows[j - 1]);
      assert IsStep(v, tr, j - 1);
      AdvanceExtends(v, tr.rows[j - 1], tr.ops[j - 1], tr.rows[j]);
      ExtendsIsTransitive(tr.rows[i], tr.rows[j - 1], tr.rows[j]);
    }
  }

  lemma ExtendsItself(a: Record)
    ensures Extends(a, a)
  {
  }

  lemma SoundHasTracked(a: Record)
    requires IsSound(a)
    ensures HasTrackedViolations(a)
  {
  }

  /** A stored history holds at most one EXECUTING entry, and is a walk of the transition graph. */
  lemma HistoriesAreWalks(v: Confirmation.Verifier, tr: Trace, i: nat)
    requires IsTrace(v, tr) && i < |tr.rows|
    ensures IsWalk(tr.rows[i].history) && Last(tr.rows[i].history).state == tr.rows[i].state
    ensures Entries(tr.rows[i].history, EXECUTING) == if HasStarted(tr.rows[i]) then 1 else 0
  {
    hide IsTrace, HasValidPhase, HasValidSchedule, IsBound;
    TraceRowsAreValid(v, tr, i);
    TraceRowsAreSound(v, tr, i);
  }

  /** A terminal row is the last one: it is never written again. */
  lemma TerminalRowsAreFinal(v: Confirmation.Verifier, tr: Trace, i: nat)
    requires IsTrace(v, tr) && i < |tr.rows| && IsTerminal(tr.rows[i].state)
    ensures i == |tr.rows| - 1
  {
    hide Advances, IsNewRecord, FollowsClaim;
    if i < |tr.ops| {
      assert IsStep(v, tr, i);
      AdvanceKeepsIdentity(v, tr.rows[i], tr.ops[i], tr.rows[i + 1]);
    }
  }

  // ----- the cancellation is confirmed once

  /** Once a resolution has started it never awaits confirmation again. */
  lemma StartingIsForGood(v: Confirmation.Verifier, a: Record, op: Op, b: Record)
    requires Advances(v, a, op, b)
    ensures HasStarted(a) ==> HasStarted(b)
    ensures op.Confirm? ==> a.state == AWAITING_CONFIRMATION && b.state == EXECUTING
    ensures !op.Confirm? && !HasStarted(a) ==> !HasStarted(b)
  {
    hide IsValid, Outcome, IsWritten, HasFreshIds;
    hide Confirmation.VerifyAttestation, CancelActionDigest, ReceiptFor, EvidenceFor, RecheckRefusal, AttemptFor;
    LifecycleOf(v, a, op, b);
    if op.Recheck? {
      RecheckStarts(a, op.at, op.scheduledFor, op.force);
    }
  }

  lemma StartedRowsStayStarted(v: Confirmation.Verifier, tr: Trace, i: nat, j: nat)
    requires IsTrace(v, tr) && i <= j < |tr.rows| && HasStarted(tr.rows[i])
    ensures HasStarted(tr.rows[j])
    decreases j
  {
    hide Advances, IsNewRecord, FollowsClaim;
    if i < j {
      StartedRowsStayStarted(v, tr, i, j - 1);
      assert IsStep(v, tr, j - 1);
      StartingIsForGood(v, tr.rows[j - 1], tr.ops[j - 1], tr.rows[j]);
    }
  }

  /** A trace holds at most one accepted confirmation. */
  lemma ConfirmedOnce(v: Confirmation.Verifier, tr: Trace, i: nat, j: nat)
    requires IsTrace(v, tr) && i < j < |tr.ops|
    requires tr.ops[i].Confirm?
    ensures !tr.ops[j].Confirm?
    ensures HasStarted(tr.rows[j])
  {
    hide Advances, IsNewRecord, FollowsClaim;
    assert IsStep(v, tr, i);
    assert IsStep(v, tr, j);
    StartingIsForGood(v, tr.rows[i], tr.ops[i], tr.rows[i + 1]);
    StartedRowsStayStarted(v, tr, i + 1, j);
    StartingIsForGood(v, tr.rows[j], tr.ops[j], tr.rows[j + 1]);
  }

  // ----- a recovery is claimed once

  /** The save claims recovery `id` for execution. */
  predicate ClaimsRecovery(a: Record, op: Op, b: Record, id: string) {
    && op.Decide? && op.recoveryId == id
    && exists i :: 0 <= i < |a.recoveries| && i < |b.recoveries| && a.recoveries[i].recoveryId == id
                   && a.recoveries[i].state == AwaitingConfirmation && b.recoveries[i].state == Executing
  }

  lemma RecoveriesExtend(v: Confirmation.Verifier, tr: Trace, i: nat, j: nat, n: nat)
    requires IsTrace(v, tr) && i <= j < |tr.rows| && n < |tr.rows[i].recoveries|
    ensures n < |tr.rows[j].recoveries|
    ensures tr.rows[j].recoveries[n].recoveryId == tr.rows[i].recoveries[n].recoveryId
    ensures tr.rows[j].recoveries[n].digest == tr.rows[i].recoveries[n].digest
    ensures tr.rows[i].recoveries[n].state != AwaitingConfirmation ==>
              tr.rows[j].recoveries[n].state != AwaitingConfirmation
    decreases j
  {
    hide IsValid, Advances, IsNewRecord, FollowsClaim, LeavesExecuting, HasOrderlyRecoveries;
    if i < j {
      RecoveriesExtend(v, tr, i, j - 1, n);
      RowHasOrder(v, tr, j - 1);
      assert IsStep(v, tr, j - 1);
      RecoveriesKeepOrder(v, tr.rows[j - 1], tr.ops[j - 1], tr.rows[j]);
      assert IsSuccessor(tr.rows[j - 1].recoveries[n], tr.rows[j].recoveries[n]);
    }
  }

  /**
    From one stored row to the next, each recovery stays as it is or makes one move that its protocol
    allows, and what is added still awaits its confirmation.
   */
  lemma RecoveriesMoveByProtocol(v: Confirmation.Verifier, tr: Trace, i: nat)
    requires IsTrace(v, tr) && i < |tr.ops|
    ensures |tr.rows| == |tr.ops| + 1
    ensures RecoveriesAdvance(tr.rows[i].recoveries, tr.rows[i + 1].recoveries)
    ensures LeavesExecuting(tr.rows[i], tr.ops[i], tr.rows[i + 1])
  {
    hide Advances, IsNewRecord, FollowsClaim, HasOrderlyRecoveries, RecoveriesAdvance, LeavesExecuting;
    RowHasOrder(v, tr, i);
    assert IsStep(v, tr, i);
    RecoveriesKeepOrder(v, tr.rows[i], tr.ops[i], tr.rows[i + 1]);
  }

  lemma RowHasOrder(v: Confirmation.Verifier, tr: Trace, i: nat)
    requires IsTrace(v, tr) && i < |tr.rows|
    ensures HasOrderlyRecoveries(tr.rows[i])
  {
    hide IsTrace, HasOrderlyRecoveries;
    TraceRowsAreSound(v, tr, i);
  }

  /** Each recovery is claimed for execution at most once, whoever asks and however often. */
  lemma RecoveryClaimedOnce(v: Confirmation.Verifier, tr: Trace, i: nat, j: nat, id: string)
    requires IsTrace(v, tr) && i < j < |tr.ops|
    requires ClaimsRecovery(tr.rows[i], tr.ops[i], tr.rows[i + 1], id)
    ensures !ClaimsRecovery(tr.rows[j], tr.ops[j], tr.rows[j + 1], id)
  {
    hide Advances, IsNewRecord, FollowsClaim, HasOrderlyRecoveries;
    var n :| 0 <= n < |tr.rows[i].recoveries| && n < |tr.rows[i + 1].recoveries|
             && tr.rows[i].recoveries[n].recoveryId == id && tr.rows[i + 1].recoveries[n].state == Executing;
    RecoveriesExtend(v, tr, i, j, n);
    RecoveriesExtend(v, tr, i + 1, j, n);
    RowHasOrder(v, tr, j);
    IdentifiersAreDistinct(tr.rows[j]);
  }

  lemma IdentifiersAreDistinct(r: Record)
    requires HasOrderlyRecoveries(r)
    ensures forall m, n :: 0 <= m < n < |r.recoveries| ==> r.recoveries[m].recoveryId != r.recoveries[n].recoveryId
  {
  }
}
